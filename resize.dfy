/** The resize node of pepedd/nodes/resize/resize.py: the size bookkeeping of
    `adjust_number`, the name dispatch of `get_resize`, the draws and
    early returns of the resampling helpers, and `Resize.forward`. The pixel
    resampling itself (the image library's `resize` and `dpid_resize`) is a
    parameter of this model. */
module Resize {

  import opened Wrappers
  import opened PyText
  import opened Rng
  import opened Images
  import opened Nodes
  import opened ResizeTables

  // ---------------------------------------------------------------------------
  // adjust_number
  // ---------------------------------------------------------------------------

  lemma NonNegProduct(a: int, b: int)
    requires a >= 0 && b >= 0
    ensures a * b >= 0
  {
  }

  /** A multiple of `d` leaves no remainder. */
  lemma MultipleHasNoRemainder(d: int, k: int)
    requires d != 0
    ensures FloorMod(d * k, d) == 0
  {
    var m := k - FloorDiv(d * k, d);
    assert FloorMod(d * k, d) == d * m;
    if d > 0 {
      if m >= 1 {
        NonNegProduct(d, m - 1);
        assert false;
      }
      if m <= -1 {
        NonNegProduct(d, -m - 1);
        assert false;
      }
    } else {
      if m >= 1 {
        NonNegProduct(-d, m - 1);
        assert false;
      }
      if m <= -1 {
        NonNegProduct(-d, -m - 1);
        assert false;
      }
    }
  }

  /** `adjust_number(original_num, divider, second_num_divisor)`: the second
      number is `original_num // divider` rounded toward minus infinity to a
      multiple of `second_num_divisor`, and the first is that times
      `divider`. A zero divisor raises ZeroDivisionError. */
  function AdjustNumber(original: int, divider: int, divisor: int): (r: Result<(int, int)>)
    ensures r.Err? <==> divider == 0 || divisor == 0
    ensures r.Err? ==> r.error == ZeroDivisionError
    ensures r.Ok? ==> r.value.0 == r.value.1 * divider
    ensures r.Ok? ==> FloorMod(r.value.1, divisor) == 0
    ensures r.Ok? && divisor > 0 ==> r.value.1 <= FloorDiv(original, divider) < r.value.1 + divisor
    ensures r.Ok? && divisor < 0 ==> r.value.1 + divisor < FloorDiv(original, divider) <= r.value.1
  {
    if divider == 0 || divisor == 0 then Err(ZeroDivisionError)
    else
      var second := FloorDiv(original, divider);
      var adjusted := second - FloorMod(second, divisor);
      assert adjusted == divisor * FloorDiv(second, divisor);
      MultipleHasNoRemainder(divisor, FloorDiv(second, divisor));
      Ok((adjusted * divider, adjusted))
  }

  // ---------------------------------------------------------------------------
  // Resampling functions
  // ---------------------------------------------------------------------------

  /** What reaches the image library: a plain kernel (an algorithm letter and
      a filter name), nearest neighbour, supersampling with a drawn factor,
      or dpid with its lambda. */
  datatype Leaf =
    | AlgLeaf(alg: string, filter: string)
    | NearestLeaf
    | SuperLeaf(filter: string, factor: int)
    | DpidLeaf(lamda: real)

  /** The library call for a leaf: the resampled image, or what it raised. */
  type Kernel = (Leaf, Image, int, int) -> Result<Image>

  /** The partials `get_resize` returns. */
  datatype ResizeFn =
    | Plain(leaf: Leaf)                                                   // st_resize
    | Super(filter: string, ss: seq<int>)                                 // sts_resize
    | Dpid(lamda: real)                                                   // d_resize
    | DownUp(downs: seq<ResizeFn>, ups: seq<ResizeFn>, scale: seq<int>)   // down_up_resize
    | DownDown(downs: seq<ResizeFn>, step: seq<int>)                      // down_down_resize
    | UpDown(downs: seq<ResizeFn>, ups: seq<ResizeFn>, scale: seq<int>)   // up_down_resize

  /** A resampled image and the draws taken for it. */
  datatype Resized = Resized(img: Image, draws: nat)

  /** `img.shape[:2] == (h, w)`. */
  predicate SameSize(img: Image, h: int, w: int) { |img| == h && Width(img) == w }

  function After(r: Result<Resized>, d: nat): Result<Resized>
  {
    match r
    case Err(e) => Err(e)
    case Ok(x) => Ok(Resized(x.img, x.draws + d))
  }

  function FromKernel(r: Result<Image>, d: nat): Result<Resized>
  {
    match r
    case Err(e) => Err(e)
    case Ok(img) => Ok(Resized(img, d))
  }

  /** `int(x)`: truncation toward zero. */
  function Trunc(x: real): int
  {
    if x >= 0.0 then x.Floor else -((-x).Floor)
  }

  /** `int(np.linspace(start, stop, n)[i])`, in exact arithmetic; the last
      point is `stop` itself. */
  function LinspaceAt(start: int, stop: int, n: nat, i: nat): int
    requires n >= 2 && i < n
  {
    if i == n - 1 then stop
    else Trunc(start as real + (i as real) * ((stop - start) as real) / ((n - 1) as real))
  }

  /** A resampling function applied to `img` for target `(h, w)`, drawing from
      `stream` at `pos`. */
  function Apply(fn: ResizeFn, img: Image, h: int, w: int, stream: Stream, pos: nat, kernel: Kernel): Result<Resized>
    decreases fn, 1, 0
  {
    match fn
    case Plain(leaf) =>
      if SameSize(img, h, w) then Ok(Resized(img, 0)) else FromKernel(kernel(leaf, img, h, w), 0)
    case Super(filter, ss) =>
      if SameSize(img, h, w) then Ok(Resized(img, 0))
      else (
        match DrawInt(ss, stream, pos)
        case Err(e) => Err(e)
        case Ok(x) => FromKernel(kernel(SuperLeaf(filter, x.0), img, h, w), x.1))
    case Dpid(lamda) =>
      if SameSize(img, h, w) then Ok(Resized(img, 0)) else FromKernel(kernel(DpidLeaf(lamda), img, h, w), 0)
    case DownUp(downs, ups, scale) => ApplyDownUp(downs, ups, scale, img, h, w, stream, pos, kernel)
    case DownDown(downs, step) => ApplyDownDown(downs, step, img, h, w, stream, pos, kernel)
    case UpDown(downs, ups, scale) => ApplyUpDown(downs, ups, scale, img, h, w, stream, pos, kernel)
  }

  /** `down_up_resize`: draw the factor, choose a down algorithm, shrink by
      the factor (floor division), choose an up algorithm, grow to the target. */
  function ApplyDownUp(downs: seq<ResizeFn>, ups: seq<ResizeFn>, scale: seq<int>, img: Image, h: int, w: int,
                       stream: Stream, pos: nat, kernel: Kernel): Result<Resized>
    decreases DownUp(downs, ups, scale), 0, 0
  {
    match DrawInt(scale, stream, pos)
    case Err(e) => Err(e)
    case Ok(x) =>
      var p := pos + x.1;
      if downs == [] then Err(ValueError)
      else
        var down := downs[BelowOf(stream(p), |downs|)];
        if x.0 == 0 then Err(ZeroDivisionError)
        else
          match Apply(down, img, FloorDiv(h, x.0), FloorDiv(w, x.0), stream, p + 1, kernel)
          case Err(e) => Err(e)
          case Ok(r1) =>
            var q := p + 1 + r1.draws;
            if ups == [] then Err(ValueError)
            else
              var up := ups[BelowOf(stream(q), |ups|)];
              After(Apply(up, r1.img, h, w, stream, q + 1, kernel), q + 1 - pos)
  }

  /** `down_down_resize`: draw the step count, hand back a same-size image,
      choose one down algorithm, then one call (fewer than two steps) or one
      call per linspace point. */
  function ApplyDownDown(downs: seq<ResizeFn>, step: seq<int>, img: Image, h: int, w: int,
                         stream: Stream, pos: nat, kernel: Kernel): Result<Resized>
    decreases DownDown(downs, step), 0, 0
  {
    match DrawInt(step, stream, pos)
    case Err(e) => Err(e)
    case Ok(x) =>
      var p := pos + x.1;
      if SameSize(img, h, w) then Ok(Resized(img, x.1))
      else if downs == [] then Err(ValueError)
      else
        var down := downs[BelowOf(stream(p), |downs|)];
        if x.0 < 2 then After(Apply(down, img, h, w, stream, p + 1, kernel), x.1 + 1)
        else After(Stepped(down, img, |img|, Width(img), h, w, x.0, x.0, stream, p + 1, kernel), x.1 + 1)
  }

  /** `up_down_resize`: draw the factor; below two, one down call; otherwise
      grow by the factor with an up algorithm, then shrink to the target. */
  function ApplyUpDown(downs: seq<ResizeFn>, ups: seq<ResizeFn>, scale: seq<int>, img: Image, h: int, w: int,
                       stream: Stream, pos: nat, kernel: Kernel): Result<Resized>
    decreases UpDown(downs, ups, scale), 0, 0
  {
    match DrawInt(scale, stream, pos)
    case Err(e) => Err(e)
    case Ok(x) =>
      var p := pos + x.1;
      if x.0 < 2 then
        if downs == [] then Err(ValueError)
        else After(Apply(downs[BelowOf(stream(p), |downs|)], img, h, w, stream, p + 1, kernel), x.1 + 1)
      else if ups == [] then Err(ValueError)
      else
        var up := ups[BelowOf(stream(p), |ups|)];
        match Apply(up, img, |img| * x.0, Width(img) * x.0, stream, p + 1, kernel)
        case Err(e) => Err(e)
        case Ok(r1) =>
          var q := p + 1 + r1.draws;
          if downs == [] then Err(ValueError)
          else After(Apply(downs[BelowOf(stream(q), |downs|)], r1.img, h, w, stream, q + 1, kernel), q + 1 - pos)
  }

  /** The loop of `down_down_resize` over its first `k` of `n` linspace
      points from `(oh, ow)` to `(h, w)`, one `down` call per point. */
  function Stepped(down: ResizeFn, img: Image, oh: int, ow: int, h: int, w: int, n: nat, k: nat,
                   stream: Stream, pos: nat, kernel: Kernel): Result<Resized>
    requires n >= 2 && k <= n
    decreases down, 2, k
  {
    if k == 0 then Ok(Resized(img, 0))
    else
      match Stepped(down, img, oh, ow, h, w, n, k - 1, stream, pos, kernel)
      case Err(e) => Err(e)
      case Ok(r) =>
        After(Apply(down, r.img, LinspaceAt(oh, h, n, k - 1), LinspaceAt(ow, w, n, k - 1), stream, pos + r.draws, kernel), r.draws)
  }

  /** `st_resize`, `sts_resize` and `d_resize` hand the image back untouched,
      without drawing, when it already has the target size. */
  lemma LeavesKeepSameSize(fn: ResizeFn, img: Image, stream: Stream, pos: nat, kernel: Kernel)
    requires fn.Plain? || fn.Super? || fn.Dpid?
    ensures Apply(fn, img, |img|, Width(img), stream, pos, kernel) == Ok(Resized(img, 0))
  {
  }

  /** `down_down_resize` draws its step count before comparing sizes, so a
      same-size call still consumes a draw when the step range is proper. */
  lemma DownDownDrawsBeforeNoOp(downs: seq<ResizeFn>, step: seq<int>, img: Image, stream: Stream, pos: nat, kernel: Kernel)
    requires |step| >= 2 && step[0] < step[1]
    ensures Apply(DownDown(downs, step), img, |img|, Width(img), stream, pos, kernel) == Ok(Resized(img, 1))
  {
  }

  /** The down-down loop ends on the target itself: the last linspace point
      is `(h, w)`, and the first is the current size. */
  lemma LinspaceEnds(oh: int, ow: int, h: int, w: int, n: nat)
    requires n >= 2
    ensures LinspaceAt(oh, h, n, n - 1) == h && LinspaceAt(ow, w, n, n - 1) == w
    ensures LinspaceAt(oh, h, n, 0) == oh && LinspaceAt(ow, w, n, 0) == ow
  {
  }

  /** `down_up_resize` fails with IndexError on an empty scale range, with
      ValueError on an empty down list whatever the scale, and with
      ZeroDivisionError on a drawn scale of 0 (the down choice is drawn
      before `h // scale` is evaluated). It has no same-size early return:
      a success has taken the scale draw and both choice draws. */
  lemma DownUpMeaning(downs: seq<ResizeFn>, ups: seq<ResizeFn>, scale: seq<int>, img: Image, h: int, w: int,
                      stream: Stream, pos: nat, kernel: Kernel)
    ensures scale == [] ==> ApplyDownUp(downs, ups, scale, img, h, w, stream, pos, kernel) == Err(IndexError)
    ensures scale != [] && downs == [] ==>
      ApplyDownUp(downs, ups, scale, img, h, w, stream, pos, kernel) == Err(ValueError)
    ensures scale != [] && downs != [] && DrawInt(scale, stream, pos).value.0 == 0 ==>
      ApplyDownUp(downs, ups, scale, img, h, w, stream, pos, kernel) == Err(ZeroDivisionError)
    ensures var r := ApplyDownUp(downs, ups, scale, img, h, w, stream, pos, kernel);
      r.Ok? ==> scale != [] && downs != [] && ups != [] && DrawInt(scale, stream, pos).value.0 != 0
                && r.value.draws >= DrawInt(scale, stream, pos).value.1 + 2
  {
  }

  /** `up_down_resize` fails with IndexError on an empty scale range. A drawn
      scale below 2 makes one down call, so the result does not depend on the
      up list, and an empty down list raises ValueError; a scale of 2 or more
      with an empty up list raises ValueError. A success always has a down
      call, and above 1 an up call before it. */
  lemma UpDownMeaning(downs: seq<ResizeFn>, ups: seq<ResizeFn>, otherUps: seq<ResizeFn>, scale: seq<int>,
                      img: Image, h: int, w: int, stream: Stream, pos: nat, kernel: Kernel)
    ensures scale == [] ==> ApplyUpDown(downs, ups, scale, img, h, w, stream, pos, kernel) == Err(IndexError)
    ensures scale != [] && DrawInt(scale, stream, pos).value.0 < 2 ==>
      ApplyUpDown(downs, ups, scale, img, h, w, stream, pos, kernel)
        == ApplyUpDown(downs, otherUps, scale, img, h, w, stream, pos, kernel)
    ensures scale != [] && DrawInt(scale, stream, pos).value.0 < 2 && downs == [] ==>
      ApplyUpDown(downs, ups, scale, img, h, w, stream, pos, kernel) == Err(ValueError)
    ensures scale != [] && DrawInt(scale, stream, pos).value.0 >= 2 && ups == [] ==>
      ApplyUpDown(downs, ups, scale, img, h, w, stream, pos, kernel) == Err(ValueError)
    ensures var r := ApplyUpDown(downs, ups, scale, img, h, w, stream, pos, kernel);
      r.Ok? ==> scale != [] && downs != [] && r.value.draws >= DrawInt(scale, stream, pos).value.1 + 1
    ensures var r := ApplyUpDown(downs, ups, scale, img, h, w, stream, pos, kernel);
      r.Ok? && DrawInt(scale, stream, pos).value.0 >= 2 ==>
        ups != [] && r.value.draws >= DrawInt(scale, stream, pos).value.1 + 2
  {
  }

  /** `down_down_resize` as the source runs it: draw the step count, return
      early on a same-size image, choose one algorithm, then either one call
      or a loop reassigning the image along the linspace points. */
  method DownDownResize(downs: seq<ResizeFn>, step: seq<int>, img: Image, h: int, w: int, gen: Generator, kernel: Kernel)
    returns (r: Result<Image>)
    modifies gen
    ensures var a := Apply(DownDown(downs, step), img, h, w, gen.stream, old(gen.pos), kernel);
            && (r.Ok? <==> a.Ok?)
            && (a.Err? ==> r == Err(a.error))
            && (a.Ok? ==> r.value == a.value.img && gen.pos == old(gen.pos) + a.value.draws)
  {
    var x := DrawInt(step, gen.stream, gen.pos);
    if x.Err? {
      return Err(x.error);
    }
    gen.Skip(x.value.1);
    if SameSize(img, h, w) {
      return Ok(img);
    }
    var down := gen.Choice(downs);
    if down.Err? {
      return Err(down.error);
    }
    if x.value.0 < 2 {
      var a := Apply(down.value, img, h, w, gen.stream, gen.pos, kernel);
      if a.Err? {
        return Err(a.error);
      }
      gen.Skip(a.value.draws);
      return Ok(a.value.img);
    }
    r := StepDown(down.value, img, h, w, x.value.0, gen, kernel);
  }

  /** The loop of `down_down_resize`: the image is reassigned to `down` of
      itself at each of the `n` linspace points from its own size to the
      target. */
  method StepDown(down: ResizeFn, img: Image, h: int, w: int, n: nat, gen: Generator, kernel: Kernel)
    returns (r: Result<Image>)
    requires n >= 2
    modifies gen
    ensures var s := Stepped(down, img, |img|, Width(img), h, w, n, n, gen.stream, old(gen.pos), kernel);
            && (r.Ok? <==> s.Ok?)
            && (s.Err? ==> r == Err(s.error))
            && (s.Ok? ==> r.value == s.value.img && gen.pos == old(gen.pos) + s.value.draws)
  {
    var oh, ow := |img|, Width(img);
    var cur := img;
    var stream := gen.stream;
    ghost var p0 := gen.pos;
    for i := 0 to n
      invariant gen.pos >= p0
      invariant Stepped(down, img, oh, ow, h, w, n, i, stream, p0, kernel) == Ok(Resized(cur, gen.pos - p0))
    {
      var pos := gen.pos;
      ghost var d := pos - p0;
      var a := Apply(down, cur, LinspaceAt(oh, h, n, i), LinspaceAt(ow, w, n, i), stream, pos, kernel);
      SteppedNext(down, img, oh, ow, h, w, n, i, stream, p0, kernel, cur, d, pos);
      if a.Err? {
        StepsStop(down, img, oh, ow, h, w, n, i + 1, stream, p0, kernel);
        return Err(a.error);
      }
      cur := a.value.img;
      gen.Skip(a.value.draws);
    }
    r := Ok(cur);
  }

  /** One more step down from the image reached after `i` steps. */
  lemma SteppedNext(down: ResizeFn, img: Image, oh: int, ow: int, h: int, w: int, n: nat, i: nat,
                    stream: Stream, pos: nat, kernel: Kernel, cur: Image, d: nat, at: nat)
    requires n >= 2 && i < n && at == pos + d
    requires Stepped(down, img, oh, ow, h, w, n, i, stream, pos, kernel) == Ok(Resized(cur, d))
    ensures var a := Apply(down, cur, LinspaceAt(oh, h, n, i), LinspaceAt(ow, w, n, i), stream, at, kernel);
            && (a.Err? ==> Stepped(down, img, oh, ow, h, w, n, i + 1, stream, pos, kernel) == Err(a.error))
            && (a.Ok? ==> Stepped(down, img, oh, ow, h, w, n, i + 1, stream, pos, kernel) == Ok(Resized(a.value.img, a.value.draws + d)))
  {
  }

  /** Once a step fails, every later step keeps that failure. */
  lemma {:induction false} StepsStop(down: ResizeFn, img: Image, oh: int, ow: int, h: int, w: int, n: nat, k: nat,
                                     stream: Stream, pos: nat, kernel: Kernel)
    requires n >= 2 && k <= n
    requires Stepped(down, img, oh, ow, h, w, n, k, stream, pos, kernel).Err?
    ensures Stepped(down, img, oh, ow, h, w, n, n, stream, pos, kernel) == Stepped(down, img, oh, ow, h, w, n, k, stream, pos, kernel)
    decreases n - k
  {
    if k < n {
      StepsStop(down, img, oh, ow, h, w, n, k + 1, stream, pos, kernel);
    }
  }

  // ---------------------------------------------------------------------------
  // get_resize
  // ---------------------------------------------------------------------------

  datatype DownUpOptions = DownUpOptions(down: seq<int>, algUp: seq<string>, algDown: seq<string>)
  datatype UpDownOptions = UpDownOptions(up: seq<int>, algUp: seq<string>, algDown: seq<string>)
  datatype DownDownOptions = DownDownOptions(step: seq<int>, algDown: seq<string>)

  /** What `get_resize` is handed besides the name. */
  datatype ResizeConf = ResizeConf(ss: seq<int>, downUp: DownUpOptions, downDown: DownDownOptions, upDown: UpDownOptions)

  /** The two name tables and `float()` on a name's last segment. */
  datatype Tables = Tables(algs: map<string, string>, filters: map<string, string>, parseFloat: string -> Option<real>)

  /** `list(set(xs))`: the order Python's set iteration gives, which depends
      on string hashing and so may change from one interpreter run to the
      next. */
  type SetOrder = seq<string> -> seq<string>

  predicate NoDup(xs: seq<string>) { forall i, j :: 0 <= i < j < |xs| ==> xs[i] != xs[j] }

  /** A set order lists each element of its input exactly once. */
  ghost predicate IsSetOrder(order: SetOrder)
  {
    forall xs :: NoDup(order(xs)) && forall x :: x in order(xs) <==> x in xs
  }

  /** Where the `down_down` branch takes its sub-algorithm names from: the
      code reads `down_up.alg_down` (line 140); the evident intent is
      `down_down.alg_down`, which is otherwise never read. */
  datatype Reading = AsWritten | Intended

  function DownDownPool(conf: ResizeConf, reading: Reading): seq<string>
  {
    if reading == AsWritten then conf.downUp.algDown else conf.downDown.algDown
  }

  /** `xs` without `name` (the `- {name}` of the set difference). */
  function Without(xs: seq<string>, name: string): (r: seq<string>)
    ensures forall x :: x in r <==> x in xs && x != name
  {
    if xs == [] then []
    else if xs[|xs| - 1] == name then Without(xs[..|xs| - 1], name)
    else Without(xs[..|xs| - 1], name) + [xs[|xs| - 1]]
  }

  /** `name.split("_")[-1]`. */
  function LastSegment(name: string): string
  {
    var parts := Split(name, '_');
    parts[|parts| - 1]
  }

  /** `get_resize(name, ...)`, with `depth` the interpreter frames left before
      Python's recursion limit raises RecursionError. */
  function GetResize(name: string, conf: ResizeConf, tables: Tables, order: SetOrder, reading: Reading, depth: nat): Result<ResizeFn>
    decreases depth, 2, 0
  {
    if depth == 0 then Err(RecursionError)
    else if Composite(name) then GetComposite(name, conf, tables, order, reading, depth)
    else LeafOf(name, conf.ss, tables)
  }

  /** The three composite names: their sub-algorithms are every listed name
      but their own, built one frame deeper. */
  function GetComposite(name: string, conf: ResizeConf, tables: Tables, order: SetOrder, reading: Reading, depth: nat): Result<ResizeFn>
    requires depth > 0 && Composite(name)
    decreases depth, 1, 0
  {
    if name == "down_up" then
      match GetAll(order(Without(conf.downUp.algUp, "down_up")), conf, tables, order, reading, depth - 1)
      case Err(e) => Err(e)
      case Ok(ups) =>
        match GetAll(order(Without(conf.downUp.algDown, "down_up")), conf, tables, order, reading, depth - 1)
        case Err(e) => Err(e)
        case Ok(downs) => Ok(DownUp(downs, ups, conf.downUp.down))
    else if name == "down_down" then
      match GetAll(order(Without(DownDownPool(conf, reading), "down_down")), conf, tables, order, reading, depth - 1)
      case Err(e) => Err(e)
      case Ok(downs) => Ok(DownDown(downs, conf.downDown.step))
    else
      match GetAll(order(Without(conf.upDown.algUp, "up_down")), conf, tables, order, reading, depth - 1)
      case Err(e) => Err(e)
      case Ok(ups) =>
        match GetAll(order(Without(conf.upDown.algDown, "up_down")), conf, tables, order, reading, depth - 1)
        case Err(e) => Err(e)
        case Ok(downs) => Ok(UpDown(downs, ups, conf.upDown.up))
  }

  /** Every other name, by its first letter: "d" parses the last `_` segment
      as dpid's lambda, "s" takes it as a supersampling filter, "n" is
      nearest neighbour, and any other letter is an algorithm key whose
      filter is the last segment. */
  function LeafOf(name: string, ss: seq<int>, tables: Tables): (r: Result<ResizeFn>)
    ensures r.Err? && name != [] && name[0] == 'd' ==> r.error == ValueError
    ensures r.Err? && name != [] && name[0] != 'd' ==> r.error == KeyError
    ensures r.Ok? ==> name != [] && (r.value.Plain? || r.value.Super? || r.value.Dpid?)
  {
    if name == [] then Err(IndexError)
    else
      var last := LastSegment(name);
      if name[0] == 'd' then
        match tables.parseFloat(last)
        case None => Err(ValueError)
        case Some(l) => Ok(Dpid(l))
      else if name[0] == 's' then
        if last in tables.filters then Ok(Super(last, ss)) else Err(KeyError)
      else if name[0] == 'n' then Ok(Plain(NearestLeaf))
      else if [name[0]] !in tables.algs || last !in tables.filters then Err(KeyError)
      else Ok(Plain(AlgLeaf([name[0]], last)))
  }

  /** `get_resize` over a list of names, in order; the first error wins. */
  function GetAll(names: seq<string>, conf: ResizeConf, tables: Tables, order: SetOrder, reading: Reading, depth: nat): (r: Result<seq<ResizeFn>>)
    ensures r.Ok? ==> |r.value| == |names|
                      && forall i :: 0 <= i < |names| ==> GetResize(names[i], conf, tables, order, reading, depth) == Ok(r.value[i])
    ensures (exists i :: 0 <= i < |names| && GetResize(names[i], conf, tables, order, reading, depth).Err?) ==> r.Err?
    ensures r.Err? ==> exists i :: 0 <= i < |names| && GetResize(names[i], conf, tables, order, reading, depth) == Err(r.error)
    decreases depth, 3, |names|
  {
    if names == [] then Ok([])
    else
      var init := names[..|names| - 1];
      match GetAll(init, conf, tables, order, reading, depth)
      case Err(e) => Err(e)
      case Ok(fs) =>
        assert forall i :: 0 <= i < |init| ==> init[i] == names[i];
        match GetResize(names[|names| - 1], conf, tables, order, reading, depth)
        case Err(e) => Err(e)
        case Ok(f) => Ok(fs + [f])
  }

  /** Names outside the three composites are dispatched on their first
      letter and last `_` segment alone: two such names that agree on both
      build the same function. Every "n…" name is nearest neighbour. */
  lemma DispatchByPrefix(a: string, b: string, conf: ResizeConf, tables: Tables, order: SetOrder, reading: Reading, depth: nat)
    requires !Composite(a) && !Composite(b) && |a| > 0 && |b| > 0
    requires a[0] == b[0] && LastSegment(a) == LastSegment(b)
    ensures GetResize(a, conf, tables, order, reading, depth) == GetResize(b, conf, tables, order, reading, depth)
    ensures depth > 0 && a[0] == 'n' ==> GetResize(a, conf, tables, order, reading, depth) == Ok(Plain(NearestLeaf))
    ensures depth > 0 && a[0] == 'd' ==>
              GetResize(a, conf, tables, order, reading, depth) ==
                if tables.parseFloat(LastSegment(a)).Some? then Ok(Dpid(tables.parseFloat(LastSegment(a)).value)) else Err(ValueError)
  {
  }

  /** A composite never lists itself among its sub-algorithms: every child of
      `down_up` was built from a name other than "down_up" (and likewise for
      the other two). */
  lemma CompositesExcludeThemselves(conf: ResizeConf, tables: Tables, order: SetOrder, reading: Reading, depth: nat)
    requires IsSetOrder(order) && depth > 0
    ensures var r := GetResize("down_up", conf, tables, order, reading, depth);
            var ups := order(Without(conf.downUp.algUp, "down_up"));
            var downs := order(Without(conf.downUp.algDown, "down_up"));
            r.Ok? ==> r.value.DownUp? && |r.value.ups| == |ups| && |r.value.downs| == |downs|
                      && "down_up" !in ups && "down_up" !in downs && r.value.scale == conf.downUp.down
    ensures var r := GetResize("down_down", conf, tables, order, reading, depth);
            var downs := order(Without(DownDownPool(conf, reading), "down_down"));
            r.Ok? ==> r.value.DownDown? && |r.value.downs| == |downs| && "down_down" !in downs
                      && r.value.step == conf.downDown.step
    ensures var r := GetResize("up_down", conf, tables, order, reading, depth);
            var ups := order(Without(conf.upDown.algUp, "up_down"));
            var downs := order(Without(conf.upDown.algDown, "up_down"));
            r.Ok? ==> r.value.UpDown? && |r.value.ups| == |ups| && |r.value.downs| == |downs|
                      && "up_down" !in ups && "up_down" !in downs && r.value.scale == conf.upDown.up
  {
  }

  /** Two composites that list each other first recurse until Python's limit:
      `down_up` with `alg_up = ["up_down"]` and `up_down` with
      `alg_up = ["down_up"]` raise RecursionError however deep the stack. */
  lemma {:induction false} MutualCompositesNeverEnd(conf: ResizeConf, tables: Tables, order: SetOrder, reading: Reading, depth: nat)
    requires IsSetOrder(order)
    requires conf.downUp.algUp == ["up_down"] && conf.upDown.algUp == ["down_up"]
    ensures GetResize("down_up", conf, tables, order, reading, depth) == Err(RecursionError)
    ensures GetResize("up_down", conf, tables, order, reading, depth) == Err(RecursionError)
  {
    if depth > 0 {
      MutualCompositesNeverEnd(conf, tables, order, reading, depth - 1);
      assert Without(["up_down"], "down_up") == ["up_down"];
      assert Without(["down_up"], "up_down") == ["down_up"];
      SetOrderOfOne(order, "up_down");
      SetOrderOfOne(order, "down_up");
      OnlyFailing(order(["up_down"]), "up_down", conf, tables, order, reading, depth - 1);
      OnlyFailing(order(["down_up"]), "down_up", conf, tables, order, reading, depth - 1);
    }
  }

  /** A set order of one name lists that name and nothing else. */
  lemma SetOrderOfOne(order: SetOrder, x: string)
    requires IsSetOrder(order)
    ensures |order([x])| > 0 && forall i :: 0 <= i < |order([x])| ==> order([x])[i] == x
  {
    var o := order([x]);
    assert x in o;
    forall i | 0 <= i < |o| ensures o[i] == x {
      assert o[i] in o;
    }
  }

  /** Building a set-ordered list of one name fails as that name fails. */
  lemma {:induction false} OnlyFailing(names: seq<string>, x: string, conf: ResizeConf, tables: Tables, order: SetOrder, reading: Reading, depth: nat)
    requires |names| > 0 && forall i :: 0 <= i < |names| ==> names[i] == x
    requires GetResize(x, conf, tables, order, reading, depth) == Err(RecursionError)
    ensures GetAll(names, conf, tables, order, reading, depth) == Err(RecursionError)
  {
    var init := names[..|names| - 1];
    if init != [] {
      OnlyFailing(init, x, conf, tables, order, reading, depth);
    }
  }

  // ---------------------------------------------------------------------------
  // Findings: the down_down pool and the set order
  // ---------------------------------------------------------------------------

  /** As written, `down_down` ignores its own `alg_down`: changing it changes
      nothing that `get_resize` builds. */
  lemma DownDownIgnoresItsList(conf: ResizeConf, other: seq<string>, tables: Tables, order: SetOrder, depth: nat)
    ensures GetResize("down_down", conf, tables, order, AsWritten, depth)
            == GetResize("down_down", conf.(downDown := conf.downDown.(algDown := other)), tables, order, AsWritten, depth)
  {
    IgnoresDownDownList("down_down", conf, other, tables, order, depth);
  }

  lemma {:induction false} IgnoresDownDownList(name: string, conf: ResizeConf, other: seq<string>, tables: Tables, order: SetOrder, depth: nat)
    ensures GetResize(name, conf, tables, order, AsWritten, depth)
            == GetResize(name, conf.(downDown := conf.downDown.(algDown := other)), tables, order, AsWritten, depth)
    decreases depth
  {
    if depth > 0 && Composite(name) {
      var d := depth - 1;
      var conf' := conf.(downDown := conf.downDown.(algDown := other));
      forall n ensures GetResize(n, conf, tables, order, AsWritten, d) == GetResize(n, conf', tables, order, AsWritten, d) {
        IgnoresDownDownList(n, conf, other, tables, order, d);
      }
      CompositeCongruent(name, conf, conf', tables, order, AsWritten, d);
      assert GetResize(name, conf, tables, order, AsWritten, depth) == GetComposite(name, conf, tables, order, AsWritten, depth);
      assert GetResize(name, conf', tables, order, AsWritten, depth) == GetComposite(name, conf', tables, order, AsWritten, depth);
    }
  }

  /** A composite reads the configuration only through its lists, its
      ranges and the names built one frame deeper. */
  lemma CompositeCongruent(name: string, c1: ResizeConf, c2: ResizeConf, tables: Tables, order: SetOrder, reading: Reading, d: nat)
    requires Composite(name)
    requires c1.downUp == c2.downUp && c1.upDown == c2.upDown && c1.downDown.step == c2.downDown.step
    requires DownDownPool(c1, reading) == DownDownPool(c2, reading)
    requires forall n :: GetResize(n, c1, tables, order, reading, d) == GetResize(n, c2, tables, order, reading, d)
    ensures GetComposite(name, c1, tables, order, reading, d + 1) == GetComposite(name, c2, tables, order, reading, d + 1)
  {
    if name == "down_up" {
      GetAllCongruent(order(Without(c1.downUp.algUp, "down_up")), c1, c2, tables, order, reading, d);
      GetAllCongruent(order(Without(c1.downUp.algDown, "down_up")), c1, c2, tables, order, reading, d);
    } else if name == "down_down" {
      GetAllCongruent(order(Without(DownDownPool(c1, reading), "down_down")), c1, c2, tables, order, reading, d);
    } else {
      GetAllCongruent(order(Without(c1.upDown.algUp, "up_down")), c1, c2, tables, order, reading, d);
      GetAllCongruent(order(Without(c1.upDown.algDown, "up_down")), c1, c2, tables, order, reading, d);
    }
  }

  /** `GetAll` depends on the configuration only through `GetResize`. */
  lemma {:induction false} GetAllCongruent(names: seq<string>, c1: ResizeConf, c2: ResizeConf, tables: Tables, order: SetOrder, reading: Reading, depth: nat)
    requires forall n :: GetResize(n, c1, tables, order, reading, depth) == GetResize(n, c2, tables, order, reading, depth)
    ensures GetAll(names, c1, tables, order, reading, depth) == GetAll(names, c2, tables, order, reading, depth)
    decreases |names|
  {
    if names != [] {
      GetAllCongruent(names[..|names| - 1], c1, c2, tables, order, reading, depth);
    }
  }

  /** As intended, `down_down`'s children are built from `down_down.alg_down`,
      less its own name, in set order. */
  lemma DownDownUsesItsList(conf: ResizeConf, tables: Tables, order: SetOrder, depth: nat)
    requires depth > 0
    ensures var r := GetResize("down_down", conf, tables, order, Intended, depth);
            var names := order(Without(conf.downDown.algDown, "down_down"));
            r.Ok? ==> r.value.DownDown? && |r.value.downs| == |names|
                      && forall i :: 0 <= i < |names| ==> GetResize(names[i], conf, tables, order, Intended, depth - 1) == Ok(r.value.downs[i])
  {
  }

  /** The node's algorithm lists: `for alg in set(names)` in `__init__`. */
  function Resizes(names: seq<string>, conf: ResizeConf, tables: Tables, order: SetOrder, reading: Reading, depth: nat): Result<seq<ResizeFn>>
  {
    GetAll(order(names), conf, tables, order, reading, depth)
  }

  /** First occurrences, in order (`dict.fromkeys`). */
  function Dedup(xs: seq<string>): (r: seq<string>)
    ensures NoDup(r) && forall x :: x in r <==> x in xs
  {
    if xs == [] then []
    else
      var r := Dedup(xs[..|xs| - 1]);
      var x := xs[|xs| - 1];
      assert forall y :: y in xs <==> y in xs[..|xs| - 1] || y == x;
      if x in r then r else r + [x]
  }

  function Reversed(xs: seq<string>): (r: seq<string>)
    ensures |r| == |xs| && forall i :: 0 <= i < |xs| ==> r[i] == xs[|xs| - 1 - i]
  {
    if xs == [] then [] else [xs[|xs| - 1]] + Reversed(xs[..|xs| - 1])
  }

  function ReversedDedup(xs: seq<string>): seq<string> { Reversed(Dedup(xs)) }

  lemma DedupIsSetOrder()
    ensures IsSetOrder(Dedup)
  {
  }

  /** Reversal keeps the elements of a list and its freedom from repeats. */
  lemma ReversedKeeps(d: seq<string>)
    requires NoDup(d)
    ensures NoDup(Reversed(d)) && forall x :: x in Reversed(d) <==> x in d
  {
    var r := Reversed(d);
    forall x ensures x in r <==> x in d {
      if x in r {
        var i :| 0 <= i < |r| && r[i] == x;
        assert d[|d| - 1 - i] == x;
      }
      if x in d {
        var i :| 0 <= i < |d| && d[i] == x;
        assert r[|d| - 1 - i] == x;
      }
    }
  }

  lemma ReversedDedupIsSetOrder()
    ensures IsSetOrder(ReversedDedup)
  {
    forall xs ensures NoDup(ReversedDedup(xs)) && forall x :: x in ReversedDedup(xs) <==> x in xs {
      ReversedKeeps(Dedup(xs));
    }
  }

  /** As written, the algorithm list depends on the set's iteration order:
      two orders Python may produce for `alg_hq = ["nearest", "dpid_0.5"]`
      give lists that differ at every index, so the same seed and the same
      draw pick different algorithms from one run to the next. */
  lemma SetOrderChangesChoice(conf: ResizeConf, tables: Tables, reading: Reading, depth: nat)
    requires depth > 0 && tables.parseFloat("0.5").Some?
    ensures IsSetOrder(Dedup) && IsSetOrder(ReversedDedup)
    ensures var a := Resizes(["nearest", "dpid_0.5"], conf, tables, Dedup, reading, depth);
            var b := Resizes(["nearest", "dpid_0.5"], conf, tables, ReversedDedup, reading, depth);
            a.Ok? && b.Ok? && |a.value| == |b.value| == 2
            && forall i :: 0 <= i < 2 ==> a.value[i] != b.value[i]
  {
    DedupIsSetOrder();
    ReversedDedupIsSetOrder();
    PairOrders();
    var fd := Dpid(tables.parseFloat("0.5").value);
    LeafNames(conf, tables, Dedup, reading, depth);
    LeafNames(conf, tables, ReversedDedup, reading, depth);
    GetAllPair("nearest", "dpid_0.5", Plain(NearestLeaf), fd, conf, tables, Dedup, reading, depth);
    GetAllPair("dpid_0.5", "nearest", fd, Plain(NearestLeaf), conf, tables, ReversedDedup, reading, depth);
  }

  /** The two set orders of the pair used above. */
  lemma PairOrders()
    ensures Dedup(["nearest", "dpid_0.5"]) == ["nearest", "dpid_0.5"]
    ensures ReversedDedup(["nearest", "dpid_0.5"]) == ["dpid_0.5", "nearest"]
  {
    var names := ["nearest", "dpid_0.5"];
    assert names[..1] == ["nearest"];
    assert Dedup(names[..1]) == ["nearest"];
    assert Dedup(names) == names;
  }

  lemma LeafNames(conf: ResizeConf, tables: Tables, order: SetOrder, reading: Reading, depth: nat)
    requires depth > 0 && tables.parseFloat("0.5").Some?
    ensures GetResize("nearest", conf, tables, order, reading, depth) == Ok(Plain(NearestLeaf))
    ensures GetResize("dpid_0.5", conf, tables, order, reading, depth) == Ok(Dpid(tables.parseFloat("0.5").value))
  {
    assert !Composite("nearest");
    assert GetResize("nearest", conf, tables, order, reading, depth) == LeafOf("nearest", conf.ss, tables);
    assert !Composite("dpid_0.5");
    assert GetResize("dpid_0.5", conf, tables, order, reading, depth) == LeafOf("dpid_0.5", conf.ss, tables);
    DpidLast();
    assert LeafOf("dpid_0.5", conf.ss, tables) == Ok(Dpid(tables.parseFloat("0.5").value));
  }

  lemma DpidLast()
    ensures LastSegment("dpid_0.5") == "0.5"
  {
    assert "dpid_0.5" == "dpid" + ['_'] + "0.5";
    SplitFirst("dpid", "0.5", '_');
    SplitNoSep("0.5", '_');
  }

  lemma GetAllPair(x: string, y: string, fx: ResizeFn, fy: ResizeFn, conf: ResizeConf, tables: Tables, order: SetOrder, reading: Reading, depth: nat)
    requires GetResize(x, conf, tables, order, reading, depth) == Ok(fx)
    requires GetResize(y, conf, tables, order, reading, depth) == Ok(fy)
    ensures GetAll([x, y], conf, tables, order, reading, depth) == Ok([fx, fy])
  {
    assert [x][..0] == [];
    assert GetAll([], conf, tables, order, reading, depth) == Ok([]);
    assert [x][0] == x && [] + [fx] == [fx];
    assert GetAll([x], conf, tables, order, reading, depth) == Ok([fx]);
    assert [x, y][..1] == [x] && [x, y][1] == y && [fx] + [fy] == [fx, fy];
  }

  /** As intended, a list built in first-occurrence order follows the
      configuration and does not depend on the interpreter run: entry `i` is
      the function for the `i`-th distinct name. */
  lemma DedupFollowsConfig(names: seq<string>, conf: ResizeConf, tables: Tables, depth: nat)
    ensures var r := Resizes(names, conf, tables, Dedup, Intended, depth);
            r.Ok? ==> |r.value| == |Dedup(names)|
                      && forall i :: 0 <= i < |Dedup(names)| ==> GetResize(Dedup(names)[i], conf, tables, Dedup, Intended, depth) == Ok(r.value[i])
  {
  }

  // ---------------------------------------------------------------------------
  // The node
  // ---------------------------------------------------------------------------

  /** `ResizeOptions`, with `spread` the values `safe_arange(opts.spread)`
      produced. */
  datatype ResizeOptions = ResizeOptions(algLq: seq<string>, algHq: seq<string>, conf: ResizeConf,
                                         spread: seq<real>, scale: int, divider: int, olq: bool)

  /** What `Resize.__init__` keeps. */
  datatype ResizeNode = ResizeNode(resizesLq: seq<ResizeFn>, resizesHq: seq<ResizeFn>, scale: int, divider: int,
                                   olq: bool, spread: seq<real>)

  /** `Resize(options)`: the lq list, then the hq list, in first-occurrence
      order and with `down_down` reading its own list. */
  function ResizeNodeOf(opts: ResizeOptions, tables: Tables, depth: nat): (r: Result<ResizeNode>)
    ensures r.Ok? ==> Ok(r.value.resizesLq) == Resizes(opts.algLq, opts.conf, tables, Dedup, Intended, depth)
                      && Ok(r.value.resizesHq) == Resizes(opts.algHq, opts.conf, tables, Dedup, Intended, depth)
                      && r.value.scale == opts.scale && r.value.divider == opts.divider
                      && r.value.olq == opts.olq && r.value.spread == opts.spread
    ensures r.Err? <==> Resizes(opts.algLq, opts.conf, tables, Dedup, Intended, depth).Err?
                        || Resizes(opts.algHq, opts.conf, tables, Dedup, Intended, depth).Err?
  {
    match Resizes(opts.algLq, opts.conf, tables, Dedup, Intended, depth)
    case Err(e) => Err(e)
    case Ok(lq) =>
      match Resizes(opts.algHq, opts.conf, tables, Dedup, Intended, depth)
      case Err(e) => Err(e)
      case Ok(hq) => Ok(ResizeNode(lq, hq, opts.scale, opts.divider, opts.olq, opts.spread))
  }

  /** The targets `forward` computes from the hq size and the chosen spread:
      `(rhq_h, rlq_h, rhq_w, rlq_w)`. */
  function Targets(node: ResizeNode, hqH: nat, hqW: nat, spread: real): (r: Result<(int, int, int, int)>)
    ensures r.Ok? ==> r.value.0 == node.scale * r.value.1 && r.value.2 == node.scale * r.value.3
    ensures r.Err? <==> node.scale == 0 || node.divider == 0
  {
    var hh := AdjustNumber(Trunc(hqH as real * spread), node.scale, node.divider);
    var ww := AdjustNumber(Trunc(hqW as real * spread), node.scale, node.divider);
    if hh.Err? then Err(hh.error)
    else Ok((hh.value.0, hh.value.1, ww.value.0, ww.value.1))
  }

  /** `Resize.forward` on buffers, drawing from `stream` at `pos`: choose a
      spread, compute the targets, resize hq (unless `olq`), then lq. */
  function ResizeEffect(node: ResizeNode, kernel: Kernel, bufs: Buffers, stream: Stream, pos: nat): (r: Result<Effect>)
    ensures r.Ok? && node.olq ==> r.value.out.hq == bufs.hq
    ensures r.Ok? ==> node.spread != [] && node.resizesLq != []
                      && Targets(node, |bufs.hq|, Width(bufs.hq), node.spread[BelowOf(stream(pos), |node.spread|)]).Ok?
    ensures node.spread == [] || node.resizesLq == [] || (!node.olq && node.resizesHq == []) ==> r.Err?
  {
    if node.spread == [] then Err(ValueError)
    else
      var sp := node.spread[BelowOf(stream(pos), |node.spread|)];
      match Targets(node, |bufs.hq|, Width(bufs.hq), sp)
      case Err(e) => Err(e)
      case Ok(t) =>
        var hq :=
          if node.olq then Ok(Resized(bufs.hq, 0))
          else ChooseApply(node.resizesHq, bufs.hq, t.0, t.2, stream, pos + 1, kernel);
        match hq
        case Err(e) => Err(e)
        case Ok(h) =>
          match ChooseApply(node.resizesLq, bufs.lq, t.1, t.3, stream, pos + 1 + h.draws, kernel)
          case Err(e) => Err(e)
          case Ok(l) => Ok(Effect(Buffers(l.img, h.img), 1 + h.draws + l.draws))
  }

  /** `random.choice(fns)(img, h, w, rng)`: one draw picks the function,
      which then runs from the next draw; an empty list raises ValueError. */
  function ChooseApply(fns: seq<ResizeFn>, img: Image, h: int, w: int, stream: Stream, pos: nat, kernel: Kernel): (r: Result<Resized>)
    ensures fns == [] ==> r == Err(ValueError)
    ensures r.Ok? ==> r.value.draws >= 1
  {
    if fns == [] then Err(ValueError)
    else After(Apply(fns[BelowOf(stream(pos), |fns|)], img, h, w, stream, pos + 1, kernel), 1)
  }

  /** One resize of `forward`: choose a function from the generator and run
      it on `img`. */
  method ResizeWith(fns: seq<ResizeFn>, img: Image, h: int, w: int, gen: Generator, kernel: Kernel) returns (r: Result<Image>)
    modifies gen
    ensures var c := ChooseApply(fns, img, h, w, gen.stream, old(gen.pos), kernel);
            && (r.Ok? <==> c.Ok?)
            && (c.Err? ==> r == Err(c.error))
            && (c.Ok? ==> r.value == c.value.img && gen.pos == old(gen.pos) + c.value.draws)
  {
    var f := gen.Choice(fns);
    if f.Err? {
      return Err(f.error);
    }
    var a := Apply(f.value, img, h, w, gen.stream, gen.pos, kernel);
    if a.Err? {
      return Err(a.error);
    }
    gen.Skip(a.value.draws);
    r := Ok(a.value.img);
  }

  /** The node body as the pipeline calls it. */
  function ResizeForward(node: ResizeNode, kernel: Kernel): Forward
  {
    (bufs: Buffers, stream: Stream, pos: nat) => ResizeEffect(node, kernel, bufs, stream, pos)
  }

  /** The hq target is `scale` times the lq target on both axes, and the lq
      target is a multiple of `divider` no larger than the spread size over
      `scale` (for positive `scale` and `divider`). */
  lemma TargetsAreScaled(node: ResizeNode, hqH: nat, hqW: nat, spread: real)
    requires node.scale > 0 && node.divider > 0
    ensures var t := Targets(node, hqH, hqW, spread);
            && t.Ok?
            && t.value.0 == node.scale * t.value.1 && t.value.2 == node.scale * t.value.3
            && FloorMod(t.value.1, node.divider) == 0 && FloorMod(t.value.3, node.divider) == 0
            && t.value.1 <= FloorDiv(Trunc(hqH as real * spread), node.scale) < t.value.1 + node.divider
            && t.value.3 <= FloorDiv(Trunc(hqW as real * spread), node.scale) < t.value.3 + node.divider
  {
  }

  /** `Resize.forward` on the state: the chosen functions' results replace
      `state.hq` (unless `olq`) and `state.lq`, and the state's generator
      advances by the draws taken. */
  method Forward(node: ResizeNode, kernel: Kernel, state: LQHQState) returns (r: Result<()>)
    modifies state, state.rng.gen
    ensures state.rng == old(state.rng)
    ensures var e := ResizeEffect(node, kernel, Buffers(old(state.lq), old(state.hq)), state.rng.gen.stream, old(state.rng.gen.pos));
            && (r.Ok? <==> e.Ok?)
            && (e.Err? ==> r == Err(e.error))
            && (e.Ok? ==> state.lq == e.value.out.lq && state.hq == e.value.out.hq
                          && state.rng.gen.pos == old(state.rng.gen.pos) + e.value.draws)
  {
    var gen := state.rng.gen;
    ghost var bufs := Buffers(state.lq, state.hq);
    ghost var p0 := gen.pos;
    var sp := gen.Choice(node.spread);
    if sp.Err? {
      return Err(sp.error);
    }
    var t := Targets(node, |state.hq|, Width(state.hq), sp.value);
    if t.Err? {
      return Err(t.error);
    }
    if !node.olq {
      var hq := ResizeWith(node.resizesHq, state.hq, t.value.0, t.value.2, gen, kernel);
      if hq.Err? {
        return Err(hq.error);
      }
      state.hq := hq.value;
    }
    var lq := ResizeWith(node.resizesLq, state.lq, t.value.1, t.value.3, gen, kernel);
    if lq.Err? {
      return Err(lq.error);
    }
    state.lq := lq.value;
    r := Ok(());
  }
}
