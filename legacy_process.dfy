/** The legacy batch processor (src/logic/process.py, `ImgProcess`) and the
    loss chains it shares with the logic operators: a catalogue drawn from
    numpy's global generator, a chain built through `get_class`, and a
    per-image loop that prints and swallows every exception. */
module LegacyProcess {

  import opened Wrappers
  import opened PyText
  import opened Rng
  import opened Images
  import opened Nodes
  import opened PipelineUtils
  import opened Registry
  import LegacyUtils

  // ---------------------------------------------------------------------------
  // Loss chains
  // ---------------------------------------------------------------------------

  /** Where threading `(lq, hq)` through a chain got to: the buffers, the
      global draws taken, and the exception that stopped it. A legacy loss's
      `run(lq, hq)` has the shape of a node body (`Forward`), drawing from
      numpy's global generator. */
  datatype Pass = Pass(out: Buffers, draws: nat, failure: Option<Error>)

  /** `for loss in turn: lq, hq = loss.run(lq, hq)`. */
  function Turn(steps: seq<Forward>, bufs: Buffers, stream: Stream, pos: nat): Pass
    decreases |steps|
  {
    if steps == [] then Pass(bufs, 0, None)
    else Extend(Turn(steps[..|steps| - 1], bufs, stream, pos), steps[|steps| - 1], stream, pos)
  }

  lemma TurnStep(steps: seq<Forward>, i: nat, bufs: Buffers, stream: Stream, pos: nat)
    requires i < |steps|
    ensures var before := Turn(steps[..i], bufs, stream, pos);
            Turn(steps[..i + 1], bufs, stream, pos) ==
              if before.failure.Some? then before
              else match steps[i](before.out, stream, pos + before.draws)
                case Err(e) => Pass(before.out, before.draws, Some(e))
                case Ok(x) => Pass(x.out, before.draws + x.draws, None)
  {
    assert steps[..i + 1][..i] == steps[..i];
  }

  lemma {:induction false} TurnStops(steps: seq<Forward>, k: nat, bufs: Buffers, stream: Stream, pos: nat)
    requires k <= |steps| && Turn(steps[..k], bufs, stream, pos).failure.Some?
    ensures Turn(steps, bufs, stream, pos) == Turn(steps[..k], bufs, stream, pos)
    decreases |steps| - k
  {
    if k < |steps| {
      TurnStep(steps, k, bufs, stream, pos);
      TurnStops(steps, k + 1, bufs, stream, pos);
    } else {
      assert steps[..k] == steps;
    }
  }

  /** Chains compose: running `a + b` is running `a`, then `b` on its output
      from where `a`'s draws ended, unless `a` raised. */
  lemma TurnAppend(a: seq<Forward>, b: seq<Forward>, bufs: Buffers, stream: Stream, pos: nat)
    ensures var ta := Turn(a, bufs, stream, pos);
            ta.failure.Some? ==> Turn(a + b, bufs, stream, pos) == ta
    ensures var ta := Turn(a, bufs, stream, pos);
            var tb := Turn(b, ta.out, stream, pos + ta.draws);
            ta.failure.None? ==> Turn(a + b, bufs, stream, pos) == Pass(tb.out, ta.draws + tb.draws, tb.failure)
  {
    var ta := Turn(a, bufs, stream, pos);
    AppendTurns(a, b, bufs, stream, pos, ta, Turn(b, ta.out, stream, pos + ta.draws));
  }

  /** `TurnAppend` with the passes of `a` and of `b` named, by induction on `b`. */
  lemma {:induction false} AppendTurns(a: seq<Forward>, b: seq<Forward>, bufs: Buffers, stream: Stream, pos: nat, ta: Pass, tb: Pass)
    requires ta == Turn(a, bufs, stream, pos) && tb == Turn(b, ta.out, stream, pos + ta.draws)
    ensures ta.failure.Some? ==> Turn(a + b, bufs, stream, pos) == ta
    ensures ta.failure.None? ==> Turn(a + b, bufs, stream, pos) == Pass(tb.out, ta.draws + tb.draws, tb.failure)
    decreases |b|
  {
    if b == [] {
      assert a + b == a;
      assert tb == Pass(ta.out, 0, None);
    } else {
      var tb' := Turn(b[..|b| - 1], ta.out, stream, pos + ta.draws);
      AppendTurns(a, b[..|b| - 1], bufs, stream, pos, ta, tb');
      AppendLast(a, b, bufs, stream, pos, ta, tb, tb');
    }
  }

  /** The inductive step of `AppendTurns`: from `a + b'` to `a + b' + [last]`. */
  lemma AppendLast(a: seq<Forward>, b: seq<Forward>, bufs: Buffers, stream: Stream, pos: nat, ta: Pass, tb: Pass, tb': Pass)
    requires b != []
    requires ta == Turn(a, bufs, stream, pos) && tb == Turn(b, ta.out, stream, pos + ta.draws)
    requires tb' == Turn(b[..|b| - 1], ta.out, stream, pos + ta.draws)
    requires ta.failure.Some? ==> Turn(a + b[..|b| - 1], bufs, stream, pos) == ta
    requires ta.failure.None? ==> Turn(a + b[..|b| - 1], bufs, stream, pos) == Pass(tb'.out, ta.draws + tb'.draws, tb'.failure)
    ensures ta.failure.Some? ==> Turn(a + b, bufs, stream, pos) == ta
    ensures ta.failure.None? ==> Turn(a + b, bufs, stream, pos) == Pass(tb.out, ta.draws + tb.draws, tb.failure)
  {
    var b' := b[..|b| - 1];
    SnocSplit(a, b);
    assert Turn(a + b, bufs, stream, pos) == Extend(Turn(a + b', bufs, stream, pos), b[|b| - 1], stream, pos);
    if ta.failure.None? {
      assert tb == Extend(tb', b[|b| - 1], stream, pos + ta.draws);
      AppendCase(Turn(a + b, bufs, stream, pos), Turn(a + b', bufs, stream, pos), ta.draws, tb, tb', b, stream, pos);
    }
  }

  /** Splitting the last element off `b`, alone and after `a`. */
  lemma SnocSplit<T>(a: seq<T>, b: seq<T>)
    requires b != []
    ensures (a + b)[..|a + b| - 1] == a + b[..|b| - 1]
    ensures (a + b)[|a + b| - 1] == b[|b| - 1]
  {
  }

  /** The step of `AppendTurns`, on the passes alone. */
  lemma AppendCase(whole: Pass, init: Pass, d: nat, tb: Pass, tb': Pass, steps: seq<Forward>, stream: Stream, pos: nat)
    requires steps != []
    requires whole == Extend(init, steps[|steps| - 1], stream, pos)
    requires init == Pass(tb'.out, d + tb'.draws, tb'.failure)
    requires tb == Extend(tb', steps[|steps| - 1], stream, pos + d)
    ensures whole == Pass(tb.out, d + tb.draws, tb.failure)
  {
    ExtendShift(d, tb', steps[|steps| - 1], stream, pos);
  }

  /** A step taken after `d` earlier draws reads the stream `d` places on. */
  lemma ExtendShift(d: nat, t: Pass, step: Forward, stream: Stream, pos: nat)
    ensures var e := Extend(t, step, stream, pos + d);
            Extend(Pass(t.out, d + t.draws, t.failure), step, stream, pos) == Pass(e.out, d + e.draws, e.failure)
  {
    if t.failure.None? {
      assert pos + (d + t.draws) == pos + d + t.draws;
    }
  }

  /** One more loss after a pass, as the last iteration of `Turn`. */
  function Extend(before: Pass, step: Forward, stream: Stream, pos: nat): (r: Pass)
    ensures before.failure.Some? ==> r == before
  {
    if before.failure.Some? then before
    else match step(before.out, stream, pos + before.draws)
      case Err(e) => Pass(before.out, before.draws, Some(e))
      case Ok(x) => Pass(x.out, before.draws + x.draws, None)
  }

  /** Threads the buffers through the chain, drawing from `global`. */
  method ApplyTurn(steps: seq<Forward>, bufs: Buffers, global: Generator) returns (r: Result<Buffers>)
    modifies global
    ensures var t := Turn(steps, bufs, global.stream, old(global.pos));
            && global.pos == old(global.pos) + t.draws
            && (r.Ok? <==> t.failure.None?)
            && (r.Ok? ==> r.value == t.out)
            && (r.Err? ==> t.failure == Some(r.error))
  {
    var cur := bufs;
    for i := 0 to |steps|
      invariant global.pos >= old(global.pos)
      invariant Turn(steps[..i], bufs, global.stream, old(global.pos)) == Pass(cur, global.pos - old(global.pos), None)
    {
      TurnStep(steps, i, bufs, global.stream, old(global.pos));
      var x := steps[i](cur, global.stream, global.pos);
      if x.Err? {
        TurnStops(steps, i + 1, bufs, global.stream, old(global.pos));
        return Err(x.error);
      }
      cur := x.value.out;
      global.Skip(x.value.draws);
    }
    assert steps[..|steps|] == steps;
    r := Ok(cur);
  }

  /** An entry of a `process` list: its "type" (None when the key is
      missing) and the dict itself, passed through uninterpreted. */
  datatype StepConf = StepConf(kind: Option<string>, options: string)

  /** A registered loss class: from its dict to the loss, or the exception
      its constructor raises. */
  type LossClass = string -> Result<Forward>

  /** `[get_class(d["type"])(d) for d in process]`: a missing "type" raises
      KeyError, and an unregistered one makes `get_class` return None, whose
      call raises TypeError. */
  function TurnOf(confs: seq<StepConf>, classes: map<string, LossClass>): Result<seq<Forward>>
    decreases |confs|
  {
    if confs == [] then Ok([])
    else match TurnOf(confs[..|confs| - 1], classes)
      case Err(e) => Err(e)
      case Ok(steps) =>
        var c := confs[|confs| - 1];
        if c.kind.None? then Err(KeyError)
        else if c.kind.value !in classes then Err(TypeError)
        else match classes[c.kind.value](c.options)
          case Err(e) => Err(e)
          case Ok(s) => Ok(steps + [s])
  }

  /** The chain follows the configuration order, and any entry whose type is
      missing or unregistered makes construction fail. */
  lemma {:induction false} TurnOfShape(confs: seq<StepConf>, classes: map<string, LossClass>)
    ensures var t := TurnOf(confs, classes);
            && (t.Ok? ==> |t.value| == |confs|
                          && forall i :: 0 <= i < |confs| ==>
                               confs[i].kind.Some? && confs[i].kind.value in classes
                               && classes[confs[i].kind.value](confs[i].options) == Ok(t.value[i]))
            && ((exists i :: 0 <= i < |confs| && (confs[i].kind.None? || confs[i].kind.value !in classes)) ==> t.Err?)
    decreases |confs|
  {
    if confs != [] {
      var init := confs[..|confs| - 1];
      TurnOfShape(init, classes);
      assert forall i :: 0 <= i < |init| ==> init[i] == confs[i];
      if exists i :: 0 <= i < |confs| && (confs[i].kind.None? || confs[i].kind.value !in classes) {
        var i :| 0 <= i < |confs| && (confs[i].kind.None? || confs[i].kind.value !in classes);
        if i < |init| {
          assert init[i].kind.None? || init[i].kind.value !in classes;
        }
      }
    }
  }

  lemma {:induction false} TurnOfStops(confs: seq<StepConf>, classes: map<string, LossClass>, k: nat)
    requires k <= |confs| && TurnOf(confs[..k], classes).Err?
    ensures TurnOf(confs, classes) == TurnOf(confs[..k], classes)
    decreases |confs| - k
  {
    if k < |confs| {
      assert confs[..k + 1][..k] == confs[..k];
      TurnOfStops(confs, classes, k + 1);
    } else {
      assert confs[..k] == confs;
    }
  }

  /** Builds a chain through the registry's `get_class`. */
  method BuildTurn(confs: seq<StepConf>, registry: Registry<LossClass>) returns (r: Result<seq<Forward>>)
    ensures r == TurnOf(confs, registry.classes)
  {
    var steps: seq<Forward> := [];
    for i := 0 to |confs|
      invariant TurnOf(confs[..i], registry.classes) == Ok(steps)
    {
      assert confs[..i + 1][..i] == confs[..i];
      var c := confs[i];
      if c.kind.None? {
        TurnOfStops(confs, registry.classes, i + 1);
        return Err(KeyError);
      }
      var cls := registry.GetClass(c.kind.value);
      if cls.None? {
        TurnOfStops(confs, registry.classes, i + 1);
        return Err(TypeError);
      }
      var s := cls.value(c.options);
      if s.Err? {
        TurnOfStops(confs, registry.classes, i + 1);
        return Err(s.error);
      }
      steps := steps + [s.value];
    }
    assert confs[..|confs|] == confs;
    r := Ok(steps);
  }

  // ---------------------------------------------------------------------------
  // Catalogue
  // ---------------------------------------------------------------------------

  /** The cap applied after the first shuffle. */
  const Cap: nat := 6000

  /** `all_images` from the listing: shuffled, cut to 6000, shuffled again
      when `shuffle_dataset` is set, then cut to `size` when that is set and
      non-zero. Both shuffles draw from the global generator. */
  function LegacyCatalogue(listing: seq<string>, shuffle: bool, size: Option<int>, stream: Stream, pos: nat): seq<string>
  {
    var capped := SliceTo(Shuffled(listing, stream, pos), Cap);
    var again := if shuffle then Shuffled(capped, stream, pos + ShuffleDraws(|listing|)) else capped;
    if size.Some? && size.value != 0 then SliceTo(again, size.value) else again
  }

  /** The global draws the catalogue takes. */
  function CatalogueDraws(n: nat, shuffle: bool): nat
  {
    ShuffleDraws(n) + if shuffle then ShuffleDraws(if n < Cap then n else Cap) else 0
  }

  lemma PrefixMultiset<T>(xs: seq<T>, ys: seq<T>)
    requires |ys| <= |xs| && ys == xs[..|ys|]
    ensures multiset(ys) <= multiset(xs)
  {
    assert xs == ys + xs[|ys|..];
  }

  /** The catalogue holds at most 6000 entries, at most `size` when that is
      positive, and only entries of the listing, none more often than
      listed. */
  lemma LegacyCatalogueBounds(listing: seq<string>, shuffle: bool, size: Option<int>, stream: Stream, pos: nat)
    ensures var cat := LegacyCatalogue(listing, shuffle, size, stream, pos);
            && |cat| <= Cap && |cat| <= |listing|
            && (size.Some? && size.value > 0 ==> |cat| <= size.value)
            && multiset(cat) <= multiset(listing)
  {
    var first := Shuffled(listing, stream, pos);
    ShufflePermutes(listing, stream, pos);
    var capped := SliceTo(first, Cap);
    PrefixMultiset(first, capped);
    assert |capped| <= Cap && |capped| <= |listing| && multiset(capped) <= multiset(listing);
    var again := if shuffle then Shuffled(capped, stream, pos + ShuffleDraws(|listing|)) else capped;
    ShufflePermutes(capped, stream, pos + ShuffleDraws(|listing|));
    assert |again| == |capped| && multiset(again) == multiset(capped);
    SizeCut(again, size);
  }

  /** The final `[:size]` cut keeps a prefix: no longer than its input, no
      longer than a positive size, and no new entries. */
  lemma SizeCut(again: seq<string>, size: Option<int>)
    ensures var cat := if size.Some? && size.value != 0 then SliceTo(again, size.value) else again;
            && |cat| <= |again|
            && (size.Some? && size.value > 0 ==> |cat| <= size.value)
            && multiset(cat) <= multiset(again)
  {
    var cat := if size.Some? && size.value != 0 then SliceTo(again, size.value) else again;
    PrefixMultiset(again, cat);
  }

  /** `np.random.shuffle(xs)` on a list, through an array. */
  method ShuffleList(xs: seq<string>, global: Generator) returns (ys: seq<string>)
    modifies global
    ensures ys == Shuffled(xs, global.stream, old(global.pos))
    ensures global.pos == old(global.pos) + ShuffleDraws(|xs|)
  {
    var a := new string[|xs|](i requires 0 <= i < |xs| => xs[i]);
    assert a[..] == xs;
    global.Shuffle(a);
    ys := a[..];
  }

  /** The catalogue step of the constructor, on numpy's global generator. */
  method ListImages(listing: seq<string>, shuffle: bool, size: Option<int>, global: Generator) returns (images: seq<string>)
    modifies global
    ensures images == LegacyCatalogue(listing, shuffle, size, global.stream, old(global.pos))
    ensures global.pos == old(global.pos) + CatalogueDraws(|listing|, shuffle)
  {
    var first := ShuffleList(listing, global);
    ShufflePermutes(listing, global.stream, old(global.pos));
    images := SliceTo(first, Cap);
    if shuffle {
      images := ShuffleList(images, global);
    }
    if size.Some? && size.value != 0 {
      images := SliceTo(images, size.value);
    }
  }

  // ---------------------------------------------------------------------------
  // Tiles
  // ---------------------------------------------------------------------------

  /** `xs[a:b]` for non-negative bounds, clamped to the sequence as Python and
      numpy clamp slices. */
  function Window<T>(xs: seq<T>, a: nat, b: nat): (r: seq<T>)
    ensures |r| <= |xs|
    ensures a <= b <= |xs| ==> r == xs[a..b]
  {
    var lo := if a < |xs| then a else |xs|;
    var hi := if b < |xs| then b else |xs|;
    if lo <= hi then xs[lo..hi] else []
  }

  /** `img[T*Kx : T*(Kx+1), T*Ky : T*(Ky+1)]`. */
  function TileOf(img: Image, t: nat, kx: nat, ky: nat): Image
  {
    Block(img, t * kx, t * ky, t)
  }

  /** `img[x0 : x0 + t, y0 : y0 + t]`, clamped as numpy slices are. */
  function Block(img: Image, x0: nat, y0: nat, t: nat): Image
  {
    var rows := Window(img, x0, x0 + t);
    seq(|rows|, r requires 0 <= r < |rows| => Window(rows[r], y0, y0 + t))
  }

  /** A block that fits inside the image is `t × t`, and its sample `(r, c)`
      is the image's `(x0 + r, y0 + c)`. */
  lemma BlockGeometry(img: Image, h: nat, w: nat, x0: nat, y0: nat, t: nat)
    requires Rectangular(img, h, w) && x0 + t <= h && y0 + t <= w
    ensures |Block(img, x0, y0, t)| == t
    ensures forall r :: 0 <= r < t ==> |Block(img, x0, y0, t)[r]| == t
    ensures forall r, c :: 0 <= r < t && 0 <= c < t ==> Block(img, x0, y0, t)[r][c] == img[x0 + r][y0 + c]
  {
    var rows := img[x0..x0 + t];
    assert Window(img, x0, x0 + t) == rows;
    var tile := Block(img, x0, y0, t);
    forall r | 0 <= r < t
      ensures tile[r] == img[x0 + r][y0..y0 + t]
    {
      assert rows[r] == img[x0 + r];
      assert |rows[r]| == w;
    }
    forall r, c | 0 <= r < t && 0 <= c < t
      ensures tile[r][c] == img[x0 + r][y0 + c]
    {
      assert tile[r] == img[x0 + r][y0..y0 + t];
    }
  }

  /** `img.shape[:2]` for an image whose rows have equal length. */
  predicate Rectangular(img: Image, h: nat, w: nat)
  {
    |img| == h && forall r :: 0 <= r < h ==> |img[r]| == w
  }

  /** `np.ndindex(h // T, w // T)`'s dimensions: a zero tile size raises
      ZeroDivisionError and a negative dimension ValueError. */
  function GridDims(h: nat, w: nat, t: int): (r: Result<(nat, nat)>)
    ensures t > 0 ==> r == Ok((h / t, w / t))
    ensures t == 0 ==> r == Err(ZeroDivisionError)
  {
    if t == 0 then Err(ZeroDivisionError)
    else
      var a := FloorDiv(h, t);
      var b := FloorDiv(w, t);
      if a < 0 || b < 0 then Err(ValueError) else Ok((a, b))
  }

  /** The cells of an `a × b` grid in `np.ndindex` order. */
  function Grid(a: nat, b: nat): (g: seq<(nat, nat)>)
    ensures forall i :: 0 <= i < |g| ==> g[i].0 < a && g[i].1 < b
  {
    if a == 0 then [] else Grid(a - 1, b) + seq(b, ky requires 0 <= ky < b => (a - 1, ky))
  }

  predicate LexBefore(p: (nat, nat), q: (nat, nat))
  {
    p.0 < q.0 || (p.0 == q.0 && p.1 < q.1)
  }

  /** The grid is row-major: strictly increasing in (Kx, Ky), so no cell
      repeats, and every cell of the rectangle appears. */
  lemma {:induction false} GridRowMajor(a: nat, b: nat)
    ensures forall i, j :: 0 <= i < j < |Grid(a, b)| ==> LexBefore(Grid(a, b)[i], Grid(a, b)[j])
    ensures forall kx, ky :: 0 <= kx < a && 0 <= ky < b ==> (kx, ky) in Grid(a, b)
  {
    if a > 0 {
      GridRowMajor(a - 1, b);
      var g := Grid(a - 1, b);
      var row := seq(b, ky requires 0 <= ky < b => (a - 1, ky));
      assert Grid(a, b) == g + row;
      forall kx, ky | 0 <= kx < a && 0 <= ky < b
        ensures (kx, ky) in Grid(a, b)
      {
        if kx == a - 1 {
          assert row[ky] == (kx, ky);
        } else {
          assert (kx, ky) in g;
        }
      }
    }
  }

  lemma MulMono(t: nat, x: int, y: int)
    requires x <= y
    ensures t * x <= t * y
  {
    assert t * y - t * x == t * (y - x);
  }

  /** A block index below `n // t` leaves room for the whole block. */
  lemma BlockInside(t: nat, k: nat, n: nat)
    requires t > 0 && k < n / t
    ensures t * k + t <= n
  {
    MulMono(t, k + 1, n / t);
    assert t * (k + 1) == t * k + t;
    assert t * (n / t) <= n;
  }

  /** A cell of the grid lies inside the image and is a `T × T` block of it:
      its sample `(r, c)` is the image's `(T·Kx + r, T·Ky + c)`. */
  lemma TileGeometry(img: Image, h: nat, w: nat, t: nat, kx: nat, ky: nat)
    requires Rectangular(img, h, w) && t > 0 && kx < h / t && ky < w / t
    ensures t * kx + t <= h && t * ky + t <= w
    ensures |TileOf(img, t, kx, ky)| == t
    ensures forall r :: 0 <= r < t ==> |TileOf(img, t, kx, ky)[r]| == t
    ensures var x0, y0 := t * kx, t * ky;
      forall r, c :: 0 <= r < t && 0 <= c < t ==> TileOf(img, t, kx, ky)[r][c] == img[x0 + r][y0 + c]
  {
    BlockInside(t, kx, h);
    BlockInside(t, ky, w);
    BlockGeometry(img, h, w, t * kx, t * ky, t);
  }

  /** Two cells that share a sample are the same cell: the blocks are
      pairwise disjoint. */
  lemma TilesDisjoint(t: nat, kx: nat, ky: nat, kx': nat, ky': nat, r: int, c: int)
    requires t > 0
    requires t * kx <= r < t * (kx + 1) && t * ky <= c < t * (ky + 1)
    requires t * kx' <= r < t * (kx' + 1) && t * ky' <= c < t * (ky' + 1)
    ensures kx == kx' && ky == ky'
  {
    if kx < kx' { MulMono(t, kx + 1, kx'); }
    if kx' < kx { MulMono(t, kx' + 1, kx); }
    if ky < ky' { MulMono(t, ky + 1, ky'); }
    if ky' < ky { MulMono(t, ky' + 1, ky); }
  }

  // ---------------------------------------------------------------------------
  // Output names
  // ---------------------------------------------------------------------------

  /** `f"{n}.png"`. */
  function ImageName(n: nat): string { NatToString(n) + ".png" }

  /** `f"{n}_{Kx}_{Ky}.png"`. */
  function TileName(n: nat, kx: nat, ky: nat): string
  {
    NatToString(n) + "_" + NatToString(kx) + "_" + NatToString(ky) + ".png"
  }

  lemma DecimalNoUnderscore(n: nat)
    ensures '_' !in NatToString(n)
  {
  }

  /** Three numerals joined by underscores split back into themselves. */
  lemma SplitNumerals(n: nat, kx: nat, ky: nat)
    ensures Split(NatToString(n) + "_" + NatToString(kx) + "_" + NatToString(ky), '_')
            == [NatToString(n), NatToString(kx), NatToString(ky)]
  {
    DecimalNoUnderscore(n);
    DecimalNoUnderscore(kx);
    DecimalNoUnderscore(ky);
    SplitThree(NatToString(n), NatToString(kx), NatToString(ky));
  }

  lemma SplitThree(a: string, b: string, c: string)
    requires '_' !in a && '_' !in b && '_' !in c
    ensures Split(a + "_" + b + "_" + c, '_') == [a, b, c]
  {
    var tail := b + ['_'] + c;
    assert a + "_" + b + "_" + c == a + ['_'] + tail;
    SplitFirst(a, tail, '_');
    SplitFirst(b, c, '_');
    SplitNoSep(c, '_');
  }

  /** Different cells, or different images, never share a tile name. */
  lemma TileNamesDistinct(n: nat, kx: nat, ky: nat, n': nat, kx': nat, ky': nat)
    requires TileName(n, kx, ky) == TileName(n', kx', ky')
    ensures n == n' && kx == kx' && ky == ky'
  {
    var s := NatToString(n) + "_" + NatToString(kx) + "_" + NatToString(ky);
    var s' := NatToString(n') + "_" + NatToString(kx') + "_" + NatToString(ky');
    assert s == (s + ".png")[..|s + ".png"| - 4];
    assert s' == (s' + ".png")[..|s' + ".png"| - 4];
    SplitNumerals(n, kx, ky);
    SplitNumerals(n', kx', ky');
    NatToStringInjective(n, n');
    NatToStringInjective(kx, kx');
    NatToStringInjective(ky, ky');
  }

  /** Whole-image names differ for different indices, and never equal a tile
      name, which holds an underscore. */
  lemma ImageNamesDistinct(n: nat, n': nat, kx: nat, ky: nat)
    ensures ImageName(n) == ImageName(n') ==> n == n'
    ensures ImageName(n) != TileName(n', kx, ky)
  {
    if ImageName(n) == ImageName(n') {
      var s := NatToString(n) + ".png";
      assert NatToString(n) == s[..|s| - 4];
      assert NatToString(n') == (NatToString(n') + ".png")[..|s| - 4];
      NatToStringInjective(n, n');
    }
    DecimalNoUnderscore(n);
    var t := TileName(n', kx, ky);
    assert t[|NatToString(n')|] == '_';
    assert '_' in t;
    assert '_' !in ".png";
  }

  // ---------------------------------------------------------------------------
  // The processor
  // ---------------------------------------------------------------------------

  /** `read(join(input, name), ...)` with the gray options applied, outside
      this model. */
  type LegacyReader = string -> Result<Image>

  /** `img2gray` on this layer's images, whose channel axis the `Image` type
      does not carry: the converted image, or the exception it raises
      (LegacyUtils.Img2Gray states it on n-dimensional arrays). */
  type GrayConversion = Image -> Result<Image>

  /** `laplace_filter(img, mean_min)`: whether an image is too flat to keep. */
  type LaplaceTest = (Image, real) -> bool

  /** The `tile` dict: `no_wb` (missing counts as false) and `size` (512 when
      missing). An empty dict is falsy and stands as None. */
  datatype TileConf = TileConf(noWb: bool, size: int := 512)

  /** The configuration dict; a None stands for a missing key. */
  datatype Config = Config(input: Option<string>, output: Option<string>, process: Option<seq<StepConf>>,
                           tile: Option<TileConf>, shuffleDataset: bool, size: Option<int>,
                           mapType: string, laplaceFilter: Option<real>, numWorkers: Option<int>,
                           gray: bool)

  /** Python truthiness of an optional threshold. */
  predicate Truthy(x: Option<real>) { x.Some? && x.value != 0.0 }

  /** What one image's work left: its writes, the global generator's position
      afterwards, and the exception that was printed, if any. */
  datatype Attempt = Attempt(events: seq<FsEvent>, pos: nat, failure: Option<Error>)

  /** First index of `x` in `xs` (`list.index`). */
  function IndexOf(xs: seq<string>, x: string): (r: Option<nat>)
    ensures r.None? <==> x !in xs
    ensures r.Some? ==> r.value < |xs| && xs[r.value] == x && forall j :: 0 <= j < r.value ==> xs[j] != x
  {
    if xs == [] then None
    else if xs[0] == x then Some(0)
    else match IndexOf(xs[1..], x)
      case None => None
      case Some(i) => Some(i + 1)
  }

  /** The blocks `process_tile` drops: by the Laplacian test when a threshold
      is set, otherwise (`elif`) black or white blocks when `no_wb` is set. */
  predicate TileSkipped(laplaceFilter: Option<real>, laplace: LaplaceTest, noWb: bool, tile: Image)
  {
    if Truthy(laplaceFilter) then laplace(tile, laplaceFilter.value) else noWb && MeanIsBlackOrWhite(tile)
  }

  class ImgProcess {
    const input: string
    const output: string
    const tile: Option<TileConf>
    const allImages: seq<string>
    const turn: seq<Forward>
    const outputLq: string
    const outputHq: string
    const mapType: string
    const laplaceFilter: Option<real>
    const numWorkers: Option<int>
    const read: LegacyReader
    const laplace: LaplaceTest
    const gray: bool
    const toGray: GrayConversion

    constructor (input: string, output: string, tile: Option<TileConf>, allImages: seq<string>,
                 turn: seq<Forward>, mapType: string, laplaceFilter: Option<real>, numWorkers: Option<int>,
                 read: LegacyReader, laplace: LaplaceTest, gray: bool, toGray: GrayConversion)
      ensures this.input == input && this.output == output && this.tile == tile
      ensures this.allImages == allImages && this.turn == turn && this.mapType == mapType
      ensures this.outputLq == PathJoin(output, "lq") && this.outputHq == PathJoin(output, "hq")
      ensures this.laplaceFilter == laplaceFilter && this.numWorkers == numWorkers
      ensures this.read == read && this.laplace == laplace
      ensures this.gray == gray && this.toGray == toGray
    {
      this.input := input;
      this.output := output;
      this.tile := tile;
      this.allImages := allImages;
      this.turn := turn;
      this.outputLq := PathJoin(output, "lq");
      this.outputHq := PathJoin(output, "hq");
      this.mapType := mapType;
      this.laplaceFilter := laplaceFilter;
      this.numWorkers := numWorkers;
      this.read := read;
      this.laplace := laplace;
      this.gray := gray;
      this.toGray := toGray;
    }

    /** `ImgProcess(config)`, given the directory listing and numpy's global
        generator. Missing "input", "output" or "process" keys raise KeyError
        before anything happens; the chain is built after the catalogue and
        before the output folders, so a bad chain leaves no folder behind. */
    static method Create(config: Config, listing: seq<string>, registry: Registry<LossClass>,
                         read: LegacyReader, laplace: LaplaceTest, toGray: GrayConversion,
                         global: Generator, disk: Disk)
      returns (r: Result<ImgProcess>)
      modifies global, disk
      ensures config.input.None? || config.output.None? || config.process.None? ==>
                r == Err(KeyError) && global.pos == old(global.pos) && disk.log == old(disk.log)
      ensures config.input.Some? && config.output.Some? && config.process.Some? ==>
                && global.pos == old(global.pos) + CatalogueDraws(|listing|, config.shuffleDataset)
                && (r.Ok? <==> TurnOf(config.process.value, registry.classes).Ok?)
                && (r.Err? ==> r.error == TurnOf(config.process.value, registry.classes).error
                               && disk.log == old(disk.log))
      ensures r.Ok? ==>
                && fresh(r.value)
                && r.value.allImages == LegacyCatalogue(listing, config.shuffleDataset, config.size,
                                                        global.stream, old(global.pos))
                && r.value.turn == TurnOf(config.process.value, registry.classes).value
                && r.value.input == config.input.value && r.value.output == config.output.value
                && r.value.tile == config.tile && r.value.mapType == config.mapType
                && r.value.laplaceFilter == config.laplaceFilter && r.value.numWorkers == config.numWorkers
                && r.value.read == read && r.value.laplace == laplace
                && r.value.gray == config.gray && r.value.toGray == toGray
                && disk.log == old(disk.log) + [Created(r.value.outputLq), Created(r.value.outputHq)]
    {
      if config.input.None? || config.output.None? || config.process.None? {
        return Err(KeyError);
      }
      var images := ListImages(listing, config.shuffleDataset, config.size, global);
      var turn := BuildTurn(config.process.value, registry);
      if turn.Err? {
        return Err(turn.error);
      }
      var p := new ImgProcess(config.input.value, config.output.value, config.tile, images, turn.value,
                              config.mapType, config.laplaceFilter, config.numWorkers, read, laplace,
                              config.gray, toGray);
      disk.MakeDirs(p.outputLq);
      disk.MakeDirs(p.outputHq);
      r := Ok(p);
    }

    /** What `__img_save` writes for a result pair: with `gray` set, both
        images go through `lq_hq2grays` first, and a conversion that raises
        means nothing is saved; otherwise the pair as it is. */
    function SaveForm(lq: Image, hq: Image): (r: Result<(Image, Image)>)
      ensures !gray ==> r == Ok((lq, hq))
      ensures gray ==> r == LegacyUtils.BothGray(lq, hq, toGray)
      ensures gray && r.Ok? ==> r.value == (toGray(lq).value, toGray(hq).value)
    {
      if gray then LegacyUtils.BothGray(lq, hq, toGray) else Ok((lq, hq))
    }

    /** `process(img_fold)`: read, optionally drop a flat image, run the chain
        on `(img, img)`, convert the results when `gray` is set, and save both
        as `"<n>.png"`, `n` being the name's index in `all_images`. Any
        exception is printed and ends the image's work. */
    function ImageAttempt(f: string, stream: Stream, pos: nat): (a: Attempt)
      ensures a.failure.Some? ==> a.events == []
      ensures a.events != [] ==> f in allImages && |a.events| == 2
                                 && a.events[0].Save? && a.events[0].path == PathJoin(outputLq, ImageName(IndexOf(allImages, f).value))
                                 && a.events[1].Save? && a.events[1].path == PathJoin(outputHq, ImageName(IndexOf(allImages, f).value))
    {
      match read(PathJoin(input, f))
      case Err(e) => Attempt([], pos, Some(e))
      case Ok(img) =>
        if Truthy(laplaceFilter) && laplace(img, laplaceFilter.value) then Attempt([], pos, None)
        else match IndexOf(allImages, f)
          case None => Attempt([], pos, Some(ValueError))
          case Some(n) =>
            var t := Turn(turn, Buffers(img, img), stream, pos);
            if t.failure.Some? then Attempt([], pos + t.draws, t.failure)
            else match SaveForm(t.out.lq, t.out.hq)
              case Err(e) => Attempt([], pos + t.draws, Some(e))
              case Ok(saved) =>
                Attempt([Save(PathJoin(outputLq, ImageName(n)), saved.0), Save(PathJoin(outputHq, ImageName(n)), saved.1)],
                        pos + t.draws, None)
    }

    method Process(f: string, global: Generator, disk: Disk) returns (printed: Option<Error>)
      modifies global, disk
      ensures var a := ImageAttempt(f, global.stream, old(global.pos));
              disk.log == old(disk.log) + a.events && global.pos == a.pos && printed == a.failure
    {
      var img := read(PathJoin(input, f));
      if img.Err? {
        return Some(img.error);
      }
      if Truthy(laplaceFilter) && laplace(img.value, laplaceFilter.value) {
        return None;
      }
      var n := IndexOf(allImages, f);
      if n.None? {
        return Some(ValueError);
      }
      var out := ApplyTurn(turn, Buffers(img.value, img.value), global);
      if out.Err? {
        return Some(out.error);
      }
      var saved := SaveForm(out.value.lq, out.value.hq);
      if saved.Err? {
        return Some(saved.error);
      }
      disk.log := disk.log + [Save(PathJoin(outputLq, ImageName(n.value)), saved.value.0),
                              Save(PathJoin(outputHq, ImageName(n.value)), saved.value.1)];
      printed := None;
    }

    /** The loop of `process_tile` over the first `|cells|` cells of the grid. */
    function TilesAttempt(img: Image, n: nat, t: nat, noWb: bool, cells: seq<(nat, nat)>, stream: Stream, pos: nat): Attempt
      decreases |cells|
    {
      if cells == [] then Attempt([], pos, None)
      else TileStep(img, n, t, noWb, TilesAttempt(img, n, t, noWb, cells[..|cells| - 1], stream, pos), cells[|cells| - 1], stream)
    }

    /** One cell of the tile loop after the cells before it: nothing once an
        exception was raised or when the block is dropped; otherwise the
        chain runs on `(tile, tile)` and both results are saved, converted
        first when `gray` is set. */
    function TileStep(img: Image, n: nat, t: nat, noWb: bool, before: Attempt, cell: (nat, nat), stream: Stream): Attempt
    {
      var block := TileOf(img, t, cell.0, cell.1);
      if before.failure.Some? || TileSkipped(laplaceFilter, laplace, noWb, block) then before
      else
        var r := Turn(turn, Buffers(block, block), stream, before.pos);
        if r.failure.Some? then Attempt(before.events, before.pos + r.draws, r.failure)
        else match SaveForm(r.out.lq, r.out.hq)
          case Err(e) => Attempt(before.events, before.pos + r.draws, Some(e))
          case Ok(saved) =>
            var name := TileName(n, cell.0, cell.1);
            Attempt(before.events + [Save(PathJoin(outputLq, name), saved.0), Save(PathJoin(outputHq, name), saved.1)],
                    before.pos + r.draws, None)
    }

    lemma TilesStep(img: Image, n: nat, t: nat, noWb: bool, cells: seq<(nat, nat)>, i: nat, stream: Stream, pos: nat)
      requires i < |cells|
      ensures TilesAttempt(img, n, t, noWb, cells[..i + 1], stream, pos) ==
                TileStep(img, n, t, noWb, TilesAttempt(img, n, t, noWb, cells[..i], stream, pos), cells[i], stream)
    {
      assert cells[..i + 1][..i] == cells[..i];
    }

    lemma {:induction false} TilesStop(img: Image, n: nat, t: nat, noWb: bool, cells: seq<(nat, nat)>, k: nat, stream: Stream, pos: nat)
      requires k <= |cells| && TilesAttempt(img, n, t, noWb, cells[..k], stream, pos).failure.Some?
      ensures TilesAttempt(img, n, t, noWb, cells, stream, pos) == TilesAttempt(img, n, t, noWb, cells[..k], stream, pos)
      decreases |cells| - k
    {
      if k < |cells| {
        TilesStep(img, n, t, noWb, cells, k, stream, pos);
        TilesStop(img, n, t, noWb, cells, k + 1, stream, pos);
      } else {
        assert cells[..k] == cells;
      }
    }

    /** A save of one of `cells`' tiles of image `n`, into `lq/` or `hq/`. */
    predicate SavedTile(e: FsEvent, n: nat, cells: seq<(nat, nat)>)
    {
      e.Save? &&
      exists c :: c in cells && (e.path == PathJoin(outputLq, TileName(n, c.0, c.1)) || e.path == PathJoin(outputHq, TileName(n, c.0, c.1)))
    }

    /** Every write of the tile loop goes to `lq/` or `hq/` under the name of a
        cell it visited, at most two per cell. */
    lemma {:induction false} TilesAttemptNames(img: Image, n: nat, t: nat, noWb: bool, cells: seq<(nat, nat)>, stream: Stream, pos: nat)
      ensures forall k :: 0 <= k < |TilesAttempt(img, n, t, noWb, cells, stream, pos).events| ==>
                SavedTile(TilesAttempt(img, n, t, noWb, cells, stream, pos).events[k], n, cells)
      ensures |TilesAttempt(img, n, t, noWb, cells, stream, pos).events| <= 2 * |cells|
      decreases |cells|
    {
      if cells != [] {
        var init := cells[..|cells| - 1];
        var cell := cells[|cells| - 1];
        TilesAttemptNames(img, n, t, noWb, init, stream, pos);
        var before := TilesAttempt(img, n, t, noWb, init, stream, pos);
        var ev := TilesAttempt(img, n, t, noWb, cells, stream, pos).events;
        assert |before.events| <= |ev| && ev[..|before.events|] == before.events;
        forall k | 0 <= k < |ev|
          ensures SavedTile(ev[k], n, cells)
        {
          if k < |before.events| {
            assert ev[k] == before.events[k];
            var c :| c in init &&
              (ev[k].path == PathJoin(outputLq, TileName(n, c.0, c.1)) || ev[k].path == PathJoin(outputHq, TileName(n, c.0, c.1)));
            assert c in cells;
          } else {
            assert cell in cells;
          }
        }
      }
    }

    /** `process_tile(img_fold)`: read, find the name's index, then visit the
        `(h // T) × (w // T)` grid row by row, skipping dropped blocks and
        saving the others as `"<n>_<Kx>_<Ky>.png"`. Any exception is printed
        and ends the image's work; tiles already saved stay. */
    function TileImageAttempt(f: string, stream: Stream, pos: nat): Attempt
      requires tile.Some?
    {
      match read(PathJoin(input, f))
      case Err(e) => Attempt([], pos, Some(e))
      case Ok(img) =>
        match IndexOf(allImages, f)
        case None => Attempt([], pos, Some(ValueError))
        case Some(n) =>
          match GridDims(|img|, Width(img), tile.value.size)
          case Err(e) => Attempt([], pos, Some(e))
          case Ok(dims) =>
            // a cell exists only for a positive size
            var t: nat := if tile.value.size > 0 then tile.value.size else 0;
            TilesAttempt(img, n, t, tile.value.noWb, Grid(dims.0, dims.1), stream, pos)
    }

    method ProcessTile(f: string, global: Generator, disk: Disk) returns (printed: Option<Error>)
      requires tile.Some?
      modifies global, disk
      ensures var a := TileImageAttempt(f, global.stream, old(global.pos));
              disk.log == old(disk.log) + a.events && global.pos == a.pos && printed == a.failure
    {
      var img := read(PathJoin(input, f));
      if img.Err? {
        return Some(img.error);
      }
      var n := IndexOf(allImages, f);
      if n.None? {
        return Some(ValueError);
      }
      var dims := GridDims(|img.value|, Width(img.value), tile.value.size);
      if dims.Err? {
        return Some(dims.error);
      }
      var t: nat := if tile.value.size > 0 then tile.value.size else 0;
      printed := VisitTiles(img.value, n.value, t, tile.value.noWb, Grid(dims.value.0, dims.value.1), global, disk);
    }

    /** The loop of `process_tile` over the grid cells. */
    method VisitTiles(img: Image, n: nat, t: nat, noWb: bool, cells: seq<(nat, nat)>, global: Generator, disk: Disk)
      returns (printed: Option<Error>)
      modifies global, disk
      ensures var a := TilesAttempt(img, n, t, noWb, cells, global.stream, old(global.pos));
              disk.log == old(disk.log) + a.events && global.pos == a.pos && printed == a.failure
    {
      for i := 0 to |cells|
        invariant TilesAttempt(img, n, t, noWb, cells[..i], global.stream, old(global.pos)).failure.None?
        invariant disk.log == old(disk.log) + TilesAttempt(img, n, t, noWb, cells[..i], global.stream, old(global.pos)).events
        invariant global.pos == TilesAttempt(img, n, t, noWb, cells[..i], global.stream, old(global.pos)).pos
      {
        TilesStep(img, n, t, noWb, cells, i, global.stream, old(global.pos));
        var stop := VisitCell(img, n, t, noWb, cells[i], TilesAttempt(img, n, t, noWb, cells[..i], global.stream, old(global.pos)), old(disk.log), global, disk);
        if stop.Some? {
          TilesStop(img, n, t, noWb, cells, i + 1, global.stream, old(global.pos));
          return stop;
        }
      }
      assert cells[..|cells|] == cells;
      printed := None;
    }

    /** One iteration of the tile loop: a dropped block is skipped
        (`continue`); otherwise the chain runs on `(tile, tile)` and both
        results are saved. */
    method VisitCell(img: Image, n: nat, t: nat, noWb: bool, cell: (nat, nat), ghost before: Attempt, ghost base: seq<FsEvent>,
                     global: Generator, disk: Disk)
      returns (stop: Option<Error>)
      requires before.failure.None? && global.pos == before.pos && disk.log == base + before.events
      modifies global, disk
      ensures var a := TileStep(img, n, t, noWb, before, cell, global.stream);
              disk.log == base + a.events && global.pos == a.pos && stop == a.failure
    {
      var block := TileOf(img, t, cell.0, cell.1);
      if TileSkipped(laplaceFilter, laplace, noWb, block) {
        return None;
      }
      var out := ApplyTurn(turn, Buffers(block, block), global);
      if out.Err? {
        return Some(out.error);
      }
      var saved := SaveForm(out.value.lq, out.value.hq);
      if saved.Err? {
        return Some(saved.error);
      }
      var name := TileName(n, cell.0, cell.1);
      disk.log := disk.log + [Save(PathJoin(outputLq, name), saved.value.0), Save(PathJoin(outputHq, name), saved.value.1)];
      stop := None;
    }

    /** One image with the method `run` picks: `process_tile` when tiling. */
    function Attempted(f: string, stream: Stream, pos: nat): Attempt
    {
      if tile.Some? then TileImageAttempt(f, stream, pos) else ImageAttempt(f, stream, pos)
    }

    /** `run()` over the first `|files|` names: every image is attempted, in
        order, each from where the previous one left the global generator. */
    function RunAttempts(files: seq<string>, stream: Stream, pos: nat): (r: Attempt)
      decreases |files|
    {
      if files == [] then Attempt([], pos, None)
      else
        var before := RunAttempts(files[..|files| - 1], stream, pos);
        var a := Attempted(files[|files| - 1], stream, before.pos);
        Attempt(before.events + a.events, a.pos, None)
    }

    /** The exceptions `run()` prints over the first `|files|` names: each
        image's own failure, in order. */
    function RunPrinted(files: seq<string>, stream: Stream, pos: nat): (r: seq<Error>)
      ensures |r| <= |files|
      decreases |files|
    {
      if files == [] then []
      else
        var before := RunAttempts(files[..|files| - 1], stream, pos);
        var a := Attempted(files[|files| - 1], stream, before.pos);
        RunPrinted(files[..|files| - 1], stream, pos) + (if a.failure.Some? then [a.failure.value] else [])
    }

    lemma RunStep(files: seq<string>, i: nat, stream: Stream, pos: nat)
      requires i < |files|
      ensures var before := RunAttempts(files[..i], stream, pos);
              var a := Attempted(files[i], stream, before.pos);
              && RunAttempts(files[..i + 1], stream, pos) == Attempt(before.events + a.events, a.pos, None)
              && RunPrinted(files[..i + 1], stream, pos) ==
                   RunPrinted(files[..i], stream, pos) + (if a.failure.Some? then [a.failure.value] else [])
    {
      assert files[..i + 1][..i] == files[..i];
    }

    /** `run()`, with the process and thread maps taken as the sequential loop
        (every image's exception is swallowed either way); `printed` lists the
        exceptions printed, in order. */
    method Run(global: Generator, disk: Disk) returns (printed: seq<Error>)
      modifies global, disk
      ensures var r := RunAttempts(allImages, global.stream, old(global.pos));
              disk.log == old(disk.log) + r.events && global.pos == r.pos
      ensures printed == RunPrinted(allImages, global.stream, old(global.pos))
    {
      printed := [];
      var files := allImages;
      ghost var log0, stream, pos0 := disk.log, global.stream, global.pos;
      ghost var done := Attempt([], pos0, None);
      for i := 0 to |files|
        invariant done == RunAttempts(files[..i], stream, pos0)
        invariant disk.log == log0 + done.events && global.pos == done.pos && global.stream == stream
        invariant printed == RunPrinted(files[..i], stream, pos0)
      {
        ghost var a := Attempted(files[i], stream, done.pos);
        var e := ProcessOne(files[i], global, disk);
        RunStep(files, i, stream, pos0);
        AppendAssoc(log0, done.events, a.events);
        done := Attempt(done.events + a.events, a.pos, None);
        if e.Some? {
          printed := printed + [e.value];
        }
      }
      assert files[..|files|] == files;
    }

    /** One iteration of `run`. */
    method ProcessOne(f: string, global: Generator, disk: Disk) returns (printed: Option<Error>)
      modifies global, disk
      ensures var a := Attempted(f, global.stream, old(global.pos));
              disk.log == old(disk.log) + a.events && global.pos == a.pos && printed == a.failure
    {
      if tile.Some? {
        printed := ProcessTile(f, global, disk);
      } else {
        printed := Process(f, global, disk);
      }
    }
  }
}
