/** The random source of the pipeline: a numpy `Generator` seen as a stream of
    unit draws with a read position, and `SafeRNG`
    (pepedd-core/pepedd/core/objects/safe_rng.py), which wraps one and guards
    degenerate ranges. Each primitive below (uniform, integers, choice, one
    Fisher-Yates step) consumes exactly one draw; how numpy turns bits into
    draws is abstracted into the stream. */
module Rng {

  import opened Wrappers

  /** One draw of the bit generator, as a real number in [0, 1). */
  type Unit = r: real | 0.0 <= r < 1.0

  /** The draws a generator yields, in order. */
  type Stream = nat -> Unit

  /** Seeding: the stream `numpy.random.default_rng(seed)` yields. */
  type Seeder = int -> Stream

  lemma ScaleBelow(lo: real, hi: real, u: Unit, r: real)
    requires r == lo + (hi - lo) * u
    ensures lo < hi ==> lo <= r < hi
  {
    if lo < hi {
      var a := hi - lo;
      var m := a * u;
      var v := 1.0 - u;
      var w := a * v;
      assert m + w == a;
      assert a > 0.0 && v > 0.0;
      assert w > 0.0;
      assert m >= 0.0;
    }
  }

  /** `low + (high - low) * u`: numpy's uniform draw on [low, high). */
  function UniformOf(u: Unit, lo: real, hi: real): (r: real)
    ensures lo < hi ==> lo <= r < hi
  {
    var r := lo + (hi - lo) * u;
    ScaleBelow(lo, hi, u, r);
    r
  }

  /** An integer drawn uniformly from [0, n). */
  function BelowOf(u: Unit, n: nat): (k: nat)
    requires n > 0
    ensures k < n
  {
    assert u * n as real < 1.0 * n as real;
    (u * n as real).Floor
  }

  /** An argument of the `safe_*` helpers: a Python list, a tuple, or any other
      object (a plain number). */
  datatype Arg<T> = Scalar(value: T) | List(items: seq<T>) | Tuple(items: seq<T>)

  /** How a `safe_*` helper treats its argument. */
  datatype RangeCase<T> =
    | PassThrough          // not a list: returned as it is
    | Fixed(x: T)          // one element, or lo >= hi: the first element
    | Draw(lo: T, hi: T)   // a proper range: one draw from [lo, hi)
    | Fails(e: Error)      // the empty list: rand_list[0] raises

  /** The branch structure shared by `safe_uniform` and `safe_randint`;
      `below(a, b)` is Python's `a < b`, whose negation is the source's
      `a >= b`. */
  function Classify<T>(arg: Arg<T>, below: (T, T) -> bool): (c: RangeCase<T>)
    ensures !arg.List? <==> c.PassThrough?
    ensures arg.List? && |arg.items| == 0 <==> c == Fails(IndexError)
    ensures arg.List? && |arg.items| == 1 ==> c == Fixed(arg.items[0])
    ensures c.Draw? <==> arg.List? && |arg.items| >= 2 && below(arg.items[0], arg.items[1])
    ensures c.Draw? ==> c.lo == arg.items[0] && c.hi == arg.items[1]
    ensures c.Fixed? ==> arg.List? && |arg.items| >= 1 && c.x == arg.items[0]
  {
    if !arg.List? then PassThrough
    else if |arg.items| == 0 then Fails(IndexError)
    else if |arg.items| == 1 || !below(arg.items[0], arg.items[1]) then Fixed(arg.items[0])
    else Draw(arg.items[0], arg.items[1])
  }

  function RealBelow(a: real, b: real): bool { a < b }
  function IntBelow(a: int, b: int): bool { a < b }

  /** `safe_uniform`, with `u` the draw it takes when it draws: a non-list
      comes back as it is, one element or `lo >= hi` gives the first element
      without drawing, the empty list raises IndexError, and a proper range
      gives a value in [lo, hi). */
  function SafeUniformOf(arg: Arg<real>, u: Unit): (r: Result<Arg<real>>)
    ensures !arg.List? ==> r == Ok(arg)
    ensures arg.List? && |arg.items| == 0 ==> r == Err(IndexError)
    ensures arg.List? && |arg.items| >= 1 && (|arg.items| == 1 || arg.items[0] >= arg.items[1]) ==>
              r == Ok(Scalar(arg.items[0]))
    ensures arg.List? && |arg.items| >= 2 && arg.items[0] < arg.items[1] ==>
              r.Ok? && r.value.Scalar? && arg.items[0] <= r.value.value < arg.items[1]
  {
    match Classify(arg, RealBelow)
    case PassThrough => Ok(arg)
    case Fixed(x) => Ok(Scalar(x))
    case Fails(e) => Err(e)
    case Draw(lo, hi) => Ok(Scalar(UniformOf(u, lo, hi)))
  }

  /** `safe_randint`: as `SafeUniformOf`, with an integer in [lo, hi) (the
      upper bound excluded). */
  function SafeRandintOf(arg: Arg<int>, u: Unit): (r: Result<Arg<int>>)
    ensures !arg.List? ==> r == Ok(arg)
    ensures arg.List? && |arg.items| == 0 ==> r == Err(IndexError)
    ensures arg.List? && |arg.items| >= 1 && (|arg.items| == 1 || arg.items[0] >= arg.items[1]) ==>
              r == Ok(Scalar(arg.items[0]))
    ensures arg.List? && |arg.items| >= 2 && arg.items[0] < arg.items[1] ==>
              r.Ok? && r.value.Scalar? && arg.items[0] <= r.value.value < arg.items[1]
  {
    match Classify(arg, IntBelow)
    case PassThrough => Ok(arg)
    case Fixed(x) => Ok(Scalar(x))
    case Fails(e) => Err(e)
    case Draw(lo, hi) => Ok(Scalar(lo + BelowOf(u, hi - lo)))
  }

  /** `rng.safe_randint(xs)` on a list: the integer and the draws taken (one
      for a proper range, none otherwise). */
  function DrawInt(xs: seq<int>, stream: Stream, pos: nat): (r: Result<(int, nat)>)
    ensures r.Err? <==> xs == []
    ensures r.Err? ==> r.error == IndexError
    ensures r.Ok? ==> SafeRandintOf(List(xs), stream(pos)) == Ok(Scalar(r.value.0))
    ensures r.Ok? ==> r.value.1 == if Classify(List(xs), IntBelow).Draw? then 1 else 0
  {
    if xs == [] then Err(IndexError)
    else if |xs| == 1 || xs[0] >= xs[1] then Ok((xs[0], 0))
    else Ok((xs[0] + BelowOf(stream(pos), xs[1] - xs[0]), 1))
  }

  // ---------------------------------------------------------------------------
  // Fisher-Yates, as numpy's Generator.shuffle runs it
  // ---------------------------------------------------------------------------

  function Swap<T>(s: seq<T>, i: nat, j: nat): (r: seq<T>)
    requires i < |s| && j < |s|
    ensures |r| == |s| && r[i] == s[j] && r[j] == s[i]
    ensures forall k :: 0 <= k < |s| && k != i && k != j ==> r[k] == s[k]
  {
    s[i := s[j]][j := s[i]]
  }

  lemma SwapPermutes<T>(s: seq<T>, i: nat, j: nat)
    requires i < |s| && j < |s|
    ensures multiset(Swap(s, i, j)) == multiset(s)
  {
    if i != j {
      var t := s[i := s[j]];
      assert t[j] == s[j];
      assert Swap(s, i, j) == t[j := s[i]];
      var m := multiset(s) - multiset{s[i]};
      assert multiset(t) == m + multiset{s[j]};
      assert multiset(t[j := s[i]]) == m + multiset{s[j]} - multiset{s[j]} + multiset{s[i]};
    }
  }

  /** Steps i, i-1, ..., 1 of the shuffle: step i swaps position i with a
      position drawn from [0, i]. */
  function ShuffleSteps<T>(s: seq<T>, i: nat, stream: Stream, pos: nat): seq<T>
    requires i < |s|
    decreases i
  {
    if i == 0 then s
    else ShuffleSteps(Swap(s, i, BelowOf(stream(pos), i + 1)), i - 1, stream, pos + 1)
  }

  /** The order the shuffle leaves `s` in, reading draws from `pos` on. */
  function Shuffled<T>(s: seq<T>, stream: Stream, pos: nat): seq<T>
  {
    if |s| <= 1 then s else ShuffleSteps(s, |s| - 1, stream, pos)
  }

  /** The number of draws the shuffle of `n` items takes. */
  function ShuffleDraws(n: nat): nat { if n <= 1 then 0 else n - 1 }

  lemma {:induction false} ShuffleStepsPermutes<T>(s: seq<T>, i: nat, stream: Stream, pos: nat)
    requires i < |s|
    ensures |ShuffleSteps(s, i, stream, pos)| == |s|
    ensures multiset(ShuffleSteps(s, i, stream, pos)) == multiset(s)
    decreases i
  {
    if i > 0 {
      var j := BelowOf(stream(pos), i + 1);
      SwapPermutes(s, i, j);
      ShuffleStepsPermutes(Swap(s, i, j), i - 1, stream, pos + 1);
    }
  }

  /** A shuffle only reorders: same length, same elements with the same
      multiplicities. */
  lemma ShufflePermutes<T>(s: seq<T>, stream: Stream, pos: nat)
    ensures |Shuffled(s, stream, pos)| == |s|
    ensures multiset(Shuffled(s, stream, pos)) == multiset(s)
  {
    if |s| > 1 {
      ShuffleStepsPermutes(s, |s| - 1, stream, pos);
    }
  }

  // ---------------------------------------------------------------------------
  // The generator and the SafeRNG wrapper
  // ---------------------------------------------------------------------------

  /** A numpy `Generator`: its draws and how many it has handed out. */
  class Generator {
    const stream: Stream
    var pos: nat

    constructor (s: Stream)
      ensures stream == s && pos == 0
    {
      stream := s;
      pos := 0;
    }

    /** `uniform(lo, hi)`. */
    method Uniform(lo: real, hi: real) returns (r: real)
      modifies this
      ensures pos == old(pos) + 1
      ensures r == UniformOf(stream(old(pos)), lo, hi)
    {
      r := UniformOf(stream(pos), lo, hi);
      pos := pos + 1;
    }

    /** Draws taken by code outside the model (a node body): `k` draws are
        consumed and nothing else changes. */
    method Skip(k: nat)
      modifies this
      ensures pos == old(pos) + k
    {
      pos := pos + k;
    }

    /** `integers(lo, hi)`: numpy raises ValueError when `lo >= hi`; every
        modelled caller rules that out first. */
    method Integers(lo: int, hi: int) returns (r: int)
      requires lo < hi
      modifies this
      ensures pos == old(pos) + 1
      ensures r == lo + BelowOf(stream(old(pos)), hi - lo)
      ensures lo <= r < hi
    {
      r := lo + BelowOf(stream(pos), hi - lo);
      pos := pos + 1;
    }

    /** `choice(xs)`: one element drawn uniformly; an empty population raises
        ValueError before drawing. */
    method Choice<T>(xs: seq<T>) returns (r: Result<T>)
      modifies this
      ensures xs == [] ==> r == Err(ValueError) && pos == old(pos)
      ensures xs != [] ==> pos == old(pos) + 1 && r == Ok(xs[BelowOf(stream(old(pos)), |xs|)])
    {
      if xs == [] {
        r := Err(ValueError);
      } else {
        r := Ok(xs[BelowOf(stream(pos), |xs|)]);
        pos := pos + 1;
      }
    }

    /** `shuffle(a)`, in place: for i = n-1 down to 1, swap a[i] with a[j],
        j drawn from [0, i]. */
    method Shuffle<T>(a: array<T>)
      modifies this, a
      ensures a[..] == Shuffled(old(a[..]), stream, old(pos))
      ensures pos == old(pos) + ShuffleDraws(a.Length)
    {
      if a.Length <= 1 {
        return;
      }
      var i := a.Length - 1;
      while i > 0
        invariant 0 <= i < a.Length
        invariant pos == old(pos) + (a.Length - 1 - i)
        invariant ShuffleSteps(a[..], i, stream, pos) == Shuffled(old(a[..]), stream, old(pos))
        decreases i
      {
        var j := BelowOf(stream(pos), i + 1);
        assert Swap(a[..], i, j) == a[..][i := a[j]][j := a[i]];
        a[i], a[j] := a[j], a[i];
        pos := pos + 1;
        i := i - 1;
      }
    }
  }

  /** `SafeRNG(seed)`: a generator seeded from `seed`, with range-safe draws.
      Every other attribute is delegated to `gen` (the source's `__getattr__`). */
  class SafeRng {
    const gen: Generator

    constructor (seed: int, seeder: Seeder)
      ensures fresh(gen) && gen.stream == seeder(seed) && gen.pos == 0
    {
      gen := new Generator(seeder(seed));
    }

    /** `safe_uniform`: a non-list is returned untouched; one element or
        `lo >= hi` gives the first element; the empty list raises IndexError;
        only a proper range draws. */
    method SafeUniform(arg: Arg<real>) returns (r: Result<Arg<real>>)
      modifies gen
      ensures Classify(arg, RealBelow).Draw? ==> gen.pos == old(gen.pos) + 1
      ensures !Classify(arg, RealBelow).Draw? ==> gen.pos == old(gen.pos)
      ensures r == SafeUniformOf(arg, gen.stream(old(gen.pos)))
    {
      match Classify(arg, RealBelow)
      case PassThrough => r := Ok(arg);
      case Fixed(x) => r := Ok(Scalar(x));
      case Fails(e) => r := Err(e);
      case Draw(lo, hi) =>
        var x := gen.Uniform(lo, hi);
        r := Ok(Scalar(x));
    }

    /** `safe_randint`: as `SafeUniform`, drawing an integer from [lo, hi). */
    method SafeRandint(arg: Arg<int>) returns (r: Result<Arg<int>>)
      modifies gen
      ensures Classify(arg, IntBelow).Draw? ==> gen.pos == old(gen.pos) + 1
      ensures !Classify(arg, IntBelow).Draw? ==> gen.pos == old(gen.pos)
      ensures r == SafeRandintOf(arg, gen.stream(old(gen.pos)))
    {
      match Classify(arg, IntBelow)
      case PassThrough => r := Ok(arg);
      case Fixed(x) => r := Ok(Scalar(x));
      case Fails(e) => r := Err(e);
      case Draw(lo, hi) =>
        var x := gen.Integers(lo, hi);
        r := Ok(Scalar(x));
    }
  }

  // ---------------------------------------------------------------------------
  // Determinism: a call sequence replayed on a seeded SafeRNG
  // ---------------------------------------------------------------------------

  /** A call a caller makes on a `SafeRNG`: its own `safe_*` helpers and the
      generator methods it delegates, plus `k` draws taken by code outside the
      model. */
  datatype RngCall =
    | UniformCall(lo: real, hi: real)
    | IntegersCall(low: int, high: int)
    | ChoiceCall(population: seq<int>)
    | ShuffleCall(items: seq<int>)
    | SafeUniformCall(realArg: Arg<real>)
    | SafeRandintCall(intArg: Arg<int>)
    | SkipCall(k: nat)

  /** What a call answered: a value, a shuffled list, a `safe_*` result, the
      exception it raised, or nothing. */
  datatype Answer =
    | RealAnswer(r: real)
    | IntAnswer(i: int)
    | OrderAnswer(items: seq<int>)
    | RealArgAnswer(ra: Arg<real>)
    | IntArgAnswer(ia: Arg<int>)
    | ErrAnswer(e: Error)
    | NoAnswer

  function RealArgAnswerOf(r: Result<Arg<real>>): Answer
  {
    match r
    case Ok(v) => RealArgAnswer(v)
    case Err(e) => ErrAnswer(e)
  }

  function IntArgAnswerOf(r: Result<Arg<int>>): Answer
  {
    match r
    case Ok(v) => IntArgAnswer(v)
    case Err(e) => ErrAnswer(e)
  }

  /** One call from position `pos`: its answer and the draws it took.
      `integers` with `lo >= hi` and `choice` of nothing raise ValueError
      before drawing. */
  function CallStep(c: RngCall, stream: Stream, pos: nat): (Answer, nat)
  {
    match c
    case UniformCall(lo, hi) => (RealAnswer(UniformOf(stream(pos), lo, hi)), 1)
    case IntegersCall(lo, hi) =>
      if lo < hi then (IntAnswer(lo + BelowOf(stream(pos), hi - lo)), 1) else (ErrAnswer(ValueError), 0)
    case ChoiceCall(xs) =>
      if xs == [] then (ErrAnswer(ValueError), 0) else (IntAnswer(xs[BelowOf(stream(pos), |xs|)]), 1)
    case ShuffleCall(xs) => (OrderAnswer(Shuffled(xs, stream, pos)), ShuffleDraws(|xs|))
    case SafeUniformCall(arg) =>
      (RealArgAnswerOf(SafeUniformOf(arg, stream(pos))), if Classify(arg, RealBelow).Draw? then 1 else 0)
    case SafeRandintCall(arg) =>
      (IntArgAnswerOf(SafeRandintOf(arg, stream(pos))), if Classify(arg, IntBelow).Draw? then 1 else 0)
    case SkipCall(k) => (NoAnswer, k)
  }

  /** What each call answers and how many draws it takes: results within
      their ranges, ValueError without a draw for an empty range or an empty
      population, and a shuffle that only reorders. */
  lemma CallStepMeaning(c: RngCall, stream: Stream, pos: nat)
    ensures var r := CallStep(c, stream, pos);
            && (c.UniformCall? ==> r.1 == 1 && (c.lo < c.hi ==> r.0.RealAnswer? && c.lo <= r.0.r < c.hi))
            && (c.IntegersCall? ==> (c.low < c.high <==> r.1 == 1))
            && (c.IntegersCall? && c.low < c.high ==> r.0.IntAnswer? && c.low <= r.0.i < c.high)
            && (c.IntegersCall? && c.low >= c.high ==> r.0 == ErrAnswer(ValueError))
            && (c.ChoiceCall? ==> (c.population == [] <==> r == (ErrAnswer(ValueError), 0)))
            && (c.ChoiceCall? && c.population != [] ==> r.1 == 1 && r.0.IntAnswer? && r.0.i in c.population)
            && (c.ShuffleCall? ==> r.0.OrderAnswer? && r.1 == ShuffleDraws(|c.items|)
                                   && |r.0.items| == |c.items| && multiset(r.0.items) == multiset(c.items))
            && (c.SafeUniformCall? ==> r.1 == (if Classify(c.realArg, RealBelow).Draw? then 1 else 0))
            && (c.SafeRandintCall? ==> r.1 == (if Classify(c.intArg, IntBelow).Draw? then 1 else 0))
            && (c.SkipCall? ==> r == (NoAnswer, c.k))
  {
    if c.ShuffleCall? {
      ShufflePermutes(c.items, stream, pos);
    }
  }

  /** The calls replayed in order from position `pos`: one answer per call,
      and the position afterwards. */
  function Replay(calls: seq<RngCall>, stream: Stream, pos: nat): (r: (seq<Answer>, nat))
    ensures |r.0| == |calls| && r.1 >= pos
    decreases |calls|
  {
    if calls == [] then ([], pos)
    else
      var step := CallStep(calls[0], stream, pos);
      var rest := Replay(calls[1..], stream, pos + step.1);
      ([step.0] + rest.0, rest.1)
  }

  /** Replaying `a + b` is replaying `a`, then `b` from where `a` left the
      generator. */
  lemma {:induction false} ReplayAppend(a: seq<RngCall>, b: seq<RngCall>, stream: Stream, pos: nat)
    ensures Replay(a + b, stream, pos).0 == Replay(a, stream, pos).0 + Replay(b, stream, Replay(a, stream, pos).1).0
    ensures Replay(a + b, stream, pos).1 == Replay(b, stream, Replay(a, stream, pos).1).1
    decreases |a|
  {
    if a == [] {
      assert a + b == b;
      assert [] + Replay(b, stream, pos).0 == Replay(b, stream, pos).0;
    } else {
      var next := pos + CallStep(a[0], stream, pos).1;
      var answer := CallStep(a[0], stream, pos).0;
      var ab := a + b;
      assert ab[0] == a[0] && ab[1..] == a[1..] + b;
      ReplayAppend(a[1..], b, stream, next);
      var ra := Replay(a[1..], stream, next);
      var rb := Replay(b, stream, ra.1);
      assert Replay(a, stream, pos) == ([answer] + ra.0, ra.1);
      assert Replay(ab, stream, pos) == ([answer] + (ra.0 + rb.0), rb.1);
      assert [answer] + (ra.0 + rb.0) == ([answer] + ra.0) + rb.0;
    }
  }

  /** One call made on a SafeRNG, through the method the source reaches. */
  method MakeCall(rng: SafeRng, c: RngCall) returns (a: Answer)
    modifies rng.gen
    ensures a == CallStep(c, rng.gen.stream, old(rng.gen.pos)).0
    ensures rng.gen.pos == old(rng.gen.pos) + CallStep(c, rng.gen.stream, old(rng.gen.pos)).1
  {
    match c
    case UniformCall(lo, hi) =>
      var x := rng.gen.Uniform(lo, hi);
      a := RealAnswer(x);
    case IntegersCall(lo, hi) =>
      if lo < hi {
        var x := rng.gen.Integers(lo, hi);
        a := IntAnswer(x);
      } else {
        a := ErrAnswer(ValueError);
      }
    case ChoiceCall(xs) =>
      var x := rng.gen.Choice(xs);
      a := if x.Ok? then IntAnswer(x.value) else ErrAnswer(x.error);
    case ShuffleCall(xs) =>
      var arr := new int[|xs|](i requires 0 <= i < |xs| => xs[i]);
      assert arr[..] == xs;
      rng.gen.Shuffle(arr);
      a := OrderAnswer(arr[..]);
    case SafeUniformCall(arg) =>
      var x := rng.SafeUniform(arg);
      a := RealArgAnswerOf(x);
    case SafeRandintCall(arg) =>
      var x := rng.SafeRandint(arg);
      a := IntArgAnswerOf(x);
    case SkipCall(k) =>
      rng.gen.Skip(k);
      a := NoAnswer;
  }

  /** The calls made one after another on a SafeRNG, the first call first,
      answer as Replay says. */
  method MakeCalls(rng: SafeRng, calls: seq<RngCall>) returns (answers: seq<Answer>)
    modifies rng.gen
    ensures answers == Replay(calls, rng.gen.stream, old(rng.gen.pos)).0
    ensures rng.gen.pos == Replay(calls, rng.gen.stream, old(rng.gen.pos)).1
    decreases |calls|
  {
    if calls == [] {
      answers := [];
    } else {
      var a := MakeCall(rng, calls[0]);
      var rest := MakeCalls(rng, calls[1..]);
      answers := [a] + rest;
    }
  }

  /** Two SafeRNGs built from the same seed give the same answers to the same
      calls, whatever the calls are: both replay them from position 0 of the
      seeder's stream for that seed. */
  method SameSeedSameResults(seed: int, seeder: Seeder, calls: seq<RngCall>)
    returns (first: seq<Answer>, second: seq<Answer>)
    ensures first == second
    ensures first == Replay(calls, seeder(seed), 0).0
  {
    var a := new SafeRng(seed, seeder);
    var b := new SafeRng(seed, seeder);
    first := MakeCalls(a, calls);
    second := MakeCalls(b, calls);
  }
}
