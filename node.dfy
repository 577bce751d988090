/** The state a unit is processed in (pepedd/core/objects/lq_hq_state.py) and
    the node gate (pepedd/core/objects/node_base.py): a node runs its body
    only when its probability beats one uniform draw, and a node with a fixed
    seed takes that draw and all of its body's draws from a generator of its
    own, swapped into the state for the duration of the call. */
module Nodes {

  import opened Wrappers
  import opened Rng
  import opened Images

  /** `LQHQState`: the generator nodes draw from and the two buffers. */
  class LQHQState {
    var rng: SafeRng
    var lq: Image
    var hq: Image

    constructor (rng: SafeRng, hq: Image, lq: Image)
      ensures this.rng == rng && this.hq == hq && this.lq == lq
    {
      this.rng := rng;
      this.hq := hq;
      this.lq := lq;
    }
  }

  /** The two buffers of a state, as a value. */
  datatype Buffers = Buffers(lq: Image, hq: Image)

  /** What a node body (`forward`) did: the new buffers and how many draws it
      took from the generator it was given. */
  datatype Effect = Effect(out: Buffers, draws: nat)

  /** A node body: from the buffers and the draws available from position
      `pos` of a stream, its effect or the exception it raised. The pixel work
      itself is not part of this model, and a body here fails atomically: the
      buffers it had replaced and the draws it had taken before raising are
      not part of its answer. */
  type Forward = (Buffers, Stream, nat) -> Result<Effect>

  /** `probability > rng.uniform(0, 1)`. */
  function Gate(probability: real, u: Unit): (run: bool)
    ensures probability >= 1.0 ==> run
    ensures probability <= 0.0 ==> !run
  {
    probability > UniformOf(u, 0.0, 1.0)
  }

  /** What a call did, seen from outside: whether the body ran, the buffers
      afterwards, and the position of the state's own generator afterwards. */
  datatype Outcome = Outcome(ran: bool, out: Buffers, pos: nat)

  /** `node(data)` on values: `stream`/`pos` are the state's generator. */
  function CallOutcome(probability: real, seed: Option<int>, forward: Forward, seeder: Seeder,
                       bufs: Buffers, stream: Stream, pos: nat): Result<Outcome>
  {
    if seed.Some? then
      var own := seeder(seed.value);
      if !Gate(probability, own(0)) then Ok(Outcome(false, bufs, pos))
      else match forward(bufs, own, 1)
        case Ok(e) => Ok(Outcome(true, e.out, pos))
        case Err(x) => Err(x)
    else
      if !Gate(probability, stream(pos)) then Ok(Outcome(false, bufs, pos + 1))
      else match forward(bufs, stream, pos + 1)
        case Ok(e) => Ok(Outcome(true, e.out, pos + 1 + e.draws))
        case Err(x) => Err(x)
  }

  /** A node: a body, a probability (default 1.0) and an optional fixed seed. */
  class Node {
    const forward: Forward
    const probability: real
    const seed: Option<int>

    constructor (forward: Forward, probability: real := 1.0, seed: Option<int> := None)
      ensures this.forward == forward && this.probability == probability && this.seed == seed
    {
      this.forward := forward;
      this.probability := probability;
      this.seed := seed;
    }

    /** `Node.__call__`. Answers whether the body ran, or the exception it
        raised. With a fixed seed the state's generator is restored only when
        the body returns: an exception leaves the node's own generator in the
        state. The state's own generator is never drawn from in that case.
        Without a seed, a failing call has taken its gate draw and whatever the
        (atomic) body reports, which is nothing. */
    method Call(data: LQHQState, seeder: Seeder) returns (r: Result<bool>)
      modifies data, data.rng.gen
      ensures var o := CallOutcome(probability, seed, forward, seeder, old(Buffers(data.lq, data.hq)),
                                   old(data.rng.gen.stream), old(data.rng.gen.pos));
              && (r.Ok? <==> o.Ok?)
              && (r.Err? ==> r.error == o.error && Buffers(data.lq, data.hq) == old(Buffers(data.lq, data.hq)))
              && (r.Ok? ==> r.value == o.value.ran && Buffers(data.lq, data.hq) == o.value.out
                            && data.rng == old(data.rng) && data.rng.gen.pos == o.value.pos)
      ensures seed.Some? ==> old(data.rng).gen.pos == old(data.rng.gen.pos)
      ensures seed.Some? && r.Err? ==> fresh(data.rng) && data.rng.gen.stream == seeder(seed.value)
      ensures seed.None? ==> data.rng == old(data.rng)
      ensures seed.None? && r.Err? ==> data.rng.gen.pos == old(data.rng.gen.pos) + 1
    {
      if seed.Some? {
        var backup := data.rng;
        var own := new SafeRng(seed.value, seeder);
        data.rng := own;
        var u := own.gen.Uniform(0.0, 1.0);
        assert u == UniformOf(own.gen.stream(0), 0.0, 1.0);
        r := Ok(false);
        if probability > u {
          r := RunForward(data);
          if r.Err? {
            return;
          }
        }
        data.rng := backup;
      } else {
        var u := data.rng.gen.Uniform(0.0, 1.0);
        r := Ok(false);
        if probability > u {
          r := RunForward(data);
        }
      }
    }

    /** `data = self.forward(data)`: the body works on the state's buffers with
        the state's current generator. A body that raises leaves the state as
        it found it, because modelled bodies fail atomically. */
    method RunForward(data: LQHQState) returns (r: Result<bool>)
      modifies data, data.rng.gen
      ensures data.rng == old(data.rng)
      ensures var res := forward(old(Buffers(data.lq, data.hq)), data.rng.gen.stream, old(data.rng.gen.pos));
              && (res.Ok? ==> r == Ok(true) && Buffers(data.lq, data.hq) == res.value.out
                              && data.rng.gen.pos == old(data.rng.gen.pos) + res.value.draws)
              && (res.Err? ==> r == Err(res.error) && Buffers(data.lq, data.hq) == old(Buffers(data.lq, data.hq))
                               && data.rng.gen.pos == old(data.rng.gen.pos))
    {
      var res := forward(Buffers(data.lq, data.hq), data.rng.gen.stream, data.rng.gen.pos);
      match res
      case Ok(e) =>
        data.lq := e.out.lq;
        data.hq := e.out.hq;
        data.rng.gen.Skip(e.draws);
        r := Ok(true);
      case Err(x) =>
        r := Err(x);
    }
  }

  /** With a fixed seed the outcome does not depend on the state's generator:
      any two ambient streams and positions give the same decision and buffers,
      and the ambient position is left where it was. */
  lemma FixedSeedIgnoresAmbient(probability: real, seed: int, forward: Forward, seeder: Seeder,
                                bufs: Buffers, s1: Stream, p1: nat, s2: Stream, p2: nat)
    ensures var o1 := CallOutcome(probability, Some(seed), forward, seeder, bufs, s1, p1);
            var o2 := CallOutcome(probability, Some(seed), forward, seeder, bufs, s2, p2);
            && o1.Ok? == o2.Ok?
            && (o1.Ok? ==> o1.value.ran == o2.value.ran && o1.value.out == o2.value.out
                           && o1.value.pos == p1 && o2.value.pos == p2)
            && (o1.Err? ==> o1.error == o2.error)
  {
  }

  /** Without a seed exactly one gate draw is taken from the state's generator
      and the body runs iff the probability beats it; a skipped node leaves the
      buffers as they were. */
  lemma UnseededGate(probability: real, forward: Forward, seeder: Seeder,
                     bufs: Buffers, stream: Stream, pos: nat)
    ensures var o := CallOutcome(probability, None, forward, seeder, bufs, stream, pos);
            && (o.Ok? ==> o.value.ran == Gate(probability, stream(pos)) && o.value.pos >= pos + 1)
            && (o.Ok? && !o.value.ran ==> o.value.out == bufs && o.value.pos == pos + 1)
            && (o.Err? ==> Gate(probability, stream(pos)))
  {
  }

  /** Probability 1 or more always runs the body; 0 or less never does and
      always returns the buffers untouched. */
  lemma ProbabilityExtremes(probability: real, seed: Option<int>, forward: Forward, seeder: Seeder,
                            bufs: Buffers, stream: Stream, pos: nat)
    ensures var o := CallOutcome(probability, seed, forward, seeder, bufs, stream, pos);
            && (probability >= 1.0 && o.Ok? ==> o.value.ran)
            && (probability <= 0.0 ==> o.Ok? && !o.value.ran && o.value.out == bufs)
  {
  }
}
