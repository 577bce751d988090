/** The legacy logic operators of src/process/logiop_degr.py: `and` runs its
    first chain with one probability and then, only if that ran, its second
    chain with another; `or` runs exactly one of its chains, or neither. Both
    gates draw from numpy's global generator through `probability`. */
module LogicOps {

  import opened Wrappers
  import opened Rng
  import opened Nodes
  import opened LegacyUtils
  import opened LegacyProcess
  import opened Registry

  /** An operator dict: its two step lists (None when the key is missing)
      and its probabilities (None when absent, so that `.get` supplies the
      default). */
  datatype OpConf = OpConf(oneProcess: Option<seq<StepConf>>, twoProcess: Option<seq<StepConf>>,
                           probabilityOne: Option<real>, probabilityTwo: Option<real>)

  /** What an operator's `run` did: the buffers, the global draws taken, which
      chains ran (a chain that raised counts as run) and the exception that
      escaped, if any. */
  datatype OpOutcome = OpOutcome(out: Buffers, draws: nat, ranOne: bool, ranTwo: bool, failure: Option<Error>)

  /** The operands both constructors build. */
  datatype Operands = Operands(probabilityOne: real, probabilityTwo: real, turnOne: seq<Forward>, turnTwo: seq<Forward>)

  /** The shared constructor: `one_process` then `two_process` must be
      present (KeyError), the probabilities default, and the two chains are
      built in order, the first error winning. */
  function OperandsOf(conf: OpConf, defaultOne: real, defaultTwo: real, classes: map<string, LossClass>): (r: Result<Operands>)
    ensures conf.oneProcess.None? || conf.twoProcess.None? ==> r == Err(KeyError)
    ensures r.Ok? ==>
              && r.value.probabilityOne == (if conf.probabilityOne.Some? then conf.probabilityOne.value else defaultOne)
              && r.value.probabilityTwo == (if conf.probabilityTwo.Some? then conf.probabilityTwo.value else defaultTwo)
              && Ok(r.value.turnOne) == TurnOf(conf.oneProcess.value, classes)
              && Ok(r.value.turnTwo) == TurnOf(conf.twoProcess.value, classes)
    ensures conf.oneProcess.Some? && conf.twoProcess.Some? ==>
              (r.Ok? <==> TurnOf(conf.oneProcess.value, classes).Ok? && TurnOf(conf.twoProcess.value, classes).Ok?)
  {
    if conf.oneProcess.None? || conf.twoProcess.None? then Err(KeyError)
    else
      var p1 := if conf.probabilityOne.Some? then conf.probabilityOne.value else defaultOne;
      var p2 := if conf.probabilityTwo.Some? then conf.probabilityTwo.value else defaultTwo;
      match TurnOf(conf.oneProcess.value, classes)
      case Err(e) => Err(e)
      case Ok(one) =>
        match TurnOf(conf.twoProcess.value, classes)
        case Err(e) => Err(e)
        case Ok(two) => Ok(Operands(p1, p2, one, two))
  }

  method BuildOperands(conf: OpConf, defaultOne: real, defaultTwo: real, registry: Registry<LossClass>)
    returns (r: Result<Operands>)
    ensures r == OperandsOf(conf, defaultOne, defaultTwo, registry.classes)
  {
    if conf.oneProcess.None? || conf.twoProcess.None? {
      return Err(KeyError);
    }
    var p1 := if conf.probabilityOne.Some? then conf.probabilityOne.value else defaultOne;
    var p2 := if conf.probabilityTwo.Some? then conf.probabilityTwo.value else defaultTwo;
    var one := BuildTurn(conf.oneProcess.value, registry);
    if one.Err? {
      return Err(one.error);
    }
    var two := BuildTurn(conf.twoProcess.value, registry);
    if two.Err? {
      return Err(two.error);
    }
    r := Ok(Operands(p1, p2, one.value, two.value));
  }

  /** `AndOperator.run` from global position `pos`: one gate draw; if it
      passes, chain one, then a second gate draw where chain one's draws
      ended, and chain two if that passes. */
  function AndRun(ops: Operands, bufs: Buffers, stream: Stream, pos: nat): (o: OpOutcome)
    ensures o.ranOne <==> Gate(ops.probabilityOne, stream(pos))
    ensures o.ranTwo ==> o.ranOne
    ensures o.ranOne ==> (o.ranTwo <==>
                            Turn(ops.turnOne, bufs, stream, pos + 1).failure.None?
                            && Gate(ops.probabilityTwo, stream(pos + 1 + Turn(ops.turnOne, bufs, stream, pos + 1).draws)))
    ensures !o.ranOne ==> o == OpOutcome(bufs, 1, false, false, None)
    ensures o.ranOne && !o.ranTwo && o.failure.None? ==>
              o.out == Turn(ops.turnOne, bufs, stream, pos + 1).out
    ensures o.failure.Some? ==> o.ranOne
  {
    if Probability(ops.probabilityOne, stream(pos)) then OpOutcome(bufs, 1, false, false, None)
    else
      var t1 := Turn(ops.turnOne, bufs, stream, pos + 1);
      if t1.failure.Some? then OpOutcome(t1.out, 1 + t1.draws, true, false, t1.failure)
      else
        var at := pos + 1 + t1.draws;
        if Probability(ops.probabilityTwo, stream(at)) then OpOutcome(t1.out, 2 + t1.draws, true, false, None)
        else
          var t2 := Turn(ops.turnTwo, t1.out, stream, at + 1);
          OpOutcome(t2.out, 2 + t1.draws + t2.draws, true, true, t2.failure)
  }
  /** `AndOperator.run` on its operands: gate one, turn one, gate two, turn two. */
  method RunAnd(ops: Operands, bufs: Buffers, global: Generator) returns (r: Result<Buffers>)
    modifies global
    ensures var o := AndRun(ops, bufs, global.stream, old(global.pos));
            && global.pos == old(global.pos) + o.draws
            && (r.Ok? <==> o.failure.None?)
            && (r.Ok? ==> r.value == o.out)
            && (r.Err? ==> o.failure == Some(r.error))
  {
    ghost var p0, stream := global.pos, global.stream;
    ghost var o := AndRun(ops, bufs, stream, p0);
    ghost var t1g := Turn(ops.turnOne, bufs, stream, p0 + 1);
    var skip := DrawSkip(ops.probabilityOne, global);
    if skip {
      assert o == OpOutcome(bufs, 1, false, false, None);
      return Ok(bufs);
    }
    var t1 := ApplyTurn(ops.turnOne, bufs, global);
    if t1.Err? {
      assert o == OpOutcome(t1g.out, 1 + t1g.draws, true, false, t1g.failure);
      return t1;
    }
    skip := DrawSkip(ops.probabilityTwo, global);
    if skip {
      assert o == OpOutcome(t1g.out, 2 + t1g.draws, true, false, None);
      return t1;
    }
    ghost var t2g := Turn(ops.turnTwo, t1g.out, stream, p0 + 1 + t1g.draws + 1);
    assert o == OpOutcome(t2g.out, 2 + t1g.draws + t2g.draws, true, true, t2g.failure);
    r := ApplyTurn(ops.turnTwo, t1.value, global);
  }


  /** `OrOperator.run` from global position `pos`: if the first gate draw
      fails, a second draw decides whether chain two runs; if it passes,
      chain one runs and no second draw is taken. */
  function OrRun(ops: Operands, bufs: Buffers, stream: Stream, pos: nat): (o: OpOutcome)
    ensures !(o.ranOne && o.ranTwo)
    ensures o.ranOne <==> Gate(ops.probabilityOne, stream(pos))
    ensures o.ranTwo <==> !Gate(ops.probabilityOne, stream(pos)) && Gate(ops.probabilityTwo, stream(pos + 1))
    ensures o.ranOne ==> o == (var t := Turn(ops.turnOne, bufs, stream, pos + 1);
                               OpOutcome(t.out, 1 + t.draws, true, false, t.failure))
    ensures !o.ranOne && !o.ranTwo ==> o == OpOutcome(bufs, 2, false, false, None)
    ensures o.ranTwo ==> o == (var t := Turn(ops.turnTwo, bufs, stream, pos + 2);
                               OpOutcome(t.out, 2 + t.draws, false, true, t.failure))
  {
    if Probability(ops.probabilityOne, stream(pos)) then
      if Probability(ops.probabilityTwo, stream(pos + 1)) then OpOutcome(bufs, 2, false, false, None)
      else
        var t2 := Turn(ops.turnTwo, bufs, stream, pos + 2);
        OpOutcome(t2.out, 2 + t2.draws, false, true, t2.failure)
    else
      var t1 := Turn(ops.turnOne, bufs, stream, pos + 1);
      OpOutcome(t1.out, 1 + t1.draws, true, false, t1.failure)
  }

  /** With a first probability of 1.0 or more, the `and` default among them,
      chain one always runs, whatever the draws and the chains. */
  lemma AndDefaultAlwaysRunsOne(ops: Operands, bufs: Buffers, stream: Stream, pos: nat)
    requires ops.probabilityOne >= 1.0
    ensures AndRun(ops, bufs, stream, pos).ranOne
  {
  }

  /** A probability of 1 for `or`'s first gate makes it run chain one alone;
      a probability of 0 for both runs nothing and leaves the buffers as they
      were. */
  lemma OrExtremes(ops: Operands, bufs: Buffers, stream: Stream, pos: nat)
    ensures ops.probabilityOne >= 1.0 ==> OrRun(ops, bufs, stream, pos).ranOne
    ensures ops.probabilityOne <= 0.0 && ops.probabilityTwo <= 0.0 ==>
              OrRun(ops, bufs, stream, pos).out == bufs && !OrRun(ops, bufs, stream, pos).ranTwo
  {
  }

  /** `and` with an empty second chain behaves as chain one behind a gate, up
      to the extra draw; an empty first chain makes `and` a two-gate filter
      on chain two. */
  lemma AndEmptyChains(ops: Operands, bufs: Buffers, stream: Stream, pos: nat)
    ensures ops.turnTwo == [] ==>
              AndRun(ops, bufs, stream, pos).out
              == if Gate(ops.probabilityOne, stream(pos)) then Turn(ops.turnOne, bufs, stream, pos + 1).out else bufs
    ensures ops.turnOne == [] && Gate(ops.probabilityOne, stream(pos)) && Gate(ops.probabilityTwo, stream(pos + 1)) ==>
              AndRun(ops, bufs, stream, pos).out == Turn(ops.turnTwo, bufs, stream, pos + 2).out
  {
  }

  /** The operator's result as a loss's `run`: an exception escapes. */
  function AsEffect(o: OpOutcome): (r: Result<Effect>)
    ensures r.Ok? <==> o.failure.None?
    ensures r.Ok? ==> r.value == Effect(o.out, o.draws)
  {
    if o.failure.Some? then Err(o.failure.value) else Ok(Effect(o.out, o.draws))
  }

  /** Draws one uniform for `probability(prob)`; the answer is "skip". */
  method DrawSkip(prob: real, global: Generator) returns (skip: bool)
    modifies global
    ensures skip == Probability(prob, global.stream(old(global.pos)))
    ensures global.pos == old(global.pos) + 1
  {
    var u := global.Uniform(0.0, 1.0);
    skip := !(prob > u);
  }

  /** `@register_class("and") class AndOperator`. */
  class AndOperator {
    const probabilityOne: real
    const probabilityTwo: real
    const turnOne: seq<Forward>
    const turnTwo: seq<Forward>

    function Ops(): Operands { Operands(probabilityOne, probabilityTwo, turnOne, turnTwo) }

    constructor (ops: Operands)
      ensures Ops() == ops
    {
      probabilityOne := ops.probabilityOne;
      probabilityTwo := ops.probabilityTwo;
      turnOne := ops.turnOne;
      turnTwo := ops.turnTwo;
    }

    /** `AndOperator(and_dict)`, with defaults 1.0 and 0.5. */
    static method Create(conf: OpConf, registry: Registry<LossClass>) returns (r: Result<AndOperator>)
      ensures r.Err? <==> OperandsOf(conf, 1.0, 0.5, registry.classes).Err?
      ensures r.Err? ==> r.error == OperandsOf(conf, 1.0, 0.5, registry.classes).error
      ensures r.Ok? ==> fresh(r.value) && r.value.Ops() == OperandsOf(conf, 1.0, 0.5, registry.classes).value
    {
      var ops := BuildOperands(conf, 1.0, 0.5, registry);
      if ops.Err? {
        return Err(ops.error);
      }
      var op := new AndOperator(ops.value);
      r := Ok(op);
    }

    method Run(bufs: Buffers, global: Generator) returns (r: Result<Buffers>)
      modifies global
      ensures var o := AndRun(Ops(), bufs, global.stream, old(global.pos));
              && global.pos == old(global.pos) + o.draws
              && (r.Ok? <==> o.failure.None?)
              && (r.Ok? ==> r.value == o.out)
              && (r.Err? ==> o.failure == Some(r.error))
    {
      r := RunAnd(Ops(), bufs, global);
    }  }

  /** `@register_class("or") class OrOperator`. */
  class OrOperator {
    const probabilityOne: real
    const probabilityTwo: real
    const turnOne: seq<Forward>
    const turnTwo: seq<Forward>

    function Ops(): Operands { Operands(probabilityOne, probabilityTwo, turnOne, turnTwo) }

    constructor (ops: Operands)
      ensures Ops() == ops
    {
      probabilityOne := ops.probabilityOne;
      probabilityTwo := ops.probabilityTwo;
      turnOne := ops.turnOne;
      turnTwo := ops.turnTwo;
    }

    /** `OrOperator(or_dict)`, with defaults 0.5 and 0.5. */
    static method Create(conf: OpConf, registry: Registry<LossClass>) returns (r: Result<OrOperator>)
      ensures r.Err? <==> OperandsOf(conf, 0.5, 0.5, registry.classes).Err?
      ensures r.Err? ==> r.error == OperandsOf(conf, 0.5, 0.5, registry.classes).error
      ensures r.Ok? ==> fresh(r.value) && r.value.Ops() == OperandsOf(conf, 0.5, 0.5, registry.classes).value
    {
      var ops := BuildOperands(conf, 0.5, 0.5, registry);
      if ops.Err? {
        return Err(ops.error);
      }
      var op := new OrOperator(ops.value);
      r := Ok(op);
    }

    method Run(bufs: Buffers, global: Generator) returns (r: Result<Buffers>)
      modifies global
      ensures var o := OrRun(Ops(), bufs, global.stream, old(global.pos));
              && global.pos == old(global.pos) + o.draws
              && (r.Ok? <==> o.failure.None?)
              && (r.Ok? ==> r.value == o.out)
              && (r.Err? ==> o.failure == Some(r.error))
    {
      var skip := DrawSkip(probabilityOne, global);
      if skip {
        skip := DrawSkip(probabilityTwo, global);
        if skip {
          return Ok(bufs);
        }
        r := ApplyTurn(turnTwo, bufs, global);
        return;
      }
      r := ApplyTurn(turnOne, bufs, global);
    }
  }
}
