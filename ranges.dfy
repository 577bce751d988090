/** The `safe_arange` helpers: the legacy one (src/utils/random.py) and the
    node library's (pepedd-nodes/pepedd/nodes/utils/custom_random.py), over
    integer ranges. */
module Ranges {

  import opened Wrappers

  /** The values `start, start + step, ...` strictly before `stop`, in the
      direction of `step`. */
  function Steps(start: int, stop: int, step: int): (r: seq<int>)
    requires step != 0
    ensures forall k :: 0 <= k < |r| ==> r[k] == start + k * step
    ensures step > 0 ==> forall k :: 0 <= k < |r| ==> start <= r[k] < stop
    ensures step < 0 ==> forall k :: 0 <= k < |r| ==> stop < r[k] <= start
    ensures step > 0 ==> start + |r| * step >= stop
    ensures step < 0 ==> start + |r| * step <= stop
    decreases if step > 0 then stop - start else start - stop
  {
    if (step > 0 && start < stop) || (step < 0 && stop < start) then
      var rest := Steps(start + step, stop, step);
      assert forall k :: 0 <= k < |rest| ==> rest[k] == start + (k + 1) * step by {
        forall k | 0 <= k < |rest| ensures rest[k] == start + (k + 1) * step {
          assert (k + 1) * step == k * step + step;
        }
      }
      assert start + (|rest| + 1) * step == (start + step) + |rest| * step;
      [start] + rest
    else
      []
  }

  /** `np.arange(start, stop, step)` on integers: a zero step raises
      ZeroDivisionError; otherwise the arithmetic progression from `start`
      bounded by `stop`. */
  function Arange(start: int, stop: int, step: int): (r: Result<seq<int>>)
    ensures step == 0 <==> r == Err(ZeroDivisionError)
    ensures r.Ok? ==> r.value == Steps(start, stop, step)
  {
    if step == 0 then Err(ZeroDivisionError) else Ok(Steps(start, stop, step))
  }

  /** The legacy `safe_arange`: the empty list raises IndexError; one element,
      or `lo >= hi`, gives that element alone; otherwise the list is spread
      into `np.arange`, so a third element is the step and a fourth is taken
      as a dtype and rejected. */
  function LegacyArange(xs: seq<int>): (r: Result<seq<int>>)
    ensures |xs| == 0 ==> r == Err(IndexError)
    ensures |xs| == 1 || (|xs| >= 2 && xs[0] >= xs[1]) ==> r == Ok([xs[0]])
    ensures |xs| == 2 && xs[0] < xs[1] ==> r == Ok(Steps(xs[0], xs[1], 1))
    ensures |xs| == 3 && xs[0] < xs[1] ==> r == Arange(xs[0], xs[1], xs[2])
    ensures |xs| >= 4 && xs[0] < xs[1] ==> r == Err(TypeError)
  {
    if |xs| == 0 then Err(IndexError)
    else if |xs| == 1 then Ok([xs[0]])
    else if xs[0] >= xs[1] then Ok([xs[0]])
    else if |xs| == 2 then Arange(xs[0], xs[1], 1)
    else if |xs| == 3 then Arange(xs[0], xs[1], xs[2])
    else Err(TypeError)
  }

  /** The node library's `safe_arange`: the empty list gives an empty array;
      one element, or `start >= stop`, gives `[start]`; otherwise the step is
      the third element when there is one and 1 otherwise, and later elements
      are ignored. */
  function SafeArange(xs: seq<int>): (r: Result<seq<int>>)
    ensures |xs| == 0 ==> r == Ok([])
    ensures |xs| == 1 || (|xs| >= 2 && xs[0] >= xs[1]) ==> r == Ok([xs[0]])
    ensures |xs| >= 2 && xs[0] < xs[1] ==> r == Arange(xs[0], xs[1], if |xs| > 2 then xs[2] else 1)
  {
    if |xs| == 0 then Ok([])
    else if |xs| == 1 || xs[0] >= xs[1] then Ok([xs[0]])
    else Arange(xs[0], xs[1], if |xs| > 2 then xs[2] else 1)
  }

  /** Every value the helper yields is `start + k * step` inside
      `[start, stop)` for a positive step, and a non-empty answer always
      begins with `start`. */
  lemma SafeArangeValues(xs: seq<int>)
    requires |xs| >= 1
    ensures var r := SafeArange(xs);
            && (r.Ok? && r.value != [] ==> r.value[0] == xs[0])
            && (|xs| >= 2 && xs[0] < xs[1] && r.Ok? ==>
                  var step := if |xs| > 2 then xs[2] else 1;
                  forall k :: 0 <= k < |r.value| ==>
                    r.value[k] == xs[0] + k * step && (step > 0 ==> xs[0] <= r.value[k] < xs[1]))
  {
  }

  /** Elements past the third change nothing. */
  lemma SafeArangeIgnoresTail(xs: seq<int>, tail: seq<int>)
    requires |xs| == 3
    ensures SafeArange(xs + tail) == SafeArange(xs)
  {
    assert (xs + tail)[..3] == xs;
    assert (xs + tail)[0] == xs[0] && (xs + tail)[1] == xs[1] && (xs + tail)[2] == xs[2];
  }

  /** The two helpers agree on lists of one to three elements, and differ on
      the empty list (IndexError against an empty array) and on four or more
      elements (TypeError against the tail being ignored). */
  lemma ArangeVersionsAgree(xs: seq<int>)
    ensures 1 <= |xs| <= 3 ==> LegacyArange(xs) == SafeArange(xs)
    ensures |xs| == 0 ==> LegacyArange(xs) == Err(IndexError) && SafeArange(xs) == Ok([])
    ensures |xs| >= 4 && xs[0] < xs[1] && xs[2] != 0 ==> LegacyArange(xs).Err? && SafeArange(xs).Ok?
  {
  }
}
