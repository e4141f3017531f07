/**
 * Ordered fallback chains. Each stream extractor tries a fixed list of strategies
 * in order: a strategy either produces the stream, is unavailable or fails quietly
 * (the code moves on to the next one), or throws out of the whole chain. When every
 * strategy has been passed over the chain throws its own "unable to extract" error.
 */
module Chain {
  import opened Wrappers

  /** What one strategy of a chain does once it is reached. */
  datatype Step<+T, +E> = Found(value: T) | Skip | Abort(error: E)

  /** The chain's outcome: the first step that is not a `Skip` decides. */
  function Run<T, E>(steps: seq<Step<T, E>>, exhausted: E): Result<T, E>
  {
    if steps == [] then Err(exhausted)
    else match steps[0]
      case Found(v) => Ok(v)
      case Abort(e) => Err(e)
      case Skip => Run(steps[1..], exhausted)
  }

  /** How many strategies are reached: all up to and including the first that is not a `Skip`. */
  function Tried<T, E>(steps: seq<Step<T, E>>): (n: nat)
    ensures n <= |steps|
  {
    if steps == [] then 0 else if steps[0].Skip? then 1 + Tried(steps[1..]) else 1
  }

  /** The outcome a single reached step gives when it is the last one reached. */
  function Verdict<T, E>(step: Step<T, E>, exhausted: E): Result<T, E>
  {
    match step
    case Found(v) => Ok(v)
    case Abort(e) => Err(e)
    case Skip => Err(exhausted)
  }

  /**
   * Every strategy reached before the last one reached was passed over; the chain
   * stops early only at a strategy that is not passed over; and the outcome is the
   * verdict of the last strategy reached.
   */
  lemma {:induction false} RunStopsAtFirstDecision<T, E>(steps: seq<Step<T, E>>, exhausted: E)
    ensures forall i :: 0 <= i < Tried(steps) - 1 ==> steps[i].Skip?
    ensures Tried(steps) < |steps| ==> Tried(steps) > 0 && !steps[Tried(steps) - 1].Skip?
    ensures Run(steps, exhausted) == if Tried(steps) == 0 then Err(exhausted)
                                     else Verdict(steps[Tried(steps) - 1], exhausted)
  {
    if steps != [] && steps[0].Skip? {
      RunStopsAtFirstDecision(steps[1..], exhausted);
      assert forall i :: 1 <= i < Tried(steps) - 1 ==> steps[i] == steps[1..][i - 1];
    }
  }

  /**
   * The chain yields `v` exactly when some strategy finds `v` and every strategy
   * before it is passed over.
   */
  lemma {:induction false} RunFindsIff<T, E>(steps: seq<Step<T, E>>, exhausted: E, v: T)
    ensures Run(steps, exhausted) == Ok(v) <==>
      exists k :: 0 <= k < |steps| && steps[k] == Found(v) && forall i :: 0 <= i < k ==> steps[i].Skip?
  {
    if steps != [] {
      RunFindsIff(steps[1..], exhausted, v);
      if steps[0].Skip? {
        if Run(steps, exhausted) == Ok(v) {
          var k :| 0 <= k < |steps| - 1 && steps[1..][k] == Found(v) && forall i :: 0 <= i < k ==> steps[1..][i].Skip?;
          assert steps[k + 1] == Found(v);
          assert forall i :: 0 <= i < k + 1 ==> steps[i].Skip? by {
            forall i | 0 <= i < k + 1 ensures steps[i].Skip? {
              if i > 0 { assert steps[i] == steps[1..][i - 1]; }
            }
          }
        }
        if exists k :: 0 <= k < |steps| && steps[k] == Found(v) && forall i :: 0 <= i < k ==> steps[i].Skip? {
          var k :| 0 <= k < |steps| && steps[k] == Found(v) && forall i :: 0 <= i < k ==> steps[i].Skip?;
          assert k > 0;
          assert steps[1..][k - 1] == Found(v);
          assert forall i :: 0 <= i < k - 1 ==> steps[1..][i].Skip? by {
            forall i | 0 <= i < k - 1 ensures steps[1..][i].Skip? {
              assert steps[1..][i] == steps[i + 1];
            }
          }
        }
      } else {
        if exists k :: 0 <= k < |steps| && steps[k] == Found(v) && forall i :: 0 <= i < k ==> steps[i].Skip? {
          var k :| 0 <= k < |steps| && steps[k] == Found(v) && forall i :: 0 <= i < k ==> steps[i].Skip?;
          assert k == 0;
        }
      }
    }
  }

  /** When every strategy is passed over, all of them are tried and the chain throws its own error. */
  lemma {:induction false} RunExhausted<T, E>(steps: seq<Step<T, E>>, exhausted: E)
    requires forall i :: 0 <= i < |steps| ==> steps[i].Skip?
    ensures Tried(steps) == |steps|
    ensures Run(steps, exhausted) == Err(exhausted)
  {
    if steps != [] {
      RunExhausted(steps[1..], exhausted);
    }
  }

  /** The strategies after the first decision are never reached and cannot change the outcome. */
  lemma {:induction false} RunIgnoresUnreached<T, E>(steps: seq<Step<T, E>>, rest: seq<Step<T, E>>, exhausted: E)
    requires Tried(steps) < |steps|
    ensures Run(steps[..Tried(steps)] + rest, exhausted) == Run(steps, exhausted)
    ensures Tried(steps[..Tried(steps)] + rest) == Tried(steps)
  {
    if steps[0].Skip? {
      RunIgnoresUnreached(steps[1..], rest, exhausted);
      assert (steps[..Tried(steps)] + rest)[1..] == steps[1..][..Tried(steps[1..])] + rest;
    }
  }

  /** One step in front of a chain: it decides, or the rest of the chain does. */
  lemma RunCons<T, E>(step: Step<T, E>, rest: seq<Step<T, E>>, exhausted: E)
    ensures Run([step] + rest, exhausted) == if step.Skip? then Run(rest, exhausted) else Verdict(step, exhausted)
    ensures Tried([step] + rest) == if step.Skip? then 1 + Tried(rest) else 1
  {
    assert ([step] + rest)[1..] == rest;
  }

  /** A chain of three strategies, in closed form. */
  lemma Run3<T, E>(a: Step<T, E>, b: Step<T, E>, c: Step<T, E>, exhausted: E)
    ensures Run([a, b, c], exhausted) ==
      if !a.Skip? then Verdict(a, exhausted) else if !b.Skip? then Verdict(b, exhausted) else Verdict(c, exhausted)
    ensures Tried([a, b, c]) == if !a.Skip? then 1 else if !b.Skip? then 2 else 3
  {
    RunCons(a, [b, c], exhausted);
    RunCons(b, [c], exhausted);
    RunCons(c, [], exhausted);
    assert [a] + [b, c] == [a, b, c];
    assert [b] + [c] == [b, c];
    assert [c] + [] == [c];
  }

  /** A chain of four strategies, in closed form. */
  lemma Run4<T, E>(a: Step<T, E>, b: Step<T, E>, c: Step<T, E>, d: Step<T, E>, exhausted: E)
    ensures Run([a, b, c, d], exhausted) ==
      if !a.Skip? then Verdict(a, exhausted) else if !b.Skip? then Verdict(b, exhausted)
      else if !c.Skip? then Verdict(c, exhausted) else Verdict(d, exhausted)
    ensures Tried([a, b, c, d]) == if !a.Skip? then 1 else if !b.Skip? then 2 else if !c.Skip? then 3 else 4
  {
    RunCons(a, [b, c, d], exhausted);
    Run3(b, c, d, exhausted);
    assert [a] + [b, c, d] == [a, b, c, d];
  }
}
