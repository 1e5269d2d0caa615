/**
 * Early stopping for an iterative optimiser (the `EarlyStopper` class of
 * src/eukleides/optimization.py). The stopper remembers the best objective
 * seen so far and counts consecutive calls that did not improve on it.
 *
 * The integrators of the same file are textually the ones of
 * src/eukleides/gradient_updates.py and are modelled once, in GradientUpdates.
 */
module Optimization {
  import opened Results

  /** The two accepted values of the `direction` argument. */
  datatype Direction = Maximize | Minimize

  /** The constructor's check on `direction`. */
  function ParseDirection(name: string): (r: Result<Direction>)
    ensures r == Ok(Maximize) <==> name == "maximize"
    ensures r == Ok(Minimize) <==> name == "minimize"
    ensures r.Err? <==> name != "maximize" && name != "minimize"
    ensures r.Err? ==> r.error == InvalidDirection
  {
    if name == "maximize" then Ok(Maximize)
    else if name == "minimize" then Ok(Minimize)
    else Err(InvalidDirection)
  }

  /** `is_better`: `candidate` is strictly better than `best` in `direction`. */
  function Improves(direction: Direction, best: real, candidate: real): (b: bool)
    ensures b <==> (direction == Maximize && candidate > best) || (direction == Minimize && candidate < best)
  {
    match direction
    case Maximize => candidate > best
    case Minimize => best > candidate
  }

  /** An equal objective is never an improvement, and improvement is asymmetric. */
  lemma ImprovesIsStrict(direction: Direction, a: real, b: real)
    ensures !Improves(direction, a, a)
    ensures Improves(direction, a, b) ==> !Improves(direction, b, a)
  {
  }

  /** Minimising is maximising with the roles of the two objectives swapped. */
  lemma ImprovesDual(a: real, b: real)
    ensures Improves(Maximize, a, b) <==> Improves(Minimize, b, a)
  {
  }

  /** Two objectives neither of which improves on the other are equal. */
  lemma ImprovesTotal(direction: Direction, a: real, b: real)
    ensures !Improves(direction, a, b) && !Improves(direction, b, a) <==> a == b
  {
  }

  /** "Not worse than": the relation the remembered best keeps with every objective seen. */
  lemma NotImprovedTransitive(direction: Direction, a: real, b: real, c: real)
    requires !Improves(direction, a, b) && !Improves(direction, b, c)
    ensures !Improves(direction, a, c)
  {
  }

  // ---------------------------------------------------------------------------
  // The stop rule as a function of the stopper's state.

  /** The mutable part of a stopper: `best_objective` and `fails`, each possibly `None`. */
  datatype StopperState = StopperState(best: Option<real>, fails: Option<nat>)

  /**
   * `stop` can run: with a remembered objective and an unset counter the source
   * fails on `self.fails += 1`, which it reaches exactly when there is no improvement.
   */
  predicate CanStop(s: StopperState, direction: Direction, objective: real) {
    s.best.None? || s.fails.Some? || Improves(direction, s.best.value, objective)
  }

  /** One call of `stop`: the next state and whether to stop. */
  function StopStep(s: StopperState, direction: Direction, maxFails: int, objective: real): (r: (StopperState, bool))
    requires CanStop(s, direction, objective)
    // the first objective is only recorded
    ensures s.best.None? ==> r.0 == StopperState(Some(objective), s.fails) && !r.1
    // an improvement becomes the best and clears the counter
    ensures s.best.Some? && Improves(direction, s.best.value, objective) ==>
      r.0 == StopperState(Some(objective), Some(0))
    // anything else leaves the best alone and counts one more failure
    ensures s.best.Some? && !Improves(direction, s.best.value, objective) ==>
      r.0 == StopperState(s.best, Some(s.fails.value + 1))
    // after the first call the counter is set and zero exactly after an improvement
    ensures s.best.Some? ==> r.0.fails.Some? && (r.0.fails.value == 0 <==> Improves(direction, s.best.value, objective))
    ensures r.1 <==> s.best.Some? && r.0.fails.value + 1 >= maxFails
    ensures s.fails.Some? ==> r.0.fails.Some?
  {
    if s.best.None? then
      (StopperState(Some(objective), s.fails), false)
    else if Improves(direction, s.best.value, objective) then
      (StopperState(Some(objective), Some(0)), 0 + 1 >= maxFails)
    else
      var fails := s.fails.value + 1;
      (StopperState(s.best, Some(fails)), fails + 1 >= maxFails)
  }

  /** With `max_fails <= 1` the stopper stops even right after an improvement, and only then. */
  lemma StopsAfterImprovement(s: StopperState, direction: Direction, maxFails: int, objective: real)
    requires s.best.Some? && Improves(direction, s.best.value, objective)
    ensures StopStep(s, direction, maxFails, objective).1 <==> maxFails <= 1
  {
  }

  /** Once stopping, a stopper keeps stopping until it sees an improvement. */
  lemma StopIsSticky(s: StopperState, direction: Direction, maxFails: int, first: real, second: real)
    requires s.fails.Some?
    requires StopStep(s, direction, maxFails, first).1
    requires !Improves(direction, StopStep(s, direction, maxFails, first).0.best.value, second)
    ensures StopStep(StopStep(s, direction, maxFails, first).0, direction, maxFails, second).1
  {
  }

  /** Successive calls of `stop` on a started stopper. */
  function StopRun(s: StopperState, direction: Direction, maxFails: int, objectives: seq<real>): (r: (StopperState, seq<bool>))
    requires s.fails.Some?
    ensures r.0.fails.Some? && |r.1| == |objectives|
    ensures |objectives| > 0 ==> r.0.best.Some?
    ensures |objectives| == 0 ==> r.0 == s
    ensures s.best.Some? ==> r.0.best.Some?
    decreases |objectives|
  {
    if |objectives| == 0 then (s, [])
    else
      var step := StopStep(s, direction, maxFails, objectives[0]);
      var rest := StopRun(step.0, direction, maxFails, objectives[1..]);
      (rest.0, [step.1] + rest.1)
  }

  /** Everything a run has remembered or seen: the initial best, if any, then the objectives. */
  function Seen(s: StopperState, objectives: seq<real>): seq<real> {
    (if s.best.Some? then [s.best.value] else []) + objectives
  }

  /**
   * After a run the remembered best is one of the objectives seen, and none of
   * them improves on it.
   */
  lemma {:induction false} RunKeepsBest(s: StopperState, direction: Direction, maxFails: int, objectives: seq<real>)
    requires s.fails.Some? && (s.best.Some? || |objectives| > 0)
    ensures StopRun(s, direction, maxFails, objectives).0.best.value in Seen(s, objectives)
    ensures forall o :: o in Seen(s, objectives) ==>
                 !Improves(direction, StopRun(s, direction, maxFails, objectives).0.best.value, o)
    decreases |objectives|
  {
    if |objectives| > 0 {
      var step := StopStep(s, direction, maxFails, objectives[0]);
      var best := StopRun(s, direction, maxFails, objectives).0.best.value;
      RunKeepsBest(step.0, direction, maxFails, objectives[1..]);
      assert StopRun(step.0, direction, maxFails, objectives[1..]).0.best.value == best;
      var b := step.0.best.value;
      assert Seen(step.0, objectives[1..]) == [b] + objectives[1..];
      assert !Improves(direction, best, b);
      forall o | o in Seen(s, objectives)
        ensures !Improves(direction, best, o)
      {
        if o in objectives[1..] {
        } else if s.best.Some? && o == s.best.value {
          NotImprovedTransitive(direction, best, b, o);
        } else {
          assert o == objectives[0];
          NotImprovedTransitive(direction, best, b, o);
        }
      }
      assert objectives == [objectives[0]] + objectives[1..];
    }
  }

  /**
   * Calls that never improve on the remembered best each add one failure, and
   * the i-th of them stops exactly when `fails + i + 2 >= max_fails`.
   */
  lemma {:induction false} RunWithoutImprovement(s: StopperState, direction: Direction, maxFails: int, objectives: seq<real>)
    requires s.best.Some? && s.fails.Some?
    requires forall i :: 0 <= i < |objectives| ==> !Improves(direction, s.best.value, objectives[i])
    ensures StopRun(s, direction, maxFails, objectives).0
         == StopperState(s.best, Some(s.fails.value + |objectives|))
    ensures forall i :: 0 <= i < |objectives| ==>
                 (StopRun(s, direction, maxFails, objectives).1[i] <==> s.fails.value + i + 2 >= maxFails)
    decreases |objectives|
  {
    if |objectives| > 0 {
      var next := StopperState(s.best, Some(s.fails.value + 1));
      RunWithoutImprovement(next, direction, maxFails, objectives[1..]);
      var outs := StopRun(s, direction, maxFails, objectives).1;
      forall i | 0 <= i < |objectives|
        ensures outs[i] <==> s.fails.value + i + 2 >= maxFails
      {
        if i > 0 {
          assert outs[i] == StopRun(next, direction, maxFails, objectives[1..]).1[i - 1];
        }
      }
    }
  }

  // ---------------------------------------------------------------------------
  // The class.

  /** After `max_fails` attempts that fail to improve the objective, it says stop. */
  class EarlyStopper {
    const maxFails: int
    const direction: Direction
    var bestObjective: Option<real>
    var fails: Option<nat>

    function State(): StopperState
      reads this
    {
      StopperState(bestObjective, fails)
    }

    /** `__init__` after its check on `direction`: nothing remembered, no counter. */
    constructor (maxFails: int, direction: Direction)
      ensures this.maxFails == maxFails && this.direction == direction
      ensures bestObjective == None && fails == None
    {
      this.maxFails := maxFails;
      this.direction := direction;
      bestObjective := None;
      fails := None;
    }

    /** `is_better`: needs a remembered objective to compare against. */
    function IsBetter(newObjective: real): (b: bool)
      reads this
      requires bestObjective.Some?
      ensures b <==> ((direction == Maximize && newObjective > bestObjective.value) ||
                      (direction == Minimize && newObjective < bestObjective.value))
    {
      Improves(direction, bestObjective.value, newObjective)
    }

    /** `start`: sets the counter to zero and keeps the remembered objective. */
    method Start()
      modifies this
      ensures fails == Some(0) && bestObjective == old(bestObjective)
    {
      fails := Some(0);
    }

    /** `reset`: sets the counter to zero and forgets the remembered objective. */
    method Reset()
      modifies this
      ensures fails == Some(0) && bestObjective == None
    {
      fails := Some(0);
      bestObjective := None;
    }

    /** `stop`: records `newObjective` and answers whether to stop. */
    method Stop(newObjective: real) returns (stop: bool)
      requires CanStop(State(), direction, newObjective)
      modifies this
      ensures (State(), stop) == StopStep(old(State()), direction, maxFails, newObjective)
    {
      if bestObjective.None? {
        bestObjective := Some(newObjective);
        return false;
      }
      if IsBetter(newObjective) {
        bestObjective := Some(newObjective);
        fails := Some(0);
      } else {
        fails := Some(fails.value + 1);
      }
      stop := fails.value + 1 >= maxFails;
    }
  }

  /** The constructor: rejects an unknown direction, otherwise an unstarted stopper. */
  method NewEarlyStopper(maxFails: int, direction: string) returns (r: Result<EarlyStopper>)
    ensures r.Err? <==> ParseDirection(direction).Err?
    ensures r.Err? ==> r.error == InvalidDirection
    ensures r.Ok? ==>
              && fresh(r.value) && r.value.maxFails == maxFails
              && Ok(r.value.direction) == ParseDirection(direction)
              && r.value.State() == StopperState(None, None)
  {
    var parsed := ParseDirection(direction);
    if parsed.Err? {
      return Err(parsed.error);
    }
    var stopper := new EarlyStopper(maxFails, parsed.value);
    return Ok(stopper);
  }
}
