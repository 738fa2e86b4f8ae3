/** The premarket probe's order lifecycle (execution/premarket_entry.py). Times are microseconds, prices reals. */
module PremarketEntry {
  import opened Numbers
  import opened Texts

  datatype Plan = Plan(target: nat, reference: real, reprice: int, ttl: int, maxReprices: nat, chase: real)
  {
    /** The most a share may cost. */
    function Cap(): real { reference * (1.0 + chase) }

    predicate Valid() { target > 0 && reference > 0.0 && 0 < reprice < ttl && 0.0 <= chase <= 0.02 }
  }

  datatype Runtime = Runtime(started: Option<int>, lastCommand: Option<int>, attempt: nat, completed: Option<int>)

  const INITIAL := Runtime(None, None, 0, None)

  datatype Snapshot = Snapshot(observed: int, ask: real, filled: nat, working: bool, healthy: bool)

  datatype Action = Observe | SubmitLimit | CancelReplace | CancelRemainder | Complete | Abandon

  datatype Decision = Decision(action: Action, runtime: Runtime, limit: Option<real>, remaining: nat)

  function CentsDown(x: real): real { (x * 100.0).Floor as real / 100.0 }

  function CentsUp(x: real): real { -CentsDown(-x) }

  /** The cap rounded down to the cent, or the ask rounded up when that is lower. */
  function BoundedLimit(cap: real, ask: real): real { Min(CentsUp(ask), CentsDown(cap)) }

  predicate Submits(a: Action) { a == SubmitLimit || a == CancelReplace }

  function Evaluate(plan: Plan, r: Runtime, s: Snapshot): Result<Decision> {
    var filled := if s.filled < plan.target then s.filled else plan.target;
    var remaining := plan.target - filled;
    var giveUp := if filled > 0 then CancelRemainder else Abandon;
    if remaining == 0 || r.completed.Some? then
      Ok(Decision(Complete, if r.completed.Some? then r else r.(completed := Some(s.observed)), None, 0))
    else if !s.healthy then Ok(Decision(giveUp, r.(completed := Some(s.observed)), None, remaining))
    else if r.started.None? then
      Ok(Decision(SubmitLimit, r.(started := Some(s.observed), lastCommand := Some(s.observed)),
                  Some(BoundedLimit(plan.Cap(), s.ask)), remaining))
    else if s.observed - r.started.value >= plan.ttl then
      Ok(Decision(giveUp, r.(completed := Some(s.observed)), None, remaining))
    else if r.lastCommand.None? then Err("started premarket entry lacks last command time")
    else if s.working && r.attempt < plan.maxReprices && s.observed - r.lastCommand.value >= plan.reprice then
      Ok(Decision(CancelReplace, r.(attempt := r.attempt + 1, lastCommand := Some(s.observed)),
                  Some(BoundedLimit(plan.Cap(), s.ask)), remaining))
    else Ok(Decision(Observe, r, None, remaining))
  }

  /** A limit never exceeds the cap, and it reaches the ask exactly when a whole cent does within the cap. */
  lemma LimitWithinCap(cap: real, ask: real)
    ensures BoundedLimit(cap, ask) <= cap
    ensures BoundedLimit(cap, ask) >= ask <==> CentsUp(ask) <= CentsDown(cap)
    ensures BoundedLimit(cap, ask) < ask + 0.01
    ensures BoundedLimit(cap, ask) < ask ==> cap - 0.01 < BoundedLimit(cap, ask)
  {
    if CentsUp(ask) > CentsDown(cap) { CentsGap(cap, ask); }
  }

  /** A whole cent below the ask rounded up is below the ask. */
  lemma CentsGap(cap: real, ask: real)
    requires CentsDown(cap) < CentsUp(ask)
    ensures CentsDown(cap) < ask
  {
    var c, a := (cap * 100.0).Floor, (-ask * 100.0).Floor;
    assert (c as real) / 100.0 < -(a as real) / 100.0;
    assert c < -a;
    assert c as real <= (-a - 1) as real;
  }

  // ---- one step ----

  predicate Sound(plan: Plan, r: Runtime) {
    r.attempt <= plan.maxReprices && (r.started.Some? <==> r.lastCommand.Some?) && (r.started.None? ==> r.attempt == 0)
  }

  /** Attempts move by one reprice at most and never past the limit, completion is final, and what is submitted is
      decided before the end of the saved lifetime, after at least the reprice delay, within the cap. */
  lemma EvaluateKeeps(plan: Plan, r: Runtime, s: Snapshot)
    requires plan.Valid() && Sound(plan, r)
    ensures Evaluate(plan, r, s).Ok?
    ensures var d := Evaluate(plan, r, s).value;
            Sound(plan, d.runtime) && r.attempt <= d.runtime.attempt <= r.attempt + 1
            && (d.runtime.attempt > r.attempt <==> d.action == CancelReplace)
            && (r.completed.Some? ==> d.runtime == r && !Submits(d.action))
            && (r.started.Some? ==> d.runtime.started == r.started)
            && (d.runtime.started.Some? && r.started.None? <==> d.action == SubmitLimit)
    ensures var d := Evaluate(plan, r, s).value;
            Submits(d.action) ==>
              s.healthy && d.limit.Some? && d.limit.value <= plan.Cap() && d.limit.value < s.ask + 0.01
              && (d.limit.value < s.ask ==> plan.Cap() - 0.01 < d.limit.value)
              && d.remaining > 0 && d.remaining + s.filled == plan.target
              && (r.started.Some? ==> s.observed - r.started.value < plan.ttl
                                      && s.observed - r.lastCommand.value >= plan.reprice)
    ensures !Submits(Evaluate(plan, r, s).value.action) ==> Evaluate(plan, r, s).value.limit.None?
  {
    LimitWithinCap(plan.Cap(), s.ask);
  }

  /** The entry ends exactly when its target is filled, a fault occurs, or its lifetime is over; it is repriced
      exactly while its order works, reprices are left and the delay has passed. A partial fill is kept. */
  lemma EndsAndRepricesIff(plan: Plan, r: Runtime, s: Snapshot)
    requires plan.Valid() && Sound(plan, r) && r.completed.None? && Evaluate(plan, r, s).Ok?
    ensures var d := Evaluate(plan, r, s).value;
            var over := r.started.Some? && s.observed - r.started.value >= plan.ttl;
            (d.runtime.completed.Some? <==> s.filled >= plan.target || !s.healthy || over)
            && (d.action == CancelReplace <==>
                  s.filled < plan.target && s.healthy && r.started.Some? && !over && s.working
                  && r.attempt < plan.maxReprices && s.observed - r.lastCommand.value >= plan.reprice)
            && (d.action == CancelRemainder || d.action == Abandon <==>
                  s.filled < plan.target && d.runtime.completed.Some?)
            && (d.action == Abandon ==> s.filled == 0) && (d.action == CancelRemainder ==> s.filled > 0)
  {
  }

  /** When an order is to be submitted: something is left to fill, nothing ended the entry or endangers it, and it is
      either not started or within its lifetime with a working order, a reprice left and the delay over. */
  predicate SubmitDue(plan: Plan, r: Runtime, s: Snapshot) {
    s.filled < plan.target && r.completed.None? && s.healthy
    && (r.started.None?
        || (s.observed - r.started.value < plan.ttl && s.working && r.attempt < plan.maxReprices
            && r.lastCommand.Some? && s.observed - r.lastCommand.value >= plan.reprice))
  }

  /** An order is submitted exactly when one is due: the next attempt's, or the first. */
  lemma SubmitsIff(plan: Plan, r: Runtime, s: Snapshot)
    requires plan.Valid() && Sound(plan, r) && Evaluate(plan, r, s).Ok?
    ensures var d := Evaluate(plan, r, s).value;
            (Submits(d.action) <==> SubmitDue(plan, r, s))
            && (SubmitDue(plan, r, s) ==> d.runtime.attempt == if r.started.None? then 0 else r.attempt + 1)
            && (SubmitDue(plan, r, s) ==>
                  d.runtime.started == (if r.started.None? then Some(s.observed) else r.started)
                  && d.runtime.lastCommand == Some(s.observed) && d.runtime.completed.None?)
  {
  }
}
