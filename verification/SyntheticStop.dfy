/** The synthetic stop engine (execution/synthetic_stop.py). Times are seconds, limits are cents. */
module SyntheticStop {
  import opened Texts

  datatype Action = Observe | SubmitExitLimit | CancelReplaceExit | Complete | Alert

  datatype Plan = Plan(planId: string, symbol: string, qty: int, stopPrice: real,
                       confirmation: real, reprice: real, buffers: seq<real>)
  {
    predicate Valid() {
      planId != "" && symbol != "" && qty > 0 && stopPrice > 0.0 && confirmation > 0.0 && reprice > 0.0
      && buffers != [] && forall i :: 0 <= i < |buffers| ==> 0.0 < buffers[i] <= 0.05
    }
  }

  datatype Runtime = Runtime(belowSince: Option<real>, triggeredAt: Option<real>, lastCommandAt: Option<real>,
                             attempt: nat, completedAt: Option<real>)
  const INITIAL := Runtime(None, None, None, 0, None)

  datatype Snapshot = Snapshot(observedAt: real, bid: real, lastTrade: Option<real>, dataHealthy: bool,
                               brokerHealthy: bool, materialNegative: bool, haltRisk: bool, filled: bool)

  datatype Decision = Decision(action: Action, runtime: Runtime, limit: Option<int>,
                               reason: string, blocker: string)

  /** The bid less the buffer, rounded down to a cent. */
  function SellLimit(bid: real, buffer: real): int { (bid * (1.0 - buffer) * 100.0).Floor }

  function Evaluate(plan: Plan, r: Runtime, s: Snapshot): Decision
    requires plan.Valid() && r.attempt < |plan.buffers|
  {
    var now := Some(s.observedAt);
    if s.filled || r.completedAt.Some? then
      Decision(Complete, if r.completedAt.Some? then r else r.(completedAt := now), None, "filled", "")
    else if r.triggeredAt.None? then
      var commanded := if s.brokerHealthy then now else None;
      if !s.dataHealthy then
        var last := |plan.buffers| - 1;
        var t := r.(belowSince := now, triggeredAt := now, lastCommandAt := commanded, attempt := last);
        if !s.brokerHealthy then Decision(Alert, t, None, "market_data_unhealthy", "broker_unavailable")
        else Decision(SubmitExitLimit, t, Some(SellLimit(s.bid, plan.buffers[last])), "market_data_unhealthy", "")
      else if s.materialNegative || s.haltRisk then
        var reason := if s.materialNegative then "verified_material_negative" else "halt_risk";
        var t := r.(belowSince := now, triggeredAt := now, lastCommandAt := commanded);
        if !s.brokerHealthy then Decision(Alert, t, None, reason, "broker_unavailable")
        else Decision(SubmitExitLimit, t, Some(SellLimit(s.bid, plan.buffers[0])), reason, "")
      else if s.lastTrade.Some? && s.lastTrade.value <= plan.stopPrice && s.bid <= plan.stopPrice then
        Decision(SubmitExitLimit, r.(belowSince := now, triggeredAt := now, lastCommandAt := now),
                 Some(SellLimit(s.bid, plan.buffers[0])), "trade_and_nbbo", "")
      else if s.bid > plan.stopPrice then Decision(Observe, r.(belowSince := None), None, "", "")
      else
        var since := if r.belowSince.Some? then r.belowSince.value else s.observedAt;
        var waiting := r.(belowSince := Some(since));
        if s.observedAt - since < plan.confirmation then Decision(Observe, waiting, None, "", "awaiting_confirmation")
        else Decision(SubmitExitLimit, waiting.(triggeredAt := now, lastCommandAt := now),
                      Some(SellLimit(s.bid, plan.buffers[0])), "nbbo_below_stop", "")
    else if !s.brokerHealthy then Decision(Alert, r, None, "triggered", "broker_unavailable")
    else if r.lastCommandAt.None? then
      Decision(SubmitExitLimit, r.(lastCommandAt := now), Some(SellLimit(s.bid, plan.buffers[r.attempt])),
               "broker_recovered", "")
    else if s.observedAt - r.lastCommandAt.value >= plan.reprice then
      var attempt := if r.attempt + 1 < |plan.buffers| then r.attempt + 1 else |plan.buffers| - 1;
      Decision(CancelReplaceExit, r.(lastCommandAt := now, attempt := attempt),
               Some(SellLimit(s.bid, plan.buffers[attempt])), "reprice", "")
    else Decision(Observe, r, None, "", "exit_order_pending")
  }

  predicate Commands(a: Action) { a == SubmitExitLimit || a == CancelReplaceExit }

  /** What every stored runtime satisfies: the price attempt is an index, and zero until the trigger. */
  predicate RuntimeInv(plan: Plan, r: Runtime) {
    plan.Valid() && r.attempt < |plan.buffers|
    && (r.triggeredAt.None? ==> r.attempt == 0 && r.lastCommandAt.None?)
  }

  /** Trigger and completion never clear, the attempt never falls, and a command always carries the limit
      that the buffer of its attempt gives: at most that fraction below the bid, within a cent. */
  lemma EvaluateKeeps(plan: Plan, r: Runtime, s: Snapshot)
    requires RuntimeInv(plan, r)
    ensures var d := Evaluate(plan, r, s);
            RuntimeInv(plan, d.runtime)
            && r.attempt <= d.runtime.attempt <= r.attempt + |plan.buffers|
            && (r.triggeredAt.Some? ==> d.runtime.triggeredAt == r.triggeredAt)
            && (r.completedAt.Some? ==> d.runtime == r && d.action == Complete)
            && (d.limit.Some? <==> Commands(d.action))
            && (Commands(d.action) ==>
                  s.brokerHealthy || (r.triggeredAt.None? && d.runtime.triggeredAt == Some(s.observedAt)))
            && (Commands(d.action) ==>
                  d.runtime.triggeredAt.Some? && !s.filled
                  && d.limit.value as real / 100.0 <= s.bid * (1.0 - plan.buffers[d.runtime.attempt])
                  && s.bid * (1.0 - plan.buffers[d.runtime.attempt]) < (d.limit.value as real + 1.0) / 100.0)
            && (d.action == CancelReplaceExit ==>
                  d.runtime.attempt == r.attempt + 1 || d.runtime.attempt == r.attempt == |plan.buffers| - 1)
            && (d.action != CancelReplaceExit && r.triggeredAt.Some? ==> d.runtime.attempt == r.attempt)
  {}

  /** Why an untriggered stop triggers: an outage or an emergency at once, a trade and a bid at the stop
      together, or a bid that has been waiting there for the confirmation time. */
  predicate TriggerDue(plan: Plan, r: Runtime, s: Snapshot) {
    !s.dataHealthy || s.materialNegative || s.haltRisk
    || (s.bid <= plan.stopPrice
        && ((s.lastTrade.Some? && s.lastTrade.value <= plan.stopPrice)
            || (r.belowSince.Some? && s.observedAt - r.belowSince.value >= plan.confirmation)))
  }

  /** A stop triggers exactly when one of those holds, at the widest buffer exactly in a data outage; the
      trigger is a command exactly when the broker is healthy or a trade and a bid confirmed it. */
  lemma TriggersIff(plan: Plan, r: Runtime, s: Snapshot)
    requires RuntimeInv(plan, r) && r.triggeredAt.None? && r.completedAt.None? && !s.filled
    ensures var d := Evaluate(plan, r, s);
            (d.runtime.triggeredAt.Some? <==> TriggerDue(plan, r, s))
            && d.runtime.attempt == (if s.dataHealthy then 0 else |plan.buffers| - 1)
            && (TriggerDue(plan, r, s) ==>
                  d.runtime.triggeredAt == Some(s.observedAt)
                  && (Commands(d.action) <==> d.runtime.lastCommandAt == Some(s.observedAt))
                  && (Commands(d.action) <==>
                        s.brokerHealthy || (s.dataHealthy && !s.materialNegative && !s.haltRisk)))
            && (!TriggerDue(plan, r, s) ==> d.action == Observe)
  {
  }

  /** A stop is over exactly when its position is filled or it was over before, whatever its state. */
  lemma CompletesIff(plan: Plan, r: Runtime, s: Snapshot)
    requires RuntimeInv(plan, r)
    ensures var d := Evaluate(plan, r, s);
            (d.action == Complete <==> s.filled || r.completedAt.Some?)
            && (d.runtime.completedAt.Some? <==> d.action == Complete)
  {
  }

  /** The attempt after this one: the next buffer, or the last again. */
  function NextAttempt(plan: Plan, attempt: nat): nat
    requires attempt < |plan.buffers|
  {
    if attempt == |plan.buffers| - 1 then attempt else attempt + 1
  }

  /** A triggered stop that is not over: with a healthy broker it sends its first command, at the stored attempt, exactly
      when none is stored, and replaces it, at the next attempt, exactly when the delay has passed since; without one it
      only alerts. Nothing but the command's time and attempt changes. */
  lemma RepricesIff(plan: Plan, r: Runtime, s: Snapshot)
    requires RuntimeInv(plan, r) && r.triggeredAt.Some? && r.completedAt.None? && !s.filled
    ensures var d := Evaluate(plan, r, s);
            (d.action == Alert <==> !s.brokerHealthy)
            && (d.action == SubmitExitLimit <==> s.brokerHealthy && r.lastCommandAt.None?)
            && (d.action == CancelReplaceExit
                <==> s.brokerHealthy && r.lastCommandAt.Some? && s.observedAt >= r.lastCommandAt.value + plan.reprice)
            && (d.action == SubmitExitLimit ==> d.runtime == r.(lastCommandAt := Some(s.observedAt)))
            && (d.action == CancelReplaceExit ==>
                  d.runtime == r.(lastCommandAt := Some(s.observedAt), attempt := NextAttempt(plan, r.attempt)))
            && (!Commands(d.action) ==> d.runtime == r)
  {
  }

  /** When the engine asks for an exit order, triggered or not. */
  predicate CommandDue(plan: Plan, r: Runtime, s: Snapshot) {
    !s.filled && r.completedAt.None?
    && if r.triggeredAt.None? then
         TriggerDue(plan, r, s) && (s.brokerHealthy || (s.dataHealthy && !s.materialNegative && !s.haltRisk))
       else
         s.brokerHealthy && (r.lastCommandAt.None? || s.observedAt >= r.lastCommandAt.value + plan.reprice)
  }

  /** The buffer such an order is priced at. */
  function DueAttempt(plan: Plan, r: Runtime, s: Snapshot): nat
    requires RuntimeInv(plan, r)
  {
    if r.triggeredAt.None? then if s.dataHealthy then 0 else |plan.buffers| - 1
    else if r.lastCommandAt.None? then r.attempt
    else NextAttempt(plan, r.attempt)
  }

  lemma CommandsIff(plan: Plan, r: Runtime, s: Snapshot)
    requires RuntimeInv(plan, r)
    ensures var d := Evaluate(plan, r, s);
            (Commands(d.action) <==> CommandDue(plan, r, s))
            && (CommandDue(plan, r, s) ==>
                  d.runtime.attempt == DueAttempt(plan, r, s) && d.runtime.lastCommandAt == Some(s.observedAt)
                  && (d.action == CancelReplaceExit <==> r.lastCommandAt.Some?))
  {
    if r.completedAt.None? && !s.filled {
      if r.triggeredAt.Some? { RepricesIff(plan, r, s); } else { TriggersIff(plan, r, s); }
    }
  }

  // ---- the two-second confirmation over a run ----

  function EngineRun(plan: Plan, snaps: seq<Snapshot>): (r: Runtime)
    requires plan.Valid()
    ensures RuntimeInv(plan, r)
    decreases |snaps|
  {
    if snaps == [] then INITIAL
    else
      var before := EngineRun(plan, snaps[..|snaps| - 1]);
      EvaluateKeeps(plan, before, snaps[|snaps| - 1]);
      Evaluate(plan, before, snaps[|snaps| - 1]).runtime
  }

  /** From snapshot i on, every bid was at or below the stop. */
  predicate BelowSince(plan: Plan, snaps: seq<Snapshot>, i: nat, since: real) {
    i < |snaps| && snaps[i].observedAt == since
    && forall j :: i <= j < |snaps| ==> snaps[j].bid <= plan.stopPrice
  }

  lemma {:induction false} WaitingMeansBelow(plan: Plan, snaps: seq<Snapshot>) returns (i: nat)
    requires plan.Valid()
    requires EngineRun(plan, snaps).triggeredAt.None? && EngineRun(plan, snaps).belowSince.Some?
    requires EngineRun(plan, snaps).completedAt.None?
    ensures BelowSince(plan, snaps, i, EngineRun(plan, snaps).belowSince.value)
    decreases |snaps|
  {
    var last := |snaps| - 1;
    var before := EngineRun(plan, snaps[..last]);
    if before.belowSince.Some? {
      i := WaitingMeansBelow(plan, snaps[..last]);
    } else {
      i := last;
    }
  }

  /** A quote-only trigger is never one bad tick: every snapshot over the confirmation time was at or below the stop. */
  lemma QuoteTriggerWasConfirmed(plan: Plan, snaps: seq<Snapshot>, s: Snapshot) returns (i: nat)
    requires plan.Valid()
    requires Evaluate(plan, EngineRun(plan, snaps), s).reason == "nbbo_below_stop"
    ensures i < |snaps + [s]| && (snaps + [s])[i].observedAt <= s.observedAt - plan.confirmation
    ensures forall j :: i <= j < |snaps + [s]| ==> (snaps + [s])[j].bid <= plan.stopPrice
  {
    i := WaitingMeansBelow(plan, snaps);
  }

  // ---- the pace of commands over a run ----

  predicate CommandAt(plan: Plan, snaps: seq<Snapshot>, i: nat)
    requires plan.Valid()
  {
    i < |snaps| && Commands(Evaluate(plan, EngineRun(plan, snaps[..i]), snaps[i]).action)
  }

  /** After a command at i the stop is triggered and remembers a command no earlier than that one. */
  lemma {:induction false} CommandIsRemembered(plan: Plan, snaps: seq<Snapshot>, i: nat, n: nat)
    requires plan.Valid() && i < n <= |snaps| && CommandAt(plan, snaps, i)
    ensures var r := EngineRun(plan, snaps[..n]);
            r.triggeredAt.Some? && r.lastCommandAt.Some? && r.lastCommandAt.value >= snaps[i].observedAt
    decreases n
  {
    assert snaps[..n][..n - 1] == snaps[..n - 1];
    if i < n - 1 { CommandIsRemembered(plan, snaps, i, n - 1); }
  }

  /** Any two commands of a run are at least the reprice time apart, whatever the clock does between them,
      and only the first can be anything but a replacement. */
  lemma CommandsAreSpaced(plan: Plan, snaps: seq<Snapshot>, i: nat, j: nat)
    requires plan.Valid() && i < j && CommandAt(plan, snaps, i) && CommandAt(plan, snaps, j)
    ensures snaps[j].observedAt >= snaps[i].observedAt + plan.reprice
    ensures Evaluate(plan, EngineRun(plan, snaps[..j]), snaps[j]).action == CancelReplaceExit
  {
    CommandIsRemembered(plan, snaps, i, j);
  }

  // ---- the walk through the buffers ----

  /** Snapshots of a healthy broker and an unfilled position, each a delay after the one before it. */
  predicate Paced(plan: Plan, from: real, snaps: seq<Snapshot>)
    decreases |snaps|
  {
    snaps == []
    || (var before, s := snaps[..|snaps| - 1], snaps[|snaps| - 1];
        Paced(plan, from, before) && !s.filled && s.brokerHealthy
        && s.observedAt >= LastAt(from, before) + plan.reprice)
  }

  function LastAt(from: real, snaps: seq<Snapshot>): real {
    if snaps == [] then from else snaps[|snaps| - 1].observedAt
  }

  function Walked(plan: Plan, attempt: nat, steps: nat): nat
    requires plan.buffers != []
  {
    if attempt + steps < |plan.buffers| then attempt + steps else |plan.buffers| - 1
  }

  /** Once a triggered stop has commanded, every such snapshot replaces the order at the next buffer, until the last
      one is reached and kept. */
  lemma {:induction false} WalksBuffers(plan: Plan, snaps: seq<Snapshot>, more: seq<Snapshot>)
    requires plan.Valid()
    requires var r := EngineRun(plan, snaps);
             r.triggeredAt.Some? && r.completedAt.None? && r.lastCommandAt.Some?
             && Paced(plan, r.lastCommandAt.value, more)
    ensures var r, r' := EngineRun(plan, snaps), EngineRun(plan, snaps + more);
            r'.attempt == Walked(plan, r.attempt, |more|) && r'.triggeredAt.Some? && r'.completedAt.None?
            && r'.lastCommandAt == Some(LastAt(r.lastCommandAt.value, more))
    ensures more != [] ==>
              Evaluate(plan, EngineRun(plan, snaps + more[..|more| - 1]), more[|more| - 1]).action == CancelReplaceExit
    decreases |more|
  {
    if more == [] {
      assert snaps + more == snaps;
    } else {
      var last := |more| - 1;
      assert (snaps + more)[..|snaps + more| - 1] == snaps + more[..last];
      WalksBuffers(plan, snaps, more[..last]);
      RepricesIff(plan, EngineRun(plan, snaps + more[..last]), more[last]);
    }
  }
}
