/** When the stop controller stores and sends a command (execution/synthetic_stop_controller.py), and that a stop goes
    through every buffer while its position stays open. */
module SyntheticStopProgress {
  import opened Texts
  import opened SyntheticStop
  import opened SyntheticStopController

  /** Recovery gets past the stored command, if there is one: its lookup answers, and its order is bound, seen or placed
      again. */
  predicate GetsPast(w: World, r: Record, e: Env) {
    r.clientId.Some? ==>
      !e.recoverLookup.LookupRaised?
      && (r.brokerId.Some? || (e.recoverLookup.Visible? && r.clientId.value in w.orders) || e.recoverReply.Placed?)
  }

  /** The tick asks for a new exit order and nothing on the way raises. */
  predicate Sends(w: World, plan: Plan, s: Snapshot, e: Env)
    requires plan.planId in w.rows
  {
    var r := w.rows[plan.planId];
    e.authorized && GetsPast(w, r, e) && e.position.Some? && e.position.value > 0 && CommandDue(plan, r.runtime, s)
    && !(r.runtime.lastCommandAt.Some? && r.clientId.Some? && e.cancelRaises)
  }

  lemma RecoveryGetsPast(w: World, key: string, e: Env)
    requires Inv(w) && key in w.rows && RecordInv(w, key, w.rows[key])
    ensures var r := w.rows[key];
            var (w1, r1) := Recovered(w, r, e);
            (r1.Some? <==> GetsPast(w, r, e)) && w1.saved == w.saved
            && (r1.Some? ==> r1.value == r.(brokerId := r1.value.brokerId) && (r1.value.brokerId.Some? <==> r.clientId.Some?))
  {
  }

  lemma SubmittedSaves(w: World, r: Record, runtime: Runtime, limit: int, qty: int, e: Env)
    ensures var w' := Submitted(w, r, runtime, limit, qty, e);
            w'.saved == w.saved + [Outbox(IdOf(r.plan, runtime.attempt), qty, limit)]
            && r.plan.planId in w'.rows && w'.rows[r.plan.planId].runtime == runtime
            && w'.rows[r.plan.planId].plan == r.plan
            && w'.rows[r.plan.planId].clientId == Some(IdOf(r.plan, runtime.attempt))
            && (!e.lookup.LookupRaised? && e.reply.Placed? ==> IdOf(r.plan, runtime.attempt) in w'.orders)
  {
  }

  lemma DecisionSaves(w: World, r: Record, s: Snapshot, e: Env)
    requires RuntimeInv(r.plan, r.runtime) && e.authorized && (r.brokerId.Some? <==> r.clientId.Some?)
    ensures var w', d := Decided(w, r, s, e), Evaluate(r.plan, r.runtime, s);
            var sends := e.position.Some? && e.position.value > 0 && CommandDue(r.plan, r.runtime, s)
                         && !(r.runtime.lastCommandAt.Some? && r.clientId.Some? && e.cancelRaises);
            if sends then d.limit.Some? && w' == Submitted(w, r, d.runtime, d.limit.value, e.position.value, e)
            else w'.saved == w.saved
  {
    CommandsIff(r.plan, r.runtime, s);
    CommandsIff(r.plan, r.runtime, s.(filled := true));
    EvaluateKeeps(r.plan, r.runtime, s);
  }

  /** A tick stores a new command exactly when it sends: one, for the position's shares, at the due buffer's limit. */
  lemma TickSendsIff(w: World, plan: Plan, s: Snapshot, e: Env)
    requires plan.Valid() && Inv(w) && plan.planId in w.rows && w.rows[plan.planId].plan == plan
    ensures RuntimeInv(plan, w.rows[plan.planId].runtime)
    ensures Tick(w, plan, s, e).saved
         == if !Sends(w, plan, s, e) then w.saved
            else var attempt := DueAttempt(plan, w.rows[plan.planId].runtime, s);
                 w.saved + [Outbox(IdOf(plan, attempt), e.position.value, SellLimit(s.bid, plan.buffers[attempt]))]
    ensures Sends(w, plan, s, e) ==> SentAs(w, plan, s, e)
  {
    var r := w.rows[plan.planId];
    assert RecordInv(w, plan.planId, r);
    if e.authorized {
      RecoveryGetsPast(w, plan.planId, e);
      var (w1, r1) := Recovered(w, r, e);
      if r1.Some? {
        DecisionSaves(w1, r1.value, s, e);
        CommandsIff(plan, r.runtime, s);
        LimitIsDue(plan, r.runtime, s);
        if Sends(w, plan, s, e) {
          var d := Evaluate(plan, r.runtime, s);
          SubmittedSaves(w1, r1.value, d.runtime, d.limit.value, e.position.value, e);
        }
      }
    } else {
      CommandsIff(plan, r.runtime, s);
    }
  }

  /** What the ledger and the broker have after a tick that sends. */
  predicate SentAs(w: World, plan: Plan, s: Snapshot, e: Env)
    requires plan.Valid() && plan.planId in w.rows && RuntimeInv(plan, w.rows[plan.planId].runtime)
  {
    var attempt, w' := DueAttempt(plan, w.rows[plan.planId].runtime, s), Tick(w, plan, s, e);
    plan.planId in w'.rows && w'.rows[plan.planId].plan == plan && w'.rows[plan.planId].runtime.attempt == attempt
    && w'.rows[plan.planId].runtime.lastCommandAt == Some(s.observedAt)
    && w'.rows[plan.planId].runtime.triggeredAt.Some? && w'.rows[plan.planId].runtime.completedAt.None?
    && w'.rows[plan.planId].clientId == Some(IdOf(plan, attempt))
    && (!e.lookup.LookupRaised? && e.reply.Placed? ==> IdOf(plan, attempt) in w'.orders)
  }

  lemma LimitIsDue(plan: Plan, r: Runtime, s: Snapshot)
    requires RuntimeInv(plan, r)
    ensures CommandDue(plan, r, s) ==>
              Evaluate(plan, r, s).limit == Some(SellLimit(s.bid, plan.buffers[DueAttempt(plan, r, s)]))
              && Evaluate(plan, r, s).runtime.completedAt.None? && Evaluate(plan, r, s).runtime.triggeredAt.Some?
  {
  }

  // ---- a run that reaches the last buffer ----

  /** The tick may write, its calls answer, shares are held, and the broker is healthy. */
  predicate Works(t: Turn) {
    t.env.authorized && !t.env.recoverLookup.LookupRaised? && t.env.recoverReply.Placed?
    && t.env.position.Some? && t.env.position.value > 0 && !t.env.cancelRaises
    && !t.env.lookup.LookupRaised? && t.env.reply.Placed? && !t.snapshot.filled && t.snapshot.brokerHealthy
  }

  predicate WorkingTurns(plan: Plan, from: real, turns: seq<Turn>)
    decreases |turns|
  {
    turns == []
    || (var before, t := turns[..|turns| - 1], turns[|turns| - 1];
        WorkingTurns(plan, from, before) && Works(t)
        && t.snapshot.observedAt >= LastTurnAt(from, before) + plan.reprice)
  }

  function LastTurnAt(from: real, turns: seq<Turn>): real {
    if turns == [] then from else turns[|turns| - 1].snapshot.observedAt
  }

  /** The plan's stop is triggered, has commanded at this time and is not over. */
  predicate Commanded(w: World, plan: Plan, at: real) {
    plan.planId in w.rows && w.rows[plan.planId].plan == plan
    && var r := w.rows[plan.planId].runtime;
       r.triggeredAt.Some? && r.completedAt.None? && r.lastCommandAt == Some(at)
  }

  /** One command more, at the next buffer, with its order at the broker. */
  predicate StepsOn(w: World, w': World, plan: Plan, at: real)
    requires plan.planId in w.rows && w.rows[plan.planId].runtime.attempt < |plan.buffers|
  {
    var next := NextAttempt(plan, w.rows[plan.planId].runtime.attempt);
    Inv(w') && Commanded(w', plan, at) && |w'.saved| == |w.saved| + 1
    && w'.rows[plan.planId].runtime.attempt == next && IdOf(plan, next) in w'.orders
    && forall id :: id in w.orders ==> id in w'.orders
  }

  lemma WorkingTickReplaces(w: World, plan: Plan, at: real, t: Turn)
    requires plan.Valid() && Inv(w) && Commanded(w, plan, at) && Works(t)
    requires t.snapshot.observedAt >= at + plan.reprice
    ensures w.rows[plan.planId].runtime.attempt < |plan.buffers|
    ensures StepsOn(w, Tick(w, plan, t.snapshot, t.env), plan, t.snapshot.observedAt)
  {
    assert RecordInv(w, plan.planId, w.rows[plan.planId]);
    assert Sends(w, plan, t.snapshot, t.env);
    TickSendsIff(w, plan, t.snapshot, t.env);
    TickKeeps(w, plan, t.snapshot, t.env);
  }

  /** Steps further through the buffers from an attempt, the plan's stop has reached the right one and the broker has its
      order at each on the way. */
  predicate Tries(w: World, plan: Plan, at: real, from: nat, steps: nat)
    requires plan.Valid()
  {
    Inv(w) && Commanded(w, plan, at) && w.rows[plan.planId].runtime.attempt == Walked(plan, from, steps)
    && forall k: nat :: from < k <= Walked(plan, from, steps) ==> IdOf(plan, k) in w.orders
  }

  lemma TriesOneMore(w: World, w': World, plan: Plan, at: real, at': real, from: nat, steps: nat)
    requires plan.Valid() && from < |plan.buffers| && Tries(w, plan, at, from, steps) && StepsOn(w, w', plan, at')
    ensures Tries(w', plan, at', from, steps + 1)
  {
  }

  /** Ticks that work, a delay apart, send an order at every following buffer, until the last one is reached, and save
      one command each. */
  lemma {:induction false} EveryBufferIsTried(w: World, plan: Plan, at: real, turns: seq<Turn>, from: nat)
    requires plan.Valid() && forall i :: 0 <= i < |turns| ==> turns[i].plan == plan
    requires Inv(w) && Commanded(w, plan, at) && w.rows[plan.planId].runtime.attempt == from
    requires WorkingTurns(plan, at, turns)
    ensures from < |plan.buffers|
    ensures Tries(Run(w, turns), plan, LastTurnAt(at, turns), from, |turns|)
    ensures |Run(w, turns).saved| == |w.saved| + |turns|
    decreases |turns|
  {
    assert RecordInv(w, plan.planId, w.rows[plan.planId]);
    if turns != [] {
      var before, t := turns[..|turns| - 1], turns[|turns| - 1];
      assert forall i :: 0 <= i < |before| ==> before[i] == turns[i];
      EveryBufferIsTried(w, plan, at, before, from);
      var v := Run(w, before);
      WorkingTickReplaces(v, plan, LastTurnAt(at, before), t);
      TriesOneMore(v, Run(w, turns), plan, LastTurnAt(at, before), t.snapshot.observedAt, from, |before|);
    }
  }
}
