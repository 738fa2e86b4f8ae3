/** What the synthetic stop's ledger says of the broker's orders: each order carries the quantity and limit of the
    first command saved under its client ID, below the last attempt that is the stored command, and at the last one
    a tick's inputs decide whether it stays so. */
module SyntheticStopOrders {
  import opened Texts
  import opened SyntheticStop
  import opened SyntheticStopController

  /** The first command saved under a client ID. */
  function FirstSaved(saved: seq<Outbox>, id: StopId): Option<Outbox> {
    if saved == [] then None
    else
      var rest, last := FirstSaved(saved[..|saved| - 1], id), saved[|saved| - 1];
      if rest.Some? then rest else if last.id == id then Some(last) else None
  }

  lemma FirstSavedGrows(saved: seq<Outbox>, o: Outbox, id: StopId)
    ensures FirstSaved(saved + [o], id)
         == if FirstSaved(saved, id).Some? then FirstSaved(saved, id) else if o.id == id then Some(o) else None
  {
    assert (saved + [o])[..|saved|] == saved;
  }

  function StoredCommand(r: Record): Option<Outbox> {
    if r.clientId.Some? && r.qty.Some? && r.limit.Some? then Some(Outbox(r.clientId.value, r.qty.value, r.limit.value))
    else None
  }

  /** A broker order carries the first command saved under its ID. */
  predicate CarriesFirst(w: World, id: StopId)
    requires id in w.orders
  {
    FirstSaved(w.saved, id) == Some(Outbox(id, w.orders[id].qty, w.orders[id].limit))
  }

  /** A command has been stored exactly when the engine remembers one; until the broker has its order, and below the
      last attempt always, the stored command is the first under its ID; a stored broker ID is that order's. */
  predicate RowFaithful(w: World, r: Record) {
    (r.clientId.Some? <==> r.runtime.lastCommandAt.Some?)
    && (r.clientId.Some? && (r.clientId.value !in w.orders || r.runtime.attempt + 1 < |r.plan.buffers|) ==>
          FirstSaved(w.saved, r.clientId.value) == StoredCommand(r))
    && (r.brokerId.Some? ==>
          r.clientId.Some? && r.clientId.value in w.orders && r.brokerId == Some(w.orders[r.clientId.value].orderId))
  }

  /** Nothing is saved under an attempt a plan has not reached, or for a plan without a command. */
  predicate NothingAhead(w: World, id: StopId) {
    FirstSaved(w.saved, id).Some? ==>
      id.planId in w.rows && w.rows[id.planId].clientId.Some? && id.attempt <= w.rows[id.planId].runtime.attempt
  }

  ghost predicate Faithful(w: World) {
    (forall id :: id in w.orders ==> CarriesFirst(w, id))
    && (forall key :: key in w.rows ==> RowFaithful(w, w.rows[key]))
    && (forall id {:trigger NothingAhead(w, id)} :: NothingAhead(w, id))
  }

  // ---- the single moves ----

  /** A write of the stored command creates its order or returns it. */
  lemma WriteStaysFaithful(w: World, key: string, reply: Reply)
    requires Inv(w) && Faithful(w) && key in w.rows && w.rows[key].clientId.Some?
    ensures var r := w.rows[key];
            var (w', order) := Written(w, Outbox(r.clientId.value, r.qty.value, r.limit.value), reply);
            Faithful(w') && w'.rows == w.rows && w'.saved == w.saved
            && (order.Some? ==> r.clientId.value in w'.orders && order.value == w'.orders[r.clientId.value])
  {
    var r := w.rows[key];
    assert RecordInv(w, key, r) && RowFaithful(w, r);
    var w' := Written(w, Outbox(r.clientId.value, r.qty.value, r.limit.value), reply).0;
    forall id | id in w'.orders ensures CarriesFirst(w', id) {
      if id in w.orders { assert CarriesFirst(w, id); }
    }
    forall k | k in w'.rows ensures RowFaithful(w', w'.rows[k]) { assert RowFaithful(w, w.rows[k]); }
    forall id ensures NothingAhead(w', id) { assert NothingAhead(w, id); }
  }

  /** A row overwritten by one that is faithful, of the same plan, no less advanced and still with its command. */
  lemma SaveStaysFaithful(w: World, key: string, r: Record)
    requires Inv(w) && Faithful(w) && r.plan.planId == key && RowFaithful(w, r)
    requires key in w.rows ==> w.rows[key].runtime.attempt <= r.runtime.attempt
                               && (w.rows[key].clientId.Some? ==> r.clientId.Some?)
    ensures Faithful(Saved(w, r))
  {
    var w' := Saved(w, r);
    forall id | id in w'.orders ensures CarriesFirst(w', id) { assert CarriesFirst(w, id); }
    forall k | k in w'.rows ensures RowFaithful(w', w'.rows[k]) {
      if k != key { assert RowFaithful(w, w.rows[k]); }
    }
    forall id ensures NothingAhead(w', id) { assert NothingAhead(w, id); }
  }

  lemma BindStaysFaithful(w: World, key: string)
    requires Inv(w) && Faithful(w) && key in w.rows && w.rows[key].clientId.Some?
    requires w.rows[key].clientId.value in w.orders
    ensures var r := w.rows[key];
            Faithful(Saved(w, r.(brokerId := Some(w.orders[r.clientId.value].orderId))))
  {
    var r := w.rows[key];
    assert RecordInv(w, key, r) && RowFaithful(w, r);
    SaveStaysFaithful(w, key, r.(brokerId := Some(w.orders[r.clientId.value].orderId)));
  }

  // ---- recovery ----

  lemma ResendStaysFaithful(w: World, key: string, reply: Reply)
    requires Inv(w) && Faithful(w) && key in w.rows && w.rows[key].clientId.Some?
    ensures var r := w.rows[key];
            var (w1, order) := Written(w, Outbox(r.clientId.value, r.qty.value, r.limit.value), reply);
            Inv(w1) && Faithful(w1)
            && (order.Some? ==> r.clientId.value in w1.orders
                                && Faithful(Saved(w1, r.(brokerId := Some(order.value.orderId)))))
  {
    var r := w.rows[key];
    WriteKeeps(w, key, reply);
    WriteStaysFaithful(w, key, reply);
    var (w1, order) := Written(w, Outbox(r.clientId.value, r.qty.value, r.limit.value), reply);
    if order.Some? { BindStaysFaithful(w1, key); }
  }

  /** After a recovery that goes on, a stored command has its order at the broker. */
  lemma RecoverStaysFaithful(w: World, key: string, e: Env)
    requires Inv(w) && Faithful(w) && key in w.rows
    ensures var (w', r') := Recovered(w, w.rows[key], e);
            Faithful(w')
            && (r'.Some? && r'.value.clientId.Some? ==> r'.value.clientId.value in w'.orders)
  {
    var r := w.rows[key];
    assert RecordInv(w, key, r) && RowFaithful(w, r);
    if r.clientId.Some? && !e.recoverLookup.LookupRaised? {
      var seen := Found(w, r.clientId.value, e.recoverLookup);
      if seen.None? && r.brokerId.None? {
        ResendStaysFaithful(w, key, e.recoverReply);
      } else if seen.Some? {
        BindStaysFaithful(w, key);
      }
    }
  }

  // ---- a new command ----

  /** The new command's ID is either unused or that of the last attempt, whose order the broker already has. */
  predicate FreshOrLast(w: World, r: Record, runtime: Runtime) {
    var id := IdOf(r.plan, runtime.attempt);
    if FirstSaved(w.saved, id).Some? then runtime.attempt + 1 == |r.plan.buffers| && id in w.orders
    else id !in w.orders
  }

  lemma SavedOutboxStaysFaithful(w: World, key: string, runtime: Runtime, limit: int, qty: int)
    requires Inv(w) && Faithful(w) && key in w.rows && w.rows[key].plan.planId == key
    requires w.rows[key].runtime.attempt <= runtime.attempt && runtime.lastCommandAt.Some?
    requires FreshOrLast(w, w.rows[key], runtime)
    ensures var r, id := w.rows[key], IdOf(w.rows[key].plan, runtime.attempt);
            Faithful(SavedOutbox(w, Record(r.plan, runtime, Some(id), None, Some(limit), Some(qty)), Outbox(id, qty, limit)))
  {
    var r, id := w.rows[key], IdOf(w.rows[key].plan, runtime.attempt);
    var o := Outbox(id, qty, limit);
    var w' := SavedOutbox(w, Record(r.plan, runtime, Some(id), None, Some(limit), Some(qty)), o);
    forall x | x in w'.orders ensures CarriesFirst(w', x) {
      assert CarriesFirst(w, x);
      FirstSavedGrows(w.saved, o, x);
    }
    FirstSavedGrows(w.saved, o, id);
    forall k | k in w'.rows ensures RowFaithful(w', w'.rows[k]) {
      if k != key { OtherRowFaithful(w, k, key, o); }
    }
    forall x ensures NothingAhead(w', x) {
      assert NothingAhead(w, x);
      FirstSavedGrows(w.saved, o, x);
    }
  }

  /** A command of another plan leaves a row faithful. */
  lemma OtherRowFaithful(w: World, k: string, key: string, o: Outbox)
    requires Inv(w) && Faithful(w) && k in w.rows && k != key && o.id.planId == key
    ensures RowFaithful(w.(saved := w.saved + [o]), w.rows[k])
  {
    var r := w.rows[k];
    assert RecordInv(w, k, r) && RowFaithful(w, r);
    if r.clientId.Some? { FirstSavedGrows(w.saved, o, r.clientId.value); }
  }

  lemma SubmitStaysFaithful(w: World, key: string, runtime: Runtime, limit: int, qty: int, e: Env)
    requires Inv(w) && Faithful(w) && key in w.rows && RecordInv(w, key, w.rows[key])
    requires var r := w.rows[key];
             RuntimeInv(r.plan, runtime) && runtime.triggeredAt.Some? && r.runtime.attempt <= runtime.attempt
             && (r.runtime.triggeredAt.Some? ==> runtime.triggeredAt == r.runtime.triggeredAt)
             && (r.runtime.completedAt.Some? ==> runtime.completedAt == r.runtime.completedAt)
    requires runtime.lastCommandAt.Some? && FreshOrLast(w, w.rows[key], runtime)
    ensures Faithful(Submitted(w, w.rows[key], runtime, limit, qty, e))
  {
    var r, id := w.rows[key], IdOf(w.rows[key].plan, runtime.attempt);
    var pending := Record(r.plan, runtime, Some(id), None, Some(limit), Some(qty));
    var w1 := SavedOutbox(w, pending, Outbox(id, qty, limit));
    SavedOutboxStaysFaithful(w, key, runtime, limit, qty);
    SaveKeeps(w, pending, w1.saved);
    if !e.lookup.LookupRaised? {
      if Found(w1, id, e.lookup).Some? {
        BindStaysFaithful(w1, key);
      } else {
        ResendStaysFaithful(w1, key, e.reply);
      }
    }
  }

  // ---- decisions and ticks ----

  /** When a decision commands, and what it remembers of it. */
  lemma CommandMoves(plan: Plan, r: Runtime, s: Snapshot)
    requires RuntimeInv(plan, r)
    ensures var d := Evaluate(plan, r, s);
            (d.runtime.lastCommandAt.Some? <==> r.lastCommandAt.Some? || Commands(d.action))
            && (Commands(d.action) ==>
                  r.lastCommandAt.None? || d.runtime.attempt == r.attempt + 1
                  || d.runtime.attempt == r.attempt == |plan.buffers| - 1)
  {}

  lemma NewIdIsFreshOrLast(w: World, key: string, runtime: Runtime)
    requires Inv(w) && Faithful(w) && key in w.rows && RecordInv(w, key, w.rows[key])
    requires w.rows[key].clientId.Some? ==> w.rows[key].clientId.value in w.orders
    requires var r := w.rows[key];
             r.runtime.lastCommandAt.None? || runtime.attempt == r.runtime.attempt + 1
             || runtime.attempt == r.runtime.attempt == |r.plan.buffers| - 1
    ensures FreshOrLast(w, w.rows[key], runtime)
  {
    var r, id := w.rows[key], IdOf(w.rows[key].plan, runtime.attempt);
    assert RowFaithful(w, r);
    assert NothingAhead(w, id);
    if id in w.orders { assert CarriesFirst(w, id); }
  }

  lemma DecideStaysFaithful(w: World, key: string, s: Snapshot, e: Env)
    requires Inv(w) && Faithful(w) && key in w.rows && RecordInv(w, key, w.rows[key])
    requires e.authorized && w.rows[key].clientId.Some? ==> w.rows[key].clientId.value in w.orders
    ensures Faithful(Decided(w, w.rows[key], s, e))
  {
    var r := w.rows[key];
    if e.position.Some? {
      var s' := if e.position.value == 0 then s.(filled := true) else s;
      var d := Evaluate(r.plan, r.runtime, s');
      DecisionMoves(r.plan, r.runtime, s');
      CommandMoves(r.plan, r.runtime, s');
      CarryOutStaysFaithful(w, key, d, e);
    }
  }

  lemma CarryOutStaysFaithful(w: World, key: string, d: Decision, e: Env)
    requires Inv(w) && Faithful(w) && key in w.rows && RecordInv(w, key, w.rows[key]) && e.position.Some?
    requires Moves(w.rows[key].plan, w.rows[key].runtime, d)
    requires e.authorized && w.rows[key].clientId.Some? ==> w.rows[key].clientId.value in w.orders
    requires var r := w.rows[key].runtime;
             (d.runtime.lastCommandAt.Some? <==> r.lastCommandAt.Some? || Commands(d.action))
             && (Commands(d.action) ==>
                   r.lastCommandAt.None? || d.runtime.attempt == r.attempt + 1
                   || d.runtime.attempt == r.attempt == |w.rows[key].plan.buffers| - 1)
    ensures Faithful(CarriedOut(w, w.rows[key], d, e))
  {
    var r := w.rows[key];
    assert RowFaithful(w, r);
    if !Commands(d.action) {
      SaveStaysFaithful(w, key, r.(runtime := d.runtime));
    } else if e.authorized && e.position.value != 0 {
      NewIdIsFreshOrLast(w, key, d.runtime);
      SubmitStaysFaithful(w, key, d.runtime, d.limit.value, e.position.value, e);
    }
  }

  lemma WorkStaysFaithful(w: World, key: string, s: Snapshot, e: Env)
    requires Inv(w) && Faithful(w) && key in w.rows && w.rows[key].plan.Valid()
    ensures Faithful(Worked(w, w.rows[key], s, e))
  {
    assert RecordInv(w, key, w.rows[key]);
    if e.authorized {
      RecoverKeeps(w, key, e);
      RecoverStaysFaithful(w, key, e);
      var (w1, r1) := Recovered(w, w.rows[key], e);
      if r1.Some? {
        assert RecordInv(w1, key, w1.rows[key]);
        DecideStaysFaithful(w1, key, s, e);
      }
    } else {
      DecideStaysFaithful(w, key, s, e);
    }
  }

  lemma TickStaysFaithful(w: World, plan: Plan, s: Snapshot, e: Env)
    requires Inv(w) && Faithful(w) && plan.Valid()
    ensures Faithful(Tick(w, plan, s, e))
  {
    EnsureKeeps(w, plan);
    var w1 := Ensured(w, plan);
    if plan.planId !in w.rows { SaveStaysFaithful(w, plan.planId, Record(plan, INITIAL, None, None, None, None)); }
    if w1.rows[plan.planId].plan == plan { WorkStaysFaithful(w1, plan.planId, s, e); }
  }

  lemma {:induction false} RunStaysFaithful(w: World, turns: seq<Turn>)
    requires Inv(w) && Faithful(w) && forall i :: 0 <= i < |turns| ==> turns[i].plan.Valid()
    ensures Inv(Run(w, turns)) && Faithful(Run(w, turns))
    decreases |turns|
  {
    if turns != [] {
      var t, before := turns[|turns| - 1], turns[..|turns| - 1];
      RunStaysFaithful(w, before);
      TickKeeps(Run(w, before), t.plan, t.snapshot, t.env);
      TickStaysFaithful(Run(w, before), t.plan, t.snapshot, t.env);
    }
  }

  predicate Matches(r: Record, order: BrokerOrder) { r.qty == Some(order.qty) && r.limit == Some(order.limit) }

  /** Over every run from an empty ledger, whatever raises or crashes in it: every broker order carries the first
      command saved under its client ID, and the stored quantity and limit of a row are its order's as long as a higher
      attempt is left. */
  lemma StoredCommandIsBrokers(turns: seq<Turn>, key: string)
    requires forall i :: 0 <= i < |turns| ==> turns[i].plan.Valid()
    requires key in Run(EMPTY, turns).rows && Run(EMPTY, turns).rows[key].clientId.Some?
    requires Run(EMPTY, turns).rows[key].clientId.value in Run(EMPTY, turns).orders
    ensures var w := Run(EMPTY, turns);
            var r := w.rows[key];
            var order := w.orders[r.clientId.value];
            CarriesFirst(w, r.clientId.value)
            && (r.runtime.attempt + 1 < |r.plan.buffers| ==> Matches(r, order))
            && (r.brokerId.Some? ==> r.brokerId == Some(order.orderId))
  {
    assert forall id :: NothingAhead(EMPTY, id);
    RunStaysFaithful(EMPTY, turns);
    var w := Run(EMPTY, turns);
    assert RecordInv(w, key, w.rows[key]) && RowFaithful(w, w.rows[key]);
    assert CarriesFirst(w, w.rows[key].clientId.value);
  }

  // ---- the last attempt ----

  /** A plan's row is at its last attempt, with that attempt's order at the broker. */
  predicate AtLast(w: World, key: string) {
    key in w.rows && w.rows[key].clientId.Some? && w.rows[key].clientId.value in w.orders
    && w.rows[key].runtime.attempt + 1 == |w.rows[key].plan.buffers|
  }

  /** Recovery gets past the stored command: its lookup answers, and the order is bound, seen or placed again. */
  predicate Recovers(r: Record, e: Env) {
    !e.recoverLookup.LookupRaised? && (r.brokerId.Some? || e.recoverLookup.Visible? || e.recoverReply.Placed?)
  }

  /** A command older than the reprice delay is replaced: writes are allowed, recovery and the cancellation succeed, the
      broker is healthy, and shares are still held. */
  predicate Reprices(r: Record, s: Snapshot, e: Env) {
    e.authorized && Recovers(r, e) && !e.cancelRaises && e.position.Some? && e.position.value > 0
    && !s.filled && r.runtime.completedAt.None? && s.brokerHealthy
    && r.runtime.lastCommandAt.Some? && s.observedAt - r.runtime.lastCommandAt.value >= r.plan.reprice
  }

  /** At the last attempt recovery touches nothing but the stored broker ID, which it leaves known if it goes on. */
  lemma RecoverAtLast(w: World, key: string, e: Env)
    requires Inv(w) && AtLast(w, key)
    ensures var r := w.rows[key];
            var (w1, r1) := Recovered(w, r, e);
            w1.orders == w.orders && key in w1.rows && w1.rows[key] == r.(brokerId := w1.rows[key].brokerId)
            && (r1.Some? <==> Recovers(r, e))
            && (r1.Some? ==> r1.value == w1.rows[key] && r1.value.brokerId.Some?)
  {
    var r := w.rows[key];
    assert RecordInv(w, key, r);
    var id := r.clientId.value;
    assert w.orders[id := w.orders[id]] == w.orders;
  }

  /** What a tick's decision does to such a row and its order. */
  predicate LeavesAtLast(w: World, key: string, s: Snapshot, e: Env, repriced: bool, w': World) {
    AtLast(w, key) && key in w'.rows && w.rows[key].clientId.value in w'.orders
    && w'.orders[w.rows[key].clientId.value] == w.orders[w.rows[key].clientId.value]
    && w'.rows[key].clientId == w.rows[key].clientId && w'.rows[key].plan == w.rows[key].plan
    && (if repriced then
          e.position.Some? && w'.rows[key].qty == Some(e.position.value)
          && w'.rows[key].limit == Some(SellLimit(s.bid, w.rows[key].plan.buffers[w.rows[key].runtime.attempt]))
        else w'.rows[key].qty == w.rows[key].qty && w'.rows[key].limit == w.rows[key].limit)
  }

  /** The saved replacement names the old order's ID, so whatever the broker answers its order stays as it is. */
  lemma SubmitAtLast(w: World, key: string, runtime: Runtime, limit: int, qty: int, e: Env)
    requires Inv(w) && AtLast(w, key) && runtime.attempt == w.rows[key].runtime.attempt
    ensures var r, id := w.rows[key], w.rows[key].clientId.value;
            var w' := Submitted(w, r, runtime, limit, qty, e);
            key in w'.rows && id in w'.orders && w'.orders[id] == w.orders[id] && w'.rows[key].clientId == Some(id)
            && w'.rows[key].plan == r.plan && w'.rows[key].qty == Some(qty) && w'.rows[key].limit == Some(limit)
  {
    assert RecordInv(w, key, w.rows[key]);
  }

  lemma DecideAtLast(w: World, key: string, s: Snapshot, e: Env)
    requires Inv(w) && AtLast(w, key) && w.rows[key].runtime.lastCommandAt.Some?
    requires w.rows[key].plan.Valid() && w.rows[key].runtime.attempt < |w.rows[key].plan.buffers|
    requires e.authorized ==> w.rows[key].brokerId.Some? && Recovers(w.rows[key], e)
    ensures LeavesAtLast(w, key, s, e, Reprices(w.rows[key], s, e), Decided(w, w.rows[key], s, e))
  {
    var r := w.rows[key];
    assert RecordInv(w, key, r);
    if e.position.Some? {
      var s' := if e.position.value == 0 then s.(filled := true) else s;
      var d := Evaluate(r.plan, r.runtime, s');
      if Commands(d.action) && e.authorized && e.position.value > 0 && !e.cancelRaises {
        SubmitAtLast(w, key, d.runtime, d.limit.value, e.position.value, e);
      }
    }
  }

  lemma WorkAtLast(w: World, key: string, s: Snapshot, e: Env)
    requires Inv(w) && Faithful(w) && AtLast(w, key) && w.rows[key].plan.Valid()
    ensures LeavesAtLast(w, key, s, e, Reprices(w.rows[key], s, e), Worked(w, w.rows[key], s, e))
  {
    var r := w.rows[key];
    assert RecordInv(w, key, r) && RowFaithful(w, r);
    if e.authorized {
      RecoverKeeps(w, key, e);
      RecoverAtLast(w, key, e);
      var (w1, r1) := Recovered(w, r, e);
      if r1.Some? { DecideAtLast(w1, key, s, e); }
    } else {
      DecideAtLast(w, key, s, e);
    }
  }

  /** At the last attempt the stored command is the broker's after a tick exactly when the tick replaces it by the
      order's own quantity and limit, or does not replace it and it was the broker's before. */
  lemma LastAttemptMatchesIff(w: World, plan: Plan, s: Snapshot, e: Env)
    requires plan.Valid() && Inv(w) && Faithful(w) && AtLast(w, plan.planId) && w.rows[plan.planId].plan == plan
    ensures var r, w' := w.rows[plan.planId], Tick(w, plan, s, e);
            var order := w.orders[r.clientId.value];
            AtLast(w', plan.planId) && w'.rows[plan.planId].clientId == r.clientId
            && w'.orders[r.clientId.value] == order
            && (Matches(w'.rows[plan.planId], order)
                <==> if Reprices(r, s, e) then
                       e.position.value == order.qty && SellLimit(s.bid, plan.buffers[r.runtime.attempt]) == order.limit
                     else Matches(r, order))
  {
    TickKeeps(w, plan, s, e);
    WorkAtLast(w, plan.planId, s, e);
    assert RecordInv(w, plan.planId, w.rows[plan.planId]);
    assert RecordInv(Tick(w, plan, s, e), plan.planId, Tick(w, plan, s, e).rows[plan.planId]);
  }
}
