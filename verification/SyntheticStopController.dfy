/** The crash-recoverable outbox around the stop engine (execution/synthetic_stop_controller.py).
    A broker call that raises stands for a crash at that point as well: the controller holds nothing in
    memory between ticks, so in both cases only the ledger rows and the broker's orders remain. */
module SyntheticStopController {
  import opened Texts
  import opened SyntheticStop

  /** The client order ID; the plan digest is taken as injective. */
  datatype StopId = StopId(symbol: string, planId: string, attempt: nat)

  datatype Outbox = Outbox(id: StopId, qty: int, limit: int)
  datatype Record = Record(plan: Plan, runtime: Runtime, clientId: Option<StopId>, brokerId: Option<string>,
                           limit: Option<int>, qty: Option<int>)
  datatype BrokerOrder = BrokerOrder(orderId: string, qty: int, limit: int)

  /** orders: accepted by the broker; writes: every submission call; saved: every outbox command ever
      stored, which no decision reads. */
  datatype World = World(rows: map<string, Record>, orders: map<StopId, BrokerOrder>,
                         writes: seq<Outbox>, saved: seq<Outbox>)

  /** Hidden: the broker answers that it knows no such order, whether or not it does. */
  datatype Lookup = Visible | Hidden | LookupRaised
  /** LostBefore and LostAfter: the call raised before or after the broker took the order. */
  datatype Reply = Placed(orderId: string) | LostBefore | LostAfter(orderId: string)
  datatype Env = Env(authorized: bool, recoverLookup: Lookup, recoverReply: Reply, position: Option<nat>,
                     cancelRaises: bool, lookup: Lookup, reply: Reply)

  function IdOf(plan: Plan, attempt: nat): StopId { StopId(plan.symbol, plan.planId, attempt) }

  function Found(w: World, id: StopId, lookup: Lookup): Option<BrokerOrder> {
    if lookup.Visible? && id in w.orders then Some(w.orders[id]) else None
  }

  /** submit_extended_limit_idempotent: a known client ID returns the order it already has. */
  function Written(w: World, o: Outbox, reply: Reply): (World, Option<BrokerOrder>) {
    var w1 := w.(writes := w.writes + [o]);
    if reply.LostBefore? then (w1, None)
    else
      var order := if o.id in w.orders then w.orders[o.id] else BrokerOrder(reply.orderId, o.qty, o.limit);
      (w1.(orders := w.orders[o.id := order]), if reply.Placed? then Some(order) else None)
  }

  function Saved(w: World, r: Record): World { w.(rows := w.rows[r.plan.planId := r]) }

  function SavedOutbox(w: World, r: Record, o: Outbox): World { Saved(w, r).(saved := w.saved + [o]) }

  /** The record to go on with, or None when a call raised. */
  function Recovered(w: World, r: Record, e: Env): (World, Option<Record>) {
    if r.clientId.None? then (w, Some(r))
    else if e.recoverLookup.LookupRaised? then (w, None)
    else
      var id := r.clientId.value;
      var seen := Found(w, id, e.recoverLookup);
      if seen.None? && r.brokerId.None? then
        if r.limit.None? || r.qty.None? then (w, None)
        else
          var (w1, order) := Written(w, Outbox(id, r.qty.value, r.limit.value), e.recoverReply);
          if order.None? then (w1, None)
          else
            var r1 := r.(brokerId := Some(order.value.orderId));
            (Saved(w1, r1), Some(r1))
      else if seen.None? || Some(seen.value.orderId) == r.brokerId then (w, Some(r))
      else
        var r1 := r.(brokerId := Some(seen.value.orderId));
        (Saved(w, r1), Some(r1))
  }

  function Submitted(w: World, r: Record, runtime: Runtime, limit: int, qty: int, e: Env): World {
    var id := IdOf(r.plan, runtime.attempt);
    var pending := Record(r.plan, runtime, Some(id), None, Some(limit), Some(qty));
    var w1 := SavedOutbox(w, pending, Outbox(id, qty, limit));
    if e.lookup.LookupRaised? then w1
    else
      var seen := Found(w1, id, e.lookup);
      if seen.Some? then Saved(w1, pending.(brokerId := Some(seen.value.orderId)))
      else
        var (w2, order) := Written(w1, Outbox(id, qty, limit), e.reply);
        if order.None? then w2 else Saved(w2, pending.(brokerId := Some(order.value.orderId)))
  }

  function Decided(w: World, r: Record, s: Snapshot, e: Env): World
    requires r.plan.Valid() && r.runtime.attempt < |r.plan.buffers|
  {
    if e.position.None? then w
    else CarriedOut(w, r, Evaluate(r.plan, r.runtime, if e.position.value == 0 then s.(filled := true) else s), e)
  }

  function CarriedOut(w: World, r: Record, d: Decision, e: Env): World
    requires e.position.Some?
  {
    if Commands(d.action) && !e.authorized then w
    else if d.action == CancelReplaceExit && r.brokerId.Some? && e.cancelRaises then w
    else if Commands(d.action) && d.limit.Some? then
      if e.position.value == 0 then w else Submitted(w, r, d.runtime, d.limit.value, e.position.value, e)
    else Saved(w, r.(runtime := d.runtime))
  }

  function Ensured(w: World, plan: Plan): World {
    if plan.planId in w.rows then w
    else Saved(w, Record(plan, INITIAL, None, None, None, None))
  }

  /** Recovery first, when writes are allowed, then the decision. */
  function Worked(w: World, r: Record, s: Snapshot, e: Env): World
    requires r.plan.Valid()
  {
    var (w1, r1) := if e.authorized then Recovered(w, r, e) else (w, Some(r));
    if r1.None? || !r1.value.plan.Valid() || r1.value.runtime.attempt >= |r1.value.plan.buffers| then w1
    else Decided(w1, r1.value, s, e)
  }

  function Tick(w: World, plan: Plan, s: Snapshot, e: Env): World
    requires plan.Valid()
  {
    var w1 := Ensured(w, plan);
    if w1.rows[plan.planId].plan != plan then w1 else Worked(w1, w1.rows[plan.planId], s, e)
  }

  // ---- invariants ----

  /** A stored command is the current attempt's, and was saved. */
  predicate RecordInv(w: World, key: string, r: Record) {
    r.plan.planId == key && RuntimeInv(r.plan, r.runtime)
    && (r.clientId.Some? ==>
          r.runtime.triggeredAt.Some? && r.clientId.value == IdOf(r.plan, r.runtime.attempt)
          && r.qty.Some? && r.limit.Some?
          && Outbox(r.clientId.value, r.qty.value, r.limit.value) in w.saved)
    && (r.clientId.None? ==> r.brokerId.None?)
  }

  /** A broker order belongs to a stored plan, at an attempt already reached, and is a saved command. */
  predicate OrderInv(w: World, id: StopId) {
    id in w.orders && id.planId in w.rows
    && id == IdOf(w.rows[id.planId].plan, id.attempt)
    && id.attempt <= w.rows[id.planId].runtime.attempt
    && Outbox(id, w.orders[id].qty, w.orders[id].limit) in w.saved
  }

  predicate Inv(w: World) {
    (forall key :: key in w.rows ==> RecordInv(w, key, w.rows[key]))
    && (forall id :: id in w.orders ==> OrderInv(w, id))
    && (forall i :: 0 <= i < |w.writes| ==> w.writes[i] in w.saved)
  }

  /** Triggers and completions stay, attempts do not fall, and nothing stored is forgotten. */
  predicate Advances(w: World, w': World) {
    (forall key :: key in w.rows ==>
       key in w'.rows && w'.rows[key].plan == w.rows[key].plan
       && w.rows[key].runtime.attempt <= w'.rows[key].runtime.attempt
       && (w.rows[key].runtime.triggeredAt.Some? ==>
             w'.rows[key].runtime.triggeredAt == w.rows[key].runtime.triggeredAt)
       && (w.rows[key].runtime.completedAt.Some? ==>
             w'.rows[key].runtime.completedAt == w.rows[key].runtime.completedAt))
    && w.writes <= w'.writes && w.saved <= w'.saved
    && (forall id :: id in w.orders ==> id in w'.orders && w'.orders[id] == w.orders[id])
  }

  /** Overwriting one row by a later runtime of the same plan. */
  lemma SaveKeeps(w: World, r: Record, saved: seq<Outbox>)
    requires Inv(w) && w.saved <= saved
    requires var key := r.plan.planId;
             RecordInv(w.(saved := saved), key, r)
             && (key in w.rows ==>
                   w.rows[key].plan == r.plan && w.rows[key].runtime.attempt <= r.runtime.attempt
                   && (w.rows[key].runtime.triggeredAt.Some? ==>
                         r.runtime.triggeredAt == w.rows[key].runtime.triggeredAt)
                   && (w.rows[key].runtime.completedAt.Some? ==>
                         r.runtime.completedAt == w.rows[key].runtime.completedAt))
    ensures Inv(Saved(w, r).(saved := saved)) && Advances(w, Saved(w, r).(saved := saved))
  {
    var w' := Saved(w, r).(saved := saved);
    forall id | id in w'.orders ensures OrderInv(w', id) { assert OrderInv(w, id); }
    forall key | key in w'.rows ensures RecordInv(w', key, w'.rows[key]) {
      if key in w.rows { assert RecordInv(w, key, w.rows[key]); }
    }
  }

  /** A write of a command that is in the outbox. */
  lemma WriteKeeps(w: World, key: string, reply: Reply)
    requires Inv(w) && key in w.rows && w.rows[key].clientId.Some?
    ensures var r := w.rows[key];
            var o := Outbox(r.clientId.value, r.qty.value, r.limit.value);
            var w' := Written(w, o, reply).0;
            Inv(w') && Advances(w, w') && w'.rows == w.rows && w'.writes == w.writes + [o]
            && (Written(w, o, reply).1.Some? ==> o.id in w'.orders && Written(w, o, reply).1.value == w'.orders[o.id])
  {
    var r := w.rows[key];
    assert RecordInv(w, key, r);
    var w' := Written(w, Outbox(r.clientId.value, r.qty.value, r.limit.value), reply).0;
    forall id | id in w'.orders ensures OrderInv(w', id) {
      if id in w.orders { assert OrderInv(w, id); }
    }
    forall k | k in w'.rows ensures RecordInv(w', k, w'.rows[k]) { assert RecordInv(w, k, w.rows[k]); }
  }

  lemma AdvancesTrans(a: World, b: World, c: World)
    requires Advances(a, b) && Advances(b, c)
    ensures Advances(a, c)
  {}

  /** Storing the broker's ID of a command changes nothing else. */
  lemma BindKeeps(w: World, key: string, r: Record)
    requires Inv(w) && key in w.rows && r == w.rows[key].(brokerId := r.brokerId) && RecordInv(w, key, r)
    ensures Inv(Saved(w, r)) && Advances(w, Saved(w, r))
  {
    assert RecordInv(w, key, w.rows[key]);
    assert w.(saved := w.saved) == w;
    SaveKeeps(w, r, w.saved);
    assert Saved(w, r).(saved := w.saved) == Saved(w, r);
  }

  lemma ResendKeeps(w: World, key: string, reply: Reply)
    requires Inv(w) && key in w.rows && RecordInv(w, key, w.rows[key]) && w.rows[key].clientId.Some?
    requires var r := w.rows[key];
             Written(w, Outbox(r.clientId.value, r.qty.value, r.limit.value), reply).1.Some?
    ensures var r := w.rows[key];
            var (w1, order) := Written(w, Outbox(r.clientId.value, r.qty.value, r.limit.value), reply);
            var w' := Saved(w1, r.(brokerId := Some(order.value.orderId)));
            Inv(w') && Advances(w, w')
  {
    var r := w.rows[key];
    WriteKeeps(w, key, reply);
    var (w1, order) := Written(w, Outbox(r.clientId.value, r.qty.value, r.limit.value), reply);
    BindKeeps(w1, key, r.(brokerId := Some(order.value.orderId)));
    AdvancesTrans(w, w1, Saved(w1, r.(brokerId := Some(order.value.orderId))));
  }

  lemma RecoverInv(w: World, key: string, e: Env)
    requires Inv(w) && key in w.rows && RecordInv(w, key, w.rows[key])
    ensures var w' := Recovered(w, w.rows[key], e).0; Inv(w') && Advances(w, w')
  {
    var r := w.rows[key];
    if r.clientId.Some? && !e.recoverLookup.LookupRaised? {
      var seen := Found(w, r.clientId.value, e.recoverLookup);
      if seen.None? && r.brokerId.None? {
        WriteKeeps(w, key, e.recoverReply);
        if e.recoverReply.Placed? { ResendKeeps(w, key, e.recoverReply); }
      } else if seen.Some? {
        BindKeeps(w, key, r.(brokerId := Some(seen.value.orderId)));
      }
    }
  }

  lemma RecoverShape(w: World, key: string, e: Env)
    requires key in w.rows && RecordInv(w, key, w.rows[key])
    ensures var r := w.rows[key];
            var (w', r') := Recovered(w, r, e);
            (r'.Some? ==> key in w'.rows && w'.rows[key] == r'.value && r'.value.plan == r.plan
                          && r'.value.runtime == r.runtime)
            && (w'.writes != w.writes ==>
                  r.clientId.Some? && r.brokerId.None?
                  && w'.writes == w.writes + [Outbox(r.clientId.value, r.qty.value, r.limit.value)])
  {
  }

  /** Recovery re-sends exactly the stored quantity and limit, and only for a command without a broker order. */
  lemma RecoverKeeps(w: World, key: string, e: Env)
    requires Inv(w) && key in w.rows
    ensures var r := w.rows[key];
            var (w', r') := Recovered(w, r, e);
            Inv(w') && Advances(w, w')
            && (r'.Some? ==> key in w'.rows && w'.rows[key] == r'.value && r'.value.plan == r.plan
                             && r'.value.runtime == r.runtime)
            && (w'.writes != w.writes ==>
                  r.clientId.Some? && r.brokerId.None?
                  && w'.writes == w.writes + [Outbox(r.clientId.value, r.qty.value, r.limit.value)])
  {
    assert RecordInv(w, key, w.rows[key]);
    RecoverInv(w, key, e);
    RecoverShape(w, key, e);
  }

  /** A new command is stored, with no broker order, before it is written. */
  lemma SubmitKeeps(w: World, key: string, runtime: Runtime, limit: int, qty: int, e: Env)
    requires Inv(w) && key in w.rows
    requires var r := w.rows[key];
             RuntimeInv(r.plan, runtime) && runtime.triggeredAt.Some? && r.runtime.attempt <= runtime.attempt
             && (r.runtime.triggeredAt.Some? ==> runtime.triggeredAt == r.runtime.triggeredAt)
             && (r.runtime.completedAt.Some? ==> runtime.completedAt == r.runtime.completedAt)
    ensures var r := w.rows[key];
            var id := IdOf(r.plan, runtime.attempt);
            var w' := Submitted(w, r, runtime, limit, qty, e);
            Inv(w') && Advances(w, w')
            && w'.saved == w.saved + [Outbox(id, qty, limit)]
            && (w'.writes == w.writes || w'.writes == w.writes + [Outbox(id, qty, limit)])
  {
    var r := w.rows[key];
    assert RecordInv(w, key, r);
    var id := IdOf(r.plan, runtime.attempt);
    var pending := Record(r.plan, runtime, Some(id), None, Some(limit), Some(qty));
    var w1 := SavedOutbox(w, pending, Outbox(id, qty, limit));
    SaveKeeps(w, pending, w1.saved);
    if !e.lookup.LookupRaised? {
      var seen := Found(w1, id, e.lookup);
      if seen.Some? {
        var bound := pending.(brokerId := Some(seen.value.orderId));
        SaveKeeps(w1, bound, w1.saved);
        AdvancesTrans(w, w1, Saved(w1, bound));
      } else {
        WriteKeeps(w1, key, e.reply);
        var (w2, order) := Written(w1, Outbox(id, qty, limit), e.reply);
        AdvancesTrans(w, w1, w2);
        if order.Some? {
          var bound := pending.(brokerId := Some(order.value.orderId));
          SaveKeeps(w2, bound, w2.saved);
          AdvancesTrans(w, w2, Saved(w2, bound));
        }
      }
    }
  }

  /** How a decision moves the runtime, without its prices. */
  predicate Moves(plan: Plan, r: Runtime, d: Decision) {
    RuntimeInv(plan, d.runtime) && r.attempt <= d.runtime.attempt
    && (r.triggeredAt.Some? ==> d.runtime.triggeredAt == r.triggeredAt)
    && (r.completedAt.Some? ==> d.runtime.completedAt == r.completedAt)
    && (Commands(d.action) ==> d.limit.Some? && d.runtime.triggeredAt.Some?)
    && (!Commands(d.action) && r.triggeredAt.Some? ==> d.runtime.attempt == r.attempt)
  }

  lemma DecisionMoves(plan: Plan, r: Runtime, s: Snapshot)
    requires RuntimeInv(plan, r)
    ensures Moves(plan, r, Evaluate(plan, r, s))
  {
    EvaluateKeeps(plan, r, s);
  }

  lemma DecideKeeps(w: World, key: string, s: Snapshot, e: Env)
    requires Inv(w) && key in w.rows
    ensures RecordInv(w, key, w.rows[key])
    ensures var w' := Decided(w, w.rows[key], s, e); Inv(w') && Advances(w, w')
  {
    var r := w.rows[key];
    assert RecordInv(w, key, r);
    if e.position.Some? {
      var s' := if e.position.value == 0 then s.(filled := true) else s;
      DecisionMoves(r.plan, r.runtime, s');
      CarryOutKeeps(w, key, Evaluate(r.plan, r.runtime, s'), e);
    }
  }

  /** A decision without a command: its runtime is saved. */
  lemma QuietKeeps(w: World, key: string, d: Decision)
    requires Inv(w) && key in w.rows && RecordInv(w, key, w.rows[key])
    requires Moves(w.rows[key].plan, w.rows[key].runtime, d) && !Commands(d.action)
    ensures var w' := Saved(w, w.rows[key].(runtime := d.runtime)); Inv(w') && Advances(w, w')
  {
    var r := w.rows[key].(runtime := d.runtime);
    assert w.(saved := w.saved) == w;
    SaveKeeps(w, r, w.saved);
    assert Saved(w, r).(saved := w.saved) == Saved(w, r);
  }

  lemma AdvancesRefl(w: World)
    ensures Advances(w, w)
  {}

  lemma CarryOutKeeps(w: World, key: string, d: Decision, e: Env)
    requires Inv(w) && key in w.rows && RecordInv(w, key, w.rows[key]) && e.position.Some?
    requires Moves(w.rows[key].plan, w.rows[key].runtime, d)
    ensures var w' := CarriedOut(w, w.rows[key], d, e); Inv(w') && Advances(w, w')
  {
    AdvancesRefl(w);
    if !Commands(d.action) {
      QuietKeeps(w, key, d);
    } else if e.position.value != 0 {
      SubmitKeeps(w, key, d.runtime, d.limit.value, e.position.value, e);
    }
  }

  lemma WorkKeeps(w: World, key: string, s: Snapshot, e: Env)
    requires Inv(w) && key in w.rows && w.rows[key].plan.Valid()
    ensures Inv(Worked(w, w.rows[key], s, e)) && Advances(w, Worked(w, w.rows[key], s, e))
  {
    if e.authorized {
      RecoveredWorkKeeps(w, key, s, e);
    } else {
      DecideKeeps(w, key, s, e);
    }
  }

  lemma RecoveredWorkKeeps(w: World, key: string, s: Snapshot, e: Env)
    requires Inv(w) && key in w.rows && w.rows[key].plan.Valid() && e.authorized
    ensures Inv(Worked(w, w.rows[key], s, e)) && Advances(w, Worked(w, w.rows[key], s, e))
  {
    RecoverKeeps(w, key, e);
    var (w1, r1) := Recovered(w, w.rows[key], e);
    if r1.Some? {
      DecideKeeps(w1, key, s, e);
      AdvancesTrans(w, w1, Decided(w1, r1.value, s, e));
    }
  }

  lemma EnsureKeeps(w: World, plan: Plan)
    requires Inv(w) && plan.Valid()
    ensures Inv(Ensured(w, plan)) && Advances(w, Ensured(w, plan))
  {
    if plan.planId !in w.rows {
      var r := Record(plan, INITIAL, None, None, None, None);
      SaveKeeps(w, r, w.saved);
      assert Saved(w, r).(saved := w.saved) == Ensured(w, plan);
    }
  }

  /** Every tick, whatever raises or crashes in it: the attempt stays a valid index, so no price is ever
      looked up out of range, and the invariants and the monotone facts hold. */
  lemma TickKeeps(w: World, plan: Plan, s: Snapshot, e: Env)
    requires Inv(w) && plan.Valid()
    ensures Inv(Tick(w, plan, s, e)) && Advances(w, Tick(w, plan, s, e))
  {
    EnsureKeeps(w, plan);
    var w1 := Ensured(w, plan);
    if w1.rows[plan.planId].plan == plan {
      WorkKeeps(w1, plan.planId, s, e);
      AdvancesTrans(w, w1, Tick(w, plan, s, e));
    }
  }

  datatype Turn = Turn(plan: Plan, snapshot: Snapshot, env: Env)

  function Run(w: World, turns: seq<Turn>): World
    requires forall i :: 0 <= i < |turns| ==> turns[i].plan.Valid()
    decreases |turns|
  {
    if turns == [] then w
    else
      var t := turns[|turns| - 1];
      Tick(Run(w, turns[..|turns| - 1]), t.plan, t.snapshot, t.env)
  }

  lemma {:induction false} RunKeeps(w: World, turns: seq<Turn>)
    requires Inv(w) && forall i :: 0 <= i < |turns| ==> turns[i].plan.Valid()
    ensures Inv(Run(w, turns)) && Advances(w, Run(w, turns))
    decreases |turns|
  {
    if turns != [] {
      var t, before := turns[|turns| - 1], Run(w, turns[..|turns| - 1]);
      RunKeeps(w, turns[..|turns| - 1]);
      TickKeeps(before, t.plan, t.snapshot, t.env);
      AdvancesTrans(w, before, Run(w, turns));
    }
  }

  lemma {:induction false} FewAttempts(ids: set<StopId>, plan: Plan, n: nat)
    requires forall id :: id in ids ==> id == IdOf(plan, id.attempt) && id.attempt < n
    ensures |ids| <= n
  {
    if n > 0 {
      var last := IdOf(plan, n - 1);
      FewAttempts(ids - {last}, plan, n - 1);
      assert |ids| <= |ids - {last}| + 1;
    } else {
      assert ids == {};
    }
  }

  /** Over every run, a plan has at most as many distinct broker orders as price buffers, and every
      write repeats a command the ledger stored first. */
  lemma OrdersNeverExceedBuffers(w: World, turns: seq<Turn>, key: string)
    requires Inv(w) && forall i :: 0 <= i < |turns| ==> turns[i].plan.Valid()
    requires key in Run(w, turns).rows
    ensures var w' := Run(w, turns);
            |set id | id in w'.orders && id.planId == key| <= |w'.rows[key].plan.buffers|
            && forall i :: 0 <= i < |w'.writes| ==> w'.writes[i] in w'.saved
  {
    RunKeeps(w, turns);
    var w' := Run(w, turns);
    var plan := w'.rows[key].plan;
    assert RecordInv(w', key, w'.rows[key]);
    var ids := set id | id in w'.orders && id.planId == key;
    forall id | id in ids ensures id == IdOf(plan, id.attempt) && id.attempt < |plan.buffers| { assert OrderInv(w', id); }
    FewAttempts(ids, plan, |plan.buffers|);
  }

  // ---- what the stored limit says about the broker ----

  /** While a higher attempt is left, a reprice uses a client ID the broker has never seen. */
  lemma HigherAttemptIsNew(w: World, key: string, attempt: nat)
    requires Inv(w) && key in w.rows && w.rows[key].runtime.attempt < attempt
    ensures IdOf(w.rows[key].plan, attempt) !in w.orders
  {
    assert RecordInv(w, key, w.rows[key]);
  }

  const EMPTY := World(map[], map[], [], [])

  /** At the last attempt the ID repeats: two ticks from an empty ledger leave a row holding a limit that
      the broker never received. */
  lemma LastAttemptKeepsOldLimit(plan: Plan, e: Env)
    requires plan.Valid() && plan.buffers == [0.05] && plan.reprice == 2.0
    requires e == Env(true, Visible, LostBefore, Some(10), false, Visible, Placed("b"))
    ensures var first := Snapshot(0.0, 100.0, None, true, true, true, false, false);
            var second := Snapshot(5.0, 50.0, None, true, true, false, false, false);
            var w := Run(EMPTY, [Turn(plan, first, e), Turn(plan, second, e)]);
            var id := IdOf(plan, 0);
            plan.planId in w.rows && id in w.orders
            && w.rows[plan.planId].clientId == Some(id) && w.rows[plan.planId].brokerId == Some("b")
            && w.rows[plan.planId].limit == Some(4750) && w.orders[id].limit == 9500
  {
    var first := Snapshot(0.0, 100.0, None, true, true, true, false, false);
    var second := Snapshot(5.0, 50.0, None, true, true, false, false, false);
    var turns := [Turn(plan, first, e), Turn(plan, second, e)];
    assert turns[..1] == [Turn(plan, first, e)] && turns[..1][..0] == [];
    var w1 := Tick(EMPTY, plan, first, e);
    assert Run(EMPTY, turns[..1]) == w1;
    var id := IdOf(plan, 0);
    assert w1.orders[id] == BrokerOrder("b", 10, 9500);
    assert w1.rows[plan.planId]
        == Record(plan, Runtime(Some(0.0), Some(0.0), Some(0.0), 0, None), Some(id), Some("b"), Some(9500), Some(10));
  }

  /** A due trigger of a held position is in the ledger after the tick exactly when writes are allowed, or when an
      outage or an emergency meets an unhealthy broker: a trigger that would command an exit is otherwise lost, and
      the tick then leaves everything as it was. */
  lemma TriggerIsStoredIff(w: World, plan: Plan, s: Snapshot, e: Env)
    requires plan.Valid() && Inv(w) && plan.planId in w.rows && w.rows[plan.planId].plan == plan
    requires w.rows[plan.planId].runtime.triggeredAt.None? && w.rows[plan.planId].runtime.completedAt.None?
    requires !s.filled && TriggerDue(plan, w.rows[plan.planId].runtime, s) && e.position.Some? && e.position.value > 0
    ensures var w' := Tick(w, plan, s, e);
            var stored := e.authorized || (!s.brokerHealthy && (!s.dataHealthy || s.materialNegative || s.haltRisk));
            plan.planId in w'.rows && (w'.rows[plan.planId].runtime.triggeredAt.Some? <==> stored)
            && (!stored ==> w' == w)
  {
    var r := w.rows[plan.planId];
    assert RecordInv(w, plan.planId, r);
    TriggersIff(plan, r.runtime, s);
    EvaluateKeeps(plan, r.runtime, s);
  }

  // ---- the controller object ----

  class StopLedger {
    var rows: map<string, Record>
    ghost var saved: seq<Outbox>

    method Ensure(plan: Plan) returns (r: Record)
      modifies this
      ensures plan.planId in old(rows) ==> rows == old(rows)
      ensures plan.planId !in old(rows) ==> rows == old(rows)[plan.planId := Record(plan, INITIAL, None, None, None, None)]
      ensures r == rows[plan.planId] && saved == old(saved)
    {
      if plan.planId !in rows {
        rows := rows[plan.planId := Record(plan, INITIAL, None, None, None, None)];
      }
      r := rows[plan.planId];
    }

    method Save(r: Record)
      modifies this`rows
      ensures rows == old(rows)[r.plan.planId := r]
    {
      rows := rows[r.plan.planId := r];
    }

    /** Stores a command that is about to be written. */
    method SaveCommand(r: Record, ghost o: Outbox)
      modifies this
      ensures rows == old(rows)[r.plan.planId := r] && saved == old(saved) + [o]
    {
      rows := rows[r.plan.planId := r];
      saved := saved + [o];
    }
  }

  class StopBroker {
    var orders: map<StopId, BrokerOrder>
    var writes: seq<Outbox>

    method SubmitIdempotent(o: Outbox, reply: Reply) returns (order: Option<BrokerOrder>)
      modifies this
      ensures var w := World(map[], old(orders), old(writes), []);
              (World(map[], orders, writes, []), order) == Written(w, o, reply)
    {
      writes := writes + [o];
      if reply.LostBefore? { return None; }
      if o.id !in orders {
        orders := orders[o.id := BrokerOrder(reply.orderId, o.qty, o.limit)];
      }
      assert orders[o.id := orders[o.id]] == orders;
      order := if reply.Placed? then Some(orders[o.id]) else None;
    }
  }

  class Controller {
    const ledger: StopLedger
    const broker: StopBroker

    constructor (ledger: StopLedger, broker: StopBroker)
      ensures this.ledger == ledger && this.broker == broker
    {
      this.ledger, this.broker := ledger, broker;
    }

    ghost function State(): World
      reads ledger, broker
    {
      World(ledger.rows, broker.orders, broker.writes, ledger.saved)
    }

    method RecoverPendingOutbox(r: Record, e: Env) returns (r': Option<Record>)
      modifies ledger`rows, broker
      ensures (State(), r') == Recovered(old(State()), r, e)
    {
      if r.clientId.None? { return Some(r); }
      if e.recoverLookup.LookupRaised? { return None; }
      var id := r.clientId.value;
      var order := if e.recoverLookup.Visible? && id in broker.orders then Some(broker.orders[id]) else None;
      if order.None? && r.brokerId.None? {
        if r.limit.None? || r.qty.None? { return None; }
        order := broker.SubmitIdempotent(Outbox(id, r.qty.value, r.limit.value), e.recoverReply);
        if order.None? { return None; }
      }
      if order.None? || Some(order.value.orderId) == r.brokerId { return Some(r); }
      var bound := r.(brokerId := Some(order.value.orderId));
      ledger.Save(bound);
      return Some(bound);
    }

    method Submit(r: Record, runtime: Runtime, limit: int, qty: int, e: Env)
      modifies ledger, broker
      ensures State() == Submitted(old(State()), r, runtime, limit, qty, e)
    {
      var id := IdOf(r.plan, runtime.attempt);
      var pending := Record(r.plan, runtime, Some(id), None, Some(limit), Some(qty));
      ledger.SaveCommand(pending, Outbox(id, qty, limit));
      if e.lookup.LookupRaised? { return; }
      var order := if e.lookup.Visible? && id in broker.orders then Some(broker.orders[id]) else None;
      if order.None? {
        order := broker.SubmitIdempotent(Outbox(id, qty, limit), e.reply);
        if order.None? { return; }
      }
      ledger.Save(pending.(brokerId := Some(order.value.orderId)));
    }

    method Decide(r: Record, s: Snapshot, e: Env)
      requires r.plan.Valid() && r.runtime.attempt < |r.plan.buffers|
      modifies ledger, broker
      ensures State() == Decided(old(State()), r, s, e)
    {
      if e.position.None? { return; }
      var qty := e.position.value;
      var d := Evaluate(r.plan, r.runtime, if qty == 0 then s.(filled := true) else s);
      if Commands(d.action) && !e.authorized { return; }
      if d.action == CancelReplaceExit && r.brokerId.Some? && e.cancelRaises { return; }
      if Commands(d.action) && d.limit.Some? {
        if qty > 0 { Submit(r, d.runtime, d.limit.value, qty, e); }
      } else {
        ledger.Save(r.(runtime := d.runtime));
      }
    }

    method TickOnce(plan: Plan, s: Snapshot, e: Env)
      requires plan.Valid()
      modifies ledger, broker
      ensures State() == Tick(old(State()), plan, s, e)
    {
      var r := ledger.Ensure(plan);
      if r.plan != plan { return; }
      if e.authorized {
        var recovered := RecoverPendingOutbox(r, e);
        if recovered.None? { return; }
        r := recovered.value;
      }
      if r.plan.Valid() && r.runtime.attempt < |r.plan.buffers| {
        Decide(r, s, e);
      }
    }
  }
}
