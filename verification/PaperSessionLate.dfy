/** When a premarket order is bought outside the lifetime of the first one (execution/autonomous_paper_session.py). */
module PaperSessionLate {
  import opened PaperSession
  import opened PaperSessionSafety
  import opened PaperSessionGuards
  import opened PaperSessionTiming
  import opened Texts
  import P = IntradayPolicy
  import E = PremarketEntry
  import A = Allocation

  const REPRICE := 3 * P.SECOND

  /** A tick that reaches its running premarket entry: in premarket hours, with nothing held, the guardian clear, the
      hard loss away, writes enabled, healthy data, and no probe due. */
  predicate CarriesOn(x: Input) {
    x.Valid() && x.guardian == Clear && x.dailyReturn > -0.02 && x.writesEnabled && x.PremarketHours() && x.holding.Flat?
    && x.policy.data && !x.policy.Held() && !P.ProbeDue(x.policy)
  }

  function Ticked(p: SessionPlan, w: World, x: Input): World
    requires p.budget.Valid()
  {
    After(w, Tick(p, w, x))
  }

  predicate BoughtFrom(w: World, from: int) {
    exists id :: id in w.orders && id.Premarket? && w.orders[id].at >= from
  }

  lemma CarriedOn(p: SessionPlan, w: World, x: Input)
    requires p.budget.Valid() && !Locked(w) && CarriesOn(x)
    ensures Intended(p, w, x) == Continue(p, w, x)
  {
    P.ProbesIff(x.policy);
    assert P.Evaluate(x.policy).action == P.Observe;
    assert [] + Continue(p, w, x) == Continue(p, w, x);
    assert After(w, []) == w;
  }

  /** What the tick does, when its entry's writes do not raise. */
  lemma TickedIs(p: SessionPlan, w: World, x: Input, es: seq<Effect>)
    requires p.budget.Valid() && !Locked(w) && CarriesOn(x) && RunningPremarket(w, x)
    requires RunPremarket(p, w, x, w.premarket.value.plan.target).0 == es && !Stops(es, true)
    ensures Ticked(p, w, x) == After(w, es)
  {
    CarriedOn(p, w, x);
    var all := es + ExtendedStop(x);
    StopsEither(es, ExtendedStop(x), true);
    PerformedIsPrefix(all, true);
    Append(p, w, es, ExtendedStop(x));
    One(p, After(w, es), StopExit);
  }

  // ---- the restarted entry ----

  /** A command whose order is out changes nothing but its own row. */
  lemma KnownOnce(p: SessionPlan, w: World, id: Id, order: Order)
    requires Inv(p, w) && OrderOk(p, id, order) && (IsBuy(id) ==> !Locked(w)) && id in w.orders
    ensures var es := Once(p, w, id, order);
            var v := After(w, es);
            !Stops(es, true) && v == w.(commands := v.commands)
            && forall c: Id :: c != id ==> (c in v.commands <==> c in w.commands)
                                           && (c in w.commands ==> v.commands[c] == w.commands[c])
  {
    OnceOk(p, w, id, order);
    One(p, w, EnsureCommand(id, IdentityOf(p, id)));
    Three(p, w, EnsureCommand(id, IdentityOf(p, id)), Submit(id, order), CompleteCommand(id));
  }

  function StartedAt(at: int): E.Runtime { E.Runtime(Some(at), Some(at), 0, None) }

  lemma RestartDecision(p: SessionPlan, x: Input, r: Record)
    requires p.budget.Valid() && RecordOk(p, r) && r.runtime.started.None? && r.runtime.completed.None? && CarriesOn(x)
    ensures PremarketDecision(x, r)
         == Ok(E.Decision(E.SubmitLimit, StartedAt(x.observed), Some(E.BoundedLimit(r.plan.Cap(), x.ask)), r.plan.target))
  {
  }

  lemma RestartWrites(p: SessionPlan, w: World, x: Input)
    requires p.budget.Valid() && Inv(p, w) && CarriesOn(x)
    requires w.premarket.Some? && w.premarket.value.runtime.started.None? && w.premarket.value.runtime.completed.None?
    ensures var r := w.premarket.value;
            var order := Order(BuySide, r.plan.target, Some(E.BoundedLimit(r.plan.Cap(), x.ask)), x.observed);
            OrderOk(p, Premarket(0), order)
            && RunPremarket(p, w, x, r.plan.target).0
               == Once(p, w, Premarket(0), order) + [SavePremarket(StartedAt(x.observed), Some(Premarket(0)))]
  {
    var r := w.premarket.value;
    RestartDecision(p, x, r);
    PremarketDecisionOk(p, x, r);
    var d := PremarketDecision(x, r).value;
    assert After(w, []) == w;
    var es := Once(p, w, Premarket(0), Order(BuySide, d.remaining, d.limit, x.observed))
              + [SavePremarket(d.runtime, Some(Premarket(0)))];
    assert CarryOut(p, w, x, r, d) == es;
    assert [] + es == es;
  }

  /** The first order out and its start unsaved: a tick that carries the entry on submits nothing new and starts the
      lifetime at its own time. */
  lemma Restarts(p: SessionPlan, w: World, x: Input)
    requires p.budget.Valid() && Inv(p, w) && !Locked(w) && CarriesOn(x) && Premarket(0) in w.orders
    requires w.premarket.Some? && w.premarket.value.runtime.started.None? && w.premarket.value.runtime.completed.None?
    ensures var v := Ticked(p, w, x);
            v == w.(commands := v.commands,
                    premarket := Some(Record(w.premarket.value.plan, StartedAt(x.observed), Some(Premarket(0)))))
            && forall c: Id :: c.Cancel? ==> (c in v.commands <==> c in w.commands)
                                             && (c in w.commands ==> v.commands[c] == w.commands[c])
  {
    var r := w.premarket.value;
    RestartWrites(p, w, x);
    var order := Order(BuySide, r.plan.target, Some(E.BoundedLimit(r.plan.Cap(), x.ask)), x.observed);
    var once, save := Once(p, w, Premarket(0), order), SavePremarket(StartedAt(x.observed), Some(Premarket(0)));
    KnownOnce(p, w, Premarket(0), order);
    StopsEither(once, [save], true);
    TickedIs(p, w, x, once + [save]);
    Append(p, w, once, [save]);
    One(p, After(w, once), save);
  }

  // ---- the reprice after it ----

  lemma RepriceDecision(p: SessionPlan, y: Input, r: Record, started: int)
    requires p.budget.Valid() && RecordOk(p, r) && r.runtime == StartedAt(started) && r.active == Some(Premarket(0))
    requires CarriesOn(y) && y.active.Some? && y.active.value.working
    requires started + REPRICE <= y.observed < started + LIFETIME
    ensures PremarketDecision(y, r)
         == Ok(E.Decision(E.CancelReplace, E.Runtime(Some(started), Some(y.observed), 1, None),
                          Some(E.BoundedLimit(r.plan.Cap(), y.ask)), r.plan.target))
  {
  }

  /** A cancellation without a conflict does not raise and touches only its own row. */
  lemma Cancels(p: SessionPlan, w: World, o: OpenOrder)
    requires Inv(p, w) && !Conflicts(w, Cancel(o.id), Identity(p.date, CancelKind, o.symbol))
    ensures var es := CancelOnce(p, w, o);
            var v := After(w, es);
            !Stops(es, true) && v == w.(commands := v.commands) && Inv(p, v)
            && forall c: Id :: !c.Cancel? ==> (c in v.commands <==> c in w.commands)
                                              && (c in w.commands ==> v.commands[c] == w.commands[c])
  {
    var id, identity := Cancel(o.id), Identity(p.date, CancelKind, o.symbol);
    CancelOnceIs(p, w, o);
    CancelOnceOk(p, w, o);
    AllOkKeeps(p, w, CancelOnce(p, w, o));
    One(p, w, EnsureCommand(id, identity));
    Three(p, w, EnsureCommand(id, identity), CancelOrder(o.id), CompleteCommand(id));
  }

  /** An order not out yet is submitted. */
  lemma NewOnce(p: SessionPlan, w: World, id: Id, order: Order)
    requires Inv(p, w) && OrderOk(p, id, order) && (IsBuy(id) ==> !Locked(w)) && id !in w.orders
    ensures var es := Once(p, w, id, order);
            !Stops(es, true) && id in After(w, es).orders && After(w, es).orders[id] == order
  {
    OnceOk(p, w, id, order);
    assert id in w.commands ==> CommandOk(p, w, id);
    Three(p, w, EnsureCommand(id, IdentityOf(p, id)), Submit(id, order), CompleteCommand(id));
  }

  /** The first order of an entry started at a time works, and a reprice delay is over. */
  predicate RepriceDue(p: SessionPlan, w: World, y: Input, started: int) {
    w.premarket.Some? && w.premarket.value.runtime == StartedAt(started) && w.premarket.value.active == Some(Premarket(0))
    && started + REPRICE <= y.observed < started + LIFETIME && y.active.Some? && y.active.value.working
    && !Conflicts(w, Cancel(y.active.value.id), Identity(p.date, CancelKind, y.active.value.symbol))
  }

  lemma RepriceWrites(p: SessionPlan, w: World, y: Input, started: int)
    requires p.budget.Valid() && Inv(p, w) && CarriesOn(y) && RepriceDue(p, w, y, started)
    ensures var r, cancel := w.premarket.value, CancelOnce(p, w, y.active.value);
            var order := Order(BuySide, r.plan.target, Some(E.BoundedLimit(r.plan.Cap(), y.ask)), y.observed);
            var save := SavePremarket(E.Runtime(Some(started), Some(y.observed), 1, None), Some(Premarket(1)));
            OrderOk(p, Premarket(1), order)
            && RunPremarket(p, w, y, r.plan.target).0
               == cancel + Once(p, After(w, cancel), Premarket(1), order) + [save]
  {
    var r := w.premarket.value;
    RepriceDecision(p, y, r, started);
    PremarketDecisionOk(p, y, r);
    var d := PremarketDecision(y, r).value;
    assert After(w, []) == w;
    assert [] + CarryOut(p, w, y, r, d) == CarryOut(p, w, y, r, d);
  }

  lemma Reprices(p: SessionPlan, w: World, y: Input, started: int)
    requires p.budget.Valid() && Inv(p, w) && !Locked(w) && CarriesOn(y) && Premarket(1) !in w.orders
    requires RepriceDue(p, w, y, started)
    ensures var v := Ticked(p, w, y); Premarket(1) in v.orders && v.orders[Premarket(1)].at == y.observed
  {
    var r, cancel := w.premarket.value, CancelOnce(p, w, y.active.value);
    RepriceWrites(p, w, y, started);
    Cancels(p, w, y.active.value);
    var w1 := After(w, cancel);
    var order := Order(BuySide, r.plan.target, Some(E.BoundedLimit(r.plan.Cap(), y.ask)), y.observed);
    var save := SavePremarket(E.Runtime(Some(started), Some(y.observed), 1, None), Some(Premarket(1)));
    var once := Once(p, w1, Premarket(1), order);
    NewOnce(p, w1, Premarket(1), order);
    ThenSaved(p, w, cancel, once, save);
    TickedIs(p, w, y, cancel + once + [save]);
  }

  lemma ThenSaved(p: SessionPlan, w: World, a: seq<Effect>, b: seq<Effect>, save: Effect)
    requires !Stops(a, true) && !Stops(b, true) && save.SavePremarket?
    ensures !Stops(a + b + [save], true) && After(w, a + b + [save]).orders == After(After(w, a), b).orders
  {
    StopsEither(a, b, true);
    StopsEither(a + b, [save], true);
    Append(p, w, a, b);
    Append(p, w, a + b, [save]);
    One(p, After(w, a + b), save);
  }

  // ---- the other cases ----

  lemma TickedKeeps(p: SessionPlan, w: World, x: Input)
    requires p.budget.Valid() && Inv(p, w) && x.Valid()
    ensures Inv(p, Ticked(p, w, x))
    ensures forall id :: id in w.orders ==> id in Ticked(p, w, x).orders && Ticked(p, w, x).orders[id] == w.orders[id]
  {
    TickOk(p, w, x);
    AllOkKeeps(p, w, Tick(p, w, x));
  }

  /** A saved lifetime stays saved and every premarket order in it. */
  lemma TickedInTime(p: SessionPlan, w: World, x: Input)
    requires p.budget.Valid() && Inv(p, w) && x.Valid() && Timed(w) && Started(w).Some?
    ensures Timed(Ticked(p, w, x)) && Started(Ticked(p, w, x)).Some?
  {
    TickInTime(p, w, x);
    AllInTimeKeeps(w, x.observed, Tick(p, w, x));
    StartStays(w, x.observed, Tick(p, w, x));
  }

  lemma SavedIsInTime(p: SessionPlan, w: World, x: Input, y: Input, first: int)
    requires p.budget.Valid() && Inv(p, w) && x.Valid() && y.Valid() && Timed(w) && Started(w).Some?
    requires w.orders[Premarket(0)].at == first
    ensures !BoughtFrom(Ticked(p, Ticked(p, w, x), y), first + LIFETIME)
  {
    var v := Ticked(p, w, x);
    TickedKeeps(p, w, x);
    TickedInTime(p, w, x);
    TickedKeeps(p, v, y);
    TickedInTime(p, v, y);
  }

  /** Locked, or its entry over, a session in the gap buys no further premarket order. */
  lemma QuietTick(p: SessionPlan, w: World, x: Input)
    requires p.budget.Valid() && Inv(p, w) && CarriesOn(x) && w.premarket.Some?
    requires Locked(w) || w.premarket.value.runtime.completed.Some?
    ensures var v := Ticked(p, w, x);
            BuyIds(v) == BuyIds(w) && (Locked(w) ==> Locked(v)) && v.premarket == w.premarket
  {
    if Locked(w) {
      var es := Tick(p, w, x);
      LockedStep(p, w, Step(x, |es|));
      assert Intended(p, w, x) == [];
    } else {
      CarriedOn(p, w, x);
      PerformedIsPrefix(ExtendedStop(x), true);
      assert [] + ExtendedStop(x) == ExtendedStop(x);
      One(p, w, StopExit);
    }
  }

  lemma QuietStays(p: SessionPlan, w: World, x: Input, y: Input, first: int)
    requires p.budget.Valid() && Inv(p, w) && CarriesOn(x) && CarriesOn(y) && InGap(w, first)
    requires Locked(w) || w.premarket.value.runtime.completed.Some?
    ensures !BoughtFrom(Ticked(p, Ticked(p, w, x), y), first + LIFETIME)
  {
    var v := Ticked(p, w, x);
    QuietTick(p, w, x);
    TickedKeeps(p, w, x);
    QuietTick(p, v, y);
    TickedKeeps(p, v, y);
    var u := Ticked(p, v, y);
    forall id | id in u.orders && id.Premarket? ensures u.orders[id].at < first + LIFETIME {
      assert id in BuyIds(u);
    }
  }

  /** The first premarket order went out at a time first and no second one. Two ticks carry the entry on, at least a
      reprice delay and less than a lifetime apart, the second with a working order that can be cancelled. When the ledger
      does not know the first order's start, has not completed the entry and is not locked, the second tick buys; and
      when that tick comes after the first order's lifetime, an order is bought outside it exactly then. */
  lemma LateBuyIff(p: SessionPlan, w: World, first: int, x: Input, y: Input)
    requires p.budget.Valid() && Inv(p, w) && TimedOrInGap(w, first)
    requires Premarket(0) in w.orders && w.orders[Premarket(0)].at == first && Premarket(1) !in w.orders
    requires CarriesOn(x) && CarriesOn(y) && x.observed + REPRICE <= y.observed < x.observed + LIFETIME
    requires y.active.Some? && y.active.value.working
    requires !Conflicts(w, Cancel(y.active.value.id), Identity(p.date, CancelKind, y.active.value.symbol))
    ensures var v := Ticked(p, Ticked(p, w, x), y);
            var open := Started(w).None? && w.premarket.Some? && w.premarket.value.runtime.completed.None? && !Locked(w);
            (open ==> Premarket(1) in v.orders && v.orders[Premarket(1)].at == y.observed)
            && (y.observed >= first + LIFETIME ==> (BoughtFrom(v, first + LIFETIME) <==> open))
  {
    if Started(w).Some? {
      SavedIsInTime(p, w, x, y, first);
    } else if Locked(w) || w.premarket.value.runtime.completed.Some? {
      QuietStays(p, w, x, y, first);
    } else {
      Restarts(p, w, x);
      TickedKeeps(p, w, x);
      Reprices(p, Ticked(p, w, x), y, x.observed);
    }
  }
}
