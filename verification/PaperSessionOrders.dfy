/** What the paper session's orders say (execution/autonomous_paper_session.py): whole positions at the market or just
    below the bid, reductions to their target, the protective stop, and the entry's buys. */
module PaperSessionOrders {
  import opened PaperSession
  import opened PaperSessionSafety
  import opened PaperSessionGuards
  import T = PaperSessionTiming
  import opened Texts
  import P = IntradayPolicy
  import E = PremarketEntry
  import A = Allocation

  // ---- what an order says ----

  predicate MayWrite(x: Input) { x.paperAuthorised && x.writesEnabled }

  /** From 9:30 to 16:00, and from 7:00 to 9:25. */
  predicate OpenHours(x: Input) { 9 * P.HOUR + 30 * P.MINUTE <= x.policy.clock < 16 * P.HOUR }

  predicate EarlyHours(x: Input) { 7 * P.HOUR <= x.policy.clock < 9 * P.HOUR + 25 * P.MINUTE }

  predicate WholeCents(price: real) { (price * 100.0).Floor as real == price * 100.0 }

  /** A sale of these shares, decided in this tick: at the market from 9:30 to 16:00, and otherwise at the highest
      whole cent that is a quarter percent below the bid. */
  predicate Sells(x: Input, o: Order, shares: int) {
    o.side == SellSide && o.quantity == shares && o.at == x.observed
    && if OpenHours(x) then o.price.None?
       else o.price.Some? && WholeCents(o.price.value) && x.bid * 0.9975 - 0.01 < o.price.value <= x.bid * 0.9975
  }

  /** A buy up to a share count, decided in this tick: at the ask rounded up to the cent, unless the reference price
      and three tenths of a percent are less. */
  predicate Chases(p: SessionPlan, x: Input, o: Order, total: int) {
    var most := p.budget.reference * 1.003;
    o.side == BuySide && o.at == x.observed && SharesHeld(x) < total == SharesHeld(x) + o.quantity
    && o.price.Some? && o.price.value <= most && o.price.value < x.ask + 0.01
    && (o.price.value < x.ask ==> most - 0.01 < o.price.value)
  }

  /** The shares a premarket entry is after: its row's, or a quarter of the full size. */
  function PremarketTarget(p: SessionPlan, w: World, x: Input): int
    requires p.budget.Valid()
  {
    if w.premarket.Some? then w.premarket.value.plan.target else A.TargetQuantity(p.budget, x.equity, 0.25)
  }

  /** What the order under an ID says, in the tick that submits it. */
  predicate Fits(p: SessionPlan, w: World, x: Input, id: Id, o: Order)
    requires p.budget.Valid()
  {
    match id
    case HardFlat => MayWrite(x) && x.dailyReturn <= -0.02 && x.holding.Long? && Sells(x, o, x.holding.shares)
    case Exit(_) => MayWrite(x) && x.dailyReturn > -0.02 && x.holding.Long? && Sells(x, o, x.holding.shares)
    case Reduction(_, target, _) =>
      MayWrite(x) && !x.holding.Unsound? && target < SharesHeld(x) && Sells(x, o, SharesHeld(x) - target)
    case Protection(shares) =>
      MayWrite(x) && OpenHours(x) && x.protective.Missing? && x.holding.Long? && w.premarket.Some?
      && shares == (if w.premarket.value.plan.target < SharesHeld(x) then w.premarket.value.plan.target else SharesHeld(x))
      && o == Order(SellSide, shares, Some(p.budget.hardStop), x.observed)
    case Premarket(_) =>
      EarlyHours(x) && (w.premarket.None? ==> EntryGuards(x)) && Chases(p, x, o, PremarketTarget(p, w, x))
    case Regular(_, _, _) =>
      EntryGuards(x) && OpenHours(x) && o.side == BuySide && o.price.None? && o.quantity > 0 && o.at == x.observed
    case Cancel(_) => false
  }

  predicate AllFit(p: SessionPlan, w: World, x: Input, es: seq<Effect>)
    requires p.budget.Valid()
  {
    forall i :: 0 <= i < |es| && es[i].Submit? ==> Fits(p, w, x, es[i].id, es[i].order)
  }

  lemma BothFit(p: SessionPlan, w: World, x: Input, a: seq<Effect>, b: seq<Effect>)
    requires p.budget.Valid() && AllFit(p, w, x, a) && AllFit(p, w, x, b)
    ensures AllFit(p, w, x, a + b)
  {
  }

  lemma SellOrderSells(x: Input, shares: int)
    ensures Sells(x, SellOrder(x, shares), shares)
  {
    var cents := (x.bid * 0.9975 * 100.0).Floor;
    assert cents as real <= x.bid * 0.9975 * 100.0 < cents as real + 1.0;
    assert E.CentsDown(x.bid * 0.9975) == cents as real / 100.0;
  }

  // ---- the lists of writes ----

  predicate NoOrder(es: seq<Effect>) { forall i :: 0 <= i < |es| ==> !es[i].Submit? }

  lemma {:induction false} CancelsOrderNothing(p: SessionPlan, w: World, orders: seq<OpenOrder>, own: bool)
    ensures NoOrder(CancelAll(p, w, orders, own))
    decreases |orders|
  {
    if orders != [] {
      if own && orders[0].symbol != p.symbol {
        CancelsOrderNothing(p, w, orders[1..], own);
      } else {
        CancelsOrderNothing(p, After(w, CancelOnce(p, w, orders[0])), orders[1..], own);
      }
    }
  }

  lemma OnceFits(p: SessionPlan, w: World, v: World, x: Input, id: Id, order: Order)
    requires p.budget.Valid() && Fits(p, w, x, id, order)
    ensures AllFit(p, w, x, Once(p, v, id, order))
  {
  }

  lemma SalesFit(p: SessionPlan, w: World, x: Input, d: P.Decision)
    requires p.budget.Valid()
    requires x.Authorised()
    ensures x.dailyReturn <= -0.02 ==> AllFit(p, w, x, Flatten(p, w, x))
    ensures x.dailyReturn > -0.02 ==> AllFit(p, w, x, ClosePosition(p, w, x, d))
    ensures !x.holding.Unsound? && Excess(p, x, d) > 0 ==> AllFit(p, w, x, Reduce(p, w, x, d))
  {
    var all, own := CancelAll(p, w, x.open, false), CancelAll(p, w, x.open, true);
    CancelsOrderNothing(p, w, x.open, false);
    CancelsOrderNothing(p, w, x.open, true);
    if x.holding.Long? {
      SellOrderSells(x, x.holding.shares);
    }
    if x.dailyReturn <= -0.02 {
      BothFit(p, w, x, all, SellAll(p, After(w, all), x, HardFlat));
      BothFit(p, w, x, all + SellAll(p, After(w, all), x, HardFlat), [LockDay]);
    } else {
      BothFit(p, w, x, own, SellAll(p, After(w, own), x, Exit(d.reason)));
    }
    ReductionFits(p, w, x, d);
  }

  lemma ReductionFits(p: SessionPlan, w: World, x: Input, d: P.Decision)
    requires p.budget.Valid() && x.Authorised()
    ensures !x.holding.Unsound? && Excess(p, x, d) > 0 ==> AllFit(p, w, x, Reduce(p, w, x, d))
  {
    var own := CancelAll(p, w, x.open, true);
    CancelsOrderNothing(p, w, x.open, true);
    if !x.holding.Unsound? && Excess(p, x, d) > 0 {
      var id := Reduction(d.action, A.TargetQuantity(p.budget, x.equity, d.target), d.reason);
      SellOrderSells(x, Excess(p, x, d));
      OnceFits(p, w, After(w, own), x, id, SellOrder(x, Excess(p, x, d)));
      BothFit(p, w, x, own, Once(p, After(w, own), id, SellOrder(x, Excess(p, x, d))));
    }
  }

  // ---- the entry's orders ----

  /** The row's target is the one the entry is after in the world the tick began with. */
  predicate SameTarget(p: SessionPlan, w: World, x: Input, r: Record)
    requires p.budget.Valid()
  {
    r.plan.target == PremarketTarget(p, w, x) && r.plan.reference == p.budget.reference && r.plan.chase == 0.003
  }

  lemma PremarketOrderFits(p: SessionPlan, w: World, x: Input, r: Record)
    requires p.budget.Valid() && RecordOk(p, r) && x.PremarketHours() && SameTarget(p, w, x, r)
    requires w.premarket.None? ==> EntryGuards(x)
    ensures PremarketDecision(x, r).Ok?
    ensures var d := PremarketDecision(x, r).value;
            E.Submits(d.action) ==>
              Fits(p, w, x, Premarket(d.runtime.attempt), Order(BuySide, d.remaining, d.limit, x.observed))
  {
    PremarketDecisionOk(p, x, r);
    E.EvaluateKeeps(r.plan, r.runtime, EngineView(x, r));
  }

  lemma RunPremarketFits(p: SessionPlan, w: World, v: World, x: Input, target: nat)
    requires p.budget.Valid() && Inv(p, v) && target > 0 && x.PremarketHours()
    requires SameTarget(p, w, x, RecordFor(p, v, target)) && (w.premarket.None? ==> EntryGuards(x))
    ensures AllFit(p, w, x, RunPremarket(p, v, x, target).0)
  {
    var r := RecordFor(p, v, target);
    OpeningOk(p, v, target);
    PremarketOrderFits(p, w, x, r);
    var d, v1 := PremarketDecision(x, r).value, After(v, Opening(v, r));
    var cancel := CancelActive(p, v1, x, r, d);
    var submit := SubmitPremarket(p, After(v1, cancel), x, d);
    CancelKeepsCompleted(p, v1, x, r, d);
    assert NoOrder(cancel);
    if E.Submits(d.action) {
      OnceFits(p, w, After(v1, cancel), x, Premarket(d.runtime.attempt),
               Order(BuySide, d.remaining, d.limit, x.observed));
    }
    BothFit(p, w, x, cancel, submit);
    BothFit(p, w, x, cancel + submit, [SavePremarket(d.runtime, ActiveAfter(r, d))]);
    BothFit(p, w, x, Opening(v, r), CarryOut(p, v1, x, r, d));
  }

  lemma ContinueFits(p: SessionPlan, w: World, v: World, x: Input)
    requires p.budget.Valid() && Inv(p, v)
    requires v.premarket.Some? ==> SameTarget(p, w, x, v.premarket.value) && (w.premarket.None? ==> EntryGuards(x))
    ensures AllFit(p, w, x, Continue(p, v, x))
  {
    if RunningPremarket(v, x) && !x.holding.Unsound? {
      RunPremarketFits(p, w, v, x, v.premarket.value.plan.target);
      BothFit(p, w, x, RunPremarket(p, v, x, v.premarket.value.plan.target).0, ExtendedStop(x));
    }
  }

  lemma RegularFits(p: SessionPlan, w: World, v: World, x: Input, d: P.Decision)
    requires p.budget.Valid() && x.RegularHours() && EntryGuards(x)
    ensures AllFit(p, w, x, RunRegular(p, v, x, d))
  {
    var (tailShares, mainShares) :=
      A.Components(p.budget, x.equity, PriorFraction(d.action), d.target, P.TailChoice(x.policy).1);
    var first := SubmitComponent(p, v, x, d, TailPart, tailShares);
    BothFit(p, w, x, first, SubmitComponent(p, After(v, first), x, d, MainPart, mainShares));
  }

  /** A premarket entry that reports no order leaves its row with the same target. */
  lemma TargetStays(p: SessionPlan, w: World, v: World, x: Input, target: nat)
    requires p.budget.Valid() && Inv(p, v) && !Locked(v) && target > 0
    requires SameTarget(p, w, x, RecordFor(p, v, target))
    ensures var after := After(v, RunPremarket(p, v, x, target).0);
            after.premarket.Some? && SameTarget(p, w, x, after.premarket.value)
  {
    var r := RecordFor(p, v, target);
    OpeningOk(p, v, target);
    PremarketDecisionOk(p, x, r);
    var d, v1 := PremarketDecision(x, r).value, After(v, Opening(v, r));
    var cancel := CancelActive(p, v1, x, r, d);
    CancelActiveOk(p, v1, x, r, d);
    var v2 := After(v1, cancel);
    SubmitPremarketOk(p, v2, x, d);
    var submit, save := SubmitPremarket(p, v2, x, d), SavePremarket(d.runtime, ActiveAfter(r, d));
    Append(p, v1, cancel, submit);
    Append(p, v1, cancel + submit, [save]);
    One(p, After(v2, submit), save);
    Append(p, v, Opening(v, r), CarryOut(p, v1, x, r, d));
  }

  lemma RunEntryFits(p: SessionPlan, w: World, v: World, x: Input, d: P.Decision)
    requires p.budget.Valid() && Inv(p, v) && !Locked(v) && Buys(d.action) && DecisionOk(d)
    requires v.premarket == w.premarket && (d.action == P.Upgrade ==> !x.PremarketHours())
    requires x.Authorised() && x.Fresh() && x.dailyReturn > -0.015
    ensures var (es, ends) := RunEntry(p, v, x, d);
            AllFit(p, w, x, es)
            && (!ends && After(v, es).premarket.Some? ==>
                  SameTarget(p, w, x, After(v, es).premarket.value) && (w.premarket.None? ==> EntryGuards(x)))
  {
    if x.accountActive && (x.PremarketHours() || x.RegularHours()) && !x.holding.Unsound? {
      var desired := A.TargetQuantity(p.budget, x.equity, d.target);
      if desired - SharesHeld(x) > 0 {
        if x.PremarketHours() {
          RunPremarketFits(p, w, v, x, desired);
          TargetStays(p, w, v, x, desired);
        } else {
          RegularFits(p, w, v, x, d);
        }
      }
    }
  }

  // ---- every order of a tick ----

  lemma ActFits(p: SessionPlan, w: World, v: World, x: Input, d: P.Decision)
    requires p.budget.Valid() && Inv(p, v) && !Locked(v) && DecisionOk(d) && (d.action == P.Upgrade ==> !x.PremarketHours())
    requires v.premarket == w.premarket && x.dailyReturn > -0.02
    ensures AllFit(p, w, x, Act(p, v, x, d))
  {
    if x.Authorised() {
      SalesFit(p, v, x, d);
      MoveFits(p, v, w, x, ClosePosition(p, v, x, d));
    }
    match ProtectionFor(v, x) {
      case Place(shares) =>
      case NotNeeded => if !(x.dailyReturn <= -0.015 && Buys(d.action)) { ProceedFits(p, w, v, x, d); }
      case _ =>
    }
  }

  /** What an order says depends on the world only through the premarket row. */
  lemma MoveFits(p: SessionPlan, v: World, w: World, x: Input, es: seq<Effect>)
    requires p.budget.Valid() && AllFit(p, v, x, es) && v.premarket == w.premarket
    ensures AllFit(p, w, x, es)
  {
  }

  lemma ProceedFits(p: SessionPlan, w: World, v: World, x: Input, d: P.Decision)
    requires p.budget.Valid() && Inv(p, v) && !Locked(v) && DecisionOk(d) && (d.action == P.Upgrade ==> !x.PremarketHours())
    requires v.premarket == w.premarket && (Buys(d.action) ==> x.dailyReturn > -0.015)
    ensures AllFit(p, w, x, Proceed(p, v, x, d))
  {
    ContinueFits(p, w, v, x);
    if Buys(d.action) && x.Fresh() && x.Authorised() {
      var (es, ends) := RunEntry(p, v, x, d);
      RunEntryFits(p, w, v, x, d);
      RunEntryOk(p, v, x, d);
      if !ends {
        AllOkKeeps(p, v, es);
        ContinueFits(p, w, After(v, es), x);
        BothFit(p, w, x, es, Continue(p, After(v, es), x));
      }
    } else if Sheds(d.action) && x.Authorised() && !x.holding.Unsound? && Excess(p, x, d) > 0 {
      SalesFit(p, v, x, d);
      MoveFits(p, v, w, x, Reduce(p, v, x, d));
    }
  }

  lemma UpgradesAfterOpening(p: SessionPlan, x: Input, s: P.Snapshot)
    requires s.Valid() && s.clock == x.policy.clock
    ensures DecisionFor(p, x, s).action == P.Upgrade ==> !x.PremarketHours()
  {
    P.UpgradesIff(s);
  }

  lemma DecidedFits(p: SessionPlan, w: World, x: Input)
    requires p.budget.Valid() && Inv(p, w) && x.Valid() && !Locked(w) && x.dailyReturn > -0.02
    ensures AllFit(p, w, x, Decided(p, w, x))
  {
    var (es, s) := Lifecycle(p, w, x);
    LifecycleOk(p, w, x);
    if s.Some? {
      var d, v := DecisionFor(p, x, s.value), After(w, es);
      UpgradesAfterOpening(p, x, s.value);
      ActFits(p, w, v, x, d);
      BothFit(p, w, x, es, Act(p, v, x, d));
    } else {
      BothFit(p, w, x, es, [Fault]);
    }
  }

  /** Every order a tick sets out to submit says what its ID asks for: the whole position, the rest above a target, the
      protected shares, or a buy of the entry that is due in these hours. */
  lemma IntendedFits(p: SessionPlan, w: World, x: Input)
    requires p.budget.Valid() && Inv(p, w) && x.Valid()
    ensures AllFit(p, w, x, Intended(p, w, x))
  {
    if w.guardianLocked || x.guardian == Blocked || x.guardian == Trips {
      assert NoOrder(Intended(p, w, x));
    } else if x.dailyReturn <= -0.02 {
      if x.Authorised() { SalesFit(p, w, x, P.Exiting(P.TakeProfit2Reached)); }
    } else if !w.dayLocked {
      DecidedFits(p, w, x);
    }
  }

  // ---- the orders a list of writes leaves ----

  predicate Submitted(es: seq<Effect>, id: Id, o: Order) {
    exists i :: 0 <= i < |es| && es[i] == Submit(id, o)
  }

  predicate SubmitsId(es: seq<Effect>, id: Id) { exists i :: 0 <= i < |es| && es[i].Submit? && es[i].id == id }

  /** An ID has an order exactly when it had one or one is submitted, and a new order is the one submitted. */
  lemma {:induction false} OrdersAfter(w: World, es: seq<Effect>, id: Id)
    ensures id in After(w, es).orders <==> id in w.orders || SubmitsId(es, id)
    ensures id in After(w, es).orders && id !in w.orders ==> Submitted(es, id, After(w, es).orders[id])
    decreases |es|
  {
    if id in w.orders {
      T.OrderStays(w, es, id);
    } else if es != [] && es[0].Submit? && es[0].id == id {
      T.OrderStays(Apply(w, es[0]), es[1..], id);
    } else if es != [] {
      OrdersAfter(Apply(w, es[0]), es[1..], id);
      SubmitsLater(es, id);
      if id in After(w, es).orders { SubmittedLater(es, id, After(w, es).orders[id]); }
    }
  }

  lemma SubmitsLater(es: seq<Effect>, id: Id)
    requires es != [] && !(es[0].Submit? && es[0].id == id)
    ensures SubmitsId(es, id) <==> SubmitsId(es[1..], id)
  {
    assert forall i :: 0 <= i < |es[1..]| ==> es[1..][i] == es[i + 1];
    if SubmitsId(es, id) {
      var i :| 0 <= i < |es| && es[i].Submit? && es[i].id == id;
      assert es[1..][i - 1] == es[i];
    }
    if SubmitsId(es[1..], id) {
      var i :| 0 <= i < |es[1..]| && es[1..][i].Submit? && es[1..][i].id == id;
      assert es[i + 1].Submit? && es[i + 1].id == id;
    }
  }

  lemma SubmittedLater(es: seq<Effect>, id: Id, o: Order)
    requires es != [] && Submitted(es[1..], id, o)
    ensures Submitted(es, id, o)
  {
    var i :| 0 <= i < |es[1..]| && es[1..][i] == Submit(id, o);
    assert es[i + 1] == Submit(id, o);
  }

  /** Every order a tick adds, wherever it is cut, says what its ID asks for in that tick. */
  lemma NewOrdersFit(p: SessionPlan, w: World, s: Step, id: Id)
    requires p.budget.Valid() && Inv(p, w) && s.input.Valid()
    requires id in StepTo(p, w, s).orders && id !in w.orders
    ensures Fits(p, w, s.input, id, StepTo(p, w, s).orders[id])
  {
    var all, o := Intended(p, w, s.input), StepTo(p, w, s).orders[id];
    var es := Cut(Tick(p, w, s.input), s.effects);
    IntendedFits(p, w, s.input);
    PerformedIsPrefix(all, s.input.writesEnabled);
    OrdersAfter(w, es, id);
    var i :| 0 <= i < |es| && es[i] == Submit(id, o);
    assert all[i] == es[i];
  }

  /** The order of this ID is first there after the i-th step, and fits that step's tick. */
  predicate FitsAt(p: SessionPlan, steps: seq<Step>, i: nat, id: Id, o: Order)
    requires p.budget.Valid() && i < |steps|
  {
    id !in Run(p, EMPTY, steps[..i]).orders && id in Run(p, EMPTY, steps[..i + 1]).orders
    && Fits(p, Run(p, EMPTY, steps[..i]), steps[i].input, id, o)
  }

  lemma FitsAtEarlier(p: SessionPlan, steps: seq<Step>, i: nat, id: Id, o: Order)
    requires p.budget.Valid() && i < |steps| - 1 && FitsAt(p, steps[..|steps| - 1], i, id, o)
    ensures FitsAt(p, steps, i, id, o)
  {
    var before := steps[..|steps| - 1];
    assert before[..i] == steps[..i] && before[..i + 1] == steps[..i + 1] && before[i] == steps[i];
  }

  lemma FitsAtLast(p: SessionPlan, steps: seq<Step>, id: Id)
    requires p.budget.Valid() && ValidSteps(steps) && steps != []
    requires id in Run(p, EMPTY, steps).orders && id !in Run(p, EMPTY, steps[..|steps| - 1]).orders
    ensures FitsAt(p, steps, |steps| - 1, id, Run(p, EMPTY, steps).orders[id])
  {
    var last := |steps| - 1;
    RunKeeps(p, EMPTY, steps[..last]);
    NewOrdersFit(p, Run(p, EMPTY, steps[..last]), steps[last], id);
    assert steps[..last + 1] == steps;
  }

  /** Over every run, each order was submitted by one of its ticks, and says what its ID asked for there. */
  lemma {:induction false} EveryOrderFits(p: SessionPlan, steps: seq<Step>, id: Id)
    requires p.budget.Valid() && ValidSteps(steps) && id in Run(p, EMPTY, steps).orders
    ensures exists i :: 0 <= i < |steps| && FitsAt(p, steps, i, id, Run(p, EMPTY, steps).orders[id])
  {
    var last := |steps| - 1;
    if id in Run(p, EMPTY, steps[..last]).orders {
      var o := Run(p, EMPTY, steps[..last]).orders[id];
      EveryOrderFits(p, steps[..last], id);
      var i :| 0 <= i < last && FitsAt(p, steps[..last], i, id, o);
      FitsAtEarlier(p, steps, i, id, o);
      T.OrderStays(Run(p, EMPTY, steps[..last]), Cut(Tick(p, Run(p, EMPTY, steps[..last]), steps[last].input), steps[last].effects), id);
    } else {
      FitsAtLast(p, steps, id);
    }
  }
}
