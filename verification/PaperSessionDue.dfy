/** When the paper session's orders go out (execution/autonomous_paper_session.py): the exact conditions, over a tick
    that no crash cuts, for flattening, closing, reducing, protecting and entering. */
module PaperSessionDue {
  import opened PaperSession
  import opened PaperSessionSafety
  import opened PaperSessionGuards
  import opened PaperSessionOrders
  import opened Texts
  import T = PaperSessionTiming
  import L = PaperSessionLate
  import P = IntradayPolicy
  import E = PremarketEntry
  import A = Allocation

  // ---- what is reached ----

  lemma {:induction false} StoppedThere(a: seq<Effect>, b: seq<Effect>, writes: bool)
    requires Stops(a, writes)
    ensures Performed(a + b, writes) == Performed(a, writes)
    decreases |a|
  {
    if !Raises(a[0], writes) {
      var i :| 0 <= i < |a| && Raises(a[i], writes);
      assert a[1..][i - 1] == a[i];
      assert (a + b)[1..] == a[1..] + b;
      StoppedThere(a[1..], b, writes);
    }
  }

  /** After writes that submit nothing, an ID is submitted when they all get done and the rest submits it. */
  lemma SubmitsAfter(a: seq<Effect>, b: seq<Effect>, writes: bool, id: Id)
    requires NoOrder(a)
    ensures SubmitsId(Performed(a + b, writes), id) <==> !Stops(a, writes) && SubmitsId(Performed(b, writes), id)
  {
    PerformedIsPrefix(a, writes);
    if Stops(a, writes) {
      StoppedThere(a, b, writes);
    } else {
      PerformedAppend(a, b, writes);
      var rest := Performed(b, writes);
      if SubmitsId(rest, id) {
        var i :| 0 <= i < |rest| && rest[i].Submit? && rest[i].id == id;
        assert (a + rest)[|a| + i] == rest[i];
      }
    }
  }

  lemma PerformedSubmits(es: seq<Effect>, writes: bool, id: Id)
    ensures SubmitsId(Performed(es, writes), id) ==> SubmitsId(es, id)
  {
    PerformedIsPrefix(es, writes);
    if SubmitsId(Performed(es, writes), id) {
      var i :| 0 <= i < |Performed(es, writes)| && Performed(es, writes)[i].Submit? && Performed(es, writes)[i].id == id;
      assert es[i] == Performed(es, writes)[i];
    }
  }

  /** A command whose order is not out yet is sent, whatever follows, exactly when the broker takes writes. */
  lemma OnceSends(p: SessionPlan, w: World, id: Id, order: Order, rest: seq<Effect>, writes: bool)
    requires Inv(p, w) && OrderOk(p, id, order) && (IsBuy(id) ==> !Locked(w)) && id !in w.orders
    ensures writes ==> SubmitsId(Performed(Once(p, w, id, order) + rest, writes), id)
    ensures !Stops(Once(p, w, id, order), true)
  {
    OnceOk(p, w, id, order);
    assert id in w.commands ==> CommandOk(p, w, id);
    var once := Once(p, w, id, order);
    assert once == [EnsureCommand(id, IdentityOf(p, id)), Submit(id, order), CompleteCommand(id)];
    if writes {
      PerformedAppend(once, rest, writes);
      assert (once + Performed(rest, writes))[1] == Submit(id, order);
    }
  }

  // ---- cancelling the plan's own orders ----

  /** No row of a cancellation of the plan's own orders is of another symbol. */
  predicate OwnRowsAgree(p: SessionPlan, w: World, orders: seq<OpenOrder>) {
    forall i :: 0 <= i < |orders| && orders[i].symbol == p.symbol ==>
      !Conflicts(w, Cancel(orders[i].id), Identity(p.date, CancelKind, p.symbol))
  }

  lemma OwnRestAgrees(p: SessionPlan, w: World, v: World, orders: seq<OpenOrder>)
    requires orders != [] && orders[0].symbol == p.symbol
    requires var id, identity := Cancel(orders[0].id), Identity(p.date, CancelKind, p.symbol);
             !Conflicts(w, id, identity) && T.OneRowMore(w, v, id, identity)
    ensures OwnRowsAgree(p, w, orders) <==> OwnRowsAgree(p, v, orders[1..])
  {
    var rest := orders[1..];
    assert forall i :: 0 <= i < |rest| ==> rest[i] == orders[i + 1];
    if OwnRowsAgree(p, v, rest) {
      forall j | 0 < j < |orders| && orders[j].symbol == p.symbol
        ensures !Conflicts(w, Cancel(orders[j].id), Identity(p.date, CancelKind, p.symbol))
      {
        assert !Conflicts(v, Cancel(rest[j - 1].id), Identity(p.date, CancelKind, p.symbol));
      }
    }
  }

  lemma OwnCancelAgrees(p: SessionPlan, w: World, orders: seq<OpenOrder>)
    requires Inv(p, w) && orders != [] && orders[0].symbol == p.symbol
    ensures var conflicts := Conflicts(w, Cancel(orders[0].id), Identity(p.date, CancelKind, p.symbol));
            (Stops(CancelOnce(p, w, orders[0]), true) <==> conflicts)
            && (!conflicts ==>
                  (OwnRowsAgree(p, w, orders)
                   <==> OwnRowsAgree(p, After(w, CancelOnce(p, w, orders[0])), orders[1..])))
  {
    T.CancelOnceAgrees(p, w, orders);
    if !Conflicts(w, Cancel(orders[0].id), Identity(p.date, CancelKind, p.symbol)) {
      T.CancelRow(p, w, orders[0]);
      OwnRestAgrees(p, w, After(w, CancelOnce(p, w, orders[0])), orders);
    }
  }

  lemma {:induction false} OwnCancelsStopIff(p: SessionPlan, w: World, orders: seq<OpenOrder>)
    requires Inv(p, w)
    ensures Stops(CancelAll(p, w, orders, true), true) <==> !OwnRowsAgree(p, w, orders)
    decreases |orders|
  {
    if orders != [] {
      assert forall i :: 0 <= i < |orders[1..]| ==> orders[1..][i] == orders[i + 1];
      if orders[0].symbol != p.symbol {
        OwnCancelsStopIff(p, w, orders[1..]);
        assert OwnRowsAgree(p, w, orders[1..]) ==> OwnRowsAgree(p, w, orders) by {
          assert forall i :: 0 < i < |orders| ==> orders[i] == orders[1..][i - 1];
        }
      } else {
        var es := CancelOnce(p, w, orders[0]);
        OwnCancelAgrees(p, w, orders);
        CancelOnceOk(p, w, orders[0]);
        AllOkKeeps(p, w, es);
        OwnCancelsStopIff(p, After(w, es), orders[1..]);
        T.StopsEither(es, CancelAll(p, After(w, es), orders[1..], true), true);
      }
    }
  }

  // ---- which orders are cancelled ----

  predicate Listed(p: SessionPlan, orders: seq<OpenOrder>, own: bool, k: nat) {
    exists i :: 0 <= i < |orders| && orders[i].id == k && (own ==> orders[i].symbol == p.symbol)
  }

  lemma ListedRest(p: SessionPlan, orders: seq<OpenOrder>, own: bool, k: nat)
    requires orders != []
    ensures Listed(p, orders, own, k)
            <==> (orders[0].id == k && (own ==> orders[0].symbol == p.symbol)) || Listed(p, orders[1..], own, k)
  {
    var rest := orders[1..];
    if Listed(p, rest, own, k) {
      var i :| 0 <= i < |rest| && rest[i].id == k && (own ==> rest[i].symbol == p.symbol);
      assert orders[i + 1] == rest[i];
    }
    if Listed(p, orders, own, k) {
      var i :| 0 <= i < |orders| && orders[i].id == k && (own ==> orders[i].symbol == p.symbol);
      assert i > 0 ==> rest[i - 1] == orders[i];
    }
  }

  lemma CancelledOnce(p: SessionPlan, w: World, o: OpenOrder, k: nat)
    requires !Stops(CancelOnce(p, w, o), true)
    ensures CancelOrder(k) in CancelOnce(p, w, o) <==> o.id == k && !Completed(w, Cancel(k))
    ensures o.id != k || Completed(w, Cancel(k)) ==>
              (Completed(After(w, CancelOnce(p, w, o)), Cancel(k)) <==> Completed(w, Cancel(k)))
  {
    var id, identity := Cancel(o.id), Identity(p.date, CancelKind, o.symbol);
    CancelOnceIs(p, w, o);
    if Conflicts(w, id, identity) { assert Raises(CancelOnce(p, w, o)[0], true); }
    One(p, w, EnsureCommand(id, identity));
    Three(p, w, EnsureCommand(id, identity), CancelOrder(o.id), CompleteCommand(id));
    var v := After(w, CancelOnce(p, w, o));
    assert o.id != k ==> (Cancel(k) in v.commands <==> Cancel(k) in w.commands);
  }

  /** Cancelling that raises nothing cancels exactly the listed orders whose cancellation was not completed before. */
  lemma {:induction false} CancelsIff(p: SessionPlan, w: World, orders: seq<OpenOrder>, own: bool, k: nat)
    requires !Stops(CancelAll(p, w, orders, own), true)
    ensures CancelOrder(k) in CancelAll(p, w, orders, own)
            <==> !Completed(w, Cancel(k)) && Listed(p, orders, own, k)
    decreases |orders|
  {
    if orders != [] {
      ListedRest(p, orders, own, k);
      if own && orders[0].symbol != p.symbol {
        CancelsIff(p, w, orders[1..], own, k);
      } else {
        var es := CancelOnce(p, w, orders[0]);
        T.StopsEither(es, CancelAll(p, After(w, es), orders[1..], own), true);
        CancelledOnce(p, w, orders[0], k);
        CancelsIff(p, After(w, es), orders[1..], own, k);
      }
    }
  }

  predicate NoCancel(es: seq<Effect>) { forall i :: 0 <= i < |es| ==> !es[i].CancelOrder? }

  /** No cancellation stands behind an order. */
  predicate CancelsFirst(es: seq<Effect>) {
    forall i, j :: 0 <= i < j < |es| ==> !(es[i].Submit? && es[j].CancelOrder?)
  }

  lemma CancelsPerformed(a: seq<Effect>, b: seq<Effect>, k: nat)
    requires NoOrder(a) && !Stops(a, true) && NoCancel(b)
    ensures CancelOrder(k) in Performed(a + b, true) <==> CancelOrder(k) in a
    ensures CancelsFirst(Performed(a + b, true))
  {
    PerformedAppend(a, b, true);
    PerformedIsPrefix(b, true);
    var rest := Performed(b, true);
    assert NoCancel(rest);
    assert CancelOrder(k) in a + rest <==> CancelOrder(k) in a;
  }

  /** What a tick that nothing cuts leaves under an ID: an order exactly when the tick submits one, and then one that
      says what the ID asks for. */
  lemma TickedOrder(p: SessionPlan, w: World, x: Input, id: Id)
    requires p.budget.Valid() && Inv(p, w) && x.Valid() && id !in w.orders
    ensures id in L.Ticked(p, w, x).orders <==> SubmitsId(Tick(p, w, x), id)
    ensures id in L.Ticked(p, w, x).orders ==> Fits(p, w, x, id, L.Ticked(p, w, x).orders[id])
  {
    OrdersAfter(w, Tick(p, w, x), id);
    if id in L.Ticked(p, w, x).orders { NewOrdersFit(p, w, Step(x, |Tick(p, w, x)|), id); }
  }

  // ---- the hard loss ----

  lemma FlatteningSends(p: SessionPlan, w: World, x: Input)
    requires p.budget.Valid() && Inv(p, w) && HardFlat !in w.orders && x.holding.Long?
    ensures SubmitsId(Performed(Flatten(p, w, x), true), HardFlat) <==> T.SymbolsAgree(p, w, x.open)
  {
    var cancels, order := CancelAll(p, w, x.open, false), SellOrder(x, x.holding.shares);
    CancelAllOk(p, w, x.open, false);
    T.CancelAllStopsIff(p, w, x.open);
    CancelsOrderNothing(p, w, x.open, false);
    var once := Once(p, After(w, cancels), HardFlat, order);
    OnceSends(p, After(w, cancels), HardFlat, order, [LockDay], true);
    SubmitsAfter(cancels, once + [LockDay], true, HardFlat);
    assert Flatten(p, w, x) == cancels + (once + [LockDay]);
  }

  /** At a hard loss the whole position is sold exactly when the session may write, there is a position that can be read,
      and no cancellation meets a row of another symbol. */
  lemma HardLossSellsIff(p: SessionPlan, w: World, x: Input)
    requires p.budget.Valid() && Inv(p, w) && x.Valid() && T.HardLoss(w, x) && HardFlat !in w.orders
    ensures var v := L.Ticked(p, w, x);
            (HardFlat in v.orders <==> MayWrite(x) && x.holding.Long? && T.SymbolsAgree(p, w, x.open))
            && (HardFlat in v.orders ==> Sells(x, v.orders[HardFlat], x.holding.shares))
  {
    TickedOrder(p, w, x, HardFlat);
    if MayWrite(x) && x.holding.Long? { FlatteningSends(p, w, x); }
  }

  /** It asks the broker to cancel exactly the open orders, of every symbol, not cancelled before, and all of them before
      the position is sold. */
  lemma HardLossCancelsIff(p: SessionPlan, w: World, x: Input, k: nat)
    requires p.budget.Valid() && Inv(p, w) && x.Valid() && T.HardLoss(w, x)
    requires MayWrite(x) && T.SymbolsAgree(p, w, x.open)
    ensures CancelOrder(k) in Tick(p, w, x) <==> !Completed(w, Cancel(k)) && Listed(p, x.open, false, k)
    ensures CancelsFirst(Tick(p, w, x))
  {
    var cancels := CancelAll(p, w, x.open, false);
    T.CancelAllStopsIff(p, w, x.open);
    CancelsIff(p, w, x.open, false, k);
    CancelsOrderNothing(p, w, x.open, false);
    var rest := SellAll(p, After(w, cancels), x, HardFlat) + [LockDay];
    CancelsPerformed(cancels, rest, k);
    assert Intended(p, w, x) == cancels + rest;
  }

  // ---- decisions ----

  /** The tick gets to a decision: nothing is locked, the guardian is clear, the day is above its hard loss and the
      snapshot could be completed. */
  predicate Decides(p: SessionPlan, w: World, x: Input)
    requires p.budget.Valid()
  {
    !Locked(w) && x.guardian == Clear && x.dailyReturn > -0.02 && Lifecycle(p, w, x).1.Some?
  }

  function Decision(p: SessionPlan, w: World, x: Input): P.Decision
    requires p.budget.Valid() && Decides(p, w, x)
  {
    DecisionFor(p, x, Lifecycle(p, w, x).1.value)
  }

  /** The world the decision is acted on in: marks aside it is the one the tick began with. */
  function Marked(p: SessionPlan, w: World, x: Input): World
    requires p.budget.Valid()
  {
    After(w, Lifecycle(p, w, x).0)
  }

  lemma TickIsDecided(p: SessionPlan, w: World, x: Input)
    requires p.budget.Valid() && Decides(p, w, x)
    ensures Tick(p, w, x)
         == Performed(Lifecycle(p, w, x).0 + Act(p, Marked(p, w, x), x, Decision(p, w, x)), x.writesEnabled)
  {
    assert Intended(p, w, x) == Decided(p, w, x);
  }

  lemma MarkedOk(p: SessionPlan, w: World, x: Input)
    requires p.budget.Valid() && Inv(p, w) && x.Valid() && Decides(p, w, x)
    ensures var v := Marked(p, w, x);
            Inv(p, v) && !Locked(v) && v == w.(profit := v.profit, tail := v.tail) && DecisionOk(Decision(p, w, x))
            && NoOrder(Lifecycle(p, w, x).0) && !Stops(Lifecycle(p, w, x).0, x.writesEnabled)
  {
    LifecycleOk(p, w, x);
  }

  /** What the marks leave of the tick is what the decision's writes do. */
  lemma DecidedSubmits(p: SessionPlan, w: World, x: Input, id: Id)
    requires p.budget.Valid() && Inv(p, w) && x.Valid() && Decides(p, w, x)
    ensures var v := Marked(p, w, x);
            Inv(p, v) && !Locked(v) && v == w.(profit := v.profit, tail := v.tail) && DecisionOk(Decision(p, w, x))
            && (SubmitsId(Tick(p, w, x), id)
                <==> SubmitsId(Performed(Act(p, v, x, Decision(p, w, x)), x.writesEnabled), id))
  {
    MarkedOk(p, w, x);
    TickIsDecided(p, w, x);
    SubmitsAfter(Lifecycle(p, w, x).0, Act(p, Marked(p, w, x), x, Decision(p, w, x)), x.writesEnabled, id);
  }

  // ---- closing ----

  lemma ClosingSends(p: SessionPlan, w: World, x: Input, d: P.Decision)
    requires p.budget.Valid() && Inv(p, w) && Exit(d.reason) !in w.orders && x.holding.Long?
    ensures SubmitsId(Performed(ClosePosition(p, w, x, d), true), Exit(d.reason)) <==> OwnRowsAgree(p, w, x.open)
  {
    var cancels, id, order := CancelAll(p, w, x.open, true), Exit(d.reason), SellOrder(x, x.holding.shares);
    CancelAllOk(p, w, x.open, true);
    OwnCancelsStopIff(p, w, x.open);
    CancelsOrderNothing(p, w, x.open, true);
    var once := Once(p, After(w, cancels), id, order);
    OnceSends(p, After(w, cancels), id, order, [], true);
    assert once + [] == once;
    SubmitsAfter(cancels, once, true, id);
  }

  /** A due exit, or one at the second profit target, sells the whole position exactly when the session may write, the
      position can be read, and no cancellation of the plan's orders meets a row of another symbol. */
  lemma ExitSellsIff(p: SessionPlan, w: World, x: Input)
    requires p.budget.Valid() && Inv(p, w) && x.Valid() && Decides(p, w, x)
    requires var s := Lifecycle(p, w, x).1.value;
             P.ExitDue(s) || (s.Held() && p.takeProfit2.Some? && x.bid >= p.takeProfit2.value)
    ensures var v, id := L.Ticked(p, w, x), Exit(Decision(p, w, x).reason);
            id !in w.orders ==>
              (id in v.orders <==> MayWrite(x) && x.holding.Long? && OwnRowsAgree(p, w, x.open))
              && (id in v.orders ==> Sells(x, v.orders[id], x.holding.shares))
  {
    var d, v := Decision(p, w, x), Marked(p, w, x);
    LifecycleOk(p, w, x);
    P.ExitsIff(Lifecycle(p, w, x).1.value);
    assert d.action == P.Exit;
    if Exit(d.reason) !in w.orders {
      TickedOrder(p, w, x, Exit(d.reason));
      DecidedSubmits(p, w, x, Exit(d.reason));
      if MayWrite(x) && x.holding.Long? {
        ClosingSends(p, v, x, d);
        assert OwnRowsAgree(p, v, x.open) <==> OwnRowsAgree(p, w, x.open);
      }
    }
  }

  /** A due exit asks the broker to cancel exactly the plan's own open orders not cancelled before, and no others. */
  lemma ExitCancelsIff(p: SessionPlan, w: World, x: Input, k: nat)
    requires p.budget.Valid() && Inv(p, w) && x.Valid() && Decides(p, w, x) && Decision(p, w, x).action == P.Exit
    requires MayWrite(x) && OwnRowsAgree(p, w, x.open)
    ensures CancelOrder(k) in Tick(p, w, x) <==> !Completed(w, Cancel(k)) && Listed(p, x.open, true, k)
    ensures CancelsFirst(Tick(p, w, x))
  {
    var v, es := Marked(p, w, x), Lifecycle(p, w, x).0;
    MarkedOk(p, w, x);
    LifecycleMarks(p, w, x);
    TickIsDecided(p, w, x);
    assert OwnRowsAgree(p, v, x.open) <==> OwnRowsAgree(p, w, x.open);
    ClosingCancels(p, v, x, Decision(p, w, x), es, k);
  }

  lemma ClosingCancels(p: SessionPlan, w: World, x: Input, d: P.Decision, es: seq<Effect>, k: nat)
    requires p.budget.Valid() && Inv(p, w) && OwnRowsAgree(p, w, x.open) && MayWrite(x) && d.action == P.Exit
    requires NoOrder(es) && NoCancel(es) && !Stops(es, true)
    ensures CancelOrder(k) in Performed(es + Act(p, w, x, d), true)
            <==> !Completed(w, Cancel(k)) && Listed(p, x.open, true, k)
    ensures CancelsFirst(Performed(es + Act(p, w, x, d), true))
  {
    var cancels := CancelAll(p, w, x.open, true);
    var rest := SellAll(p, After(w, cancels), x, Exit(d.reason));
    OwnCancelsStopIff(p, w, x.open);
    CancelsIff(p, w, x.open, true, k);
    CancelsOrderNothing(p, w, x.open, true);
    T.StopsEither(es, cancels, true);
    CancelsPerformed(es + cancels, rest, k);
    assert es + Act(p, w, x, d) == es + cancels + rest;
  }

  // ---- reducing ----

  /** No protective stop of a premarket position is missing in regular hours. */
  predicate Protected(w: World, x: Input) {
    OpenHours(x) && w.premarket.Some? && !x.holding.Flat? ==> x.holding.Long? && x.protective.Working?
  }

  lemma ReducingSends(p: SessionPlan, w: World, x: Input, d: P.Decision, id: Id)
    requires p.budget.Valid() && Inv(p, w) && Excess(p, x, d) > 0
    requires id == Reduction(d.action, A.TargetQuantity(p.budget, x.equity, d.target), d.reason) && id !in w.orders
    ensures SubmitsId(Performed(Reduce(p, w, x, d), true), id) <==> OwnRowsAgree(p, w, x.open)
  {
    var cancels, order := CancelAll(p, w, x.open, true), SellOrder(x, Excess(p, x, d));
    CancelAllOk(p, w, x.open, true);
    OwnCancelsStopIff(p, w, x.open);
    CancelsOrderNothing(p, w, x.open, true);
    var once := Once(p, After(w, cancels), id, order);
    OnceSends(p, After(w, cancels), id, order, [], true);
    assert once + [] == once;
    SubmitsAfter(cancels, once, true, id);
  }

  /** A due trim or tail reduction sells exactly what is held above its target, and does so exactly when more is held, the
      session may write, a stop that is needed stands, and no cancellation meets a row of another symbol. */
  lemma ReductionLeavesTargetIff(p: SessionPlan, w: World, x: Input)
    requires p.budget.Valid() && Inv(p, w) && x.Valid() && Decides(p, w, x) && Sheds(Decision(p, w, x).action)
    ensures var v, d := L.Ticked(p, w, x), Decision(p, w, x);
            var target := A.TargetQuantity(p.budget, x.equity, d.target);
            var id := Reduction(d.action, target, d.reason);
            id !in w.orders ==>
              (id in v.orders
               <==> MayWrite(x) && !x.holding.Unsound? && SharesHeld(x) > target && Protected(w, x)
                    && OwnRowsAgree(p, w, x.open))
              && (id in v.orders ==>
                    SharesHeld(x) - v.orders[id].quantity == target && Sells(x, v.orders[id], SharesHeld(x) - target))
  {
    var d, v := Decision(p, w, x), Marked(p, w, x);
    var target := A.TargetQuantity(p.budget, x.equity, d.target);
    var id := Reduction(d.action, target, d.reason);
    if id !in w.orders {
      TickedOrder(p, w, x, id);
      DecidedSubmits(p, w, x, id);
      assert OwnRowsAgree(p, v, x.open) <==> OwnRowsAgree(p, w, x.open);
      if MayWrite(x) && !x.holding.Unsound? && SharesHeld(x) > target {
        if Protected(w, x) {
          assert ProtectionFor(v, x).NotNeeded?;
          ReducingSends(p, v, x, d, id);
        } else {
          UnprotectedSendsOnlyStops(p, v, x, d, id);
        }
      }
    }
  }

  lemma UnprotectedSendsOnlyStops(p: SessionPlan, w: World, x: Input, d: P.Decision, id: Id)
    requires p.budget.Valid() && !Protected(w, x) && d.action != P.Exit && !id.Protection?
    ensures !SubmitsId(Performed(Act(p, w, x, d), x.writesEnabled), id)
  {
    PerformedSubmits(Act(p, w, x, d), x.writesEnabled, id);
  }

  // ---- protecting ----

  /** A stop for these shares is placed exactly when a premarket position that is readable, of as many shares up to the
      entry's target, has none in regular hours, the session may write, and the decision neither closes the position
      nor is a buy below the soft loss. */
  lemma ProtectsIff(p: SessionPlan, w: World, x: Input, shares: int)
    requires p.budget.Valid() && Inv(p, w) && x.Valid() && Decides(p, w, x) && Protection(shares) !in w.orders
    ensures var v, d := L.Ticked(p, w, x), Decision(p, w, x);
            (Protection(shares) in v.orders
             <==> MayWrite(x) && OpenHours(x) && x.protective.Missing? && x.holding.Long? && w.premarket.Some?
                  && shares == (if w.premarket.value.plan.target < SharesHeld(x) then w.premarket.value.plan.target
                                else SharesHeld(x))
                  && d.action != P.Exit && !(Buys(d.action) && x.dailyReturn <= -0.015))
            && (Protection(shares) in v.orders ==>
                  v.orders[Protection(shares)] == Order(SellSide, shares, Some(p.budget.hardStop), x.observed))
  {
    var d, v, id := Decision(p, w, x), Marked(p, w, x), Protection(shares);
    TickedOrder(p, w, x, id);
    DecidedSubmits(p, w, x, id);
    if d.action == P.Exit {
      ClosingStopsNothing(p, v, x, d, id);
    } else if Buys(d.action) && x.dailyReturn <= -0.015 {
      assert Act(p, v, x, d) == [];
    } else if ProtectionFor(v, x) == Place(shares) {
      ProtectionSends(p, v, x, d, shares);
    }
  }

  lemma ProtectionSends(p: SessionPlan, w: World, x: Input, d: P.Decision, shares: int)
    requires p.budget.Valid() && Inv(p, w) && Protection(shares) !in w.orders && ProtectionFor(w, x) == Place(shares)
    requires d.action != P.Exit && !(Buys(d.action) && x.dailyReturn <= -0.015)
    ensures SubmitsId(Performed(Act(p, w, x, d), x.writesEnabled), Protection(shares))
  {
    var order := Order(SellSide, shares, Some(p.budget.hardStop), x.observed);
    OnceSends(p, w, Protection(shares), order, [], true);
    assert Once(p, w, Protection(shares), order) + [] == Once(p, w, Protection(shares), order);
  }

  lemma ClosingStopsNothing(p: SessionPlan, w: World, x: Input, d: P.Decision, id: Id)
    requires p.budget.Valid() && d.action == P.Exit && !id.Exit?
    ensures !SubmitsId(Performed(Act(p, w, x, d), x.writesEnabled), id)
  {
    PerformedSubmits(Act(p, w, x, d), x.writesEnabled, id);
    CancelsOrderNothing(p, w, x.open, true);
  }

  // ---- entering ----

  lemma {:induction false} BoughtOnlyAfter(a: seq<Effect>, b: seq<Effect>)
    requires NoOrder(a)
    ensures SharesBought(a + b) == SharesBought(b)
    decreases |b|
  {
    if b == [] {
      assert a + b == a;
      NothingBought(a);
    } else {
      assert (a + b)[..|a + b| - 1] == a + b[..|b| - 1];
      BoughtOnlyAfter(a, b[..|b| - 1]);
    }
  }

  lemma {:induction false} NothingBought(a: seq<Effect>)
    requires NoOrder(a)
    ensures SharesBought(a) == 0
    decreases |a|
  {
    if a != [] { NothingBought(a[..|a| - 1]); }
  }

  lemma ComponentBuysIff(p: SessionPlan, w: World, x: Input, d: P.Decision, c: Component, quantity: int)
    requires Inv(p, w) && !Locked(w) && Buys(d.action) && DecisionOk(d)
    requires !Completed(w, Regular(d.action, FourDecimals(d.target), c))
    ensures var es := SubmitComponent(p, w, x, d, c, quantity);
            (HasBuy(es) <==> quantity > 0) && !Stops(es, true)
  {
    if quantity > 0 {
      var id, order := Regular(d.action, FourDecimals(d.target), c), Order(BuySide, quantity, None, x.observed);
      assert FourDecimals(0.25) == 2500 && FourDecimals(0.50) == 5000;
      OnceOk(p, w, id, order);
      assert IsBuyOf(Once(p, w, id, order)[1]);
    }
  }

  /** None of a decision's two orders is out. */
  predicate NotEntered(w: World, d: P.Decision) {
    forall c: Component :: Regular(d.action, FourDecimals(d.target), c) !in w.orders
  }

  lemma RegularBuys(p: SessionPlan, w: World, x: Input, d: P.Decision)
    requires p.budget.Valid() && Inv(p, w) && !Locked(w) && x.equity > 0.0 && Buys(d.action) && DecisionOk(d)
    requires NotEntered(w, d)
    ensures var es, step := RunRegular(p, w, x, d), A.TargetQuantity(p.budget, x.equity, d.target)
                                                    - A.TargetQuantity(p.budget, x.equity, PriorFraction(d.action));
            (HasBuy(es) <==> step > 0) && SharesBought(es) == step && !Stops(es, true)
  {
    forall c: Component ensures !Completed(w, Regular(d.action, FourDecimals(d.target), c)) {
      var id := Regular(d.action, FourDecimals(d.target), c);
      if id in w.commands { assert CommandOk(p, w, id); }
    }
    EntryBuysExactly(p, w, x, d);
    var tail := P.TailChoice(x.policy).1;
    A.ComponentsAreExact(p.budget, x.equity, PriorFraction(d.action), d.target, tail);
    var (t, m) := A.Components(p.budget, x.equity, PriorFraction(d.action), d.target, tail);
    var first := SubmitComponent(p, w, x, d, TailPart, t);
    ComponentBuysIff(p, w, x, d, TailPart, t);
    ComponentOk(p, w, x, d, TailPart, t);
    OtherIncomplete(p, w, x, d, t);
    ComponentBuysIff(p, After(w, first), x, d, MainPart, m);
    NoBuyIn(first, SubmitComponent(p, After(w, first), x, d, MainPart, m));
    T.StopsEither(first, SubmitComponent(p, After(w, first), x, d, MainPart, m), true);
  }

  /** The entry's stage: from nothing to a quarter of the full size, or from a quarter to a half. */
  predicate Stage(p: SessionPlan, x: Input, a: P.Action, from: int, to: int)
    requires p.budget.Valid()
  {
    if a == P.EnterProbe then from == 0 && to == A.TargetQuantity(p.budget, x.equity, 0.25)
    else from == A.TargetQuantity(p.budget, x.equity, 0.25) && to == A.TargetQuantity(p.budget, x.equity, 0.50)
  }

  lemma UnprotectedBuysNothing(p: SessionPlan, w: World, x: Input, d: P.Decision)
    requires p.budget.Valid() && !Protected(w, x) && Buys(d.action)
    ensures !HasBuy(Act(p, w, x, d))
  {
  }

  lemma EnoughBuysNothing(p: SessionPlan, w: World, x: Input, d: P.Decision)
    requires p.budget.Valid() && Buys(d.action) && OpenHours(x)
    requires x.holding.Unsound? || A.TargetQuantity(p.budget, x.equity, d.target) - SharesHeld(x) <= 0
    ensures !HasBuy(Proceed(p, w, x, d))
  {
    var es := RunEntry(p, w, x, d).0;
    assert es == [] || es == [Fault];
    assert Continue(p, After(w, es), x) == [];
  }

  lemma RegularActBuys(p: SessionPlan, w: World, x: Input, d: P.Decision, from: int, to: int)
    requires p.budget.Valid() && Inv(p, w) && !Locked(w) && x.equity > 0.0 && Buys(d.action) && DecisionOk(d)
    requires NotEntered(w, d) && EntryGuards(x) && OpenHours(x) && Stage(p, x, d.action, from, to)
    ensures var es := Performed(Act(p, w, x, d), true);
            (HasBuy(es) <==> Protected(w, x) && !x.holding.Unsound? && SharesHeld(x) < to && from < to)
            && (HasBuy(es) ==> SharesBought(es) == to - from)
  {
    PerformedBuys(Act(p, w, x, d), true);
    if !Protected(w, x) {
      UnprotectedBuysNothing(p, w, x, d);
    } else {
      ActProceeds(p, w, x, d);
      if x.holding.Unsound? || SharesHeld(x) >= to {
        EnoughBuysNothing(p, w, x, d);
      } else {
        assert A.TargetQuantity(p.budget, x.equity, 0.0) == 0;
        RegularBuys(p, w, x, d);
        assert Proceed(p, w, x, d) == RunRegular(p, w, x, d);
        PerformedIsPrefix(RunRegular(p, w, x, d), true);
      }
    }
  }

  lemma ActProceeds(p: SessionPlan, w: World, x: Input, d: P.Decision)
    requires p.budget.Valid() && Protected(w, x) && Buys(d.action) && x.dailyReturn > -0.015
    ensures x.holding.Unsound? || Act(p, w, x, d) == Proceed(p, w, x, d)
    ensures x.holding.Unsound? && Act(p, w, x, d) != Proceed(p, w, x, d) ==> Act(p, w, x, d) == [Fault]
  {
  }

  lemma BoughtAfter(a: seq<Effect>, b: seq<Effect>, writes: bool)
    requires NoOrder(a) && !Stops(a, writes)
    ensures SharesBought(Performed(a + b, writes)) == SharesBought(Performed(b, writes))
    ensures HasBuy(Performed(a + b, writes)) <==> HasBuy(Performed(b, writes))
  {
    PerformedAppend(a, b, writes);
    BoughtOnlyAfter(a, Performed(b, writes));
    NoBuyIn(a, Performed(b, writes));
  }

  /** In regular hours an entry that has passed its checks and is not out yet buys exactly its stage's shares, and does so
      exactly when fewer than its target are held, the position can be read, the stage has shares, and a stop that is
      needed stands. */
  lemma RegularEntryBuysIff(p: SessionPlan, w: World, x: Input, from: int, to: int)
    requires p.budget.Valid() && Inv(p, w) && x.Valid() && Decides(p, w, x) && Buys(Decision(p, w, x).action)
    requires EntryGuards(x) && OpenHours(x) && NotEntered(w, Decision(p, w, x))
    requires Stage(p, x, Decision(p, w, x).action, from, to)
    ensures (HasBuy(Tick(p, w, x)) <==> Protected(w, x) && !x.holding.Unsound? && SharesHeld(x) < to && from < to)
    ensures HasBuy(Tick(p, w, x)) ==> SharesBought(Tick(p, w, x)) == to - from
  {
    MarkedOk(p, w, x);
    TickIsDecided(p, w, x);
    RegularActBuys(p, Marked(p, w, x), x, Decision(p, w, x), from, to);
    BoughtAfter(Lifecycle(p, w, x).0, Act(p, Marked(p, w, x), x, Decision(p, w, x)), true);
  }

  lemma FirstDecision(p: SessionPlan, w: World, x: Input, target: nat)
    requires p.budget.Valid() && w.premarket.None? && x.policy.data && SharesHeld(x) < target
    ensures var r := RecordFor(p, w, target);
            PremarketDecision(x, r).Ok? && PremarketDecision(x, r).value.action == E.SubmitLimit
            && PremarketDecision(x, r).value.runtime.attempt == 0
  {
  }

  lemma FirstPremarketSends(p: SessionPlan, w: World, x: Input, target: nat)
    requires p.budget.Valid() && Inv(p, w) && !Locked(w) && w.premarket.None? && Premarket(0) !in w.orders
    requires x.policy.data && SharesHeld(x) < target
    ensures SubmitsId(Performed(RunPremarket(p, w, x, target).0, true), Premarket(0)) && RunPremarket(p, w, x, target).1
  {
    var r := RecordFor(p, w, target);
    FirstDecision(p, w, x, target);
    OpeningOk(p, w, target);
    PremarketDecisionOk(p, x, r);
    var d, v := PremarketDecision(x, r).value, After(w, Opening(w, r));
    var order, save := Order(BuySide, d.remaining, d.limit, x.observed), SavePremarket(d.runtime, ActiveAfter(r, d));
    var once := Once(p, v, Premarket(0), order);
    OnceSends(p, v, Premarket(0), order, [save], true);
    assert After(v, []) == v;
    assert CarryOut(p, v, x, r, d) == once + [save];
    SubmitsAfter(Opening(w, r), once + [save], true, Premarket(0));
  }

  /** In premarket hours a due probe that has passed its checks submits its first order exactly when fewer than a quarter
      of the full size are held and the position can be read: for the rest, at the ask or the chase cap. */
  lemma FirstPremarketOrderIff(p: SessionPlan, w: World, x: Input)
    requires p.budget.Valid() && Inv(p, w) && x.Valid() && Decides(p, w, x) && P.ProbeDue(Lifecycle(p, w, x).1.value)
    requires EntryGuards(x) && EarlyHours(x) && w.premarket.None? && Premarket(0) !in w.orders
    ensures var v, target := L.Ticked(p, w, x), A.TargetQuantity(p.budget, x.equity, 0.25);
            (Premarket(0) in v.orders <==> !x.holding.Unsound? && SharesHeld(x) < target)
            && (Premarket(0) in v.orders ==> Chases(p, x, v.orders[Premarket(0)], target))
  {
    var d, v, target := Decision(p, w, x), Marked(p, w, x), A.TargetQuantity(p.budget, x.equity, 0.25);
    LifecycleOk(p, w, x);
    P.ProbesIff(Lifecycle(p, w, x).1.value);
    TickedOrder(p, w, x, Premarket(0));
    DecidedSubmits(p, w, x, Premarket(0));
    assert d.action == P.EnterProbe && d.target == 0.25;
    if !x.holding.Unsound? && SharesHeld(x) < target {
      FirstPremarketSends(p, v, x, target);
      assert Act(p, v, x, d) == RunPremarket(p, v, x, target).0;
    } else {
      assert Act(p, v, x, d) == [Fault] || Act(p, v, x, d) == [] + Continue(p, After(v, []), x);
      PerformedSubmits(Act(p, v, x, d), true, Premarket(0));
    }
  }
}
