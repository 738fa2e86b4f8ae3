/** Which guards a buy of the paper session has passed, and what a premarket entry that is already running does without
    them. */
module PaperSessionGuards {
  import opened PaperSession
  import opened PaperSessionSafety
  import opened Texts
  import P = IntradayPolicy
  import E = PremarketEntry
  import A = Allocation

  predicate IsBuyOf(e: Effect) { e.Submit? && IsBuy(e.id) }

  predicate HasBuy(es: seq<Effect>) { exists i :: 0 <= i < |es| && IsBuyOf(es[i]) }

  /** What an entry asks for before it buys: the paper account's authorisation and writes, a quote of at most thirty
      seconds, a day above its soft loss, and an active account. */
  predicate EntryGuards(x: Input) {
    x.paperAuthorised && x.writesEnabled && x.observed - x.quoteAt <= 30_000_000 && x.dailyReturn > -0.015
    && x.accountActive
  }

  // ---- what never buys ----

  lemma NoBuyIn(a: seq<Effect>, b: seq<Effect>)
    ensures HasBuy(a + b) <==> HasBuy(a) || HasBuy(b)
  {
    if HasBuy(a) {
      var i :| 0 <= i < |a| && IsBuyOf(a[i]);
      assert (a + b)[i] == a[i];
    }
    if HasBuy(b) {
      var i :| 0 <= i < |b| && IsBuyOf(b[i]);
      assert (a + b)[|a| + i] == b[i];
    }
  }

  lemma {:induction false} CancelsBuyNothing(p: SessionPlan, w: World, orders: seq<OpenOrder>, own: bool)
    ensures !HasBuy(CancelAll(p, w, orders, own))
    decreases |orders|
  {
    if orders != [] {
      if own && orders[0].symbol != p.symbol {
        CancelsBuyNothing(p, w, orders[1..], own);
      } else {
        var es := CancelOnce(p, w, orders[0]);
        CancelsBuyNothing(p, After(w, es), orders[1..], own);
        NoBuyIn(es, CancelAll(p, After(w, es), orders[1..], own));
      }
    }
  }

  lemma ClosingBuysNothing(p: SessionPlan, w: World, x: Input, d: P.Decision)
    requires p.budget.Valid()
    ensures !HasBuy(ClosePosition(p, w, x, d)) && !HasBuy(Reduce(p, w, x, d))
  {
    var cancels := CancelAll(p, w, x.open, true);
    var id := Reduction(d.action, A.TargetQuantity(p.budget, x.equity, d.target), d.reason);
    CancelsBuyNothing(p, w, x.open, true);
    NoBuyIn(cancels, SellAll(p, After(w, cancels), x, Exit(d.reason)));
    NoBuyIn(cancels, Once(p, After(w, cancels), id, SellOrder(x, Excess(p, x, d))));
  }

  lemma FlatteningBuysNothing(p: SessionPlan, w: World, x: Input)
    ensures !HasBuy(Flatten(p, w, x))
  {
    var cancels := CancelAll(p, w, x.open, false);
    var sells := SellAll(p, After(w, cancels), x, HardFlat);
    CancelsBuyNothing(p, w, x.open, false);
    NoBuyIn(cancels, sells);
    NoBuyIn(cancels + sells, [LockDay]);
  }

  /** A buy before which nothing raises is made. */
  lemma BuyPerformed(es: seq<Effect>, i: nat, writes: bool)
    requires i < |es| && IsBuyOf(es[i]) && forall j :: 0 <= j <= i ==> !Raises(es[j], writes)
    ensures HasBuy(Performed(es, writes))
  {
    PerformedIsPrefix(es, writes);
    assert |Performed(es, writes)| > i;
    assert Performed(es, writes)[i] == es[i];
  }

  lemma PerformedBuys(es: seq<Effect>, writes: bool)
    ensures HasBuy(Performed(es, writes)) ==> HasBuy(es) && writes
  {
    PerformedIsPrefix(es, writes);
    if HasBuy(Performed(es, writes)) {
      var i :| 0 <= i < |Performed(es, writes)| && IsBuyOf(Performed(es, writes)[i]);
      assert es[i] == Performed(es, writes)[i];
    }
  }

  // ---- a premarket entry that goes on ----

  function NextAttempt(r: E.Runtime): nat { if r.started.None? then 0 else r.attempt + 1 }

  /** The running entry's next order is due, was not completed before, and its cancellation of the working order meets
      no row under another symbol. */
  predicate NextOrderDue(p: SessionPlan, w: World, x: Input)
    requires w.premarket.Some?
  {
    var r := w.premarket.value;
    E.SubmitDue(r.plan, r.runtime, EngineView(x, r)) && !Completed(w, Premarket(NextAttempt(r.runtime)))
    && (r.runtime.started.Some? && x.active.Some? ==>
          !Conflicts(w, Cancel(x.active.value.id), Identity(p.date, CancelKind, x.active.value.symbol)))
  }

  /** What carrying out a decision does about buying. */
  lemma CarryOutBuysIff(p: SessionPlan, w: World, x: Input, after: seq<Effect>)
    requires p.budget.Valid() && Inv(p, w) && !Locked(w) && w.premarket.Some? && !HasBuy(after)
    ensures var r := w.premarket.value;
            PremarketDecision(x, r).Ok?
            && (HasBuy(Performed(CarryOut(p, w, x, r, PremarketDecision(x, r).value) + after, x.writesEnabled))
                <==> x.writesEnabled && NextOrderDue(p, w, x))
  {
    var r := w.premarket.value;
    PremarketDecisionOk(p, x, r);
    var d := PremarketDecision(x, r).value;
    E.SubmitsIff(r.plan, r.runtime, EngineView(x, r));
    var cancel := CancelActive(p, w, x, r, d);
    CancelActiveOk(p, w, x, r, d);
    CancelKeepsCompleted(p, w, x, r, d);
    var submit := SubmitPremarket(p, After(w, cancel), x, d);
    SubmitHasBuyIff(p, After(w, cancel), x, d);
    SubmittedIff(cancel, submit, [SavePremarket(d.runtime, ActiveAfter(r, d))], after, x.writesEnabled);
  }

  /** A buy stands between writes that do not buy: it is made exactly when there is one, writes are enabled and the
      cancellation before it does not raise. */
  lemma SubmittedIff(cancel: seq<Effect>, submit: seq<Effect>, save: seq<Effect>, after: seq<Effect>, writes: bool)
    requires !HasBuy(cancel) && !HasBuy(save) && !HasBuy(after)
    requires forall i :: 0 <= i < |cancel| && cancel[i].Fault? ==> i == 0 && cancel == [Fault]
    requires HasBuy(submit) ==> |submit| == 3 && submit[0].EnsureCommand? && IsBuyOf(submit[1])
    ensures HasBuy(Performed(cancel + submit + save + after, writes)) <==> HasBuy(submit) && writes && cancel != [Fault]
  {
    var all := cancel + submit + save + after;
    NoBuyIn(cancel, submit);
    NoBuyIn(cancel + submit, save);
    NoBuyIn(cancel + submit + save, after);
    PerformedBuys(all, writes);
    if cancel == [Fault] {
      assert all[0] == Fault;
      assert Performed(all, writes) == [];
    } else if HasBuy(submit) && writes {
      assert forall j :: 0 <= j < |cancel| ==> all[j] == cancel[j];
      assert all[|cancel|] == submit[0] && all[|cancel| + 1] == submit[1];
      BuyPerformed(all, |cancel| + 1, writes);
    }
  }

  lemma SubmitHasBuyIff(p: SessionPlan, w: World, x: Input, d: E.Decision)
    requires Inv(p, w) && !Locked(w) && d.runtime.attempt <= 2
    requires E.Submits(d.action) ==> d.limit.Some? && d.limit.value <= Cap(p)
    ensures var es := SubmitPremarket(p, w, x, d);
            (HasBuy(es) <==> E.Submits(d.action) && !Completed(w, Premarket(d.runtime.attempt)))
            && (HasBuy(es) ==> |es| == 3 && es[0].EnsureCommand? && IsBuyOf(es[1]))
  {
    if E.Submits(d.action) {
      var id, order := Premarket(d.runtime.attempt), Order(BuySide, d.remaining, d.limit, x.observed);
      OnceOk(p, w, id, order);
      if !Completed(w, id) { assert IsBuyOf(Once(p, w, id, order)[1]); }
    }
  }

  /** Cancelling completes no order's command, and raises exactly on a row under another symbol. */
  lemma CancelKeepsCompleted(p: SessionPlan, w: World, x: Input, r: Record, d: E.Decision)
    ensures var es := CancelActive(p, w, x, r, d);
            !HasBuy(es) && (forall id: Id :: !id.Cancel? ==> (Completed(After(w, es), id) <==> Completed(w, id)))
            && ((exists i :: 0 <= i < |es| && es[i].Fault?) ==> es == [Fault])
            && (es == [Fault] <==>
                  (d.action == E.CancelReplace || d.action == E.CancelRemainder || d.action == E.Abandon)
                  && r.active.Some? && x.active.Some?
                  && Conflicts(w, Cancel(x.active.value.id), Identity(p.date, CancelKind, x.active.value.symbol)))
  {
    var es := CancelActive(p, w, x, r, d);
    if es != [] {
      var o := x.active.value;
      var ensured := EnsureCommand(Cancel(o.id), Identity(p.date, CancelKind, o.symbol));
      One(p, w, es[0]);
      Three(p, w, ensured, CancelOrder(o.id), CompleteCommand(Cancel(o.id)));
      assert [ensured, CancelOrder(o.id)] + [] == [ensured, CancelOrder(o.id)];
      assert [ensured, CancelOrder(o.id)] + [CompleteCommand(Cancel(o.id))]
          == [ensured, CancelOrder(o.id), CompleteCommand(Cancel(o.id))];
    }
  }

  /** Carrying on buys exactly when a readable running entry's next order is due and writes are enabled. */
  lemma ContinueBuysIff(p: SessionPlan, w: World, x: Input)
    requires p.budget.Valid() && Inv(p, w) && !Locked(w)
    ensures HasBuy(Performed(Continue(p, w, x), x.writesEnabled))
            <==> RunningPremarket(w, x) && !x.holding.Unsound? && x.writesEnabled && NextOrderDue(p, w, x)
  {
    PerformedBuys(Continue(p, w, x), x.writesEnabled);
    if RunningPremarket(w, x) && !x.holding.Unsound? {
      var r := w.premarket.value;
      CarryOutBuysIff(p, w, x, ExtendedStop(x));
      assert [] + CarryOut(p, w, x, r, PremarketDecision(x, r).value) == CarryOut(p, w, x, r, PremarketDecision(x, r).value);
      assert RunPremarket(p, w, x, r.plan.target).0 == CarryOut(p, w, x, r, PremarketDecision(x, r).value);
    } else {
      NoBuyIn(if RunningPremarket(w, x) then [Fault] else [], ExtendedStop(x));
    }
  }

  // ---- the whole tick ----

  /** A decision that does not end the tick before a running premarket entry is carried on: no exit, no buy that a
      guard stops, no reduction that is unauthorised or sells. */
  predicate LetsOn(p: SessionPlan, x: Input, d: P.Decision)
    requires p.budget.Valid()
  {
    d.action != P.Exit
    && (Buys(d.action) ==> x.dailyReturn > -0.015 && x.Fresh() && x.Authorised())
    && (Sheds(d.action) ==> x.Authorised() && Excess(p, x, d) <= 0)
  }

  lemma PassingContinues(p: SessionPlan, w: World, x: Input, d: P.Decision)
    requires p.budget.Valid() && !EntryGuards(x) && LetsOn(p, x, d) && !x.RegularHours()
    ensures x.holding.Unsound? || Act(p, w, x, d) == Continue(p, w, x)
    ensures x.holding.Unsound? && Act(p, w, x, d) != Continue(p, w, x) ==> Act(p, w, x, d) == [Fault]
  {
    assert [] + Continue(p, After(w, []), x) == Continue(p, w, x);
  }

  lemma FailingBuysNothing(p: SessionPlan, w: World, x: Input, d: P.Decision)
    requires p.budget.Valid() && !EntryGuards(x) && !LetsOn(p, x, d)
    ensures !HasBuy(Act(p, w, x, d))
  {
    ClosingBuysNothing(p, w, x, d);
  }

  /** Without the entry guards a decision's writes contain a buy only by carrying on a premarket entry. */
  lemma UnguardedActIff(p: SessionPlan, w: World, x: Input, d: P.Decision)
    requires p.budget.Valid() && Inv(p, w) && !Locked(w) && !EntryGuards(x)
    ensures HasBuy(Performed(Act(p, w, x, d), x.writesEnabled))
            <==> LetsOn(p, x, d) && RunningPremarket(w, x) && !x.holding.Unsound? && x.writesEnabled
                 && NextOrderDue(p, w, x)
  {
    PerformedBuys(Act(p, w, x, d), x.writesEnabled);
    if !LetsOn(p, x, d) {
      FailingBuysNothing(p, w, x, d);
    } else if x.RegularHours() {
      RegularContinueBuysNothing(p, w, x, d);
    } else {
      ContinueBuysIff(p, w, x);
      PassingContinues(p, w, x, d);
    }
  }

  lemma RegularContinueBuysNothing(p: SessionPlan, w: World, x: Input, d: P.Decision)
    requires p.budget.Valid() && !EntryGuards(x) && LetsOn(p, x, d) && x.RegularHours()
    ensures !HasBuy(Act(p, w, x, d))
  {
    assert Continue(p, w, x) == [];
    assert [] + Continue(p, After(w, []), x) == [];
  }

  function SharesHeld(x: Input): nat {
    match x.holding
    case Long(shares) => shares
    case Flat | Unsound => 0
  }

  /** The completed snapshot lets a running entry go on: nothing closes the position, a due probe or upgrade meets its
      quote, soft-loss and authorisation checks, and a due trim or reduction is authorised and has nothing to sell. */
  predicate Passes(p: SessionPlan, x: Input, s: P.Snapshot)
    requires p.budget.Valid()
  {
    !P.ExitDue(s) && !(s.Held() && p.takeProfit2.Some? && x.bid >= p.takeProfit2.value)
    && (P.ProbeDue(s) || P.UpgradeDue(s) ==> x.dailyReturn > -0.015 && x.Fresh() && x.Authorised())
    && (P.TrimDue(s) ==>
          x.Authorised() && SharesHeld(x) <= A.TargetQuantity(p.budget, x.equity, P.TailChoice(s).1))
    && (P.TailReduces(s) ==>
          x.Authorised() && SharesHeld(x) <= A.TargetQuantity(p.budget, x.equity, s.tail.value.initial / 2.0))
  }

  lemma PassesIff(p: SessionPlan, x: Input, s: P.Snapshot)
    requires p.budget.Valid() && s.Valid()
    ensures LetsOn(p, x, DecisionFor(p, x, s)) <==> Passes(p, x, s)
  {
    P.ExitsIff(s);
    P.ProbesIff(s);
    P.UpgradesIff(s);
    P.TrimsIff(s);
    P.ReducesIff(s);
  }

  /** Completing the snapshot raises nothing, and the completed one lets a running entry go on. */
  predicate GoesOn(p: SessionPlan, w: World, x: Input)
    requires p.budget.Valid()
  {
    var s := Lifecycle(p, w, x).1;
    s.Some? && Passes(p, x, s.value)
  }

  /** A tick buys while an entry guard fails exactly when writes are enabled, nothing is locked, the guardian is clear,
      the day is above its hard loss, the completed snapshot lets it go on, and a premarket entry is running in its hours
      with a readable position and its next order due. */
  lemma UnguardedBuyIff(p: SessionPlan, w: World, x: Input)
    requires p.budget.Valid() && Inv(p, w) && x.Valid() && !EntryGuards(x)
    ensures HasBuy(Tick(p, w, x))
            <==> x.writesEnabled && !Locked(w) && x.guardian == Clear && x.dailyReturn > -0.02 && GoesOn(p, w, x)
                 && RunningPremarket(w, x) && !x.holding.Unsound? && NextOrderDue(p, w, x)
  {
    FlatteningBuysNothing(p, w, x);
    PerformedBuys(Intended(p, w, x), x.writesEnabled);
    if !Locked(w) && x.guardian == Clear && x.dailyReturn > -0.02 { UnguardedDecidedIff(p, w, x); }
  }

  lemma UnguardedDecidedIff(p: SessionPlan, w: World, x: Input)
    requires p.budget.Valid() && Inv(p, w) && x.Valid() && !EntryGuards(x) && !Locked(w)
    ensures HasBuy(Performed(Decided(p, w, x), x.writesEnabled))
            <==> x.writesEnabled && GoesOn(p, w, x) && RunningPremarket(w, x) && !x.holding.Unsound?
                 && NextOrderDue(p, w, x)
  {
    DecidedBuys(p, w, x);
    var (es, s) := Lifecycle(p, w, x);
    LifecycleOk(p, w, x);
    if s.Some? {
      SeenOk(p, w, x);
      PassesIff(p, x, s.value);
      UnguardedActIff(p, After(w, es), x, DecisionFor(p, x, s.value));
    }
  }

  /** The lifecycle's writes neither buy nor raise. */
  lemma DecidedBuys(p: SessionPlan, w: World, x: Input)
    requires p.budget.Valid() && Inv(p, w) && x.Valid()
    ensures var (es, s) := Lifecycle(p, w, x);
            HasBuy(Performed(Decided(p, w, x), x.writesEnabled))
            <==> s.Some? && HasBuy(Performed(Act(p, After(w, es), x, DecisionFor(p, x, s.value)), x.writesEnabled))
  {
    var (es, s) := Lifecycle(p, w, x);
    LifecycleOk(p, w, x);
    var rest := match s case None => [Fault] case Some(seen) => Act(p, After(w, es), x, DecisionFor(p, x, seen));
    PerformedAppend(es, rest, x.writesEnabled);
    NoBuyIn(es, Performed(rest, x.writesEnabled));
  }

  lemma {:induction false} PerformedAppend(a: seq<Effect>, b: seq<Effect>, writes: bool)
    requires !Stops(a, writes)
    ensures Performed(a + b, writes) == a + Performed(b, writes)
    decreases |a|
  {
    if a == [] {
      assert a + b == b;
    } else {
      assert (a + b)[1..] == a[1..] + b;
      assert !Raises(a[0], writes);
      PerformedAppend(a[1..], b, writes);
    }
  }

  /** In a locked date, under a guardian that is not clear and at the hard loss nothing is bought, whatever the guards. */
  lemma LocksBuyNothing(p: SessionPlan, w: World, x: Input)
    requires p.budget.Valid()
    requires Locked(w) || x.guardian != Clear || x.dailyReturn <= -0.02
    ensures !HasBuy(Tick(p, w, x))
  {
    FlatteningBuysNothing(p, w, x);
    PerformedBuys(Intended(p, w, x), x.writesEnabled);
  }

  // ---- profit ----

  predicate NoRegular(es: seq<Effect>) { forall i :: 0 <= i < |es| ==> !(es[i].Submit? && es[i].id.Regular?) }

  lemma NeitherRegular(a: seq<Effect>, b: seq<Effect>)
    requires NoRegular(a) && NoRegular(b)
    ensures NoRegular(a + b)
  {
  }

  lemma {:induction false} CancelsAreNotRegular(p: SessionPlan, w: World, orders: seq<OpenOrder>, own: bool)
    ensures NoRegular(CancelAll(p, w, orders, own))
    decreases |orders|
  {
    if orders != [] {
      if own && orders[0].symbol != p.symbol {
        CancelsAreNotRegular(p, w, orders[1..], own);
      } else {
        var es := CancelOnce(p, w, orders[0]);
        CancelsAreNotRegular(p, After(w, es), orders[1..], own);
        NeitherRegular(es, CancelAll(p, After(w, es), orders[1..], own));
      }
    }
  }

  lemma SellingIsNotRegular(p: SessionPlan, w: World, x: Input, d: P.Decision)
    requires p.budget.Valid()
    ensures NoRegular(Flatten(p, w, x)) && NoRegular(ClosePosition(p, w, x, d)) && NoRegular(Reduce(p, w, x, d))
  {
    var all, own := CancelAll(p, w, x.open, false), CancelAll(p, w, x.open, true);
    CancelsAreNotRegular(p, w, x.open, false);
    CancelsAreNotRegular(p, w, x.open, true);
    NeitherRegular(all, SellAll(p, After(w, all), x, HardFlat));
    NeitherRegular(all + SellAll(p, After(w, all), x, HardFlat), [LockDay]);
    NeitherRegular(own, SellAll(p, After(w, own), x, Exit(d.reason)));
    var id := Reduction(d.action, A.TargetQuantity(p.budget, x.equity, d.target), d.reason);
    NeitherRegular(own, Once(p, After(w, own), id, SellOrder(x, Excess(p, x, d))));
  }

  lemma PremarketIsNotRegular(p: SessionPlan, w: World, x: Input, target: nat)
    ensures NoRegular(RunPremarket(p, w, x, target).0)
  {
    var r := RecordFor(p, w, target);
    if PremarketDecision(x, r).Ok? {
      var d, w1 := PremarketDecision(x, r).value, After(w, Opening(w, r));
      var cancel := CancelActive(p, w1, x, r, d);
      NeitherRegular(cancel, SubmitPremarket(p, After(w1, cancel), x, d));
    }
  }

  lemma NoBuyIsNotRegular(p: SessionPlan, w: World, x: Input, d: P.Decision)
    requires p.budget.Valid() && !Buys(d.action)
    ensures NoRegular(Act(p, w, x, d))
  {
    SellingIsNotRegular(p, w, x, d);
    if ProtectionFor(w, x).NotNeeded? { ProceedIsNotRegular(p, w, x, d); }
  }

  lemma ProceedIsNotRegular(p: SessionPlan, w: World, x: Input, d: P.Decision)
    requires p.budget.Valid() && !Buys(d.action)
    ensures NoRegular(Proceed(p, w, x, d))
  {
    SellingIsNotRegular(p, w, x, d);
    ContinueIsNotRegular(p, w, x);
  }

  lemma ContinueIsNotRegular(p: SessionPlan, w: World, x: Input)
    ensures NoRegular(Continue(p, w, x))
  {
    if RunningPremarket(w, x) && !x.holding.Unsound? {
      PremarketIsNotRegular(p, w, x, w.premarket.value.plan.target);
      NeitherRegular(RunPremarket(p, w, x, w.premarket.value.plan.target).0, ExtendedStop(x));
    }
  }

  /** With its main profit recorded, a held plan makes no further regular entry. */
  lemma ProfitEndsRegularEntries(p: SessionPlan, w: World, x: Input)
    requires p.budget.Valid() && Inv(p, w) && x.Valid() && w.profit && x.policy.Held()
    ensures NoRegular(Tick(p, w, x))
  {
    PerformedIsPrefix(Intended(p, w, x), x.writesEnabled);
    SellingIsNotRegular(p, w, x, P.Exiting(P.TakeProfit2Reached));
    var (es, s) := Lifecycle(p, w, x);
    LifecycleOk(p, w, x);
    if s.Some? {
      ProfitMeansNoBuy(p, w, x);
      NoBuyIsNotRegular(p, After(w, es), x, DecisionFor(p, x, s.value));
    }
    assert NoRegular(Decided(p, w, x));
  }

  lemma ProfitMeansNoBuy(p: SessionPlan, w: World, x: Input)
    requires p.budget.Valid() && x.Valid() && w.profit && x.policy.Held() && Lifecycle(p, w, x).1.Some?
    ensures !Buys(DecisionFor(p, x, Lifecycle(p, w, x).1.value).action)
  {
    SeenOk(p, w, x);
    P.ProbesIff(Lifecycle(p, w, x).1.value);
    P.UpgradesIff(Lifecycle(p, w, x).1.value);
  }

  // ---- what an entry buys ----

  function SharesBought(es: seq<Effect>): int {
    if es == [] then 0
    else SharesBought(es[..|es| - 1]) + if es[|es| - 1].Submit? then es[|es| - 1].order.quantity else 0
  }

  lemma BoughtMore(es: seq<Effect>, e: Effect)
    ensures SharesBought(es + [e]) == SharesBought(es) + if e.Submit? then e.order.quantity else 0
  {
    assert (es + [e])[..|es|] == es;
  }

  lemma BoughtByThree(before: seq<Effect>, a: Effect, b: Effect, c: Effect)
    requires !a.Submit? && b.Submit? && !c.Submit?
    ensures SharesBought(before + [a, b, c]) == SharesBought(before) + b.order.quantity
  {
    BoughtMore(before, a);
    BoughtMore(before + [a], b);
    BoughtMore(before + [a] + [b], c);
    assert before + [a] + [b] + [c] == before + [a, b, c];
  }

  lemma ComponentShares(p: SessionPlan, w: World, x: Input, d: P.Decision, c: Component, quantity: int,
                        before: seq<Effect>)
    requires Inv(p, w) && !Locked(w) && Buys(d.action) && DecisionOk(d) && quantity >= 0
    requires !Completed(w, Regular(d.action, FourDecimals(d.target), c))
    ensures SharesBought(before + SubmitComponent(p, w, x, d, c, quantity)) == SharesBought(before) + quantity
  {
    if quantity > 0 {
      var id, order := Regular(d.action, FourDecimals(d.target), c), Order(BuySide, quantity, None, x.observed);
      assert FourDecimals(0.25) == 2500 && FourDecimals(0.50) == 5000;
      OnceOk(p, w, id, order);
      var first, second, third := EnsureCommand(id, IdentityOf(p, id)), Submit(id, order), CompleteCommand(id);
      BoughtByThree(before, first, second, third);
    } else {
      assert before + [] == before;
    }
  }

  /** A regular entry not sent before buys, in its two components together, exactly the shares from the prior stage's
      target to the new one: nothing for a probe's prior stage, the probe's for an upgrade's. */
  lemma EntryBuysExactly(p: SessionPlan, w: World, x: Input, d: P.Decision)
    requires p.budget.Valid() && Inv(p, w) && !Locked(w) && x.equity > 0.0 && Buys(d.action) && DecisionOk(d)
    requires forall c: Component :: !Completed(w, Regular(d.action, FourDecimals(d.target), c))
    ensures SharesBought(RunRegular(p, w, x, d))
         == A.TargetQuantity(p.budget, x.equity, d.target)
            - A.TargetQuantity(p.budget, x.equity, PriorFraction(d.action))
  {
    var tail := P.TailChoice(x.policy).1;
    A.ComponentsAreExact(p.budget, x.equity, PriorFraction(d.action), d.target, tail);
    var (t, m) := A.Components(p.budget, x.equity, PriorFraction(d.action), d.target, tail);
    var first := SubmitComponent(p, w, x, d, TailPart, t);
    ComponentShares(p, w, x, d, TailPart, t, []);
    assert [] + first == first;
    ComponentOk(p, w, x, d, TailPart, t);
    OtherIncomplete(p, w, x, d, t);
    ComponentShares(p, After(w, first), x, d, MainPart, m, first);
  }

  lemma OnceCompletes(p: SessionPlan, w: World, id: Id, order: Order, other: Id)
    requires Inv(p, w) && OrderOk(p, id, order) && (IsBuy(id) ==> !Locked(w)) && other != id
    ensures Completed(After(w, Once(p, w, id, order)), other) <==> Completed(w, other)
  {
    OnceOk(p, w, id, order);
    One(p, w, EnsureCommand(id, IdentityOf(p, id)));
    Three(p, w, EnsureCommand(id, IdentityOf(p, id)), Submit(id, order), CompleteCommand(id));
  }

  lemma OtherIncomplete(p: SessionPlan, w: World, x: Input, d: P.Decision, quantity: int)
    requires Inv(p, w) && !Locked(w) && Buys(d.action) && DecisionOk(d)
    ensures var main := Regular(d.action, FourDecimals(d.target), MainPart);
            Completed(After(w, SubmitComponent(p, w, x, d, TailPart, quantity)), main) <==> Completed(w, main)
  {
    var tail, main := Regular(d.action, FourDecimals(d.target), TailPart), Regular(d.action, FourDecimals(d.target), MainPart);
    assert FourDecimals(0.25) == 2500 && FourDecimals(0.50) == 5000;
    One(p, w, Fault);
    if quantity > 0 { OnceCompletes(p, w, tail, Order(BuySide, quantity, None, x.observed), main); }
  }
}
