/** When the paper session's premarket buys are decided, measured from the first order itself, and what the order of its
    last writes leaves to a crash. */
module PaperSessionTiming {
  import opened PaperSession
  import opened PaperSessionSafety
  import opened Texts
  import P = IntradayPolicy
  import E = PremarketEntry
  import A = Allocation

  const LIFETIME := 10 * P.SECOND

  // ---- the lifetime ----

  function Started(w: World): Option<int> { if w.premarket.Some? then w.premarket.value.runtime.started else None }

  /** The saved start is the first order's time, and every premarket order lies in the lifetime from it. */
  predicate Timed(w: World) {
    (Started(w).Some? ==>
       Premarket(0) in w.orders && w.orders[Premarket(0)].at == Started(w).value
       && w.premarket.value.runtime.lastCommand.Some?
       && w.premarket.value.runtime.lastCommand.value >= Started(w).value)
    && (forall id :: id in w.orders && id.Premarket? ==>
          Started(w).Some? && Started(w).value <= w.orders[id].at < Started(w).value + LIFETIME)
  }

  /** The first order is submitted in this tick, its start not saved yet. */
  predicate InGap(w: World, now: int) {
    w.premarket.Some? && Started(w).None? && Premarket(0) in w.orders && w.orders[Premarket(0)].at == now
    && forall id :: id in w.orders && id.Premarket? ==> id.attempt == 0
  }

  predicate TimedOrInGap(w: World, now: int) { Timed(w) || InGap(w, now) }

  /** A write that respects the lifetime in this state. */
  predicate InTime(w: World, now: int, e: Effect) {
    match e
    case Submit(id, order) =>
      id.Premarket? ==>
        order.at == now && w.premarket.Some?
        && (if Started(w).None? then id.attempt == 0
            else id.attempt > 0 && Started(w).value <= now < Started(w).value + LIFETIME)
    case SavePremarket(runtime, _) =>
      w.premarket.Some?
      && (Started(w).Some? ==> runtime.started == Started(w))
      && (Started(w).None? && runtime.started.Some? ==> runtime.started == Some(now) && Premarket(0) in w.orders)
      && (runtime.started.Some? ==> runtime.lastCommand.Some? && runtime.lastCommand.value >= runtime.started.value)
    case _ => true
  }

  predicate AllInTime(w: World, now: int, es: seq<Effect>)
    decreases |es|
  {
    es == [] || (InTime(w, now, es[0]) && AllInTime(Apply(w, es[0]), now, es[1..]))
  }

  lemma InTimeKeeps(w: World, now: int, e: Effect)
    requires TimedOrInGap(w, now) && InTime(w, now, e)
    ensures TimedOrInGap(Apply(w, e), now)
  {
    if e.Submit? {
      if e.id.Premarket? { SubmitKeepsTime(w, now, e.id, e.order); }
    } else if e.SavePremarket? {
      SaveKeepsTime(w, now, e.runtime, e.active);
    }
  }

  lemma SubmitKeepsTime(w: World, now: int, id: Id, order: Order)
    requires TimedOrInGap(w, now) && InTime(w, now, Submit(id, order)) && id.Premarket?
    ensures TimedOrInGap(Apply(w, Submit(id, order)), now)
  {
    var v := Apply(w, Submit(id, order));
    if Started(w).None? && Timed(w) { assert InGap(v, now); }
  }

  lemma SaveKeepsTime(w: World, now: int, runtime: E.Runtime, active: Option<Id>)
    requires TimedOrInGap(w, now) && InTime(w, now, SavePremarket(runtime, active))
    ensures TimedOrInGap(Apply(w, SavePremarket(runtime, active)), now)
    ensures Premarket(0) in w.orders && runtime.started.Some? ==> Timed(Apply(w, SavePremarket(runtime, active)))
  {
  }

  lemma {:induction false} AllInTimeKeeps(w: World, now: int, es: seq<Effect>)
    requires TimedOrInGap(w, now) && AllInTime(w, now, es)
    ensures TimedOrInGap(After(w, es), now)
    decreases |es|
  {
    if es != [] {
      InTimeKeeps(w, now, es[0]);
      AllInTimeKeeps(Apply(w, es[0]), now, es[1..]);
    }
  }

  lemma {:induction false} AppendInTime(w: World, now: int, a: seq<Effect>, b: seq<Effect>)
    requires AllInTime(w, now, a) && AllInTime(After(w, a), now, b)
    ensures AllInTime(w, now, a + b)
    decreases |a|
  {
    if a == [] {
      assert a + b == b;
    } else {
      assert (a + b)[1..] == a[1..] + b;
      AppendInTime(Apply(w, a[0]), now, a[1..], b);
    }
  }

  lemma {:induction false} PrefixInTime(w: World, now: int, es: seq<Effect>, n: nat)
    requires AllInTime(w, now, es) && n <= |es|
    ensures AllInTime(w, now, es[..n])
    decreases |es|
  {
    if 0 < n {
      PrefixInTime(Apply(w, es[0]), now, es[1..], n - 1);
      assert es[..n][1..] == es[1..][..n - 1];
    }
  }

  /** Writes that neither submit a premarket order nor save the entry. */
  predicate Quiet(es: seq<Effect>) {
    forall i :: 0 <= i < |es| ==> !(es[i].Submit? && es[i].id.Premarket?) && !es[i].SavePremarket?
  }

  lemma {:induction false} QuietInTime(w: World, now: int, es: seq<Effect>)
    requires Quiet(es)
    ensures AllInTime(w, now, es)
    decreases |es|
  {
    if es != [] {
      assert forall i :: 0 <= i < |es[1..]| ==> es[1..][i] == es[i + 1];
      QuietInTime(Apply(w, es[0]), now, es[1..]);
    }
  }

  lemma QuietBoth(a: seq<Effect>, b: seq<Effect>)
    requires Quiet(a) && Quiet(b)
    ensures Quiet(a + b)
  {
  }

  lemma {:induction false} CancelsAreQuiet(p: SessionPlan, w: World, orders: seq<OpenOrder>, own: bool)
    ensures Quiet(CancelAll(p, w, orders, own))
    decreases |orders|
  {
    if orders != [] {
      if own && orders[0].symbol != p.symbol {
        CancelsAreQuiet(p, w, orders[1..], own);
      } else {
        var es := CancelOnce(p, w, orders[0]);
        CancelsAreQuiet(p, After(w, es), orders[1..], own);
        QuietBoth(es, CancelAll(p, After(w, es), orders[1..], own));
      }
    }
  }

  lemma SellingIsQuiet(p: SessionPlan, w: World, x: Input, d: P.Decision)
    requires p.budget.Valid()
    ensures Quiet(Flatten(p, w, x)) && Quiet(ClosePosition(p, w, x, d)) && Quiet(Reduce(p, w, x, d))
  {
    var all, own := CancelAll(p, w, x.open, false), CancelAll(p, w, x.open, true);
    CancelsAreQuiet(p, w, x.open, false);
    CancelsAreQuiet(p, w, x.open, true);
    QuietBoth(all, SellAll(p, After(w, all), x, HardFlat));
    QuietBoth(all + SellAll(p, After(w, all), x, HardFlat), [LockDay]);
    QuietBoth(own, SellAll(p, After(w, own), x, Exit(d.reason)));
    var id := Reduction(d.action, A.TargetQuantity(p.budget, x.equity, d.target), d.reason);
    QuietBoth(own, Once(p, After(w, own), id, SellOrder(x, Excess(p, x, d))));
  }

  lemma RegularIsQuiet(p: SessionPlan, w: World, x: Input, d: P.Decision)
    requires p.budget.Valid()
    ensures Quiet(RunRegular(p, w, x, d))
  {
    var (tailShares, mainShares) :=
      A.Components(p.budget, x.equity, PriorFraction(d.action), d.target, P.TailChoice(x.policy).1);
    var first := SubmitComponent(p, w, x, d, TailPart, tailShares);
    QuietBoth(first, SubmitComponent(p, After(w, first), x, d, MainPart, mainShares));
  }

  // ---- the premarket entry in time ----

  /** When the engine submits, and what it saves. */
  lemma DecisionInTime(p: SessionPlan, w: World, x: Input, r: Record)
    requires p.budget.Valid() && RecordOk(p, r) && w.premarket == Some(r) && TimedOrInGap(w, x.observed)
    ensures PremarketDecision(x, r).Ok?
    ensures var d := PremarketDecision(x, r).value;
            (E.Submits(d.action) ==>
               (if r.runtime.started.None? then d.runtime.attempt == 0 && d.runtime.started == Some(x.observed)
                else d.runtime.attempt > 0
                     && r.runtime.started.value <= x.observed < r.runtime.started.value + LIFETIME))
            && (r.runtime.started.Some? ==> d.runtime.started == r.runtime.started)
            && (d.runtime.started.Some? && r.runtime.started.None? ==> E.Submits(d.action))
            && (d.runtime.started.Some? ==>
                  d.runtime.lastCommand.Some? && d.runtime.lastCommand.value >= d.runtime.started.value)
  {
    PremarketDecisionOk(p, x, r);
    E.SubmitsIff(r.plan, r.runtime, EngineView(x, r));
    E.EvaluateKeeps(r.plan, r.runtime, EngineView(x, r));
    LastCommandStays(p, x, r);
  }

  lemma LastCommandStays(p: SessionPlan, x: Input, r: Record)
    requires RecordOk(p, r) && p.budget.Valid() && PremarketDecision(x, r).Ok?
    ensures var d := PremarketDecision(x, r).value;
            d.runtime.lastCommand == if E.Submits(d.action) then Some(x.observed) else r.runtime.lastCommand
  {
  }

  lemma SubmitInTime(p: SessionPlan, w: World, x: Input, r: Record, d: E.Decision)
    requires p.budget.Valid() && Inv(p, w) && !Locked(w) && RecordOk(p, r) && w.premarket == Some(r)
    requires PremarketDecision(x, r) == Ok(d) && TimedOrInGap(w, x.observed)
    ensures AllInTime(w, x.observed, SubmitPremarket(p, w, x, d))
    ensures var v := After(w, SubmitPremarket(p, w, x, d));
            v.premarket == w.premarket && (E.Submits(d.action) ==> Premarket(d.runtime.attempt) in v.orders)
            && TimedOrInGap(v, x.observed)
  {
    DecisionInTime(p, w, x, r);
    PremarketDecisionOk(p, x, r);
    if E.Submits(d.action) {
      var id, order := Premarket(d.runtime.attempt), Order(BuySide, d.remaining, d.limit, x.observed);
      OnceInTime(p, w, x.observed, id, order);
    }
    AllInTimeKeeps(w, x.observed, SubmitPremarket(p, w, x, d));
  }

  lemma OnceInTime(p: SessionPlan, w: World, now: int, id: Id, order: Order)
    requires Inv(p, w) && OrderOk(p, id, order) && (IsBuy(id) ==> !Locked(w)) && InTime(w, now, Submit(id, order))
    ensures AllInTime(w, now, Once(p, w, id, order))
    ensures id in After(w, Once(p, w, id, order)).orders && After(w, Once(p, w, id, order)).premarket == w.premarket
  {
    OnceOk(p, w, id, order);
    var a, b, c := EnsureCommand(id, IdentityOf(p, id)), Submit(id, order), CompleteCommand(id);
    One(p, w, a);
    Three(p, w, a, b, c);
    assert id in w.commands ==> CommandOk(p, w, id);
    assert [a][1..] == [] && [a, b, c][1..] == [b, c] && [b, c][1..] == [c] && [c][1..] == [];
    assert InTime(Apply(w, a), now, b);
    assert AllInTime(Apply(Apply(w, a), b), now, [c]);
    assert AllInTime(Apply(w, a), now, [b, c]);
  }

  lemma CarryOutInTime(p: SessionPlan, w: World, x: Input, r: Record, d: E.Decision)
    requires p.budget.Valid() && Inv(p, w) && !Locked(w) && w.premarket == Some(r)
    requires PremarketDecision(x, r) == Ok(d) && TimedOrInGap(w, x.observed)
    ensures AllInTime(w, x.observed, CarryOut(p, w, x, r, d))
  {
    var cancel := CancelActive(p, w, x, r, d);
    CancelActiveOk(p, w, x, r, d);
    QuietInTime(w, x.observed, cancel);
    AllInTimeKeeps(w, x.observed, cancel);
    var w1 := After(w, cancel);
    var submit := SubmitPremarket(p, w1, x, d);
    SubmitInTime(p, w1, x, r, d);
    AppendInTime(w, x.observed, cancel, submit);
    Append(p, w, cancel, submit);
    SaveInTime(p, w1, x, r, d);
    AppendInTime(w, x.observed, cancel + submit, [SavePremarket(d.runtime, ActiveAfter(r, d))]);
  }

  lemma SaveInTime(p: SessionPlan, w: World, x: Input, r: Record, d: E.Decision)
    requires p.budget.Valid() && Inv(p, w) && !Locked(w) && RecordOk(p, r) && w.premarket == Some(r)
    requires PremarketDecision(x, r) == Ok(d) && TimedOrInGap(w, x.observed)
    ensures AllInTime(After(w, SubmitPremarket(p, w, x, d)), x.observed, [SavePremarket(d.runtime, ActiveAfter(r, d))])
  {
    SubmitInTime(p, w, x, r, d);
    DecisionInTime(p, w, x, r);
    var v, save := After(w, SubmitPremarket(p, w, x, d)), SavePremarket(d.runtime, ActiveAfter(r, d));
    assert InTime(v, x.observed, save);
    assert [save][1..] == [];
  }

  lemma RunPremarketInTime(p: SessionPlan, w: World, x: Input, target: nat)
    requires p.budget.Valid() && Inv(p, w) && !Locked(w) && target > 0 && TimedOrInGap(w, x.observed)
    ensures AllInTime(w, x.observed, RunPremarket(p, w, x, target).0)
  {
    var r := RecordFor(p, w, target);
    OpeningOk(p, w, target);
    PremarketDecisionOk(p, x, r);
    var w1 := After(w, Opening(w, r));
    QuietInTime(w, x.observed, Opening(w, r));
    AllInTimeKeeps(w, x.observed, Opening(w, r));
    CarryOutInTime(p, w1, x, r, PremarketDecision(x, r).value);
    AppendInTime(w, x.observed, Opening(w, r), CarryOut(p, w1, x, r, PremarketDecision(x, r).value));
  }

  lemma ContinueInTime(p: SessionPlan, w: World, x: Input)
    requires p.budget.Valid() && Inv(p, w) && !Locked(w) && TimedOrInGap(w, x.observed)
    ensures AllInTime(w, x.observed, Continue(p, w, x))
  {
    if RunningPremarket(w, x) && !x.holding.Unsound? {
      var es := RunPremarket(p, w, x, w.premarket.value.plan.target).0;
      RunPremarketInTime(p, w, x, w.premarket.value.plan.target);
      QuietInTime(After(w, es), x.observed, ExtendedStop(x));
      AppendInTime(w, x.observed, es, ExtendedStop(x));
    } else {
      QuietInTime(w, x.observed, Continue(p, w, x));
    }
  }

  lemma EntryInTime(p: SessionPlan, w: World, x: Input, d: P.Decision)
    requires p.budget.Valid() && Inv(p, w) && !Locked(w) && TimedOrInGap(w, x.observed) && Buys(d.action) && DecisionOk(d)
    ensures var (es, ends) := RunEntry(p, w, x, d);
            AllInTime(w, x.observed, if ends then es else es + Continue(p, After(w, es), x))
  {
    var (es, ends) := RunEntry(p, w, x, d);
    RunEntryOk(p, w, x, d);
    if es != [] && x.PremarketHours() && !x.holding.Unsound? {
      RunPremarketInTime(p, w, x, A.TargetQuantity(p.budget, x.equity, d.target));
    } else {
      RegularIsQuiet(p, w, x, d);
      QuietInTime(w, x.observed, es);
    }
    if !ends {
      AllOkKeeps(p, w, es);
      AllInTimeKeeps(w, x.observed, es);
      ContinueInTime(p, After(w, es), x);
      AppendInTime(w, x.observed, es, Continue(p, After(w, es), x));
    }
  }

  lemma ActInTime(p: SessionPlan, w: World, x: Input, d: P.Decision)
    requires p.budget.Valid() && Inv(p, w) && !Locked(w) && TimedOrInGap(w, x.observed) && DecisionOk(d)
    ensures AllInTime(w, x.observed, Act(p, w, x, d))
  {
    var es := Act(p, w, x, d);
    SellingIsQuiet(p, w, x, d);
    if Buys(d.action) { EntryInTime(p, w, x, d); }
    ContinueInTime(p, w, x);
    if Quiet(es) { QuietInTime(w, x.observed, es); }
  }

  lemma TickInTime(p: SessionPlan, w: World, x: Input)
    requires p.budget.Valid() && Inv(p, w) && x.Valid() && Timed(w)
    ensures AllInTime(w, x.observed, Tick(p, w, x))
  {
    var es := Intended(p, w, x);
    SellingIsQuiet(p, w, x, P.Exiting(P.TakeProfit2Reached));
    if !Locked(w) && x.guardian == Clear && x.dailyReturn > -0.02 { DecidedInTime(p, w, x); } else { QuietInTime(w, x.observed, es); }
    PerformedIsPrefix(es, x.writesEnabled);
    PrefixInTime(w, x.observed, es, |Tick(p, w, x)|);
    assert Tick(p, w, x) == es[..|Tick(p, w, x)|];
  }

  lemma DecidedInTime(p: SessionPlan, w: World, x: Input)
    requires p.budget.Valid() && Inv(p, w) && x.Valid() && Timed(w) && !Locked(w)
    ensures AllInTime(w, x.observed, Decided(p, w, x))
  {
    var (es, s) := Lifecycle(p, w, x);
    LifecycleOk(p, w, x);
    QuietInTime(w, x.observed, es);
    AllInTimeKeeps(w, x.observed, es);
    if s.Some? {
      var d := DecisionFor(p, x, s.value);
      ActInTime(p, After(w, es), x, d);
      AppendInTime(w, x.observed, es, Act(p, After(w, es), x, d));
    } else {
      QuietInTime(After(w, es), x.observed, [Fault]);
      AppendInTime(w, x.observed, es, [Fault]);
    }
  }

  /** The ledger knows the lifetime of every entry whose first order is out: no crash fell between the two writes. */
  predicate LifetimeSaved(w: World) { Premarket(0) in w.orders ==> Started(w).Some? }

  predicate AvoidsGap(p: SessionPlan, steps: seq<Step>)
    requires p.budget.Valid()
  {
    forall i :: 0 <= i <= |steps| ==> LifetimeSaved(Run(p, EMPTY, steps[..i]))
  }

  lemma {:induction false} RunInTime(p: SessionPlan, steps: seq<Step>)
    requires p.budget.Valid() && ValidSteps(steps) && AvoidsGap(p, steps)
    ensures Inv(p, Run(p, EMPTY, steps)) && Timed(Run(p, EMPTY, steps))
  {
    RunKeeps(p, EMPTY, steps);
    if steps != [] {
      var before, s := steps[..|steps| - 1], steps[|steps| - 1];
      assert forall i :: 0 <= i <= |before| ==> before[..i] == steps[..i];
      RunInTime(p, before);
      var w := Run(p, EMPTY, before);
      var es := Tick(p, w, s.input);
      TickInTime(p, w, s.input);
      if s.effects < |es| { PrefixInTime(w, s.input.observed, es, s.effects); }
      AllInTimeKeeps(w, s.input.observed, Cut(es, s.effects));
      assert steps[..|steps|] == steps;
    }
  }

  /** Over every run that leaves no first order without its saved lifetime, every premarket order is decided within the
      lifetime of the first, whatever the clock does. */
  lemma BuysWithinLifetime(p: SessionPlan, steps: seq<Step>, n: nat)
    requires p.budget.Valid() && ValidSteps(steps) && AvoidsGap(p, steps)
    requires Premarket(n) in Run(p, EMPTY, steps).orders
    ensures var w := Run(p, EMPTY, steps);
            Premarket(0) in w.orders
            && 0 <= w.orders[Premarket(n)].at - w.orders[Premarket(0)].at < LIFETIME
  {
    RunInTime(p, steps);
  }

  /** The first order goes out and no start is saved after it. */
  predicate CutBeforeSave(es: seq<Effect>) {
    exists i :: 0 <= i < |es| && es[i].Submit? && es[i].id == Premarket(0)
                && forall j :: i < j < |es| && es[j].SavePremarket? ==> es[j].runtime.started.None?
  }

  lemma {:induction false} GapStays(w: World, now: int, es: seq<Effect>)
    requires InGap(w, now) && AllInTime(w, now, es) && Started(After(w, es)).None?
    ensures forall j :: 0 <= j < |es| && es[j].SavePremarket? ==> es[j].runtime.started.None?
    decreases |es|
  {
    if es != [] {
      InTimeKeeps(w, now, es[0]);
      if Timed(Apply(w, es[0])) {
        StartStays(Apply(w, es[0]), now, es[1..]);
      } else {
        GapStays(Apply(w, es[0]), now, es[1..]);
        assert forall j :: 1 <= j < |es| ==> es[j] == es[1..][j - 1];
      }
    }
  }

  lemma {:induction false} StartStays(w: World, now: int, es: seq<Effect>)
    requires Started(w).Some? && AllInTime(w, now, es)
    ensures Started(After(w, es)).Some?
    decreases |es|
  {
    if es != [] { StartStays(Apply(w, es[0]), now, es[1..]); }
  }

  lemma {:induction false} GapComesFromCut(w: World, now: int, es: seq<Effect>)
    requires Timed(w) && AllInTime(w, now, es) && !LifetimeSaved(After(w, es))
    ensures CutBeforeSave(es)
    decreases |es|
  {
    InTimeKeeps(w, now, es[0]);
    var v := Apply(w, es[0]);
    assert forall j :: 1 <= j < |es| ==> es[j] == es[1..][j - 1];
    if Timed(v) {
      GapComesFromCut(v, now, es[1..]);
      var i :| 0 <= i < |es[1..]| && es[1..][i].Submit? && es[1..][i].id == Premarket(0)
               && forall j :: i < j < |es[1..]| && es[1..][j].SavePremarket? ==> es[1..][j].runtime.started.None?;
      assert es[i + 1] == es[1..][i];
    } else {
      AllInTimeKeeps(v, now, es[1..]);
      GapStays(v, now, es[1..]);
      assert es[0].Submit? && es[0].id == Premarket(0);
    }
  }

  lemma {:induction false} NoStartSaved(w: World, es: seq<Effect>)
    requires Started(w).None? && forall j :: 0 <= j < |es| && es[j].SavePremarket? ==> es[j].runtime.started.None?
    ensures Started(After(w, es)).None?
    decreases |es|
  {
    if es != [] {
      assert forall j :: 0 <= j < |es[1..]| ==> es[1..][j] == es[j + 1];
      NoStartSaved(Apply(w, es[0]), es[1..]);
    }
  }

  lemma {:induction false} OrderStays(w: World, es: seq<Effect>, id: Id)
    requires id in w.orders
    ensures id in After(w, es).orders && After(w, es).orders[id] == w.orders[id]
    decreases |es|
  {
    if es != [] { OrderStays(Apply(w, es[0]), es[1..], id); }
  }

  lemma {:induction false} CutLeavesGap(w: World, now: int, es: seq<Effect>)
    requires TimedOrInGap(w, now) && AllInTime(w, now, es) && CutBeforeSave(es)
    ensures !LifetimeSaved(After(w, es))
    decreases |es|
  {
    var i :| 0 <= i < |es| && es[i].Submit? && es[i].id == Premarket(0)
             && forall j :: i < j < |es| && es[j].SavePremarket? ==> es[j].runtime.started.None?;
    var v := Apply(w, es[0]);
    assert forall j :: 0 <= j < |es[1..]| ==> es[1..][j] == es[j + 1];
    if i == 0 {
      NoStartSaved(v, es[1..]);
      OrderStays(v, es[1..], Premarket(0));
    } else {
      InTimeKeeps(w, now, es[0]);
      assert es[1..][i - 1] == es[i];
      CutLeavesGap(v, now, es[1..]);
    }
  }

  /** A tick leaves a lifetime unsaved exactly when what it got done ends after the first premarket order and before its
      start is saved. */
  lemma GapIsBetweenOrderAndSave(p: SessionPlan, w: World, s: Step)
    requires p.budget.Valid() && Inv(p, w) && s.input.Valid() && Timed(w)
    ensures !LifetimeSaved(StepTo(p, w, s)) <==> CutBeforeSave(Cut(Tick(p, w, s.input), s.effects))
  {
    var es, now := Tick(p, w, s.input), s.input.observed;
    var done := Cut(es, s.effects);
    TickInTime(p, w, s.input);
    if s.effects < |es| { PrefixInTime(w, now, es, s.effects); }
    if CutBeforeSave(done) {
      CutLeavesGap(w, now, done);
    } else if !LifetimeSaved(StepTo(p, w, s)) {
      GapComesFromCut(w, now, done);
    }
  }

  // ---- the hard loss ----

  /** No open order's cancellation row, stored or made on the way, is of another symbol. */
  predicate SymbolsAgree(p: SessionPlan, w: World, orders: seq<OpenOrder>) {
    (forall i :: 0 <= i < |orders| ==>
       !Conflicts(w, Cancel(orders[i].id), Identity(p.date, CancelKind, orders[i].symbol)))
    && (forall i, j :: 0 <= i < j < |orders| && orders[i].id == orders[j].id ==> orders[i].symbol == orders[j].symbol)
  }

  lemma CancelOnceAgrees(p: SessionPlan, w: World, orders: seq<OpenOrder>)
    requires Inv(p, w) && orders != []
    ensures var o := orders[0];
            var conflicts := Conflicts(w, Cancel(o.id), Identity(p.date, CancelKind, o.symbol));
            (Stops(CancelOnce(p, w, o), true) <==> conflicts)
            && (!conflicts ==>
                  (SymbolsAgree(p, w, orders) <==> SymbolsAgree(p, After(w, CancelOnce(p, w, o)), orders[1..])))
  {
    var o := orders[0];
    var id, identity := Cancel(o.id), Identity(p.date, CancelKind, o.symbol);
    CancelOnceIs(p, w, o);
    if Conflicts(w, id, identity) {
      assert CancelOnce(p, w, o)[0] == Fault;
    } else {
      CancelRow(p, w, o);
      RestAgrees(p, w, After(w, CancelOnce(p, w, o)), orders);
    }
  }

  /** The rows of v are those of w and one more, with their identities. */
  predicate OneRowMore(w: World, v: World, id: Id, identity: Identity) {
    (forall c :: c in v.commands ==> c == id || c in w.commands)
    && id in v.commands && v.commands[id].identity == identity
    && forall c :: c in w.commands ==> c in v.commands && v.commands[c].identity == w.commands[c].identity
  }

  lemma EnsuredRow(w: World, id: Id, identity: Identity)
    requires !Conflicts(w, id, identity)
    ensures OneRowMore(w, Apply(w, EnsureCommand(id, identity)), id, identity)
  {
  }

  /** A cancellation without a conflict leaves its row, and every other row's identity. */
  lemma CancelRow(p: SessionPlan, w: World, o: OpenOrder)
    requires !Conflicts(w, Cancel(o.id), Identity(p.date, CancelKind, o.symbol))
    ensures OneRowMore(w, After(w, CancelOnce(p, w, o)), Cancel(o.id), Identity(p.date, CancelKind, o.symbol))
  {
    var es, id, identity := CancelOnce(p, w, o), Cancel(o.id), Identity(p.date, CancelKind, o.symbol);
    CancelOnceIs(p, w, o);
    EnsuredRow(w, id, identity);
    var v := Apply(w, EnsureCommand(id, identity));
    assert After(w, es) == After(v, es[1..]);
    IdentitiesStay(v, es[1..]);
    SameRowsMore(w, v, After(v, es[1..]), id, identity);
  }

  lemma SameRowsMore(w: World, v: World, u: World, id: Id, identity: Identity)
    requires OneRowMore(w, v, id, identity)
    requires forall c :: c in u.commands <==> c in v.commands
    requires forall c :: c in v.commands ==> u.commands[c].identity == v.commands[c].identity
    ensures OneRowMore(w, u, id, identity)
  {
  }

  lemma {:induction false} IdentitiesStay(w: World, es: seq<Effect>)
    requires forall i :: 0 <= i < |es| ==> es[i].CancelOrder? || es[i].CompleteCommand?
    ensures forall c :: c in After(w, es).commands <==> c in w.commands
    ensures forall c :: c in w.commands ==> After(w, es).commands[c].identity == w.commands[c].identity
    decreases |es|
  {
    if es != [] {
      assert forall i :: 0 <= i < |es[1..]| ==> es[1..][i] == es[i + 1];
      IdentitiesStay(Apply(w, es[0]), es[1..]);
    }
  }

  lemma RestAgrees(p: SessionPlan, w: World, v: World, orders: seq<OpenOrder>)
    requires orders != []
    requires var id, identity := Cancel(orders[0].id), Identity(p.date, CancelKind, orders[0].symbol);
             !Conflicts(w, id, identity) && OneRowMore(w, v, id, identity)
    ensures SymbolsAgree(p, w, orders) <==> SymbolsAgree(p, v, orders[1..])
  {
    var rest := orders[1..];
    assert forall i :: 0 <= i < |rest| ==> rest[i] == orders[i + 1];
    if SymbolsAgree(p, v, rest) {
      forall j | 0 < j < |orders|
        ensures !Conflicts(w, Cancel(orders[j].id), Identity(p.date, CancelKind, orders[j].symbol))
        ensures orders[0].id == orders[j].id ==> orders[0].symbol == orders[j].symbol
      {
        assert !Conflicts(v, Cancel(rest[j - 1].id), Identity(p.date, CancelKind, rest[j - 1].symbol));
      }
      forall i, j | 0 <= i < j < |orders| && orders[i].id == orders[j].id ensures orders[i].symbol == orders[j].symbol {
        if i > 0 { assert rest[i - 1].id == rest[j - 1].id; }
      }
    }
  }

  lemma {:induction false} CancelAllStopsIff(p: SessionPlan, w: World, orders: seq<OpenOrder>)
    requires Inv(p, w)
    ensures Stops(CancelAll(p, w, orders, false), true) <==> !SymbolsAgree(p, w, orders)
    decreases |orders|
  {
    if orders != [] {
      var es := CancelOnce(p, w, orders[0]);
      CancelOnceAgrees(p, w, orders);
      CancelOnceOk(p, w, orders[0]);
      AllOkKeeps(p, w, es);
      CancelAllStopsIff(p, After(w, es), orders[1..]);
      StopsEither(es, CancelAll(p, After(w, es), orders[1..], false), true);
    }
  }

  lemma StopsEither(a: seq<Effect>, b: seq<Effect>, writes: bool)
    ensures Stops(a + b, writes) <==> Stops(a, writes) || Stops(b, writes)
  {
    if Stops(a, writes) {
      var i :| 0 <= i < |a| && Raises(a[i], writes);
      assert (a + b)[i] == a[i];
    }
    if Stops(b, writes) {
      var i :| 0 <= i < |b| && Raises(b[i], writes);
      assert (a + b)[|a| + i] == b[i];
    }
  }

  /** Everything of a flattening but its last write. */
  function Selling(p: SessionPlan, w: World, x: Input): seq<Effect> {
    CancelAll(p, w, x.open, false) + SellAll(p, After(w, CancelAll(p, w, x.open, false)), x, HardFlat)
  }

  lemma SellingStopsIff(p: SessionPlan, w: World, x: Input)
    requires Inv(p, w)
    ensures Stops(Selling(p, w, x), true) <==> x.holding.Unsound? || !SymbolsAgree(p, w, x.open)
  {
    var cancels := CancelAll(p, w, x.open, false);
    CancelAllOk(p, w, x.open, false);
    CancelAllStopsIff(p, w, x.open);
    var w1 := After(w, cancels);
    var sells := SellAll(p, w1, x, HardFlat);
    if x.holding.Long? { OnceOk(p, w1, HardFlat, SellOrder(x, x.holding.shares)); }
    if x.holding.Unsound? { assert sells[0] == Fault; }
    StopsEither(cancels, sells, true);
  }

  predicate NoLock(es: seq<Effect>) { forall i :: 0 <= i < |es| ==> es[i] != LockDay }

  lemma {:induction false} NoLockNoChange(w: World, es: seq<Effect>)
    requires NoLock(es)
    ensures After(w, es).dayLocked == w.dayLocked
    decreases |es|
  {
    if es != [] {
      assert forall i :: 0 <= i < |es[1..]| ==> es[1..][i] == es[i + 1];
      NoLockNoChange(Apply(w, es[0]), es[1..]);
    }
  }

  lemma {:induction false} CancelsDoNotLock(p: SessionPlan, w: World, orders: seq<OpenOrder>, own: bool)
    ensures NoLock(CancelAll(p, w, orders, own))
    decreases |orders|
  {
    if orders != [] {
      if own && orders[0].symbol != p.symbol {
        CancelsDoNotLock(p, w, orders[1..], own);
      } else {
        CancelsDoNotLock(p, After(w, CancelOnce(p, w, orders[0])), orders[1..], own);
      }
    }
  }

  lemma SellingDoesNotLock(p: SessionPlan, w: World, x: Input)
    ensures NoLock(Selling(p, w, x))
  {
    CancelsDoNotLock(p, w, x.open, false);
  }

  predicate HardLoss(w: World, x: Input) {
    !w.guardianLocked && x.guardian == Clear && x.dailyReturn <= -0.02
  }

  /** A hard loss locks the date exactly when the session may write, the position can be read, no cancellation meets a row
      of another symbol, and no crash falls before the tick's last write. */
  lemma HardLossLocksIff(p: SessionPlan, w: World, x: Input, n: nat)
    requires p.budget.Valid() && Inv(p, w) && x.Valid() && HardLoss(w, x) && !w.dayLocked
    ensures StepTo(p, w, Step(x, n)).dayLocked
            <==> x.Authorised() && !x.holding.Unsound? && SymbolsAgree(p, w, x.open) && n >= |Tick(p, w, x)|
  {
    if x.Authorised() {
      var selling := Selling(p, w, x);
      assert Intended(p, w, x) == selling + [LockDay];
      SellingStopsIff(p, w, x);
      SellingDoesNotLock(p, w, x);
      StopsEither(selling, [LockDay], true);
      PerformedIsPrefix(selling + [LockDay], true);
      var done := Tick(p, w, x);
      if |done| < |selling| + 1 || n < |done| {
        assert NoLock(Cut(done, n));
        NoLockNoChange(w, Cut(done, n));
      } else {
        assert done == selling + [LockDay];
        Append(p, w, selling, [LockDay]);
        One(p, After(w, selling), LockDay);
      }
    }
  }

  /** Every step flattens a hard loss while the position cannot be read. */
  predicate AlwaysUnsound(steps: seq<Step>) {
    forall i :: 0 <= i < |steps| ==>
      steps[i].input.guardian == Clear && steps[i].input.dailyReturn <= -0.02 && steps[i].input.holding.Unsound?
  }

  /** With a position the code refuses to read, a hard loss never locks the date, however often it is met. */
  lemma {:induction false} UnsoundNeverLocks(p: SessionPlan, w: World, steps: seq<Step>)
    requires p.budget.Valid() && Inv(p, w) && !Locked(w) && ValidSteps(steps) && AlwaysUnsound(steps)
    ensures Inv(p, Run(p, w, steps)) && !Locked(Run(p, w, steps))
  {
    RunKeeps(p, w, steps);
    if steps != [] {
      var before, s := steps[..|steps| - 1], steps[|steps| - 1];
      UnsoundNeverLocks(p, w, before);
      var v := Run(p, w, before);
      HardLossLocksIff(p, v, s.input, s.effects);
      NoGuardianLock(p, v, s);
    }
  }

  lemma NoGuardianLock(p: SessionPlan, w: World, s: Step)
    requires p.budget.Valid() && !w.guardianLocked && s.input.guardian == Clear && s.input.dailyReturn <= -0.02
    ensures !StepTo(p, w, s).guardianLocked
  {
    var es := Intended(p, w, s.input);
    HardLossLeavesGuardian(p, w, s.input);
    PerformedIsPrefix(es, s.input.writesEnabled);
    GuardianUntouched(w, es, Cut(Tick(p, w, s.input), s.effects));
  }

  lemma HardLossLeavesGuardian(p: SessionPlan, w: World, x: Input)
    requires p.budget.Valid() && !w.guardianLocked && x.guardian == Clear && x.dailyReturn <= -0.02
    ensures forall e :: e in Intended(p, w, x) ==> e != LockGuardian
  {
    CancelsAreQuietOfGuardian(p, w, x.open);
  }

  lemma {:induction false} CancelsAreQuietOfGuardian(p: SessionPlan, w: World, orders: seq<OpenOrder>)
    ensures forall e :: e in CancelAll(p, w, orders, false) ==> e != LockGuardian
    decreases |orders|
  {
    if orders != [] { CancelsAreQuietOfGuardian(p, After(w, CancelOnce(p, w, orders[0])), orders[1..]); }
  }

  lemma {:induction false} GuardianUntouched(w: World, all: seq<Effect>, es: seq<Effect>)
    requires es <= all && forall e :: e in all ==> e != LockGuardian
    ensures After(w, es).guardianLocked == w.guardianLocked
    decreases |es|
  {
    if es != [] {
      assert all[0] in all && es[0] == all[0];
      assert forall e :: e in all[1..] ==> e in all;
      GuardianUntouched(Apply(w, es[0]), all[1..], es[1..]);
    }
  }
}
