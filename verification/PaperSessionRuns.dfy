/** Runs of the paper session that show what its guards and the order of its writes leave open. */
module PaperSessionRuns {
  import opened PaperSession
  import opened PaperSessionSafety
  import opened PaperSessionGuards
  import opened PaperSessionTiming
  import opened PaperSessionLate
  import opened Texts
  import P = IntradayPolicy
  import E = PremarketEntry
  import A = Allocation

  // ---- a buy after a hard loss ----

  /** A flat symbol whose probe is due in regular hours, with every entry guard passed. */
  predicate ProbesRegularly(p: SessionPlan, x: Input)
    requires p.budget.Valid()
  {
    x.Valid() && x.guardian == Clear && EntryGuards(x) && x.RegularHours() && x.holding.Flat? && P.ProbeDue(x.policy)
    && A.TargetQuantity(p.budget, x.equity, 0.25) > 0
  }

  function ProbeId(c: Component): Id { Regular(P.EnterProbe, 2500, c) }

  predicate ProbeIsNew(w: World) { !Completed(w, ProbeId(TailPart)) && !Completed(w, ProbeId(MainPart)) }

  /** In an unlocked state such a tick buys. */
  lemma ProbeBuys(p: SessionPlan, w: World, x: Input)
    requires p.budget.Valid() && Inv(p, w) && !Locked(w) && ProbeIsNew(w) && ProbesRegularly(p, x)
    ensures HasBuy(Tick(p, w, x))
  {
    var d := P.Evaluate(x.policy);
    P.ProbesIff(x.policy);
    assert [] + RunRegular(p, w, x, d) == RunRegular(p, w, x, d);
    assert Intended(p, w, x) == RunRegular(p, w, x, d);
    RegularBuys(p, w, x, d);
    PerformedIsPrefix(RunRegular(p, w, x, d), true);
  }

  lemma RegularBuys(p: SessionPlan, w: World, x: Input, d: P.Decision)
    requires p.budget.Valid() && Inv(p, w) && !Locked(w) && ProbeIsNew(w) && x.equity > 0.0
    requires d.action == P.EnterProbe && d.target == 0.25 && A.TargetQuantity(p.budget, x.equity, 0.25) > 0
    ensures HasBuy(RunRegular(p, w, x, d)) && !Stops(RunRegular(p, w, x, d), true)
  {
    var tail := P.TailChoice(x.policy).1;
    A.ComponentsAreExact(p.budget, x.equity, 0.0, 0.25, tail);
    assert A.TargetQuantity(p.budget, x.equity, 0.0) == 0;
    var (t, m) := A.Components(p.budget, x.equity, 0.0, 0.25, tail);
    assert FourDecimals(0.25) == 2500;
    ComponentOk(p, w, x, d, TailPart, t);
    OtherIncomplete(p, w, x, d, t);
    var first := SubmitComponent(p, w, x, d, TailPart, t);
    var second := SubmitComponent(p, After(w, first), x, d, MainPart, m);
    ComponentBuys(p, w, x, d, TailPart, t);
    ComponentBuys(p, After(w, first), x, d, MainPart, m);
    NoBuyIn(first, second);
    StopsEither(first, second, true);
  }

  lemma ComponentBuys(p: SessionPlan, w: World, x: Input, d: P.Decision, c: Component, quantity: int)
    requires Inv(p, w) && !Locked(w) && d.action == P.EnterProbe && d.target == 0.25 && !Completed(w, ProbeId(c))
    ensures var es := SubmitComponent(p, w, x, d, c, quantity);
            !Stops(es, true) && (quantity > 0 ==> HasBuy(es))
  {
    assert FourDecimals(0.25) == 2500;
    if quantity > 0 {
      OnceOk(p, w, ProbeId(c), Order(BuySide, quantity, None, x.observed));
      assert IsBuyOf(SubmitComponent(p, w, x, d, c, quantity)[1]);
    }
  }

  /** After the tick of a hard loss, cut anywhere or carried out, a later tick whose probe is due buys unless the session
      could write, the position could be read, no cancellation met another symbol's row, and no crash fell before the
      last write; and only then. */
  lemma HardLossBuysLaterIff(p: SessionPlan, w: World, loss: Input, n: nat, later: Input)
    requires p.budget.Valid() && Inv(p, w) && !Locked(w) && ProbeIsNew(w) && loss.Valid() && HardLoss(w, loss)
    requires ProbesRegularly(p, later)
    ensures HasBuy(Tick(p, StepTo(p, w, Step(loss, n)), later))
            <==> !(loss.Authorised() && !loss.holding.Unsound? && SymbolsAgree(p, w, loss.open)
                   && n >= |Tick(p, w, loss)|)
  {
    var v := StepTo(p, w, Step(loss, n));
    StepKeeps(p, w, Step(loss, n));
    HardLossLocksIff(p, w, loss, n);
    NoGuardianLock(p, w, Step(loss, n));
    FlatteningCompletesNoBuy(p, w, loss, n);
    if Locked(v) { LocksBuyNothing(p, v, later); } else { ProbeBuys(p, v, later); }
  }

  predicate CompletesNoBuy(es: seq<Effect>) {
    forall i :: 0 <= i < |es| ==> !(es[i].CompleteCommand? && IsBuy(es[i].id))
  }

  lemma {:induction false} StaysIncomplete(w: World, es: seq<Effect>, id: Id)
    requires CompletesNoBuy(es) && IsBuy(id) && !Completed(w, id)
    ensures !Completed(After(w, es), id)
    decreases |es|
  {
    if es != [] {
      assert forall i :: 0 <= i < |es[1..]| ==> es[1..][i] == es[i + 1];
      StaysIncomplete(Apply(w, es[0]), es[1..], id);
    }
  }

  lemma {:induction false} CancelsCompleteNoBuy(p: SessionPlan, w: World, orders: seq<OpenOrder>)
    ensures CompletesNoBuy(CancelAll(p, w, orders, false))
    decreases |orders|
  {
    if orders != [] { CancelsCompleteNoBuy(p, After(w, CancelOnce(p, w, orders[0])), orders[1..]); }
  }

  lemma FlatteningCompletesNoBuy(p: SessionPlan, w: World, x: Input, n: nat)
    requires p.budget.Valid() && HardLoss(w, x) && ProbeIsNew(w)
    ensures ProbeIsNew(StepTo(p, w, Step(x, n)))
  {
    var es, done := Intended(p, w, x), Cut(Tick(p, w, x), n);
    CancelsCompleteNoBuy(p, w, x.open);
    assert CompletesNoBuy(es);
    PerformedIsPrefix(es, x.writesEnabled);
    assert forall i :: 0 <= i < |done| ==> done[i] == es[i];
    StaysIncomplete(w, done, ProbeId(TailPart));
    StaysIncomplete(w, done, ProbeId(MainPart));
  }

  // ---- one plan and its inputs ----

  const BUDGET := A.Budget(10.0, 9.0, 0.001, 1.0)
  const PLAN := SessionPlan(0, "S", BUDGET, None)

  /** A flat symbol with the catalyst's scores, at a time after 8:00. */
  function Scores(after: int, news: Option<bool>): P.Snapshot {
    P.Snapshot(8 * P.HOUR + after, P.Catalyst, Some(80.0), None, Some(70.0), Some(80.0), None, true, news, false, true,
               true, true, 0.0, None, None, 0.003, false, false, None, Some(3.0), Some(4.0))
  }

  /** An input that passes every guard; times count from 8:00. */
  function Probe(at: int, active: Option<OpenOrder>): Input {
    Input(at, at, 10.0, 10.0, Clear, 0.0, true, true, true, 100000.0, Flat, Scores(at, Some(true)),
          P.Signs(0, false, false, false), false, active, [], Missing, false)
  }

  lemma QuarterIsTwentyFive()
    ensures BUDGET.Valid() && A.TargetQuantity(BUDGET, 100000.0, 0.25) == 25
  {
    A.FullIsLargest(BUDGET, 100000.0, 100);
    A.FullIsLargest(BUDGET, 100000.0, 101);
    assert A.FullQuantity(BUDGET, 100000.0) == 100;
  }

  const ENTRY := PremarketPlan(25, 10.0)

  function FirstLimit(): real { E.BoundedLimit(ENTRY.Cap(), 10.0) }

  function FirstOrder(at: int): Order { Order(BuySide, 25, Some(FirstLimit()), at) }

  /** Such a tick runs the premarket entry of twenty-five shares. */
  lemma ProbeRuns(w: World, at: int, active: Option<OpenOrder>)
    requires 0 <= at <= P.HOUR && !Locked(w) && RunPremarket(PLAN, w, Probe(at, active), 25).1
    ensures BUDGET.Valid()
    ensures Tick(PLAN, w, Probe(at, active)) == Performed(RunPremarket(PLAN, w, Probe(at, active), 25).0, true)
  {
    QuarterIsTwentyFive();
    var x := Probe(at, active);
    assert x.policy.Valid() && P.ProbeDue(x.policy);
    P.ProbesIff(x.policy);
    var es := RunPremarket(PLAN, w, x, 25).0;
    assert [] + es == es;
    assert Decided(PLAN, w, x) == es;
  }

  function Opened(): Effect { OpenPremarket(ENTRY) }
  function Ensured(n: nat): Effect { EnsureCommand(Premarket(n), IdentityOf(PLAN, Premarket(n))) }
  function SavedAt(at: int): Effect { SavePremarket(E.Runtime(Some(at), Some(at), 0, None), Some(Premarket(0))) }

  /** What the engine decides on an entry that is not started. */
  lemma StartDecision(at: int)
    ensures PremarketDecision(Probe(at, None), Record(ENTRY, E.INITIAL, None))
         == Ok(E.Decision(E.SubmitLimit, E.Runtime(Some(at), Some(at), 0, None), Some(FirstLimit()), 25))
  {
  }

  /** And three seconds after its start, while its order works. */
  lemma RepriceDecision(started: int)
    ensures var now := started + 3 * P.SECOND;
            PremarketDecision(Probe(now, Some(WORKING)),
                              Record(ENTRY, E.Runtime(Some(started), Some(started), 0, None), Some(Premarket(0))))
            == Ok(E.Decision(E.CancelReplace, E.Runtime(Some(started), Some(now), 1, None), Some(FirstLimit()), 25))
  {
  }

  /** The first tick: the entry opened, its first order submitted, its start saved last. */
  lemma FirstTick(at: int)
    requires 0 <= at <= P.HOUR
    ensures BUDGET.Valid()
    ensures Tick(PLAN, EMPTY, Probe(at, None))
         == [Opened(), Ensured(0), Submit(Premarket(0), FirstOrder(at)), CompleteCommand(Premarket(0)), SavedAt(at)]
  {
    var x, r := Probe(at, None), Record(ENTRY, E.INITIAL, None);
    StartDecision(at);
    var d := PremarketDecision(x, r).value;
    One(PLAN, EMPTY, Opened());
    var w1 := After(EMPTY, [Opened()]);
    assert Premarket(0) !in w1.commands;
    var order := Order(BuySide, 25, Some(FirstLimit()), at);
    assert CarryOut(PLAN, w1, x, r, d)
        == [Ensured(0), Submit(Premarket(0), order), CompleteCommand(Premarket(0)), SavedAt(at)];
    var es := [Opened(), Ensured(0), Submit(Premarket(0), order), CompleteCommand(Premarket(0)), SavedAt(at)];
    assert [Opened()] + CarryOut(PLAN, w1, x, r, d) == es;
    assert RunPremarket(PLAN, EMPTY, x, 25) == (es, true);
    ProbeRuns(EMPTY, at, None);
    PerformedIsPrefix(es, true);
  }

  /** The first order is out and complete; runtime is what the row holds. */
  function Ordered(at: int, runtime: E.Runtime, active: Option<Id>): World {
    World(false, false, map[Premarket(0) := Row(IdentityOf(PLAN, Premarket(0)), true)],
          Some(Record(ENTRY, runtime, active)), false, None, map[Premarket(0) := FirstOrder(at)])
  }

  lemma FirstFour(at: int)
    ensures After(EMPTY, [Opened(), Ensured(0), Submit(Premarket(0), FirstOrder(at)), CompleteCommand(Premarket(0))])
         == Ordered(at, E.INITIAL, None)
  {
    var a, b, c, d := Opened(), Ensured(0), Submit(Premarket(0), FirstOrder(at)), CompleteCommand(Premarket(0));
    Three(PLAN, EMPTY, a, b, c);
    One(PLAN, Apply(Apply(Apply(EMPTY, a), b), c), d);
    Append(PLAN, EMPTY, [a, b, c], [d]);
    assert [a, b, c] + [d] == [a, b, c, d];
    assert Apply(Apply(Apply(Apply(EMPTY, a), b), c), d) == Ordered(at, E.INITIAL, None);
  }

  /** Cut before the save. */
  lemma FirstCut(at: int)
    requires 0 <= at <= P.HOUR
    ensures BUDGET.Valid() && StepTo(PLAN, EMPTY, Step(Probe(at, None), 4)) == Ordered(at, E.INITIAL, None)
  {
    FirstTick(at);
    FirstFour(at);
    assert Tick(PLAN, EMPTY, Probe(at, None))[..4]
        == [Opened(), Ensured(0), Submit(Premarket(0), FirstOrder(at)), CompleteCommand(Premarket(0))];
  }

  /** Carried out in full. */
  lemma FirstFull(at: int)
    requires 0 <= at <= P.HOUR
    ensures BUDGET.Valid() && StepTo(PLAN, EMPTY, Step(Probe(at, None), 5)) == Working(at, at)
  {
    FirstTick(at);
    FirstFour(at);
    var four := [Opened(), Ensured(0), Submit(Premarket(0), FirstOrder(at)), CompleteCommand(Premarket(0))];
    assert Tick(PLAN, EMPTY, Probe(at, None)) == four + [SavedAt(at)];
    Append(PLAN, EMPTY, four, [SavedAt(at)]);
    One(PLAN, Ordered(at, E.INITIAL, None), SavedAt(at));
  }

  // ---- a premarket buy long after the first order ----

  const WORKING := OpenOrder(7, "S", true, true)

  /** A started entry whose first order works. */
  function Working(at: int, started: int): World {
    Ordered(at, E.Runtime(Some(started), Some(started), 0, None), Some(Premarket(0)))
  }

  /** An input in which the policy only observes. */
  function Watch(at: int, active: Option<OpenOrder>): Input { Probe(at, active).(policy := Scores(at, None)) }

  lemma ProbeIsValid(at: int, active: Option<OpenOrder>)
    ensures Probe(at, active).Valid()
  {
  }

  lemma WatchCarriesOn(at: int, active: Option<OpenOrder>)
    requires 0 <= at <= P.HOUR
    ensures CarriesOn(Watch(at, active))
  {
  }

  /** A first premarket order cut off before its start is saved, then two full ticks a while later: the lifetime starts
      anew, and a second order is bought as long after the first as the restart took, and three seconds. */
  lemma LateBuyAfterCut(restart: int) returns (steps: seq<Step>)
    requires 0 <= restart <= P.HOUR - 3 * P.SECOND
    ensures PLAN.budget.Valid() && ValidSteps(steps) && |steps| == 3 && steps[0] == Step(Probe(0, None), 4)
    ensures steps[1].input == Watch(restart, None) && steps[2].input == Watch(restart + 3 * P.SECOND, Some(WORKING))
    ensures var w := Run(PLAN, EMPTY, steps);
            Premarket(0) in w.orders && Premarket(1) in w.orders
            && w.orders[Premarket(1)].at - w.orders[Premarket(0)].at == restart + 3 * P.SECOND
            && (restart >= 7 * P.SECOND ==> BoughtFrom(w, w.orders[Premarket(0)].at + LIFETIME))
  {
    FirstCut(0);
    ProbeIsValid(0, None);
    LateFromGap(restart);
    var x, y := Watch(restart, None), Watch(restart + 3 * P.SECOND, Some(WORKING));
    var w := Ordered(0, E.INITIAL, None);
    var v := Ticked(PLAN, w, x);
    steps := [Step(Probe(0, None), 4), Step(x, |Tick(PLAN, w, x)|), Step(y, |Tick(PLAN, v, y)|)];
    RunOfThree(PLAN, EMPTY, steps[0], steps[1], steps[2]);
  }

  /** The cut left the first order's start unsaved. */
  lemma GapIsOpen()
    ensures PLAN.budget.Valid()
    ensures var w := Ordered(0, E.INITIAL, None); Inv(PLAN, w) && InGap(w, 0) && !Locked(w)
  {
    FirstCut(0);
    ProbeIsValid(0, None);
    StepKeeps(PLAN, EMPTY, Step(Probe(0, None), 4));
  }

  lemma LateFromGap(restart: int)
    requires 0 <= restart <= P.HOUR - 3 * P.SECOND
    ensures PLAN.budget.Valid()
    ensures var x, y := Watch(restart, None), Watch(restart + 3 * P.SECOND, Some(WORKING));
            var v := Ticked(PLAN, Ticked(PLAN, Ordered(0, E.INITIAL, None), x), y);
            x.Valid() && y.Valid() && Premarket(0) in v.orders && v.orders[Premarket(0)].at == 0
            && Premarket(1) in v.orders && v.orders[Premarket(1)].at == restart + 3 * P.SECOND
            && (restart >= 7 * P.SECOND ==> BoughtFrom(v, LIFETIME))
  {
    GapIsOpen();
    WatchCarriesOn(restart, None);
    WatchCarriesOn(restart + 3 * P.SECOND, Some(WORKING));
    var x, y := Watch(restart, None), Watch(restart + 3 * P.SECOND, Some(WORKING));
    var w := Ordered(0, E.INITIAL, None);
    TickedKeeps(PLAN, w, x);
    TickedKeeps(PLAN, Ticked(PLAN, w, x), y);
    LateBuyIff(PLAN, w, 0, x, y);
  }

  lemma {:induction false} RunOfThree(p: SessionPlan, w: World, a: Step, b: Step, c: Step)
    requires p.budget.Valid()
    ensures Run(p, w, [a]) == StepTo(p, w, a)
    ensures Run(p, w, [a, b, c]) == StepTo(p, StepTo(p, StepTo(p, w, a), b), c)
  {
    OneMoreStep(p, w, [], a);
    OneMoreStep(p, w, [a], b);
    OneMoreStep(p, w, [a, b], c);
    assert [] + [a] == [a] && [a] + [b] == [a, b] && [a, b] + [c] == [a, b, c];
  }

  lemma {:induction false} OneMoreStep(p: SessionPlan, w: World, steps: seq<Step>, s: Step)
    requires p.budget.Valid()
    ensures Run(p, w, steps + [s]) == StepTo(p, Run(p, w, steps), s)
  {
    assert (steps + [s])[..|steps|] == steps;
  }

  // ---- a buy without authorisation, on a stale quote, after a soft loss ----

  /** Four seconds after the first order: the session is no longer authorised, the quote is over half a minute old and
      the day has lost more than its soft limit; the policy only observes. */
  function Unguarded(): Input {
    Probe(4 * P.SECOND, Some(WORKING)).(paperAuthorised := false, quoteAt := -27 * P.SECOND, dailyReturn := -0.016,
                                        policy := Scores(4 * P.SECOND, None))
  }

  lemma UnguardedBuyHappens()
    ensures PLAN.budget.Valid()
    ensures var w := Run(PLAN, EMPTY, [Step(Probe(0, None), 5)]);
            Probe(0, None).Valid() && Unguarded().Valid() && Inv(PLAN, w)
            && !Unguarded().Authorised() && !Unguarded().Fresh() && Unguarded().dailyReturn <= -0.015
            && HasBuy(Tick(PLAN, w, Unguarded()))
  {
    FirstFull(0);
    var step := Step(Probe(0, None), 5);
    RunOfThree(PLAN, EMPTY, step, step, step);
    RunKeeps(PLAN, EMPTY, [step]);
    UnguardedGoesOn();
    UnguardedIsDue();
    UnguardedBuyIff(PLAN, Run(PLAN, EMPTY, [step]), Unguarded());
  }

  function FirstDone(): World { Working(0, 0) }

  lemma UnguardedGoesOn()
    ensures BUDGET.Valid() && Unguarded().Valid() && GoesOn(PLAN, FirstDone(), Unguarded())
  {
  }

  lemma UnguardedIsDue()
    ensures RunningPremarket(FirstDone(), Unguarded()) && NextOrderDue(PLAN, FirstDone(), Unguarded())
  {
  }

  // ---- and the run behind the hard loss ----

  /** Ten shares are held at a loss of two percent. */
  function Losing(): Input {
    Probe(0, None).(holding := Long(10), dailyReturn := -0.02)
  }

  /** Later the same day the account has recovered and the probe is due at 10:00. */
  function Recovered(): Input {
    Probe(2 * P.HOUR, None).(quoteAt := 2 * P.HOUR)
  }

  /** From an empty ledger: the position is sold, a crash comes before the lock, and a later tick of the date buys. */
  lemma CutHardLossHappens()
    ensures PLAN.budget.Valid() && Losing().Valid() && Recovered().Valid() && HardLoss(EMPTY, Losing())
    ensures HardFlat in StepTo(PLAN, EMPTY, Step(Losing(), 3)).orders
    ensures HasBuy(Tick(PLAN, StepTo(PLAN, EMPTY, Step(Losing(), 3)), Recovered()))
  {
    LosingTick();
    LosingIsSold();
    RecoveredProbes();
    HardLossBuysLaterIff(PLAN, EMPTY, Losing(), 3, Recovered());
  }

  lemma LosingIsSold()
    ensures PLAN.budget.Valid()
    ensures HardFlat in StepTo(PLAN, EMPTY, Step(Losing(), 3)).orders
  {
    LosingTick();
    var a, b, c := EnsureCommand(HardFlat, IdentityOf(PLAN, HardFlat)), Submit(HardFlat, SellOrder(Losing(), 10)),
                   CompleteCommand(HardFlat);
    assert Tick(PLAN, EMPTY, Losing())[..3] == [a, b, c];
    Three(PLAN, EMPTY, a, b, c);
  }

  lemma RecoveredProbes()
    ensures PLAN.budget.Valid() && ProbesRegularly(PLAN, Recovered())
  {
    QuarterIsTwentyFive();
    assert P.ProbeDue(Recovered().policy);
  }

  lemma LosingTick()
    ensures PLAN.budget.Valid()
    ensures Tick(PLAN, EMPTY, Losing())
         == [EnsureCommand(HardFlat, IdentityOf(PLAN, HardFlat)), Submit(HardFlat, SellOrder(Losing(), 10)),
             CompleteCommand(HardFlat), LockDay]
  {
    var x := Losing();
    var a, b, c := EnsureCommand(HardFlat, IdentityOf(PLAN, HardFlat)), Submit(HardFlat, SellOrder(x, 10)),
                   CompleteCommand(HardFlat);
    assert After(EMPTY, []) == EMPTY && HardFlat !in EMPTY.commands;
    assert Intended(PLAN, EMPTY, x) == [a, b, c, LockDay];
    PerformedIsPrefix([a, b, c, LockDay], true);
  }
}
