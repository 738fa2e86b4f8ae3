/** When the paper session marks its state (execution/autonomous_paper_session.py): the recorded profit, the tail's
    runtime, and the guardian's lock. */
module PaperSessionMarks {
  import opened PaperSession
  import opened PaperSessionSafety
  import opened PaperSessionGuards
  import opened Texts
  import L = PaperSessionLate
  import P = IntradayPolicy
  import E = PremarketEntry
  import A = Allocation

  // ---- writes that mark nothing ----

  predicate Marks(e: Effect) { e.MarkProfit? || e.SaveTail? || e.LockGuardian? }

  predicate Unmarked(es: seq<Effect>) { forall i :: 0 <= i < |es| ==> !Marks(es[i]) }

  lemma {:induction false} UnmarkedKeeps(w: World, es: seq<Effect>)
    requires Unmarked(es)
    ensures var v := After(w, es);
            v.profit == w.profit && v.tail == w.tail && v.guardianLocked == w.guardianLocked
    decreases |es|
  {
    if es != [] {
      assert !Marks(es[0]);
      assert forall i :: 0 <= i < |es[1..]| ==> es[1..][i] == es[i + 1];
      UnmarkedKeeps(Apply(w, es[0]), es[1..]);
    }
  }

  lemma {:induction false} UnmarkedCancels(p: SessionPlan, w: World, orders: seq<OpenOrder>, own: bool)
    ensures Unmarked(CancelAll(p, w, orders, own))
    decreases |orders|
  {
    if orders != [] {
      if own && orders[0].symbol != p.symbol {
        UnmarkedCancels(p, w, orders[1..], own);
      } else {
        UnmarkedCancels(p, After(w, CancelOnce(p, w, orders[0])), orders[1..], own);
      }
    }
  }

  lemma UnmarkedBoth(a: seq<Effect>, b: seq<Effect>)
    requires Unmarked(a) && Unmarked(b)
    ensures Unmarked(a + b)
  {
  }

  lemma UnmarkedCarryOut(p: SessionPlan, w: World, x: Input, r: Record, d: E.Decision)
    ensures Unmarked(CarryOut(p, w, x, r, d))
  {
    var cancel := CancelActive(p, w, x, r, d);
    UnmarkedBoth(cancel, SubmitPremarket(p, After(w, cancel), x, d));
  }

  lemma UnmarkedPremarket(p: SessionPlan, w: World, x: Input, target: nat)
    ensures Unmarked(RunPremarket(p, w, x, target).0)
  {
    var r := RecordFor(p, w, target);
    match PremarketDecision(x, r) {
      case Err(_) =>
      case Ok(d) =>
        UnmarkedCarryOut(p, After(w, Opening(w, r)), x, r, d);
        UnmarkedBoth(Opening(w, r), CarryOut(p, After(w, Opening(w, r)), x, r, d));
    }
  }

  lemma UnmarkedRegular(p: SessionPlan, w: World, x: Input, d: P.Decision)
    requires p.budget.Valid()
    ensures Unmarked(RunRegular(p, w, x, d))
  {
  }

  lemma UnmarkedContinue(p: SessionPlan, w: World, x: Input)
    ensures Unmarked(Continue(p, w, x))
  {
    if RunningPremarket(w, x) { UnmarkedPremarket(p, w, x, w.premarket.value.plan.target); }
  }

  lemma UnmarkedEntry(p: SessionPlan, w: World, x: Input, d: P.Decision)
    requires p.budget.Valid()
    ensures Unmarked(RunEntry(p, w, x, d).0)
  {
    UnmarkedRegular(p, w, x, d);
    var desired := A.TargetQuantity(p.budget, x.equity, d.target);
    if desired > 0 { UnmarkedPremarket(p, w, x, desired); }
  }

  lemma UnmarkedSale(p: SessionPlan, w: World, x: Input, id: Id)
    ensures Unmarked(SellAll(p, w, x, id))
  {
  }

  lemma UnmarkedSales(p: SessionPlan, w: World, x: Input, d: P.Decision)
    requires p.budget.Valid()
    ensures Unmarked(Flatten(p, w, x)) && Unmarked(ClosePosition(p, w, x, d)) && Unmarked(Reduce(p, w, x, d))
  {
    var all, own := CancelAll(p, w, x.open, false), CancelAll(p, w, x.open, true);
    UnmarkedCancels(p, w, x.open, false);
    UnmarkedCancels(p, w, x.open, true);
    UnmarkedSale(p, After(w, all), x, HardFlat);
    UnmarkedSale(p, After(w, own), x, Exit(d.reason));
  }

  lemma UnmarkedProceed(p: SessionPlan, w: World, x: Input, d: P.Decision)
    requires p.budget.Valid()
    ensures Unmarked(Proceed(p, w, x, d))
  {
    UnmarkedContinue(p, w, x);
    if Buys(d.action) {
      var es := RunEntry(p, w, x, d).0;
      UnmarkedEntry(p, w, x, d);
      UnmarkedContinue(p, After(w, es), x);
      UnmarkedBoth(es, Continue(p, After(w, es), x));
    } else {
      UnmarkedSales(p, w, x, d);
    }
  }

  lemma UnmarkedAct(p: SessionPlan, w: World, x: Input, d: P.Decision)
    requires p.budget.Valid()
    ensures Unmarked(Act(p, w, x, d))
  {
    if d.action == P.Exit {
      UnmarkedSales(p, w, x, d);
    } else if ProtectionFor(w, x).NotNeeded? {
      UnmarkedProceed(p, w, x, d);
    }
  }

  // ---- what a tick marks ----

  /** The tick looks at the plan: nothing is locked, the guardian is clear and the day is above its hard loss. */
  predicate LooksAt(w: World, x: Input) {
    !w.dayLocked && !w.guardianLocked && x.guardian == Clear && x.dailyReturn > -0.02
  }

  /** The plan's position was bought as a whole: its filled main component stands in the ledger. */
  ghost predicate MainDone(w: World, x: Input) {
    x.mainFilled
    && exists action, fraction ::
         Regular(action, fraction, MainPart) in w.commands && w.commands[Regular(action, fraction, MainPart)].completed
  }

  lemma MainDoneIff(w: World, x: Input)
    ensures MainDone(w, x) <==> x.mainFilled && MainBought(w)
  {
    if MainBought(w) {
      var id :| id in w.commands && id.Regular? && id.component == MainPart && w.commands[id].completed;
      assert Regular(id.action, id.fraction, MainPart) in w.commands;
    }
  }

  /** The writes before the decision. */
  function First(p: SessionPlan, w: World, x: Input): seq<Effect>
    requires p.budget.Valid()
  {
    Lifecycle(p, w, x).0
  }

  function Rest(p: SessionPlan, w: World, x: Input): seq<Effect>
    requires p.budget.Valid()
  {
    match Lifecycle(p, w, x).1
    case None => [Fault]
    case Some(s) => Act(p, After(w, First(p, w, x)), x, DecisionFor(p, x, s))
  }

  lemma LookingMarks(p: SessionPlan, w: World, x: Input)
    requires p.budget.Valid() && LooksAt(w, x)
    ensures var v, u := L.Ticked(p, w, x), After(w, First(p, w, x));
            v.profit == u.profit && v.tail == u.tail && v.guardianLocked == u.guardianLocked
  {
    var es, rest := First(p, w, x), Rest(p, w, x);
    var s := Lifecycle(p, w, x).1;
    if s.Some? { UnmarkedAct(p, After(w, es), x, DecisionFor(p, x, s.value)); }
    assert Intended(p, w, x) == es + rest;
    assert !Stops(es, x.writesEnabled);
    PerformedAppend(es, rest, x.writesEnabled);
    PerformedIsPrefix(rest, x.writesEnabled);
    Append(p, w, es, Performed(rest, x.writesEnabled));
    UnmarkedKeeps(After(w, es), Performed(rest, x.writesEnabled));
  }

  lemma AsideMarks(p: SessionPlan, w: World, x: Input)
    requires p.budget.Valid() && !LooksAt(w, x)
    ensures var v := L.Ticked(p, w, x);
            v.profit == w.profit && v.tail == w.tail
            && (v.guardianLocked <==> w.guardianLocked || x.guardian == Trips)
  {
    var all := Intended(p, w, x);
    if x.guardian == Trips && !w.guardianLocked {
      assert all == [LockGuardian] && Performed(all[1..], x.writesEnabled) == [];
      One(p, w, LockGuardian);
    } else {
      if all != [] { UnmarkedSales(p, w, x, P.Exiting(P.TakeProfit2Reached)); }
      assert Unmarked(all);
      PerformedIsPrefix(all, x.writesEnabled);
      UnmarkedKeeps(w, Tick(p, w, x));
    }
  }

  lemma FirstMarks(p: SessionPlan, w: World, x: Input)
    requires p.budget.Valid()
    ensures var u := After(w, First(p, w, x));
            u.guardianLocked == w.guardianLocked && (u.profit <==> w.profit || MarksProfit(p, w, x))
            && u.tail == SavedTail(p, w, x)
  {
    var es := First(p, w, x);
    if |es| == 1 {
      assert es == [es[0]];
      One(p, w, es[0]);
    } else if |es| == 2 {
      assert es == [es[0], es[1]];
      Three(p, w, es[0], es[1], Fault);
    }
  }

  /** The evidence is gathered for a held plan whose profit is recorded, now or before. */
  function SavedTail(p: SessionPlan, w: World, x: Input): Option<P.TailRuntime>
    requires p.budget.Valid()
  {
    var seen := P.SessionEvidence(x.policy.(profit := true), p.budget.hardStop, w.tail, x.observed, x.signs);
    if x.policy.Held() && (x.policy.profit || w.profit || MarksProfit(p, w, x)) && seen.Some? && seen.value.1.Some?
    then seen.value.1 else w.tail
  }

  /** A tick records the profit exactly when it looks at a held plan whose profit nobody has recorded, whose main
      component is bought and filled, and of which no more is left than the tail. */
  lemma ProfitIsMarkedIff(p: SessionPlan, w: World, x: Input)
    requires p.budget.Valid() && x.Valid() && !w.profit
    ensures L.Ticked(p, w, x).profit
            <==> LooksAt(w, x) && x.policy.position > 0.0 && !x.policy.profit && MainDone(w, x) && x.holding.Long?
                 && x.holding.shares <= A.TargetQuantity(p.budget, x.equity, P.TailChoice(x.policy).1)
  {
    if LooksAt(w, x) {
      LookingMarks(p, w, x);
      FirstMarks(p, w, x);
      MainDoneIff(w, x);
    } else {
      AsideMarks(p, w, x);
    }
  }

  /** A guardian that trips locks the session, and nothing else does. */
  lemma GuardianLocksIff(p: SessionPlan, w: World, x: Input)
    requires p.budget.Valid()
    ensures L.Ticked(p, w, x).guardianLocked <==> w.guardianLocked || x.guardian == Trips
  {
    if LooksAt(w, x) {
      LookingMarks(p, w, x);
      FirstMarks(p, w, x);
    } else {
      AsideMarks(p, w, x);
    }
  }

  /** A tick keeps the tail's runtime unless it looks at a held plan whose profit is recorded, now or before, and whose
      evidence comes with one: then it stores that. */
  lemma TailIsSaved(p: SessionPlan, w: World, x: Input)
    requires p.budget.Valid() && x.Valid()
    ensures var v := L.Ticked(p, w, x);
            var seen := P.SessionEvidence(x.policy.(profit := true), p.budget.hardStop, w.tail, x.observed, x.signs);
            if LooksAt(w, x) && x.policy.position > 0.0 && (x.policy.profit || v.profit)
               && seen.Some? && seen.value.1.Some?
            then v.tail == seen.value.1 else v.tail == w.tail
  {
    if LooksAt(w, x) {
      LookingMarks(p, w, x);
      FirstMarks(p, w, x);
    } else {
      AsideMarks(p, w, x);
    }
  }
}
