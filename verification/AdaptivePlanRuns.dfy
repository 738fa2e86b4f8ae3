/** What the adaptive plan engine keeps over every run of evaluations from a fresh runtime. */
module AdaptivePlanRuns {
  import opened Texts
  import opened AdaptivePlan

  datatype Input = Input(facts: Facts, position: Option<Position>)

  predicate ValidInput(x: Input) {
    x.facts.Valid() && (x.position.Some? ==> x.position.value.shares > 0)
  }

  /** A run: the inputs, the runtime before each of them and after the last, and the decision on each. */
  datatype Run = Run(plan: Plan, inputs: seq<Input>, runtimes: seq<Runtime>, decisions: seq<Decision>)

  predicate StepOf(plan: Plan, x: Input, r: Runtime, d: Decision, next: Runtime)
    requires plan.Valid() && ValidInput(x)
  {
    d == Evaluate(plan, r, x.facts, x.position) && next == d.runtime
  }

  predicate Shape(t: Run) {
    t.plan.Valid() && |t.decisions| == |t.inputs| && |t.runtimes| == |t.inputs| + 1
    && forall k :: 0 <= k < |t.inputs| ==> ValidInput(t.inputs[k])
  }

  predicate StepAt(t: Run, k: nat)
    requires Shape(t) && k < |t.inputs|
  {
    StepOf(t.plan, t.inputs[k], t.runtimes[k], t.decisions[k], t.runtimes[k + 1])
  }

  predicate IsRun(t: Run) {
    Shape(t) && t.runtimes[0] == Initial(t.plan)
    && forall k: nat {:trigger StepAt(t, k)} :: k < |t.inputs| ==> StepAt(t, k)
  }

  predicate ClockMovesForward(inputs: seq<Input>) {
    forall i, j :: 0 <= i <= j < |inputs| ==> inputs[i].facts.observed <= inputs[j].facts.observed
  }

  /** Every list of inputs has a run: the engine's own. */
  method Drive(plan: Plan, inputs: seq<Input>) returns (t: Run)
    requires plan.Valid() && forall k :: 0 <= k < |inputs| ==> ValidInput(inputs[k])
    ensures t.plan == plan && t.inputs == inputs && IsRun(t)
  {
    var runtimes, decisions: seq<Decision> := [Initial(plan)], [];
    for i := 0 to |inputs|
      invariant |runtimes| == i + 1 && |decisions| == i && runtimes[0] == Initial(plan)
      invariant forall k :: 0 <= k < i ==> StepOf(plan, inputs[k], runtimes[k], decisions[k], runtimes[k + 1])
    {
      var d := Evaluate(plan, runtimes[i], inputs[i].facts, inputs[i].position);
      decisions := decisions + [d];
      runtimes := runtimes + [d.runtime];
    }
    t := Run(plan, inputs, runtimes, decisions);
  }

  // ---- one step ----

  /** Stop, counters, clock marks and the add mark after one evaluation. */
  predicate Advances(plan: Plan, r: Runtime, f: Facts, p: Option<Position>, d: Decision) {
    var n := d.runtime;
    r.stop <= n.stop
    && n.revision == r.revision + (if d.material then 1 else 0)
    && n.soft == r.soft + (if d.soft then 1 else 0)
    && n.lastMaterial == (if d.material then Some(f.observed) else r.lastMaterial)
    && (d.soft <==> d.action == EnterProbe || d.action == AllowAdd)
    && (d.soft ==> d.material && r.soft < plan.maxSoft
                   && (r.lastMaterial.Some? ==> f.observed - r.lastMaterial.value >= plan.cooldown))
    && (if d.action == AllowAdd then
          p.Some? && n.lastAddShares == Some(p.value.shares)
          && (r.lastAddShares.Some? ==> r.lastAddShares.value < p.value.shares)
        else n.lastAddShares == r.lastAddShares)
  }

  lemma WithPositionAdvances(plan: Plan, r: Runtime, f: Facts, p: Position)
    requires plan.Valid() && f.Valid()
    ensures Advances(plan, r, f, Some(p), WithPosition(plan, r, f, p))
    ensures HoldsPosition(WithPosition(plan, r, f, p).runtime.state)
  {
    if AddBlockers(plan, r, f, p) == [] { AddWithinCapacity(plan, r, f, p); }
  }

  lemma EvaluateAdvances(plan: Plan, r: Runtime, f: Facts, p: Option<Position>)
    requires plan.Valid() && f.Valid()
    ensures Advances(plan, r, f, p, Evaluate(plan, r, f, p))
  {
    var s := Synchronized(r, p);
    if p.Some? { WithPositionAdvances(plan, s, f, p.value); } else { WithoutPositionAdvances(plan, s, f); }
  }

  lemma WithoutPositionAdvances(plan: Plan, r: Runtime, f: Facts)
    requires plan.Valid() && f.Valid()
    ensures Advances(plan, r, f, None, WithoutPosition(plan, r, f))
  {
  }

  lemma RunAdvances(t: Run, k: nat)
    requires IsRun(t) && k < |t.inputs|
    ensures Advances(t.plan, t.runtimes[k], t.inputs[k].facts, t.inputs[k].position, t.decisions[k])
    ensures t.runtimes[k + 1] == t.decisions[k].runtime
    ensures t.decisions[k].shares.Some? <==> t.decisions[k].soft
  {
    assert StepAt(t, k);
    EvaluateAdvances(t.plan, t.runtimes[k], t.inputs[k].facts, t.inputs[k].position);
    SuggestionsAreBuys(t.plan, t.runtimes[k], t.inputs[k].facts, t.inputs[k].position);
  }

  // ---- counters over a run ----

  function Materials(ds: seq<Decision>): nat {
    if ds == [] then 0 else Materials(ds[..|ds| - 1]) + if ds[|ds| - 1].material then 1 else 0
  }

  function Buys(ds: seq<Decision>): nat {
    if ds == [] then 0 else Buys(ds[..|ds| - 1]) + if ds[|ds| - 1].shares.Some? then 1 else 0
  }

  /** The revision counts the material decisions, the soft count the decisions that suggest shares, and those
      never exceed the plan's limit. */
  lemma {:induction false} CountersCount(t: Run, k: nat)
    requires IsRun(t) && k <= |t.inputs|
    ensures t.runtimes[k].revision == Materials(t.decisions[..k])
    ensures t.runtimes[k].soft == Buys(t.decisions[..k]) <= t.plan.maxSoft
  {
    if k > 0 {
      CountersCount(t, k - 1);
      RunAdvances(t, k - 1);
      assert t.decisions[..k][..k - 1] == t.decisions[..k - 1];
    }
  }

  /** The protective stop starts at the hard stop and never falls. */
  lemma {:induction false} StopNeverFalls(t: Run, i: nat, k: nat)
    requires IsRun(t) && i <= k <= |t.inputs|
    ensures t.plan.hardStop <= t.runtimes[i].stop <= t.runtimes[k].stop
    decreases k
  {
    if k > 0 {
      RunAdvances(t, k - 1);
      if i < k { StopNeverFalls(t, i, k - 1); } else { StopNeverFalls(t, k - 1, k - 1); }
    }
  }

  lemma {:induction false} MaterialMarkHolds(t: Run, i: nat, k: nat)
    requires IsRun(t) && ClockMovesForward(t.inputs) && i < k <= |t.inputs| && t.decisions[i].material
    ensures t.runtimes[k].lastMaterial.Some? && t.inputs[i].facts.observed <= t.runtimes[k].lastMaterial.value
    decreases k
  {
    RunAdvances(t, k - 1);
    if i < k - 1 { MaterialMarkHolds(t, i, k - 1); }
  }

  /** Any two decisions that suggest shares are at least the cooldown apart. */
  lemma BuysAreSpaced(t: Run, i: nat, j: nat)
    requires IsRun(t) && ClockMovesForward(t.inputs) && i < j < |t.inputs|
    requires t.decisions[i].shares.Some? && t.decisions[j].shares.Some?
    ensures t.inputs[j].facts.observed - t.inputs[i].facts.observed >= t.plan.cooldown
  {
    RunAdvances(t, i);
    RunAdvances(t, j);
    MaterialMarkHolds(t, i, j);
  }

  lemma {:induction false} AddMarkGrows(t: Run, i: nat, k: nat)
    requires IsRun(t) && i <= k <= |t.inputs| && t.runtimes[i].lastAddShares.Some?
    ensures t.runtimes[k].lastAddShares.Some?
    ensures t.runtimes[i].lastAddShares.value <= t.runtimes[k].lastAddShares.value
    decreases k
  {
    if i < k {
      AddMarkGrows(t, i, k - 1);
      RunAdvances(t, k - 1);
    }
  }

  /** Between two add signals the broker's position has grown: a signal is not repeated until it was used. */
  lemma AddsNeedGrowth(t: Run, i: nat, j: nat)
    requires IsRun(t) && i < j < |t.inputs|
    requires t.decisions[i].action == AllowAdd && t.decisions[j].action == AllowAdd
    ensures t.inputs[i].position.Some? && t.inputs[j].position.Some?
    ensures t.inputs[i].position.value.shares < t.inputs[j].position.value.shares
  {
    RunAdvances(t, i);
    AddMarkGrows(t, i + 1, j);
    RunAdvances(t, j);
  }

  // ---- the entry phase ----

  predicate InEntry(s: State) { s == Watching || s == Armed || s == EntryReady }

  /** A plan is abandoned only once its entry window has closed. */
  lemma {:induction false} AbandonedOnlyLate(t: Run, k: nat)
    requires IsRun(t) && ClockMovesForward(t.inputs) && k <= |t.inputs| && t.runtimes[k].state == Abandoned
    ensures k > 0 && t.inputs[k - 1].facts.observed >= t.plan.entryEnd
  {
    if k > 0 {
      assert StepAt(t, k - 1);
      if t.runtimes[k - 1].state == Abandoned { AbandonedOnlyLate(t, k - 1); }
    }
  }

  predicate Clear(plan: Plan, x: Input)
    requires ValidInput(x)
  {
    QuoteBlockers(plan, x.facts) == []
  }

  /** One step inside the entry phase: no position is held, an unusable quote changes nothing, a usable one
      without the confluence disarms, and one with it keeps or makes the first confirmation. */
  predicate EntryStep(plan: Plan, r: Runtime, x: Input, d: Decision)
    requires ValidInput(x)
  {
    var n := d.runtime;
    InEntry(r.state) && x.position.None?
    && (if !Clear(plan, x) then n == r && d.action == NoAction
        else if !Confirming(plan, x.facts) then n.state == Watching && n.confirmations == 0
        else
          (r.confirmations >= 1 ==> n.confirmations >= 1 && (r.state == EntryReady ==> n.state == EntryReady)
                                    && (r.lastBar.Some? ==> n.lastBar.Some? && r.lastBar.value <= n.lastBar.value))
          && (r.confirmations == 0 && n.confirmations >= 1 ==>
                d.action == ArmEntry && x.facts.bar.Some? && n.lastBar == x.facts.bar))
  }

  lemma StaysInEntry(plan: Plan, r: Runtime, x: Input)
    requires plan.Valid() && ValidInput(x)
    requires r.state == Abandoned ==> x.facts.observed >= plan.entryEnd
    requires InEntry(Evaluate(plan, r, x.facts, x.position).runtime.state)
    ensures EntryStep(plan, r, x, Evaluate(plan, r, x.facts, x.position))
  {
    if x.position.Some? { WithPositionAdvances(plan, Synchronized(r, x.position), x.facts, x.position.value); }
  }

  lemma EntryFromEntry(t: Run, k: nat)
    requires IsRun(t) && ClockMovesForward(t.inputs) && k < |t.inputs| && InEntry(t.runtimes[k + 1].state)
    ensures EntryStep(t.plan, t.runtimes[k], t.inputs[k], t.decisions[k])
    ensures t.runtimes[k + 1] == t.decisions[k].runtime
  {
    assert StepAt(t, k);
    if t.runtimes[k].state == Abandoned {
      AbandonedOnlyLate(t, k);
      assert t.inputs[k - 1].facts.observed <= t.inputs[k].facts.observed;
    }
    StaysInEntry(t.plan, t.runtimes[k], t.inputs[k]);
  }

  /** Once the entry phase is left it is never entered again. */
  lemma {:induction false} EntryEndsOnce(t: Run, i: nat, k: nat)
    requires IsRun(t) && ClockMovesForward(t.inputs) && i <= k <= |t.inputs| && InEntry(t.runtimes[k].state)
    ensures InEntry(t.runtimes[i].state)
    decreases k
  {
    if i < k {
      EntryFromEntry(t, k - 1);
      EntryEndsOnce(t, i, k - 1);
    }
  }

  /** No position, and either an unusable quote or the full confluence. */
  predicate Uninterrupted(plan: Plan, x: Input)
    requires ValidInput(x)
  {
    x.position.None? && (Clear(plan, x) ==> Confirming(plan, x.facts))
  }

  /** The entry was armed at input i; up to k nothing but unusable quotes interrupted the confluence, and the
      recorded bar has not moved back from the arming bar. */
  predicate ArmedSince(t: Run, i: nat, k: nat)
    requires Shape(t) && i < k <= |t.inputs|
  {
    t.decisions[i].action == ArmEntry && t.inputs[i].facts.bar.Some?
    && t.runtimes[k].lastBar.Some? && t.inputs[i].facts.bar.value <= t.runtimes[k].lastBar.value
    && forall n :: i < n < k ==> Uninterrupted(t.plan, t.inputs[n])
  }

  lemma {:induction false} ConfirmationsAreArmed(t: Run, k: nat) returns (i: nat)
    requires IsRun(t) && ClockMovesForward(t.inputs) && k <= |t.inputs|
    requires InEntry(t.runtimes[k].state) && t.runtimes[k].confirmations >= 1
    ensures i < k && ArmedSince(t, i, k)
  {
    EntryFromEntry(t, k - 1);
    if t.runtimes[k - 1].confirmations >= 1 {
      i := ConfirmationsAreArmed(t, k - 1);
    } else {
      i := k - 1;
    }
  }

  lemma ProbeStep(plan: Plan, r: Runtime, f: Facts, p: Option<Position>)
    requires plan.Valid() && f.Valid() && Evaluate(plan, r, f, p).action == EnterProbe
    requires r.state == Abandoned ==> f.observed >= plan.entryEnd
    ensures InEntry(r.state) && r.state != EntryReady && r.confirmations >= 1 && Confirming(plan, f) && f.bar.Some?
    ensures r.lastBar.Some? ==> r.lastBar.value < f.bar.value
    ensures var n := Evaluate(plan, r, f, p).runtime; n.state == EntryReady && n.confirmations >= 1
  {
    SuggestionsAreBuys(plan, r, f, p);
  }

  lemma ProbeInRun(t: Run, j: nat)
    requires IsRun(t) && ClockMovesForward(t.inputs) && j < |t.inputs| && t.decisions[j].action == EnterProbe
    ensures var r, f := t.runtimes[j], t.inputs[j].facts;
            InEntry(r.state) && r.state != EntryReady && r.confirmations >= 1 && Confirming(t.plan, f) && f.bar.Some?
            && (r.lastBar.Some? ==> r.lastBar.value < f.bar.value)
    ensures t.runtimes[j + 1].state == EntryReady && t.runtimes[j + 1].confirmations >= 1
  {
    assert StepAt(t, j);
    if t.runtimes[j].state == Abandoned {
      AbandonedOnlyLate(t, j);
      assert t.inputs[j - 1].facts.observed <= t.inputs[j].facts.observed;
    }
    ProbeStep(t.plan, t.runtimes[j], t.inputs[j].facts, t.inputs[j].position);
  }

  /** Every entry is at least the second confirmation: the arming before it used a strictly earlier completed bar,
      and between the two there was no position and no entry blocker. */
  lemma EntryNeedsTwoBars(t: Run, j: nat)
    requires IsRun(t) && ClockMovesForward(t.inputs) && j < |t.inputs| && t.decisions[j].action == EnterProbe
    ensures Confirming(t.plan, t.inputs[j].facts) && t.inputs[j].facts.bar.Some?
    ensures exists i: nat :: i < j && ArmedSince(t, i, j) && t.inputs[i].facts.bar.value < t.inputs[j].facts.bar.value
  {
    ProbeInRun(t, j);
    var i := ConfirmationsAreArmed(t, j);
  }

  /** A usable quote without the confluence while no position is held: the entry is disarmed. */
  predicate Disarms(plan: Plan, x: Input)
    requires ValidInput(x)
  {
    x.position.None? && Clear(plan, x) && !Confirming(plan, x.facts)
  }

  lemma {:induction false} ReadyUntilDisarmed(t: Run, i: nat, k: nat)
    requires IsRun(t) && ClockMovesForward(t.inputs) && i <= k <= |t.inputs| && InEntry(t.runtimes[k].state)
    requires t.runtimes[i].state == EntryReady && t.runtimes[i].confirmations >= 1
    requires forall n :: i <= n < k ==> !Disarms(t.plan, t.inputs[n])
    ensures t.runtimes[k].state == EntryReady && t.runtimes[k].confirmations >= 1
    decreases k
  {
    if i < k {
      EntryFromEntry(t, k - 1);
      ReadyUntilDisarmed(t, i, k - 1);
      assert !Disarms(t.plan, t.inputs[k - 1]);
    }
  }

  /** Two entries are separated by a disarm. */
  lemma EntriesAreSeparated(t: Run, i: nat, j: nat)
    requires IsRun(t) && ClockMovesForward(t.inputs) && i < j < |t.inputs|
    requires t.decisions[i].action == EnterProbe && t.decisions[j].action == EnterProbe
    ensures exists n :: i < n < j && Disarms(t.plan, t.inputs[n])
  {
    ProbeInRun(t, i);
    ProbeInRun(t, j);
    if forall n :: i + 1 <= n < j ==> !Disarms(t.plan, t.inputs[n]) { ReadyUntilDisarmed(t, i + 1, j); }
  }

  // ---- completed bars ----

  /** The recorded bar moves back exactly when an add is due on a bar earlier than the recorded one: the add branch,
      unlike the entry, only asks for a different bar. */
  lemma BarMovesBackIff(plan: Plan, r: Runtime, f: Facts, p: Option<Position>)
    requires plan.Valid() && f.Valid() && r.lastBar.Some?
    ensures var n := Evaluate(plan, r, f, p).runtime;
            n.lastBar.Some?
            && (n.lastBar.value < r.lastBar.value
                <==> p.Some? && AddDue(plan, r, f, p.value) && f.bar.value < r.lastBar.value)
  {
    AddsIff(plan, r, f, p);
    if p.Some? { AddMovesBar(plan, Synchronized(r, p), f, p.value); }
  }

  lemma AddMovesBar(plan: Plan, r: Runtime, f: Facts, p: Position)
    requires plan.Valid() && f.Valid()
    ensures var d := WithPosition(plan, r, f, p);
            if d.action == AllowAdd then f.bar.Some? && d.runtime.lastBar == f.bar else d.runtime.lastBar == r.lastBar
  {
    if AddBlockers(plan, r, f, p) == [] { AddWithinCapacity(plan, r, f, p); }
  }

  // A run from a fresh runtime in which the second add uses an earlier bar than the first.

  function ConfluentFacts(observed: int, bar: int): Facts {
    Facts(observed, observed, 10.0, 10.0, 10.0, Some(9.0), Some(bar), true, true, true, Some(2.0), Some(1.0), true, true,
          false, Some(0.5), Some(0.9), true, None, false)
  }

  const LOOSE_PLAN := Plan(Catalyst, 1000, 2000, 5.0, 1000.0, 1000.0, 0.5, 1.0, 0, 5)

  const FIRST_ADD := Input(ConfluentFacts(100, 50), Some(Position(1, 10.0, 5.0)))
  const SECOND_ADD := Input(ConfluentFacts(200, 40), Some(Position(2, 10.0, 5.0)))

  lemma AddCanUseEarlierBar() returns (t: Run)
    ensures IsRun(t) && t.plan == LOOSE_PLAN && t.inputs == [FIRST_ADD, SECOND_ADD] && ClockMovesForward(t.inputs)
    ensures t.decisions[0].action == AllowAdd && t.decisions[1].action == AllowAdd
    ensures t.runtimes[1].lastBar == Some(50) && t.runtimes[2].lastBar == Some(40)
  {
    var d0, d1 := TwoAdds();
    t := TwoSteps(LOOSE_PLAN, FIRST_ADD, SECOND_ADD, d0, d1);
  }

  lemma TwoAdds() returns (d0: Decision, d1: Decision)
    ensures LOOSE_PLAN.Valid() && ValidInput(FIRST_ADD) && ValidInput(SECOND_ADD)
    ensures StepOf(LOOSE_PLAN, FIRST_ADD, Initial(LOOSE_PLAN), d0, d0.runtime)
    ensures StepOf(LOOSE_PLAN, SECOND_ADD, d0.runtime, d1, d1.runtime)
    ensures d0.action == AllowAdd && d0.runtime.lastBar == Some(50)
    ensures d1.action == AllowAdd && d1.runtime.lastBar == Some(40)
  {
    d0 := AddOnConfluence(100, 50, Position(1, 10.0, 5.0), Initial(LOOSE_PLAN));
    d1 := AddOnConfluence(200, 40, Position(2, 10.0, 5.0), d0.runtime);
  }

  lemma TwoSteps(plan: Plan, x0: Input, x1: Input, d0: Decision, d1: Decision) returns (t: Run)
    requires plan.Valid() && ValidInput(x0) && ValidInput(x1) && x0.facts.observed <= x1.facts.observed
    requires StepOf(plan, x0, Initial(plan), d0, d0.runtime) && StepOf(plan, x1, d0.runtime, d1, d1.runtime)
    ensures t == Run(plan, [x0, x1], [Initial(plan), d0.runtime, d1.runtime], [d0, d1])
    ensures IsRun(t) && ClockMovesForward(t.inputs)
  {
    t := Run(plan, [x0, x1], [Initial(plan), d0.runtime, d1.runtime], [d0, d1]);
    assert StepAt(t, 0) && StepAt(t, 1);
  }

  lemma AddOnConfluence(observed: int, bar: int, p: Position, r: Runtime) returns (d: Decision)
    requires bar <= observed < 1000 && 1 <= p.shares <= 2 && p.average == 10.0 && p.stop == 5.0
    requires r.stop == 5.0 && r.soft < 5 && Some(bar) != r.lastBar && !SameAsLastAdd(r, p)
    requires r.state == Watching || r.state == AddAllowed
    requires r.lastMaterial.Some? ==> r.lastMaterial.value <= observed
    ensures StepOf(LOOSE_PLAN, Input(ConfluentFacts(observed, bar), Some(p)), r, d, d.runtime)
    ensures d.action == AllowAdd
    ensures d.runtime == r.(state := AddAllowed, revision := r.revision + 1, lastMaterial := Some(observed),
                            soft := r.soft + 1, lastBar := Some(bar), lastAddShares := Some(p.shares))
  {
    var f := ConfluentFacts(observed, bar);
    ConfluencePasses(observed, bar);
    var s := Synchronized(r, Some(p));
    assert EffectiveStop(LOOSE_PLAN, s, p) == 5.0;
    d := Evaluate(LOOSE_PLAN, r, f, Some(p));
  }

  lemma ConfluencePasses(observed: int, bar: int)
    requires bar <= observed
    ensures QuoteBlockers(LOOSE_PLAN, ConfluentFacts(observed, bar)) == []
    ensures EntryBlockers(LOOSE_PLAN, ConfluentFacts(observed, bar)) == []
  {
    NoBlockers(LOOSE_PLAN, ConfluentFacts(observed, bar));
  }

}
