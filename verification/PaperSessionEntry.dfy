/** How the paper session carries a running premarket entry on (execution/autonomous_paper_session.py): when its order
    is cancelled, and how the entry stands afterwards. */
module PaperSessionEntry {
  import opened PaperSession
  import opened PaperSessionSafety
  import opened PaperSessionGuards
  import opened PaperSessionOrders
  import opened PaperSessionDue
  import opened Texts
  import T = PaperSessionTiming
  import L = PaperSessionLate
  import P = IntradayPolicy
  import E = PremarketEntry
  import A = Allocation

  /** A tick that neither enters, sheds nor closes: a running premarket entry is carried on, with a position that can be
      read, a broker that takes writes, and no row of another symbol under its cancellation. */
  predicate CarriesEntry(p: SessionPlan, w: World, x: Input)
    requires p.budget.Valid()
  {
    Inv(p, w) && x.Valid() && Decides(p, w, x) && Idle(Decision(p, w, x).action) && x.writesEnabled
    && EarlyHours(x) && w.premarket.Some? && w.premarket.value.runtime.completed.None? && !x.holding.Unsound?
    && (x.active.Some? ==>
          !Conflicts(w, Cancel(x.active.value.id), Identity(p.date, CancelKind, x.active.value.symbol)))
  }

  predicate Idle(a: P.Action) {
    a != P.EnterProbe && a != P.Upgrade && a != P.TrimToTail && a != P.ReduceTail && a != P.Exit
  }

  // ---- conditions over the ledger and the input ----

  predicate Full(w: World, x: Input)
    requires w.premarket.Some?
  {
    SharesHeld(x) >= w.premarket.value.plan.target
  }

  predicate Over(w: World, x: Input)
    requires w.premarket.Some?
  {
    var started := w.premarket.value.runtime.started;
    started.Some? && x.observed - started.value >= 10 * P.SECOND
  }

  /** The order works, one of two reprices is left, and three seconds have passed. */
  predicate Reprice(w: World, x: Input)
    requires w.premarket.Some?
  {
    var r := w.premarket.value;
    r.runtime.lastCommand.Some? && x.observed - r.runtime.lastCommand.value >= 3 * P.SECOND && r.runtime.attempt < 2
    && r.active.Some? && x.active.Some? && x.active.value.working
  }

  // ---- the writes ----

  /** What the engine decides, in the ledger's and the input's terms. */
  lemma StepIs(p: SessionPlan, w: World, x: Input, d: E.Decision)
    requires p.budget.Valid() && Inv(p, w) && w.premarket.Some? && w.premarket.value.runtime.completed.None?
    requires PremarketDecision(x, w.premarket.value) == Ok(d)
    ensures (d.runtime.completed.Some? <==> Full(w, x) || !x.policy.data || Over(w, x))
            && (d.action == E.CancelRemainder || d.action == E.Abandon
                <==> !Full(w, x) && (!x.policy.data || Over(w, x)))
            && (d.action == E.Complete <==> Full(w, x))
            && (d.action == E.CancelReplace
                <==> !Full(w, x) && x.policy.data && !Over(w, x) && Reprice(w, x))
            && (d.action == E.SubmitLimit
                <==> !Full(w, x) && x.policy.data && w.premarket.value.runtime.started.None?)
  {
    PremarketDecisionOk(p, x, w.premarket.value);
  }

  lemma CancelWrites(p: SessionPlan, w: World, x: Input, d: E.Decision, k: nat)
    requires Inv(p, w) && w.premarket.Some?
    requires x.active.Some? ==>
               !Conflicts(w, Cancel(x.active.value.id), Identity(p.date, CancelKind, x.active.value.symbol))
    ensures var es := CancelActive(p, w, x, w.premarket.value, d);
            NoOrder(es) && !Stops(es, true)
            && (CancelOrder(k) in es
                <==> (d.action == E.CancelReplace || d.action == E.CancelRemainder || d.action == E.Abandon)
                     && w.premarket.value.active.Some? && x.active.Some? && x.active.value.id == k
                     && !Completed(w, Cancel(k)))
  {
    var es := CancelActive(p, w, x, w.premarket.value, d);
    if es != [] {
      CancelOnceIs(p, w, x.active.value);
      CancelledOnce(p, w, x.active.value, k);
    }
  }

  function Rest(p: SessionPlan, w: World, x: Input, d: E.Decision): seq<Effect>
    requires w.premarket.Some?
  {
    SubmitPremarket(p, w, x, d) + [SavePremarket(d.runtime, ActiveAfter(w.premarket.value, d))] + ExtendedStop(x)
  }

  lemma SubmitWrites(p: SessionPlan, w: World, x: Input, d: E.Decision)
    requires p.budget.Valid() && Inv(p, w) && !Locked(w) && w.premarket.Some?
    requires PremarketDecision(x, w.premarket.value) == Ok(d)
    ensures var es := SubmitPremarket(p, w, x, d);
            NoCancel(es) && !Stops(es, true) && After(w, es).premarket == w.premarket
  {
    PremarketDecisionOk(p, x, w.premarket.value);
    SubmitPremarketOk(p, w, x, d);
    if E.Submits(d.action) {
      OnceOk(p, w, Premarket(d.runtime.attempt), Order(BuySide, d.remaining, d.limit, x.observed));
    }
  }

  lemma StopWrites(p: SessionPlan, w: World, x: Input)
    requires !x.holding.Unsound?
    ensures NoCancel(ExtendedStop(x)) && !Stops(ExtendedStop(x), true) && After(w, ExtendedStop(x)) == w
  {
    One(p, w, StopExit);
  }

  /** The writes behind the cancellation cancel nothing, raise nothing and save the row. */
  lemma RestWrites(p: SessionPlan, w: World, x: Input, d: E.Decision)
    requires p.budget.Valid() && Inv(p, w) && !Locked(w) && w.premarket.Some? && !x.holding.Unsound?
    requires PremarketDecision(x, w.premarket.value) == Ok(d)
    ensures var es, active := Rest(p, w, x, d), ActiveAfter(w.premarket.value, d);
            NoCancel(es) && !Stops(es, true)
            && After(w, es).premarket == Some(Record(w.premarket.value.plan, d.runtime, active))
  {
    var submit, save := SubmitPremarket(p, w, x, d), [SavePremarket(d.runtime, ActiveAfter(w.premarket.value, d))];
    SubmitWrites(p, w, x, d);
    StopWrites(p, After(w, submit + save), x);
    T.StopsEither(submit, save, true);
    T.StopsEither(submit + save, ExtendedStop(x), true);
    Append(p, w, submit + save, ExtendedStop(x));
    Append(p, w, submit, save);
    One(p, After(w, submit), save[0]);
  }

  lemma IdleContinues(p: SessionPlan, w: World, x: Input, d: P.Decision)
    requires p.budget.Valid() && Idle(d.action) && EarlyHours(x)
    ensures Act(p, w, x, d) == Continue(p, w, x)
  {
    assert ProtectionFor(w, x).NotNeeded?;
    assert Act(p, w, x, d) == Proceed(p, w, x, d);
  }

  lemma ContinueIs(p: SessionPlan, w: World, x: Input, d: E.Decision)
    requires w.premarket.Some? && RunningPremarket(w, x) && !x.holding.Unsound?
    requires PremarketDecision(x, w.premarket.value) == Ok(d)
    ensures Continue(p, w, x) == CarryOut(p, w, x, w.premarket.value, d) + ExtendedStop(x)
  {
    var r := w.premarket.value;
    var run := RunPremarket(p, w, x, r.plan.target).0;
    assert RecordFor(p, w, r.plan.target) == r && Opening(w, r) == [] && After(w, []) == w;
    assert run == [] + CarryOut(p, w, x, r, d);
    assert Continue(p, w, x) == run + ExtendedStop(x);
  }

  lemma CarriedAct(p: SessionPlan, w: World, x: Input, d: P.Decision, e: E.Decision)
    requires p.budget.Valid() && Idle(d.action) && EarlyHours(x) && !x.holding.Unsound? && Inv(p, w)
    requires w.premarket.Some? && w.premarket.value.runtime.completed.None?
    requires PremarketDecision(x, w.premarket.value) == Ok(e)
    ensures var cancel := CancelActive(p, w, x, w.premarket.value, e);
            After(w, cancel).premarket == w.premarket
            && Act(p, w, x, d) == cancel + Rest(p, After(w, cancel), x, e)
  {
    var cancel := CancelActive(p, w, x, w.premarket.value, e);
    CancelActiveOk(p, w, x, w.premarket.value, e);
    IdleContinues(p, w, x, d);
    ContinueIs(p, w, x, e);
    CarriedWritesAre(p, w, x, w.premarket.value, e);
  }

  lemma CarriedWritesAre(p: SessionPlan, w: World, x: Input, r: Record, d: E.Decision)
    requires w.premarket == Some(r) && After(w, CancelActive(p, w, x, r, d)).premarket == Some(r)
    ensures var cancel := CancelActive(p, w, x, r, d);
            CarryOut(p, w, x, r, d) + ExtendedStop(x) == cancel + Rest(p, After(w, cancel), x, d)
  {
  }

  lemma CarriedTick(p: SessionPlan, w: World, x: Input, d: E.Decision)
    requires p.budget.Valid() && CarriesEntry(p, w, x) && PremarketDecision(x, w.premarket.value) == Ok(d)
    ensures var v := Marked(p, w, x);
            var cancel := CancelActive(p, v, x, w.premarket.value, d);
            After(v, cancel).premarket == w.premarket
            && Tick(p, w, x) == Lifecycle(p, w, x).0 + (cancel + Rest(p, After(v, cancel), x, d))
            && NoCancel(Rest(p, After(v, cancel), x, d))
            && L.Ticked(p, w, x).premarket
               == Some(Record(w.premarket.value.plan, d.runtime, ActiveAfter(w.premarket.value, d)))
  {
    var v, r, marks := Marked(p, w, x), w.premarket.value, Lifecycle(p, w, x).0;
    MarkedOk(p, w, x);
    TickIsDecided(p, w, x);
    CarriedAct(p, v, x, Decision(p, w, x), d);
    var cancel := CancelActive(p, v, x, r, d);
    CancelActiveOk(p, v, x, r, d);
    CancelWrites(p, v, x, d, 0);
    var rest := Rest(p, After(v, cancel), x, d);
    RestWrites(p, After(v, cancel), x, d);
    CarriedWrites(p, w, x, marks, cancel, rest);
  }

  lemma CarriedWrites(p: SessionPlan, w: World, x: Input, marks: seq<Effect>, cancel: seq<Effect>, rest: seq<Effect>)
    requires !Stops(marks, true) && !Stops(cancel, true) && !Stops(rest, true)
    ensures Performed(marks + (cancel + rest), true) == marks + (cancel + rest)
    ensures After(w, marks + (cancel + rest)) == After(After(After(w, marks), cancel), rest)
  {
    T.StopsEither(cancel, rest, true);
    PerformedIsPrefix(cancel + rest, true);
    PerformedAppend(marks, cancel + rest, true);
    Append(p, After(w, marks), cancel, rest);
    Append(p, w, marks, cancel + rest);
  }

  // ---- the two laws ----

  /** A carried entry cancels its order exactly when it is not full and the data is unhealthy, its ten seconds are over,
      or it is to be repriced; and that before anything is submitted. */
  lemma EntryCancelsIff(p: SessionPlan, w: World, x: Input, k: nat)
    requires p.budget.Valid() && CarriesEntry(p, w, x)
    ensures CancelOrder(k) in Tick(p, w, x)
            <==> w.premarket.value.active.Some? && x.active.Some? && x.active.value.id == k
                 && !Completed(w, Cancel(k)) && !Full(w, x)
                 && (!x.policy.data || Over(w, x) || Reprice(w, x))
    ensures CancelsFirst(Tick(p, w, x))
  {
    PremarketDecisionOk(p, x, w.premarket.value);
    var d, v := PremarketDecision(x, w.premarket.value).value, Marked(p, w, x);
    StepIs(p, w, x, d);
    CarriedTick(p, w, x, d);
    MarkedOk(p, w, x);
    CancelWrites(p, v, x, d, k);
  }

  /** A carried entry is over exactly when it is full, the data is unhealthy, or its ten seconds are over; then no order
      is its active one, and otherwise the new order is, or the one before. */
  lemma EntryEndsIff(p: SessionPlan, w: World, x: Input)
    requires p.budget.Valid() && CarriesEntry(p, w, x)
    ensures var v, r := L.Ticked(p, w, x), w.premarket.value;
            v.premarket.Some? && v.premarket.value.plan == r.plan
            && (v.premarket.value.runtime.completed.Some? <==> Full(w, x) || !x.policy.data || Over(w, x))
            && v.premarket.value.active
               == if Full(w, x) || !x.policy.data || Over(w, x) then None
                  else if r.runtime.started.None? then Some(Premarket(0))
                  else if Reprice(w, x) then Some(Premarket(r.runtime.attempt + 1))
                  else r.active
  {
    PremarketDecisionOk(p, x, w.premarket.value);
    var d := PremarketDecision(x, w.premarket.value).value;
    StepIs(p, w, x, d);
    CarriedTick(p, w, x, d);
  }
}
