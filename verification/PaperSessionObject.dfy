/** The session ledger and orchestrator as objects (execution/autonomous_paper_session.py): rows and broker orders are
    changed in place, a call that raises ends the tick where it stands, and a tick's writes are those of its
    specification. */
module PaperSessionObject {
  import opened Texts
  import opened PaperSession
  import opened PaperSessionSafety
  import opened PaperSessionGuards
  import opened PaperSessionTiming
  import P = IntradayPolicy
  import E = PremarketEntry
  import A = Allocation

  class PaperSessionLedger {
    var dayLocked: bool
    var guardianLocked: bool
    var commands: map<Id, Row>
    var premarket: Option<Record>
    var profit: bool
    var tail: Option<P.TailRuntime>

    constructor ()
      ensures !dayLocked && !guardianLocked && commands == map[] && premarket.None? && !profit && tail.None?
    {
      dayLocked, guardianLocked, commands, premarket, profit, tail := false, false, map[], None, false, None;
    }

    /** The command row, created if it was missing, and whether it was completed; a row of another date, kind or
        symbol is a conflict and stays as it is. */
    method EnsureCommand(id: Id, identity: Identity) returns (r: Result<bool>)
      modifies this`commands
      ensures commands == if id in old(commands) then old(commands) else old(commands)[id := Row(identity, false)]
      ensures r == if commands[id].identity == identity then Ok(commands[id].completed)
                   else Err("Paper command identity conflict")
    {
      if id !in commands { commands := commands[id := Row(identity, false)]; }
      r := if commands[id].identity == identity then Ok(commands[id].completed)
           else Err("Paper command identity conflict");
    }

    method CompleteCommand(id: Id)
      requires id in commands
      modifies this`commands
      ensures commands == old(commands)[id := old(commands)[id].(completed := true)]
    {
      commands := commands[id := commands[id].(completed := true)];
    }

    /** The stored premarket row, created if it was missing; a row of another plan is a conflict. */
    method EnsurePremarket(plan: E.Plan) returns (r: Result<Record>)
      modifies this`premarket
      ensures premarket == if old(premarket).Some? then old(premarket) else Some(Record(plan, E.INITIAL, None))
      ensures r == if premarket.value.plan == plan then Ok(premarket.value) else Err("premarket entry plan identity conflict")
    {
      if premarket.None? { premarket := Some(Record(plan, E.INITIAL, None)); }
      r := if premarket.value.plan == plan then Ok(premarket.value) else Err("premarket entry plan identity conflict");
    }

    method SaveEntry(runtime: E.Runtime, active: Option<Id>)
      requires premarket.Some?
      modifies this`premarket
      ensures premarket == Some(old(premarket).value.(runtime := runtime, active := active))
    {
      premarket := Some(premarket.value.(runtime := runtime, active := active));
    }

    /** Advances the tail runtime; an observation from before the last one is refused and changes nothing. */
    method AdvanceTail(o: P.Observation) returns (r: Result<P.TailRuntime>)
      modifies this`tail
      ensures r.Ok? ==> P.Advanced(old(tail), o) == Some(r.value) && tail == Some(r.value)
      ensures r.Err? ==> P.Advanced(old(tail), o) == None && tail == old(tail)
    {
      if tail.Some? && o.at < tail.value.at { return Err("Paper tail observation cannot move backwards"); }
      var maximum, seconds := o.currentR, 0;
      if tail.Some? {
        if tail.value.maxR >= o.currentR { maximum := tail.value.maxR; }
        var gap := P.Gap(tail.value.at, o.at);
        if o.Below() && tail.value.below && 0 <= gap <= 30 { seconds := tail.value.seconds + gap; }
      }
      tail := Some(P.TailRuntime(maximum, seconds, o.at, o.Below()));
      r := Ok(tail.value);
    }
  }

  class PaperBroker {
    var orders: map<Id, Order>

    constructor ()
      ensures orders == map[]
    {
      orders := map[];
    }

    /** Submits under a client ID; an ID the broker knows keeps its order. With writes disabled it raises. */
    method SubmitIdempotent(id: Id, order: Order, writes: bool) returns (raised: bool)
      modifies this
      ensures raised == !writes
      ensures orders == if raised || id in old(orders) then old(orders) else old(orders)[id := order]
    {
      raised := !writes;
      if writes && id !in orders { orders := orders[id := order]; }
    }
  }

  /** Two lists of writes carried out one after the other: the second only when nothing in the first raises. */
  lemma Sequence(p: SessionPlan, w: World, a: seq<Effect>, b: seq<Effect>, writes: bool)
    ensures Stops(a + b, writes) <==> Stops(a, writes) || Stops(b, writes)
    ensures Stops(a, writes) ==> Performed(a + b, writes) == Performed(a, writes)
    ensures !Stops(a, writes) ==>
              Performed(a, writes) == a && Performed(a + b, writes) == a + Performed(b, writes)
              && After(w, Performed(a + b, writes)) == After(After(w, a), Performed(b, writes))
  {
    StopsEither(a, b, writes);
    PerformedIsPrefix(a, writes);
    if Stops(a, writes) { StoppedEarly(a, b, writes); } else { PerformedAppend(a, b, writes); Append(p, w, a, Performed(b, writes)); }
  }

  lemma {:induction false} StoppedEarly(a: seq<Effect>, b: seq<Effect>, writes: bool)
    requires Stops(a, writes)
    ensures Performed(a + b, writes) == Performed(a, writes)
    decreases |a|
  {
    assert (a + b)[0] == a[0] && (a + b)[1..] == a[1..] + b;
    if !Raises(a[0], writes) {
      var i :| 0 <= i < |a| && Raises(a[i], writes);
      assert a[1..][i - 1] == a[i];
      StoppedEarly(a[1..], b, writes);
    }
  }

  /** One write, two and three, carried out. */
  lemma Single(p: SessionPlan, w: World, e: Effect, writes: bool)
    ensures Stops([e], writes) <==> Raises(e, writes)
    ensures Performed([e], writes) == if Raises(e, writes) then [] else [e]
    ensures After(w, Performed([e], writes)) == if Raises(e, writes) then w else Apply(w, e)
    ensures !Stops([], writes) && Performed([], writes) == [] && After(w, []) == w
  {
    One(p, w, e);
    assert [e][0] == e && [e][1..] == [];
  }

  lemma OnceCarriedOut(p: SessionPlan, w: World, id: Id, order: Order, writes: bool)
    ensures var identity := IdentityOf(p, id);
            var es := Once(p, w, id, order);
            var v := Apply(w, EnsureCommand(id, identity));
            if Conflicts(w, id, identity) then Stops(es, writes) && After(w, Performed(es, writes)) == w
            else if Completed(w, id) then !Stops(es, writes) && After(w, Performed(es, writes)) == v
            else if !writes then Stops(es, writes) && After(w, Performed(es, writes)) == v
            else !Stops(es, writes)
                 && After(w, Performed(es, writes)) == Apply(Apply(v, Submit(id, order)), CompleteCommand(id))
  {
    var a, b, c := EnsureCommand(id, IdentityOf(p, id)), Submit(id, order), CompleteCommand(id);
    Single(p, w, Fault, writes);
    Single(p, w, a, writes);
    Single(p, Apply(w, a), b, writes);
    Single(p, Apply(Apply(w, a), b), c, writes);
    Sequence(p, w, [a], [b] + [c], writes);
    Sequence(p, Apply(w, a), [b], [c], writes);
    assert [a, b, c] == [a] + ([b] + [c]);
  }

  lemma CancelCarriedOut(p: SessionPlan, w: World, o: OpenOrder, writes: bool)
    ensures var id, identity := Cancel(o.id), Identity(p.date, CancelKind, o.symbol);
            var es := CancelOnce(p, w, o);
            var v := Apply(w, EnsureCommand(id, identity));
            if Conflicts(w, id, identity) then Stops(es, writes) && After(w, Performed(es, writes)) == w
            else if Completed(w, id) then !Stops(es, writes) && After(w, Performed(es, writes)) == v
            else if !writes then Stops(es, writes) && After(w, Performed(es, writes)) == v
            else !Stops(es, writes)
                 && After(w, Performed(es, writes)) == if o.accepts then Apply(v, CompleteCommand(id)) else v
  {
    var id, identity := Cancel(o.id), Identity(p.date, CancelKind, o.symbol);
    var a, b, c := EnsureCommand(id, identity), CancelOrder(o.id), CompleteCommand(id);
    Single(p, w, Fault, writes);
    Single(p, w, a, writes);
    Single(p, Apply(w, a), b, writes);
    Single(p, Apply(w, a), c, writes);
    var rest := [b] + if o.accepts then [c] else [];
    Sequence(p, w, [a], rest, writes);
    Sequence(p, Apply(w, a), [b], if o.accepts then [c] else [], writes);
    CancelOnceIs(p, w, o);
    assert [b] + [] == [b] && [a] + [b] == [a, b] && [a] + ([b] + [c]) == [a, b, c];
  }

  /** The first open order's cancellation, and what is left after it. */
  lemma NextCancel(p: SessionPlan, w: World, open: seq<OpenOrder>, own: bool, writes: bool)
    requires open != [] && !(own && open[0].symbol != p.symbol)
    ensures var es, all := CancelOnce(p, w, open[0]), CancelAll(p, w, open, own);
            var w' := After(w, Performed(es, writes));
            if Stops(es, writes) then Stops(all, writes) && After(w, Performed(all, writes)) == w'
            else var rest := CancelAll(p, w', open[1..], own);
                 (Stops(all, writes) <==> Stops(rest, writes))
                 && After(w, Performed(all, writes)) == After(w', Performed(rest, writes))
  {
    var es := CancelOnce(p, w, open[0]);
    Sequence(p, w, es, CancelAll(p, After(w, es), open[1..], own), writes);
  }

  class Orchestrator {
    const plan: SessionPlan
    const ledger: PaperSessionLedger
    const broker: PaperBroker

    function State(): World
      reads ledger, broker
    {
      World(ledger.dayLocked, ledger.guardianLocked, ledger.commands, ledger.premarket, ledger.profit, ledger.tail,
            broker.orders)
    }

    constructor (plan: SessionPlan)
      ensures State() == EMPTY && this.plan == plan
    {
      this.plan := plan;
      ledger := new PaperSessionLedger();
      broker := new PaperBroker();
    }

    /** The state after a list of intended writes, and whether one of them raised. */
    ghost predicate CarriedOut(w: World, es: seq<Effect>, writes: bool, raised: bool)
      reads ledger, broker
    {
      State() == After(w, Performed(es, writes)) && raised == Stops(es, writes)
    }

    /** The order, then the completion of its command. */
    method Send(id: Id, order: Order, x: Input) returns (raised: bool)
      requires id in ledger.commands
      modifies ledger`commands, broker
      ensures raised == !x.writesEnabled
      ensures State() == if raised then old(State())
                         else Apply(Apply(old(State()), Submit(id, order)), CompleteCommand(id))
    {
      raised := broker.SubmitIdempotent(id, order, x.writesEnabled);
      if !raised { ledger.CompleteCommand(id); }
    }

    /** One command: its row, then the broker unless it was completed, then its completion. */
    method SubmitOnce(id: Id, order: Order, x: Input) returns (raised: bool)
      modifies ledger`commands, broker
      ensures CarriedOut(old(State()), Once(plan, old(State()), id, order), x.writesEnabled, raised)
    {
      ghost var w := State();
      OnceCarriedOut(plan, w, id, order, x.writesEnabled);
      var ensured := ledger.EnsureCommand(id, IdentityOf(plan, id));
      if ensured.Err? { return true; }
      if ensured.value { return false; }
      raised := Send(id, order, x);
    }

    method CancelOrderOnce(o: OpenOrder, x: Input) returns (raised: bool)
      modifies ledger`commands, broker
      ensures CarriedOut(old(State()), CancelOnce(plan, old(State()), o), x.writesEnabled, raised)
    {
      CancelCarriedOut(plan, State(), o, x.writesEnabled);
      var ensured := ledger.EnsureCommand(Cancel(o.id), Identity(plan.date, CancelKind, o.symbol));
      if ensured.Err? { return true; }
      if ensured.value { return false; }
      if !x.writesEnabled { return true; }
      if o.accepts { ledger.CompleteCommand(Cancel(o.id)); }
      return false;
    }

    /** Cancels the broker's open orders, all of them or the plan's own. */
    method CancelOrders(x: Input, own: bool) returns (raised: bool)
      modifies ledger`commands, broker
      ensures CarriedOut(old(State()), CancelAll(plan, old(State()), x.open, own), x.writesEnabled, raised)
    {
      ghost var w := State();
      ghost var all := CancelAll(plan, w, x.open, own);
      for i := 0 to |x.open|
        invariant Stops(all, x.writesEnabled) <==> Stops(CancelAll(plan, State(), x.open[i..], own), x.writesEnabled)
        invariant After(w, Performed(all, x.writesEnabled))
                  == After(State(), Performed(CancelAll(plan, State(), x.open[i..], own), x.writesEnabled))
      {
        assert x.open[i..][0] == x.open[i] && x.open[i..][1..] == x.open[i + 1..];
        if own && x.open[i].symbol != plan.symbol { continue; }
        NextCancel(plan, State(), x.open[i..], own, x.writesEnabled);
        raised := CancelOrderOnce(x.open[i], x);
        if raised { return; }
      }
      assert x.open[|x.open|..] == [];
      return false;
    }

    /** Sells what is held; a quantity that cannot be read raises. */
    method SellHeld(id: Id, x: Input) returns (raised: bool)
      modifies ledger`commands, broker
      ensures CarriedOut(old(State()), SellAll(plan, old(State()), x, id), x.writesEnabled, raised)
    {
      Single(plan, State(), Fault, x.writesEnabled);
      match x.holding {
        case Flat => return false;
        case Unsound => return true;
        case Long(shares) => raised := SubmitOnce(id, SellOrder(x, shares), x);
      }
    }

    /** Cancels, sells, and locks the date last. */
    method FlattenAndLock(x: Input) returns (raised: bool)
      modifies ledger, broker
      ensures CarriedOut(old(State()), Flatten(plan, old(State()), x), x.writesEnabled, raised)
    {
      ghost var w := State();
      ghost var cancels := CancelAll(plan, w, x.open, false);
      ghost var sells := SellAll(plan, After(w, cancels), x, HardFlat);
      Sequence(plan, w, cancels, sells, x.writesEnabled);
      Sequence(plan, w, cancels + sells, [LockDay], x.writesEnabled);
      raised := CancelOrders(x, false);
      if raised { return; }
      raised := SellHeld(HardFlat, x);
      if raised { return; }
      PerformedIsPrefix(sells, x.writesEnabled);
      Append(plan, w, cancels, sells);
      Single(plan, After(w, cancels + sells), LockDay, x.writesEnabled);
      ledger.dayLocked := true;
    }

    method CloseHeld(x: Input, d: P.Decision) returns (raised: bool)
      modifies ledger`commands, broker
      ensures CarriedOut(old(State()), ClosePosition(plan, old(State()), x, d), x.writesEnabled, raised)
    {
      ghost var w := State();
      ghost var cancels := CancelAll(plan, w, x.open, true);
      Sequence(plan, w, cancels, SellAll(plan, After(w, cancels), x, Exit(d.reason)), x.writesEnabled);
      raised := CancelOrders(x, true);
      if !raised { raised := SellHeld(Exit(d.reason), x); }
    }

    method ReduceToTarget(x: Input, d: P.Decision) returns (raised: bool)
      requires plan.budget.Valid()
      modifies ledger`commands, broker
      ensures CarriedOut(old(State()), Reduce(plan, old(State()), x, d), x.writesEnabled, raised)
    {
      ghost var w := State();
      var id := Reduction(d.action, A.TargetQuantity(plan.budget, x.equity, d.target), d.reason);
      ghost var cancels := CancelAll(plan, w, x.open, true);
      Sequence(plan, w, cancels, Once(plan, After(w, cancels), id, SellOrder(x, Excess(plan, x, d))), x.writesEnabled);
      raised := CancelOrders(x, true);
      if !raised { raised := SubmitOnce(id, SellOrder(x, Excess(plan, x, d)), x); }
    }

    // ---- the premarket entry ----

    method OpenRecord(target: nat) returns (record: Record)
      modifies ledger`premarket
      ensures record == RecordFor(plan, old(State()), target) && ledger.premarket == Some(record)
      ensures State() == After(old(State()), Opening(old(State()), record))
    {
      One(plan, State(), OpenPremarket(PremarketPlan(target, plan.budget.reference)));
      if ledger.premarket.None? {
        var ensured := ledger.EnsurePremarket(PremarketPlan(target, plan.budget.reference));
        record := ensured.value;
      } else {
        record := ledger.premarket.value;
      }
    }

    method RunPremarketEntry(x: Input, target: nat) returns (reported: bool, raised: bool)
      modifies ledger`commands, ledger`premarket, broker
      ensures CarriedOut(old(State()), RunPremarket(plan, old(State()), x, target).0, x.writesEnabled, raised)
      ensures reported == RunPremarket(plan, old(State()), x, target).1
    {
      ghost var w := State();
      var record := OpenRecord(target);
      ghost var w1 := State();
      var decision := PremarketDecision(x, record);
      assert !Stops(Opening(w, record), x.writesEnabled);
      match decision {
        case Err(_) =>
          Sequence(plan, w, Opening(w, record), [Fault], x.writesEnabled);
          Single(plan, w1, Fault, x.writesEnabled);
          return true, true;
        case Ok(d) =>
          Sequence(plan, w, Opening(w, record), CarryOut(plan, w1, x, record, d), x.writesEnabled);
          raised := CarryOutDecision(x, record, d);
          reported := ActiveAfter(record, d).Some?;
      }
    }

    method CancelActiveOrder(x: Input, record: Record, d: E.Decision) returns (raised: bool)
      modifies ledger`commands, broker
      ensures CarriedOut(old(State()), CancelActive(plan, old(State()), x, record, d), x.writesEnabled, raised)
    {
      Single(plan, State(), Fault, x.writesEnabled);
      raised := false;
      if (d.action == E.CancelReplace || d.action == E.CancelRemainder || d.action == E.Abandon)
         && record.active.Some? && x.active.Some?
      {
        raised := CancelOrderOnce(x.active.value, x);
      }
    }

    method SubmitAttempt(x: Input, d: E.Decision) returns (raised: bool)
      modifies ledger`commands, broker
      ensures CarriedOut(old(State()), SubmitPremarket(plan, old(State()), x, d), x.writesEnabled, raised)
    {
      Single(plan, State(), Fault, x.writesEnabled);
      raised := false;
      if E.Submits(d.action) {
        raised := SubmitOnce(Premarket(d.runtime.attempt), Order(BuySide, d.remaining, d.limit, x.observed), x);
      }
    }

    method CarryOutDecision(x: Input, record: Record, d: E.Decision) returns (raised: bool)
      requires ledger.premarket == Some(record)
      modifies ledger`commands, ledger`premarket, broker
      ensures CarriedOut(old(State()), CarryOut(plan, old(State()), x, record, d), x.writesEnabled, raised)
    {
      ghost var w := State();
      ghost var cancel := CancelActive(plan, w, x, record, d);
      ghost var submit := SubmitPremarket(plan, After(w, cancel), x, d);
      ghost var save := SavePremarket(d.runtime, ActiveAfter(record, d));
      Sequence(plan, w, cancel, submit, x.writesEnabled);
      Sequence(plan, w, cancel + submit, [save], x.writesEnabled);
      raised := CancelActiveOrder(x, record, d);
      if raised { return; }
      raised := SubmitAttempt(x, d);
      if raised { return; }
      PerformedIsPrefix(submit, x.writesEnabled);
      Append(plan, w, cancel, submit);
      Single(plan, After(w, cancel + submit), save, x.writesEnabled);
      ledger.SaveEntry(d.runtime, ActiveAfter(record, d));
    }

    // ---- the regular entry ----

    method SubmitShare(x: Input, d: P.Decision, c: Component, quantity: int) returns (raised: bool)
      modifies ledger`commands, broker
      ensures CarriedOut(old(State()), SubmitComponent(plan, old(State()), x, d, c, quantity), x.writesEnabled, raised)
    {
      Single(plan, State(), Fault, x.writesEnabled);
      raised := false;
      if quantity > 0 {
        raised := SubmitOnce(Regular(d.action, FourDecimals(d.target), c), Order(BuySide, quantity, None, x.observed), x);
      }
    }

    /** Tail component first, then main; a command already completed is not sent again. */
    method SubmitRegular(x: Input, d: P.Decision) returns (raised: bool)
      requires plan.budget.Valid()
      modifies ledger`commands, broker
      ensures CarriedOut(old(State()), RunRegular(plan, old(State()), x, d), x.writesEnabled, raised)
    {
      ghost var w := State();
      var (tailShares, mainShares) :=
        A.Components(plan.budget, x.equity, PriorFraction(d.action), d.target, P.TailChoice(x.policy).1);
      ghost var first := SubmitComponent(plan, w, x, d, TailPart, tailShares);
      Sequence(plan, w, first, SubmitComponent(plan, After(w, first), x, d, MainPart, mainShares), x.writesEnabled);
      raised := SubmitShare(x, d, TailPart, tailShares);
      if !raised { raised := SubmitShare(x, d, MainPart, mainShares); }
    }

    method SubmitEntry(x: Input, d: P.Decision) returns (ends: bool, raised: bool)
      requires plan.budget.Valid()
      modifies ledger`commands, ledger`premarket, broker
      ensures CarriedOut(old(State()), RunEntry(plan, old(State()), x, d).0, x.writesEnabled, raised)
      ensures ends == RunEntry(plan, old(State()), x, d).1
    {
      Single(plan, State(), Fault, x.writesEnabled);
      if !x.accountActive || !(x.PremarketHours() || x.RegularHours()) { return false, false; }
      if x.holding.Unsound? { return true, true; }
      var desired := A.TargetQuantity(plan.budget, x.equity, d.target);
      if desired - x.Held() <= 0 { return false, false; }
      if x.PremarketHours() {
        ends, raised := RunPremarketEntry(x, desired);
      } else {
        raised := SubmitRegular(x, d);
        ends := true;
      }
    }

    // ---- the tick ----

    /** An unfinished premarket entry goes on; the extended stop's orders are its controller's. */
    method ContinueTick(x: Input) returns (raised: bool)
      requires plan.budget.Valid()
      modifies ledger`commands, ledger`premarket, broker
      ensures CarriedOut(old(State()), Continue(plan, old(State()), x), x.writesEnabled, raised)
    {
      ghost var w := State();
      ghost var es := if !RunningPremarket(w, x) then [] else if x.holding.Unsound? then [Fault]
                      else RunPremarket(plan, w, x, w.premarket.value.plan.target).0;
      Single(plan, w, Fault, x.writesEnabled);
      Sequence(plan, w, es, ExtendedStop(x), x.writesEnabled);
      raised := false;
      if RunningPremarket(State(), x) {
        if x.holding.Unsound? { return true; }
        var _, stopped := RunPremarketEntry(x, ledger.premarket.value.plan.target);
        if stopped { return true; }
      }
      Single(plan, State(), Fault, x.writesEnabled);
      Single(plan, State(), StopExit, x.writesEnabled);
      raised := !x.RegularHours() && x.holding.Unsound?;
    }

    method Buy(x: Input, d: P.Decision) returns (raised: bool)
      requires plan.budget.Valid()
      modifies ledger`commands, ledger`premarket, broker
      ensures var (es, ends) := RunEntry(plan, old(State()), x, d);
              CarriedOut(old(State()), if ends then es else es + Continue(plan, After(old(State()), es), x),
                         x.writesEnabled, raised)
    {
      ghost var w := State();
      ghost var es := RunEntry(plan, w, x, d).0;
      Sequence(plan, w, es, Continue(plan, After(w, es), x), x.writesEnabled);
      var ends;
      ends, raised := SubmitEntry(x, d);
      if !raised && !ends { raised := ContinueTick(x); }
    }

    /** An entry, a reduction, or neither. */
    method ProceedWith(x: Input, d: P.Decision) returns (raised: bool)
      requires plan.budget.Valid()
      modifies ledger`commands, ledger`premarket, broker
      ensures CarriedOut(old(State()), Proceed(plan, old(State()), x, d), x.writesEnabled, raised)
    {
      Single(plan, State(), Fault, x.writesEnabled);
      if Buys(d.action) {
        if !x.Fresh() || !x.Authorised() { return false; }
        raised := Buy(x, d);
      } else if Sheds(d.action) {
        if !x.Authorised() { return false; }
        if x.holding.Unsound? { return true; }
        if Excess(plan, x, d) > 0 { raised := ReduceToTarget(x, d); } else { raised := ContinueTick(x); }
      } else {
        raised := ContinueTick(x);
      }
    }

    method ActOn(x: Input, d: P.Decision) returns (raised: bool)
      requires plan.budget.Valid()
      modifies ledger`commands, ledger`premarket, broker
      ensures CarriedOut(old(State()), Act(plan, old(State()), x, d), x.writesEnabled, raised)
    {
      Single(plan, State(), Fault, x.writesEnabled);
      if x.dailyReturn <= -0.015 && Buys(d.action) { return false; }
      if d.action == P.Exit {
        if !x.Authorised() { return false; }
        raised := CloseHeld(x, d);
        return;
      }
      match ProtectionFor(State(), x) {
        case Unauthorised => return false;
        case Broken => return true;
        case Place(quantity) =>
          raised := SubmitOnce(Protection(quantity),
                               Order(SellSide, quantity, Some(plan.budget.hardStop), x.observed), x);
        case NotNeeded => raised := ProceedWith(x, d);
      }
    }

    /** Completes the policy's snapshot with the profit mark and the tail's evidence; none when that raises. */
    method CompleteSnapshot(x: Input) returns (s: Option<P.Snapshot>)
      requires plan.budget.Valid()
      modifies ledger`profit, ledger`tail
      ensures State() == After(old(State()), Lifecycle(plan, old(State()), x).0)
      ensures s == Lifecycle(plan, old(State()), x).1
    {
      ghost var w := State();
      Single(plan, w, MarkProfit, x.writesEnabled);
      if MarkRaises(State(), x) { return None; }
      var marks := MarksProfit(plan, State(), x);
      if marks { ledger.profit := true; }
      if !x.policy.Held() || !(x.policy.profit || ledger.profit) { return Some(x.policy); }
      s := AddEvidence(x.policy.(profit := true), x);
      TailSaved(plan, w, x, marks, State().tail);
    }

    /** The tail's evidence, its runtime advanced in the ledger. */
    method AddEvidence(seen: P.Snapshot, x: Input) returns (s: Option<P.Snapshot>)
      requires seen.profit
      modifies ledger`tail
      ensures var e := P.SessionEvidence(seen, plan.budget.hardStop, old(ledger.tail), x.observed, x.signs);
              if e.None? then s.None? && ledger.tail == old(ledger.tail)
              else s == Some(e.value.0) && ledger.tail == e.value.1
    {
      var (mode, initial) := P.TailChoice(seen);
      if seen.average.None? || seen.last.None? || seen.position > initial { return Some(seen); }
      if seen.average.value <= plan.budget.hardStop { return None; }
      var currentR := (seen.last.value - seen.average.value) / (seen.average.value - plan.budget.hardStop);
      var advanced := ledger.AdvanceTail(P.Observation(x.observed, currentR, seen.flow));
      if advanced.Err? { return None; }
      var r := advanced.value;
      s := Some(seen.(tail := Some(P.Tail(mode, initial, if seen.position <= initial / 2.0 then 1 else 0, seen.structure,
                                          x.signs.belowVwapBars, r.seconds, x.signs.failedReclaim, currentR, r.maxR,
                                          x.signs.chandelier, x.signs.breakdown))));
    }

    /** One tick, up to the first call that raises. */
    method RunTick(x: Input) returns (raised: bool)
      requires plan.budget.Valid() && Inv(plan, State()) && x.Valid()
      modifies ledger, broker
      ensures State() == After(old(State()), Tick(plan, old(State()), x)) && Inv(plan, State())
      ensures raised == Stops(Intended(plan, old(State()), x), x.writesEnabled)
    {
      ghost var w := State();
      StepKeeps(plan, w, Step(x, |Tick(plan, w, x)|));
      Single(plan, w, LockGuardian, x.writesEnabled);
      if ledger.guardianLocked || x.guardian == Blocked { return false; }
      if x.guardian == Trips {
        ledger.guardianLocked := true;
        return false;
      }
      if x.dailyReturn <= -0.02 {
        if !x.Authorised() { return false; }
        raised := FlattenAndLock(x);
        return;
      }
      if ledger.dayLocked { return false; }
      raised := Decide(x);
    }

    method Decide(x: Input) returns (raised: bool)
      requires plan.budget.Valid() && Inv(plan, State()) && x.Valid()
      modifies ledger, broker
      ensures CarriedOut(old(State()), Decided(plan, old(State()), x), x.writesEnabled, raised)
    {
      ghost var w := State();
      ghost var (es, seen) := Lifecycle(plan, w, x);
      LifecycleOk(plan, w, x);
      ghost var rest := match seen case None => [Fault]
                                   case Some(s) => Act(plan, After(w, es), x, DecisionFor(plan, x, s));
      Sequence(plan, w, es, rest, x.writesEnabled);
      Single(plan, After(w, es), Fault, x.writesEnabled);
      var completed := CompleteSnapshot(x);
      if completed.None? { return true; }
      raised := ActOn(x, DecisionFor(plan, x, completed.value));
    }
  }

  /** What the evidence's writes leave. */
  lemma TailSaved(p: SessionPlan, w: World, x: Input, marks: bool, tail: Option<P.TailRuntime>)
    requires p.budget.Valid() && !MarkRaises(w, x) && marks == MarksProfit(p, w, x)
    requires x.policy.Held() && (x.policy.profit || w.profit || marks)
    requires var e := P.SessionEvidence(x.policy.(profit := true), p.budget.hardStop, w.tail, x.observed, x.signs);
             tail == if e.None? then w.tail else e.value.1
    ensures After(w, Lifecycle(p, w, x).0) == w.(profit := w.profit || marks, tail := tail)
  {
    var mark := if marks then [MarkProfit] else [];
    var w1 := w.(profit := w.profit || marks);
    One(p, w, MarkProfit);
    assert After(w, mark) == w1;
    if tail.Some? && tail != w.tail {
      One(p, w1, SaveTail(tail.value));
      Append(p, w, mark, [SaveTail(tail.value)]);
    } else {
      assert mark + [] == mark;
    }
    EvidenceKeepsRuntime(x.policy.(profit := true), p.budget.hardStop, w.tail, x.observed, x.signs);
  }

  /** A tail runtime once stored is never removed. */
  lemma EvidenceKeepsRuntime(s: P.Snapshot, hardStop: real, prior: Option<P.TailRuntime>, at: int, signs: P.Signs)
    ensures var e := P.SessionEvidence(s, hardStop, prior, at, signs);
            e.Some? && e.value.1.None? ==> prior.None?
  {
  }
}
