/** What every run of ticks, cut anywhere by crashes, keeps in the paper session. */
module PaperSessionSafety {
  import opened PaperSession
  import P = IntradayPolicy
  import E = PremarketEntry
  import A = Allocation
  import opened Texts

  predicate Locked(w: World) { w.dayLocked || w.guardianLocked }

  predicate IsBuy(id: Id) { id.Regular? || id.Premarket? }

  /** A buy's ID is one of the plan's: a probe of a quarter, an upgrade to a half, or one of three premarket attempts. */
  predicate Known(id: Id) {
    match id
    case Regular(action, fraction, _) =>
      (action == P.EnterProbe && fraction == 2500) || (action == P.Upgrade && fraction == 5000)
    case Premarket(attempt) => attempt <= 2
    case _ => true
  }

  function Cap(p: SessionPlan): real { PremarketPlan(0, p.budget.reference).Cap() }

  predicate OrderOk(p: SessionPlan, id: Id, o: Order) {
    Known(id) && !id.Cancel? && (o.side == BuySide <==> IsBuy(id))
    && (id.Premarket? ==> o.price.Some? && o.price.value <= Cap(p))
  }

  predicate CommandOk(p: SessionPlan, w: World, id: Id)
    requires id in w.commands
  {
    Known(id)
    && (!id.Cancel? ==> w.commands[id].identity == IdentityOf(p, id) && (w.commands[id].completed ==> id in w.orders))
  }

  predicate RecordOk(p: SessionPlan, r: Record) {
    r.plan.target > 0 && r.plan == PremarketPlan(r.plan.target, p.budget.reference) && E.Sound(r.plan, r.runtime)
  }

  /** Every order has a command row written before it, every completed order command has its order, IDs are the plan's,
      rows have their own identity, and premarket limits respect the chase cap. */
  predicate Inv(p: SessionPlan, w: World) {
    (forall id :: id in w.orders ==> id in w.commands && OrderOk(p, id, w.orders[id]))
    && (forall id :: id in w.commands ==> CommandOk(p, w, id))
    && (w.premarket.Some? ==> RecordOk(p, w.premarket.value))
  }

  // ---- effects ----

  /** The effect is one the session may make in this state: a buy only while unlocked, an order only behind its row. */
  predicate Allowed(p: SessionPlan, w: World, e: Effect) {
    match e
    case Submit(id, order) => (IsBuy(id) ==> !Locked(w)) && id in w.commands && OrderOk(p, id, order)
    case EnsureCommand(id, identity) => Known(id) && (!id.Cancel? ==> identity == IdentityOf(p, id))
    case CompleteCommand(id) => id in w.commands && (id.Cancel? || id in w.orders)
    case OpenPremarket(plan) => plan.target > 0 && plan == PremarketPlan(plan.target, p.budget.reference)
    case SavePremarket(runtime, _) => w.premarket.Some? && E.Sound(w.premarket.value.plan, runtime)
    case _ => true
  }

  predicate AllOk(p: SessionPlan, w: World, es: seq<Effect>)
    decreases |es|
  {
    es == [] || (Allowed(p, w, es[0]) && AllOk(p, Apply(w, es[0]), es[1..]))
  }

  /** Locks and marks are never undone, orders and command rows never disappear. */
  predicate Grows(w: World, v: World) {
    (w.dayLocked ==> v.dayLocked) && (w.guardianLocked ==> v.guardianLocked) && (w.profit ==> v.profit)
    && (forall id :: id in w.orders ==> id in v.orders && v.orders[id] == w.orders[id])
    && (forall id :: id in w.commands ==> id in v.commands)
  }

  lemma SubmitKeeps(p: SessionPlan, w: World, id: Id, order: Order)
    requires Inv(p, w) && Allowed(p, w, Submit(id, order))
    ensures Inv(p, Apply(w, Submit(id, order))) && Grows(w, Apply(w, Submit(id, order)))
  {
    var v := Apply(w, Submit(id, order));
    forall c | c in v.commands ensures CommandOk(p, v, c) { assert CommandOk(p, w, c); }
  }

  lemma RowKeeps(p: SessionPlan, w: World, e: Effect)
    requires Inv(p, w) && Allowed(p, w, e) && (e.EnsureCommand? || e.CompleteCommand?)
    ensures Inv(p, Apply(w, e)) && Grows(w, Apply(w, e))
  {
    var v := Apply(w, e);
    forall c | c in v.commands ensures CommandOk(p, v, c) {
      if c in w.commands { assert CommandOk(p, w, c); }
    }
  }

  lemma OkKeeps(p: SessionPlan, w: World, e: Effect)
    requires Inv(p, w) && Allowed(p, w, e)
    ensures Inv(p, Apply(w, e)) && Grows(w, Apply(w, e))
  {
    if e.Submit? {
      SubmitKeeps(p, w, e.id, e.order);
    } else if e.EnsureCommand? || e.CompleteCommand? {
      RowKeeps(p, w, e);
    } else {
      RestKeeps(p, w, e);
    }
  }

  lemma RestKeeps(p: SessionPlan, w: World, e: Effect)
    requires Inv(p, w) && Allowed(p, w, e) && !e.Submit? && !e.EnsureCommand? && !e.CompleteCommand?
    ensures Inv(p, Apply(w, e)) && Grows(w, Apply(w, e))
  {
    var v := Apply(w, e);
    forall c | c in v.commands ensures CommandOk(p, v, c) { assert CommandOk(p, w, c); }
  }

  lemma {:induction false} AllOkKeeps(p: SessionPlan, w: World, es: seq<Effect>)
    requires Inv(p, w) && AllOk(p, w, es)
    ensures Inv(p, After(w, es)) && Grows(w, After(w, es))
    decreases |es|
  {
    if es != [] {
      OkKeeps(p, w, es[0]);
      AllOkKeeps(p, Apply(w, es[0]), es[1..]);
    }
  }

  lemma {:induction false} Append(p: SessionPlan, w: World, a: seq<Effect>, b: seq<Effect>)
    ensures After(w, a + b) == After(After(w, a), b)
    ensures AllOk(p, w, a) && AllOk(p, After(w, a), b) ==> AllOk(p, w, a + b)
    decreases |a|
  {
    if a == [] {
      assert a + b == b;
    } else {
      assert (a + b)[1..] == a[1..] + b;
      Append(p, Apply(w, a[0]), a[1..], b);
    }
  }

  lemma {:induction false} PrefixOk(p: SessionPlan, w: World, es: seq<Effect>, n: nat)
    requires AllOk(p, w, es) && n <= |es|
    ensures AllOk(p, w, es[..n])
    decreases |es|
  {
    if 0 < n {
      PrefixOk(p, Apply(w, es[0]), es[1..], n - 1);
      assert es[..n][1..] == es[1..][..n - 1];
    }
  }

  lemma {:induction false} PerformedIsPrefix(es: seq<Effect>, writes: bool)
    ensures Performed(es, writes) <= es
    ensures !Stops(es, writes) <==> Performed(es, writes) == es
    ensures forall i :: 0 <= i < |Performed(es, writes)| ==> !Raises(es[i], writes)
    ensures |Performed(es, writes)| < |es| ==> Raises(es[|Performed(es, writes)|], writes)
    decreases |es|
  {
    if es != [] && !Raises(es[0], writes) {
      PerformedIsPrefix(es[1..], writes);
      var done := Performed(es[1..], writes);
      assert forall i :: 1 <= i < |es| ==> es[i] == es[1..][i - 1];
      assert es == [es[0]] + es[1..];
    }
  }

  lemma One(p: SessionPlan, w: World, e: Effect)
    ensures After(w, [e]) == Apply(w, e) && (AllOk(p, w, [e]) <==> Allowed(p, w, e))
    ensures After(w, []) == w && AllOk(p, w, [])
  {
    assert [e][1..] == [];
  }

  lemma Three(p: SessionPlan, w: World, a: Effect, b: Effect, c: Effect)
    ensures After(w, [a, b]) == Apply(Apply(w, a), b)
    ensures After(w, [a, b, c]) == Apply(Apply(Apply(w, a), b), c)
    ensures AllOk(p, w, [a, b]) <==> Allowed(p, w, a) && Allowed(p, Apply(w, a), b)
    ensures AllOk(p, w, [a, b, c]) <==> Allowed(p, w, a) && Allowed(p, Apply(w, a), b) && Allowed(p, Apply(Apply(w, a), b), c)
  {
    assert [a, b, c][1..] == [b, c] && [b, c][1..] == [c] && [a, b][1..] == [b];
    One(p, Apply(w, a), b);
    One(p, Apply(Apply(w, a), b), c);
  }

  // ---- commands ----

  /** Nothing but commands and orders changed. */
  predicate SameRest(w: World, v: World) { v == w.(commands := v.commands, orders := v.orders) }

  lemma OnceOk(p: SessionPlan, w: World, id: Id, order: Order)
    requires Inv(p, w) && OrderOk(p, id, order) && (IsBuy(id) ==> !Locked(w))
    ensures AllOk(p, w, Once(p, w, id, order)) && SameRest(w, After(w, Once(p, w, id, order)))
    ensures !Conflicts(w, id, IdentityOf(p, id))
  {
    var ensured := EnsureCommand(id, IdentityOf(p, id));
    assert id in w.commands ==> CommandOk(p, w, id);
    One(p, w, ensured);
    Three(p, w, ensured, Submit(id, order), CompleteCommand(id));
  }

  /** The three writes of a cancellation, as lists of two and three. */
  lemma CancelOnceIs(p: SessionPlan, w: World, o: OpenOrder)
    ensures var id, identity := Cancel(o.id), Identity(p.date, CancelKind, o.symbol);
            CancelOnce(p, w, o)
            == if Conflicts(w, id, identity) then [Fault]
               else if Completed(w, id) then [EnsureCommand(id, identity)]
               else if o.accepts then [EnsureCommand(id, identity), CancelOrder(o.id), CompleteCommand(id)]
               else [EnsureCommand(id, identity), CancelOrder(o.id)]
  {
    var id, identity := Cancel(o.id), Identity(p.date, CancelKind, o.symbol);
    assert [EnsureCommand(id, identity), CancelOrder(o.id)] + [] == [EnsureCommand(id, identity), CancelOrder(o.id)];
  }

  lemma CancelOnceOk(p: SessionPlan, w: World, o: OpenOrder)
    requires Inv(p, w)
    ensures AllOk(p, w, CancelOnce(p, w, o)) && SameRest(w, After(w, CancelOnce(p, w, o)))
    ensures After(w, CancelOnce(p, w, o)).orders == w.orders
  {
    var id := Cancel(o.id);
    var ensured := EnsureCommand(id, Identity(p.date, CancelKind, o.symbol));
    CancelOnceIs(p, w, o);
    One(p, w, Fault);
    One(p, w, ensured);
    Three(p, w, ensured, CancelOrder(o.id), CompleteCommand(id));
  }

  lemma {:induction false} CancelAllOk(p: SessionPlan, w: World, orders: seq<OpenOrder>, own: bool)
    requires Inv(p, w)
    ensures var es := CancelAll(p, w, orders, own);
            AllOk(p, w, es) && SameRest(w, After(w, es)) && After(w, es).orders == w.orders && Inv(p, After(w, es))
    decreases |orders|
  {
    if orders != [] {
      if own && orders[0].symbol != p.symbol {
        CancelAllOk(p, w, orders[1..], own);
      } else {
        var es := CancelOnce(p, w, orders[0]);
        CancelOnceOk(p, w, orders[0]);
        AllOkKeeps(p, w, es);
        CancelAllOk(p, After(w, es), orders[1..], own);
        Append(p, w, es, CancelAll(p, After(w, es), orders[1..], own));
        AllOkKeeps(p, w, es + CancelAll(p, After(w, es), orders[1..], own));
      }
    }
  }

  // ---- selling ----

  lemma SellAllOk(p: SessionPlan, w: World, x: Input, id: Id)
    requires Inv(p, w) && !IsBuy(id) && !id.Cancel?
    ensures AllOk(p, w, SellAll(p, w, x, id)) && SameRest(w, After(w, SellAll(p, w, x, id)))
  {
    One(p, w, Fault);
    if x.holding.Long? { OnceOk(p, w, id, SellOrder(x, x.holding.shares)); }
  }

  lemma FlattenOk(p: SessionPlan, w: World, x: Input)
    requires Inv(p, w)
    ensures AllOk(p, w, Flatten(p, w, x))
  {
    var cancels := CancelAll(p, w, x.open, false);
    CancelAllOk(p, w, x.open, false);
    var w1 := After(w, cancels);
    var sells := SellAll(p, w1, x, HardFlat);
    SellAllOk(p, w1, x, HardFlat);
    Append(p, w, cancels, sells);
    One(p, After(w, cancels + sells), LockDay);
    Append(p, w, cancels + sells, [LockDay]);
  }

  lemma ClosePositionOk(p: SessionPlan, w: World, x: Input, d: P.Decision)
    requires Inv(p, w)
    ensures AllOk(p, w, ClosePosition(p, w, x, d))
  {
    var cancels := CancelAll(p, w, x.open, true);
    CancelAllOk(p, w, x.open, true);
    SellAllOk(p, After(w, cancels), x, Exit(d.reason));
    Append(p, w, cancels, SellAll(p, After(w, cancels), x, Exit(d.reason)));
  }

  lemma ReduceOk(p: SessionPlan, w: World, x: Input, d: P.Decision)
    requires Inv(p, w) && p.budget.Valid()
    ensures AllOk(p, w, Reduce(p, w, x, d))
  {
    var cancels := CancelAll(p, w, x.open, true);
    var id := Reduction(d.action, A.TargetQuantity(p.budget, x.equity, d.target), d.reason);
    CancelAllOk(p, w, x.open, true);
    OnceOk(p, After(w, cancels), id, SellOrder(x, Excess(p, x, d)));
    Append(p, w, cancels, Once(p, After(w, cancels), id, SellOrder(x, Excess(p, x, d))));
  }

  // ---- the premarket entry ----

  lemma PremarketDecisionOk(p: SessionPlan, x: Input, r: Record)
    requires RecordOk(p, r) && p.budget.Valid()
    ensures PremarketDecision(x, r).Ok? && r.plan.Valid() && r.plan.Cap() == Cap(p)
    ensures var d := PremarketDecision(x, r).value;
            E.Sound(r.plan, d.runtime) && d.runtime.attempt <= 2
            && (r.runtime.started.Some? ==> d.runtime.started == r.runtime.started)
            && (r.runtime.completed.Some? ==> d.runtime.completed.Some?)
            && (E.Submits(d.action) ==> d.limit.Some? && d.limit.value <= Cap(p))
  {
    assert r.plan.Valid() && r.plan.Cap() == Cap(p);
    E.EvaluateKeeps(r.plan, r.runtime, EngineView(x, r));
  }

  lemma OpeningOk(p: SessionPlan, w: World, target: nat)
    requires p.budget.Valid() && Inv(p, w) && target > 0
    ensures var r := RecordFor(p, w, target);
            RecordOk(p, r) && AllOk(p, w, Opening(w, r)) && Inv(p, After(w, Opening(w, r)))
            && After(w, Opening(w, r)) == w.(premarket := Some(r))
  {
    var r := RecordFor(p, w, target);
    One(p, w, OpenPremarket(r.plan));
    AllOkKeeps(p, w, Opening(w, r));
  }

  lemma CancelActiveOk(p: SessionPlan, w: World, x: Input, r: Record, d: E.Decision)
    requires Inv(p, w)
    ensures var es := CancelActive(p, w, x, r, d);
            AllOk(p, w, es) && Inv(p, After(w, es)) && SameRest(w, After(w, es)) && After(w, es).orders == w.orders
  {
    One(p, w, Fault);
    if x.active.Some? { CancelOnceOk(p, w, x.active.value); }
    AllOkKeeps(p, w, CancelActive(p, w, x, r, d));
  }

  lemma SubmitPremarketOk(p: SessionPlan, w: World, x: Input, d: E.Decision)
    requires Inv(p, w) && !Locked(w) && d.runtime.attempt <= 2
    requires E.Submits(d.action) ==> d.limit.Some? && d.limit.value <= Cap(p)
    ensures var es := SubmitPremarket(p, w, x, d);
            AllOk(p, w, es) && Inv(p, After(w, es)) && SameRest(w, After(w, es))
  {
    One(p, w, Fault);
    if E.Submits(d.action) {
      OnceOk(p, w, Premarket(d.runtime.attempt), Order(BuySide, d.remaining, d.limit, x.observed));
    }
    AllOkKeeps(p, w, SubmitPremarket(p, w, x, d));
  }

  lemma CarryOutOk(p: SessionPlan, w: World, x: Input, r: Record, d: E.Decision)
    requires p.budget.Valid() && Inv(p, w) && !Locked(w) && w.premarket == Some(r)
    requires PremarketDecision(x, r) == Ok(d)
    ensures AllOk(p, w, CarryOut(p, w, x, r, d)) && !Locked(After(w, CarryOut(p, w, x, r, d)))
  {
    PremarketDecisionOk(p, x, r);
    var cancel := CancelActive(p, w, x, r, d);
    CancelActiveOk(p, w, x, r, d);
    var w1 := After(w, cancel);
    var submit := SubmitPremarket(p, w1, x, d);
    SubmitPremarketOk(p, w1, x, d);
    Append(p, w, cancel, submit);
    var w2 := After(w1, submit);
    One(p, w2, SavePremarket(d.runtime, ActiveAfter(r, d)));
    Append(p, w, cancel + submit, [SavePremarket(d.runtime, ActiveAfter(r, d))]);
  }

  lemma RunPremarketOk(p: SessionPlan, w: World, x: Input, target: nat)
    requires p.budget.Valid() && Inv(p, w) && !Locked(w) && target > 0
    ensures AllOk(p, w, RunPremarket(p, w, x, target).0) && !Locked(After(w, RunPremarket(p, w, x, target).0))
  {
    var r := RecordFor(p, w, target);
    OpeningOk(p, w, target);
    PremarketDecisionOk(p, x, r);
    var d := PremarketDecision(x, r).value;
    var w1 := After(w, Opening(w, r));
    CarryOutOk(p, w1, x, r, d);
    Append(p, w, Opening(w, r), CarryOut(p, w1, x, r, d));
  }

  // ---- the regular entry ----

  /** A buying decision is the policy's: a probe of a quarter or an upgrade to a half. */
  predicate DecisionOk(d: P.Decision) {
    (d.action == P.EnterProbe ==> d.target == 0.25) && (d.action == P.Upgrade ==> d.target == 0.50)
  }

  lemma ComponentOk(p: SessionPlan, w: World, x: Input, d: P.Decision, c: Component, quantity: int)
    requires Inv(p, w) && !Locked(w) && Buys(d.action) && DecisionOk(d)
    ensures var es := SubmitComponent(p, w, x, d, c, quantity);
            AllOk(p, w, es) && Inv(p, After(w, es)) && SameRest(w, After(w, es))
  {
    One(p, w, Fault);
    assert FourDecimals(0.25) == 2500 && FourDecimals(0.50) == 5000;
    if quantity > 0 {
      OnceOk(p, w, Regular(d.action, FourDecimals(d.target), c), Order(BuySide, quantity, None, x.observed));
    }
    AllOkKeeps(p, w, SubmitComponent(p, w, x, d, c, quantity));
  }

  lemma RunRegularOk(p: SessionPlan, w: World, x: Input, d: P.Decision)
    requires p.budget.Valid() && Inv(p, w) && !Locked(w) && Buys(d.action) && DecisionOk(d)
    ensures AllOk(p, w, RunRegular(p, w, x, d))
  {
    var (tailShares, mainShares) :=
      A.Components(p.budget, x.equity, PriorFraction(d.action), d.target, P.TailChoice(x.policy).1);
    var first := SubmitComponent(p, w, x, d, TailPart, tailShares);
    ComponentOk(p, w, x, d, TailPart, tailShares);
    ComponentOk(p, After(w, first), x, d, MainPart, mainShares);
    Append(p, w, first, SubmitComponent(p, After(w, first), x, d, MainPart, mainShares));
  }

  lemma RunEntryOk(p: SessionPlan, w: World, x: Input, d: P.Decision)
    requires p.budget.Valid() && Inv(p, w) && !Locked(w) && Buys(d.action) && DecisionOk(d)
    ensures AllOk(p, w, RunEntry(p, w, x, d).0)
    ensures !RunEntry(p, w, x, d).1 ==> !Locked(After(w, RunEntry(p, w, x, d).0))
  {
    One(p, w, Fault);
    if x.accountActive && (x.PremarketHours() || x.RegularHours()) && !x.holding.Unsound? {
      var desired := A.TargetQuantity(p.budget, x.equity, d.target);
      if desired - x.Held() > 0 {
        if x.PremarketHours() { RunPremarketOk(p, w, x, desired); } else { RunRegularOk(p, w, x, d); }
      }
    }
  }

  // ---- the tick ----

  lemma ContinueOk(p: SessionPlan, w: World, x: Input)
    requires p.budget.Valid() && Inv(p, w) && !Locked(w)
    ensures AllOk(p, w, Continue(p, w, x))
  {
    var es := if !RunningPremarket(w, x) then [] else if x.holding.Unsound? then [Fault]
              else RunPremarket(p, w, x, w.premarket.value.plan.target).0;
    One(p, w, Fault);
    if RunningPremarket(w, x) { RunPremarketOk(p, w, x, w.premarket.value.plan.target); }
    One(p, After(w, es), StopExit);
    One(p, After(w, es), Fault);
    Append(p, w, es, ExtendedStop(x));
  }

  lemma ProceedOk(p: SessionPlan, w: World, x: Input, d: P.Decision)
    requires p.budget.Valid() && Inv(p, w) && !Locked(w) && DecisionOk(d)
    ensures AllOk(p, w, Proceed(p, w, x, d))
  {
    One(p, w, Fault);
    ContinueOk(p, w, x);
    if Buys(d.action) {
      var (es, ends) := RunEntry(p, w, x, d);
      RunEntryOk(p, w, x, d);
      if !ends {
        AllOkKeeps(p, w, es);
        ContinueOk(p, After(w, es), x);
        Append(p, w, es, Continue(p, After(w, es), x));
      }
    } else if Sheds(d.action) {
      ReduceOk(p, w, x, d);
    }
  }

  lemma ActOk(p: SessionPlan, w: World, x: Input, d: P.Decision)
    requires p.budget.Valid() && Inv(p, w) && !Locked(w) && DecisionOk(d)
    ensures AllOk(p, w, Act(p, w, x, d))
  {
    One(p, w, Fault);
    ClosePositionOk(p, w, x, d);
    ProceedOk(p, w, x, d);
    match ProtectionFor(w, x) {
      case Place(quantity) =>
        OnceOk(p, w, Protection(quantity), Order(SellSide, quantity, Some(p.budget.hardStop), x.observed));
      case _ =>
    }
  }

  /** Writes of the lifecycle state: at most the profit mark and the tail runtime. */
  predicate MarksOnly(es: seq<Effect>) {
    |es| <= 2 && forall i :: 0 <= i < |es| ==> es[i] == MarkProfit || es[i].SaveTail?
  }

  lemma {:induction false} MarksOk(p: SessionPlan, w: World, es: seq<Effect>, writes: bool)
    requires Inv(p, w) && MarksOnly(es)
    ensures AllOk(p, w, es) && Inv(p, After(w, es)) && !Stops(es, writes)
    ensures After(w, es) == w.(profit := After(w, es).profit, tail := After(w, es).tail)
    decreases |es|
  {
    if es != [] {
      RestKeeps(p, w, es[0]);
      assert forall i :: 0 <= i < |es[1..]| ==> es[1..][i] == es[i + 1];
      MarksOk(p, Apply(w, es[0]), es[1..], writes);
    }
  }

  /** The lifecycle state touches neither locks, commands, orders nor the premarket row. */
  lemma LifecycleOk(p: SessionPlan, w: World, x: Input)
    requires p.budget.Valid() && Inv(p, w) && x.Valid()
    ensures var (es, s) := Lifecycle(p, w, x);
            MarksOnly(es) && AllOk(p, w, es) && Inv(p, After(w, es)) && !Stops(es, x.writesEnabled)
            && After(w, es) == w.(profit := After(w, es).profit, tail := After(w, es).tail)
            && (s.Some? ==> s.value.Valid() && s.value == x.policy.(profit := s.value.profit, tail := s.value.tail)
                            && DecisionOk(DecisionFor(p, x, s.value)))
  {
    LifecycleMarks(p, w, x);
    MarksOk(p, w, Lifecycle(p, w, x).0, x.writesEnabled);
    if Lifecycle(p, w, x).1.Some? { SeenOk(p, w, x); }
  }

  lemma LifecycleMarks(p: SessionPlan, w: World, x: Input)
    requires p.budget.Valid()
    ensures MarksOnly(Lifecycle(p, w, x).0)
  {
  }

  lemma SeenOk(p: SessionPlan, w: World, x: Input)
    requires p.budget.Valid() && x.Valid() && Lifecycle(p, w, x).1.Some?
    ensures var s := Lifecycle(p, w, x).1.value;
            s.Valid() && s == x.policy.(profit := s.profit, tail := s.tail) && DecisionOk(DecisionFor(p, x, s))
  {
    var s := Lifecycle(p, w, x).1.value;
    EvidenceValid(x.policy.(profit := true), p.budget.hardStop, w.tail, x.observed, x.signs);
    P.ProbesIff(s);
    P.UpgradesIff(s);
  }

  lemma EvidenceValid(s: P.Snapshot, hardStop: real, prior: Option<P.TailRuntime>, at: int, signs: P.Signs)
    requires s.Valid()
    ensures var e := P.SessionEvidence(s, hardStop, prior, at, signs);
            e.Some? ==> e.value.0.Valid() && e.value.0 == s.(tail := e.value.0.tail)
  {
  }

  /** The writes a tick sets out to make come in an order in which every order has its command row before it, every buy
      is one of the plan's and finds no lock, and rows stay sound. */
  lemma IntendedOk(p: SessionPlan, w: World, x: Input)
    requires p.budget.Valid() && Inv(p, w) && x.Valid()
    ensures AllOk(p, w, Intended(p, w, x))
  {
    One(p, w, LockGuardian);
    FlattenOk(p, w, x);
    if !Locked(w) && x.guardian == Clear && x.dailyReturn > -0.02 {
      var (es, s) := Lifecycle(p, w, x);
      LifecycleOk(p, w, x);
      One(p, After(w, es), Fault);
      if s.Some? { ActOk(p, After(w, es), x, DecisionFor(p, x, s.value)); }
      Append(p, w, es, match s case None => [Fault] case Some(seen) => Act(p, After(w, es), x, DecisionFor(p, x, seen)));
    }
  }

  lemma TickOk(p: SessionPlan, w: World, x: Input)
    requires p.budget.Valid() && Inv(p, w) && x.Valid()
    ensures AllOk(p, w, Tick(p, w, x))
  {
    IntendedOk(p, w, x);
    PerformedIsPrefix(Intended(p, w, x), x.writesEnabled);
    PrefixOk(p, w, Intended(p, w, x), |Tick(p, w, x)|);
    assert Tick(p, w, x) == Intended(p, w, x)[..|Tick(p, w, x)|];
  }

  lemma CutOk(p: SessionPlan, w: World, es: seq<Effect>, n: nat)
    requires AllOk(p, w, es)
    ensures AllOk(p, w, Cut(es, n))
  {
    if n < |es| { PrefixOk(p, w, es, n); }
  }

  // ---- every run ----

  predicate ValidSteps(steps: seq<Step>) { forall i :: 0 <= i < |steps| ==> steps[i].input.Valid() }

  lemma StepKeeps(p: SessionPlan, w: World, s: Step)
    requires p.budget.Valid() && Inv(p, w) && s.input.Valid()
    ensures Inv(p, StepTo(p, w, s)) && Grows(w, StepTo(p, w, s))
  {
    TickOk(p, w, s.input);
    CutOk(p, w, Tick(p, w, s.input), s.effects);
    AllOkKeeps(p, w, Cut(Tick(p, w, s.input), s.effects));
  }

  lemma {:induction false} RunKeeps(p: SessionPlan, w: World, steps: seq<Step>)
    requires p.budget.Valid() && Inv(p, w) && ValidSteps(steps)
    ensures Inv(p, Run(p, w, steps)) && Grows(w, Run(p, w, steps))
  {
    if steps != [] {
      var before := steps[..|steps| - 1];
      RunKeeps(p, w, before);
      StepKeeps(p, Run(p, w, before), steps[|steps| - 1]);
    }
  }

  const EVERY_BUY: seq<Id> :=
    [Regular(P.EnterProbe, 2500, TailPart), Regular(P.EnterProbe, 2500, MainPart), Regular(P.Upgrade, 5000, TailPart),
     Regular(P.Upgrade, 5000, MainPart), Premarket(0), Premarket(1), Premarket(2)]

  lemma KnownIsListed(id: Id)
    requires Known(id) && IsBuy(id)
    ensures id in EVERY_BUY
  {
    if id.Premarket? {
      assert EVERY_BUY[4 + id.attempt] == id;
    } else {
      assert EVERY_BUY[(if id.action == P.Upgrade then 2 else 0) + if id.component == MainPart then 1 else 0] == id;
    }
  }

  lemma {:induction false} FewerThanListed(ids: set<Id>, list: seq<Id>)
    requires forall id :: id in ids ==> id in list
    ensures |ids| <= |list|
  {
    if list != [] {
      var last := list[|list| - 1];
      assert list == list[..|list| - 1] + [last];
      FewerThanListed(ids - {last}, list[..|list| - 1]);
      assert ids <= (ids - {last}) + {last};
      assert |ids| <= |ids - {last}| + 1;
    } else {
      assert ids == {};
    }
  }

  function BuyIds(w: World): set<Id> { set id | id in w.orders && IsBuy(id) }

  /** Over any run of a plan, with crashes after any write and calls that raise, at most seven of its buy orders are
      submitted: four regular and three premarket ones, because the policy only ever buys a quarter or a half. Each
      was preceded by its command row, and no premarket limit exceeds the chase cap. */
  lemma AtMostSevenBuys(p: SessionPlan, steps: seq<Step>)
    requires p.budget.Valid() && ValidSteps(steps)
    ensures var w := Run(p, EMPTY, steps);
            |BuyIds(w)| <= 7
            && |set id | id in w.orders && id.Regular?| <= 4
            && forall id :: id in BuyIds(w) ==>
                 id in w.commands && id in EVERY_BUY && w.orders[id].side == BuySide
                 && (id.Premarket? ==> w.orders[id].price.Some? && w.orders[id].price.value <= Cap(p))
  {
    RunKeeps(p, EMPTY, steps);
    var w := Run(p, EMPTY, steps);
    forall id | id in BuyIds(w) ensures id in EVERY_BUY { KnownIsListed(id); }
    FewerThanListed(BuyIds(w), EVERY_BUY);
    var regular := set id | id in w.orders && id.Regular?;
    forall id | id in regular ensures id in EVERY_BUY[..4] {
      KnownIsListed(id);
      var i :| 0 <= i < 7 && EVERY_BUY[i] == id;
      assert EVERY_BUY[..4][i] == id;
    }
    FewerThanListed(regular, EVERY_BUY[..4]);
  }

  // ---- a locked date ----

  lemma {:induction false} NoBuys(w: World, es: seq<Effect>)
    requires forall i :: 0 <= i < |es| ==> !(es[i].Submit? && IsBuy(es[i].id))
    ensures BuyIds(After(w, es)) == BuyIds(w)
    decreases |es|
  {
    if es != [] { NoBuys(Apply(w, es[0]), es[1..]); }
  }

  /** In a locked state an allowed list of writes contains no buy. */
  lemma {:induction false} LockedAllowsNoBuy(p: SessionPlan, w: World, es: seq<Effect>)
    requires Inv(p, w) && AllOk(p, w, es) && Locked(w)
    ensures forall i :: 0 <= i < |es| ==> !(es[i].Submit? && IsBuy(es[i].id))
    decreases |es|
  {
    if es != [] {
      OkKeeps(p, w, es[0]);
      LockedAllowsNoBuy(p, Apply(w, es[0]), es[1..]);
      assert forall i :: 1 <= i < |es| ==> es[i] == es[1..][i - 1];
    }
  }

  /** While a date is locked, whatever ticks follow, the lock stays and no buy is submitted; selling goes on. */
  lemma {:induction false} LockedForever(p: SessionPlan, w: World, steps: seq<Step>)
    requires p.budget.Valid() && Inv(p, w) && Locked(w) && ValidSteps(steps)
    ensures BuyIds(Run(p, w, steps)) == BuyIds(w) && Locked(Run(p, w, steps))
  {
    if steps != [] {
      var before, s := steps[..|steps| - 1], steps[|steps| - 1];
      RunKeeps(p, w, before);
      LockedForever(p, w, before);
      LockedStep(p, Run(p, w, before), s);
    }
  }

  lemma LockedStep(p: SessionPlan, w: World, s: Step)
    requires p.budget.Valid() && Inv(p, w) && Locked(w) && s.input.Valid()
    ensures BuyIds(StepTo(p, w, s)) == BuyIds(w) && Locked(StepTo(p, w, s))
  {
    var es := Cut(Tick(p, w, s.input), s.effects);
    TickOk(p, w, s.input);
    CutOk(p, w, Tick(p, w, s.input), s.effects);
    AllOkKeeps(p, w, es);
    LockedTickBuysNothing(p, w, s.input);
    NoBuys(w, es);
  }

  lemma LockedTickBuysNothing(p: SessionPlan, w: World, x: Input)
    requires p.budget.Valid() && Inv(p, w) && Locked(w) && x.Valid()
    ensures forall i :: 0 <= i < |Tick(p, w, x)| ==> !(Tick(p, w, x)[i].Submit? && IsBuy(Tick(p, w, x)[i].id))
  {
    TickOk(p, w, x);
    LockedAllowsNoBuy(p, w, Tick(p, w, x));
  }
}
