/** One plan's autonomous paper session (execution/autonomous_paper_session.py): the durable rows and broker orders of
    its trade date, the writes of a tick in the order it makes them, the points where a call raises, and a crash
    after any write. */
module PaperSession {
  import opened Texts
  import P = IntradayPolicy
  import E = PremarketEntry
  import A = Allocation

  // ---- durable state ----

  datatype Component = TailPart | MainPart

  /** Command IDs; those of orders are their client order IDs. Hashes are taken as injective, so an ID is what is
      hashed beside the plan: a regular entry's names its action and its target fraction to four decimals. */
  datatype Id =
    | Regular(action: P.Action, fraction: int, component: Component)
    | Premarket(attempt: nat)
    | Exit(reason: P.Reason)
    | Reduction(action: P.Action, target: int, reason: P.Reason)
    | HardFlat
    | Protection(quantity: int)
    | Cancel(order: nat)

  /** A fraction to four decimals, in ten-thousandths. */
  function FourDecimals(fraction: real): int { (fraction * 10000.0 + 0.5).Floor }

  datatype Kind = EntryKind(action: P.Action, component: Component) | PremarketKind | ExitKind
                | ReductionKind(action: P.Action) | FlattenKind | ProtectionKind | CancelKind

  /** What a command row is checked against when it is met again. */
  datatype Identity = Identity(date: int, kind: Kind, symbol: string)

  datatype Row = Row(identity: Identity, completed: bool)

  datatype Side = BuySide | SellSide

  /** A submitted order: price is its limit or stop, none at the market; at is the tick's time. */
  datatype Order = Order(side: Side, quantity: int, price: Option<real>, at: int)

  datatype Record = Record(plan: E.Plan, runtime: E.Runtime, active: Option<Id>)

  /** Day and guardian locks of the date, command rows, the premarket row, the profit mark, the tail runtime, and the
      orders submitted by client ID. */
  datatype World = World(dayLocked: bool, guardianLocked: bool, commands: map<Id, Row>, premarket: Option<Record>,
                         profit: bool, tail: Option<P.TailRuntime>, orders: map<Id, Order>)

  /** Fault stands for a call that raises: nothing after it is done. */
  datatype Effect = LockDay | LockGuardian | MarkProfit | SaveTail(tail: P.TailRuntime)
                  | OpenPremarket(plan: E.Plan) | EnsureCommand(id: Id, identity: Identity)
                  | Submit(id: Id, order: Order) | CancelOrder(orderId: nat) | CompleteCommand(id: Id)
                  | SavePremarket(runtime: E.Runtime, active: Option<Id>) | StopExit | Fault

  /** One atomic database write or broker call. The broker is idempotent by client ID. */
  function Apply(w: World, e: Effect): World {
    match e
    case LockDay => w.(dayLocked := true)
    case LockGuardian => w.(guardianLocked := true)
    case MarkProfit => w.(profit := true)
    case SaveTail(tail) => w.(tail := Some(tail))
    case OpenPremarket(plan) => if w.premarket.Some? then w else w.(premarket := Some(Record(plan, E.INITIAL, None)))
    case EnsureCommand(id, identity) =>
      if id in w.commands then w else w.(commands := w.commands[id := Row(identity, false)])
    case Submit(id, order) => if id in w.orders then w else w.(orders := w.orders[id := order])
    case CompleteCommand(id) =>
      if id in w.commands then w.(commands := w.commands[id := w.commands[id].(completed := true)]) else w
    case SavePremarket(runtime, active) =>
      if w.premarket.None? then w
      else w.(premarket := Some(w.premarket.value.(runtime := runtime, active := active)))
    case CancelOrder(_) => w
    case StopExit => w
    case Fault => w
  }

  function After(w: World, es: seq<Effect>): World
    decreases |es|
  {
    if es == [] then w else After(Apply(w, es[0]), es[1..])
  }

  /** A broker with writes disabled raises on every write. */
  predicate Raises(e: Effect, writes: bool) { e.Fault? || ((e.Submit? || e.CancelOrder?) && !writes) }

  /** What is done of the intended writes: those before the first that raises. */
  function Performed(es: seq<Effect>, writes: bool): seq<Effect> {
    if es == [] || Raises(es[0], writes) then [] else [es[0]] + Performed(es[1..], writes)
  }

  predicate Stops(es: seq<Effect>, writes: bool) { exists i :: 0 <= i < |es| && Raises(es[i], writes) }

  predicate Completed(w: World, id: Id) { id in w.commands && w.commands[id].completed }

  // ---- inputs of a tick ----

  datatype Guardian = Clear | Blocked | Trips

  /** The symbol's position: none, a whole long quantity, or one that the code refuses to read. */
  datatype Holding = Flat | Long(shares: nat) | Unsound

  /** An order the broker reports; accepts says whether its cancellation would be. */
  datatype OpenOrder = OpenOrder(id: nat, symbol: string, working: bool, accepts: bool)

  datatype Protective = Missing | Working | Gone

  datatype SessionPlan = SessionPlan(date: int, symbol: string, budget: A.Budget, takeProfit2: Option<real>)

  datatype Input = Input(observed: int, quoteAt: int, bid: real, ask: real, guardian: Guardian, dailyReturn: real,
                         paperAuthorised: bool, writesEnabled: bool, accountActive: bool, equity: real,
                         holding: Holding, policy: P.Snapshot, signs: P.Signs, mainFilled: bool,
                         active: Option<OpenOrder>, open: seq<OpenOrder>, protective: Protective, stopSells: bool)
  {
    predicate Valid() {
      equity > 0.0 && policy.Valid() && quoteAt <= observed && 0.0 < bid <= ask
      && (holding.Long? ==> holding.shares > 0)
    }

    predicate Authorised() { paperAuthorised && writesEnabled }

    predicate Fresh() { observed - quoteAt <= 30 * P.SECOND }

    predicate PremarketHours() { 7 * P.HOUR <= policy.clock < 9 * P.HOUR + 25 * P.MINUTE }

    predicate RegularHours() { 9 * P.HOUR + 30 * P.MINUTE <= policy.clock < 16 * P.HOUR }

    function Held(): nat { if holding.Long? then holding.shares else 0 }
  }

  // ---- one command ----

  function KindOf(id: Id): Kind {
    match id
    case Regular(action, _, component) => EntryKind(action, component)
    case Premarket(_) => PremarketKind
    case Exit(_) => ExitKind
    case Reduction(action, _, _) => ReductionKind(action)
    case HardFlat => FlattenKind
    case Protection(_) => ProtectionKind
    case Cancel(_) => CancelKind
  }

  function IdentityOf(p: SessionPlan, id: Id): Identity { Identity(p.date, KindOf(id), p.symbol) }

  /** A row met under another date, kind or symbol raises. */
  predicate Conflicts(w: World, id: Id, identity: Identity) { id in w.commands && w.commands[id].identity != identity }

  /** A command's row, then the broker unless the row is completed, then its completion. */
  function Once(p: SessionPlan, w: World, id: Id, order: Order): seq<Effect> {
    var identity := IdentityOf(p, id);
    if Conflicts(w, id, identity) then [Fault]
    else if Completed(w, id) then [EnsureCommand(id, identity)]
    else [EnsureCommand(id, identity), Submit(id, order), CompleteCommand(id)]
  }

  /** A cancellation is completed only when the broker accepts it; an order may be of another symbol. */
  function CancelOnce(p: SessionPlan, w: World, o: OpenOrder): seq<Effect> {
    var id, identity := Cancel(o.id), Identity(p.date, CancelKind, o.symbol);
    if Conflicts(w, id, identity) then [Fault]
    else if Completed(w, id) then [EnsureCommand(id, identity)]
    else [EnsureCommand(id, identity), CancelOrder(o.id)] + if o.accepts then [CompleteCommand(id)] else []
  }

  /** Cancels the open orders one after another, all of them or the plan's own. */
  function CancelAll(p: SessionPlan, w: World, orders: seq<OpenOrder>, own: bool): seq<Effect>
    decreases |orders|
  {
    if orders == [] then []
    else if own && orders[0].symbol != p.symbol then CancelAll(p, w, orders[1..], own)
    else
      var es := CancelOnce(p, w, orders[0]);
      es + CancelAll(p, After(w, es), orders[1..], own)
  }

  // ---- selling ----

  /** A quarter percent below the bid, in whole cents, outside regular hours; at the market inside them. */
  function SellOrder(x: Input, quantity: int): Order {
    Order(SellSide, quantity, if x.RegularHours() then None else Some(E.CentsDown(x.bid * 0.9975)), x.observed)
  }

  /** Sells what is held under an ID; a quantity that cannot be read raises. */
  function SellAll(p: SessionPlan, w: World, x: Input, id: Id): seq<Effect> {
    match x.holding
    case Flat => []
    case Unsound => [Fault]
    case Long(shares) => Once(p, w, id, SellOrder(x, shares))
  }

  /** The hard daily loss: every open order cancelled, the position sold, and only then the date locked. */
  function Flatten(p: SessionPlan, w: World, x: Input): seq<Effect> {
    var cancels := CancelAll(p, w, x.open, false);
    cancels + SellAll(p, After(w, cancels), x, HardFlat) + [LockDay]
  }

  function ClosePosition(p: SessionPlan, w: World, x: Input, d: P.Decision): seq<Effect> {
    var cancels := CancelAll(p, w, x.open, true);
    cancels + SellAll(p, After(w, cancels), x, Exit(d.reason))
  }

  /** The shares a reduction sells. */
  function Excess(p: SessionPlan, x: Input, d: P.Decision): int
    requires p.budget.Valid()
  {
    x.Held() - A.TargetQuantity(p.budget, x.equity, d.target)
  }

  function Reduce(p: SessionPlan, w: World, x: Input, d: P.Decision): seq<Effect>
    requires p.budget.Valid()
  {
    var cancels := CancelAll(p, w, x.open, true);
    var id := Reduction(d.action, A.TargetQuantity(p.budget, x.equity, d.target), d.reason);
    cancels + Once(p, After(w, cancels), id, SellOrder(x, Excess(p, x, d)))
  }

  datatype Guard = NotNeeded | Unauthorised | Broken | Place(quantity: int)

  /** The stop a premarket position needs in regular hours. */
  function ProtectionFor(w: World, x: Input): Guard {
    if !x.RegularHours() || w.premarket.None? || x.holding.Flat? then NotNeeded
    else if x.holding.Unsound? then Broken
    else
      var target := w.premarket.value.plan.target;
      var quantity := if target < x.Held() then target else x.Held();
      match x.protective
      case Working => NotNeeded
      case Gone => Broken
      case Missing =>
        if !x.Authorised() then Unauthorised
        else if Completed(w, Protection(quantity)) then Broken
        else Place(quantity)
  }

  // ---- premarket entry ----

  /** The defaults a premarket plan is created with. */
  function PremarketPlan(target: nat, reference: real): E.Plan {
    E.Plan(target, reference, 3 * P.SECOND, 10 * P.SECOND, 2, 0.003)
  }

  function RecordFor(p: SessionPlan, w: World, target: nat): Record {
    if w.premarket.Some? then w.premarket.value
    else Record(PremarketPlan(target, p.budget.reference), E.INITIAL, None)
  }

  /** What the engine sees of the broker: the fill up to the target, and whether the active order works. */
  function EngineView(x: Input, r: Record): E.Snapshot {
    E.Snapshot(x.observed, x.ask, if x.Held() < r.plan.target then x.Held() else r.plan.target,
               r.active.Some? && x.active.Some? && x.active.value.working, x.policy.data)
  }

  function PremarketDecision(x: Input, r: Record): Result<E.Decision> { E.Evaluate(r.plan, r.runtime, EngineView(x, r)) }

  function ActiveAfter(r: Record, d: E.Decision): Option<Id> {
    if E.Submits(d.action) then Some(Premarket(d.runtime.attempt))
    else if d.action == E.CancelRemainder || d.action == E.Abandon || d.action == E.Complete then None
    else r.active
  }

  function Opening(w: World, r: Record): seq<Effect> { if w.premarket.Some? then [] else [OpenPremarket(r.plan)] }

  /** The order to be replaced or given up is cancelled first. */
  function CancelActive(p: SessionPlan, w: World, x: Input, r: Record, d: E.Decision): seq<Effect> {
    if (d.action == E.CancelReplace || d.action == E.CancelRemainder || d.action == E.Abandon)
       && r.active.Some? && x.active.Some? then CancelOnce(p, w, x.active.value)
    else []
  }

  function SubmitPremarket(p: SessionPlan, w: World, x: Input, d: E.Decision): seq<Effect> {
    if E.Submits(d.action)
    then Once(p, w, Premarket(d.runtime.attempt), Order(BuySide, d.remaining, d.limit, x.observed))
    else []
  }

  /** The cancellation and the order a decision asks for, then the row that records it. */
  function CarryOut(p: SessionPlan, w: World, x: Input, r: Record, d: E.Decision): seq<Effect> {
    var cancel := CancelActive(p, w, x, r, d);
    cancel + SubmitPremarket(p, After(w, cancel), x, d) + [SavePremarket(d.runtime, ActiveAfter(r, d))]
  }

  /** The writes of running the premarket entry, and whether it reports an order. */
  function RunPremarket(p: SessionPlan, w: World, x: Input, target: nat): (seq<Effect>, bool) {
    var r := RecordFor(p, w, target);
    match PremarketDecision(x, r)
    case Err(_) => (Opening(w, r) + [Fault], true)
    case Ok(d) => (Opening(w, r) + CarryOut(p, After(w, Opening(w, r)), x, r, d), ActiveAfter(r, d).Some?)
  }

  // ---- regular entry ----

  function PriorFraction(action: P.Action): real { if action == P.EnterProbe then 0.0 else 0.25 }

  function SubmitComponent(p: SessionPlan, w: World, x: Input, d: P.Decision, c: Component, quantity: int): seq<Effect> {
    if quantity <= 0 then []
    else Once(p, w, Regular(d.action, FourDecimals(d.target), c), Order(BuySide, quantity, None, x.observed))
  }

  /** Tail then main. The closing check of the components can only raise after both. */
  function RunRegular(p: SessionPlan, w: World, x: Input, d: P.Decision): seq<Effect>
    requires p.budget.Valid()
  {
    var (tailShares, mainShares) :=
      A.Components(p.budget, x.equity, PriorFraction(d.action), d.target, P.TailChoice(x.policy).1);
    var first := SubmitComponent(p, w, x, d, TailPart, tailShares);
    first + SubmitComponent(p, After(w, first), x, d, MainPart, mainShares)
  }

  /** The writes of an entry, and whether the tick ends with them: it does not when nothing was reported. */
  function RunEntry(p: SessionPlan, w: World, x: Input, d: P.Decision): (seq<Effect>, bool)
    requires p.budget.Valid()
  {
    if !x.accountActive || !(x.PremarketHours() || x.RegularHours()) then ([], false)
    else if x.holding.Unsound? then ([Fault], true)
    else
      var desired := A.TargetQuantity(p.budget, x.equity, d.target);
      if desired - x.Held() <= 0 then ([], false)
      else if x.PremarketHours() then RunPremarket(p, w, x, desired)
      else (RunRegular(p, w, x, d), true)
  }

  // ---- a tick ----

  predicate RunningPremarket(w: World, x: Input) {
    w.premarket.Some? && w.premarket.value.runtime.completed.None? && x.PremarketHours()
  }

  /** The extended-hours stop; its own ledger and orders are the synthetic stop controller's. */
  function ExtendedStop(x: Input): seq<Effect> {
    if x.RegularHours() then [] else if x.holding.Unsound? then [Fault] else if x.stopSells then [StopExit] else []
  }

  /** What follows when no earlier branch ended the tick: an unfinished premarket entry, then the extended stop. */
  function Continue(p: SessionPlan, w: World, x: Input): seq<Effect> {
    (if !RunningPremarket(w, x) then []
     else if x.holding.Unsound? then [Fault]
     else RunPremarket(p, w, x, w.premarket.value.plan.target).0)
    + ExtendedStop(x)
  }

  predicate Buys(a: P.Action) { a == P.EnterProbe || a == P.Upgrade }

  predicate Sheds(a: P.Action) { a == P.TrimToTail || a == P.ReduceTail }

  function Act(p: SessionPlan, w: World, x: Input, d: P.Decision): seq<Effect>
    requires p.budget.Valid()
  {
    if x.dailyReturn <= -0.015 && Buys(d.action) then []
    else if d.action == P.Exit then if x.Authorised() then ClosePosition(p, w, x, d) else []
    else
      match ProtectionFor(w, x)
      case Unauthorised => []
      case Broken => [Fault]
      case Place(quantity) =>
        Once(p, w, Protection(quantity), Order(SellSide, quantity, Some(p.budget.hardStop), x.observed))
      case NotNeeded => Proceed(p, w, x, d)
  }

  /** An entry, a reduction, or neither. */
  function Proceed(p: SessionPlan, w: World, x: Input, d: P.Decision): seq<Effect>
    requires p.budget.Valid()
  {
    if Buys(d.action) then
      if !x.Fresh() || !x.Authorised() then []
      else
        var (es, ends) := RunEntry(p, w, x, d);
        if ends then es else es + Continue(p, After(w, es), x)
    else if Sheds(d.action) then
      if !x.Authorised() then []
      else if x.holding.Unsound? then [Fault]
      else if Excess(p, x, d) > 0 then Reduce(p, w, x, d)
      else Continue(p, w, x)
    else Continue(p, w, x)
  }

  /** The ledger knows a completed main component. */
  predicate MainBought(w: World) {
    exists id :: id in w.commands && id.Regular? && id.component == MainPart && w.commands[id].completed
  }

  /** The main components are bought and filled and what is held is no more than the tail: the profit was taken. */
  predicate MarksProfit(p: SessionPlan, w: World, x: Input)
    requires p.budget.Valid()
  {
    x.policy.Held() && !x.policy.profit && !w.profit && x.mainFilled && MainBought(w)
    && 0 < x.Held() <= A.TargetQuantity(p.budget, x.equity, P.TailChoice(x.policy).1)
  }

  /** The main components are filled but the position cannot be read. */
  predicate MarkRaises(w: World, x: Input) {
    x.policy.Held() && !x.policy.profit && !w.profit && x.mainFilled && MainBought(w) && x.holding.Unsound?
  }

  /** The lifecycle state's writes and the policy's completed snapshot, or none when completing it raises. */
  function Lifecycle(p: SessionPlan, w: World, x: Input): (seq<Effect>, Option<P.Snapshot>)
    requires p.budget.Valid()
  {
    if MarkRaises(w, x) then ([], None)
    else
      var mark := if MarksProfit(p, w, x) then [MarkProfit] else [];
      if !x.policy.Held() || !(x.policy.profit || w.profit || mark != []) then (mark, Some(x.policy))
      else
        match P.SessionEvidence(x.policy.(profit := true), p.budget.hardStop, w.tail, x.observed, x.signs)
        case None => (mark, None)
        case Some((s, runtime)) =>
          (mark + if runtime.Some? && runtime != w.tail then [SaveTail(runtime.value)] else [], Some(s))
  }

  function DecisionFor(p: SessionPlan, x: Input, s: P.Snapshot): P.Decision {
    if s.Held() && p.takeProfit2.Some? && x.bid >= p.takeProfit2.value then P.Exiting(P.TakeProfit2Reached)
    else P.Evaluate(s)
  }

  function Decided(p: SessionPlan, w: World, x: Input): seq<Effect>
    requires p.budget.Valid()
  {
    var (es, s) := Lifecycle(p, w, x);
    es + match s
         case None => [Fault]
         case Some(seen) => Act(p, After(w, es), x, DecisionFor(p, x, seen))
  }

  /** Every write a tick sets out to make, in order. */
  function Intended(p: SessionPlan, w: World, x: Input): seq<Effect>
    requires p.budget.Valid()
  {
    if w.guardianLocked || x.guardian == Blocked then []
    else if x.guardian == Trips then [LockGuardian]
    else if x.dailyReturn <= -0.02 then if x.Authorised() then Flatten(p, w, x) else []
    else if w.dayLocked then []
    else Decided(p, w, x)
  }

  /** The writes it makes: up to the first call that raises. */
  function Tick(p: SessionPlan, w: World, x: Input): seq<Effect>
    requires p.budget.Valid()
  {
    Performed(Intended(p, w, x), x.writesEnabled)
  }

  /** A tick cut short by a crash after some of its writes, or carried out in full. */
  datatype Step = Step(input: Input, effects: nat)

  function Cut(es: seq<Effect>, n: nat): seq<Effect> { if n < |es| then es[..n] else es }

  function StepTo(p: SessionPlan, w: World, s: Step): World
    requires p.budget.Valid()
  {
    After(w, Cut(Tick(p, w, s.input), s.effects))
  }

  function Run(p: SessionPlan, w: World, steps: seq<Step>): World
    requires p.budget.Valid()
  {
    if steps == [] then w else StepTo(p, Run(p, w, steps[..|steps| - 1]), steps[|steps| - 1])
  }

  const EMPTY := World(false, false, map[], None, false, None, map[])
}
