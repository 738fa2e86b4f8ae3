/** Reconciliation of one order with the broker, and of the whole book at startup
    (execution/reconcile.py, execution/recovery.py). */
module Reconcile {
  import opened Texts
  import opened OrderState
  import opened OrderLedger

  /** The broker's order statuses, trimmed and lower-cased; Unknown stands for any other text. */
  datatype BrokerStatus = Complete | Partial | Canceled | Expired | Replaced | DoneForDay | Refused | Suspended
                        | New | Accepted | PendingNew | AcceptedForBidding | Calculated | Held | Stopped | PendingReplace
                        | Unknown

  /** filledQty None stands for text that is no number. */
  datatype BrokerOrder = BrokerOrder(clientId: Name, symbol: Name, qty: nat, id: Name, status: BrokerStatus,
                                     filledQty: Option<real>)

  function Target(status: BrokerStatus): Option<State> {
    match status
    case Complete => Some(Filled)
    case Partial => Some(PartiallyFilled)
    case Canceled | Expired | Replaced | DoneForDay => Some(Cancelled)
    case Refused | Suspended => Some(Rejected)
    case Unknown => None
    case _ => Some(Submitted)
  }

  /** The words that report a state: one each for a full and a partial fill, four for an order that ended, two for one
      refused, eight for one at work. */
  predicate Says(status: BrokerStatus, s: State) {
    match s
    case Filled => status == Complete
    case PartiallyFilled => status == Partial
    case Cancelled => status in {Canceled, Expired, Replaced, DoneForDay}
    case Rejected => status in {Refused, Suspended}
    case Submitted =>
      status in {New, Accepted, PendingNew, AcceptedForBidding, Calculated, Held, Stopped, PendingReplace}
    case _ => false
  }

  lemma TargetSays(status: BrokerStatus, s: State)
    ensures Target(status) == Some(s) <==> Says(status, s)
  {
  }

  /** A whole, non-negative filled quantity within the order's. */
  function FilledShares(o: BrokerOrder): Option<nat> {
    if o.filledQty.None? || o.filledQty.value < 0.0 || o.filledQty.value != o.filledQty.value.Floor as real
       || o.filledQty.value > o.qty as real then None
    else Some(o.filledQty.value.Floor)
  }

  /** The report's fill is a whole number of the order's shares. */
  predicate Readable(o: BrokerOrder) {
    o.filledQty.Some? && 0.0 <= o.filledQty.value <= o.qty as real
    && o.filledQty.value.Floor as real == o.filledQty.value
  }

  lemma FilledSharesAre(o: BrokerOrder)
    ensures FilledShares(o).Some? <==> Readable(o)
    ensures FilledShares(o).Some? ==> Some(FilledShares(o).value as real) == o.filledQty
  {
  }

  function AfterStatus(b: Book, id: Name, o: BrokerOrder, at: int): (Book, Reply<Lifecycle>)
    requires id in b.rows
  {
    var current, filled, target := b.rows[id].doc, FilledShares(o), Target(o.status);
    if filled.None? || target.None? || (target == Some(Filled) && filled.value != current.requested) then
      (b, Raised(ReconciliationFault))
    else if target.value == current.state && filled.value == current.filled then (b, Done(current))
    else if Terminal(current.state) then (b, Raised(ReconciliationFault))
    else if target.value == Submitted then
      if current.state == Submitted then (b, Done(current)) else (b, Raised(ReconciliationFault))
    else AfterTransition(b, id, target.value, at, PaperStatus, Some(filled.value))
  }

  /** An approved order first becomes submitted; an earlier one should not be at the broker. */
  function PastBind(b: Book, id: Name, o: BrokerOrder, at: int): (Book, Reply<Lifecycle>)
    requires id in b.rows
  {
    match b.rows[id].doc.state
    case Created => (b, Raised(ReconciliationFault))
    case PendingRisk => (b, Raised(ReconciliationFault))
    case Approved =>
      var (b2, r) := AfterTransition(b, id, Submitted, at, PaperRecovery, None);
      if r.Raised? then (b2, r) else AfterStatus(b2, id, o, at)
    case _ => AfterStatus(b, id, o, at)
  }

  function AfterReconcile(b: Book, local: Lifecycle, o: BrokerOrder, at: int): (Book, Reply<Lifecycle>) {
    if local.id != o.clientId || local.symbol != o.symbol || local.requested != o.qty then
      (b, Raised(ReconciliationFault))
    else
      var (b1, bound) := AfterBind(b, local.id, o.id);
      if bound.Raised? then (b, Raised(bound.fault)) else PastBind(b1, local.id, o, at)
  }

  predicate SameIntent(b: Book, local: Lifecycle) {
    local.id in b.rows && b.rows[local.id].doc.symbol == local.symbol
    && b.rows[local.id].doc.requested == local.requested
  }

  lemma BindKeepsBook(b: Book, id: Name, brokerId: Name)
    requires BookInv(b)
    ensures var b' := AfterBind(b, id, brokerId).0; BookInv(b') && b'.ids == b.ids && b'.rows.Keys == b.rows.Keys
  {
  }

  lemma BindTwice(b: Book, id: Name, brokerId: Name)
    requires AfterBind(b, id, brokerId).1.Done?
    ensures var b' := AfterBind(b, id, brokerId).0; AfterBind(b', id, brokerId) == (b', Done(()))
  {
    var b' := AfterBind(b, id, brokerId).0;
    assert !TakenByOther(b', id, brokerId);
    assert b'.rows[id := b'.rows[id]] == b'.rows;
  }

  lemma BindKeeps(b: Book, id: Name, brokerId: Name)
    requires BookInv(b)
    ensures var (b', r) := AfterBind(b, id, brokerId);
            BookInv(b') && b'.ids == b.ids && b'.rows.Keys == b.rows.Keys
            && (forall k :: k in b.rows && k != id ==> b'.rows[k] == b.rows[k])
            && (id in b.rows ==> b'.rows[id] == b.rows[id].(brokerId := b'.rows[id].brokerId))
            && (r.Done? ==> b'.rows[id].brokerId == Some(brokerId) && AfterBind(b', id, brokerId) == (b', Done(())))
            && (r.Raised? ==> b' == b)
  {
    BindKeepsBook(b, id, brokerId);
    if AfterBind(b, id, brokerId).1.Done? { BindTwice(b, id, brokerId); }
  }

  /** A status step that is a transition, and what it changes. */
  lemma StatusFrame(b: Book, id: Name, o: BrokerOrder, at: int)
    requires BookInv(b) && id in b.rows && b.rows[id].doc.requested == o.qty
    ensures var (b', r) := AfterStatus(b, id, o, at);
            BookInv(b') && b'.rows.Keys == b.rows.Keys && b'.ids == b.ids
            && (forall k :: k in b.rows && k != id ==> b'.rows[k] == b.rows[k])
            && b'.rows[id].brokerId == b.rows[id].brokerId
            && |b'.rows[id].events| <= |b.rows[id].events| + 1
            && (r.Raised? ==> b' == b)
  {
    var filled, target := FilledShares(o), Target(o.status);
    if filled.Some? && target.Some? {
      TransitionKeeps(b, id, target.value, at, PaperStatus, Some(filled.value));
    }
  }

  /** Landed on the broker's state and fill, a status step changes nothing, at any time. */
  lemma LandedStays(b: Book, id: Name, o: BrokerOrder, at: int)
    requires Landed(b, id, o)
    requires b.rows[id].doc.state == Filled ==> b.rows[id].doc.filled == b.rows[id].doc.requested
    ensures AfterStatus(b, id, o, at) == (b, Done(b.rows[id].doc))
  {
    TargetSays(o.status, b.rows[id].doc.state);
    FilledSharesAre(o);
  }

  lemma StatusLands(b: Book, id: Name, o: BrokerOrder, at: int)
    requires BookInv(b) && id in b.rows && AfterStatus(b, id, o, at).1.Done?
    ensures Landed(AfterStatus(b, id, o, at).0, id, o)
  {
    FilledSharesAre(o);
    TargetSays(o.status, Target(o.status).value);
    TransitionKeeps(b, id, Target(o.status).value, at, PaperStatus, Some(FilledShares(o).value));
  }

  /** What one status step does, for any stored order that is past submission. */
  lemma StatusFacts(b: Book, id: Name, o: BrokerOrder, at: int)
    requires BookInv(b) && id in b.rows && b.rows[id].doc.requested == o.qty
    requires b.rows[id].doc.state !in {Created, PendingRisk, Approved}
    ensures var (b', r) := AfterStatus(b, id, o, at);
            BookInv(b') && b'.rows.Keys == b.rows.Keys && b'.ids == b.ids
            && (forall k :: k in b.rows && k != id ==> b'.rows[k] == b.rows[k])
            && b'.rows[id].brokerId == b.rows[id].brokerId
            && |b'.rows[id].events| <= |b.rows[id].events| + 1
            && (r.Raised? ==> b' == b)
            && (r.Done? ==> b'.rows[id].doc == r.value && Landed(b', id, o) && r.value.requested == o.qty
                            && r.value.symbol == b.rows[id].doc.symbol && AfterStatus(b', id, o, at) == (b', r))
  {
    StatusFrame(b, id, o, at);
    if AfterStatus(b, id, o, at).1.Done? {
      StatusLands(b, id, o, at);
      LandedStays(AfterStatus(b, id, o, at).0, id, o, at);
    }
  }

  /** The stored order has the broker's state and, past submission, its fill; both were readable. */
  predicate Landed(b: Book, id: Name, o: BrokerOrder) {
    id in b.rows && Readable(o) && Says(o.status, b.rows[id].doc.state)
    && (b.rows[id].doc.state != Submitted ==> o.filledQty == Some(b.rows[id].doc.filled as real))
  }

  /** The stored order's state once an approved one counts as submitted. */
  function Effective(s: State): State { if s == Approved then Submitted else s }

  /** What is left of one order's book after the bound order took a broker's status, by up to n more events. */
  ghost predicate Settled(b: Book, id: Name, o: BrokerOrder, at: int, n: nat, after: (Book, Reply<Lifecycle>))
    requires id in b.rows
  {
    var (b', r) := after;
    BookInv(b') && b'.rows.Keys == b.rows.Keys && b'.ids == b.ids
    && (forall k :: k in b.rows && k != id ==> b'.rows[k] == b.rows[k])
    && b'.rows[id].brokerId == b.rows[id].brokerId
    && b'.rows[id].doc.requested == o.qty && b'.rows[id].doc.symbol == o.symbol
    && |b'.rows[id].events| <= |b.rows[id].events| + n
    && (r.Done? ==> b'.rows[id].doc == r.value && Landed(b', id, o) && AfterStatus(b', id, o, at) == (b', r)
                    && (Says(o.status, Submitted) ==> r.value.filled == b.rows[id].doc.filled))
  }

  lemma StatusSettles(b: Book, id: Name, o: BrokerOrder, at: int)
    requires BookInv(b) && id in b.rows && b.rows[id].doc.requested == o.qty && b.rows[id].doc.symbol == o.symbol
    requires b.rows[id].doc.state !in {Created, PendingRisk, Approved}
    ensures Settled(b, id, o, at, 1, AfterStatus(b, id, o, at))
  {
    StatusFacts(b, id, o, at);
    if AfterStatus(b, id, o, at).1.Done? && Says(o.status, Submitted) { WorkingKeepsFill(b, id, o, at); }
  }

  lemma WorkingKeepsFill(b: Book, id: Name, o: BrokerOrder, at: int)
    requires id in b.rows && AfterStatus(b, id, o, at).1.Done? && Says(o.status, Submitted)
    ensures AfterStatus(b, id, o, at).1.value.filled == b.rows[id].doc.filled
  {
    TargetSays(o.status, Submitted);
  }

  lemma PastBindFacts(b: Book, id: Name, o: BrokerOrder, at: int)
    requires BookInv(b) && id in b.rows && b.rows[id].doc.requested == o.qty && b.rows[id].doc.symbol == o.symbol
    ensures Settled(b, id, o, at, 2, PastBind(b, id, o, at))
  {
    var state := b.rows[id].doc.state;
    if state == Approved {
      TransitionKeeps(b, id, Submitted, at, PaperRecovery, None);
      var (b1, r) := AfterTransition(b, id, Submitted, at, PaperRecovery, None);
      if r.Done? { StatusSettles(b1, id, o, at); }
    } else if state !in {Created, PendingRisk} {
      StatusSettles(b, id, o, at);
    }
  }

  lemma ReconcileFacts(b: Book, local: Lifecycle, o: BrokerOrder, at: int)
    requires BookInv(b) && SameIntent(b, local)
    ensures var (b', r) := AfterReconcile(b, local, o, at);
            BookInv(b') && b'.rows.Keys == b.rows.Keys && b'.ids == b.ids && SameIntent(b', local)
            && (forall k :: k in b.rows && k != local.id ==> b'.rows[k] == b.rows[k])
            && |b'.rows[local.id].events| <= |b.rows[local.id].events| + 2
            && (r.Done? ==> b'.rows[local.id].doc == r.value && b'.rows[local.id].brokerId == Some(o.id)
                            && Landed(b', local.id, o)
                            && (Says(o.status, Submitted) ==> r.value.filled == b.rows[local.id].doc.filled)
                            && AfterStatus(b', local.id, o, at) == (b', r)
                            && AfterBind(b', local.id, o.id) == (b', Done(())))
  {
    if local.id == o.clientId && local.symbol == o.symbol && local.requested == o.qty {
      BindKeeps(b, local.id, o.id);
      var (b1, bound) := AfterBind(b, local.id, o.id);
      if bound.Done? {
        PastBindFacts(b1, local.id, o, at);
        var b' := PastBind(b1, local.id, o, at).0;
        BindAgain(b1, b', local.id, o.id);
      }
    }
  }

  /** A recorded broker ID can be recorded again as long as the other orders keep theirs. */
  lemma BindAgain(b: Book, b': Book, id: Name, brokerId: Name)
    requires AfterBind(b, id, brokerId) == (b, Done(())) && id in b'.rows
    requires b'.rows.Keys == b.rows.Keys && b'.rows[id].brokerId == Some(brokerId)
    requires forall k :: k in b.rows && k != id ==> b'.rows[k] == b.rows[k]
    ensures AfterBind(b', id, brokerId) == (b', Done(()))
  {
    assert !TakenByOther(b, id, brokerId);
    assert !TakenByOther(b', id, brokerId);
    assert b'.rows[id := b'.rows[id]] == b'.rows;
  }

  /** A reconcile that returns has stored the state the broker's word reports, with the reported fill, or the old one
      for an order still at work, in at most two recorded transitions; doing it again changes nothing and returns the
      same order. */
  lemma ReconcileLandsAndIsIdempotent(b: Book, local: Lifecycle, o: BrokerOrder, at: int, again: int)
    requires BookInv(b) && SameIntent(b, local) && AfterReconcile(b, local, o, at).1.Done?
    ensures var (b', r) := AfterReconcile(b, local, o, at);
            local.id in b'.rows && b'.rows[local.id].doc == r.value && b'.rows[local.id].brokerId == Some(o.id)
            && Says(o.status, r.value.state)
            && (if r.value.state == Submitted then r.value.filled == b.rows[local.id].doc.filled
                else o.filledQty == Some(r.value.filled as real))
            && |b'.rows[local.id].events| <= |b.rows[local.id].events| + 2
            && AfterReconcile(b', local, o, again) == (b', r)
  {
    ReconcileFacts(b, local, o, at);
    LandedAgain(AfterReconcile(b, local, o, at).0, local, o, again);
  }

  lemma LandedAgain(b: Book, local: Lifecycle, o: BrokerOrder, again: int)
    requires BookInv(b) && SameIntent(b, local) && Landed(b, local.id, o)
    requires local.id == o.clientId && local.symbol == o.symbol && local.requested == o.qty
    requires AfterBind(b, local.id, o.id) == (b, Done(()))
    ensures AfterReconcile(b, local, o, again) == (b, Done(b.rows[local.id].doc))
  {
    LandedStays(b, local.id, o, again);
  }

  /** The order is at the broker and not over. */
  predicate AtBroker(s: State) { s == Submitted || s == PartiallyFilled || s == CancelPending }

  /** When the broker's status and fill are an illegal step of the stored order: a fill that falls, a partial fill that
      does not grow, or a refusal after a partial fill or a cancel request. */
  predicate IllegalStep(doc: Lifecycle, o: BrokerOrder) {
    var s := Effective(doc.state);
    Readable(o) && AtBroker(s)
    && var filled := o.filledQty.value;
       (Says(o.status, Cancelled) && filled < doc.filled as real)
       || (Says(o.status, Rejected) && (s != Submitted || filled < doc.filled as real))
       || (Says(o.status, PartiallyFilled) && !(doc.filled as real < filled < doc.requested as real)
           && !(s == PartiallyFilled && filled == doc.filled as real))
  }

  /** The broker's ID can be recorded for this order: not blank, not another one than is recorded, and no other
      order's. */
  predicate Bindable(b: Book, id: Name, brokerId: Name)
    requires id in b.rows
  {
    !IsBlank(brokerId.text) && (b.rows[id].brokerId == None || b.rows[id].brokerId == Some(brokerId))
    && forall other :: other in b.rows && other != id ==> b.rows[other].brokerId != Some(brokerId)
  }

  lemma BindsIff(b: Book, id: Name, brokerId: Name)
    requires id in b.rows
    ensures AfterBind(b, id, brokerId).1.Done? <==> Bindable(b, id, brokerId)
  {
    assert TakenByOther(b, id, brokerId)
           <==> exists other :: other in b.rows && other != id && b.rows[other].brokerId == Some(brokerId);
  }

  /** reconcile_broker_order raises ValueError exactly for a blank broker ID, or for a bindable broker order
      whose report is an illegal step: a falling fill, a partial fill that does not grow, or a rejection
      after a partial fill or a cancel request. */
  lemma WhenReconcileRaisesValueError(b: Book, local: Lifecycle, o: BrokerOrder, at: int)
    requires BookInv(b) && SameIntent(b, local)
    ensures AfterReconcile(b, local, o, at).1 == Raised(ValueFault)
            <==> (local.id == o.clientId && local.symbol == o.symbol && local.requested == o.qty
                  && (IsBlank(o.id.text)
                      || (Bindable(b, local.id, o.id) && IllegalStep(b.rows[local.id].doc, o))))
  {
    BindsIff(b, local.id, o.id);
    if local.id == o.clientId && local.symbol == o.symbol && local.requested == o.qty {
      BindKeeps(b, local.id, o.id);
      var (b1, bound) := AfterBind(b, local.id, o.id);
      if bound.Done? { PastBindRaises(b1, local.id, o, at); }
    }
  }

  /** Three of ten shares are filled, and the broker reports the order rejected. */
  const HALFWAY := Lifecycle(Name("c"), Name("p"), Name("S"), 10, PartiallyFilled, 3, [])

  const REJECTION := BrokerOrder(Name("c"), Name("S"), 10, Name("b"), Refused, Some(3.0))

  /** Such an input raises, from a ledger that holds nothing else; the broker ID stays recorded. */
  lemma RejectionAfterFillRaises(at: int)
    ensures var b := Step(Book(map[], []), Create(HALFWAY));
            var (b', r) := AfterReconcile(b, HALFWAY, REJECTION, at);
            BookInv(b) && SameIntent(b, HALFWAY) && r == Raised(ValueFault)
            && HALFWAY.id in b'.rows && b'.rows[HALFWAY.id] == OrderRow(HALFWAY, [], Some(REJECTION.id))
  {
    var b := Step(Book(map[], []), Create(HALFWAY));
    HalfwayBinds();
    assert IllegalStep(HALFWAY, REJECTION);
    BindsIff(b, HALFWAY.id, REJECTION.id);
    WhenReconcileRaisesValueError(b, HALFWAY, REJECTION, at);
    ValueErrorKeepsId(b, HALFWAY, REJECTION, at);
  }

  /** A ValueError past the recording of the broker's ID leaves it recorded, and nothing else changed. */
  lemma ValueErrorKeepsId(b: Book, local: Lifecycle, o: BrokerOrder, at: int)
    requires BookInv(b) && SameIntent(b, local) && AfterBind(b, local.id, o.id).1.Done?
    requires b.rows[local.id].doc.state != Approved && AfterReconcile(b, local, o, at).1 == Raised(ValueFault)
    ensures AfterReconcile(b, local, o, at).0 == AfterBind(b, local.id, o.id).0
  {
    BindKeeps(b, local.id, o.id);
    StatusFrame(AfterBind(b, local.id, o.id).0, local.id, o, at);
  }

  lemma HalfwayBinds()
    ensures var b := Step(Book(map[], []), Create(HALFWAY));
            var (b', r) := AfterBind(b, HALFWAY.id, REJECTION.id);
            BookInv(b) && SameIntent(b, HALFWAY) && b.rows[HALFWAY.id].doc == HALFWAY && r.Done? && BookInv(b')
            && HALFWAY.id in b'.rows && b'.rows[HALFWAY.id] == OrderRow(HALFWAY, [], Some(REJECTION.id))
  {
    var b := Step(Book(map[], []), Create(HALFWAY));
    assert !IsSpace("b"[0]);
    BindKeeps(b, HALFWAY.id, REJECTION.id);
  }

  lemma PastBindRaises(b: Book, id: Name, o: BrokerOrder, at: int)
    requires BookInv(b) && id in b.rows && b.rows[id].doc.requested == o.qty
    ensures PastBind(b, id, o, at).1 == Raised(ValueFault) <==> IllegalStep(b.rows[id].doc, o)
  {
    var doc := b.rows[id].doc;
    if doc.state == Approved {
      TransitionKeeps(b, id, Submitted, at, PaperRecovery, None);
      var b2 := AfterTransition(b, id, Submitted, at, PaperRecovery, None).0;
      StatusRaises(b2, id, o, at);
      assert IllegalStep(doc, o) <==> IllegalStep(b2.rows[id].doc, o);
    } else if doc.state !in {Created, PendingRisk} {
      StatusRaises(b, id, o, at);
    }
  }

  lemma StatusRaises(b: Book, id: Name, o: BrokerOrder, at: int)
    requires BookInv(b) && id in b.rows && b.rows[id].doc.requested == o.qty
    requires b.rows[id].doc.state !in {Created, PendingRisk, Approved}
    ensures AfterStatus(b, id, o, at).1 == Raised(ValueFault) <==> IllegalStep(b.rows[id].doc, o)
  {
    FilledSharesAre(o);
    if Target(o.status).Some? { TargetSays(o.status, Target(o.status).value); }
    assert Terminal(b.rows[id].doc.state) || AtBroker(b.rows[id].doc.state);
  }

  /** When the broker's report is where the stored order is, or one legal event beyond it: a full fill of the request, a
      partial fill that grows, an end with a fill that does not fall, a refusal before any of these, or still work. */
  predicate LegalReport(doc: Lifecycle, o: BrokerOrder) {
    var s := Effective(doc.state);
    Readable(o)
    && var filled := o.filledQty.value;
       var same := filled == doc.filled as real;
       (Says(o.status, Filled) && filled == doc.requested as real && (AtBroker(s) || s == Filled))
       || (Says(o.status, PartiallyFilled)
           && ((AtBroker(s) && doc.filled as real < filled < doc.requested as real) || (s == PartiallyFilled && same)))
       || (Says(o.status, Cancelled) && ((AtBroker(s) && doc.filled as real <= filled) || (s == Cancelled && same)))
       || (Says(o.status, Rejected) && ((s == Submitted && doc.filled as real <= filled) || (s == Rejected && same)))
       || (Says(o.status, Submitted) && s == Submitted)
  }

  /** reconcile_broker_order returns exactly for the order's own broker order under a recordable broker ID whose
      report is where the stored order is or a legal event beyond it, an approved order counting as submitted. */
  lemma WhenReconcileReturns(b: Book, local: Lifecycle, o: BrokerOrder, at: int)
    requires BookInv(b) && SameIntent(b, local)
    ensures AfterReconcile(b, local, o, at).1.Done?
            <==> (local.id == o.clientId && local.symbol == o.symbol && local.requested == o.qty
                  && Bindable(b, local.id, o.id) && LegalReport(b.rows[local.id].doc, o))
  {
    BindsIff(b, local.id, o.id);
    if local.id == o.clientId && local.symbol == o.symbol && local.requested == o.qty {
      BindKeeps(b, local.id, o.id);
      var (b1, bound) := AfterBind(b, local.id, o.id);
      if bound.Done? { PastBindReturns(b1, local.id, o, at); }
    }
  }

  lemma PastBindReturns(b: Book, id: Name, o: BrokerOrder, at: int)
    requires BookInv(b) && id in b.rows && b.rows[id].doc.requested == o.qty
    ensures PastBind(b, id, o, at).1.Done? <==> LegalReport(b.rows[id].doc, o)
  {
    var doc := b.rows[id].doc;
    if doc.state == Approved {
      TransitionKeeps(b, id, Submitted, at, PaperRecovery, None);
      var b2 := AfterTransition(b, id, Submitted, at, PaperRecovery, None).0;
      StatusReturns(b2, id, o, at);
      assert LegalReport(doc, o) <==> LegalReport(b2.rows[id].doc, o);
    } else if doc.state !in {Created, PendingRisk} {
      StatusReturns(b, id, o, at);
    }
  }

  lemma StatusReturns(b: Book, id: Name, o: BrokerOrder, at: int)
    requires BookInv(b) && id in b.rows && b.rows[id].doc.requested == o.qty
    requires b.rows[id].doc.state !in {Created, PendingRisk, Approved}
    ensures AfterStatus(b, id, o, at).1.Done? <==> LegalReport(b.rows[id].doc, o)
  {
    FilledSharesAre(o);
    if Target(o.status).Some? { TargetSays(o.status, Target(o.status).value); }
    assert Terminal(b.rows[id].doc.state) || AtBroker(b.rows[id].doc.state);
  }

  method ReconcileBrokerOrder(ledger: Ledger, local: Lifecycle, o: BrokerOrder, at: int)
    returns (r: Reply<Lifecycle>)
    modifies ledger
    ensures (ledger.State(), r) == AfterReconcile(old(ledger.State()), local, o, at)
  {
    if local.id != o.clientId || local.symbol != o.symbol || local.requested != o.qty {
      return Raised(ReconciliationFault);
    }
    var bound := ledger.RecordBrokerOrderId(local.id, o.id);
    if bound.Raised? { return Raised(bound.fault); }
    var current := ledger.rows[local.id].doc;
    if current.state in {Created, PendingRisk} { return Raised(ReconciliationFault); }
    if current.state == Approved {
      r := ledger.TransitionOrder(local.id, Submitted, at, PaperRecovery, None);
      if r.Raised? { return; }
      current := r.value;
    }
    var filled, target := FilledShares(o), Target(o.status);
    if filled.None? || target.None? { return Raised(ReconciliationFault); }
    if target == Some(Filled) && filled.value != current.requested { return Raised(ReconciliationFault); }
    if Terminal(current.state) {
      if target.value == current.state && filled.value == current.filled { return Done(current); }
      return Raised(ReconciliationFault);
    }
    if target.value == current.state && filled.value == current.filled { return Done(current); }
    if target.value == Submitted {
      if current.state == Submitted { return Done(current); }
      return Raised(ReconciliationFault);
    }
    r := ledger.TransitionOrder(local.id, target.value, at, PaperStatus, Some(filled.value));
  }
}
