/** The durable order ledger (execution/ledger.py). Each order is stored twice: as a lifecycle document
    and as event rows. A method is one immediate transaction; a raise leaves the tables as they were. */
module OrderLedger {
  import opened Texts
  import opened OrderState

  datatype Fault = ValueFault | KeyFault | ConflictFault | IntegrityFault | ReconciliationFault
  datatype Reply<+T> = Done(value: T) | Raised(fault: Fault)

  datatype OrderRow = OrderRow(doc: Lifecycle, events: seq<Event>, brokerId: Option<Name>)
  /** ids lists the orders in creation order. */
  datatype Book = Book(rows: map<Name, OrderRow>, ids: seq<Name>)

  predicate Listed(b: Book) {
    (forall i :: 0 <= i < |b.ids| ==> b.ids[i] in b.rows)
    && (forall i, j :: 0 <= i < j < |b.ids| ==> b.ids[i] != b.ids[j])
    && (forall id :: id in b.rows ==> id in b.ids)
  }

  predicate DocsValid(b: Book) {
    forall id :: id in b.rows ==> b.rows[id].doc.Valid() && b.rows[id].doc.id == id
  }

  predicate BookInv(b: Book) { Listed(b) && DocsValid(b) }

  function AfterCreate(b: Book, order: Lifecycle): (Book, Reply<Lifecycle>) {
    if order.id in b.rows then
      var stored := b.rows[order.id].doc;
      if stored.planId == order.planId && stored.symbol == order.symbol && stored.requested == order.requested
      then (b, Done(stored)) else (b, Raised(ConflictFault))
    else (Book(b.rows[order.id := OrderRow(order, [], None)], b.ids + [order.id]), Done(order))
  }

  function AfterTransition(b: Book, id: Name, next: State, at: int, provenance: Provenance, shares: Option<int>)
    : (Book, Reply<Lifecycle>)
  {
    if id !in b.rows then (b, Raised(KeyFault))
    else
      match Apply(b.rows[id].doc, next, at, provenance, shares)
      case Unmoved(_) => (b, Raised(ValueFault))
      case Moved(o) =>
        var row := OrderRow(o, b.rows[id].events + [o.events[|o.events| - 1]], b.rows[id].brokerId);
        (b.(rows := b.rows[id := row]), Done(o))
  }

  predicate TakenByOther(b: Book, id: Name, brokerId: Name) {
    exists other :: other in b.rows && other != id && b.rows[other].brokerId == Some(brokerId)
  }

  function AfterBind(b: Book, id: Name, brokerId: Name): (Book, Reply<()>) {
    if IsBlank(brokerId.text) then (b, Raised(ValueFault))
    else if id !in b.rows then (b, Raised(KeyFault))
    else if b.rows[id].brokerId.Some? && b.rows[id].brokerId.value != brokerId then (b, Raised(ConflictFault))
    else if TakenByOther(b, id, brokerId) then (b, Raised(IntegrityFault))
    else (b.(rows := b.rows[id := b.rows[id].(brokerId := Some(brokerId))]), Done(()))
  }

  datatype Op =
    | Create(order: Lifecycle)
    | Transition(id: Name, next: State, at: int, provenance: Provenance, shares: Option<int>)
    | Bind(id: Name, brokerId: Name)

  function Step(b: Book, op: Op): Book {
    match op
    case Create(order) => AfterCreate(b, order).0
    case Transition(id, next, at, provenance, shares) => AfterTransition(b, id, next, at, provenance, shares).0
    case Bind(id, brokerId) => AfterBind(b, id, brokerId).0
  }

  function Run(b: Book, ops: seq<Op>): Book
    decreases |ops|
  {
    if ops == [] then b else Step(Run(b, ops[..|ops| - 1]), ops[|ops| - 1])
  }

  /** The document is the order as first inserted with the event rows replayed on it. */
  predicate Replays(row: OrderRow, origin: Lifecycle) {
    Continues(origin, row.events) && row.doc == Replay(origin, row.events)
  }

  predicate ValidOp(op: Op) { op.Create? ==> op.order.Valid() }

  lemma TransitionKeeps(b: Book, id: Name, next: State, at: int, provenance: Provenance, shares: Option<int>)
    requires BookInv(b)
    ensures var (b', r) := AfterTransition(b, id, next, at, provenance, shares);
            BookInv(b') && b'.ids == b.ids
            && (forall k :: k in b.rows && k != id ==> k in b'.rows && b'.rows[k] == b.rows[k])
            && (r.Raised? ==> b' == b)
            && (id in b.rows ==> id in b'.rows && b'.rows[id].brokerId == b.rows[id].brokerId)
            && (r.Done? ==> id in b.rows && b'.rows[id].doc == r.value
                            && r.value.requested == b.rows[id].doc.requested
                            && r.value.symbol == b.rows[id].doc.symbol && r.value.planId == b.rows[id].doc.planId
                            && r.value.state == next && next in Allowed(b.rows[id].doc.state)
                            && |b'.rows[id].events| == |b.rows[id].events| + 1
                            && r.value.filled == (if shares.Some? then shares.value else b.rows[id].doc.filled))
  {
    if id in b.rows {
      ApplyIsRedo(b.rows[id].doc, next, at, provenance, shares);
    }
  }

  lemma CreateKeeps(b: Book, order: Lifecycle)
    requires BookInv(b) && order.Valid()
    ensures var b' := AfterCreate(b, order).0;
            BookInv(b') && order.id in b'.rows
            && (forall id :: id in b.rows ==> id in b'.rows && b'.rows[id] == b.rows[id])
            && (order.id !in b.rows ==> b'.rows[order.id] == OrderRow(order, [], None))
  {
    var b' := AfterCreate(b, order).0;
    if order.id !in b.rows {
      assert b'.ids[|b.ids|] == order.id;
    }
  }

  /** Creating an order that exists returns the stored one and changes nothing, and conflicts exactly when its plan, its
      symbol or its shares differ; a new order is stored as it is, without events. */
  lemma CreateIsIdempotent(b: Book, order: Lifecycle)
    requires BookInv(b)
    ensures var (b', r) := AfterCreate(b, order);
            if order.id in b.rows then
              var stored := b.rows[order.id].doc;
              b' == b
              && (r == Raised(ConflictFault)
                  <==> stored.planId != order.planId || stored.symbol != order.symbol
                       || stored.requested != order.requested)
              && (r.Done? ==> r.value == stored) && (r.Raised? ==> r.fault == ConflictFault)
            else r == Done(order) && b'.ids == b.ids + [order.id] && order.id in b'.rows
                 && b'.rows[order.id] == OrderRow(order, [], None)
                 && forall k :: k in b.rows ==> k in b'.rows && b'.rows[k] == b.rows[k]
  {
  }

  lemma TransitionReplays(b: Book, id: Name, next: State, at: int, provenance: Provenance, shares: Option<int>,
                          origin: Lifecycle)
    requires BookInv(b) && id in b.rows && Replays(b.rows[id], origin)
    ensures var b' := AfterTransition(b, id, next, at, provenance, shares).0;
            id in b'.rows && Replays(b'.rows[id], origin)
  {
    var doc := b.rows[id].doc;
    ApplyIsRedo(doc, next, at, provenance, shares);
    var r := Apply(doc, next, at, provenance, shares);
    if r.Moved? {
      var e := r.value.events[|doc.events|];
      assert [e][..0] == [];
      assert Follows(doc, e);
      OneMore(origin, b.rows[id].events, e);
    }
  }

  lemma StepKeepsReplay(b: Book, op: Op, id: Name, origin: Lifecycle)
    requires BookInv(b) && ValidOp(op) && id in b.rows && Replays(b.rows[id], origin)
    ensures BookInv(Step(b, op)) && id in Step(b, op).rows && Replays(Step(b, op).rows[id], origin)
  {
    match op {
      case Create(order) => CreateKeeps(b, order);
      case Transition(k, next, at, provenance, shares) =>
        TransitionKeeps(b, k, next, at, provenance, shares);
        if k == id { TransitionReplays(b, k, next, at, provenance, shares, origin); }
      case Bind(_, _) =>
    }
  }

  /** Over every run of ledger calls the two copies of an order agree: its document is always the replay of
      its event rows on the order as created. */
  lemma {:induction false} CopiesAgree(b: Book, ops: seq<Op>, id: Name, origin: Lifecycle)
    requires BookInv(b) && id in b.rows && Replays(b.rows[id], origin)
    requires forall i :: 0 <= i < |ops| ==> ValidOp(ops[i])
    ensures BookInv(Run(b, ops)) && id in Run(b, ops).rows && Replays(Run(b, ops).rows[id], origin)
    decreases |ops|
  {
    if ops != [] {
      CopiesAgree(b, ops[..|ops| - 1], id, origin);
      StepKeepsReplay(Run(b, ops[..|ops| - 1]), ops[|ops| - 1], id, origin);
    }
  }

  /** The event rows are the document's event list exactly when the order was inserted without events;
      and such an order, inserted as created and unfilled, never has more than 2 * requested + 3. */
  lemma RowsEqualDocument(b: Book, order: Lifecycle, ops: seq<Op>)
    requires BookInv(b) && order.Valid() && order.id !in b.rows
    requires forall i :: 0 <= i < |ops| ==> ValidOp(ops[i])
    ensures var b' := Run(AfterCreate(b, order).0, ops);
            order.id in b'.rows
            && var row := b'.rows[order.id];
               (row.events == row.doc.events <==> order.events == [])
               && row.doc.Valid() && order.filled <= row.doc.filled <= order.requested
               && (Terminal(order.state) ==> row.doc == order)
               && |row.events| <= Remaining(order)
               && (order.state == Created && order.filled == 0 ==> |row.events| <= 2 * order.requested + 3)
  {
    var b1 := AfterCreate(b, order).0;
    CreateKeeps(b, order);
    CopiesAgree(b1, ops, order.id, order);
    var row := Run(b1, ops).rows[order.id];
    ReplayEvents(order, row.events);
    HistoryIsFinite(order, row.events);
    if row.events == row.doc.events {
      assert |order.events + row.events| == |row.events|;
    }
  }

  predicate BrokerIdsUnique(b: Book) {
    forall i, j :: i in b.rows && j in b.rows && i != j && b.rows[i].brokerId.Some? ==>
      b.rows[i].brokerId != b.rows[j].brokerId
  }

  /** Over every run no broker ID belongs to two orders, and an order keeps the one it was given. */
  lemma {:induction false} BrokerIdsAreFinal(b: Book, ops: seq<Op>)
    requires BrokerIdsUnique(b)
    ensures var b' := Run(b, ops);
            BrokerIdsUnique(b')
            && forall id :: id in b.rows ==>
                 id in b'.rows && (b.rows[id].brokerId.Some? ==> b'.rows[id].brokerId == b.rows[id].brokerId)
    decreases |ops|
  {
    if ops != [] {
      var before := Run(b, ops[..|ops| - 1]);
      BrokerIdsAreFinal(b, ops[..|ops| - 1]);
      match ops[|ops| - 1] {
        case Bind(id, brokerId) => BindStaysUnique(before, id, brokerId);
        case _ =>
      }
    }
  }

  lemma BindStaysUnique(b: Book, id: Name, brokerId: Name)
    requires BrokerIdsUnique(b)
    ensures BrokerIdsUnique(AfterBind(b, id, brokerId).0)
  {
    assert AfterBind(b, id, brokerId).1.Done? ==> !TakenByOther(b, id, brokerId);
  }

  class Ledger {
    var rows: map<Name, OrderRow>
    var ids: seq<Name>

    constructor ()
      ensures State() == Book(map[], [])
    {
      rows, ids := map[], [];
    }

    ghost function State(): Book
      reads this
    {
      Book(rows, ids)
    }

    method CreateOrder(order: Lifecycle) returns (r: Reply<Lifecycle>)
      modifies this
      ensures (State(), r) == AfterCreate(old(State()), order)
    {
      if order.id in rows {
        var doc := rows[order.id].doc;
        if doc.planId != order.planId || doc.symbol != order.symbol || doc.requested != order.requested {
          return Raised(ConflictFault);
        }
        return Done(doc);
      }
      rows := rows[order.id := OrderRow(order, [], None)];
      ids := ids + [order.id];
      return Done(order);
    }

    method TransitionOrder(id: Name, next: State, at: int, provenance: Provenance, shares: Option<int>)
      returns (r: Reply<Lifecycle>)
      modifies this
      ensures (State(), r) == AfterTransition(old(State()), id, next, at, provenance, shares)
    {
      if id !in rows { return Raised(KeyFault); }
      var row := rows[id];
      var updated := Apply(row.doc, next, at, provenance, shares);
      if updated.Unmoved? { return Raised(ValueFault); }
      var event := updated.value.events[|updated.value.events| - 1];
      rows := rows[id := OrderRow(updated.value, row.events + [event], row.brokerId)];
      return Done(updated.value);
    }

    method RecordBrokerOrderId(id: Name, brokerId: Name) returns (r: Reply<()>)
      modifies this
      ensures (State(), r) == AfterBind(old(State()), id, brokerId)
    {
      if IsBlank(brokerId.text) { return Raised(ValueFault); }
      if id !in rows { return Raised(KeyFault); }
      if rows[id].brokerId.Some? && rows[id].brokerId.value != brokerId { return Raised(ConflictFault); }
      if exists other :: other in rows && other != id && rows[other].brokerId == Some(brokerId) {
        assert TakenByOther(State(), id, brokerId);
        return Raised(IntegrityFault);
      }
      rows := rows[id := rows[id].(brokerId := Some(brokerId))];
      return Done(());
    }
  }
}
