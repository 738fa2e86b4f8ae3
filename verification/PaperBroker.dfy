/** The paper broker (execution/ibkr_paper_broker.py): bracket groups behind a durable row per order.
    The order reference is the hash of the client order ID, taken as injective, so the ID stands for it. */
module PaperBroker {
  import opened Texts

  datatype Stored = Stored(fingerprint: string, symbol: string, quantity: int, status: string,
                           brokerOrderId: Option<int>)
  datatype Group = Group(root: string, children: seq<string>, fingerprint: string, symbol: string, quantity: int)
  datatype Submission = Submission(status: string, orderId: int)

  datatype Preflight = Clear | Warned | PreflightRejected | PreflightRuntimeError | PreflightError
  datatype GroupReply = Submissions(orders: seq<Submission>) | Rejected | RuntimeFault | Fault
  /** Where the process dies, if it does: with the root and this many children committed, after the transport took
      the group, or with this many status updates committed. */
  datatype Crash = NoCrash | AfterRows(children: nat) | AfterTransport | AfterUpdates(updates: nat)
  datatype Env = Env(found: Option<Submission>, preflight: Preflight, reply: GroupReply, crash: Crash)

  /** What a call returns or raises; Crashed stands for a process that died. */
  datatype Outcome =
    | Receipt(brokerOrderId: int, status: string)
    | IdentityConflict | RecoveryRequired | OrderRejected | WhatIfBlocked | TransportRaised | Crashed

  /** groups: the client order IDs of each group handed to the transport. */
  datatype Book = Book(rows: map<string, Stored>, groups: seq<seq<string>>)

  function PaperStatus(status: string): string {
    if status in {"submitted", "presubmitted", "pendingsubmit"} then "accepted"
    else if status == "inactive" then "rejected"
    else if status == "" then "unknown"
    else status
  }

  predicate SameIdentity(row: Stored, g: Group) {
    row.fingerprint == g.fingerprint && row.symbol == g.symbol && row.quantity == g.quantity
  }

  function NewStored(g: Group): Stored { Stored(g.fingerprint, g.symbol, g.quantity, "submitting", None) }

  function Ids(g: Group): seq<string> { [g.root] + g.children }

  function Placed(row: Stored, s: Submission): Stored {
    row.(status := PaperStatus(s.status), brokerOrderId := Some(s.orderId))
  }

  datatype Creation = AllCreated | Clash(same: bool) | Died

  /** Children are created in order, one transaction each; an ID that exists already stops the loop, and so does
      the process's death after a number of them. */
  function WithChildren(rows: map<string, Stored>, children: seq<string>, g: Group, crash: Crash)
      : (map<string, Stored>, Creation)
    decreases |children|
  {
    if crash == AfterRows(0) then (rows, Died)
    else if children == [] then (rows, AllCreated)
    else if children[0] in rows then
      (rows, Clash(SameIdentity(rows[children[0]], g)))
    else
      WithChildren(rows[children[0] := NewStored(g)], children[1..], g,
                   if crash.AfterRows? then AfterRows(crash.children - 1) else crash)
  }

  function Marked(rows: map<string, Stored>, ids: seq<string>, status: string): map<string, Stored> {
    map id | id in rows :: if id in ids then rows[id].(status := status) else rows[id]
  }

  function PlacedAll(rows: map<string, Stored>, ids: seq<string>, orders: seq<Submission>): map<string, Stored>
    requires |ids| == |orders|
    decreases |ids|
  {
    if ids == [] then rows
    else
      var rest := PlacedAll(rows, ids[..|ids| - 1], orders[..|orders| - 1]);
      var id := ids[|ids| - 1];
      if id in rest then rest[id := Placed(rest[id], orders[|orders| - 1])] else rest
  }

  function ReceiptOf(row: Stored): Outcome {
    if row.brokerOrderId.None? then RecoveryRequired
    else Receipt(row.brokerOrderId.value, PaperStatus(row.status))
  }

  function Recovered(b: Book, root: string, found: Option<Submission>): (Book, Outcome)
    requires root in b.rows
  {
    var row := b.rows[root];
    var unsettled := row.status == "submitting" || row.status == "unknown";
    if unsettled && found.None? then (b, RecoveryRequired)
    else
      var row1 := if unsettled then Placed(row, found.value) else row;
      (b.(rows := b.rows[root := row1]), if row1.status == "rejected" then OrderRejected else ReceiptOf(row1))
  }

  /** How many of n status updates are committed. */
  function Updates(e: Env, n: nat): (k: nat)
    ensures k <= n
  {
    if e.crash.AfterUpdates? && e.crash.updates < n then e.crash.updates else n
  }

  /** The rows marked one after another, and the outcome unless the process dies on the way. */
  function Settled(b: Book, ids: seq<string>, status: string, outcome: Outcome, e: Env): (Book, Outcome) {
    var k := Updates(e, |ids|);
    (b.(rows := Marked(b.rows, ids[..k], status)), if k < |ids| then Crashed else outcome)
  }

  /** From the committed rows on: the preflight, the transport call, the rows settled. */
  function Transported(b: Book, g: Group, e: Env): (Book, Outcome)
    requires g.root in b.rows
  {
    match e.preflight
    case PreflightRuntimeError => Settled(b, Ids(g), "unknown", TransportRaised, e)
    case PreflightError => Settled(b, Ids(g), "unknown", RecoveryRequired, e)
    case PreflightRejected => Settled(b, Ids(g), "rejected", OrderRejected, e)
    case Warned => Settled(b, Ids(g), "rejected", WhatIfBlocked, e)
    case Clear =>
      var b1 := b.(groups := b.groups + [Ids(g)]);
      if e.crash.AfterTransport? then (b1, Crashed) else Answered(b1, g, e)
  }

  /** What the transport's answer makes of the rows. */
  function Answered(b: Book, g: Group, e: Env): (Book, Outcome)
    requires g.root in b.rows
  {
    var ids := Ids(g);
    match e.reply
    case Rejected => Settled(b, ids, "rejected", OrderRejected, e)
    case RuntimeFault => Settled(b, ids, "unknown", TransportRaised, e)
    case Fault => Settled(b, ids, "unknown", RecoveryRequired, e)
    case Submissions(orders) =>
      if |orders| != |ids| then Settled(b, [g.root], "unknown", RecoveryRequired, e)
      else
        var k := Updates(e, |ids|);
        (b.(rows := PlacedAll(b.rows, ids[..k], orders[..k])),
         if k < |ids| then Crashed else ReceiptOf(Placed(b.rows[g.root], orders[0])))
  }

  function Submitted(b: Book, g: Group, e: Env): (Book, Outcome) {
    if g.root in b.rows then
      if SameIdentity(b.rows[g.root], g) then Recovered(b, g.root, e.found) else (b, IdentityConflict)
    else
      var (rows, creation) := WithChildren(b.rows[g.root := NewStored(g)], g.children, g, e.crash);
      WithChildrenKeeps(b.rows[g.root := NewStored(g)], g.children, g, e.crash);
      match creation
      case Died => (b.(rows := rows), Crashed)
      case Clash(same) => (b.(rows := rows), if same then RecoveryRequired else IdentityConflict)
      case AllCreated => Transported(b.(rows := rows), g, e)
  }

  lemma {:induction false} WithChildrenKeeps(rows: map<string, Stored>, children: seq<string>, g: Group, crash: Crash)
    ensures var (r, creation) := WithChildren(rows, children, g, crash);
            rows.Keys <= r.Keys
            && (creation.AllCreated? ==>
                  (forall i :: 0 <= i < |children| ==> children[i] in r && children[i] !in rows)
                  && (forall i, j :: 0 <= i < j < |children| ==> children[i] != children[j])
                  && (crash.AfterRows? ==> crash.children > |children|))
    decreases |children|
  {
    if children != [] && children[0] !in rows && crash != AfterRows(0) {
      var next := if crash.AfterRows? then AfterRows(crash.children - 1) else crash;
      WithChildrenKeeps(rows[children[0] := NewStored(g)], children[1..], g, next);
      assert forall i :: 1 <= i < |children| ==> children[i] == children[1..][i - 1];
    }
  }

  // ---- safety ----

  /** Every order of every group has its row, and no order is in two groups or twice in one. */
  predicate BookInv(b: Book) {
    (forall k, i :: 0 <= k < |b.groups| && 0 <= i < |b.groups[k]| ==> b.groups[k][i] in b.rows)
    && (forall k, i, j :: 0 <= k < |b.groups| && 0 <= i < j < |b.groups[k]| ==> b.groups[k][i] != b.groups[k][j])
    && (forall k, l, i, j :: 0 <= k < l < |b.groups| && 0 <= i < |b.groups[k]| && 0 <= j < |b.groups[l]| ==>
          b.groups[k][i] != b.groups[l][j])
  }

  lemma {:induction false} PlacedAllKeys(rows: map<string, Stored>, ids: seq<string>, orders: seq<Submission>)
    requires |ids| == |orders|
    ensures PlacedAll(rows, ids, orders).Keys == rows.Keys
    decreases |ids|
  {
    if ids != [] { PlacedAllKeys(rows, ids[..|ids| - 1], orders[..|orders| - 1]); }
  }

  lemma AnswerShape(b: Book, g: Group, e: Env)
    requires g.root in b.rows
    ensures Answered(b, g, e).0.rows.Keys == b.rows.Keys && Answered(b, g, e).0.groups == b.groups
  {
    if e.reply.Submissions? && |e.reply.orders| == |Ids(g)| {
      var k := Updates(e, |Ids(g)|);
      PlacedAllKeys(b.rows, Ids(g)[..k], e.reply.orders[..k]);
    }
  }

  /** Whatever the transport answers, the rows' keys stay and at most the group is added. */
  lemma TransportShape(b: Book, g: Group, e: Env)
    requires g.root in b.rows
    ensures var b' := Transported(b, g, e).0;
            b'.rows.Keys == b.rows.Keys
            && b'.groups == if e.preflight.Clear? then b.groups + [Ids(g)] else b.groups
  {
    if e.preflight.Clear? { AnswerShape(b.(groups := b.groups + [Ids(g)]), g, e); }
  }

  lemma SameKeysSameInv(b: Book, b': Book)
    requires BookInv(b) && b'.groups == b.groups && b'.rows.Keys == b.rows.Keys
    ensures BookInv(b')
  {
  }

  lemma TransportKeepsBook(b: Book, g: Group, e: Env, before: set<string>)
    requires BookInv(b) && g.root in b.rows
    requires forall k, i :: 0 <= k < |b.groups| && 0 <= i < |b.groups[k]| ==> b.groups[k][i] in before
    requires forall i :: 0 <= i < |Ids(g)| ==> Ids(g)[i] in b.rows && Ids(g)[i] !in before
    requires forall i, j :: 0 <= i < j < |Ids(g)| ==> Ids(g)[i] != Ids(g)[j]
    ensures var b' := Transported(b, g, e).0;
            BookInv(b') && b'.rows.Keys == b.rows.Keys
            && (b'.groups == b.groups || b'.groups == b.groups + [Ids(g)])
  {
    TransportShape(b, g, e);
    GroupFits(b, before, Ids(g));
    var b' := Transported(b, g, e).0;
    if b'.groups == b.groups { SameKeysSameInv(b, b'); } else { SameKeysSameInv(b.(groups := b'.groups), b'); }
  }

  /** A call under a new root ID. */
  lemma NewGroupKeepsBook(b: Book, g: Group, e: Env)
    requires BookInv(b) && g.root !in b.rows
    ensures var b' := Submitted(b, g, e).0;
            BookInv(b') && b.rows.Keys <= b'.rows.Keys
            && (b'.groups == b.groups
                || (b'.groups == b.groups + [Ids(g)] && forall i :: 0 <= i < |g.children| ==> g.children[i] !in b.rows))
  {
    var rows0 := b.rows[g.root := NewStored(g)];
    WithChildrenKeeps(rows0, g.children, g, e.crash);
    var (rows, creation) := WithChildren(rows0, g.children, g, e.crash);
    if creation.AllCreated? { TransportKeepsBook(b.(rows := rows), g, e, b.rows.Keys); }
  }

  /** A call reaches the transport only for orders none of which had a row before it, and at most once. */
  lemma SubmitKeepsBook(b: Book, g: Group, e: Env)
    requires BookInv(b)
    ensures var b' := Submitted(b, g, e).0;
            BookInv(b') && b.rows.Keys <= b'.rows.Keys
            && (b'.groups == b.groups
                || (b'.groups == b.groups + [Ids(g)] && g.root !in b.rows
                    && forall i :: 0 <= i < |g.children| ==> g.children[i] !in b.rows))
  {
    if g.root in b.rows { SameKeysSameInv(b, Submitted(b, g, e).0); } else { NewGroupKeepsBook(b, g, e); }
  }

  /** Only an accepted preflight without a warning lets a group out, and by then every order has its row. */
  lemma GroupNeedsClearPreflight(b: Book, g: Group, e: Env)
    requires Submitted(b, g, e).0.groups != b.groups
    ensures e.preflight.Clear? && (e.crash.AfterRows? ==> e.crash.children > |g.children|)
    ensures var before := Submitted(b, g, e.(crash := AfterRows(|g.children|)));
            before.1 == Crashed && before.0.groups == b.groups
            && forall i :: 0 <= i < |Ids(g)| ==> Ids(g)[i] in before.0.rows
  {
    var rows0 := b.rows[g.root := NewStored(g)];
    WithChildrenKeeps(rows0, g.children, g, e.crash);
    var (rows, creation) := WithChildren(rows0, g.children, g, e.crash);
    if creation.AllCreated? {
      TransportShape(b.(rows := rows), g, e);
      DiesAfterAll(rows0, g.children, g, e.crash);
    }
  }

  /** A death with all children committed leaves the rows a creation in full does. */
  lemma {:induction false} DiesAfterAll(rows: map<string, Stored>, children: seq<string>, g: Group, crash: Crash)
    requires WithChildren(rows, children, g, crash).1.AllCreated?
    ensures WithChildren(rows, children, g, AfterRows(|children|)) == (WithChildren(rows, children, g, crash).0, Died)
    decreases |children|
  {
    if children != [] {
      var next := if crash.AfterRows? then AfterRows(crash.children - 1) else crash;
      DiesAfterAll(rows[children[0] := NewStored(g)], children[1..], g, next);
    }
  }

  /** A root ID that already has a row never reaches the transport: another request under it is an identity
      conflict and changes nothing, the same request can only settle the row's status and broker ID. */
  lemma RepeatOnlySettlesItsRow(b: Book, g: Group, e: Env)
    requires g.root in b.rows
    ensures var (b', r) := Submitted(b, g, e);
            b'.groups == b.groups && b'.rows.Keys == b.rows.Keys
            && (r == IdentityConflict <==> !SameIdentity(b.rows[g.root], g))
            && (r == IdentityConflict ==> b' == b)
            && (forall id :: id in b.rows && id != g.root ==> b'.rows[id] == b.rows[id])
            && SameIdentity(b'.rows[g.root], g) == SameIdentity(b.rows[g.root], g)
            && (b.rows[g.root].status !in {"submitting", "unknown"} ==> b'.rows[g.root] == b.rows[g.root])
  {
  }

  lemma GroupFits(b: Book, before: set<string>, ids: seq<string>)
    requires BookInv(b)
    requires forall k, i :: 0 <= k < |b.groups| && 0 <= i < |b.groups[k]| ==> b.groups[k][i] in before
    requires forall i :: 0 <= i < |ids| ==> ids[i] in b.rows && ids[i] !in before
    requires forall i, j :: 0 <= i < j < |ids| ==> ids[i] != ids[j]
    ensures BookInv(b.(groups := b.groups + [ids]))
  {}

  datatype Call = Call(group: Group, env: Env)

  function Calls(b: Book, calls: seq<Call>): Book
    decreases |calls|
  {
    if calls == [] then b
    else Submitted(Calls(b, calls[..|calls| - 1]), calls[|calls| - 1].group, calls[|calls| - 1].env).0
  }

  /** Over every run of calls, crashes included, a root client ID reaches submit_order_group at most once. */
  lemma {:induction false} AtMostOneGroup(b: Book, calls: seq<Call>)
    requires BookInv(b)
    ensures var b' := Calls(b, calls);
            BookInv(b')
            && forall k, l :: 0 <= k < l < |b'.groups| && b'.groups[k] != [] && b'.groups[l] != [] ==>
                 b'.groups[k][0] != b'.groups[l][0]
    decreases |calls|
  {
    if calls != [] {
      AtMostOneGroup(b, calls[..|calls| - 1]);
      SubmitKeepsBook(Calls(b, calls[..|calls| - 1]), calls[|calls| - 1].group, calls[|calls| - 1].env);
    }
  }

  /** A repeated request is answered from its row: the same broker order, nothing sent, nothing changed. */
  lemma ReplayReturnsReceipt(b: Book, g: Group, e: Env, again: Env)
    requires g.root !in b.rows && Submitted(b, g, e).1.Receipt?
    requires Submitted(b, g, e).1.status !in {"submitting", "unknown", "rejected"}
    ensures Submitted(Submitted(b, g, e).0, g, again) == Submitted(b, g, e)
  {
    var rows0 := b.rows[g.root := NewStored(g)];
    WithChildrenKeeps(rows0, g.children, g, e.crash);
    RootKept(rows0, g.children, g, e.crash);
    var rows := WithChildren(rows0, g.children, g, e.crash).0;
    PlacedRoot(rows, g, e.reply.orders, |g.children|);
    assert Ids(g)[..|g.children| + 1] == Ids(g) && e.reply.orders[..|g.children| + 1] == e.reply.orders;
    var b' := Submitted(b, g, e).0;
    assert b'.rows[g.root] == Placed(NewStored(g), e.reply.orders[0]);
    assert b'.rows[g.root := b'.rows[g.root]] == b'.rows;
  }

  lemma {:induction false} RootKept(rows: map<string, Stored>, children: seq<string>, g: Group, crash: Crash)
    requires g.root in rows
    ensures g.root in WithChildren(rows, children, g, crash).0
    ensures WithChildren(rows, children, g, crash).0[g.root] == rows[g.root]
    decreases |children|
  {
    if children != [] && children[0] !in rows && crash != AfterRows(0) {
      var next := if crash.AfterRows? then AfterRows(crash.children - 1) else crash;
      RootKept(rows[children[0] := NewStored(g)], children[1..], g, next);
    }
  }

  lemma {:induction false} PlacedRoot(rows: map<string, Stored>, g: Group, orders: seq<Submission>, n: nat)
    requires g.root in rows && g.root !in g.children && |orders| == |g.children| + 1 && n <= |g.children|
    ensures PlacedAll(rows, Ids(g)[..n + 1], orders[..n + 1]).Keys == rows.Keys
    ensures PlacedAll(rows, Ids(g)[..n + 1], orders[..n + 1])[g.root] == Placed(rows[g.root], orders[0])
  {
    var ids, os := Ids(g)[..n + 1], orders[..n + 1];
    PlacedAllKeys(rows, ids, os);
    if n == 0 {
      assert ids[..0] == [] && os[..0] == [];
    } else {
      assert ids[..n] == Ids(g)[..n] && os[..n] == orders[..n];
      PlacedRoot(rows, g, orders, n - 1);
      assert ids[n] == g.children[n - 1];
    }
  }

  // ---- the broker object ----

  /** The socket: every group handed to it. */
  class Transport {
    var groups: seq<seq<string>>

    method SubmitOrderGroup(ids: seq<string>)
      modifies this
      ensures groups == old(groups) + [ids]
    {
      groups := groups + [ids];
    }
  }

  class PaperDesk {
    var rows: map<string, Stored>
    const transport: Transport

    constructor (transport: Transport)
      ensures rows == map[] && this.transport == transport
    {
      rows, this.transport := map[], transport;
    }

    ghost function State(): Book
      reads this, transport
    {
      Book(rows, transport.groups)
    }

    method Ensure(id: string, g: Group) returns (created: bool, same: bool)
      modifies this
      ensures created == (id !in old(rows)) && same == (created || SameIdentity(old(rows)[id], g))
      ensures rows == if created then old(rows)[id := NewStored(g)] else old(rows)
    {
      created := id !in rows;
      if created {
        rows := rows[id := NewStored(g)];
      }
      same := SameIdentity(rows[id], g);
    }

    method UpdateStatus(ids: seq<string>, status: string)
      modifies this
      ensures rows == Marked(old(rows), ids, status)
    {
      assert Marked(rows, ids[..0], status) == rows;
      for i := 0 to |ids|
        invariant rows == Marked(old(rows), ids[..i], status)
      {
        assert forall id :: id in ids[..i + 1] <==> id in ids[..i] || id == ids[i];
        if ids[i] in rows {
          rows := rows[ids[i] := rows[ids[i]].(status := status)];
        }
      }
      assert ids[..|ids|] == ids;
    }

    method StoreSubmissions(ids: seq<string>, orders: seq<Submission>)
      requires |ids| == |orders|
      modifies this
      ensures rows == PlacedAll(old(rows), ids, orders)
    {
      for i := 0 to |ids|
        invariant rows == PlacedAll(old(rows), ids[..i], orders[..i])
      {
        assert ids[..i + 1][..i] == ids[..i] && orders[..i + 1][..i] == orders[..i];
        if ids[i] in rows {
          rows := rows[ids[i] := Placed(rows[ids[i]], orders[i])];
        }
      }
      assert ids[..|ids|] == ids && orders[..|ids|] == orders;
    }

    method RecoverOrReturn(root: string, found: Option<Submission>) returns (r: Outcome)
      requires root in rows
      modifies this
      ensures (State(), r) == Recovered(old(State()), root, found)
    {
      var row := rows[root];
      if row.status == "submitting" || row.status == "unknown" {
        if found.None? { return RecoveryRequired; }
        row := Placed(row, found.value);
      }
      assert rows[root := rows[root]] == rows;
      rows := rows[root := row];
      r := if row.status == "rejected" then OrderRejected else ReceiptOf(row);
    }

    /** Marks rows one by one; the process may die on the way. */
    method Settle(ids: seq<string>, status: string, outcome: Outcome, e: Env) returns (r: Outcome)
      modifies this
      ensures (State(), r) == Settled(old(State()), ids, status, outcome, e)
    {
      var k := Updates(e, |ids|);
      UpdateStatus(ids[..k], status);
      r := if k < |ids| then Crashed else outcome;
    }

    method CallTransport(g: Group, e: Env) returns (r: Outcome)
      requires g.root in rows
      modifies this, transport
      ensures (State(), r) == Transported(old(State()), g, e)
    {
      var ids := Ids(g);
      match e.preflight {
        case PreflightRuntimeError => r := Settle(ids, "unknown", TransportRaised, e); return;
        case PreflightError => r := Settle(ids, "unknown", RecoveryRequired, e); return;
        case PreflightRejected => r := Settle(ids, "rejected", OrderRejected, e); return;
        case Warned => r := Settle(ids, "rejected", WhatIfBlocked, e); return;
        case Clear =>
      }
      transport.SubmitOrderGroup(ids);
      if e.crash.AfterTransport? { return Crashed; }
      r := StoreAnswer(g, e);
    }

    method StoreAnswer(g: Group, e: Env) returns (r: Outcome)
      requires g.root in rows
      modifies this
      ensures (State(), r) == Answered(old(State()), g, e)
    {
      var ids := Ids(g);
      match e.reply {
        case Rejected => r := Settle(ids, "rejected", OrderRejected, e);
        case RuntimeFault => r := Settle(ids, "unknown", TransportRaised, e);
        case Fault => r := Settle(ids, "unknown", RecoveryRequired, e);
        case Submissions(orders) =>
          if |orders| != |ids| {
            r := Settle([g.root], "unknown", RecoveryRequired, e);
            return;
          }
          var k := Updates(e, |ids|);
          r := if k < |ids| then Crashed else ReceiptOf(Placed(rows[g.root], orders[0]));
          StoreSubmissions(ids[..k], orders[..k]);
      }
    }

    method SubmitGroup(g: Group, e: Env) returns (r: Outcome)
      modifies this, transport
      ensures (State(), r) == Submitted(old(State()), g, e)
    {
      var created, same := Ensure(g.root, g);
      if !same { return IdentityConflict; }
      if !created {
        r := RecoverOrReturn(g.root, e.found);
        return;
      }
      WithChildrenKeeps(rows, g.children, g, e.crash);
      var creation := CreateChildren(g, e.crash);
      match creation {
        case Died => return Crashed;
        case Clash(same) => return if same then RecoveryRequired else IdentityConflict;
        case AllCreated => r := CallTransport(g, e);
      }
    }

    method CreateChildren(g: Group, crash: Crash) returns (creation: Creation)
      requires g.root in rows
      modifies this
      ensures (rows, creation) == WithChildren(old(rows), g.children, g, crash)
    {
      ghost var rows0 := rows;
      var left := crash;
      for i := 0 to |g.children|
        invariant WithChildren(rows, g.children[i..], g, left) == WithChildren(rows0, g.children, g, crash)
      {
        if left == AfterRows(0) { return Died; }
        var created, same := Ensure(g.children[i], g);
        if !created { return Clash(same); }
        if left.AfterRows? { left := AfterRows(left.children - 1); }
        assert g.children[i..][1..] == g.children[i + 1..];
      }
      creation := if left == AfterRows(0) then Died else AllCreated;
    }
  }
}
