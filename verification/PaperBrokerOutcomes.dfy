/** What a call to the paper broker leaves and answers (execution/ibkr_paper_broker.py), in every case: a repeated
    request, a group that clashes, and a new group, cut off anywhere. */
module PaperBrokerOutcomes {
  import opened Texts
  import opened PaperBroker

  // ---- statuses ----

  /** Three words of the broker mean an accepted order, one a rejected one, no word an unknown one; any other stands, and
      reading a status again changes nothing. */
  lemma StatusReads(status: string)
    ensures status in {"submitted", "presubmitted", "pendingsubmit"} ==> PaperStatus(status) == "accepted"
    ensures status == "inactive" ==> PaperStatus(status) == "rejected"
    ensures status == "" ==> PaperStatus(status) == "unknown"
    ensures status !in {"submitted", "presubmitted", "pendingsubmit", "inactive", ""} ==> PaperStatus(status) == status
    ensures PaperStatus(PaperStatus(status)) == PaperStatus(status)
  {
  }

  /** The row is another request's. */
  predicate Differs(row: Stored, g: Group) {
    row.fingerprint != g.fingerprint || row.symbol != g.symbol || row.quantity != g.quantity
  }

  // ---- a root ID that is known ----

  predicate Unsettled(row: Stored) { row.status == "submitting" || row.status == "unknown" }

  /** The row after the broker was asked for an order that is not settled. */
  function Asked(row: Stored, found: Option<Submission>): Stored {
    if Unsettled(row) && found.Some?
    then row.(status := PaperStatus(found.value.status), brokerOrderId := Some(found.value.orderId))
    else row
  }

  /** A repeated request changes nothing but its own unsettled row, to what the broker says of its order. It answers with
      the row's receipt, unless that is another request's, still unsettled with no answer, rejected, or without an ID. */
  lemma RepeatAnswers(b: Book, g: Group, e: Env)
    requires g.root in b.rows
    ensures var (b', r) := Submitted(b, g, e);
            var row := b.rows[g.root];
            var after := Asked(row, e.found);
            if Differs(row, g) then b' == b && r == IdentityConflict
            else b' == b.(rows := b.rows[g.root := after])
                 && r == if Unsettled(row) && e.found.None? then RecoveryRequired
                         else if after.status == "rejected" then OrderRejected
                         else if after.brokerOrderId.None? then RecoveryRequired
                         else Receipt(after.brokerOrderId.value, PaperStatus(after.status))
  {
    assert b.rows[g.root := b.rows[g.root]] == b.rows;
  }

  // ---- the rows of a new group ----

  predicate Distinct(ids: seq<string>) { forall i, j :: 0 <= i < j < |ids| ==> ids[i] != ids[j] }

  /** None of the IDs has a row, and none comes twice. */
  predicate Fresh(rows: map<string, Stored>, ids: seq<string>) {
    Distinct(ids) && forall i :: 0 <= i < |ids| ==> ids[i] !in rows
  }

  /** The rows with a new one for each of these IDs. */
  function Added(rows: map<string, Stored>, ids: seq<string>, g: Group): map<string, Stored> {
    map id | id in rows.Keys + (set i | i in ids) :: if id in rows then rows[id] else NewStored(g)
  }

  /** The process lives until this many children have their rows. */
  predicate Lives(crash: Crash, n: nat) { crash.AfterRows? ==> crash.children >= n }

  function Left(crash: Crash, n: nat): Crash
    requires Lives(crash, n)
  {
    if crash.AfterRows? then AfterRows(crash.children - n) else crash
  }

  lemma AddedFirst(rows: map<string, Stored>, ids: seq<string>, g: Group)
    requires ids != [] && ids[0] !in rows
    ensures Added(rows[ids[0] := NewStored(g)], ids[1..], g) == Added(rows, ids, g)
  {
    var a, b := Added(rows[ids[0] := NewStored(g)], ids[1..], g), Added(rows, ids, g);
    assert ids == [ids[0]] + ids[1..];
    assert forall id :: id in ids <==> id == ids[0] || id in ids[1..];
    assert a.Keys == b.Keys;
  }

  /** Fresh children get their rows one after another. */
  lemma {:induction false} ChildrenAdded(rows: map<string, Stored>, children: seq<string>, g: Group, crash: Crash, n: nat)
    requires n <= |children| && Fresh(rows, children[..n]) && Lives(crash, n)
    ensures WithChildren(rows, children, g, crash)
         == WithChildren(Added(rows, children[..n], g), children[n..], g, Left(crash, n))
    decreases n
  {
    if n == 0 {
      assert Added(rows, children[..0], g) == rows;
      assert children[0..] == children;
    } else {
      var next, ids := rows[children[0] := NewStored(g)], children[..n];
      assert children[0] == ids[0] && children[1..][..n - 1] == ids[1..];
      RestIsFresh(rows, ids, g);
      ChildrenAdded(next, children[1..], g, Left(crash, 1), n - 1);
      AddedFirst(rows, ids, g);
      assert children[1..][n - 1..] == children[n..];
      OneChild(rows, children, g, crash);
    }
  }

  lemma OneChild(rows: map<string, Stored>, children: seq<string>, g: Group, crash: Crash)
    requires children != [] && children[0] !in rows && Lives(crash, 1)
    ensures WithChildren(rows, children, g, crash)
         == WithChildren(rows[children[0] := NewStored(g)], children[1..], g, Left(crash, 1))
  {
  }

  lemma RestIsFresh(rows: map<string, Stored>, ids: seq<string>, g: Group)
    requires ids != [] && Fresh(rows, ids)
    ensures Fresh(rows[ids[0] := NewStored(g)], ids[1..])
  {
    assert forall i :: 0 <= i < |ids[1..]| ==> ids[1..][i] == ids[i + 1];
  }

  /** The rows once the root's and those of the first n children are committed. */
  function Begun(b: Book, g: Group, n: nat): map<string, Stored>
    requires n <= |g.children|
  {
    Added(b.rows, [g.root] + g.children[..n], g)
  }

  lemma BegunIs(b: Book, g: Group, n: nat)
    requires n <= |g.children| && Fresh(b.rows, [g.root] + g.children[..n])
    ensures Begun(b, g, n) == Added(b.rows[g.root := NewStored(g)], g.children[..n], g)
    ensures Fresh(b.rows[g.root := NewStored(g)], g.children[..n])
  {
    var ids := [g.root] + g.children[..n];
    assert ids[1..] == g.children[..n];
    AddedFirst(b.rows, ids, g);
    assert forall i :: 0 <= i < n ==> g.children[..n][i] == ids[i + 1];
  }

  lemma BegunFirst(b: Book, g: Group, e: Env, n: nat)
    requires n <= |g.children| && Fresh(b.rows, [g.root] + g.children[..n]) && Lives(e.crash, n)
    ensures WithChildren(b.rows[g.root := NewStored(g)], g.children, g, e.crash)
         == WithChildren(Begun(b, g, n), g.children[n..], g, Left(e.crash, n))
  {
    BegunIs(b, g, n);
    ChildrenAdded(b.rows[g.root := NewStored(g)], g.children, g, e.crash, n);
  }

  /** A process that dies after n children leaves exactly their rows, and sends nothing. */
  lemma DiesBetweenRows(b: Book, g: Group, e: Env, n: nat)
    requires n <= |g.children| && Fresh(b.rows, [g.root] + g.children[..n]) && e.crash == AfterRows(n)
    ensures Submitted(b, g, e) == (Book(Begun(b, g, n), b.groups), Crashed)
  {
    assert ([g.root] + g.children[..n])[0] == g.root;
    BegunFirst(b, g, e, n);
  }

  /** A child that is known, or named before in the group, ends the call with the earlier rows in place and nothing sent:
      as a conflict exactly when its row is another request's. */
  lemma ClashStops(b: Book, g: Group, e: Env, n: nat)
    requires n < |g.children| && Fresh(b.rows, [g.root] + g.children[..n]) && Lives(e.crash, n + 1)
    requires g.children[n] in b.rows || g.children[n] == g.root || g.children[n] in g.children[..n]
    ensures Submitted(b, g, e).0 == Book(Begun(b, g, n), b.groups)
    ensures Submitted(b, g, e).1
         == if g.children[n] in b.rows && Differs(b.rows[g.children[n]], g) then IdentityConflict else RecoveryRequired
  {
    assert ([g.root] + g.children[..n])[0] == g.root;
    BegunFirst(b, g, e, n);
    assert g.children[n..][0] == g.children[n];
    assert g.children[n] in Begun(b, g, n);
  }

  // ---- a new group that gets all its rows ----

  predicate AllNew(b: Book, g: Group, e: Env) { Fresh(b.rows, Ids(g)) && Lives(e.crash, |g.children| + 1) }

  lemma AllBegun(b: Book, g: Group, e: Env)
    requires AllNew(b, g, e)
    ensures g.root in Begun(b, g, |g.children|)
    ensures Submitted(b, g, e) == Transported(Book(Begun(b, g, |g.children|), b.groups), g, e)
  {
    var n := |g.children|;
    assert g.children[..n] == g.children && g.children[n..] == [];
    assert Ids(g)[0] == g.root;
    BegunFirst(b, g, e, n);
  }

  lemma CreatedIsNew(b: Book, g: Group, e: Env)
    requires g.root !in b.rows && WithChildren(b.rows[g.root := NewStored(g)], g.children, g, e.crash).1.AllCreated?
    ensures AllNew(b, g, e)
  {
    WithChildrenKeeps(b.rows[g.root := NewStored(g)], g.children, g, e.crash);
    assert forall i :: 1 <= i < |Ids(g)| ==> Ids(g)[i] == g.children[i - 1];
  }

  /** A group goes to the transport exactly when all its IDs are new, the process lives to commit their rows, and the
      preflight accepts it without a warning. */
  lemma SentIff(b: Book, g: Group, e: Env)
    ensures Submitted(b, g, e).0.groups
         == if AllNew(b, g, e) && e.preflight.Clear? then b.groups + [Ids(g)] else b.groups
  {
    if AllNew(b, g, e) {
      AllBegun(b, g, e);
      TransportShape(Book(Begun(b, g, |g.children|), b.groups), g, e);
    } else if g.root !in b.rows && WithChildren(b.rows[g.root := NewStored(g)], g.children, g, e.crash).1.AllCreated? {
      CreatedIsNew(b, g, e);
    }
  }

  /** What each order of the group is left as once it is settled: None for as it was written. */
  function Final(g: Group, e: Env, i: nat): Option<(string, Option<int>)>
    requires i <= |g.children|
  {
    if e.preflight.Warned? || e.preflight.PreflightRejected? then Some(("rejected", None))
    else if !e.preflight.Clear? then Some(("unknown", None))
    else if e.crash.AfterTransport? then None
    else if e.reply.Rejected? then Some(("rejected", None))
    else if !e.reply.Submissions? then Some(("unknown", None))
    else if |e.reply.orders| != |g.children| + 1 then if i == 0 then Some(("unknown", None)) else None
    else Some((PaperStatus(e.reply.orders[i].status), Some(e.reply.orders[i].orderId)))
  }

  /** Orders are settled root first, unless the process dies before this one. */
  predicate Reached(e: Env, i: nat) { e.crash.AfterUpdates? ==> i < e.crash.updates }

  function After(g: Group, e: Env, i: nat): Stored
    requires i <= |g.children|
  {
    var final := Final(g, e, i);
    if final.Some? && Reached(e, i)
    then NewStored(g).(status := final.value.0, brokerOrderId := final.value.1) else NewStored(g)
  }

  lemma {:induction false} PlacedNot(rows: map<string, Stored>, ids: seq<string>, orders: seq<Submission>, id: string)
    requires |ids| == |orders| && id in rows && id !in ids
    ensures id in PlacedAll(rows, ids, orders) && PlacedAll(rows, ids, orders)[id] == rows[id]
    decreases |ids|
  {
    if ids != [] { PlacedNot(rows, ids[..|ids| - 1], orders[..|ids| - 1], id); }
  }

  lemma {:induction false} PlacedOne(rows: map<string, Stored>, ids: seq<string>, orders: seq<Submission>, i: nat)
    requires |ids| == |orders| && i < |ids| && ids[i] in rows
    requires forall j :: 0 <= j < |ids| && j != i ==> ids[j] != ids[i]
    ensures ids[i] in PlacedAll(rows, ids, orders) && PlacedAll(rows, ids, orders)[ids[i]] == Placed(rows[ids[i]], orders[i])
    decreases |ids|
  {
    var n := |ids| - 1;
    if i < n { PlacedOne(rows, ids[..n], orders[..n], i); } else { PlacedNot(rows, ids[..n], orders[..n], ids[n]); }
  }

  lemma PlacedUpTo(rows: map<string, Stored>, ids: seq<string>, orders: seq<Submission>, k: nat)
    requires |ids| == |orders| && Distinct(ids) && k <= |ids|
    ensures var r := PlacedAll(rows, ids[..k], orders[..k]);
            r.Keys == rows.Keys
            && (forall id :: id in rows && id !in ids ==> r[id] == rows[id])
            && forall i :: 0 <= i < |ids| && ids[i] in rows ==>
                 r[ids[i]] == if i < k then Placed(rows[ids[i]], orders[i]) else rows[ids[i]]
  {
    var r := PlacedAll(rows, ids[..k], orders[..k]);
    PlacedAllKeys(rows, ids[..k], orders[..k]);
    forall id | id in rows && id !in ids ensures r[id] == rows[id] { PlacedNot(rows, ids[..k], orders[..k], id); }
    forall i | 0 <= i < |ids| && ids[i] in rows
      ensures r[ids[i]] == if i < k then Placed(rows[ids[i]], orders[i]) else rows[ids[i]]
    {
      if i < k { PlacedOne(rows, ids[..k], orders[..k], i); } else { PlacedNot(rows, ids[..k], orders[..k], ids[i]); }
    }
  }

  lemma MarkedAt(rows: map<string, Stored>, ids: seq<string>, status: string, k: nat)
    requires k <= |ids| && Distinct(ids)
    ensures var r := Marked(rows, ids[..k], status);
            r.Keys == rows.Keys
            && (forall id :: id in rows && id !in ids ==> r[id] == rows[id])
            && forall i :: 0 <= i < |ids| && ids[i] in rows ==>
                 r[ids[i]] == if i < k then rows[ids[i]].(status := status) else rows[ids[i]]
  {
    assert forall i :: 0 <= i < k ==> ids[..k][i] == ids[i];
    forall i | 0 <= i < |ids| ensures ids[i] in ids[..k] <==> i < k {
      if i < k { assert ids[..k][i] == ids[i]; }
    }
  }

  /** The rows of the group as they are left, and no other changed. */
  predicate Leaves(before: map<string, Stored>, g: Group, e: Env, after: map<string, Stored>) {
    after.Keys == before.Keys
    && (forall id :: id in before && id !in Ids(g) ==> after[id] == before[id])
    && forall i :: 0 <= i < |Ids(g)| ==> Ids(g)[i] in after && after[Ids(g)[i]] == After(g, e, i)
  }

  /** All orders of the group are as they were written. */
  predicate Written(rows: map<string, Stored>, g: Group) {
    Distinct(Ids(g)) && forall i :: 0 <= i < |Ids(g)| ==> Ids(g)[i] in rows && rows[Ids(g)[i]] == NewStored(g)
  }

  lemma SettledLeaves(b: Book, g: Group, e: Env, status: string, outcome: Outcome)
    requires Written(b.rows, g) && forall i :: 0 <= i <= |g.children| ==> Final(g, e, i) == Some((status, None))
    ensures Leaves(b.rows, g, e, Settled(b, Ids(g), status, outcome, e).0.rows)
    ensures Settled(b, Ids(g), status, outcome, e).1
         == if Reached(e, |g.children|) then outcome else Crashed
  {
    MarkedAt(b.rows, Ids(g), status, Updates(e, |Ids(g)|));
  }

  /** The index of the last order that is settled: all of them, or only the root when the answer does not fit. */
  function LastSettled(g: Group, e: Env): nat {
    if e.preflight.Clear? && e.reply.Submissions? && |e.reply.orders| != |g.children| + 1 then 0 else |g.children|
  }

  /** What a call for a new group answers. */
  function Answer(g: Group, e: Env): Outcome {
    if (e.preflight.Clear? && e.crash.AfterTransport?) || !Reached(e, LastSettled(g, e)) then Crashed
    else
      match e.preflight
      case PreflightRuntimeError => TransportRaised
      case PreflightError => RecoveryRequired
      case PreflightRejected => OrderRejected
      case Warned => WhatIfBlocked
      case Clear =>
        match e.reply
        case Rejected => OrderRejected
        case RuntimeFault => TransportRaised
        case Fault => RecoveryRequired
        case Submissions(orders) =>
          if |orders| != |g.children| + 1 then RecoveryRequired
          else Receipt(orders[0].orderId, PaperStatus(orders[0].status))
  }

  lemma RootOnlyLeaves(b: Book, g: Group, e: Env)
    requires Written(b.rows, g) && e.preflight.Clear? && !e.crash.AfterTransport?
    requires e.reply.Submissions? && |e.reply.orders| != |g.children| + 1
    ensures Leaves(b.rows, g, e, Settled(b, [g.root], "unknown", RecoveryRequired, e).0.rows)
    ensures Settled(b, [g.root], "unknown", RecoveryRequired, e).1
         == if Reached(e, 0) then RecoveryRequired else Crashed
  {
    assert Ids(g)[0] == g.root;
    MarkedAt(b.rows, [g.root], "unknown", Updates(e, 1));
    forall i | 0 < i < |Ids(g)| ensures Ids(g)[i] !in [g.root] { assert Ids(g)[i] != Ids(g)[0]; }
  }

  /** The transport answered with one order for each of the group's. */
  predicate Accepts(g: Group, e: Env) {
    e.preflight.Clear? && !e.crash.AfterTransport? && e.reply.Submissions? && |e.reply.orders| == |g.children| + 1
  }

  lemma AfterPlaced(g: Group, e: Env, i: nat)
    requires Accepts(g, e) && i <= |g.children|
    ensures After(g, e, i)
         == if i < Updates(e, |g.children| + 1) then Placed(NewStored(g), e.reply.orders[i]) else NewStored(g)
  {
  }

  lemma PlacedLeaves(b: Book, g: Group, e: Env, k: nat)
    requires Written(b.rows, g) && Accepts(g, e) && k == Updates(e, |Ids(g)|)
    ensures Leaves(b.rows, g, e, PlacedAll(b.rows, Ids(g)[..k], e.reply.orders[..k]))
  {
    var ids := Ids(g);
    var r := PlacedAll(b.rows, ids[..k], e.reply.orders[..k]);
    PlacedUpTo(b.rows, ids, e.reply.orders, k);
    forall i | 0 <= i < |ids| ensures ids[i] in r && r[ids[i]] == After(g, e, i) { AfterPlaced(g, e, i); }
  }

  lemma AnsweredLeaves(b: Book, g: Group, e: Env)
    requires Written(b.rows, g) && g.root in b.rows && e.preflight.Clear? && !e.crash.AfterTransport?
    ensures Leaves(b.rows, g, e, Answered(b, g, e).0.rows) && Answered(b, g, e).1 == Answer(g, e)
  {
    assert b.rows[Ids(g)[0]] == NewStored(g);
    match e.reply {
      case Rejected => SettledLeaves(b, g, e, "rejected", OrderRejected);
      case RuntimeFault => SettledLeaves(b, g, e, "unknown", TransportRaised);
      case Fault => SettledLeaves(b, g, e, "unknown", RecoveryRequired);
      case Submissions(orders) =>
        if |orders| != |Ids(g)| {
          RootOnlyLeaves(b, g, e);
        } else {
          PlacedLeaves(b, g, e, Updates(e, |Ids(g)|));
          StatusReads(orders[0].status);
        }
    }
  }

  lemma TransportedLeaves(b: Book, g: Group, e: Env)
    requires Written(b.rows, g) && g.root in b.rows
    ensures Leaves(b.rows, g, e, Transported(b, g, e).0.rows) && Transported(b, g, e).1 == Answer(g, e)
  {
    match e.preflight {
      case PreflightRuntimeError => SettledLeaves(b, g, e, "unknown", TransportRaised);
      case PreflightError => SettledLeaves(b, g, e, "unknown", RecoveryRequired);
      case PreflightRejected => SettledLeaves(b, g, e, "rejected", OrderRejected);
      case Warned => SettledLeaves(b, g, e, "rejected", WhatIfBlocked);
      case Clear =>
        if !e.crash.AfterTransport? { AnsweredLeaves(b.(groups := b.groups + [Ids(g)]), g, e); }
    }
  }

  lemma BegunIsWritten(b: Book, g: Group)
    requires Fresh(b.rows, Ids(g))
    ensures Written(Begun(b, g, |g.children|), g)
  {
    assert [g.root] + g.children[..|g.children|] == Ids(g);
  }

  /** A new group that gets all its rows: no other row changes, each of its own is left as the preflight and the answer say
      as far as the process lived, and the call answers accordingly. */
  lemma NewGroupLeaves(b: Book, g: Group, e: Env)
    requires AllNew(b, g, e)
    ensures Leaves(Begun(b, g, |g.children|), g, e, Submitted(b, g, e).0.rows) && Submitted(b, g, e).1 == Answer(g, e)
  {
    AllBegun(b, g, e);
    BegunIsWritten(b, g);
    TransportedLeaves(Book(Begun(b, g, |g.children|), b.groups), g, e);
  }
}
