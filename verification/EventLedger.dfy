/** The append-only event ledger (data_plane/event_ledger.py). Times are microseconds: the stored texts
    have a fixed width, so they compare as the times do. Hashes are taken as injective, so an event is its
    source and source ID, and a payload fingerprint is the observation without its first-seen time. */
module EventLedger {
  import opened Texts

  datatype Origin = Forward | Historical | Manual
  datatype EventId = EventId(source: string, sourceId: string)
  datatype Payload = Payload(source: string, sourceId: string, origin: Origin, published: int,
                             updated: Option<int>, content: string)
  datatype Observation = Observation(payload: Payload, firstSeen: Option<int>)
  {
    function Id(): EventId { EventId(payload.source, payload.sourceId) }
  }

  datatype Revision = Revision(id: EventId, revision: nat, observation: Observation, recordedAt: int,
                               availableAt: int, forwardEligible: bool)
  {
    function Fingerprint(): Payload { observation.payload }
  }

  /** An observation together with the clock reading its append takes, if it takes one. */
  datatype Arrival = Arrival(observation: Observation, clock: int)

  function Later(a: int, b: Option<int>): int { if b.Some? && b.value > a then b.value else a }

  // ---- queries ----

  /** Highest revision of an event, 0 when there is none. */
  function MaxRevision(rows: seq<Revision>, id: EventId): nat {
    if rows == [] then 0
    else
      var rest, r := MaxRevision(rows[..|rows| - 1], id), rows[|rows| - 1];
      if r.id == id && r.revision > rest then r.revision else rest
  }

  function MaxRecorded(rows: seq<Revision>): Option<int> {
    if rows == [] then None else Some(Later(rows[|rows| - 1].recordedAt, MaxRecorded(rows[..|rows| - 1])))
  }

  function MaxAvailable(rows: seq<Revision>, id: EventId): Option<int> {
    if rows == [] then None
    else
      var rest, r := MaxAvailable(rows[..|rows| - 1], id), rows[|rows| - 1];
      if r.id == id then Some(Later(r.availableAt, rest)) else rest
  }

  /** First row of the event with this fingerprint. */
  function FindPayload(rows: seq<Revision>, p: Payload): Option<Revision> {
    if rows == [] then None
    else if rows[0].Fingerprint() == p then Some(rows[0])
    else FindPayload(rows[1..], p)
  }

  /** The row of an event at a revision. */
  function FindRevision(rows: seq<Revision>, id: EventId, n: nat): Option<Revision> {
    if rows == [] then None
    else if rows[0].id == id && rows[0].revision == n then Some(rows[0])
    else FindRevision(rows[1..], id, n)
  }

  // ---- append ----

  function NewRevision(rows: seq<Revision>, a: Arrival): Revision {
    var o, id := a.observation, a.observation.Id();
    var last := MaxRevision(rows, id);
    var previous := FindRevision(rows, id, last);
    var available := Later(Later(Later(Later(a.clock, Some(o.payload.published)), o.payload.updated), o.firstSeen),
                           if previous.Some? then Some(previous.value.availableAt) else None);
    Revision(id, last + 1, o, a.clock, available, o.payload.origin == Forward && o.firstSeen.Some?)
  }

  /** The rows after one append and the revision it returns; None when it raises. */
  function Appended(rows: seq<Revision>, a: Arrival): Option<(seq<Revision>, Revision)> {
    var p, id := a.observation.payload, a.observation.Id();
    var original := FindRevision(rows, id, 1);
    if original.Some? && original.value.Fingerprint().origin != p.origin then None
    else
      var existing := FindPayload(rows, p);
      if existing.Some? then Some((rows, existing.value))
      else if MaxRecorded(rows).Some? && a.clock < MaxRecorded(rows).value then None
      else
        var r := NewRevision(rows, a);
        Some((rows + [r], r))
  }

  function AppendedAll(rows: seq<Revision>, batch: seq<Arrival>): Option<(seq<Revision>, seq<Revision>)>
    decreases |batch|
  {
    if batch == [] then Some((rows, []))
    else
      match AppendedAll(rows, batch[..|batch| - 1])
      case None => None
      case Some((rows1, out)) =>
        match Appended(rows1, batch[|batch| - 1])
        case None => None
        case Some((rows2, r)) => Some((rows2, out + [r]))
  }

  // ---- the database's own guards ----

  /** The insert trigger's four checks, the table's checks and its two uniqueness constraints. */
  predicate TriggersAccept(rows: seq<Revision>, r: Revision) {
    r.revision == MaxRevision(rows, r.id) + 1
    && (MaxRecorded(rows).Some? ==> r.recordedAt >= MaxRecorded(rows).value)
    && (MaxAvailable(rows, r.id).Some? ==> r.availableAt >= MaxAvailable(rows, r.id).value)
    && (forall i :: 0 <= i < |rows| && rows[i].id == r.id ==> rows[i].Fingerprint() != r.Fingerprint())
    && r.revision >= 1 && r.availableAt >= r.recordedAt
    && (forall i :: 0 <= i < |rows| && rows[i].id == r.id ==> rows[i].revision != r.revision)
  }

  // ---- invariants ----

  predicate RowOk(r: Revision) {
    r.id == r.observation.Id() && r.revision >= 1 && r.availableAt >= r.recordedAt
    && r.availableAt >= r.observation.payload.published
    && (r.observation.payload.updated.Some? ==> r.availableAt >= r.observation.payload.updated.value)
    && (r.observation.firstSeen.Some? ==> r.availableAt >= r.observation.firstSeen.value)
    && (r.forwardEligible <==> r.observation.payload.origin == Forward && r.observation.firstSeen.Some?)
  }

  predicate Ordered(a: Revision, b: Revision) {
    a.recordedAt <= b.recordedAt
    && (a.id == b.id ==>
          a.revision < b.revision && a.availableAt <= b.availableAt && a.Fingerprint() != b.Fingerprint()
          && a.Fingerprint().origin == b.Fingerprint().origin)
  }

  predicate HasRevision(rows: seq<Revision>, id: EventId, n: nat) {
    exists i :: 0 <= i < |rows| && rows[i].id == id && rows[i].revision == n
  }

  /** Rows are in recording order; each event's revisions are 1, 2, ... with distinct payloads. */
  predicate Inv(rows: seq<Revision>) {
    (forall i :: 0 <= i < |rows| ==> RowOk(rows[i]))
    && (forall i, j :: 0 <= i < j < |rows| ==> Ordered(rows[i], rows[j]))
    && (forall i, n :: 0 <= i < |rows| && 1 <= n <= rows[i].revision ==> HasRevision(rows, rows[i].id, n))
  }

  lemma {:induction false} MaxRevisionFacts(rows: seq<Revision>, id: EventId)
    ensures forall i :: 0 <= i < |rows| && rows[i].id == id ==> rows[i].revision <= MaxRevision(rows, id)
    ensures MaxRevision(rows, id) > 0 ==> HasRevision(rows, id, MaxRevision(rows, id))
  {
    if rows != [] {
      var rest := rows[..|rows| - 1];
      MaxRevisionFacts(rest, id);
      forall i | 0 <= i < |rows| && rows[i].id == id ensures rows[i].revision <= MaxRevision(rows, id) {
        if i < |rest| { assert rest[i] == rows[i]; }
      }
      if MaxRevision(rows, id) > 0 {
        if rows[|rest|].id == id && rows[|rest|].revision == MaxRevision(rows, id) {
        } else {
          var i :| 0 <= i < |rest| && rest[i].id == id && rest[i].revision == MaxRevision(rest, id);
          assert rows[i] == rest[i];
        }
      }
    }
  }

  lemma {:induction false} MaxRecordedFacts(rows: seq<Revision>)
    ensures MaxRecorded(rows).None? <==> rows == []
    ensures forall i :: 0 <= i < |rows| ==> rows[i].recordedAt <= MaxRecorded(rows).value
  {
    if rows != [] {
      var rest := rows[..|rows| - 1];
      MaxRecordedFacts(rest);
      forall i | 0 <= i < |rows| ensures rows[i].recordedAt <= MaxRecorded(rows).value {
        if i < |rest| { assert rest[i] == rows[i]; }
      }
    }
  }

  lemma {:induction false} MaxAvailableFacts(rows: seq<Revision>, id: EventId, bound: int)
    requires forall i :: 0 <= i < |rows| && rows[i].id == id ==> rows[i].availableAt <= bound
    ensures MaxAvailable(rows, id).Some? ==> MaxAvailable(rows, id).value <= bound
  {
    if rows != [] {
      var rest := rows[..|rows| - 1];
      assert forall i :: 0 <= i < |rest| ==> rest[i] == rows[i];
      MaxAvailableFacts(rest, id, bound);
    }
  }

  lemma {:induction false} FindPayloadFacts(rows: seq<Revision>, p: Payload)
    ensures var f := FindPayload(rows, p);
            (f.Some? ==> f.value in rows && f.value.Fingerprint() == p)
            && (f.None? ==> forall i :: 0 <= i < |rows| ==> rows[i].Fingerprint() != p)
  {
    if rows != [] && rows[0].Fingerprint() != p {
      FindPayloadFacts(rows[1..], p);
      assert forall i :: 1 <= i < |rows| ==> rows[i] == rows[1..][i - 1];
    }
  }

  lemma {:induction false} FindRevisionFacts(rows: seq<Revision>, id: EventId, n: nat)
    ensures var f := FindRevision(rows, id, n);
            (f.Some? ==> f.value in rows && f.value.id == id && f.value.revision == n)
            && (f.Some? <==> HasRevision(rows, id, n))
  {
    if rows != [] {
      FindRevisionFacts(rows[1..], id, n);
      assert forall i :: 1 <= i < |rows| ==> rows[i] == rows[1..][i - 1];
      if rows[0].id == id && rows[0].revision == n {
      } else {
        if HasRevision(rows, id, n) {
          var i :| 0 <= i < |rows| && rows[i].id == id && rows[i].revision == n;
          assert rows[1..][i - 1] == rows[i];
        }
        if HasRevision(rows[1..], id, n) {
          var i :| 0 <= i < |rows[1..]| && rows[1..][i].id == id && rows[1..][i].revision == n;
          assert rows[i + 1] == rows[1..][i];
        }
      }
    }
  }

  /** Two stored revisions of one event: revision number, payload and availability agree on their order. */
  lemma SameEvent(rows: seq<Revision>, a: Revision, b: Revision)
    requires Inv(rows) && a in rows && b in rows && a.id == b.id
    ensures a.revision <= b.revision ==> a.availableAt <= b.availableAt && a.recordedAt <= b.recordedAt
    ensures a.revision == b.revision || a.Fingerprint() == b.Fingerprint() ==> a == b
    ensures a.Fingerprint().origin == b.Fingerprint().origin
  {
    var i :| 0 <= i < |rows| && rows[i] == a;
    var k :| 0 <= k < |rows| && rows[k] == b;
    if i < k {
      assert Ordered(rows[i], rows[k]);
    } else if k < i {
      assert Ordered(rows[k], rows[i]);
    }
  }

  /** What an append found in the stored rows before it builds a new revision. */
  lemma StoredBefore(rows: seq<Revision>, a: Arrival, s: Revision)
    requires Inv(rows) && Appended(rows, a).Some? && s in rows && s.id == a.observation.Id()
    ensures s.revision < NewRevision(rows, a).revision
    ensures s.availableAt <= NewRevision(rows, a).availableAt
    ensures s.Fingerprint().origin == a.observation.payload.origin
  {
    var id := a.observation.Id();
    var last := MaxRevision(rows, id);
    MaxRevisionFacts(rows, id);
    FindRevisionFacts(rows, id, last);
    FindRevisionFacts(rows, id, 1);
    var i :| 0 <= i < |rows| && rows[i] == s;
    assert RowOk(rows[i]) && HasRevision(rows, rows[i].id, 1);
    SameEvent(rows, s, FindRevision(rows, id, last).value);
    SameEvent(rows, s, FindRevision(rows, id, 1).value);
  }

  /** The new revision follows every stored one, and with it the event's revisions are still 1, 2, ... */
  lemma NewRevisionFollows(rows: seq<Revision>, a: Arrival)
    requires Inv(rows) && Appended(rows, a).Some? && FindPayload(rows, a.observation.payload).None?
    ensures var r := NewRevision(rows, a);
            RowOk(r) && r.revision == MaxRevision(rows, r.id) + 1
            && (forall i :: 0 <= i < |rows| ==> Ordered(rows[i], r))
            && (forall n :: 1 <= n < r.revision ==> HasRevision(rows, r.id, n))
  {
    var r := NewRevision(rows, a);
    MaxRecordedFacts(rows);
    FindPayloadFacts(rows, a.observation.payload);
    forall i | 0 <= i < |rows| ensures Ordered(rows[i], r) {
      if rows[i].id == r.id { StoredBefore(rows, a, rows[i]); }
    }
    MaxRevisionFacts(rows, r.id);
    if r.revision > 1 {
      var k :| 0 <= k < |rows| && rows[k].id == r.id && rows[k].revision == r.revision - 1;
    }
  }

  lemma {:induction false} MaxAvailableIsReached(rows: seq<Revision>, id: EventId)
    ensures forall i :: 0 <= i < |rows| && rows[i].id == id ==>
              MaxAvailable(rows, id).Some? && rows[i].availableAt <= MaxAvailable(rows, id).value
  {
    if rows != [] {
      var rest := rows[..|rows| - 1];
      MaxAvailableIsReached(rest, id);
      assert forall i :: 0 <= i < |rest| ==> rest[i] == rows[i];
    }
  }

  lemma {:induction false} MaxRecordedBound(rows: seq<Revision>, bound: int)
    requires forall i :: 0 <= i < |rows| ==> rows[i].recordedAt <= bound
    ensures MaxRecorded(rows).Some? ==> MaxRecorded(rows).value <= bound
  {
    if rows != [] {
      assert forall i :: 0 <= i < |rows| - 1 ==> rows[..|rows| - 1][i] == rows[i];
      MaxRecordedBound(rows[..|rows| - 1], bound);
    }
  }

  /** A row the table takes: available no earlier than recorded, recorded after everything, and after every revision of
      its event in number and availability, with a payload none of them has and no number left out. */
  predicate Follows(rows: seq<Revision>, r: Revision) {
    r.revision >= 1 && r.availableAt >= r.recordedAt
    && (forall i :: 0 <= i < |rows| ==>
          rows[i].recordedAt <= r.recordedAt
          && (rows[i].id == r.id ==>
                rows[i].revision < r.revision && rows[i].availableAt <= r.availableAt
                && rows[i].Fingerprint() != r.Fingerprint()))
    && (r.revision > 1 ==> HasRevision(rows, r.id, r.revision - 1))
  }

  /** The guards accept exactly such a row. */
  lemma TriggersAcceptIff(rows: seq<Revision>, r: Revision)
    ensures TriggersAccept(rows, r) <==> Follows(rows, r)
  {
    MaxRevisionFacts(rows, r.id);
    MaxRecordedFacts(rows);
    MaxAvailableIsReached(rows, r.id);
    if Follows(rows, r) {
      MaxRecordedBound(rows, r.recordedAt);
      MaxAvailableFacts(rows, r.id, r.availableAt);
      if MaxRevision(rows, r.id) > 0 {
        var i :| 0 <= i < |rows| && rows[i].id == r.id && rows[i].revision == MaxRevision(rows, r.id);
        assert MaxRevision(rows, r.id) < r.revision;
      }
      if r.revision > 1 {
        var k :| 0 <= k < |rows| && rows[k].id == r.id && rows[k].revision == r.revision - 1;
        assert r.revision - 1 <= MaxRevision(rows, r.id);
      }
    }
  }

  /** Every insert the Python attempts passes all the database's guards. */
  lemma InsertsPassTriggers(rows: seq<Revision>, a: Arrival)
    requires Inv(rows) && Appended(rows, a).Some? && Appended(rows, a).value.0 != rows
    ensures Appended(rows, a).value.0 == rows + [NewRevision(rows, a)]
    ensures TriggersAccept(rows, NewRevision(rows, a)) && Follows(rows, NewRevision(rows, a))
  {
    NewRevisionFollows(rows, a);
    var r := NewRevision(rows, a);
    MaxRevisionFacts(rows, r.id);
    forall i | 0 <= i < |rows| && rows[i].id == r.id ensures rows[i].availableAt <= r.availableAt {
      assert Ordered(rows[i], r);
    }
    MaxAvailableFacts(rows, r.id, r.availableAt);
    MaxRecordedFacts(rows);
    TriggersAcceptIff(rows, r);
  }

  /** An append raises exactly when the event is stored under another origin, or when it brings a new payload
      at a clock reading before something already recorded. */
  lemma AppendRaisesIff(rows: seq<Revision>, a: Arrival)
    requires Inv(rows)
    ensures Appended(rows, a).None?
            <==> (exists r :: r in rows && r.id == a.observation.Id()
                              && r.Fingerprint().origin != a.observation.payload.origin)
                 || ((forall r :: r in rows ==> r.Fingerprint() != a.observation.payload)
                     && exists r :: r in rows && r.recordedAt > a.clock)
  {
    var id, p := a.observation.Id(), a.observation.payload;
    FindRevisionFacts(rows, id, 1);
    FindPayloadFacts(rows, p);
    MaxRecordedFacts(rows);
    if rows != [] { LastRecorded(rows); }
    var original := FindRevision(rows, id, 1);
    forall r | r in rows && r.id == id
      ensures original.Some? && original.value.Fingerprint().origin == r.Fingerprint().origin
    {
      var i :| 0 <= i < |rows| && rows[i] == r;
      assert RowOk(rows[i]) && HasRevision(rows, rows[i].id, 1);
      SameEvent(rows, r, original.value);
    }
  }

  lemma {:induction false} LastRecorded(rows: seq<Revision>)
    requires rows != []
    ensures MaxRecorded(rows).Some? && exists r :: r in rows && r.recordedAt == MaxRecorded(rows).value
  {
    var rest, last := rows[..|rows| - 1], rows[|rows| - 1];
    if rest != [] {
      LastRecorded(rest);
      var r :| r in rest && r.recordedAt == MaxRecorded(rest).value;
      assert r in rows && last in rows;
    } else {
      assert last in rows;
    }
  }

  /** A new revision is available as soon as its evidence and the event's earlier revisions allow. */
  lemma AvailableAsSoonAsPossible(rows: seq<Revision>, a: Arrival, at: int)
    requires Inv(rows) && Appended(rows, a).Some? && FindPayload(rows, a.observation.payload).None?
    ensures NewRevision(rows, a).availableAt <= at
            <==> a.clock <= at && a.observation.payload.published <= at
                 && (a.observation.payload.updated.Some? ==> a.observation.payload.updated.value <= at)
                 && (a.observation.firstSeen.Some? ==> a.observation.firstSeen.value <= at)
                 && forall r :: r in rows && r.id == a.observation.Id() ==> r.availableAt <= at
  {
    var id := a.observation.Id();
    FindRevisionFacts(rows, id, MaxRevision(rows, id));
    forall r | r in rows && r.id == id ensures r.availableAt <= NewRevision(rows, a).availableAt {
      StoredBefore(rows, a, r);
    }
  }

  lemma AppendKeeps(rows: seq<Revision>, a: Arrival)
    requires Inv(rows) && Appended(rows, a).Some?
    ensures var (rows', r) := Appended(rows, a).value;
            Inv(rows') && rows <= rows' && r in rows' && r.id == a.observation.Id()
            && r.Fingerprint() == a.observation.payload
  {
    FindPayloadFacts(rows, a.observation.payload);
    if FindPayload(rows, a.observation.payload).None? {
      NewRevisionFollows(rows, a);
      var r := NewRevision(rows, a);
      var rows' := rows + [r];
      forall i, n | 0 <= i < |rows'| && 1 <= n <= rows'[i].revision ensures HasRevision(rows', rows'[i].id, n) {
        if i == |rows| && n == r.revision {
          assert rows'[i].revision == n;
        } else {
          assert rows'[i].id == (if i < |rows| then rows[i].id else r.id);
          assert HasRevision(rows, rows'[i].id, n);
          var k :| 0 <= k < |rows| && rows[k].id == rows'[i].id && rows[k].revision == n;
          assert rows'[k] == rows[k];
        }
      }
    } else {
      assert RowOk(FindPayload(rows, a.observation.payload).value);
    }
  }

  /** A batch that succeeds only adds rows and answers each observation with its own payload's revision. */
  lemma {:induction false} BatchKeeps(rows: seq<Revision>, batch: seq<Arrival>)
    requires Inv(rows) && AppendedAll(rows, batch).Some?
    ensures var (rows', out) := AppendedAll(rows, batch).value;
            Inv(rows') && rows <= rows' && |out| == |batch|
            && forall i :: 0 <= i < |batch| ==>
                 out[i] in rows' && out[i].id == batch[i].observation.Id()
                 && out[i].Fingerprint() == batch[i].observation.payload
    decreases |batch|
  {
    if batch != [] {
      var n := |batch| - 1;
      BatchKeeps(rows, batch[..n]);
      AppendKeeps(AppendedAll(rows, batch[..n]).value.0, batch[n]);
    }
  }

  /** Importing a recorded payload again, whatever its first-seen time and the clock, returns the original
      revision and writes nothing. */
  lemma ReplayReturnsOriginal(rows: seq<Revision>, r: Revision, firstSeen: Option<int>, clock: int)
    requires Inv(rows) && r in rows
    ensures Appended(rows, Arrival(Observation(r.Fingerprint(), firstSeen), clock)) == Some((rows, r))
  {
    FindPayloadFacts(rows, r.Fingerprint());
    FindRevisionFacts(rows, r.id, 1);
    var i :| 0 <= i < |rows| && rows[i] == r;
    assert RowOk(rows[i]) && HasRevision(rows, rows[i].id, 1);
    SameEvent(rows, r, FindRevision(rows, r.id, 1).value);
    var found := FindPayload(rows, r.Fingerprint()).value;
    var j :| 0 <= j < |rows| && rows[j] == found;
    assert RowOk(rows[j]);
    SameEvent(rows, r, found);
  }

  // ---- the point-in-time view ----

  predicate Visible(r: Revision, at: int) { r.availableAt <= at && r.recordedAt <= at }

  /** Highest visible revision of an event, 0 when nothing is visible. */
  function LatestVisible(rows: seq<Revision>, id: EventId, at: int): nat {
    if rows == [] then 0
    else
      var rest, r := LatestVisible(rows[..|rows| - 1], id, at), rows[|rows| - 1];
      if r.id == id && Visible(r, at) && r.revision > rest then r.revision else rest
  }

  /** The view at a time: each event's latest visible revision, then the forward restriction. */
  function AsOf(rows: seq<Revision>, at: int, forwardOnly: bool): set<Revision> {
    set r | r in rows && Visible(r, at) && r.revision == LatestVisible(rows, r.id, at)
            && (forwardOnly ==> r.forwardEligible)
  }

  lemma {:induction false} LatestVisibleFacts(rows: seq<Revision>, id: EventId, at: int)
    ensures forall i :: 0 <= i < |rows| && rows[i].id == id && Visible(rows[i], at) ==>
              rows[i].revision <= LatestVisible(rows, id, at)
    ensures LatestVisible(rows, id, at) > 0 ==>
              exists i :: 0 <= i < |rows| && rows[i].id == id && Visible(rows[i], at)
                          && rows[i].revision == LatestVisible(rows, id, at)
  {
    if rows != [] {
      var rest := rows[..|rows| - 1];
      LatestVisibleFacts(rest, id, at);
      assert forall i :: 0 <= i < |rest| ==> rest[i] == rows[i];
      if LatestVisible(rows, id, at) > 0 && LatestVisible(rows, id, at) == LatestVisible(rest, id, at) {
        var i :| 0 <= i < |rest| && rest[i].id == id && Visible(rest[i], at)
                 && rest[i].revision == LatestVisible(rest, id, at);
        assert rows[i] == rest[i];
      }
    }
  }

  /** The visible revisions of an event are exactly 1 up to the latest: a prefix, and it grows with time. */
  lemma VisibleIsPrefix(rows: seq<Revision>, at: int, later: int)
    requires Inv(rows) && at <= later
    ensures forall r :: r in rows ==> (Visible(r, at) <==> r.revision <= LatestVisible(rows, r.id, at))
    ensures forall id :: LatestVisible(rows, id, at) <= LatestVisible(rows, id, later)
  {
    forall r | r in rows ensures Visible(r, at) <==> r.revision <= LatestVisible(rows, r.id, at) {
      LatestVisibleFacts(rows, r.id, at);
      var i :| 0 <= i < |rows| && rows[i] == r;
      assert RowOk(rows[i]);
      if r.revision <= LatestVisible(rows, r.id, at) {
        var k :| 0 <= k < |rows| && rows[k].id == r.id && Visible(rows[k], at)
                 && rows[k].revision == LatestVisible(rows, r.id, at);
        SameEvent(rows, r, rows[k]);
      }
    }
    forall id ensures LatestVisible(rows, id, at) <= LatestVisible(rows, id, later) {
      LatestVisibleFacts(rows, id, at);
      LatestVisibleFacts(rows, id, later);
    }
  }

  lemma {:induction false} LaterRowsAreInvisible(rows: seq<Revision>, rows': seq<Revision>, id: EventId, at: int)
    requires rows <= rows'
    requires forall i :: |rows| <= i < |rows'| ==> rows'[i].recordedAt > at
    ensures LatestVisible(rows', id, at) == LatestVisible(rows, id, at)
    decreases |rows'|
  {
    if |rows'| > |rows| {
      LaterRowsAreInvisible(rows, rows'[..|rows'| - 1], id, at);
    } else {
      assert rows == rows';
    }
  }

  /** The past is never rewritten: whatever batches follow, the view at a time strictly before everything they
      record is the view it was. */
  lemma PastIsFixed(rows: seq<Revision>, batch: seq<Arrival>, at: int, forwardOnly: bool)
    requires Inv(rows) && AppendedAll(rows, batch).Some?
    requires var rows' := AppendedAll(rows, batch).value.0;
             forall i :: |rows| <= i < |rows'| ==> rows'[i].recordedAt > at
    ensures AsOf(AppendedAll(rows, batch).value.0, at, forwardOnly) == AsOf(rows, at, forwardOnly)
  {
    BatchKeeps(rows, batch);
    var rows' := AppendedAll(rows, batch).value.0;
    forall r ensures r in AsOf(rows', at, forwardOnly) <==> r in AsOf(rows, at, forwardOnly) {
      LaterRowsAreInvisible(rows, rows', r.id, at);
      if r in rows' && Visible(r, at) {
        var i :| 0 <= i < |rows'| && rows'[i] == r;
        assert i < |rows|;
      }
      if r in rows {
        var i :| 0 <= i < |rows| && rows[i] == r;
        assert rows'[i] == r;
      }
    }
  }

  /** A view holds at most one revision of an event, and nothing of an event before all its evidence times. */
  lemma ViewIsCausal(rows: seq<Revision>, at: int, forwardOnly: bool)
    requires Inv(rows)
    ensures forall r, q :: r in AsOf(rows, at, forwardOnly) && q in AsOf(rows, at, forwardOnly) && r.id == q.id ==> r == q
    ensures forall r :: r in AsOf(rows, at, forwardOnly) ==>
              r.observation.payload.published <= at
              && (r.observation.firstSeen.Some? ==> r.observation.firstSeen.value <= at)
              && (forwardOnly ==> r.observation.payload.origin == Forward && r.observation.firstSeen.Some?)
  {
    forall r, q | r in AsOf(rows, at, forwardOnly) && q in AsOf(rows, at, forwardOnly) && r.id == q.id ensures r == q {
      SameEvent(rows, r, q);
    }
    forall r | r in AsOf(rows, at, forwardOnly)
      ensures r.observation.payload.published <= at
              && (r.observation.firstSeen.Some? ==> r.observation.firstSeen.value <= at)
              && (forwardOnly ==> r.observation.payload.origin == Forward && r.observation.firstSeen.Some?)
    {
      var i :| 0 <= i < |rows| && rows[i] == r;
      assert RowOk(rows[i]);
    }
  }

  /** What a view holds, said without the query: the rows available by then that no such row of the same event
      supersedes. Every event with one has one in the unrestricted view. */
  lemma ViewShowsLatest(rows: seq<Revision>, at: int, forwardOnly: bool)
    requires Inv(rows)
    ensures forall r :: r in AsOf(rows, at, forwardOnly)
              <==> r in rows && r.availableAt <= at && (forwardOnly ==> r.forwardEligible)
                   && forall q :: q in rows && q.id == r.id && q.availableAt <= at ==> q.revision <= r.revision
    ensures forall r :: r in rows && r.availableAt <= at ==>
              exists q :: q in AsOf(rows, at, false) && q.id == r.id && r.revision <= q.revision
  {
    forall r | r in rows ensures Visible(r, at) <==> r.availableAt <= at {
      var i :| 0 <= i < |rows| && rows[i] == r;
      assert RowOk(rows[i]);
    }
    forall r | r in rows && Visible(r, at)
      ensures exists q :: q in AsOf(rows, at, false) && q.id == r.id && r.revision <= q.revision
      ensures r.revision == LatestVisible(rows, r.id, at)
              <==> forall q :: q in rows && q.id == r.id && Visible(q, at) ==> q.revision <= r.revision
    {
      LatestVisibleFacts(rows, r.id, at);
      var i :| 0 <= i < |rows| && rows[i] == r;
      assert RowOk(rows[i]);
      var k :| 0 <= k < |rows| && rows[k].id == r.id && Visible(rows[k], at)
               && rows[k].revision == LatestVisible(rows, r.id, at);
      assert rows[k] in AsOf(rows, at, false);
    }
  }

  // ---- the ledger object ----

  class Ledger {
    var rows: seq<Revision>

    constructor ()
      ensures rows == []
    {
      rows := [];
    }

    method Append(a: Arrival) returns (r: Option<Revision>)
      requires Inv(rows)
      modifies this
      ensures r.None? ==> Appended(old(rows), a).None? && rows == old(rows)
      ensures r.Some? ==> Appended(old(rows), a) == Some((rows, r.value)) && Inv(rows)
    {
      var id, p := a.observation.Id(), a.observation.payload;
      var original := FindRevision(rows, id, 1);
      if original.Some? && original.value.Fingerprint().origin != p.origin { return None; }
      var existing := FindPayload(rows, p);
      if existing.Some? { return existing; }
      var last := MaxRecorded(rows);
      if last.Some? && a.clock < last.value { return None; }
      AppendKeeps(rows, a);
      var added := NewRevision(rows, a);
      Insert(added, a);
      return Some(added);
    }

    /** The INSERT: it would be aborted unless every guard of the table accepts the row. */
    method Insert(r: Revision, ghost a: Arrival)
      requires Inv(rows) && Appended(rows, a) == Some((rows + [r], r)) && r == NewRevision(rows, a)
      modifies this
      ensures rows == old(rows) + [r] && TriggersAccept(old(rows), r)
    {
      assert |rows + [r]| != |rows|;
      InsertsPassTriggers(rows, a);
      rows := rows + [r];
    }

    /** All of a batch or none of it. */
    method AppendMany(batch: seq<Arrival>) returns (out: Option<seq<Revision>>)
      requires Inv(rows)
      modifies this
      ensures Inv(rows)
      ensures out.None? ==> AppendedAll(old(rows), batch).None? && rows == old(rows)
      ensures out.Some? ==> AppendedAll(old(rows), batch) == Some((rows, out.value))
    {
      var before := rows;
      var revisions := [];
      for i := 0 to |batch|
        invariant Inv(rows) && AppendedAll(before, batch[..i]) == Some((rows, revisions))
      {
        assert batch[..i + 1][..i] == batch[..i];
        var r := Append(batch[i]);
        if r.None? {
          rows := before;
          FailureIsFinal(before, batch, i + 1);
          return None;
        }
        revisions := revisions + [r.value];
      }
      assert batch[..|batch|] == batch;
      return Some(revisions);
    }
  }

  lemma {:induction false} FailureIsFinal(rows: seq<Revision>, batch: seq<Arrival>, n: nat)
    requires n <= |batch| && AppendedAll(rows, batch[..n]).None?
    ensures AppendedAll(rows, batch).None?
    decreases |batch| - n
  {
    if n == |batch| {
      assert batch[..n] == batch;
    } else {
      assert batch[..n + 1][..n] == batch[..n];
      FailureIsFinal(rows, batch, n + 1);
    }
  }
}
