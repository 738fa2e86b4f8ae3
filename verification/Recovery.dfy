/** Startup reconciliation of the whole book and the held positions (execution/recovery.py). */
module Recovery {
  import opened Texts
  import opened OrderState
  import opened OrderLedger
  import opened Reconcile

  /** qty None stands for text that is no number. */
  datatype Position = Position(symbol: Name, long: bool, qty: Option<real>)

  datatype Report = Report(checked: nat, matched: nat, unresolved: seq<Name>, symbols: set<Name>,
                           unmatched: set<Name>, mismatched: set<Name>, matchRate: real, safe: bool)

  // ---- the orders ----

  datatype Tally = Tally(book: Book, checked: nat, matched: nat, unresolved: seq<Name>, fault: Option<Fault>)

  predicate Skipped(o: Lifecycle) { o.state in {Cancelled, Rejected} }

  function Counted(t: Tally, local: Lifecycle, find: map<Name, BrokerOrder>, at: int): Tally {
    if t.fault.Some? || Skipped(local) then t
    else
      var t1 := t.(checked := t.checked + 1);
      if local.id !in find then
        if NeedsBroker(local.state)
        then t1.(unresolved := t.unresolved + [local.id])
        else t1.(matched := t.matched + 1)
      else
        var (b, r) := AfterReconcile(t.book, local, find[local.id], at);
        if r.Done? then t1.(book := b, matched := t.matched + 1)
        else if r.fault.ReconciliationFault? then t1.(book := b, unresolved := t.unresolved + [local.id])
        else t1.(book := b, fault := Some(r.fault))
  }

  function Sweep(b: Book, locals: seq<Lifecycle>, find: map<Name, BrokerOrder>, at: int): Tally
    decreases |locals|
  {
    if locals == [] then Tally(b, 0, 0, [], None)
    else Counted(Sweep(b, locals[..|locals| - 1], find, at), locals[|locals| - 1], find, at)
  }

  function Docs(b: Book): seq<Lifecycle>
    requires Listed(b)
  {
    seq(|b.ids|, i requires 0 <= i < |b.ids| => b.rows[b.ids[i]].doc)
  }

  /** The swept orders are stored ones, each once. */
  predicate Stored(b: Book, locals: seq<Lifecycle>) {
    (forall i :: 0 <= i < |locals| ==> SameIntent(b, locals[i]))
    && (forall i, j :: 0 <= i < j < |locals| ==> locals[i].id != locals[j].id)
  }

  /** The ledger has the broker's order as its own: one identity, the recorded broker ID, the reported state
      and, past submission, the reported fill. */
  predicate Agrees(b: Book, id: Name, o: BrokerOrder) {
    Landed(b, id, o) && id == o.clientId && b.rows[id].doc.symbol == o.symbol
    && b.rows[id].doc.requested == o.qty && b.rows[id].brokerId == Some(o.id) && !IsBlank(o.id.text)
  }

  /** An order the broker must know by now. */
  predicate NeedsBroker(s: State) { s in {Submitted, PartiallyFilled, CancelPending, Filled} }

  function CountOpen(locals: seq<Lifecycle>): nat
    decreases |locals|
  {
    if locals == [] then 0
    else CountOpen(locals[..|locals| - 1]) + if Skipped(locals[|locals| - 1]) then 0 else 1
  }

  /** The sweep's verdict on an order: unresolved exactly when the broker does not know an order it must,
      or when the ledger, after the attempt, does not have what the broker reports. */
  predicate Judged(t: Tally, local: Lifecycle, find: map<Name, BrokerOrder>) {
    local.id in t.unresolved
    <==> !Skipped(local)
         && if local.id in find then !Agrees(t.book, local.id, find[local.id]) else NeedsBroker(local.state)
  }

  /** A reconcile that does not end the pass returns exactly when the ledger then agrees with the broker. */
  lemma ReturnsIffAgrees(b: Book, local: Lifecycle, o: BrokerOrder, at: int)
    requires BookInv(b) && SameIntent(b, local)
    ensures var (b', r) := AfterReconcile(b, local, o, at);
            r.Done? || r.fault.ReconciliationFault? ==> (r.Done? <==> Agrees(b', local.id, o))
  {
    ReconcileFacts(b, local, o, at);
    var (b', r) := AfterReconcile(b, local, o, at);
    if Agrees(b', local.id, o) && r == Raised(ReconciliationFault) {
      BindKeeps(b, local.id, o.id);
      PastBindRefuses(AfterBind(b, local.id, o.id).0, local.id, o, at);
    }
  }

  lemma PastBindRefuses(b: Book, id: Name, o: BrokerOrder, at: int)
    requires BookInv(b) && id in b.rows && b.rows[id].doc.requested == o.qty
    requires PastBind(b, id, o, at).1 == Raised(ReconciliationFault)
    ensures !Landed(PastBind(b, id, o, at).0, id, o)
  {
    var b' := PastBind(b, id, o, at).0;
    if b.rows[id].doc.state == Approved {
      TransitionKeeps(b, id, Submitted, at, PaperRecovery, None);
      var b2 := AfterTransition(b, id, Submitted, at, PaperRecovery, None).0;
      StatusFrame(b2, id, o, at);
      if Landed(b', id, o) { LandedStays(b', id, o, at); }
    } else if b.rows[id].doc.state !in {Created, PendingRisk} {
      StatusFrame(b, id, o, at);
      if Landed(b', id, o) { LandedStays(b', id, o, at); }
    }
  }

  lemma CountedFacts(t: Tally, local: Lifecycle, find: map<Name, BrokerOrder>, at: int)
    requires BookInv(t.book) && SameIntent(t.book, local) && local.id !in t.unresolved
    ensures var t' := Counted(t, local, find, at);
            BookInv(t'.book) && t'.book.ids == t.book.ids && SameIntent(t'.book, local)
            && (forall k :: k in t.book.rows && k != local.id ==> k in t'.book.rows && t'.book.rows[k] == t.book.rows[k])
            && (t.fault.Some? ==> t' == t)
            && (t'.unresolved == t.unresolved || t'.unresolved == t.unresolved + [local.id])
            && (t'.fault.None? ==>
                  t'.matched + |t'.unresolved| + t.checked == t.matched + |t.unresolved| + t'.checked
                  && t'.checked == t.checked + (if Skipped(local) then 0 else 1)
                  && Judged(t', local, find))
  {
    if t.fault.None? && !Skipped(local) && local.id in find {
      ReconcileFacts(t.book, local, find[local.id], at);
      ReturnsIffAgrees(t.book, local, find[local.id], at);
    }
  }

  /** Only orders of the sweep are unresolved, each once. */
  predicate OnlyOf(unresolved: seq<Name>, locals: seq<Lifecycle>) {
    (forall u :: 0 <= u < |unresolved| ==> exists i :: 0 <= i < |locals| && locals[i].id == unresolved[u])
    && (forall u, v :: 0 <= u < v < |unresolved| ==> unresolved[u] != unresolved[v])
  }

  /** Orders outside the sweep are as before, orders of the sweep are all still there. */
  predicate SweepFrame(b: Book, b': Book, locals: seq<Lifecycle>) {
    (forall k :: k in b.rows && (forall i :: 0 <= i < |locals| ==> locals[i].id != k) ==>
       k in b'.rows && b'.rows[k] == b.rows[k])
    && (forall i :: 0 <= i < |locals| ==> locals[i].id in b'.rows)
  }

  predicate AllJudged(t: Tally, locals: seq<Lifecycle>, find: map<Name, BrokerOrder>) {
    forall i :: 0 <= i < |locals| ==> Judged(t, locals[i], find)
  }

  lemma OneMoreJudged(t0: Tally, t: Tally, rest: seq<Lifecycle>, local: Lifecycle, find: map<Name, BrokerOrder>)
    requires AllJudged(t0, rest, find) && Judged(t, local, find)
    requires forall i :: 0 <= i < |rest| ==> rest[i].id != local.id && rest[i].id in t0.book.rows
    requires t.unresolved == t0.unresolved || t.unresolved == t0.unresolved + [local.id]
    requires forall k :: k in t0.book.rows && k != local.id ==> k in t.book.rows && t.book.rows[k] == t0.book.rows[k]
    ensures AllJudged(t, rest + [local], find)
  {
    assert forall i :: 0 <= i < |rest| ==> Judged(t, rest[i], find);
  }

  lemma OneMoreOnly(unresolved: seq<Name>, rest: seq<Lifecycle>, local: Lifecycle)
    requires OnlyOf(unresolved, rest) && local.id !in unresolved
    ensures OnlyOf(unresolved, rest + [local]) && OnlyOf(unresolved + [local.id], rest + [local])
  {
    var all := rest + [local];
    assert all[|rest|].id == local.id;
    forall u | 0 <= u < |unresolved| ensures exists i :: 0 <= i < |all| && all[i].id == unresolved[u] {
      var i :| 0 <= i < |rest| && rest[i].id == unresolved[u];
      assert all[i].id == unresolved[u];
    }
  }

  /** A sweep that raises nothing checks every order not cancelled or rejected and splits them into matched and
      unresolved, the unresolved being exactly those the ledger does not share with the broker afterwards. */
  lemma {:induction false} SweepFacts(b: Book, locals: seq<Lifecycle>, find: map<Name, BrokerOrder>, at: int)
    requires BookInv(b) && Stored(b, locals)
    ensures var t := Sweep(b, locals, find, at);
            BookInv(t.book) && t.book.ids == b.ids && OnlyOf(t.unresolved, locals) && SweepFrame(b, t.book, locals)
            && (t.fault.None? ==>
                  t.matched + |t.unresolved| == t.checked == CountOpen(locals) && AllJudged(t, locals, find))
    decreases |locals|
  {
    if locals != [] {
      var rest, local := locals[..|locals| - 1], locals[|locals| - 1];
      assert locals == rest + [local];
      assert forall i :: 0 <= i < |rest| ==> rest[i] == locals[i] && rest[i].id != local.id;
      SweepFacts(b, rest, find, at);
      SweepStep(b, rest, local, find, at);
    }
  }

  lemma SweepStep(b: Book, rest: seq<Lifecycle>, local: Lifecycle, find: map<Name, BrokerOrder>, at: int)
    requires SameIntent(b, local) && forall i :: 0 <= i < |rest| ==> rest[i].id != local.id
    requires var t := Sweep(b, rest, find, at);
             BookInv(t.book) && t.book.ids == b.ids && OnlyOf(t.unresolved, rest) && SweepFrame(b, t.book, rest)
             && (t.fault.None? ==>
                   t.matched + |t.unresolved| == t.checked == CountOpen(rest) && AllJudged(t, rest, find))
    ensures var t := Sweep(b, rest + [local], find, at);
            BookInv(t.book) && t.book.ids == b.ids && OnlyOf(t.unresolved, rest + [local])
            && SweepFrame(b, t.book, rest + [local])
            && (t.fault.None? ==>
                  t.matched + |t.unresolved| == t.checked == CountOpen(rest + [local])
                  && AllJudged(t, rest + [local], find))
  {
    var t0, all := Sweep(b, rest, find, at), rest + [local];
    assert t0.book.rows[local.id] == b.rows[local.id];
    assert local.id !in t0.unresolved;
    CountedFacts(t0, local, find, at);
    OneMoreOnly(t0.unresolved, rest, local);
    var t := Counted(t0, local, find, at);
    FrameGrows(b, t0.book, t.book, rest, local);
    if t.fault.None? { OneMoreJudged(t0, t, rest, local, find); }
  }

  lemma FrameGrows(b: Book, b0: Book, b': Book, rest: seq<Lifecycle>, local: Lifecycle)
    requires SweepFrame(b, b0, rest) && local.id in b'.rows
    requires forall k :: k in b0.rows && k != local.id ==> k in b'.rows && b'.rows[k] == b0.rows[k]
    ensures SweepFrame(b, b', rest + [local])
  {
    var all := rest + [local];
    assert all[|rest|] == local;
    forall k | k in b.rows && forall i :: 0 <= i < |all| ==> all[i].id != k
      ensures k in b'.rows && b'.rows[k] == b.rows[k]
    {
      assert forall i :: 0 <= i < |rest| ==> rest[i] == all[i];
    }
    forall i | 0 <= i < |all| ensures all[i].id in b'.rows {
      if i < |rest| { assert rest[i].id in b0.rows; }
    }
  }

  // ---- the positions ----

  predicate Managed(o: Lifecycle, plans: set<Name>) { o.planId in plans && o.filled > 0 }

  function ManagedQty(docs: seq<Lifecycle>, plans: set<Name>, symbol: Name): nat
    decreases |docs|
  {
    if docs == [] then 0
    else
      var o := docs[|docs| - 1];
      ManagedQty(docs[..|docs| - 1], plans, symbol) + if Managed(o, plans) && o.symbol == symbol then o.filled else 0
  }

  predicate Sound(p: Position) { p.long && p.qty.Some? && p.qty.value > 0.0 }

  function BrokerQty(positions: seq<Position>, symbol: Name): real
    decreases |positions|
  {
    if positions == [] then 0.0
    else
      var p := positions[|positions| - 1];
      BrokerQty(positions[..|positions| - 1], symbol) + if Sound(p) && p.symbol == symbol then p.qty.value else 0.0
  }

  function Symbols(positions: seq<Position>): set<Name> { set p | p in positions :: p.symbol }

  function ManagedSymbols(docs: seq<Lifecycle>, plans: set<Name>): set<Name> {
    set o | o in docs && Managed(o, plans) :: o.symbol
  }

  predicate HoldsSound(positions: seq<Position>, s: Name) {
    exists p :: p in positions && p.symbol == s && Sound(p)
  }

  predicate HoldsUnsound(positions: seq<Position>, s: Name) {
    exists p :: p in positions && p.symbol == s && !Sound(p)
  }

  /** A symbol held short or in an unreadable quantity, or held in another quantity than the ledger filled. */
  predicate Mismatched(docs: seq<Lifecycle>, plans: set<Name>, positions: seq<Position>, symbol: Name) {
    HoldsUnsound(positions, symbol)
    || (symbol in ManagedSymbols(docs, plans) && HoldsSound(positions, symbol)
        && BrokerQty(positions, symbol) != ManagedQty(docs, plans, symbol) as real)
  }

  function ReportOf(t: Tally, docs: seq<Lifecycle>, plans: set<Name>, positions: seq<Position>): Report {
    var symbols := Symbols(positions);
    var unmatched := symbols - ManagedSymbols(docs, plans);
    var mismatched := set s | s in symbols && Mismatched(docs, plans, positions, s);
    var denominator := t.checked + |symbols|;
    var total := t.matched + |symbols| - |unmatched| - |mismatched|;
    Report(t.checked, t.matched, t.unresolved, symbols, unmatched, mismatched,
           if denominator == 0 then 1.0 else total as real / denominator as real,
           t.unresolved == [] && unmatched == {} && mismatched == {})
  }

  lemma SubsetSize<T>(a: set<T>, b: set<T>)
    requires a <= b
    ensures |a| <= |b|
  {
    assert b == a + (b - a);
  }

  /** It is safe to resume exactly when the match rate is one. */
  lemma SafeIffRateIsOne(t: Tally, docs: seq<Lifecycle>, plans: set<Name>, positions: seq<Position>)
    requires t.matched + |t.unresolved| == t.checked
    ensures var r := ReportOf(t, docs, plans, positions); r.safe <==> r.matchRate == 1.0
  {
    var r := ReportOf(t, docs, plans, positions);
    SubsetSize(r.unmatched, r.symbols);
    SubsetSize(r.mismatched, r.symbols);
    var denominator := t.checked + |r.symbols|;
    var total := t.matched + |r.symbols| - |r.unmatched| - |r.mismatched|;
    if denominator > 0 { QuotientIsOne(total, denominator); }
  }

  lemma QuotientIsOne(n: int, d: int)
    requires d > 0
    ensures n as real / d as real == 1.0 <==> n == d
  {
    assert n as real / d as real * d as real == n as real;
  }

  lemma UnitQuotient(n: int, d: int)
    requires d > 0 && -d <= n <= d
    ensures -1.0 <= n as real / d as real <= 1.0 && (n as real / d as real < 0.0 <==> n < 0)
  {
    var q := n as real / d as real;
    assert q * d as real == n as real;
  }

  /** Held symbols that the ledger manages in the quantity held. */
  function SoundSymbols(docs: seq<Lifecycle>, plans: set<Name>, positions: seq<Position>): set<Name> {
    set s | s in Symbols(positions) && s in ManagedSymbols(docs, plans) && !Mismatched(docs, plans, positions, s)
  }

  /** Held symbols the ledger does not manage, held short or in a quantity that is not a positive number. */
  function StraySymbols(docs: seq<Lifecycle>, plans: set<Name>, positions: seq<Position>): set<Name> {
    set s | s in Symbols(positions) && s !in ManagedSymbols(docs, plans) && HoldsUnsound(positions, s)
  }

  /** The rate lies in [-1, 1], and it is negative exactly when the unmanaged symbols held short or in an unsound
      quantity, each counted twice, outnumber the matched orders and the soundly managed symbols together. */
  lemma RateBounds(t: Tally, docs: seq<Lifecycle>, plans: set<Name>, positions: seq<Position>)
    requires t.matched + |t.unresolved| == t.checked
    ensures var r := ReportOf(t, docs, plans, positions);
            -1.0 <= r.matchRate <= 1.0
            && (r.matchRate < 0.0
                <==> t.matched + |SoundSymbols(docs, plans, positions)| < |StraySymbols(docs, plans, positions)|)
  {
    var r := ReportOf(t, docs, plans, positions);
    var sound, stray := SoundSymbols(docs, plans, positions), StraySymbols(docs, plans, positions);
    SymbolsSplit(t, docs, plans, positions);
    SubsetSize(r.unmatched, r.symbols);
    SubsetSize(r.mismatched, r.symbols);
    SubsetSize(stray, r.symbols);
    var denominator := t.checked + |r.symbols|;
    if denominator > 0 { UnitQuotient(t.matched + |sound| - |stray|, denominator); }
  }

  /** Every held symbol is soundly managed, unmanaged or mismatched, the stray ones being both. */
  lemma SymbolsSplit(t: Tally, docs: seq<Lifecycle>, plans: set<Name>, positions: seq<Position>)
    ensures var r := ReportOf(t, docs, plans, positions);
            |r.symbols| - |r.unmatched| - |r.mismatched|
            == |SoundSymbols(docs, plans, positions)| - |StraySymbols(docs, plans, positions)|
  {
    var r := ReportOf(t, docs, plans, positions);
    var sound, stray := SoundSymbols(docs, plans, positions), StraySymbols(docs, plans, positions);
    assert r.unmatched * r.mismatched == stray;
    assert r.symbols == sound + (r.unmatched + r.mismatched) && sound * (r.unmatched + r.mismatched) == {};
    assert |r.unmatched + r.mismatched| == |r.unmatched| + |r.mismatched| - |r.unmatched * r.mismatched|;
  }

  /** An unmanaged short position is subtracted twice: a rate below zero. */
  lemma UnmanagedShortIsNegative(symbol: Name, qty: Option<real>)
    ensures ReportOf(Tally(Book(map[], []), 0, 0, [], None), [], {}, [Position(symbol, false, qty)]).matchRate == -1.0
  {
    var positions := [Position(symbol, false, qty)];
    var r := ReportOf(Tally(Book(map[], []), 0, 0, [], None), [], {}, positions);
    assert positions[0] in positions;
    assert r.symbols == {symbol} == r.unmatched == r.mismatched;
  }

  // ---- the startup pass ----

  method ListOrders(ledger: Ledger) returns (docs: seq<Lifecycle>)
    requires Listed(ledger.State())
    ensures docs == Docs(ledger.State())
  {
    docs := [];
    for i := 0 to |ledger.ids|
      invariant docs == Docs(ledger.State())[..i]
    {
      docs := docs + [ledger.rows[ledger.ids[i]].doc];
    }
  }

  /** Reconciles one listed order and adds it to the counts. */
  method CountOrder(ledger: Ledger, local: Lifecycle, find: map<Name, BrokerOrder>, at: int, ghost t: Tally)
    returns (checks: nat, matches: nat, misses: seq<Name>, fault: Option<Fault>)
    requires t.book == ledger.State() && t.fault.None?
    modifies ledger
    ensures Counted(t, local, find, at)
            == Tally(ledger.State(), t.checked + checks, t.matched + matches, t.unresolved + misses, fault)
  {
    assert t.unresolved + [] == t.unresolved;
    checks, matches, misses, fault := 0, 0, [], None;
    if Skipped(local) { return; }
    checks := 1;
    if local.id !in find {
      if NeedsBroker(local.state) {
        misses := [local.id];
      } else {
        matches := 1;
      }
      return;
    }
    var r := ReconcileBrokerOrder(ledger, local, find[local.id], at);
    if r.Done? {
      matches := 1;
    } else if r.fault.ReconciliationFault? {
      misses := [local.id];
    } else {
      fault := Some(r.fault);
    }
  }

  method SweepOrders(ledger: Ledger, locals: seq<Lifecycle>, find: map<Name, BrokerOrder>, at: int)
    returns (checked: nat, matched: nat, unresolved: seq<Name>, fault: Option<Fault>)
    modifies ledger
    ensures Sweep(old(ledger.State()), locals, find, at)
            == Tally(ledger.State(), checked, matched, unresolved, fault)
  {
    ghost var b := ledger.State();
    checked, matched, unresolved, fault := 0, 0, [], None;
    for i := 0 to |locals|
      invariant Sweep(b, locals[..i], find, at) == Tally(ledger.State(), checked, matched, unresolved, None)
    {
      assert locals[..i + 1][..i] == locals[..i];
      var checks, matches, misses, raised :=
        CountOrder(ledger, locals[i], find, at, Sweep(b, locals[..i], find, at));
      checked, matched, unresolved := checked + checks, matched + matches, unresolved + misses;
      if raised.Some? {
        FaultEnds(b, locals, find, at, i + 1);
        fault := raised;
        return;
      }
    }
    assert locals[..|locals|] == locals;
  }

  /** One pass of reconcile_startup; a fault other than a reconciliation error ends it. */
  method ReconcileStartup(ledger: Ledger, find: map<Name, BrokerOrder>, positions: seq<Position>,
                          plans: set<Name>, at: int) returns (report: Reply<Report>)
    requires BookInv(ledger.State())
    modifies ledger
    ensures var t := Sweep(old(ledger.State()), Docs(old(ledger.State())), find, at);
            ledger.State() == t.book && BookInv(t.book)
            && report == if t.fault.Some? then Raised(t.fault.value)
                         else Done(ReportOf(t, Docs(t.book), plans, positions))
  {
    ghost var b := ledger.State();
    var locals := ListOrders(ledger);
    StoredDocs(b);
    SweepFacts(b, locals, find, at);
    var checked, matched, unresolved, fault := SweepOrders(ledger, locals, find, at);
    if fault.Some? { return Raised(fault.value); }
    var docs := ListOrders(ledger);
    var r := Compare(checked, matched, unresolved, docs, plans, positions, Sweep(b, locals, find, at));
    return Done(r);
  }

  lemma StoredDocs(b: Book)
    requires BookInv(b)
    ensures Stored(b, Docs(b))
  {}

  lemma {:induction false} FaultEnds(b: Book, locals: seq<Lifecycle>, find: map<Name, BrokerOrder>, at: int, n: nat)
    requires n <= |locals| && Sweep(b, locals[..n], find, at).fault.Some?
    ensures Sweep(b, locals, find, at) == Sweep(b, locals[..n], find, at)
    decreases |locals| - n
  {
    if n == |locals| {
      assert locals[..n] == locals;
    } else {
      assert locals[..n + 1][..n] == locals[..n];
      FaultEnds(b, locals, find, at, n + 1);
    }
  }

  method ManagedQuantities(docs: seq<Lifecycle>, plans: set<Name>) returns (managed: map<Name, nat>)
    ensures managed.Keys == ManagedSymbols(docs, plans)
    ensures forall s :: s in managed ==> managed[s] == ManagedQty(docs, plans, s)
  {
    managed := map[];
    for i := 0 to |docs|
      invariant managed.Keys == ManagedSymbols(docs[..i], plans)
      invariant forall s :: ManagedQty(docs[..i], plans, s) == if s in managed then managed[s] else 0
    {
      var o := docs[i];
      assert docs[..i + 1][..i] == docs[..i];
      assert forall q :: q in docs[..i + 1] <==> q in docs[..i] || q == o;
      if Managed(o, plans) {
        managed := managed[o.symbol := (if o.symbol in managed then managed[o.symbol] else 0) + o.filled];
      }
    }
    assert docs[..|docs|] == docs;
  }

  /** The sound quantities held per symbol, and the symbols with an unsound position. */
  ghost predicate Holdings(positions: seq<Position>, held: map<Name, real>, bad: set<Name>) {
    (forall s :: s in held <==> HoldsSound(positions, s))
    && (forall s :: BrokerQty(positions, s) == if s in held then held[s] else 0.0)
    && (forall s :: s in bad <==> HoldsUnsound(positions, s))
  }

  method HeldQuantities(positions: seq<Position>) returns (held: map<Name, real>, bad: set<Name>)
    ensures Holdings(positions, held, bad)
  {
    held, bad := map[], {};
    for i := 0 to |positions|
      invariant Holdings(positions[..i], held, bad)
    {
      var p := positions[i];
      assert positions[..i + 1] == positions[..i] + [p];
      if Sound(p) {
        held := held[p.symbol := (if p.symbol in held then held[p.symbol] else 0.0) + p.qty.value];
      } else {
        bad := bad + {p.symbol};
      }
    }
    assert positions[..|positions|] == positions;
  }

  method Mismatches(docs: seq<Lifecycle>, plans: set<Name>, positions: seq<Position>)
    returns (symbols: set<Name>, unmatched: set<Name>, mismatched: set<Name>)
    ensures symbols == Symbols(positions) && unmatched == symbols - ManagedSymbols(docs, plans)
    ensures mismatched == set s | s in symbols && Mismatched(docs, plans, positions, s)
  {
    var managed := ManagedQuantities(docs, plans);
    var held, bad := HeldQuantities(positions);
    symbols := Symbols(positions);
    unmatched := symbols - managed.Keys;
    mismatched := bad + set s | s in managed && s in held && held[s] != managed[s] as real;
    assert forall s :: s in mismatched <==> s in symbols && Mismatched(docs, plans, positions, s);
  }

  /** The position counts and the report. */
  method Compare(checked: nat, matched: nat, unresolved: seq<Name>, docs: seq<Lifecycle>, plans: set<Name>,
                 positions: seq<Position>, ghost t: Tally) returns (r: Report)
    requires (t.checked, t.matched, t.unresolved) == (checked, matched, unresolved)
    ensures r == ReportOf(t, docs, plans, positions)
  {
    var symbols, unmatched, mismatched := Mismatches(docs, plans, positions);
    var denominator := checked + |symbols|;
    var total := matched + |symbols| - |unmatched| - |mismatched|;
    r := Report(checked, matched, unresolved, symbols, unmatched, mismatched,
                if denominator == 0 then 1.0 else total as real / denominator as real,
                unresolved == [] && unmatched == {} && mismatched == {});
  }
}
