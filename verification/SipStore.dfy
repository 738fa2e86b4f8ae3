/** The SIP event store (execution/sip_store.py): one quote per symbol and second, bars and trades kept on first
    arrival. Times are stored and compared as texts. */
module SipStore {
  import opened Sorting
  import opened Texts
  import opened IsoTime

  datatype Symbol = Symbol(name: string)

  datatype Text = Text(chars: string)

  datatype Quote = Quote(symbol: Symbol, at: Stamp, prices: Text)

  /** A stored quote: its key is the symbol and the text of the whole second. */
  datatype QuoteRow = QuoteRow(symbol: Symbol, second: Text, at: Text, quote: Quote)

  datatype Kind = Bar | Trade

  /** A bar or a trade; the ID and the tape are a trade's and are part of its key. */
  datatype Tick = Tick(kind: Kind, symbol: Symbol, at: Stamp, id: int, tape: Text, content: Text)

  datatype Event = QuoteEvent(quote: Quote) | TickEvent(tick: Tick)

  datatype Tables = Tables(quotes: seq<QuoteRow>, ticks: seq<Tick>)

  function WholeSecond(t: Stamp): Stamp { t.(micro := 0) }

  function Stored(t: Stamp): Text { Text(Iso(t)) }

  predicate Less(a: Text, b: Text) { TextLess(a.chars, b.chars) }

  function RowFor(q: Quote): QuoteRow { QuoteRow(q.symbol, Stored(WholeSecond(q.at)), Stored(q.at), q) }

  predicate SameRow(a: QuoteRow, b: QuoteRow) { a.symbol == b.symbol && a.second == b.second }

  predicate SameKey(a: Tick, b: Tick) {
    a.kind == b.kind && a.symbol == b.symbol && Stored(a.at) == Stored(b.at)
    && (a.kind == Bar || (a.id == b.id && a.tape == b.tape))
  }

  /** A quote's row is keyed by its symbol and the first nineteen characters of its time, the whole second. */
  lemma RowKeyIsSecond(q: Quote)
    requires Valid(q.at)
    ensures |RowFor(q).at.chars| >= 19 && RowFor(q).symbol == q.symbol
    ensures RowFor(q).second.chars == RowFor(q).at.chars[..19] + "+00:00"
  {
    SameUntilZone(q.at);
  }

  /** Bars of one symbol and time are one, and so are trades of one symbol, time, ID and tape; nothing else is. */
  lemma SameKeyIff(a: Tick, b: Tick)
    requires Valid(a.at) && Valid(b.at)
    ensures SameKey(a, b)
       <==> a.kind == b.kind && a.symbol == b.symbol && a.at == b.at
            && (a.kind == Trade ==> a.id == b.id && a.tape == b.tape)
  {
    if Stored(a.at) == Stored(b.at) { TextIsInjective(a.at, b.at); }
  }

  // ---- appending ----

  function QuoteIndex(rows: seq<QuoteRow>, row: QuoteRow): (i: nat)
    ensures i <= |rows| && (i < |rows| ==> SameRow(rows[i], row))
    ensures forall k :: 0 <= k < i ==> !SameRow(rows[k], row)
  {
    if rows == [] || SameRow(rows[0], row) then 0 else 1 + QuoteIndex(rows[1..], row)
  }

  /** The conditional upsert: a stored quote gives way only to one whose time text is greater. */
  function Upserted(rows: seq<QuoteRow>, row: QuoteRow): seq<QuoteRow> {
    var i := QuoteIndex(rows, row);
    if i == |rows| then rows + [row] else if Less(rows[i].at, row.at) then rows[i := row] else rows
  }

  predicate HasKey(ticks: seq<Tick>, p: Tick) { exists i :: 0 <= i < |ticks| && SameKey(ticks[i], p) }

  function Appended(t: Tables, e: Event): Tables {
    match e
    case QuoteEvent(q) => t.(quotes := Upserted(t.quotes, RowFor(q)))
    case TickEvent(p) => if HasKey(t.ticks, p) then t else t.(ticks := t.ticks + [p])
  }

  function AppendedTo(t: Tables, events: seq<Event>): Tables {
    if events == [] then t else Appended(AppendedTo(t, events[..|events| - 1]), events[|events| - 1])
  }

  function AppendedAll(events: seq<Event>): Tables { AppendedTo(Tables([], []), events) }

  // ---- queries ----

  /** The symbol's row with the greatest time text. */
  function LatestRow(rows: seq<QuoteRow>, symbol: Symbol): Option<QuoteRow> {
    if rows == [] then None
    else
      var rest, r := LatestRow(rows[..|rows| - 1], symbol), rows[|rows| - 1];
      if r.symbol == symbol && (rest.None? || Less(rest.value.at, r.at)) then Some(r) else rest
  }

  function LatestQuote(t: Tables, symbol: Symbol): Option<Quote> {
    match LatestRow(t.quotes, symbol)
    case None => None
    case Some(r) => Some(r.quote)
  }

  predicate TextInRange(at: Text, start: Text, end: Text) { !Less(at, start) && Less(at, end) }

  /** The order of a query: by the time's text, trades of one time by their IDs. No two bars share a time. */
  predicate Follows(a: Tick, b: Tick) {
    Less(Stored(b.at), Stored(a.at)) || (Stored(a.at) == Stored(b.at) && a.id > b.id)
  }

  predicate Asked(p: Tick, kind: Kind, symbol: Symbol, start: Stamp, end: Stamp) {
    p.kind == kind && p.symbol == symbol && TextInRange(Stored(p.at), Stored(start), Stored(end))
  }

  /** The bars or trades of a symbol in a half-open range. */
  function TicksBetween(t: Tables, kind: Kind, symbol: Symbol, start: Stamp, end: Stamp): Result<seq<Tick>> {
    if !Before(start, end) then Err("end_utc must be after start_utc")
    else Ok(Sorted(Filter(t.ticks, (p: Tick) => Asked(p, kind, symbol, start, end)), Follows))
  }

  // ---- the full log ----

  predicate ValidEvent(e: Event) { match e case QuoteEvent(q) => Valid(q.at) case TickEvent(p) => Valid(p.at) }

  predicate ValidLog(events: seq<Event>) { forall i :: 0 <= i < |events| ==> ValidEvent(events[i]) }

  function QuotesOf(events: seq<Event>): seq<Quote> {
    if events == [] then []
    else
      var rest, e := QuotesOf(events[..|events| - 1]), events[|events| - 1];
      if e.QuoteEvent? then rest + [e.quote] else rest
  }

  function TicksOf(events: seq<Event>): seq<Tick> {
    if events == [] then []
    else
      var rest, e := TicksOf(events[..|events| - 1]), events[|events| - 1];
      if e.TickEvent? then rest + [e.tick] else rest
  }

  predicate ValidQuotes(log: seq<Quote>) { forall i :: 0 <= i < |log| ==> Valid(log[i].at) }

  lemma {:induction false} LogIsValid(events: seq<Event>)
    requires ValidLog(events)
    ensures ValidQuotes(QuotesOf(events)) && forall i :: 0 <= i < |TicksOf(events)| ==> Valid(TicksOf(events)[i].at)
  {
    if events != [] {
      LogIsValid(events[..|events| - 1]);
      assert ValidEvent(events[|events| - 1]);
    }
  }

  predicate SameSecond(a: Quote, b: Quote) { a.symbol == b.symbol && WholeSecond(a.at) == WholeSecond(b.at) }

  /** Entry i is the first-arrived of the latest quotes of its second. */
  predicate FirstOfSecond(log: seq<Quote>, i: nat)
    requires i < |log|
  {
    forall j :: 0 <= j < |log| && SameSecond(log[j], log[i]) ==>
      !Before(log[i].at, log[j].at) && (j < i ==> Before(log[j].at, log[i].at))
  }

  /** Entry i is the first-arrived of the symbol's latest quotes. */
  predicate FirstOfLatest(log: seq<Quote>, symbol: Symbol, i: nat)
    requires i < |log|
  {
    log[i].symbol == symbol
    && forall j :: 0 <= j < |log| && log[j].symbol == symbol ==>
         !Before(log[i].at, log[j].at) && (j < i ==> Before(log[j].at, log[i].at))
  }

  // ---- the index follows the log ----

  /** A row stands for log entry i. */
  predicate StandsFor(r: QuoteRow, log: seq<Quote>, i: nat) {
    i < |log| && r == RowFor(log[i]) && FirstOfSecond(log, i)
  }

  ghost predicate RowStands(rows: seq<QuoteRow>, log: seq<Quote>, k: nat)
    requires k < |rows|
  {
    exists i: nat :: StandsFor(rows[k], log, i)
  }

  predicate EntryHasRow(rows: seq<QuoteRow>, log: seq<Quote>, i: nat)
    requires i < |log|
  {
    HasRow(rows, RowFor(log[i]))
  }

  predicate KeysDiffer(rows: seq<QuoteRow>) { forall k, l :: 0 <= k < l < |rows| ==> !SameRow(rows[k], rows[l]) }

  /** Every row stands for an entry, every entry's second has a row, and no two rows share a key. */
  ghost predicate Indexes(rows: seq<QuoteRow>, log: seq<Quote>) {
    (forall k: nat {:trigger RowStands(rows, log, k)} :: k < |rows| ==> RowStands(rows, log, k))
    && (forall i: nat {:trigger EntryHasRow(rows, log, i)} :: i < |log| ==> EntryHasRow(rows, log, i))
    && KeysDiffer(rows)
  }

  predicate HasRow(rows: seq<QuoteRow>, row: QuoteRow) { exists k :: 0 <= k < |rows| && SameRow(rows[k], row) }

  lemma RowsAreSeconds(a: Quote, b: Quote)
    requires Valid(a.at) && Valid(b.at)
    ensures SameRow(RowFor(a), RowFor(b)) <==> SameSecond(a, b)
  {
    if SameRow(RowFor(a), RowFor(b)) { TextIsInjective(WholeSecond(a.at), WholeSecond(b.at)); }
  }

  /** An entry that stood for its second still does after a quote that does not replace it. */
  lemma StillStands(r: QuoteRow, log: seq<Quote>, i: nat, q: Quote)
    requires ValidQuotes(log) && Valid(q.at) && StandsFor(r, log, i)
    requires SameRow(r, RowFor(q)) ==> !Less(r.at, RowFor(q).at)
    ensures StandsFor(r, log + [q], i)
  {
    var all := log + [q];
    RowsAreSeconds(log[i], q);
    TextOrderIsTimeOrder(log[i].at, q.at);
    forall j | 0 <= j < |all| && SameSecond(all[j], all[i])
      ensures !Before(all[i].at, all[j].at) && (j < i ==> Before(all[j].at, all[i].at))
    {
      if j < |log| { assert all[j] == log[j]; }
    }
  }

  /** Any entry of the second of a quote that replaces, or lacks, its row is strictly earlier. */
  lemma EarlierInSecond(log: seq<Quote>, q: Quote, rows: seq<QuoteRow>, j: nat)
    requires ValidQuotes(log) && Valid(q.at) && Indexes(rows, log) && j < |log| && SameSecond(log[j], q)
    requires var k := QuoteIndex(rows, RowFor(q)); k < |rows| ==> Less(rows[k].at, RowFor(q).at)
    ensures Before(log[j].at, q.at) && !Before(q.at, log[j].at)
  {
    var k := QuoteIndex(rows, RowFor(q));
    RowsAreSeconds(log[j], q);
    assert EntryHasRow(rows, log, j);
    var l :| 0 <= l < |rows| && SameRow(rows[l], RowFor(log[j]));
    assert SameRow(rows[l], RowFor(q));
    assert RowStands(rows, log, k);
    var i: nat :| StandsFor(rows[k], log, i);
    RowsAreSeconds(log[i], q);
    TextOrderIsTimeOrder(log[i].at, q.at);
    assert SameSecond(log[j], log[i]);
    BeforeIsTotalOrder(log[i].at, log[j].at, q.at);
    BeforeIsTotalOrder(log[j].at, q.at, q.at);
  }

  /** A quote later than its second's row, or the first of its second, stands for that second. */
  lemma NewStands(log: seq<Quote>, q: Quote, rows: seq<QuoteRow>)
    requires ValidQuotes(log) && Valid(q.at) && Indexes(rows, log)
    requires var k := QuoteIndex(rows, RowFor(q)); k < |rows| ==> Less(rows[k].at, RowFor(q).at)
    ensures StandsFor(RowFor(q), log + [q], |log|)
  {
    var all := log + [q];
    BeforeIsTotalOrder(q.at, q.at, q.at);
    forall j | 0 <= j < |all| && SameSecond(all[j], q)
      ensures !Before(q.at, all[j].at) && (j < |log| ==> Before(all[j].at, q.at))
    {
      if j < |log| { EarlierInSecond(log, q, rows, j); }
    }
  }

  /** The key of a row, without its contents. */
  lemma UpsertRows(rows: seq<QuoteRow>, row: QuoteRow)
    requires KeysDiffer(rows)
    ensures var after, k := Upserted(rows, row), QuoteIndex(rows, row);
            |rows| <= |after| && k < |after| && SameRow(after[k], row)
            && (forall l :: 0 <= l < |rows| && l != k ==> after[l] == rows[l] && !SameRow(rows[l], row))
            && |after| == (if k == |rows| then |rows| + 1 else |rows|)
            && (after[k] == if k == |rows| || Less(rows[k].at, row.at) then row else rows[k])
    ensures KeysDiffer(Upserted(rows, row))
  {
    var k := QuoteIndex(rows, row);
    forall l | k < l < |rows| ensures !SameRow(rows[l], row) { assert !SameRow(rows[k], rows[l]); }
  }

  lemma UpsertStands(rows: seq<QuoteRow>, log: seq<Quote>, q: Quote, l: nat)
    requires ValidQuotes(log) && Valid(q.at) && Indexes(rows, log) && l < |Upserted(rows, RowFor(q))|
    ensures RowStands(Upserted(rows, RowFor(q)), log + [q], l)
  {
    var row, all := RowFor(q), log + [q];
    var after, k := Upserted(rows, row), QuoteIndex(rows, row);
    UpsertRows(rows, row);
    if l == k && (k == |rows| || Less(rows[k].at, row.at)) {
      NewStands(log, q, rows);
      assert StandsFor(after[l], all, |log|);
    } else {
      assert RowStands(rows, log, l);
      var i: nat :| StandsFor(rows[l], log, i);
      StillStands(rows[l], log, i, q);
    }
  }

  lemma UpsertCovers(rows: seq<QuoteRow>, row: QuoteRow, other: QuoteRow)
    requires KeysDiffer(rows) && HasRow(rows, other)
    ensures HasRow(Upserted(rows, row), other)
  {
    UpsertRows(rows, row);
    var l :| 0 <= l < |rows| && SameRow(rows[l], other);
    assert SameRow(Upserted(rows, row)[l], other);
  }

  lemma UpsertKeepsIndex(rows: seq<QuoteRow>, log: seq<Quote>, q: Quote)
    requires ValidQuotes(log) && Valid(q.at) && Indexes(rows, log)
    ensures Indexes(Upserted(rows, RowFor(q)), log + [q])
  {
    var row, all := RowFor(q), log + [q];
    var after := Upserted(rows, row);
    UpsertRows(rows, row);
    forall l: nat | l < |after| ensures RowStands(after, all, l) { UpsertStands(rows, log, q, l); }
    forall i: nat | i < |all| ensures EntryHasRow(after, all, i) {
      if i < |log| {
        assert EntryHasRow(rows, log, i);
        UpsertCovers(rows, row, RowFor(log[i]));
      } else {
        assert SameRow(after[QuoteIndex(rows, row)], row);
      }
    }
  }

  lemma {:induction false} StoreIndexesLog(events: seq<Event>)
    requires ValidLog(events)
    ensures Indexes(AppendedAll(events).quotes, QuotesOf(events))
  {
    if events != [] {
      var before, e := events[..|events| - 1], events[|events| - 1];
      StoreIndexesLog(before);
      LogIsValid(before);
      assert ValidEvent(e);
      if e.QuoteEvent? { UpsertKeepsIndex(AppendedAll(before).quotes, QuotesOf(before), e.quote); }
    }
  }

  // ---- the latest quote ----

  predicate RowOk(r: QuoteRow) { r.at == Stored(r.quote.at) && Valid(r.quote.at) }

  predicate RowsOk(rows: seq<QuoteRow>) { forall r :: r in rows ==> RowOk(r) }

  /** No row of the symbol is later. */
  predicate NoneLater(rows: seq<QuoteRow>, symbol: Symbol, best: QuoteRow) {
    forall k :: 0 <= k < |rows| && rows[k].symbol == symbol ==> !Before(best.quote.at, rows[k].quote.at)
  }

  lemma NoneLaterMoves(rows: seq<QuoteRow>, symbol: Symbol, best: QuoteRow, r: QuoteRow)
    requires NoneLater(rows, symbol, best) && RowOk(best) && RowOk(r)
    ensures var winner := if Less(best.at, r.at) then r else best;
            NoneLater(rows + [r], symbol, winner)
  {
    TextOrderIsTimeOrder(best.quote.at, r.quote.at);
    var winner := if Less(best.at, r.at) then r else best;
    forall k | 0 <= k < |rows + [r]| && (rows + [r])[k].symbol == symbol
      ensures !Before(winner.quote.at, (rows + [r])[k].quote.at)
    {
      var x := (rows + [r])[k].quote.at;
      BeforeIsTotalOrder(best.quote.at, x, r.quote.at);
      BeforeIsTotalOrder(x, r.quote.at, r.quote.at);
      BeforeIsTotalOrder(r.quote.at, r.quote.at, r.quote.at);
    }
  }

  lemma {:induction false} LatestIsRow(rows: seq<QuoteRow>, symbol: Symbol)
    ensures var f := LatestRow(rows, symbol);
            if f.Some? then f.value in rows && f.value.symbol == symbol
            else forall k :: 0 <= k < |rows| ==> rows[k].symbol != symbol
  {
    if rows != [] { LatestIsRow(rows[..|rows| - 1], symbol); }
  }

  lemma {:induction false} NoneLaterThanLatest(rows: seq<QuoteRow>, symbol: Symbol)
    requires RowsOk(rows)
    ensures LatestRow(rows, symbol).Some? ==> NoneLater(rows, symbol, LatestRow(rows, symbol).value)
  {
    if rows != [] {
      var rest, r := rows[..|rows| - 1], rows[|rows| - 1];
      assert rows == rest + [r];
      NoneLaterThanLatest(rest, symbol);
      LatestIsRow(rest, symbol);
      var f := LatestRow(rest, symbol);
      if r.symbol == symbol {
        if f.None? {
          BeforeIsTotalOrder(r.quote.at, r.quote.at, r.quote.at);
          assert NoneLater(rest + [r], symbol, r);
        } else {
          NoneLaterMoves(rest, symbol, f.value, r);
        }
      } else if f.Some? {
        assert NoneLater(rest + [r], symbol, f.value);
      }
    }
  }

  ghost predicate IsFirstOfLatest(log: seq<Quote>, symbol: Symbol, q: Quote) {
    exists i: nat :: i < |log| && log[i] == q && FirstOfLatest(log, symbol, i)
  }

  /** Whatever the order and the repetitions in which events were appended, the latest quote of a symbol is the
      first-arrived quote with the greatest time of the whole log, and there is none only when the log has none. */
  lemma LatestQuoteRefinesLog(events: seq<Event>, symbol: Symbol)
    requires ValidLog(events)
    ensures var log, q := QuotesOf(events), LatestQuote(AppendedAll(events), symbol);
            if q.Some? then IsFirstOfLatest(log, symbol, q.value) else forall i :: 0 <= i < |log| ==> log[i].symbol != symbol
  {
    StoreIndexesLog(events);
    LogIsValid(events);
    LatestOfIndex(AppendedAll(events).quotes, QuotesOf(events), symbol);
  }

  lemma LatestOfIndex(rows: seq<QuoteRow>, log: seq<Quote>, symbol: Symbol)
    requires ValidQuotes(log) && Indexes(rows, log)
    ensures var f := LatestRow(rows, symbol);
            if f.Some? then IsFirstOfLatest(log, symbol, f.value.quote)
            else forall i :: 0 <= i < |log| ==> log[i].symbol != symbol
  {
    forall r | r in rows ensures RowOk(r) {
      var k :| 0 <= k < |rows| && rows[k] == r;
      assert RowStands(rows, log, k);
    }
    LatestIsRow(rows, symbol);
    NoneLaterThanLatest(rows, symbol);
    var f := LatestRow(rows, symbol);
    if f.Some? {
      var k :| 0 <= k < |rows| && rows[k] == f.value;
      assert RowStands(rows, log, k);
      var i: nat :| StandsFor(rows[k], log, i);
      forall j | 0 <= j < |log| && log[j].symbol == symbol
        ensures !Before(log[i].at, log[j].at) && (j < i ==> Before(log[j].at, log[i].at))
      {
        LatestAgainst(rows, log, symbol, i, j);
      }
      assert FirstOfLatest(log, symbol, i);
    } else {
      forall j | 0 <= j < |log| ensures log[j].symbol != symbol {
        assert EntryHasRow(rows, log, j);
      }
    }
  }

  /** The latest row's entry against any other entry of the symbol. */
  lemma LatestAgainst(rows: seq<QuoteRow>, log: seq<Quote>, symbol: Symbol, i: nat, j: nat)
    requires ValidQuotes(log) && Indexes(rows, log) && i < |log| && j < |log| && log[j].symbol == symbol == log[i].symbol
    requires FirstOfSecond(log, i)
    requires forall k :: 0 <= k < |rows| && rows[k].symbol == symbol ==> !Before(log[i].at, rows[k].quote.at)
    ensures !Before(log[i].at, log[j].at) && (j < i ==> Before(log[j].at, log[i].at))
  {
    assert EntryHasRow(rows, log, j);
    var l :| 0 <= l < |rows| && SameRow(rows[l], RowFor(log[j]));
    assert RowStands(rows, log, l);
    var m: nat :| StandsFor(rows[l], log, m);
    RowsAreSeconds(log[m], log[j]);
    assert !Before(log[m].at, log[j].at) && !Before(log[i].at, log[m].at);
    if Before(log[i].at, log[j].at) {
      BeforeIsTotalOrder(log[i].at, log[m].at, log[j].at);
    }
    if !Before(log[j].at, log[i].at) {
      BeforeIsTotalOrder(log[i].at, log[j].at, log[j].at);
      BeforeIsTotalOrder(log[j].at, log[i].at, log[i].at);
      assert !Before(log[i].at, log[j].at) ==> log[i].at == log[j].at;
      assert !Before(log[i].at, log[j].at) ==> SameSecond(log[j], log[i]);
    }
  }

  // ---- bars and trades ----

  /** Entry i is the first with its key. */
  predicate FirstWithKey(log: seq<Tick>, i: nat)
    requires i < |log|
  {
    forall j :: 0 <= j < i ==> !SameKey(log[j], log[i])
  }

  ghost predicate FirstArrival(log: seq<Tick>, p: Tick) {
    exists i: nat :: i < |log| && log[i] == p && FirstWithKey(log, i)
  }

  ghost predicate KeptFirst(ticks: seq<Tick>, log: seq<Tick>) { forall p :: p in ticks <==> FirstArrival(log, p) }

  predicate AllKeyed(ticks: seq<Tick>, log: seq<Tick>) { forall i :: 0 <= i < |log| ==> HasKey(ticks, log[i]) }

  function Kept(ticks: seq<Tick>, p: Tick): seq<Tick> { if HasKey(ticks, p) then ticks else ticks + [p] }

  lemma NewKeyIsFirst(ticks: seq<Tick>, log: seq<Tick>, p: Tick)
    requires KeptFirst(ticks, log) && AllKeyed(ticks, log)
    ensures HasKey(ticks, p) <==> !FirstWithKey(log + [p], |log|)
  {
    var all := log + [p];
    if HasKey(ticks, p) {
      var k :| 0 <= k < |ticks| && SameKey(ticks[k], p);
      assert ticks[k] in ticks;
      var i: nat :| i < |log| && log[i] == ticks[k] && FirstWithKey(log, i);
      assert all[i] == log[i];
    } else {
      forall j | 0 <= j < |log| ensures !SameKey(all[j], p) { KeyCarries(ticks, log[j], p); }
    }
  }

  lemma FirstInPrefix(log: seq<Tick>, p: Tick, i: nat)
    requires i < |log|
    ensures FirstWithKey(log + [p], i) <==> FirstWithKey(log, i)
  {
    assert forall j :: 0 <= j <= i ==> (log + [p])[j] == log[j];
  }

  lemma KeepOneMore(ticks: seq<Tick>, log: seq<Tick>, p: Tick)
    requires KeptFirst(ticks, log) && AllKeyed(ticks, log)
    ensures KeptFirst(Kept(ticks, p), log + [p])
  {
    var after, all := Kept(ticks, p), log + [p];
    NewKeyIsFirst(ticks, log, p);
    forall x | x in after ensures FirstArrival(all, x) {
      if x in ticks {
        var i: nat :| i < |log| && log[i] == x && FirstWithKey(log, i);
        FirstInPrefix(log, p, i);
        assert all[i] == x;
      } else {
        assert all[|log|] == x;
      }
    }
    forall i: nat | i < |all| && FirstWithKey(all, i) ensures all[i] in after {
      if i < |log| {
        FirstInPrefix(log, p, i);
        assert FirstArrival(log, log[i]);
      }
    }
    forall x | FirstArrival(all, x) ensures x in after {
      var i: nat :| i < |all| && all[i] == x && FirstWithKey(all, i);
    }
  }

  lemma KeyOneMore(ticks: seq<Tick>, log: seq<Tick>, p: Tick)
    requires AllKeyed(ticks, log)
    ensures AllKeyed(Kept(ticks, p), log + [p])
  {
    var after, all := Kept(ticks, p), log + [p];
    forall i | 0 <= i < |all| ensures HasKey(after, all[i]) {
      if i < |log| {
        var k :| 0 <= k < |ticks| && SameKey(ticks[k], log[i]);
        assert SameKey(after[k], all[i]);
      } else if !HasKey(ticks, p) {
        assert SameKey(after[|ticks|], p);
      }
    }
  }

  lemma KeyCarries(ticks: seq<Tick>, x: Tick, p: Tick)
    requires HasKey(ticks, x) && !HasKey(ticks, p)
    ensures !SameKey(x, p)
  {
    var k :| 0 <= k < |ticks| && SameKey(ticks[k], x);
    assert !SameKey(ticks[k], p);
  }

  lemma {:induction false} StoreKeepsFirst(events: seq<Event>)
    ensures var t, log := AppendedAll(events), TicksOf(events);
            KeptFirst(t.ticks, log) && AllKeyed(t.ticks, log)
  {
    if events != [] {
      var before, e := events[..|events| - 1], events[|events| - 1];
      StoreKeepsFirst(before);
      if e.TickEvent? {
        KeepOneMore(AppendedAll(before).ticks, TicksOf(before), e.tick);
        KeyOneMore(AppendedAll(before).ticks, TicksOf(before), e.tick);
      }
    }
  }

  lemma RangeOfTexts(at: Stamp, start: Stamp, end: Stamp)
    requires Valid(at) && Valid(start) && Valid(end)
    ensures TextInRange(Stored(at), Stored(start), Stored(end)) <==> !Before(at, start) && Before(at, end)
  {
    TextOrderIsTimeOrder(at, start);
    TextOrderIsTimeOrder(at, end);
  }

  /** No two stored bars or trades have one key. */
  lemma {:induction false} KeysAreApart(events: seq<Event>)
    ensures Apart(AppendedAll(events).ticks, SameKey)
  {
    if events != [] {
      var before, e := events[..|events| - 1], events[|events| - 1];
      KeysAreApart(before);
      var ticks := AppendedAll(before).ticks;
      if e.TickEvent? && !HasKey(ticks, e.tick) {
        forall x | x in ticks ensures !SameKey(x, e.tick) { var k :| 0 <= k < |ticks| && ticks[k] == x; }
        ApartOneMore(ticks, e.tick, SameKey);
      }
    }
  }

  /** The order of a query on stored times, as an order of times. */
  lemma FollowsInTime(a: Tick, b: Tick)
    requires Valid(a.at) && Valid(b.at)
    ensures Follows(a, b) <==> Before(b.at, a.at) || (a.at == b.at && a.id > b.id)
  {
    TextOrderIsTimeOrder(b.at, a.at);
    TextIsInjective(a.at, b.at);
  }

  /** The texts are compared, so the order of a query is one on any two rows. */
  lemma FollowsIsOrder()
    ensures StrictOrder(Follows)
  {
    forall a, b: Tick | Follows(a, b) ensures !Follows(b, a) { TextOrder(Iso(a.at), Iso(b.at), Iso(b.at)); }
    forall a, b, c: Tick | Follows(a, c) ensures Follows(a, b) || Follows(b, c) {
      TextOrder(Iso(c.at), Iso(b.at), Iso(a.at));
      TextOrder(Iso(b.at), Iso(a.at), Iso(c.at));
      TextOrder(Iso(c.at), Iso(b.at), Iso(b.at));
    }
  }

  /** A range query returns the first arrivals of the symbol whose times lie in the half-open range, each of them once,
      in order of time, bars of strictly rising times and trades of one time by ID; an empty range raises. */
  lemma RangeIsChronological(events: seq<Event>, kind: Kind, symbol: Symbol, start: Stamp, end: Stamp)
    requires ValidLog(events) && Valid(start) && Valid(end)
    ensures var r := TicksBetween(AppendedAll(events), kind, symbol, start, end);
            (r.Ok? <==> Before(start, end))
            && (r.Ok? ==> (forall p :: p in r.value <==> FirstArrival(TicksOf(events), p) && p.kind == kind
                                                         && p.symbol == symbol && !Before(p.at, start) && Before(p.at, end))
                          && Chronological(r.value, kind))
  {
    if Before(start, end) {
      var ticks, keep := AppendedAll(events).ticks, (p: Tick) => Asked(p, kind, symbol, start, end);
      var kept := Filter(ticks, keep);
      StoreKeepsFirst(events);
      LogIsValid(events);
      FilterMembers(ticks, keep);
      SortedMembers(kept, Follows);
      forall p | p in ticks ensures Valid(p.at) { }
      forall p | p in ticks
        ensures keep(p) <==> p.kind == kind && p.symbol == symbol && !Before(p.at, start) && Before(p.at, end)
      {
        RangeOfTexts(p.at, start, end);
      }
      KeysAreApart(events);
      FilterApart(ticks, keep, SameKey);
      SortedApart(kept, Follows, SameKey);
      FollowsIsOrder();
      SortedAscends(kept, Follows);
      InOrder(Sorted(kept, Follows), kind, symbol);
    }
  }

  /** Times never fall and rise from bar to bar; trades of one time come by ID, and none comes twice. */
  predicate Chronological(s: seq<Tick>, kind: Kind) {
    forall i, j :: 0 <= i < j < |s| ==>
      !SameKey(s[i], s[j])
      && (Before(s[i].at, s[j].at) || (s[i].at == s[j].at && kind == Trade && s[i].id <= s[j].id))
  }

  lemma InOrder(s: seq<Tick>, kind: Kind, symbol: Symbol)
    requires forall p :: p in s ==> Valid(p.at) && p.kind == kind && p.symbol == symbol
    requires Ascending(s, Follows) && Apart(s, SameKey)
    ensures Chronological(s, kind)
  {
    forall i, j | 0 <= i < j < |s|
      ensures Before(s[i].at, s[j].at) || (s[i].at == s[j].at && kind == Trade && s[i].id <= s[j].id)
    {
      assert s[i] in s && s[j] in s && !Follows(s[i], s[j]) && !SameKey(s[i], s[j]);
      FollowsInTime(s[i], s[j]);
      BeforeIsTotalOrder(s[i].at, s[j].at, s[j].at);
    }
  }

  // ---- the store object ----

  class SipEventStore {
    var quotes: seq<QuoteRow>
    var ticks: seq<Tick>

    ghost function State(): Tables
      reads this
    {
      Tables(quotes, ticks)
    }

    constructor ()
      ensures State() == AppendedAll([])
    {
      quotes, ticks := [], [];
    }

    method Append(e: Event)
      modifies this
      ensures State() == Appended(old(State()), e)
    {
      match e
      case QuoteEvent(q) =>
        var row := RowFor(q);
        var i := QuoteIndex(quotes, row);
        if i == |quotes| {
          quotes := quotes + [row];
        } else if Less(quotes[i].at, row.at) {
          quotes := quotes[i := row];
        }
      case TickEvent(p) =>
        if !HasKey(ticks, p) { ticks := ticks + [p]; }
    }

    method AppendMany(events: seq<Event>)
      modifies this
      ensures State() == AppendedTo(old(State()), events)
    {
      ghost var before := State();
      for i := 0 to |events|
        invariant State() == AppendedTo(before, events[..i])
      {
        assert events[..i + 1][..i] == events[..i];
        Append(events[i]);
      }
      assert events[..|events|] == events;
    }

    method Latest(symbol: Symbol) returns (q: Option<Quote>)
      ensures q == LatestQuote(State(), symbol)
    {
      var best: Option<QuoteRow> := None;
      for i := 0 to |quotes|
        invariant best == LatestRow(quotes[..i], symbol)
      {
        assert quotes[..i + 1][..i] == quotes[..i];
        var r := quotes[i];
        if r.symbol == symbol && (best.None? || Less(best.value.at, r.at)) { best := Some(r); }
      }
      assert quotes[..|quotes|] == quotes;
      q := if best.None? then None else Some(best.value.quote);
    }
  }
}
