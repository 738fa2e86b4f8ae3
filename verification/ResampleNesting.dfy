/** Resampling nests: m-minute bars resampled to k*m minutes are the k*m-minute bars. */
module ResampleNesting {
  import opened Numbers
  import opened Sorting
  import opened Texts
  import opened Resample

  /** Sessions in time order without overlap. */
  predicate OrderedSchedule(sessions: seq<Session>) {
    (forall i :: 0 <= i < |sessions| ==> sessions[i].open < sessions[i].close)
    && forall i, j :: 0 <= i < j < |sessions| ==>
         sessions[i].close <= sessions[j].open && sessions[i].date < sessions[j].date
  }

  predicate TimesAscend(rows: seq<Row>) { Ascending(rows, RowAfter) }

  // ---- slots in order ----

  lemma {:induction false} SessionIsTheOne(sessions: seq<Session>, k: nat, ts: int)
    requires OrderedSchedule(sessions) && k < |sessions| && sessions[k].open <= ts < sessions[k].close
    ensures SessionOf(sessions, ts) == Some(sessions[k])
  {
    if k > 0 {
      assert sessions[0].close <= sessions[k].open;
      SessionIsTheOne(sessions[1..], k - 1, ts);
    }
  }

  /** A later row's slot is the same or strictly later, in key and in time. */
  lemma SlotsFollow(sessions: seq<Session>, interval: int, asof: int, ts: int, ts': int)
    requires OrderedSchedule(sessions) && interval > 0 && ts <= ts'
    requires SlotOf(sessions, interval, asof, ts).Some? && SlotOf(sessions, interval, asof, ts').Some?
    ensures var a, b := SlotOf(sessions, interval, asof, ts).value, SlotOf(sessions, interval, asof, ts').value;
            a == b || (KeyBefore(a, b) && a.end <= b.start && a.start < b.start)
  {
    SessionOfFacts(sessions, ts);
    SessionOfFacts(sessions, ts');
    var s, s' := SessionOf(sessions, ts).value, SessionOf(sessions, ts').value;
    var i :| 0 <= i < |sessions| && sessions[i] == s;
    var j :| 0 <= j < |sessions| && sessions[j] == s';
    RowInSlot(s, interval, ts);
    RowInSlot(s', interval, ts');
    if i == j { SlotsFollowIn(s, interval, ts, ts'); }
  }

  lemma SlotsFollowIn(s: Session, interval: int, ts: int, ts': int)
    requires interval > 0 && s.open <= ts <= ts' < s.close
    ensures var a, b := SlotIn(s, interval, ts), SlotIn(s, interval, ts');
            a == b || (a.end <= b.start && a.start < b.start)
  {
    var q, q' := (ts - s.open) / MINUTE / interval, (ts' - s.open) / MINUTE / interval;
    QuotientGrows(ts - s.open, ts' - s.open, MINUTE);
    QuotientGrows((ts - s.open) / MINUTE, (ts' - s.open) / MINUTE, interval);
    if q < q' { Scales(q + 1, q', interval); }
  }

  lemma Scales(a: int, b: int, c: int)
    requires a <= b && c >= 0
    ensures a * c <= b * c
  {
    assert (b - a) * c >= 0;
  }

  lemma QuotientGrows(a: int, b: int, d: int)
    requires a <= b && d > 0
    ensures a / d <= b / d
  {
    var q, q' := a / d, b / d;
    assert (q' - q) * d == q' * d - q * d > -d;
    if q' - q <= -1 { Scales(q' - q, -1, d); }
  }

  lemma NestedQuotient(a: int, m: int, k: int)
    requires a >= 0 && m > 0 && k > 0 && k * m > 0
    ensures a / (k * m) == a / m / k
  {
    var q, r := a / m, a % m;
    var p, t := q / k, q % k;
    Scales(t, k - 1, m);
    Scales(0, t, m);
    DivisionIsUnique(a, k * m, p, t * m + r);
  }

  lemma DivisionIsUnique(a: int, d: int, q: int, r: int)
    requires d > 0 && a == q * d + r && 0 <= r < d
    ensures a / d == q
  {
    var e := a / d;
    assert (q - e) * d == q * d - e * d;
    if q - e >= 1 {
      Scales(1, q - e, d);
    } else if q - e <= -1 {
      Scales(q - e, -1, d);
    }
  }

  /** The coarse slot of a row is the coarse slot of its fine slot's start, and is complete only if the fine one is. */
  lemma SlotNests(sessions: seq<Session>, m: int, k: int, asof: int, ts: int)
    requires OrderedSchedule(sessions) && m > 0 && k > 0 && k * m > 0
    ensures var fine := SlotOf(sessions, m, asof, ts);
            SlotOf(sessions, k * m, asof, ts)
            == if fine.Some? then SlotOf(sessions, k * m, asof, fine.value.start) else None
  {
    SessionOfFacts(sessions, ts);
    var s := SessionOf(sessions, ts);
    if s.Some? {
      SlotInNests(s.value, m, k, ts);
      RowInSlot(s.value, m, ts);
      var i :| 0 <= i < |sessions| && sessions[i] == s.value;
      SessionIsTheOne(sessions, i, SlotIn(s.value, m, ts).start);
    }
  }

  lemma SlotInNests(s: Session, m: int, k: int, ts: int)
    requires m > 0 && k > 0 && k * m > 0 && s.open <= ts < s.close
    ensures SlotIn(s, k * m, SlotIn(s, m, ts).start) == SlotIn(s, k * m, ts)
    ensures SlotIn(s, m, ts).end <= SlotIn(s, k * m, ts).end
  {
    var offset := (ts - s.open) / MINUTE;
    var q := offset / m;
    var start := SlotIn(s, m, ts).start;
    CoarseOfStart(offset, q, m, k);
    CoarseEnd(q, q / k, m, k);
  }

  lemma CoarseOfStart(offset: int, q: int, m: int, k: int)
    requires m > 0 && k > 0 && k * m > 0 && offset >= 0 && q == offset / m
    ensures q * m >= 0 && q * m / (k * m) == offset / (k * m) == q / k
  {
    Scales(0, q, m);
    NestedQuotient(offset, m, k);
    DivisionIsUnique(q * m, m, q, 0);
    NestedQuotient(q * m, m, k);
  }

  lemma CoarseEnd(q: int, p: int, m: int, k: int)
    requires m > 0 && k > 0 && p == q / k
    ensures q * m + m <= p * (k * m) + k * m
  {
    var t := q % k;
    Scales(t, k - 1, m);
  }

  // ---- the accumulated buckets are in order ----

  predicate Chain(buckets: seq<Bucket>) {
    forall i, j :: 0 <= i < j < |buckets| ==>
      KeyBefore(buckets[i].slot, buckets[j].slot) && buckets[i].slot.start < buckets[j].slot.start
  }

  predicate FromRows(buckets: seq<Bucket>, rows: seq<Row>, sessions: seq<Session>, interval: int, asof: int)
    requires interval > 0
  {
    forall i :: 0 <= i < |buckets| ==>
      exists k :: 0 <= k < |rows| && SlotOf(sessions, interval, asof, rows[k].ts) == Some(buckets[i].slot)
  }

  /** On ascending rows a new row either extends the last bucket or opens a later one. */
  function AddedLast(buckets: seq<Bucket>, slot: Option<Slot>, r: Row): seq<Bucket> {
    if slot.None? then buckets
    else if buckets != [] && buckets[|buckets| - 1].slot == slot.value then
      buckets[..|buckets| - 1] + [Merged(buckets[|buckets| - 1], r)]
    else buckets + [Started(slot.value, r)]
  }

  lemma {:induction false} AccumulatedInOrder(rows: seq<Row>, sessions: seq<Session>, interval: int, asof: int)
    requires OrderedSchedule(sessions) && interval > 0 && TimesAscend(rows)
    ensures var b := Accumulated(rows, sessions, interval, asof);
            Chain(b) && FromRows(b, rows, sessions, interval, asof)
    ensures rows != [] ==>
              Accumulated(rows, sessions, interval, asof)
              == AddedLast(Accumulated(rows[..|rows| - 1], sessions, interval, asof),
                           SlotOf(sessions, interval, asof, rows[|rows| - 1].ts), rows[|rows| - 1])
  {
    if rows != [] {
      var rest, r := rows[..|rows| - 1], rows[|rows| - 1];
      AccumulatedInOrder(rest, sessions, interval, asof);
      AddInOrder(Accumulated(rest, sessions, interval, asof), rest, r, sessions, interval, asof);
      assert rows == rest + [r];
    }
  }

  lemma AddInOrder(before: seq<Bucket>, rest: seq<Row>, r: Row, sessions: seq<Session>, interval: int, asof: int)
    requires OrderedSchedule(sessions) && interval > 0 && Chain(before)
    requires FromRows(before, rest, sessions, interval, asof) && forall k :: 0 <= k < |rest| ==> rest[k].ts <= r.ts
    ensures var slot := SlotOf(sessions, interval, asof, r.ts);
            Chain(Added(before, slot, r)) && FromRows(Added(before, slot, r), rest + [r], sessions, interval, asof)
            && Added(before, slot, r) == AddedLast(before, slot, r)
  {
    var slot := SlotOf(sessions, interval, asof, r.ts);
    if slot.Some? {
      SlotComesLast(before, rest, r, sessions, interval, asof, slot.value);
      OrderedAdd(before, slot.value, r);
    }
    FromOneMore(before, rest, r, sessions, interval, asof);
  }

  /** The slot of a last row is that of an earlier bucket or after all of them. */
  lemma SlotComesLast(before: seq<Bucket>, rest: seq<Row>, r: Row, sessions: seq<Session>, interval: int, asof: int,
                      slot: Slot)
    requires OrderedSchedule(sessions) && interval > 0 && FromRows(before, rest, sessions, interval, asof)
    requires forall k :: 0 <= k < |rest| ==> rest[k].ts <= r.ts
    requires SlotOf(sessions, interval, asof, r.ts) == Some(slot)
    ensures forall i :: 0 <= i < |before| ==>
              before[i].slot == slot || (KeyBefore(before[i].slot, slot) && before[i].slot.start < slot.start)
  {
    forall i | 0 <= i < |before|
      ensures before[i].slot == slot || (KeyBefore(before[i].slot, slot) && before[i].slot.start < slot.start)
    {
      var k :| 0 <= k < |rest| && SlotOf(sessions, interval, asof, rest[k].ts) == Some(before[i].slot);
      SlotsFollow(sessions, interval, asof, rest[k].ts, r.ts);
    }
  }

  lemma OrderedAdd(before: seq<Bucket>, slot: Slot, r: Row)
    requires Chain(before)
    requires forall i :: 0 <= i < |before| ==>
               before[i].slot == slot || (KeyBefore(before[i].slot, slot) && before[i].slot.start < slot.start)
    ensures Added(before, Some(slot), r) == AddedLast(before, Some(slot), r)
    ensures Chain(Added(before, Some(slot), r))
  {
    forall i | 0 <= i < |before| - 1 ensures !SameKey(before[i].slot, slot) {
      assert KeyBefore(before[i].slot, before[|before| - 1].slot);
    }
  }

  lemma FromOneMore(before: seq<Bucket>, rest: seq<Row>, r: Row, sessions: seq<Session>, interval: int, asof: int)
    requires interval > 0 && FromRows(before, rest, sessions, interval, asof)
    ensures FromRows(Added(before, SlotOf(sessions, interval, asof, r.ts), r), rest + [r], sessions, interval, asof)
  {
    var slot := SlotOf(sessions, interval, asof, r.ts);
    var after, rows := Added(before, slot, r), rest + [r];
    if slot.Some? { MergedSlots(before, slot.value, r); }
    forall i | 0 <= i < |after|
      ensures exists k :: 0 <= k < |rows| && SlotOf(sessions, interval, asof, rows[k].ts) == Some(after[i].slot)
    {
      if i < |before| {
        var k :| 0 <= k < |rest| && SlotOf(sessions, interval, asof, rest[k].ts) == Some(before[i].slot);
        assert rows[k] == rest[k];
      } else {
        assert rows[|rest|] == r;
      }
    }
  }

  // ---- buckets as rows ----

  /** A published bar read back as a row of a frame. */
  function AsRow(b: Bar): Row { Row(b.slot.start, b.open, b.high, b.low, b.close, b.volume, b.trades, b.vwap) }

  function AsRows(bars: seq<Bar>): (r: seq<Row>)
    ensures |r| == |bars| && forall i :: 0 <= i < |r| ==> r[i] == AsRow(bars[i])
  {
    if bars == [] then [] else AsRows(bars[..|bars| - 1]) + [AsRow(bars[|bars| - 1])]
  }

  function RowOf(b: Bucket): Row { AsRow(Frozen(b)) }

  /** The same bar but for the count of source bars; full adds the vwap sums. */
  predicate Same(a: Bucket, b: Bucket, full: bool) {
    a.slot == b.slot && a.open == b.open && a.high == b.high && a.low == b.low && a.close == b.close
    && a.volume == b.volume && a.trades == b.trades && (full ==> a.weighted == b.weighted && a.weight == b.weight)
  }

  predicate AllSame(a: seq<Bucket>, b: seq<Bucket>, full: bool) {
    |a| == |b| && forall i :: 0 <= i < |a| ==> Same(a[i], b[i], full)
  }

  /** Rows that add the same to a bucket. */
  predicate SameRow(x: Row, y: Row, full: bool) {
    x.open == y.open && x.high == y.high && x.low == y.low && x.close == y.close && x.volume == y.volume
    && x.trades == y.trades && (full ==> WeightedOf(x) == WeightedOf(y) && WeightOf(x) == WeightOf(y))
  }

  lemma {:induction false} MergedSame(a: seq<Bucket>, b: seq<Bucket>, slot: Slot, x: Row, y: Row, full: bool)
    requires AllSame(a, b, full) && SameRow(x, y, full)
    ensures AllSame(MergedInto(a, slot, x), MergedInto(b, slot, y), full)
  {
    if a != [] { MergedSame(a[..|a| - 1], b[..|b| - 1], slot, x, y, full); }
  }

  lemma AddedSame(a: seq<Bucket>, b: seq<Bucket>, slot: Option<Slot>, x: Row, y: Row, full: bool)
    requires AllSame(a, b, full) && SameRow(x, y, full)
    ensures AllSame(Added(a, slot, x), Added(b, slot, y), full)
  {
    if slot.Some? {
      MergedSame(a, b, slot.value, x, y, full);
    }
  }

  /** xy adds what x and then y add. */
  predicate Joins(xy: Row, x: Row, y: Row, full: bool) {
    xy.open == x.open && xy.high == Max(x.high, y.high) && xy.low == Min(x.low, y.low) && xy.close == y.close
    && xy.volume == x.volume + y.volume && xy.trades == x.trades + y.trades
    && (full ==> WeightedOf(xy) == WeightedOf(x) + WeightedOf(y) && WeightOf(xy) == WeightOf(x) + WeightOf(y))
  }

  lemma {:induction false} MergedTwice(a: seq<Bucket>, slot: Slot, xy: Row, x: Row, y: Row, full: bool)
    requires Joins(xy, x, y, full)
    ensures AllSame(MergedInto(a, slot, xy), MergedInto(MergedInto(a, slot, x), slot, y), full)
  {
    if a != [] {
      MergedTwice(a[..|a| - 1], slot, xy, x, y, full);
      var once := MergedInto(a, slot, x);
      assert once[..|once| - 1]
          == if SameKey(a[|a| - 1].slot, slot) then a[..|a| - 1] else MergedInto(a[..|a| - 1], slot, x);
    }
  }

  lemma AddedTwice(a: seq<Bucket>, slot: Option<Slot>, xy: Row, x: Row, y: Row, full: bool)
    requires Joins(xy, x, y, full)
    ensures AllSame(Added(a, slot, xy), Added(Added(a, slot, x), slot, y), full)
  {
    if slot.Some? {
      var once := Added(a, slot, x);
      if HasKey(a, slot.value) {
        MergedTwice(a, slot.value, xy, x, y, full);
        MergedSlots(a, slot.value, x);
        var i :| 0 <= i < |a| && SameKey(a[i].slot, slot.value);
        assert SameKey(once[i].slot, slot.value);
      } else {
        assert SameKey(once[|a|].slot, slot.value);
        assert once[..|a|] == a;
      }
    }
  }

  // ---- vwap ----

  predicate Weighed(rows: seq<Row>) { forall k :: 0 <= k < |rows| ==> rows[k].vwap.Some? && rows[k].volume >= 0 }

  /** All the bucket's volume carries a vwap. */
  predicate FullyWeighed(b: Bucket) { b.weight == b.volume >= 0 && (b.weight == 0 ==> b.weighted == 0.0) }

  predicate AllFullyWeighed(buckets: seq<Bucket>) { forall i :: 0 <= i < |buckets| ==> FullyWeighed(buckets[i]) }

  lemma {:induction false} BucketsFullyWeighed(rows: seq<Row>, sessions: seq<Session>, interval: int, asof: int)
    requires interval > 0 && Weighed(rows)
    ensures AllFullyWeighed(Accumulated(rows, sessions, interval, asof))
  {
    if rows != [] {
      var rest, r := rows[..|rows| - 1], rows[|rows| - 1];
      assert forall i :: 0 <= i < |rest| ==> rest[i] == rows[i];
      BucketsFullyWeighed(rest, sessions, interval, asof);
      assert rows[|rows| - 1].vwap.Some? && r.volume >= 0;
      AddedFullyWeighed(Accumulated(rest, sessions, interval, asof), SlotOf(sessions, interval, asof, r.ts), r);
    }
  }

  lemma AddedFullyWeighed(a: seq<Bucket>, slot: Option<Slot>, r: Row)
    requires AllFullyWeighed(a) && r.vwap.Some? && r.volume >= 0
    ensures AllFullyWeighed(Added(a, slot, r))
  {
    if slot.Some? {
      MergedFullyWeighed(a, slot.value, r);
      assert FullyWeighed(Started(slot.value, r));
    }
  }

  lemma {:induction false} MergedFullyWeighed(a: seq<Bucket>, slot: Slot, r: Row)
    requires AllFullyWeighed(a) && r.vwap.Some? && r.volume >= 0
    ensures AllFullyWeighed(MergedInto(a, slot, r))
  {
    if a != [] {
      assert FullyWeighed(a[|a| - 1]);
      MergedFullyWeighed(a[..|a| - 1], slot, r);
    }
  }

  lemma RowOfFullyWeighed(b: Bucket)
    requires FullyWeighed(b)
    ensures WeightedOf(RowOf(b)) == b.weighted && WeightOf(RowOf(b)) == b.weight
  {
  }

  // ---- nesting ----

  function RowsOf(buckets: seq<Bucket>): seq<Row> { AsRows(AllFrozen(buckets)) }

  /** Accumulating the fine buckets coarsely is accumulating the rows coarsely. */
  lemma {:induction false} AccumulatedNests(rows: seq<Row>, sessions: seq<Session>, m: int, k: int, asof: int, full: bool)
    requires OrderedSchedule(sessions) && m > 0 && k > 0 && k * m > 0 && TimesAscend(rows)
    requires full ==> Weighed(rows)
    ensures AllSame(Accumulated(RowsOf(Accumulated(rows, sessions, m, asof)), sessions, k * m, asof),
                    Accumulated(rows, sessions, k * m, asof), full)
  {
    if rows != [] {
      var rest, r := rows[..|rows| - 1], rows[|rows| - 1];
      AccumulatedNests(rest, sessions, m, k, asof, full);
      AccumulatedInOrder(rows, sessions, m, asof);
      SlotNests(sessions, m, k, asof, r.ts);
      if full {
        BucketsFullyWeighed(rest, sessions, m, asof);
        assert r.vwap.Some? && r.volume >= 0;
      }
      NestOneMore(Accumulated(rest, sessions, m, asof), Accumulated(rest, sessions, k * m, asof), r, sessions, m, k, asof, full);
    }
  }

  lemma NestOneMore(fine: seq<Bucket>, coarse: seq<Bucket>, r: Row, sessions: seq<Session>, m: int, k: int, asof: int,
                    full: bool)
    requires m > 0 && k > 0 && k * m > 0
    requires AllSame(Accumulated(RowsOf(fine), sessions, k * m, asof), coarse, full)
    requires full ==> r.vwap.Some? && r.volume >= 0 && AllFullyWeighed(fine)
    requires var slot := SlotOf(sessions, m, asof, r.ts);
             SlotOf(sessions, k * m, asof, r.ts)
             == if slot.Some? then SlotOf(sessions, k * m, asof, slot.value.start) else None
    ensures AllSame(Accumulated(RowsOf(AddedLast(fine, SlotOf(sessions, m, asof, r.ts), r)), sessions, k * m, asof),
                    Added(coarse, SlotOf(sessions, k * m, asof, r.ts), r), full)
  {
    var slot := SlotOf(sessions, m, asof, r.ts);
    if slot.Some? {
      var big := SlotOf(sessions, k * m, asof, slot.value.start);
      var nested := Accumulated(RowsOf(fine), sessions, k * m, asof);
      NestAdd(fine, slot.value, r, sessions, k * m, asof, full);
      AddedSame(nested, coarse, big, r, r, full);
      SameIsTransitive(Accumulated(RowsOf(AddedLast(fine, slot, r)), sessions, k * m, asof), Added(nested, big, r),
                       Added(coarse, big, r), full);
    }
  }

  /** A row added to the fine buckets adds the same to the coarse accumulation of them as the row itself. */
  lemma NestAdd(fine: seq<Bucket>, slot: Slot, r: Row, sessions: seq<Session>, interval: int, asof: int, full: bool)
    requires interval > 0 && (full ==> r.vwap.Some? && r.volume >= 0 && AllFullyWeighed(fine))
    ensures var big := SlotOf(sessions, interval, asof, slot.start);
            AllSame(Accumulated(RowsOf(AddedLast(fine, Some(slot), r)), sessions, interval, asof),
                    Added(Accumulated(RowsOf(fine), sessions, interval, asof), big, r), full)
  {
    var after, big := AddedLast(fine, Some(slot), r), SlotOf(sessions, interval, asof, slot.start);
    if fine != [] && fine[|fine| - 1].slot == slot {
      var init, last := fine[..|fine| - 1], fine[|fine| - 1];
      assert after[..|after| - 1] == init;
      if full { JoinedWeights(last, r); }
      AddedTwice(Accumulated(RowsOf(init), sessions, interval, asof), big, RowOf(Merged(last, r)), RowOf(last), r, full);
    } else {
      var nested := Accumulated(RowsOf(fine), sessions, interval, asof);
      assert after[..|after| - 1] == fine;
      if full { RowOfFullyWeighed(Started(slot, r)); }
      AddedSame(nested, nested, big, RowOf(Started(slot, r)), r, full);
    }
  }

  lemma JoinedWeights(last: Bucket, r: Row)
    requires FullyWeighed(last) && r.vwap.Some? && r.volume >= 0
    ensures WeightedOf(RowOf(Merged(last, r))) == WeightedOf(RowOf(last)) + WeightedOf(r)
    ensures WeightOf(RowOf(Merged(last, r))) == WeightOf(RowOf(last)) + WeightOf(r)
  {
    RowOfFullyWeighed(last);
    RowOfFullyWeighed(Merged(last, r));
  }

  lemma SameIsTransitive(a: seq<Bucket>, b: seq<Bucket>, c: seq<Bucket>, full: bool)
    requires AllSame(a, b, full) && AllSame(b, c, full)
    ensures AllSame(a, c, full)
  {
  }

  // ---- the published bars ----

  lemma SortedRows(s: seq<Row>)
    ensures TimesAscend(SortedByTime(s)) && forall x :: x in SortedByTime(s) <==> x in s
  {
    SortedAscends(s, RowAfter);
    SortedMembers(s, RowAfter);
  }

  /** Two bars that agree in everything but the number of source bars and, unless full, the vwap. */
  predicate SameBar(a: Bar, b: Bar, full: bool) {
    a.(count := b.count, vwap := b.vwap) == b && (full ==> a.vwap == b.vwap)
  }

  /** Resampling m-minute bars to k*m minutes gives the k*m-minute bars of the original rows: slots, prices, volume
      and trades, and the vwap too when every row has one and no volume is negative. */
  lemma ResamplingNests(frame: seq<Row>, sessions: seq<Session>, m: int, k: int, asof: int, full: bool)
    requires OrderedSchedule(sessions) && m > 0 && k > 0 && k * m > 0
    requires full ==> Weighed(frame)
    ensures var inner := Resampled(frame, sessions, m, asof);
            var nested, direct := Resampled(AsRows(inner), sessions, k * m, asof), Resampled(frame, sessions, k * m, asof);
            |nested| == |direct| && forall i :: 0 <= i < |nested| ==> SameBar(nested[i], direct[i], full)
  {
    var rows := SortedByTime(frame);
    SortedRows(frame);
    if full {
      forall i | 0 <= i < |rows| ensures rows[i].vwap.Some? && rows[i].volume >= 0 { assert rows[i] in frame; }
    }
    PublishedInOrder(rows, sessions, m, asof);
    PublishedInOrder(rows, sessions, k * m, asof);
    var fine := Accumulated(rows, sessions, m, asof);
    AccumulatedInOrder(rows, sessions, m, asof);
    PublishedInOrder(RowsOf(fine), sessions, k * m, asof);
    AscendingIsSorted(RowsOf(fine), RowAfter);
    AccumulatedNests(rows, sessions, m, k, asof, full);
    FrozenSame(Accumulated(RowsOf(fine), sessions, k * m, asof), Accumulated(rows, sessions, k * m, asof), full);
  }

  /** On ascending rows the buckets come out already sorted. */
  lemma PublishedInOrder(rows: seq<Row>, sessions: seq<Session>, interval: int, asof: int)
    requires OrderedSchedule(sessions) && interval > 0 && TimesAscend(rows)
    ensures AllFrozen(SortedByKey(Accumulated(rows, sessions, interval, asof)))
         == AllFrozen(Accumulated(rows, sessions, interval, asof))
  {
    AccumulatedInOrder(rows, sessions, interval, asof);
    AscendingIsSorted(Accumulated(rows, sessions, interval, asof), KeyAfter);
  }

  lemma FrozenSame(a: seq<Bucket>, b: seq<Bucket>, full: bool)
    requires AllSame(a, b, full)
    ensures forall i :: 0 <= i < |a| ==> SameBar(AllFrozen(a)[i], AllFrozen(b)[i], full)
  {
    forall i | 0 <= i < |a| ensures SameBar(Frozen(a[i]), Frozen(b[i]), full) { assert Same(a[i], b[i], full); }
  }
}
