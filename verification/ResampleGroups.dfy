/** What a resampled bar contains, and that no volume is lost. */
module ResampleGroups {
  import opened Numbers
  import opened Sorting
  import opened Texts
  import opened Resample

  // ---- groups ----

  /** The rows that fall into one slot. */
  function RowsIn(rows: seq<Row>, sessions: seq<Session>, interval: int, asof: int, slot: Slot): seq<Row>
    requires interval > 0
  {
    if rows == [] then []
    else
      var rest, last := RowsIn(rows[..|rows| - 1], sessions, interval, asof, slot), rows[|rows| - 1];
      if SlotOf(sessions, interval, asof, last.ts) == Some(slot) then rest + [last] else rest
  }

  function Highest(rows: seq<Row>): real
    requires rows != []
  {
    if |rows| == 1 then rows[0].high else Max(Highest(rows[..|rows| - 1]), rows[|rows| - 1].high)
  }

  function Lowest(rows: seq<Row>): real
    requires rows != []
  {
    if |rows| == 1 then rows[0].low else Min(Lowest(rows[..|rows| - 1]), rows[|rows| - 1].low)
  }

  function VolumeOf(rows: seq<Row>): int {
    if rows == [] then 0 else VolumeOf(rows[..|rows| - 1]) + rows[|rows| - 1].volume
  }

  function TradesOf(rows: seq<Row>): int {
    if rows == [] then 0 else TradesOf(rows[..|rows| - 1]) + rows[|rows| - 1].trades
  }

  /** Volume that carries a vwap, and that volume times its vwap. */
  function PricedVolume(rows: seq<Row>): int {
    if rows == [] then 0
    else PricedVolume(rows[..|rows| - 1]) + if Weighs(rows[|rows| - 1]) then rows[|rows| - 1].volume else 0
  }

  function PricedValue(rows: seq<Row>): real {
    if rows == [] then 0.0
    else
      var last := rows[|rows| - 1];
      PricedValue(rows[..|rows| - 1]) + if Weighs(last) then last.vwap.value * last.volume as real else 0.0
  }

  /** A bucket holds its slot's rows: first open, last close, extremes, sums and count. */
  predicate Holds(b: Bucket, rows: seq<Row>) {
    rows != [] && b.open == rows[0].open && b.close == rows[|rows| - 1].close && b.high == Highest(rows)
    && b.low == Lowest(rows) && b.volume == VolumeOf(rows) && b.trades == TradesOf(rows) && b.count == |rows|
    && b.weight == PricedVolume(rows) && b.weighted == PricedValue(rows)
  }

  /** A bar of rows; its vwap is that of the rows that have one. */
  predicate BarOf(b: Bar, rows: seq<Row>) {
    rows != [] && b.open == rows[0].open && b.close == rows[|rows| - 1].close && b.high == Highest(rows)
    && b.low == Lowest(rows) && b.volume == VolumeOf(rows) && b.trades == TradesOf(rows) && b.count == |rows|
    && (b.vwap.None? <==> PricedVolume(rows) == 0)
    && (b.vwap.Some? ==> b.vwap.value == PricedValue(rows) / PricedVolume(rows) as real)
  }

  lemma HoldsOneMore(b: Bucket, rows: seq<Row>, r: Row)
    requires Holds(b, rows)
    ensures Holds(Merged(b, r), rows + [r])
  {
    assert (rows + [r])[..|rows|] == rows;
  }

  lemma HoldsFirst(slot: Slot, r: Row)
    ensures Holds(Started(slot, r), [r])
  {
    assert [r][..0] == [];
  }

  predicate Alike(a: Bucket, b: Bucket) { SameKey(a.slot, b.slot) }

  predicate SlotsDiffer(buckets: seq<Bucket>) { Apart(buckets, Alike) }

  /** Merging changes the bucket with the key and no other. */
  lemma {:induction false} MergedAt(buckets: seq<Bucket>, slot: Slot, r: Row)
    requires SlotsDiffer(buckets)
    ensures var m := MergedInto(buckets, slot, r);
            forall i :: 0 <= i < |m| ==>
              m[i] == if SameKey(buckets[i].slot, slot) then Merged(buckets[i], r) else buckets[i]
  {
    if buckets != [] {
      var rest, last := buckets[..|buckets| - 1], buckets[|buckets| - 1];
      MergedAt(rest, slot, r);
      if SameKey(last.slot, slot) {
        forall i | 0 <= i < |rest| ensures !SameKey(buckets[i].slot, slot) {
          assert !Alike(buckets[i], last);
        }
      }
    }
  }

  /** Every bucket holds exactly the rows of its slot, keys do not repeat, and every placed row has its bucket. */
  predicate Grouped(buckets: seq<Bucket>, rows: seq<Row>, sessions: seq<Session>, interval: int, asof: int)
    requires interval > 0
  {
    SlotsDiffer(buckets)
    && (forall i :: 0 <= i < |buckets| ==> Holds(buckets[i], RowsIn(rows, sessions, interval, asof, buckets[i].slot)))
    && AllKeyed(buckets, rows, sessions, interval, asof)
  }

  lemma {:induction false} NoRowsWithoutKey(rows: seq<Row>, sessions: seq<Session>, interval: int, asof: int, slot: Slot)
    requires interval > 0
    requires forall k :: 0 <= k < |rows| ==> SlotOf(sessions, interval, asof, rows[k].ts) != Some(slot)
    ensures RowsIn(rows, sessions, interval, asof, slot) == []
  {
    if rows != [] { NoRowsWithoutKey(rows[..|rows| - 1], sessions, interval, asof, slot); }
  }

  lemma {:induction false} AccumulatedGroups(rows: seq<Row>, sessions: seq<Session>, interval: int, asof: int)
    requires interval > 0 && DistinctDates(sessions)
    ensures Grouped(Accumulated(rows, sessions, interval, asof), rows, sessions, interval, asof)
  {
    if rows != [] {
      var rest, r := rows[..|rows| - 1], rows[|rows| - 1];
      AccumulatedGroups(rest, sessions, interval, asof);
      AccumulatedProper(rest, sessions, interval, asof);
      var slot := SlotOf(sessions, interval, asof, r.ts);
      if slot.Some? { SlotIsProper(sessions, interval, asof, r.ts); }
      GroupOneMore(Accumulated(rest, sessions, interval, asof), rest, r, sessions, interval, asof);
      assert rows == rest + [r];
    }
  }

  lemma GroupOneMore(before: seq<Bucket>, rest: seq<Row>, r: Row, sessions: seq<Session>, interval: int, asof: int)
    requires interval > 0 && DistinctDates(sessions) && Grouped(before, rest, sessions, interval, asof)
    requires AllProper(before, sessions, interval)
    requires var slot := SlotOf(sessions, interval, asof, r.ts);
             slot.Some? ==> ProperSlot(sessions, interval, slot.value)
    ensures Grouped(Added(before, SlotOf(sessions, interval, asof, r.ts), r), rest + [r], sessions, interval, asof)
  {
    var slot := SlotOf(sessions, interval, asof, r.ts);
    assert (rest + [r])[..|rest|] == rest;
    if slot.Some? {
      if HasKey(before, slot.value) {
        JoinGroup(before, rest, r, sessions, interval, asof, slot.value);
      } else {
        OpenGroup(before, rest, r, sessions, interval, asof, slot.value);
      }
    }
  }

  /** A row of a slot already seen joins that slot's bucket. */
  lemma JoinGroup(before: seq<Bucket>, rest: seq<Row>, r: Row, sessions: seq<Session>, interval: int, asof: int, s: Slot)
    requires interval > 0 && DistinctDates(sessions) && Grouped(before, rest, sessions, interval, asof)
    requires AllProper(before, sessions, interval) && ProperSlot(sessions, interval, s) && HasKey(before, s)
    requires SlotOf(sessions, interval, asof, r.ts) == Some(s)
    ensures Grouped(MergedInto(before, s, r), rest + [r], sessions, interval, asof)
  {
    var after, rows := MergedInto(before, s, r), rest + [r];
    MergedAt(before, s, r);
    HasKeyKept(before, s, r);
    assert rows[..|rest|] == rest;
    forall i | 0 <= i < |after| ensures Holds(after[i], RowsIn(rows, sessions, interval, asof, after[i].slot)) {
      if SameKey(before[i].slot, s) {
        KeyFixesSlot(sessions, interval, before[i].slot, s);
        HoldsOneMore(before[i], RowsIn(rest, sessions, interval, asof, s), r);
      }
    }
  }

  /** The first row of a slot opens its bucket. */
  lemma OpenGroup(before: seq<Bucket>, rest: seq<Row>, r: Row, sessions: seq<Session>, interval: int, asof: int, s: Slot)
    requires interval > 0 && Grouped(before, rest, sessions, interval, asof) && !HasKey(before, s)
    requires SlotOf(sessions, interval, asof, r.ts) == Some(s)
    ensures Grouped(before + [Started(s, r)], rest + [r], sessions, interval, asof)
  {
    var after, rows := before + [Started(s, r)], rest + [r];
    assert rows[..|rest|] == rest;
    NoRowsWithoutKey(rest, sessions, interval, asof, s);
    HoldsFirst(s, r);
    forall i | 0 <= i < |before| ensures before[i].slot != s { assert !SameKey(before[i].slot, s); }
    forall q | HasKey(before, q) ensures HasKey(after, q) {
      var i :| 0 <= i < |before| && SameKey(before[i].slot, q);
      assert SameKey(after[i].slot, q);
    }
    assert SameKey(after[|before|].slot, s);
  }

  predicate AllKeyed(buckets: seq<Bucket>, rows: seq<Row>, sessions: seq<Session>, interval: int, asof: int)
    requires interval > 0
  {
    forall k :: 0 <= k < |rows| ==>
      var slot := SlotOf(sessions, interval, asof, rows[k].ts);
      slot.Some? ==> HasKey(buckets, slot.value)
  }

  lemma HasKeyKept(before: seq<Bucket>, s: Slot, r: Row)
    requires HasKey(before, s)
    ensures forall q :: HasKey(before, q) ==> HasKey(MergedInto(before, s, r), q)
  {
    MergedSlots(before, s, r);
    forall q | HasKey(before, q) ensures HasKey(MergedInto(before, s, r), q) {
      var i :| 0 <= i < |before| && SameKey(before[i].slot, q);
      assert SameKey(MergedInto(before, s, r)[i].slot, q);
    }
  }

  /** Every published bar is the bar of exactly its slot's rows, every row in a completed bucket is in one, and the
      bars come in strictly ascending order. */
  lemma BarsHoldTheirRows(frame: seq<Row>, sessions: seq<Session>, interval: int, asof: int)
    requires interval > 0 && DistinctDates(sessions)
    ensures var bars, rows := Resampled(frame, sessions, interval, asof), SortedByTime(frame);
            (forall i :: 0 <= i < |bars| ==> BarOf(bars[i], RowsIn(rows, sessions, interval, asof, bars[i].slot)))
            && (forall i, j :: 0 <= i < j < |bars| ==> KeyBefore(bars[i].slot, bars[j].slot))
            && forall r :: r in rows && SlotOf(sessions, interval, asof, r.ts).Some? ==>
                 exists b :: b in bars && b.slot == SlotOf(sessions, interval, asof, r.ts).value
  {
    var rows := SortedByTime(frame);
    var buckets := Accumulated(rows, sessions, interval, asof);
    var sorted, bars := SortedByKey(buckets), Resampled(frame, sessions, interval, asof);
    AccumulatedGroups(rows, sessions, interval, asof);
    AccumulatedProper(rows, sessions, interval, asof);
    SortedMembers(buckets, KeyAfter);
    SortedAscends(buckets, KeyAfter);
    SortedApart(buckets, KeyAfter, Alike);
    forall i | 0 <= i < |bars| ensures BarOf(bars[i], RowsIn(rows, sessions, interval, asof, bars[i].slot)) {
      assert sorted[i] in buckets;
      var k :| 0 <= k < |buckets| && buckets[k] == sorted[i];
      assert Holds(buckets[k], RowsIn(rows, sessions, interval, asof, buckets[k].slot));
    }
    forall i, j | 0 <= i < j < |bars| ensures KeyBefore(bars[i].slot, bars[j].slot) {
      assert !KeyAfter(sorted[i], sorted[j]) && !Alike(sorted[i], sorted[j]);
    }
    forall r | r in rows && SlotOf(sessions, interval, asof, r.ts).Some?
      ensures exists b :: b in bars && b.slot == SlotOf(sessions, interval, asof, r.ts).value
    {
      RowHasBar(buckets, rows, r, sessions, interval, asof);
    }
  }

  lemma RowHasBar(buckets: seq<Bucket>, rows: seq<Row>, r: Row, sessions: seq<Session>, interval: int, asof: int)
    requires interval > 0 && DistinctDates(sessions) && AllProper(buckets, sessions, interval)
    requires AllKeyed(buckets, rows, sessions, interval, asof) && r in rows && SlotOf(sessions, interval, asof, r.ts).Some?
    ensures exists b :: b in AllFrozen(SortedByKey(buckets)) && b.slot == SlotOf(sessions, interval, asof, r.ts).value
  {
    var slot, sorted := SlotOf(sessions, interval, asof, r.ts).value, SortedByKey(buckets);
    var k :| 0 <= k < |rows| && rows[k] == r;
    assert HasKey(buckets, slot);
    var i :| 0 <= i < |buckets| && SameKey(buckets[i].slot, slot);
    SlotIsProper(sessions, interval, asof, r.ts);
    KeyFixesSlot(sessions, interval, buckets[i].slot, slot);
    SortedMembers(buckets, KeyAfter);
    assert buckets[i] in sorted;
    var j :| 0 <= j < |sorted| && sorted[j] == buckets[i];
    assert AllFrozen(sorted)[j] == Frozen(sorted[j]);
  }

  // ---- conservation ----

  function BarVolume(bars: seq<Bar>): int {
    if bars == [] then 0 else BarVolume(bars[..|bars| - 1]) + bars[|bars| - 1].volume
  }

  function BucketVolume(buckets: seq<Bucket>): int {
    if buckets == [] then 0 else BucketVolume(buckets[..|buckets| - 1]) + buckets[|buckets| - 1].volume
  }

  /** Volume of the rows whose bucket is complete. */
  function PlacedVolume(rows: seq<Row>, sessions: seq<Session>, interval: int, asof: int): int
    requires interval > 0
  {
    if rows == [] then 0
    else
      PlacedVolume(rows[..|rows| - 1], sessions, interval, asof)
      + if SlotOf(sessions, interval, asof, rows[|rows| - 1].ts).Some? then rows[|rows| - 1].volume else 0
  }

  lemma {:induction false} MergedVolume(buckets: seq<Bucket>, slot: Slot, r: Row)
    requires HasKey(buckets, slot)
    ensures BucketVolume(MergedInto(buckets, slot, r)) == BucketVolume(buckets) + r.volume
  {
    var rest, last := buckets[..|buckets| - 1], buckets[|buckets| - 1];
    var m := MergedInto(buckets, slot, r);
    if SameKey(last.slot, slot) {
      assert m[..|m| - 1] == rest;
    } else {
      var i :| 0 <= i < |buckets| && SameKey(buckets[i].slot, slot);
      assert rest[i] == buckets[i];
      MergedVolume(rest, slot, r);
      assert m[..|m| - 1] == MergedInto(rest, slot, r);
    }
  }

  lemma {:induction false} AccumulatedVolume(rows: seq<Row>, sessions: seq<Session>, interval: int, asof: int)
    requires interval > 0
    ensures BucketVolume(Accumulated(rows, sessions, interval, asof)) == PlacedVolume(rows, sessions, interval, asof)
  {
    if rows != [] {
      var rest, r := rows[..|rows| - 1], rows[|rows| - 1];
      AccumulatedVolume(rest, sessions, interval, asof);
      var before, slot := Accumulated(rest, sessions, interval, asof), SlotOf(sessions, interval, asof, r.ts);
      if slot.Some? {
        if HasKey(before, slot.value) {
          MergedVolume(before, slot.value, r);
        } else {
          assert (before + [Started(slot.value, r)])[..|before|] == before;
        }
      }
    }
  }

  lemma {:induction false} InsertedVolume(s: seq<Bucket>, b: Bucket)
    ensures BucketVolume(Inserted(s, b, KeyAfter)) == BucketVolume(s) + b.volume
  {
    if s == [] || !KeyBefore(b.slot, s[|s| - 1].slot) {
      assert (s + [b])[..|s|] == s;
    } else {
      InsertedVolume(s[..|s| - 1], b);
      var m := Inserted(s, b, KeyAfter);
      assert m[..|m| - 1] == Inserted(s[..|s| - 1], b, KeyAfter);
    }
  }

  lemma {:induction false} SortVolume(s: seq<Bucket>)
    ensures BucketVolume(SortedByKey(s)) == BucketVolume(s)
  {
    if s != [] {
      SortVolume(s[..|s| - 1]);
      InsertedVolume(SortedByKey(s[..|s| - 1]), s[|s| - 1]);
    }
  }

  lemma {:induction false} FrozenVolume(s: seq<Bucket>)
    ensures BarVolume(AllFrozen(s)) == BucketVolume(s)
  {
    if s != [] {
      FrozenVolume(s[..|s| - 1]);
      assert AllFrozen(s)[..|s| - 1] == AllFrozen(s[..|s| - 1]);
    }
  }

  lemma {:induction false} InsertedPlaced(s: seq<Row>, r: Row, sessions: seq<Session>, interval: int, asof: int)
    requires interval > 0
    ensures PlacedVolume(Inserted(s, r, RowAfter), sessions, interval, asof)
         == PlacedVolume(s + [r], sessions, interval, asof)
  {
    assert (s + [r])[..|s|] == s;
    if s != [] && s[|s| - 1].ts > r.ts {
      var rest := s[..|s| - 1];
      InsertedPlaced(rest, r, sessions, interval, asof);
      assert (rest + [r])[..|rest|] == rest;
      var m := Inserted(s, r, RowAfter);
      assert m[..|m| - 1] == Inserted(rest, r, RowAfter);
    }
  }

  lemma {:induction false} SortPlaced(s: seq<Row>, sessions: seq<Session>, interval: int, asof: int)
    requires interval > 0
    ensures PlacedVolume(SortedByTime(s), sessions, interval, asof) == PlacedVolume(s, sessions, interval, asof)
  {
    if s != [] {
      var rest, r := s[..|s| - 1], s[|s| - 1];
      SortPlaced(rest, sessions, interval, asof);
      InsertedPlaced(SortedByTime(rest), r, sessions, interval, asof);
      assert (SortedByTime(rest) + [r])[..|SortedByTime(rest)|] == SortedByTime(rest);
    }
  }

  /** The volume of all bars is the volume of the frame's rows in completed buckets. */
  lemma VolumeIsConserved(frame: seq<Row>, sessions: seq<Session>, interval: int, asof: int)
    requires interval > 0
    ensures BarVolume(Resampled(frame, sessions, interval, asof)) == PlacedVolume(frame, sessions, interval, asof)
  {
    var rows := SortedByTime(frame);
    SortPlaced(frame, sessions, interval, asof);
    AccumulatedVolume(rows, sessions, interval, asof);
    SortVolume(Accumulated(rows, sessions, interval, asof));
    FrozenVolume(SortedByKey(Accumulated(rows, sessions, interval, asof)));
  }
}
