/** Completed-bar resampling (kernel/technical_monitor.py). Times are microseconds; a missing or non-finite vwap is
    None. Rows with equal timestamps keep their order. */
module Resample {
  import opened Numbers
  import opened Sorting
  import opened Texts

  const MINUTE := 60_000_000

  datatype Row = Row(ts: int, open: real, high: real, low: real, close: real, volume: int, trades: int,
                     vwap: Option<real>)
  datatype Session = Session(date: int, open: int, close: int)
  datatype Slot = Slot(date: int, start: int, end: int)

  /** A bucket being accumulated. */
  datatype Bucket = Bucket(slot: Slot, open: real, high: real, low: real, close: real, volume: int, trades: int,
                           weighted: real, weight: int, count: nat)

  datatype Bar = Bar(slot: Slot, open: real, high: real, low: real, close: real, volume: int, trades: int,
                     vwap: Option<real>, count: nat)

  // ---- placing a row ----

  function SessionOf(sessions: seq<Session>, ts: int): Option<Session> {
    if sessions == [] then None
    else if sessions[0].open <= ts < sessions[0].close then Some(sessions[0])
    else SessionOf(sessions[1..], ts)
  }

  function SlotIn(s: Session, interval: int, ts: int): Slot
    requires interval > 0
  {
    var offset := (ts - s.open) / MINUTE;
    var start := s.open + offset / interval * interval * MINUTE;
    var end := start + interval * MINUTE;
    Slot(s.date, start, if end < s.close then end else s.close)
  }

  /** The completed bucket a row belongs to: none outside the sessions, at or after the as-of time, or while the
      bucket is still open then. */
  function SlotOf(sessions: seq<Session>, interval: int, asof: int, ts: int): Option<Slot>
    requires interval > 0
  {
    var s := SessionOf(sessions, ts);
    if s.None? || ts >= asof then None
    else
      var slot := SlotIn(s.value, interval, ts);
      if slot.end > asof then None else Some(slot)
  }

  predicate SameKey(a: Slot, b: Slot) { a.date == b.date && a.start == b.start }

  // ---- accumulating ----

  predicate Weighs(r: Row) { r.vwap.Some? && r.volume > 0 }

  function WeightedOf(r: Row): real { if Weighs(r) then r.vwap.value * r.volume as real else 0.0 }

  function WeightOf(r: Row): int { if Weighs(r) then r.volume else 0 }

  function Started(slot: Slot, r: Row): Bucket {
    Bucket(slot, r.open, r.high, r.low, r.close, r.volume, r.trades, WeightedOf(r), WeightOf(r), 1)
  }

  function Merged(b: Bucket, r: Row): Bucket {
    b.(high := Max(b.high, r.high), low := Min(b.low, r.low), close := r.close, volume := b.volume + r.volume,
       trades := b.trades + r.trades, weighted := b.weighted + WeightedOf(r), weight := b.weight + WeightOf(r),
       count := b.count + 1)
  }

  predicate HasKey(buckets: seq<Bucket>, slot: Slot) {
    exists i :: 0 <= i < |buckets| && SameKey(buckets[i].slot, slot)
  }

  function MergedInto(buckets: seq<Bucket>, slot: Slot, r: Row): (m: seq<Bucket>)
    ensures |m| == |buckets|
  {
    if buckets == [] then []
    else
      var rest, last := buckets[..|buckets| - 1], buckets[|buckets| - 1];
      if SameKey(last.slot, slot) then rest + [Merged(last, r)] else MergedInto(rest, slot, r) + [last]
  }

  /** The dictionary of buckets, in insertion order, after one row. */
  function Added(buckets: seq<Bucket>, slot: Option<Slot>, r: Row): seq<Bucket> {
    if slot.None? then buckets
    else if HasKey(buckets, slot.value) then MergedInto(buckets, slot.value, r)
    else buckets + [Started(slot.value, r)]
  }

  function Accumulated(rows: seq<Row>, sessions: seq<Session>, interval: int, asof: int): seq<Bucket>
    requires interval > 0
  {
    if rows == [] then []
    else
      var r := rows[|rows| - 1];
      Added(Accumulated(rows[..|rows| - 1], sessions, interval, asof), SlotOf(sessions, interval, asof, r.ts), r)
  }

  function Frozen(b: Bucket): Bar {
    Bar(b.slot, b.open, b.high, b.low, b.close, b.volume, b.trades,
        if b.weight != 0 then Some(b.weighted / b.weight as real) else None, b.count)
  }

  function AllFrozen(buckets: seq<Bucket>): (r: seq<Bar>)
    ensures |r| == |buckets| && forall i :: 0 <= i < |r| ==> r[i] == Frozen(buckets[i])
  {
    if buckets == [] then [] else AllFrozen(buckets[..|buckets| - 1]) + [Frozen(buckets[|buckets| - 1])]
  }

  // ---- sorting ----

  predicate KeyBefore(a: Slot, b: Slot) { a.date < b.date || (a.date == b.date && a.start < b.start) }

  predicate KeyAfter(a: Bucket, b: Bucket) { KeyBefore(b.slot, a.slot) }

  function SortedByKey(s: seq<Bucket>): seq<Bucket> { Sorted(s, KeyAfter) }

  predicate RowAfter(a: Row, b: Row) { a.ts > b.ts }

  function SortedByTime(s: seq<Row>): seq<Row> { Sorted(s, RowAfter) }

  /** The completed bars of a frame as of a time. */
  function Resampled(frame: seq<Row>, sessions: seq<Session>, interval: int, asof: int): seq<Bar>
    requires interval > 0
  {
    AllFrozen(SortedByKey(Accumulated(SortedByTime(frame), sessions, interval, asof)))
  }

  method ResampleCompletedBars(frame: seq<Row>, sessions: seq<Session>, interval: int, asof: int)
      returns (r: Result<seq<Bar>>)
    ensures interval <= 0 ==> r.Err?
    ensures interval > 0 ==> r == Ok(Resampled(frame, sessions, interval, asof))
  {
    if interval <= 0 { return Err("interval_minutes must be positive"); }
    var buckets: seq<Bucket> := [];
    var selected := SortedByTime(frame);
    for i := 0 to |selected|
      invariant buckets == Accumulated(selected[..i], sessions, interval, asof)
    {
      assert selected[..i + 1][..i] == selected[..i];
      var row := selected[i];
      var session := SessionOf(sessions, row.ts);
      if session.None? || row.ts >= asof { continue; }
      var slot := SlotIn(session.value, interval, row.ts);
      if slot.end > asof { continue; }
      if HasKey(buckets, slot) {
        buckets := MergedInto(buckets, slot, row);
      } else {
        buckets := buckets + [Started(slot, row)];
      }
    }
    assert selected[..|selected|] == selected;
    r := Ok(AllFrozen(SortedByKey(buckets)));
  }

  // ---- slots ----

  predicate DistinctDates(sessions: seq<Session>) {
    forall i, j :: 0 <= i < j < |sessions| ==> sessions[i].date != sessions[j].date
  }

  /** A slot some session of the schedule can have. */
  predicate ProperSlot(sessions: seq<Session>, interval: int, slot: Slot) {
    exists k :: 0 <= k < |sessions| && slot.date == sessions[k].date
                && slot.end == if slot.start + interval * MINUTE < sessions[k].close then slot.start + interval * MINUTE
                               else sessions[k].close
  }

  lemma {:induction false} SessionOfFacts(sessions: seq<Session>, ts: int)
    ensures var s := SessionOf(sessions, ts);
            (s.Some? ==> s.value in sessions && s.value.open <= ts < s.value.close)
            && (s.None? ==> forall k :: 0 <= k < |sessions| ==> !(sessions[k].open <= ts < sessions[k].close))
  {
    if sessions != [] { SessionOfFacts(sessions[1..], ts); }
  }

  lemma SlotIsProper(sessions: seq<Session>, interval: int, asof: int, ts: int)
    requires interval > 0 && SlotOf(sessions, interval, asof, ts).Some?
    ensures ProperSlot(sessions, interval, SlotOf(sessions, interval, asof, ts).value)
  {
    SessionOfFacts(sessions, ts);
    var s := SessionOf(sessions, ts).value;
    var k :| 0 <= k < |sessions| && sessions[k] == s;
  }

  lemma KeyFixesSlot(sessions: seq<Session>, interval: int, a: Slot, b: Slot)
    requires DistinctDates(sessions) && ProperSlot(sessions, interval, a) && ProperSlot(sessions, interval, b)
    requires SameKey(a, b)
    ensures a == b
  {
  }

  /** A row lies inside its slot, and the slot inside its session. */
  lemma RowInSlot(s: Session, interval: int, ts: int)
    requires interval > 0 && s.open <= ts < s.close
    ensures var slot := SlotIn(s, interval, ts); s.open <= slot.start <= ts < slot.end <= s.close
  {
    var offset := (ts - s.open) / MINUTE;
    var q := offset / interval;
    assert q * interval <= offset < q * interval + interval;
  }

  // ---- no repaint ----

  function CompletedBy(buckets: seq<Bucket>, t: int): seq<Bucket> { Filter(buckets, (b: Bucket) => b.slot.end <= t) }

  function BarsCompletedBy(bars: seq<Bar>, t: int): seq<Bar> {
    if bars == [] then []
    else
      var rest, last := BarsCompletedBy(bars[..|bars| - 1], t), bars[|bars| - 1];
      if last.slot.end <= t then rest + [last] else rest
  }

  predicate AllProper(buckets: seq<Bucket>, sessions: seq<Session>, interval: int) {
    forall i :: 0 <= i < |buckets| ==> ProperSlot(sessions, interval, buckets[i].slot)
  }

  lemma {:induction false} AccumulatedProper(rows: seq<Row>, sessions: seq<Session>, interval: int, asof: int)
    requires interval > 0
    ensures AllProper(Accumulated(rows, sessions, interval, asof), sessions, interval)
  {
    if rows != [] {
      var rest, ts := rows[..|rows| - 1], rows[|rows| - 1].ts;
      AccumulatedProper(rest, sessions, interval, asof);
      var slot := SlotOf(sessions, interval, asof, ts);
      if slot.Some? {
        SlotIsProper(sessions, interval, asof, ts);
        MergedSlots(Accumulated(rest, sessions, interval, asof), slot.value, rows[|rows| - 1]);
      }
    }
  }

  lemma {:induction false} MergedSlots(buckets: seq<Bucket>, slot: Slot, r: Row)
    ensures forall i :: 0 <= i < |buckets| ==> MergedInto(buckets, slot, r)[i].slot == buckets[i].slot
  {
    if buckets != [] { MergedSlots(buckets[..|buckets| - 1], slot, r); }
  }

  predicate EndsAgree(buckets: seq<Bucket>, slot: Slot) {
    forall i :: 0 <= i < |buckets| && SameKey(buckets[i].slot, slot) ==> buckets[i].slot == slot
  }

  lemma {:induction false} CompletedKeys(buckets: seq<Bucket>, slot: Slot, t: int)
    requires EndsAgree(buckets, slot)
    ensures HasKey(CompletedBy(buckets, t), slot) <==> HasKey(buckets, slot) && slot.end <= t
  {
    if buckets != [] {
      var rest, last := buckets[..|buckets| - 1], buckets[|buckets| - 1];
      CompletedKeys(rest, slot, t);
      assert HasKey(buckets, slot) <==> HasKey(rest, slot) || SameKey(last.slot, slot) by {
        if HasKey(rest, slot) {
          var i :| 0 <= i < |rest| && SameKey(rest[i].slot, slot);
          assert buckets[i] == rest[i];
        }
        assert buckets[|rest|] == last;
      }
      if last.slot.end <= t {
        var kept := CompletedBy(rest, t);
        assert HasKey(kept + [last], slot) <==> HasKey(kept, slot) || SameKey(last.slot, slot) by {
          if HasKey(kept, slot) {
            var i :| 0 <= i < |kept| && SameKey(kept[i].slot, slot);
            assert (kept + [last])[i] == kept[i];
          }
          assert (kept + [last])[|kept|] == last;
        }
      }
    }
  }

  lemma {:induction false} MergedCompleted(buckets: seq<Bucket>, slot: Slot, r: Row, t: int)
    requires EndsAgree(buckets, slot)
    ensures CompletedBy(MergedInto(buckets, slot, r), t)
         == if slot.end <= t then MergedInto(CompletedBy(buckets, t), slot, r) else CompletedBy(buckets, t)
  {
    if buckets != [] {
      var rest, last := buckets[..|buckets| - 1], buckets[|buckets| - 1];
      MergedCompleted(rest, slot, r, t);
      var m := MergedInto(buckets, slot, r);
      assert m[..|m| - 1] == if SameKey(last.slot, slot) then rest else MergedInto(rest, slot, r);
      var kept := CompletedBy(buckets, t);
      assert last.slot.end <= t ==> kept[..|kept| - 1] == CompletedBy(rest, t);
    }
  }

  /** Accumulating up to an earlier time is accumulating up to the later one and keeping what was complete. */
  lemma {:induction false} AccumulatedEarlier(rows: seq<Row>, sessions: seq<Session>, interval: int, t: int, asof: int)
    requires interval > 0 && DistinctDates(sessions) && t <= asof
    ensures Accumulated(rows, sessions, interval, t) == CompletedBy(Accumulated(rows, sessions, interval, asof), t)
  {
    if rows != [] {
      var rest, r := rows[..|rows| - 1], rows[|rows| - 1];
      AccumulatedEarlier(rest, sessions, interval, t, asof);
      var before := Accumulated(rest, sessions, interval, asof);
      var slot := SlotOf(sessions, interval, asof, r.ts);
      EarlierSlot(sessions, interval, t, asof, r.ts);
      if slot.Some? {
        AccumulatedProper(rest, sessions, interval, asof);
        SlotIsProper(sessions, interval, asof, r.ts);
        forall i | 0 <= i < |before| && SameKey(before[i].slot, slot.value) ensures before[i].slot == slot.value {
          KeyFixesSlot(sessions, interval, before[i].slot, slot.value);
        }
        CompletedKeys(before, slot.value, t);
        if HasKey(before, slot.value) {
          MergedCompleted(before, slot.value, r, t);
        } else {
          assert (before + [Started(slot.value, r)])[..|before|] == before;
        }
      }
    }
  }

  /** A row's slot as of an earlier time is its slot as of the later one, once complete. */
  lemma EarlierSlot(sessions: seq<Session>, interval: int, t: int, asof: int, ts: int)
    requires interval > 0 && t <= asof
    ensures var slot := SlotOf(sessions, interval, asof, ts);
            SlotOf(sessions, interval, t, ts) == if slot.Some? && slot.value.end <= t then slot else None
  {
    SessionOfFacts(sessions, ts);
    var s := SessionOf(sessions, ts);
    if s.Some? { RowInSlot(s.value, interval, ts); }
  }

  lemma {:induction false} FreezeCompleted(s: seq<Bucket>, t: int)
    ensures AllFrozen(CompletedBy(s, t)) == BarsCompletedBy(AllFrozen(s), t)
  {
    if s != [] {
      var rest, last := s[..|s| - 1], s[|s| - 1];
      FreezeCompleted(rest, t);
      assert AllFrozen(s)[..|s| - 1] == AllFrozen(rest);
      var kept := CompletedBy(s, t);
      assert last.slot.end <= t ==> kept[..|kept| - 1] == CompletedBy(rest, t);
    }
  }

  /** No repaint: what was published at an earlier time is exactly the later output's bars complete by then. */
  lemma NoRepaint(frame: seq<Row>, sessions: seq<Session>, interval: int, t: int, asof: int)
    requires interval > 0 && DistinctDates(sessions) && t <= asof
    ensures Resampled(frame, sessions, interval, t) == BarsCompletedBy(Resampled(frame, sessions, interval, asof), t)
  {
    var rows := SortedByTime(frame);
    AccumulatedEarlier(rows, sessions, interval, t, asof);
    FilterSorted(Accumulated(rows, sessions, interval, asof), KeyAfter, (b: Bucket) => b.slot.end <= t);
    FreezeCompleted(SortedByKey(Accumulated(rows, sessions, interval, asof)), t);
  }
}
