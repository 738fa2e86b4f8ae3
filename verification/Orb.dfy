/** The five-minute opening-range breakout: the live decision and the historical signal (kernel/signals.py).
    Times are microseconds; a bar is stamped with the start of its minute. */
module Orb {
  import opened Sorting
  import opened Texts

  datatype Bar = Bar(ts: int, open: real, high: real, low: real, close: real, vwap: Option<real>)

  const MINUTE := 60_000_000

  // ---- frames in time order ----

  predicate Later(a: Bar, b: Bar) { a.ts > b.ts }

  predicate SameTime(a: Bar, b: Bar) { a.ts == b.ts }

  predicate Distinct(s: seq<Bar>) { Apart(s, SameTime) }

  predicate InTime(s: seq<Bar>) { Ascending(s, Later) }

  function ByTime(s: seq<Bar>): seq<Bar> { Sorted(s, Later) }

  // ---- the two signals ----

  function Window(s: seq<Bar>, lo: int, hi: int): seq<Bar> { Filter(s, (b: Bar) => lo <= b.ts < hi) }

  function Before(s: seq<Bar>, hi: int): seq<Bar> { Filter(s, (b: Bar) => b.ts < hi) }

  /** The timestamps are exactly the first n minutes of the session. */
  predicate OnGrid(s: seq<Bar>, open: int, n: nat) {
    |s| == n && forall i :: 0 <= i < n ==> s[i].ts == open + i * MINUTE
  }

  function High(s: seq<Bar>): real
    requires s != []
  {
    if |s| == 1 then s[0].high
    else if s[|s| - 1].high > High(s[..|s| - 1]) then s[|s| - 1].high else High(s[..|s| - 1])
  }

  /** The range's high is the highest of its bars'. */
  lemma {:induction false} HighIsHighest(s: seq<Bar>)
    requires s != []
    ensures forall i :: 0 <= i < |s| ==> s[i].high <= High(s)
    ensures exists i :: 0 <= i < |s| && s[i].high == High(s)
  {
    if |s| > 1 {
      var rest := s[..|s| - 1];
      HighIsHighest(rest);
      assert forall i :: 0 <= i < |rest| ==> rest[i] == s[i];
      var i :| 0 <= i < |rest| && rest[i].high == High(rest);
      assert s[i].high == High(rest);
      assert High(s) == High(rest) || High(s) == s[|s| - 1].high;
    } else {
      assert s[0].high == High(s);
    }
  }

  predicate Breaks(b: Bar, from: int, level: real) { b.ts >= from && b.high > level }

  function FirstBreakout(s: seq<Bar>, from: int, level: real): Option<Bar> {
    if s == [] then None else if Breaks(s[0], from, level) then Some(s[0]) else FirstBreakout(s[1..], from, level)
  }

  function BarAt(s: seq<Bar>, ts: int): Option<Bar> {
    if s == [] then None else if s[0].ts == ts then Some(s[0]) else BarAt(s[1..], ts)
  }

  datatype Refusal = RvolBelowOrEqualMin | NoCompletedBreakoutBar | DuplicateMinuteBars | MinutePathIncomplete
                   | OpeningRangeNotBullish | NoBreakoutAtDecision | FirstBreakoutIsStale
                   | OpeningRangeIncomplete | OpeningRangeMissingBars | NoBreakoutAtAsof
                   | NextBarUnavailableAtAsof | NextMinuteBarMissing | NextBarVwapUnavailable

  datatype Intent = NoIntent(reason: Refusal) | Intent(trigger: int, entry: int, rangeHigh: real)

  /** The live decision at d: only a breakout whose bar ends exactly now. */
  function LiveIntent(bars: seq<Bar>, open: int, d: int, rvol: real, minRvol: real): Intent {
    var rangeEnd := open + 5 * MINUTE;
    if rvol <= minRvol then NoIntent(RvolBelowOrEqualMin)
    else if d < rangeEnd + MINUTE then NoIntent(NoCompletedBreakoutBar)
    else
      var visible := ByTime(Window(bars, open, d));
      if !Distinct(visible) then NoIntent(DuplicateMinuteBars)
      else if !OnGrid(visible, open, (d - open) / MINUTE) then NoIntent(MinutePathIncomplete)
      else
        var range := visible[..5];
        if range[4].close <= range[0].open then NoIntent(OpeningRangeNotBullish)
        else LiveBreakout(visible, rangeEnd, d, High(range))
  }

  function LiveBreakout(visible: seq<Bar>, rangeEnd: int, d: int, level: real): Intent {
    match FirstBreakout(visible, rangeEnd, level)
    case None => NoIntent(NoBreakoutAtDecision)
    case Some(b) =>
      if b.ts + MINUTE != d then NoIntent(FirstBreakoutIsStale) else Intent(b.ts, b.ts + MINUTE, level)
  }

  datatype Signal = NoSignal(reason: Refusal) | Signal(trigger: int, entry: int, rangeHigh: real, price: real)

  /** The historical signal as of a time: the first breakout, filled at the next bar's vwap. */
  function PastSignal(bars: seq<Bar>, open: int, asof: int, rvol: real, minRvol: real): Signal {
    var rangeEnd := open + 5 * MINUTE;
    if rvol <= minRvol then NoSignal(RvolBelowOrEqualMin)
    else
      var visible := ByTime(Before(bars, asof));
      if !Distinct(visible) then NoSignal(DuplicateMinuteBars)
      else
        var range := Window(visible, open, rangeEnd);
        if asof < rangeEnd then NoSignal(OpeningRangeIncomplete)
        else if !OnGrid(range, open, 5) then NoSignal(OpeningRangeMissingBars)
        else if range[4].close <= range[0].open then NoSignal(OpeningRangeNotBullish)
        else PastBreakout(visible, rangeEnd, asof, High(range))
  }

  function PastBreakout(visible: seq<Bar>, rangeEnd: int, asof: int, level: real): Signal {
    match FirstBreakout(visible, rangeEnd, level)
    case None => NoSignal(NoBreakoutAtAsof)
    case Some(b) =>
      if b.ts + MINUTE >= asof then NoSignal(NextBarUnavailableAtAsof)
      else
        match BarAt(visible, b.ts + MINUTE)
        case None => NoSignal(NextMinuteBarMissing)
        case Some(next) =>
          if next.vwap.None? then NoSignal(NextBarVwapUnavailable)
          else Signal(b.ts, b.ts + MINUTE, level, next.vwap.value)
  }

  // ---- facts about the pieces ----

  lemma {:induction false} FirstBreakoutFacts(s: seq<Bar>, from: int, level: real)
    requires InTime(s)
    ensures var f := FirstBreakout(s, from, level);
            if f.Some? then f.value in s && Breaks(f.value, from, level)
                            && forall b :: b in s && Breaks(b, from, level) ==> f.value.ts <= b.ts
            else forall b :: b in s ==> !Breaks(b, from, level)
  {
    if s != [] {
      FirstBreakoutFacts(s[1..], from, level);
      assert s == [s[0]] + s[1..];
      forall b | b in s ensures s[0].ts <= b.ts { var i :| 0 <= i < |s| && s[i] == b; }
    }
  }

  lemma {:induction false} BarAtFacts(s: seq<Bar>, ts: int)
    ensures var f := BarAt(s, ts);
            (f.Some? ==> f.value in s && f.value.ts == ts) && (f.None? ==> forall b :: b in s ==> b.ts != ts)
  {
    if s != [] {
      BarAtFacts(s[1..], ts);
      assert s == [s[0]] + s[1..];
    }
  }

  /** The rows a signal reads, as members of the frame. */
  lemma SortedWindow(bars: seq<Bar>, lo: int, hi: int)
    ensures var w := ByTime(Window(bars, lo, hi));
            InTime(w) && forall b :: b in w <==> b in bars && lo <= b.ts < hi
  {
    var keep := (b: Bar) => lo <= b.ts < hi;
    SortedAscends(Filter(bars, keep), Later);
    SortedMembers(Filter(bars, keep), Later);
    FilterMembers(bars, keep);
  }

  lemma SortedBefore(bars: seq<Bar>, hi: int)
    ensures var w := ByTime(Before(bars, hi));
            InTime(w) && forall b :: b in w <==> b in bars && b.ts < hi
  {
    var keep := (b: Bar) => b.ts < hi;
    SortedAscends(Filter(bars, keep), Later);
    SortedMembers(Filter(bars, keep), Later);
    FilterMembers(bars, keep);
  }

  /** A window of the rows before a later time is a window of the frame. */
  lemma WindowOfBefore(bars: seq<Bar>, lo: int, hi: int, asof: int)
    requires hi <= asof
    ensures Window(ByTime(Before(bars, asof)), lo, hi) == ByTime(Window(bars, lo, hi))
  {
    FilterSorted(bars, Later, (b: Bar) => b.ts < asof);
    FilterTwice(ByTime(bars), lo, hi, asof);
    FilterSorted(bars, Later, (b: Bar) => lo <= b.ts < hi);
  }

  lemma {:induction false} FilterTwice(s: seq<Bar>, lo: int, hi: int, asof: int)
    requires hi <= asof
    ensures Window(Before(s, asof), lo, hi) == Window(s, lo, hi)
  {
    if s != [] {
      var rest, last := s[..|s| - 1], s[|s| - 1];
      FilterTwice(rest, lo, hi, asof);
      if last.ts < asof {
        var kept := Before(rest, asof) + [last];
        assert kept[..|kept| - 1] == Before(rest, asof);
        assert Before(s, asof) == kept;
      }
    }
  }

  /** The first five bars of a complete path are the opening range. */
  lemma RangeOfPath(bars: seq<Bar>, open: int, d: int, n: nat)
    requires n >= 5 && OnGrid(ByTime(Window(bars, open, d)), open, n) && open + 5 * MINUTE <= d
    ensures ByTime(Window(bars, open, d))[..5] == ByTime(Window(bars, open, open + 5 * MINUTE))
  {
    WindowOfWindow(bars, open, open + 5 * MINUTE, d);
    WindowOfGrid(ByTime(Window(bars, open, d)), open, n);
  }

  lemma {:induction false} WindowOfGrid(s: seq<Bar>, open: int, n: nat)
    requires OnGrid(s, open, n)
    ensures Window(s, open, open + 5 * MINUTE) == if n < 5 then s else s[..5]
  {
    if n > 0 {
      WindowOfGrid(s[..n - 1], open, n - 1);
      assert s == s[..n - 1] + [s[n - 1]];
      assert n > 5 ==> s[..n - 1][..5] == s[..5];
    }
  }

  lemma WindowOfWindow(bars: seq<Bar>, lo: int, hi: int, asof: int)
    requires hi <= asof
    ensures Window(ByTime(Window(bars, lo, asof)), lo, hi) == ByTime(Window(bars, lo, hi))
  {
    FilterSorted(bars, Later, (b: Bar) => lo <= b.ts < asof);
    WindowTwice(ByTime(bars), lo, hi, asof);
    FilterSorted(bars, Later, (b: Bar) => lo <= b.ts < hi);
  }

  lemma {:induction false} WindowTwice(s: seq<Bar>, lo: int, hi: int, asof: int)
    requires hi <= asof
    ensures Window(Window(s, lo, asof), lo, hi) == Window(s, lo, hi)
  {
    if s != [] {
      var rest, last := s[..|s| - 1], s[|s| - 1];
      WindowTwice(rest, lo, hi, asof);
      if lo <= last.ts < asof {
        var kept := Window(rest, lo, asof) + [last];
        assert kept[..|kept| - 1] == Window(rest, lo, asof);
        assert Window(s, lo, asof) == kept;
      }
    }
  }

  // ---- what each signal means ----

  function Range(bars: seq<Bar>, open: int): seq<Bar> { ByTime(Window(bars, open, open + 5 * MINUTE)) }

  /** The opening range is complete and closed above its open. */
  predicate Bullish(bars: seq<Bar>, open: int) {
    var range := Range(bars, open);
    OnGrid(range, open, 5) && range[4].close > range[0].open
  }

  /** The bar at t is the first after the opening range to trade above it. */
  predicate FirstBreakAt(bars: seq<Bar>, open: int, t: int)
    requires Bullish(bars, open)
  {
    var level := High(Range(bars, open));
    t >= open + 5 * MINUTE && (exists b :: b in bars && b.ts == t && b.high > level)
    && forall b :: b in bars && open + 5 * MINUTE <= b.ts < t ==> b.high <= level
  }

  /** Every minute from the open up to d has exactly one bar, and no bar lies between two minutes. */
  predicate CompletePath(bars: seq<Bar>, open: int, d: int) {
    d >= open && (d - open) % MINUTE == 0 && OnGrid(ByTime(Window(bars, open, d)), open, (d - open) / MINUTE)
  }

  /** On a complete grid the live breakout is the first one of the frame, and d lies on the grid. */
  lemma BreakoutOnPath(bars: seq<Bar>, open: int, d: int, n: nat)
    requires d >= open + 6 * MINUTE && n == (d - open) / MINUTE
    requires OnGrid(ByTime(Window(bars, open, d)), open, n) && Bullish(bars, open)
    ensures var i := LiveBreakout(ByTime(Window(bars, open, d)), open + 5 * MINUTE, d, High(Range(bars, open)));
            (i.Intent? <==> (d - open) % MINUTE == 0 && FirstBreakAt(bars, open, d - MINUTE))
            && (i.Intent? ==> i == Intent(d - MINUTE, d, High(Range(bars, open))))
  {
    var f := FirstBreakout(ByTime(Window(bars, open, d)), open + 5 * MINUTE, High(Range(bars, open)));
    if f.Some? && f.value.ts + MINUTE == d { LiveBreakIsFirst(bars, open, d, n, f.value); }
    if FirstBreakAt(bars, open, d - MINUTE) { FirstBreakIsLive(bars, open, d); }
  }

  lemma LiveBreakIsFirst(bars: seq<Bar>, open: int, d: int, n: nat, f: Bar)
    requires OnGrid(ByTime(Window(bars, open, d)), open, n) && Bullish(bars, open) && f.ts + MINUTE == d
    requires FirstBreakout(ByTime(Window(bars, open, d)), open + 5 * MINUTE, High(Range(bars, open))) == Some(f)
    ensures (d - open) % MINUTE == 0 && FirstBreakAt(bars, open, d - MINUTE)
  {
    var path, level := ByTime(Window(bars, open, d)), High(Range(bars, open));
    SortedWindow(bars, open, d);
    FirstBreakoutFacts(path, open + 5 * MINUTE, level);
    OnGridMinute(path, open, n, f);
    forall b | b in bars && open + 5 * MINUTE <= b.ts < d - MINUTE ensures b.high <= level { assert b in path; }
  }

  lemma OnGridMinute(path: seq<Bar>, open: int, n: nat, f: Bar)
    requires OnGrid(path, open, n) && f in path
    ensures (f.ts + MINUTE - open) % MINUTE == 0
  {
    var i :| 0 <= i < n && path[i] == f;
    assert f.ts + MINUTE - open == (i + 1) * MINUTE;
  }

  lemma FirstBreakIsLive(bars: seq<Bar>, open: int, d: int)
    requires Bullish(bars, open) && FirstBreakAt(bars, open, d - MINUTE)
    ensures var f := FirstBreakout(ByTime(Window(bars, open, d)), open + 5 * MINUTE, High(Range(bars, open)));
            f.Some? && f.value.ts == d - MINUTE
  {
    var path, level := ByTime(Window(bars, open, d)), High(Range(bars, open));
    SortedWindow(bars, open, d);
    FirstBreakoutFacts(path, open + 5 * MINUTE, level);
    var b :| b in bars && b.ts == d - MINUTE && b.high > level;
    assert b in path && Breaks(b, open + 5 * MINUTE, level);
  }

  /** The live decision, once its path is a complete grid. */
  lemma LiveOnPath(bars: seq<Bar>, open: int, d: int, rvol: real, minRvol: real)
    requires rvol > minRvol && d >= open + 6 * MINUTE
    requires OnGrid(ByTime(Window(bars, open, d)), open, (d - open) / MINUTE)
    ensures LiveIntent(bars, open, d, rvol, minRvol)
         == if Bullish(bars, open) then
              LiveBreakout(ByTime(Window(bars, open, d)), open + 5 * MINUTE, d, High(Range(bars, open)))
            else NoIntent(OpeningRangeNotBullish)
  {
    var path, n := ByTime(Window(bars, open, d)), (d - open) / MINUTE;
    RangeOfPath(bars, open, d, n);
  }

  /** The live decision at d triggers exactly when the path up to d is complete, the range is bullish and the first
      breakout is the bar ending at d; it then names that bar, d itself and the range's high. */
  lemma LiveMeans(bars: seq<Bar>, open: int, d: int, rvol: real, minRvol: real)
    ensures var i := LiveIntent(bars, open, d, rvol, minRvol);
            i.Intent? <==> rvol > minRvol && d >= open + 6 * MINUTE && CompletePath(bars, open, d)
                           && Bullish(bars, open) && FirstBreakAt(bars, open, d - MINUTE)
    ensures var i := LiveIntent(bars, open, d, rvol, minRvol);
            i.Intent? ==> i == Intent(d - MINUTE, d, High(Range(bars, open)))
  {
    if rvol > minRvol && d >= open + 6 * MINUTE && OnGrid(ByTime(Window(bars, open, d)), open, (d - open) / MINUTE) {
      LiveOnPath(bars, open, d, rvol, minRvol);
      if Bullish(bars, open) { BreakoutOnPath(bars, open, d, (d - open) / MINUTE); }
    }
  }

  lemma PastOnRange(bars: seq<Bar>, open: int, asof: int, rvol: real, minRvol: real)
    requires Distinct(ByTime(Before(bars, asof))) && rvol > minRvol && asof >= open + 5 * MINUTE
    ensures var s := PastSignal(bars, open, asof, rvol, minRvol);
            if Bullish(bars, open) then
              s == PastBreakout(ByTime(Before(bars, asof)), open + 5 * MINUTE, asof, High(Range(bars, open)))
            else s.NoSignal?
  {
    WindowOfBefore(bars, open, open + 5 * MINUTE, asof);
  }

  /** What a signal over given rows says about them. */
  lemma BreakoutOfRows(visible: seq<Bar>, from: int, asof: int, level: real)
    ensures var s := PastBreakout(visible, from, asof, level);
            s.Signal? ==>
              FirstBreakout(visible, from, level).Some? && FirstBreakout(visible, from, level).value.ts == s.trigger
              && s.entry == s.trigger + MINUTE < asof && s.rangeHigh == level
              && exists b :: b in visible && b.ts == s.entry && b.vwap == Some(s.price)
  {
    var f := FirstBreakout(visible, from, level);
    if f.Some? { BarAtFacts(visible, f.value.ts + MINUTE); }
  }

  lemma PastBreakoutMeans(bars: seq<Bar>, open: int, asof: int)
    requires Distinct(ByTime(Before(bars, asof))) && asof >= open + 5 * MINUTE && Bullish(bars, open)
    ensures var s := PastBreakout(ByTime(Before(bars, asof)), open + 5 * MINUTE, asof, High(Range(bars, open)));
            s.Signal? ==> FirstBreakAt(bars, open, s.trigger) && s.entry == s.trigger + MINUTE < asof
                          && s.rangeHigh == High(Range(bars, open))
                          && exists b :: b in bars && b.ts == s.entry && b.vwap == Some(s.price)
  {
    var visible, level := ByTime(Before(bars, asof)), High(Range(bars, open));
    BreakoutOfRows(visible, open + 5 * MINUTE, asof, level);
    SortedBefore(bars, asof);
    var f := FirstBreakout(visible, open + 5 * MINUTE, level);
    if f.Some? { FirstBreakIsSeen(bars, open, asof, f.value); }
  }

  /** The historical signal triggers exactly when no two rows before the as-of time share a timestamp, some bar is the
      first breakout of a bullish range and the next minute's bar, strictly before the as-of time, carries a vwap; it
      then names those two bars. */
  lemma PastMeans(bars: seq<Bar>, open: int, asof: int, rvol: real, minRvol: real)
    ensures var s := PastSignal(bars, open, asof, rvol, minRvol);
            s.Signal? ==> PastConditions(bars, open, asof, rvol, minRvol, s.trigger, s.price) && s.entry == s.trigger + MINUTE
                          && s.rangeHigh == High(Range(bars, open))
    ensures forall t, px :: PastConditions(bars, open, asof, rvol, minRvol, t, px) ==>
              PastSignal(bars, open, asof, rvol, minRvol) == Signal(t, t + MINUTE, High(Range(bars, open)), px)
  {
    SortedApart(Before(bars, asof), Later, SameTime);
    if rvol > minRvol && asof >= open + 5 * MINUTE && Distinct(Before(bars, asof)) {
      PastOnRange(bars, open, asof, rvol, minRvol);
      if Bullish(bars, open) { PastBreakoutMeans(bars, open, asof); }
      forall t, px | PastConditions(bars, open, asof, rvol, minRvol, t, px)
        ensures PastSignal(bars, open, asof, rvol, minRvol) == Signal(t, t + MINUTE, High(Range(bars, open)), px)
      {
        SeenIsFirst(bars, open, asof, t, px);
      }
    }
  }

  predicate PastConditions(bars: seq<Bar>, open: int, asof: int, rvol: real, minRvol: real, t: int, px: real) {
    rvol > minRvol && Distinct(Before(bars, asof)) && Bullish(bars, open) && FirstBreakAt(bars, open, t)
    && t + MINUTE < asof && exists b :: b in bars && b.ts == t + MINUTE && b.vwap == Some(px)
  }

  lemma FirstBreakIsSeen(bars: seq<Bar>, open: int, asof: int, b: Bar)
    requires Bullish(bars, open) && asof >= open + 5 * MINUTE
    requires FirstBreakout(ByTime(Before(bars, asof)), open + 5 * MINUTE, High(Range(bars, open))) == Some(b)
    ensures FirstBreakAt(bars, open, b.ts) && b in bars && b.ts < asof
  {
    var visible, level := ByTime(Before(bars, asof)), High(Range(bars, open));
    SortedBefore(bars, asof);
    FirstBreakoutFacts(visible, open + 5 * MINUTE, level);
    forall c | c in bars && open + 5 * MINUTE <= c.ts < b.ts ensures c.high <= level {
      assert c in visible;
    }
  }

  lemma SeenIsFirst(bars: seq<Bar>, open: int, asof: int, t: int, px: real)
    requires Bullish(bars, open) && asof >= open + 5 * MINUTE && FirstBreakAt(bars, open, t) && t + MINUTE < asof
    requires Distinct(ByTime(Before(bars, asof)))
    requires exists b :: b in bars && b.ts == t + MINUTE && b.vwap == Some(px)
    ensures var visible := ByTime(Before(bars, asof));
            var f := FirstBreakout(visible, open + 5 * MINUTE, High(Range(bars, open)));
            f.Some? && f.value.ts == t && BarAt(visible, t + MINUTE).Some?
            && BarAt(visible, t + MINUTE).value.vwap == Some(px)
  {
    var visible := ByTime(Before(bars, asof));
    BreakIsSeen(bars, open, asof, t);
    SortedBefore(bars, asof);
    var next :| next in bars && next.ts == t + MINUTE && next.vwap == Some(px);
    BarAtIsThe(visible, next);
  }

  lemma BreakIsSeen(bars: seq<Bar>, open: int, asof: int, t: int)
    requires Bullish(bars, open) && FirstBreakAt(bars, open, t) && t < asof
    ensures var f := FirstBreakout(ByTime(Before(bars, asof)), open + 5 * MINUTE, High(Range(bars, open)));
            f.Some? && f.value.ts == t
  {
    var visible, level := ByTime(Before(bars, asof)), High(Range(bars, open));
    SortedBefore(bars, asof);
    FirstBreakoutFacts(visible, open + 5 * MINUTE, level);
    var b :| b in bars && b.ts == t && b.high > level;
    assert b in visible && Breaks(b, open + 5 * MINUTE, level);
  }

  lemma BarAtIsThe(visible: seq<Bar>, b: Bar)
    requires Distinct(visible) && b in visible
    ensures BarAt(visible, b.ts) == Some(b)
  {
    BarAtFacts(visible, b.ts);
    var f := BarAt(visible, b.ts).value;
    var i :| 0 <= i < |visible| && visible[i] == b;
    var j :| 0 <= j < |visible| && visible[j] == f;
    assert i < j ==> !SameTime(visible[i], visible[j]);
    assert j < i ==> !SameTime(visible[j], visible[i]);
  }

  // ---- agreement ----

  /** At most one decision time triggers. */
  lemma AtMostOneDecision(bars: seq<Bar>, open: int, d: int, d': int, rvol: real, minRvol: real)
    requires LiveIntent(bars, open, d, rvol, minRvol).Intent? && LiveIntent(bars, open, d', rvol, minRvol).Intent?
    ensures d == d'
  {
    LiveMeans(bars, open, d, rvol, minRvol);
    LiveMeans(bars, open, d', rvol, minRvol);
  }

  /** Live and historical agree: at any time after a triggered decision d whose bar has a vwap the historical signal
      is that trigger and entry exactly when no two rows before that time share a timestamp, and a historical signal
      comes from such a decision exactly when the minute path up to its entry is complete. */
  lemma LiveAndPastAgree(bars: seq<Bar>, open: int, asof: int, rvol: real, minRvol: real)
    ensures forall d, b ::
              LiveIntent(bars, open, d, rvol, minRvol).Intent? && d < asof && b in bars && b.ts == d && b.vwap.Some? ==>
                (PastSignal(bars, open, asof, rvol, minRvol)
                 == Signal(d - MINUTE, d, LiveIntent(bars, open, d, rvol, minRvol).rangeHigh, b.vwap.value)
                 <==> Distinct(Before(bars, asof)))
    ensures var s := PastSignal(bars, open, asof, rvol, minRvol);
            s.Signal? ==> (LiveIntent(bars, open, s.entry, rvol, minRvol).Intent? <==> CompletePath(bars, open, s.entry))
  {
    PastMeans(bars, open, asof, rvol, minRvol);
    forall d, b | LiveIntent(bars, open, d, rvol, minRvol).Intent? && d < asof && b in bars && b.ts == d && b.vwap.Some?
      ensures PastSignal(bars, open, asof, rvol, minRvol)
           == Signal(d - MINUTE, d, LiveIntent(bars, open, d, rvol, minRvol).rangeHigh, b.vwap.value)
           <==> Distinct(Before(bars, asof))
    {
      LiveMeans(bars, open, d, rvol, minRvol);
      assert Distinct(Before(bars, asof)) ==> PastConditions(bars, open, asof, rvol, minRvol, d - MINUTE, b.vwap.value);
    }
    var s := PastSignal(bars, open, asof, rvol, minRvol);
    if s.Signal? { LiveMeans(bars, open, s.entry, rvol, minRvol); }
  }

  // ---- later rows ----

  lemma {:induction false} LaterRowsFilteredOut(bars: seq<Bar>, later: seq<Bar>, keep: Bar -> bool)
    requires forall i :: 0 <= i < |later| ==> !keep(later[i])
    ensures Filter(bars + later, keep) == Filter(bars, keep)
  {
    if later == [] {
      assert bars + later == bars;
    } else {
      assert (bars + later)[..|bars + later| - 1] == bars + later[..|later| - 1];
      LaterRowsFilteredOut(bars, later[..|later| - 1], keep);
    }
  }

  /** Rows from the decision or as-of time on change neither result. */
  lemma LaterRowsChangeNothing(bars: seq<Bar>, later: seq<Bar>, open: int, at: int, rvol: real, minRvol: real)
    requires forall i :: 0 <= i < |later| ==> later[i].ts >= at
    ensures LiveIntent(bars + later, open, at, rvol, minRvol) == LiveIntent(bars, open, at, rvol, minRvol)
    ensures PastSignal(bars + later, open, at, rvol, minRvol) == PastSignal(bars, open, at, rvol, minRvol)
  {
    LaterRowsFilteredOut(bars, later, (b: Bar) => open <= b.ts < at);
    LaterRowsFilteredOut(bars, later, (b: Bar) => b.ts < at);
  }

  /** Once signalled, the same signal is returned as of every later time, whatever rows came in since, until two rows
      share a timestamp. */
  lemma SignalIsStable(bars: seq<Bar>, later: seq<Bar>, open: int, asof: int, after: int, rvol: real, minRvol: real)
    requires asof <= after && (forall i :: 0 <= i < |later| ==> later[i].ts >= asof)
    requires PastSignal(bars, open, asof, rvol, minRvol).Signal?
    ensures PastSignal(bars + later, open, after, rvol, minRvol) == PastSignal(bars, open, asof, rvol, minRvol)
            <==> Distinct(Before(bars + later, after))
  {
    LaterRowsChangeNothing(bars, later, open, asof, rvol, minRvol);
    var all, s := bars + later, PastSignal(bars, open, asof, rvol, minRvol);
    PastMeans(all, open, asof, rvol, minRvol);
    PastMeans(all, open, after, rvol, minRvol);
    assert Distinct(Before(all, after)) ==> PastConditions(all, open, after, rvol, minRvol, s.trigger, s.price);
  }
}
