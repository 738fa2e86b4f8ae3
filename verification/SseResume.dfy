/** Following the market-data log across connections: the cursor, reconnection and the polling fallback
    (execution/alpaca_sip_stream.py). */
module SseResume {
  import opened SseStream

  /** What one request brought: the lines of a stream that ended or broke, no streaming support, or an event page. */
  datatype Response = Lines(lines: seq<string>, eof: bool) | Unsupported | Page(events: seq<Envelope>, next: nat)

  datatype Session = Session(after: nat, polling: bool, yielded: seq<Envelope>, failed: bool)

  function CursorAfter(after: nat, events: seq<Envelope>): nat {
    if events == [] then after else events[|events| - 1].sequence
  }

  predicate PageAccepted(after: nat, events: seq<Envelope>, next: nat) {
    forall i :: 0 <= i < |events| ==> after < events[i].sequence <= next
  }

  function Step(s: Session, r: Response): Session {
    if s.failed then s
    else if s.polling then
      if r.Page? && PageAccepted(s.after, r.events, r.next) then
        s.(after := r.next, yielded := s.yielded + r.events)
      else s.(failed := true)
    else
      match r
      case Unsupported => s.(polling := true)
      case Page(_, _) => s.(failed := true)
      case Lines(lines, eof) =>
        var (events, failed) := Delivered(lines, eof, s.after);
        s.(after := CursorAfter(s.after, events), yielded := s.yielded + events, failed := failed)
  }

  function Run(start: nat, responses: seq<Response>): Session {
    if responses == [] then Session(start, false, [], false)
    else Step(Run(start, responses[..|responses| - 1]), responses[|responses| - 1])
  }

  // ---- the server's log ----

  /** Sequences strictly increase from one; bodies are payload texts. */
  predicate IsLog(log: seq<Envelope>) {
    (forall i :: 0 <= i < |log| ==> log[i].sequence >= 1 && PlainBody(log[i].body))
    && forall i, j :: 0 <= i < j < |log| ==> log[i].sequence < log[j].sequence
  }

  /** How many events of the log the cursor has passed. */
  function Passed(log: seq<Envelope>, after: nat): (n: nat)
    ensures n <= |log|
  {
    if log == [] || log[0].sequence > after then 0 else 1 + Passed(log[1..], after)
  }

  lemma {:induction false} PassedFacts(log: seq<Envelope>, after: nat)
    requires IsLog(log)
    ensures forall i :: 0 <= i < |log| ==> (log[i].sequence <= after <==> i < Passed(log, after))
  {
    if log != [] {
      if log[0].sequence <= after {
        PassedFacts(log[1..], after);
        forall i | 1 <= i < |log| ensures log[i].sequence <= after <==> i < Passed(log, after) {
          assert log[i] == log[1..][i - 1];
        }
      } else {
        forall i | 1 <= i < |log| ensures log[i].sequence > after { assert log[0].sequence < log[i].sequence; }
      }
    }
  }

  lemma PassedIs(log: seq<Envelope>, after: nat, n: nat)
    requires IsLog(log) && n <= |log|
    requires forall i :: 0 <= i < |log| ==> (log[i].sequence <= after <==> i < n)
    ensures Passed(log, after) == n
  {
    PassedFacts(log, after);
    var p := Passed(log, after);
    assert p < |log| ==> (log[p].sequence <= after <==> p < n);
    assert n < |log| ==> (log[n].sequence <= after <==> n < p);
  }

  /** A cursor moved onto the last of n further events has passed exactly those too. */
  lemma PassedOnto(log: seq<Envelope>, after: nat, n: nat, cursor: nat)
    requires IsLog(log) && Passed(log, after) + n <= |log|
    requires if n == 0 then cursor == after else cursor == log[Passed(log, after) + n - 1].sequence
    ensures Passed(log, cursor) == Passed(log, after) + n
  {
    if n > 0 { PassedIs(log, cursor, Passed(log, after) + n); }
  }

  /** An honest server, asked after the session's cursor, sends the next part of the log: as items cut anywhere, or as
      a page of n events whose next cursor lies before the first event left out. */
  ghost predicate Honest(log: seq<Envelope>, s: Session, r: Response) {
    var from := Passed(log, s.after);
    if s.polling then
      r.Page? && from + |r.events| <= |log| && r.events == log[from..from + |r.events|]
      && Passed(log, r.next) == from + |r.events|
    else r.Unsupported? || (r.Lines? && exists items, k: nat :: Sends(items, k, log, from, r.lines))
  }

  predicate Sends(items: seq<Item>, k: nat, log: seq<Envelope>, from: nat, lines: seq<string>) {
    Sendable(items) && from + |EventsOf(items)| <= |log| && EventsOf(items) == log[from..from + |EventsOf(items)|]
    && k <= |PrintedAll(items)| && lines == PrintedAll(items)[..k]
  }

  // ---- one step ----

  lemma {:induction false} EventsPrefix(items: seq<Item>, n: nat)
    requires n <= |items|
    ensures EventsOf(items[..n]) <= EventsOf(items)
  {
    if n < |items| {
      EventsPrefix(items[..|items| - 1], n);
      assert items[..|items| - 1][..n] == items[..n];
    } else {
      assert items[..n] == items;
    }
  }

  lemma {:induction false} NothingPast(events: seq<Envelope>, after: nat)
    requires forall i :: 0 <= i < |events| ==> events[i].sequence > after
    ensures Past(events, after) == events
  {
    if events != [] { NothingPast(events[..|events| - 1], after); }
  }

  lemma EventsArePast(log: seq<Envelope>, after: nat, events: seq<Envelope>)
    requires IsLog(log) && Passed(log, after) + |events| <= |log|
    requires events == log[Passed(log, after)..Passed(log, after) + |events|]
    ensures Past(events, after) == events
  {
    PassedFacts(log, after);
    forall i | 0 <= i < |events| ensures events[i].sequence > after {
      assert events[i] == log[Passed(log, after) + i];
    }
    NothingPast(events, after);
  }

  /** What a stream connection to an honest server delivers. */
  lemma StreamDelivers(log: seq<Envelope>, after: nat, lines: seq<string>, eof: bool, items: seq<Item>, k: nat)
      returns (n: nat)
    requires IsLog(log) && Sends(items, k, log, Passed(log, after), lines)
    ensures Passed(log, after) + n <= |log|
    ensures Delivered(lines, eof, after) == (log[Passed(log, after)..Passed(log, after) + n], false)
  {
    var m := CutDeliversPrefix(items, k, eof, after);
    EventsPrefix(items, m);
    n := |EventsOf(items[..m])|;
    EventsArePast(log, after, EventsOf(items[..m]));
  }

  /** The step of a session on an honest response: the next n events are yielded and passed. */
  predicate StepsBy(log: seq<Envelope>, s: Session, t: Session, n: nat) {
    var from := Passed(log, s.after);
    !t.failed && from + n <= |log| && t.yielded == s.yielded + log[from..from + n] && Passed(log, t.after) == from + n
  }

  lemma PageStep(log: seq<Envelope>, s: Session, r: Response)
    requires IsLog(log) && !s.failed && s.polling && Honest(log, s, r)
    ensures StepsBy(log, s, Step(s, r), |r.events|)
  {
    PassedFacts(log, s.after);
    PassedFacts(log, r.next);
    var from := Passed(log, s.after);
    forall i | 0 <= i < |r.events| ensures s.after < r.events[i].sequence <= r.next {
      assert r.events[i] == log[from + i];
    }
    assert PageAccepted(s.after, r.events, r.next);
  }

  lemma StreamStep(log: seq<Envelope>, s: Session, r: Response) returns (n: nat)
    requires IsLog(log) && !s.failed && !s.polling && r.Lines? && Honest(log, s, r)
    ensures StepsBy(log, s, Step(s, r), n)
  {
    var items, k: nat :| Sends(items, k, log, Passed(log, s.after), r.lines);
    n := StreamDelivers(log, s.after, r.lines, r.eof, items, k);
    var events := Delivered(r.lines, r.eof, s.after).0;
    CursorOnto(log, s.after, n, events);
    assert Step(s, r) == s.(after := CursorAfter(s.after, events), yielded := s.yielded + events);
  }

  lemma CursorOnto(log: seq<Envelope>, after: nat, n: nat, events: seq<Envelope>)
    requires IsLog(log) && Passed(log, after) + n <= |log| && events == log[Passed(log, after)..Passed(log, after) + n]
    ensures Passed(log, CursorAfter(after, events)) == Passed(log, after) + n
  {
    if n > 0 { assert events[n - 1] == log[Passed(log, after) + n - 1]; }
    PassedFacts(log, after);
    PassedOnto(log, after, n, CursorAfter(after, events));
  }

  lemma HonestStep(log: seq<Envelope>, s: Session, r: Response) returns (n: nat)
    requires IsLog(log) && !s.failed && Honest(log, s, r)
    ensures StepsBy(log, s, Step(s, r), n)
  {
    if s.polling {
      n := |r.events|;
      PageStep(log, s, r);
    } else if r.Lines? {
      n := StreamStep(log, s, r);
    } else {
      n := 0;
      assert s.yielded + log[Passed(log, s.after)..Passed(log, s.after)] == s.yielded;
    }
  }

  // ---- any server ----

  /** A polled answer fails exactly when it is no page or holds an event at or before the cursor, or behind the page's
      next one; a page that does not fail is yielded whole. */
  lemma PageFailsIff(s: Session, r: Response)
    requires !s.failed && s.polling
    ensures Step(s, r).failed
            <==> !r.Page? || exists e :: e in r.events && (e.sequence <= s.after || r.next < e.sequence)
    ensures !Step(s, r).failed ==> Step(s, r) == Session(r.next, true, s.yielded + r.events, false)
  {
    if r.Page? && !PageAccepted(s.after, r.events, r.next) {
      var i :| 0 <= i < |r.events| && !(s.after < r.events[i].sequence <= r.next);
      assert r.events[i] in r.events;
    }
  }

  predicate AllLater(events: seq<Envelope>, after: nat) { forall e :: e in events ==> e.sequence > after }

  lemma {:induction false} ReadIsLater(lines: seq<string>, after: nat)
    ensures AllLater(Read(lines, after).events, after)
  {
    if lines != [] { ReadIsLater(lines[..|lines| - 1], after); }
  }

  /** Whatever a server sends, the cursor moves back exactly on an empty page whose next cursor lies before it. */
  lemma CursorMovesBackIff(s: Session, r: Response)
    requires !s.failed
    ensures Step(s, r).after < s.after <==> s.polling && r.Page? && r.events == [] && r.next < s.after
  {
    if s.polling {
      if r.Page? && r.events != [] && PageAccepted(s.after, r.events, r.next) {
        assert s.after < r.events[0].sequence <= r.next;
      }
    } else if r.Lines? {
      var events := Delivered(r.lines, r.eof, s.after).0;
      ReadIsLater(r.lines, s.after);
      assert AllLater(events, s.after);
      if events != [] { assert events[|events| - 1] in events; }
    }
  }

  // ---- every run ----

  ghost predicate HonestRun(log: seq<Envelope>, start: nat, responses: seq<Response>) {
    forall i :: 0 <= i < |responses| ==> Honest(log, Run(start, responses[..i]), responses[i])
  }

  /** Across any breaks, ends, reconnections and the fallback to polling, what is yielded is exactly the log between
      the start cursor and the current one: no gap, no duplicate. */
  lemma {:induction false} YieldsContiguousRun(log: seq<Envelope>, start: nat, responses: seq<Response>)
    requires IsLog(log) && HonestRun(log, start, responses)
    ensures var s := Run(start, responses);
            !s.failed && Passed(log, start) <= Passed(log, s.after)
            && s.yielded == log[Passed(log, start)..Passed(log, s.after)]
  {
    if responses != [] {
      var before := responses[..|responses| - 1];
      assert forall i :: 0 <= i < |before| ==> before[..i] == responses[..i] && before[i] == responses[i];
      YieldsContiguousRun(log, start, before);
      var s := Run(start, before);
      var n := HonestStep(log, s, responses[|responses| - 1]);
      Splice(log, start, s, Run(start, responses), n);
    }
  }

  lemma Splice(log: seq<Envelope>, start: nat, s: Session, t: Session, n: nat)
    requires Passed(log, start) <= Passed(log, s.after) && StepsBy(log, s, t, n)
    requires s.yielded == log[Passed(log, start)..Passed(log, s.after)]
    ensures Passed(log, start) <= Passed(log, t.after) && t.yielded == log[Passed(log, start)..Passed(log, t.after)]
  {
  }

  /** The cursor moves to a page's end before its events are handed out: a consumer that stops after j of them and
      follows again from the cursor continues without a gap exactly when it had taken the whole page. */
  lemma AbandonedPageLeavesGap(log: seq<Envelope>, s: Session, r: Response, j: nat)
    requires IsLog(log) && !s.failed && s.polling && Honest(log, s, r) && j <= |r.events|
    ensures Passed(log, Step(s, r).after) == Passed(log, s.after) + j <==> j == |r.events|
  {
    var n := HonestStep(log, s, r);
    assert |Step(s, r).yielded| == |s.yielded| + |r.events|;
  }

  // ---- the stream object ----

  class PlatformStream {
    var after: nat

    constructor (start: nat)
      ensures after == start
    {
      after := start;
    }

    /** Yields events for as long as responses come, one request each. */
    method Events(responses: seq<Response>) returns (yielded: seq<Envelope>, failed: bool)
      modifies this
      ensures var s := Run(old(after), responses);
              yielded == s.yielded && failed == s.failed && after == s.after
    {
      var polling := false;
      ghost var start := after;
      yielded, failed := [], false;
      for i := 0 to |responses|
        invariant Run(start, responses[..i]) == Session(after, polling, yielded, failed) && !failed
      {
        assert responses[..i + 1][..i] == responses[..i];
        ghost var before := Session(after, polling, yielded, failed);
        var r := responses[i];
        if polling {
          var ok := AcceptPage(after, r);
          if ok {
            after := r.next;
            yielded := yielded + r.events;
          } else {
            failed := true;
          }
        } else {
          match r
          case Unsupported => polling := true;
          case Page(_, _) => failed := true;
          case Lines(lines, eof) =>
            var events, bad := ReadLines(lines, eof, after);
            if events != [] { after := events[|events| - 1].sequence; }
            yielded := yielded + events;
            failed := bad;
        }
        assert Session(after, polling, yielded, failed) == Step(before, r);
        if failed {
          FailedRunStays(start, responses, i + 1);
          return;
        }
      }
      assert responses[..|responses|] == responses;
    }

    static method AcceptPage(after: nat, r: Response) returns (ok: bool)
      ensures ok <==> r.Page? && PageAccepted(after, r.events, r.next)
    {
      if !r.Page? { return false; }
      for i := 0 to |r.events|
        invariant forall k :: 0 <= k < i ==> after < r.events[k].sequence <= r.next
      {
        if r.events[i].sequence <= after || r.events[i].sequence > r.next { return false; }
      }
      return true;
    }
  }

  lemma {:induction false} FailedRunStays(start: nat, responses: seq<Response>, n: nat)
    requires n <= |responses| && Run(start, responses[..n]).failed
    ensures Run(start, responses) == Run(start, responses[..n])
    decreases |responses| - n
  {
    if n == |responses| {
      assert responses[..n] == responses;
    } else {
      assert responses[..n + 1][..n] == responses[..n];
      FailedRunStays(start, responses, n + 1);
    }
  }
}
