/** The platform's market-data stream (execution/alpaca_sip_stream.py): reading server-sent events line by line,
    and resuming by cursor. A payload is a braced text, a sequence and a body; like a JSON object, it has no
    proper prefix that is a payload. */
module SseStream {
  import opened Texts

  datatype Envelope = Envelope(sequence: nat, body: string)

  // ---- lines ----

  function FirstColon(line: string): (c: nat)
    ensures c <= |line|
  {
    if line == [] || line[0] == ':' then 0 else 1 + FirstColon(line[1..])
  }

  function FieldOf(line: string): string { line[..FirstColon(line)] }

  /** What follows the first colon, less one leading space. */
  function ValueOf(line: string): string {
    var c := FirstColon(line);
    if c == |line| then []
    else
      var raw := line[c + 1..];
      if raw != [] && raw[0] == ' ' then raw[1..] else raw
  }

  function Line(name: string, value: string): string { name + ": " + value }

  lemma FieldLine(name: string, value: string)
    requires ':' !in name
    ensures FieldOf(Line(name, value)) == name && ValueOf(Line(name, value)) == value
  {
    var line := Line(name, value);
    ColonAfter(name, ": " + value);
    assert line == name + (": " + value);
    assert line[|name| + 1..] == " " + value;
  }

  lemma {:induction false} ColonAfter(name: string, rest: string)
    requires ':' !in name && rest != [] && rest[0] == ':'
    ensures FirstColon(name + rest) == |name|
  {
    if name == [] {
      assert name + rest == rest;
    } else {
      assert (name + rest)[1..] == name[1..] + rest;
      ColonAfter(name[1..], rest);
    }
  }

  // ---- payloads ----

  predicate PlainBody(body: string) { '}' !in body && '\n' !in body }

  function Encoded(e: Envelope): string { "{" + DecimalText(e.sequence) + " " + e.body + "}" }

  function FirstSpace(s: string): (n: nat)
    ensures n <= |s|
  {
    if s == [] || s[0] == ' ' then 0 else 1 + FirstSpace(s[1..])
  }

  /** The payload's sequence and event; none when it is malformed or its sequence is below one. */
  function Decoded(payload: string): Option<Envelope> {
    if |payload| < 2 || payload[0] != '{' || payload[|payload| - 1] != '}' then None
    else
      var inner := payload[1..|payload| - 1];
      var n := FirstSpace(inner);
      if '}' in inner || n == |inner| then None
      else
        match ParseDecimal(inner[..n])
        case None => None
        case Some(sequence) => if sequence < 1 then None else Some(Envelope(sequence, inner[n + 1..]))
  }

  lemma {:induction false} SpaceAfter(digits: string, body: string)
    requires ' ' !in digits
    ensures FirstSpace(digits + " " + body) == |digits|
  {
    var s := digits + " " + body;
    if digits != [] {
      assert s[1..] == digits[1..] + " " + body;
      SpaceAfter(digits[1..], body);
    }
  }

  lemma DecodeUndoesEncode(e: Envelope)
    requires e.sequence >= 1 && PlainBody(e.body)
    ensures Decoded(Encoded(e)) == Some(e)
  {
    var digits := DecimalText(e.sequence);
    DecimalTextIsDigits(e.sequence);
    ParseUndoesDecimalText(e.sequence);
    SpaceAfter(digits, e.body);
    var inner := digits + " " + e.body;
    assert Encoded(e)[1..|Encoded(e)| - 1] == inner;
    assert inner[..|digits|] == digits && inner[|digits| + 1..] == e.body;
  }

  // ---- the reader ----

  datatype Parser = Parser(name: Option<string>, id: Option<string>, data: seq<string>)

  const CLEAN := Parser(None, None, [])

  datatype Dispatched = Nothing | Failure(reason: string) | Event(envelope: Envelope)

  function Joined(lines: seq<string>): string
    requires lines != []
  {
    if |lines| == 1 then lines[0] else Joined(lines[..|lines| - 1]) + "\n" + lines[|lines| - 1]
  }

  /** What a blank line, or the end of the stream, makes of the fields gathered so far. */
  function Dispatch(p: Parser): Dispatched {
    if p.data == [] then Nothing
    else if p.name.Some? && p.name.value != "market-data" then Nothing
    else
      match Decoded(Joined(p.data))
      case None => Failure("cloud market-data SSE payload is invalid")
      case Some(e) =>
        if p.id.None? then Event(e)
        else if ParseDecimal(p.id.value).None? then Failure("cloud market-data SSE id is invalid")
        else if ParseDecimal(p.id.value).value != e.sequence then
          Failure("cloud market-data SSE cursor does not match payload")
        else Event(e)
  }

  /** The data lines of an event are joined by line feeds. */
  lemma {:induction false} JoinedAppends(xs: seq<string>, ys: seq<string>)
    requires xs != [] && ys != []
    ensures Joined(xs + ys) == Joined(xs) + "\n" + Joined(ys)
    ensures |xs| == 1 ==> Joined(xs) == xs[0]
    decreases |ys|
  {
    var all, last := xs + ys, |ys| - 1;
    assert all[|all| - 1] == ys[last];
    if last == 0 {
      assert all[..|all| - 1] == xs;
    } else {
      assert all[..|all| - 1] == xs + ys[..last];
      JoinedAppends(xs, ys[..last]);
      assert Joined(xs) + "\n" + Joined(ys[..last]) + "\n" + ys[last] == Joined(xs) + "\n" + Joined(ys);
    }
  }

  /** The gathered fields are a market-data event, by name or without one, and carry data. */
  predicate IsMarketData(p: Parser) { p.data != [] && (p.name == None || p.name == Some("market-data")) }

  /** An event is delivered exactly when its data decodes and its ID, if it has one, is the payload's sequence; anything
      else of a market-data event fails, and other events pass unseen. */
  lemma DispatchIff(p: Parser)
    ensures var d := Dispatch(p);
            (d == Nothing <==> !IsMarketData(p))
            && (d.Event? <==> IsMarketData(p) && Decoded(Joined(p.data)).Some?
                              && (p.id.Some? ==> ParseDecimal(p.id.value) == Some(Decoded(Joined(p.data)).value.sequence)))
            && (d.Event? ==> Some(d.envelope) == Decoded(Joined(p.data)))
  {
  }

  function WithField(p: Parser, line: string): Parser {
    if line != [] && line[0] == ':' then p
    else if FieldOf(line) == "event" then p.(name := Some(ValueOf(line)))
    else if FieldOf(line) == "id" then p.(id := Some(ValueOf(line)))
    else if FieldOf(line) == "data" then p.(data := p.data + [ValueOf(line)])
    else p
  }

  datatype Reading = Reading(parser: Parser, events: seq<Envelope>, failed: bool)

  /** The reading after the gathered fields are dispatched: the parser is cleared, an event past the cursor is
      delivered, a failure ends everything. */
  function AfterDispatch(r: Reading, after: nat): Reading {
    match Dispatch(r.parser)
    case Nothing => r.(parser := CLEAN)
    case Failure(_) => r.(parser := CLEAN, failed := true)
    case Event(e) => r.(parser := CLEAN, events := if e.sequence > after then r.events + [e] else r.events)
  }

  function Fed(r: Reading, after: nat, line: string): Reading {
    if r.failed then r
    else if line == "" then AfterDispatch(r, after)
    else r.(parser := WithField(r.parser, line))
  }

  function FedAll(r: Reading, after: nat, lines: seq<string>): Reading {
    if lines == [] then r else Fed(FedAll(r, after, lines[..|lines| - 1]), after, lines[|lines| - 1])
  }

  function Read(lines: seq<string>, after: nat): Reading { FedAll(Reading(CLEAN, [], false), after, lines) }

  /** A connection that ends in order dispatches what it holds; one that breaks drops it. */
  function Finished(r: Reading, after: nat, eof: bool): Reading {
    if r.failed || !eof then r else AfterDispatch(r, after)
  }

  method ReadLines(lines: seq<string>, eof: bool, after: nat) returns (events: seq<Envelope>, failed: bool)
    ensures var r := Finished(Read(lines, after), after, eof); events == r.events && failed == r.failed
  {
    var name, id, data := None, None, [];
    events := [];
    for i := 0 to |lines|
      invariant Read(lines[..i], after) == Reading(Parser(name, id, data), events, false)
    {
      assert lines[..i + 1][..i] == lines[..i];
      var line := lines[i];
      if line == "" {
        var d := Dispatch(Parser(name, id, data));
        name, id, data := None, None, [];
        if d.Failure? {
          FailureStays(lines, i + 1, after);
          return events, true;
        }
        if d.Event? && d.envelope.sequence > after { events := events + [d.envelope]; }
        continue;
      }
      if line[0] == ':' { continue; }
      var field, value := FieldOf(line), ValueOf(line);
      if field == "event" {
        name := Some(value);
      } else if field == "id" {
        id := Some(value);
      } else if field == "data" {
        data := data + [value];
      }
    }
    assert lines[..|lines|] == lines;
    failed := false;
    if eof {
      var d := Dispatch(Parser(name, id, data));
      failed := d.Failure?;
      if d.Event? && d.envelope.sequence > after { events := events + [d.envelope]; }
    }
  }

  lemma {:induction false} FailureStays(lines: seq<string>, n: nat, after: nat)
    requires n <= |lines| && Read(lines[..n], after).failed
    ensures Read(lines, after) == Read(lines[..n], after)
    decreases |lines| - n
  {
    if n == |lines| {
      assert lines[..n] == lines;
    } else {
      assert lines[..n + 1][..n] == lines[..n];
      FailureStays(lines, n + 1, after);
    }
  }

  // ---- what a server sends ----

  /** An event, or a comment or retry line followed by a blank one. */
  datatype Item = Market(envelope: Envelope) | Comment(text: string) | Retry(text: string)

  function Printed(i: Item): seq<string> {
    match i
    case Market(e) => [Line("id", DecimalText(e.sequence)), Line("event", "market-data"), Line("data", Encoded(e)), ""]
    case Comment(text) => [":" + text, ""]
    case Retry(text) => [Line("retry", text), ""]
  }

  function PrintedAll(items: seq<Item>): seq<string> {
    if items == [] then [] else PrintedAll(items[..|items| - 1]) + Printed(items[|items| - 1])
  }

  function EventsOf(items: seq<Item>): seq<Envelope> {
    if items == [] then []
    else
      var rest, last := EventsOf(items[..|items| - 1]), items[|items| - 1];
      if last.Market? then rest + [last.envelope] else rest
  }

  predicate SendableItem(i: Item) {
    i.Market? ==> i.envelope.sequence >= 1 && PlainBody(i.envelope.body)
  }

  predicate Sendable(items: seq<Item>) { forall i :: 0 <= i < |items| ==> SendableItem(items[i]) }

  function Past(events: seq<Envelope>, after: nat): seq<Envelope> {
    if events == [] then []
    else
      var rest, last := Past(events[..|events| - 1], after), events[|events| - 1];
      if last.sequence > after then rest + [last] else rest
  }

  lemma {:induction false} FedAppend(r: Reading, after: nat, a: seq<string>, b: seq<string>)
    ensures FedAll(r, after, a + b) == FedAll(FedAll(r, after, a), after, b)
  {
    if b == [] {
      assert a + b == a;
    } else {
      assert (a + b)[..|a + b| - 1] == a + b[..|b| - 1];
      FedAppend(r, after, a, b[..|b| - 1]);
    }
  }

  /** The parser after the first j lines of an event. */
  function Gathered(e: Envelope, j: nat): Parser {
    Parser(if j >= 2 then Some("market-data") else None, if j >= 1 then Some(DecimalText(e.sequence)) else None,
           if j >= 3 then [Encoded(e)] else [])
  }

  lemma GatherOneMore(e: Envelope, j: nat)
    requires j < 3
    ensures Printed(Market(e))[j] != "" && WithField(Gathered(e, j), Printed(Market(e))[j]) == Gathered(e, j + 1)
  {
    FieldLine("id", DecimalText(e.sequence));
    FieldLine("event", "market-data");
    FieldLine("data", Encoded(e));
  }

  lemma {:induction false} EventLines(r: Reading, e: Envelope, after: nat, j: nat)
    requires r.parser == CLEAN && !r.failed && j <= 3
    ensures FedAll(r, after, Printed(Market(e))[..j]) == r.(parser := Gathered(e, j))
  {
    if j > 0 {
      var lines := Printed(Market(e))[..j];
      EventLines(r, e, after, j - 1);
      GatherOneMore(e, j - 1);
      assert lines[..j - 1] == Printed(Market(e))[..j - 1];
    }
  }

  lemma EventBlock(r: Reading, e: Envelope, after: nat)
    requires r.parser == CLEAN && !r.failed && e.sequence >= 1 && PlainBody(e.body)
    ensures FedAll(r, after, Printed(Market(e)))
         == if e.sequence > after then r.(events := r.events + [e]) else r
  {
    var lines := Printed(Market(e));
    EventLines(r, e, after, 3);
    GatheredDispatches(e);
    assert lines[|lines| - 1] == "";
  }

  lemma GatheredDispatches(e: Envelope)
    requires e.sequence >= 1 && PlainBody(e.body)
    ensures Dispatch(Gathered(e, 3)) == Event(e)
  {
    DecodeUndoesEncode(e);
    ParseUndoesDecimalText(e.sequence);
  }

  lemma {:induction false} NoiseLines(r: Reading, i: Item, after: nat, j: nat)
    requires r.parser == CLEAN && !r.failed && !i.Market? && j <= 2
    ensures FedAll(r, after, Printed(i)[..j]) == r
  {
    if j > 0 {
      NoiseLines(r, i, after, j - 1);
      var lines := Printed(i)[..j];
      assert lines[..j - 1] == Printed(i)[..j - 1];
      assert lines[j - 1] == Printed(i)[j - 1];
    }
  }

  /** One whole item from a clean parser: its event, when past the cursor, and a clean parser again. */
  lemma ItemBlock(r: Reading, i: Item, after: nat)
    requires r.parser == CLEAN && !r.failed && SendableItem(i)
    ensures FedAll(r, after, Printed(i))
         == r.(events := r.events + NewEvents(i, after))
  {
    if i.Market? {
      EventBlock(r, i.envelope, after);
    } else {
      NoiseLines(r, i, after, 2);
      assert Printed(i)[..2] == Printed(i);
    }
  }

  lemma ReadOneMoreItem(init: seq<Item>, last: Item, after: nat)
    ensures Read(PrintedAll(init + [last]), after) == FedAll(Read(PrintedAll(init), after), after, Printed(last))
  {
    assert (init + [last])[..|init|] == init;
    FedAppend(Reading(CLEAN, [], false), after, PrintedAll(init), Printed(last));
  }

  /** Parsing undoes printing: whatever comments and retry lines stand between them, exactly the printed events past
      the cursor come out, in order, and nothing is left over. */
  lemma {:induction false} ParseUndoesPrint(items: seq<Item>, after: nat)
    requires Sendable(items)
    ensures Read(PrintedAll(items), after) == Reading(CLEAN, Past(EventsOf(items), after), false)
  {
    if items != [] {
      var init, last := items[..|items| - 1], items[|items| - 1];
      ParseUndoesPrint(init, after);
      assert items == init + [last] && SendableItem(items[|init|]);
      ReadOneMoreItem(init, last, after);
      ItemBlock(Read(PrintedAll(init), after), last, after);
    }
  }

  function NewEvents(i: Item, after: nat): seq<Envelope> {
    if i.Market? && i.envelope.sequence > after then [i.envelope] else []
  }

  /** A connection ended within the lines of one item has delivered that item's event or not, and nothing else. */
  lemma CutInItem(r: Reading, i: Item, j: nat, eof: bool, after: nat) returns (delivered: bool)
    requires r.parser == CLEAN && !r.failed && j <= |Printed(i)| && SendableItem(i)
    ensures var f := Finished(FedAll(r, after, Printed(i)[..j]), after, eof);
            !f.failed && f.events == if delivered then r.events + NewEvents(i, after) else r.events
  {
    delivered := false;
    if !i.Market? {
      NoiseLines(r, i, after, j);
    } else if j <= 3 {
      EventLines(r, i.envelope, after, j);
      GatheredDispatches(i.envelope);
      delivered := j == 3 && eof;
    } else {
      EventBlock(r, i.envelope, after);
      assert Printed(i)[..j] == Printed(i);
      delivered := true;
    }
  }

  /** A connection that carried these lines delivered the events of the first n items past the cursor. */
  predicate Delivers(items: seq<Item>, n: nat, lines: seq<string>, eof: bool, after: nat) {
    n <= |items| && Delivered(lines, eof, after) == (Past(EventsOf(items[..n]), after), false)
  }

  function Delivered(lines: seq<string>, eof: bool, after: nat): (seq<Envelope>, bool) {
    var r := Finished(Read(lines, after), after, eof);
    (r.events, r.failed)
  }

  /** Cut at any line and ended either way, a connection delivers the events of its first n items past the cursor. */
  lemma {:induction false} CutDeliversPrefix(items: seq<Item>, k: nat, eof: bool, after: nat) returns (n: nat)
    requires Sendable(items) && k <= |PrintedAll(items)|
    ensures Delivers(items, n, PrintedAll(items)[..k], eof, after)
  {
    if items == [] {
      n := 0;
    } else {
      var init, last := items[..|items| - 1], items[|items| - 1];
      CutOfSum(PrintedAll(init), Printed(last), k);
      if k <= |PrintedAll(init)| {
        n := CutDeliversPrefix(init, k, eof, after);
        assert init[..n] == items[..n];
      } else {
        n := CutInLast(items, k - |PrintedAll(init)|, eof, after);
      }
    }
  }

  lemma CutOfSum(a: seq<string>, b: seq<string>, k: nat)
    requires k <= |a| + |b|
    ensures (a + b)[..k] == if k <= |a| then a[..k] else a + b[..k - |a|]
  {
  }

  lemma CutInLast(items: seq<Item>, j: nat, eof: bool, after: nat) returns (n: nat)
    requires Sendable(items) && items != [] && j <= |Printed(items[|items| - 1])|
    ensures Delivers(items, n, PrintedAll(items[..|items| - 1]) + Printed(items[|items| - 1])[..j], eof, after)
  {
    var init, last := items[..|items| - 1], items[|items| - 1];
    assert items == init + [last];
    FedAppend(Reading(CLEAN, [], false), after, PrintedAll(init), Printed(last)[..j]);
    var r := CleanReading(init, after);
    var delivered := CutInItem(r, last, j, eof, after);
    n := if delivered then |init| + 1 else |init|;
    CountDelivered(init, last, delivered, n, after);
  }

  lemma CountDelivered(init: seq<Item>, last: Item, delivered: bool, n: nat, after: nat)
    requires n == if delivered then |init| + 1 else |init|
    ensures n <= |init + [last]|
    ensures Past(EventsOf((init + [last])[..n]), after)
         == if delivered then Past(EventsOf(init), after) + NewEvents(last, after) else Past(EventsOf(init), after)
  {
    if delivered {
      assert (init + [last])[..n] == init + [last];
    } else {
      assert (init + [last])[..n] == init;
    }
  }

  lemma CleanReading(init: seq<Item>, after: nat) returns (r: Reading)
    requires Sendable(init)
    ensures r == Read(PrintedAll(init), after) && r == Reading(CLEAN, Past(EventsOf(init), after), false)
  {
    ParseUndoesPrint(init, after);
    r := Read(PrintedAll(init), after);
  }

  // ---- a connection that ends inside a line ----

  lemma PartOfField(name: string, value: string, m: nat)
    requires ':' !in name && m <= |Line(name, value)|
    ensures var part := Line(name, value)[..m];
            FieldOf(part) == (if m <= |name| then name[..m] else name)
            && ValueOf(part) == if m <= |name| + 2 then "" else value[..m - |name| - 2]
  {
    var line := Line(name, value);
    var part := line[..m];
    assert line == name + (": " + value);
    if m <= |name| {
      assert part == name[..m];
      NoColon(part);
    } else {
      assert part == name + part[|name|..] && part[|name|] == ':';
      ColonAfter(name, part[|name|..]);
      if m > |name| + 2 {
        assert part[|name| + 1..][1..] == value[..m - |name| - 2];
      }
    }
  }

  lemma {:induction false} NoColon(s: string)
    requires ':' !in s
    ensures FirstColon(s) == |s|
  {
    if s != [] { NoColon(s[1..]); }
  }

  /** A payload cut short is no payload. */
  lemma CutPayloadFails(e: Envelope, n: nat)
    requires PlainBody(e.body) && n < |Encoded(e)|
    ensures Decoded(Encoded(e)[..n]).None?
  {
    DecimalTextIsDigits(e.sequence);
    var inner := DecimalText(e.sequence) + " " + e.body;
    assert Encoded(e) == "{" + inner + "}";
    if n >= 2 {
      assert Encoded(e)[..n][n - 1] == inner[n - 2];
      assert '}' !in inner;
    }
  }

  /** Part of a line of an event, ended there: only a data line that shows at least its name fails. */
  lemma PartOfEventLine(e: Envelope, j: nat, m: nat)
    requires j < 3 && 0 < m < |Printed(Market(e))[j]| && PlainBody(e.body)
    ensures var part := Printed(Market(e))[j][..m];
            Dispatch(WithField(Gathered(e, j), part))
            == if j == 2 && m >= 4 then Failure("cloud market-data SSE payload is invalid") else Nothing
  {
    var part := Printed(Market(e))[j][..m];
    assert part[0] != ':';
    if j == 0 {
      PartOfField("id", DecimalText(e.sequence), m);
    } else if j == 1 {
      PartOfField("event", "market-data", m);
    } else {
      PartOfField("data", Encoded(e), m);
      if m >= 4 { CutPayloadFails(e, if m <= 6 then 0 else m - 6); }
    }
  }

  predicate DataPart(part: string) { |part| >= 4 && part[..4] == "data" }

  lemma PartInItem(r: Reading, i: Item, j: nat, m: nat, after: nat)
    requires r.parser == CLEAN && !r.failed && SendableItem(i) && j < |Printed(i)| && 0 < m < |Printed(i)[j]|
    ensures var part := Printed(i)[j][..m];
            var f := Finished(Fed(FedAll(r, after, Printed(i)[..j]), after, part), after, true);
            f.events == r.events && (f.failed <==> DataPart(part))
  {
    var part := Printed(i)[j][..m];
    if i.Market? {
      EventLines(r, i.envelope, after, j);
      PartOfEventLine(i.envelope, j, m);
      if j == 2 && m >= 4 { assert part[..4] == Line("data", Encoded(i.envelope))[..4] == "data"; }
    } else {
      NoiseLines(r, i, after, j);
      if i.Retry? { PartOfField("retry", i.text, m); }
    }
  }

  /** Ended in order inside a line, a connection delivers the events of its first n items and fails exactly when the
      line's part is that of a data line. A broken connection drops the part and is cut before the line. */
  lemma {:induction false} CutInsideLine(items: seq<Item>, k: nat, m: nat, after: nat) returns (n: nat)
    requires Sendable(items) && k < |PrintedAll(items)| && 0 < m < |PrintedAll(items)[k]|
    ensures var part := PrintedAll(items)[k][..m];
            n <= |items|
            && Delivered(PrintedAll(items)[..k] + [part], true, after) == (Past(EventsOf(items[..n]), after), DataPart(part))
  {
    var init, last := items[..|items| - 1], items[|items| - 1];
    var before := PrintedAll(init);
    CutOfSum(before, Printed(last), k);
    if k < |before| {
      n := CutInsideLine(init, k, m, after);
      assert init[..n] == items[..n];
    } else {
      assert items == init + [last] && SendableItem(items[|init|]);
      PartInLast(init, last, k - |before|, m, after);
      assert before + Printed(last)[..0] == before;
      n := |init|;
    }
  }

  lemma PartInLast(init: seq<Item>, last: Item, j: nat, m: nat, after: nat)
    requires Sendable(init) && SendableItem(last) && j < |Printed(last)| && 0 < m < |Printed(last)[j]|
    ensures var part := Printed(last)[j][..m];
            Delivered(PrintedAll(init) + Printed(last)[..j] + [part], true, after)
            == (Past(EventsOf(init), after), DataPart(part))
  {
    var part := Printed(last)[j][..m];
    FedLast(Reading(CLEAN, [], false), after, PrintedAll(init) + Printed(last)[..j], part);
    FedAppend(Reading(CLEAN, [], false), after, PrintedAll(init), Printed(last)[..j]);
    var r := CleanReading(init, after);
    PartInItem(r, last, j, m, after);
  }

  lemma FedLast(r: Reading, after: nat, lines: seq<string>, line: string)
    ensures FedAll(r, after, lines + [line]) == Fed(FedAll(r, after, lines), after, line)
  {
    assert (lines + [line])[..|lines + [line]| - 1] == lines;
  }
}
