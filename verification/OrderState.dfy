/** The order lifecycle (execution/order_state.py): which transitions exist, what a replay of the
    events gives back, and why every history is finite. */
module OrderState {
  import opened Texts

  datatype State =
    | Created | PendingRisk | Approved | Submitted | PartiallyFilled | Filled | CancelPending | Cancelled | Rejected

  function Allowed(s: State): set<State> {
    match s
    case Created => {PendingRisk, Rejected}
    case PendingRisk => {Approved, Rejected}
    case Approved => {Submitted, Cancelled, Rejected}
    case Submitted => {PartiallyFilled, Filled, CancelPending, Cancelled, Rejected}
    case PartiallyFilled => {PartiallyFilled, Filled, CancelPending, Cancelled}
    case CancelPending => {Cancelled, PartiallyFilled, Filled}
    case Filled => {}
    case Cancelled => {}
    case Rejected => {}
  }

  predicate Terminal(s: State) { s in {Filled, Cancelled, Rejected} }

  datatype Refusal = IllegalTransition | FillDecreases | NotPartial | NotComplete | NoProvenance | FillExceedsRequest

  datatype Applied = Moved(value: Lifecycle) | Unmoved(why: Refusal)

  /** An ID or a symbol. */
  datatype Name = Name(text: string)

  /** Where a transition came from: the two reconcile names are written by the code, a blank one is refused. */
  datatype Provenance = Blank | PaperStatus | PaperRecovery | Other(text: string)

  datatype Event = Event(sequence: nat, at: int, from: State, to: State, filled: nat, provenance: Provenance)
  datatype Lifecycle = Lifecycle(id: Name, planId: Name, symbol: Name, requested: nat,
                                 state: State, filled: nat, events: seq<Event>)
  {
    /** The validators every constructed lifecycle has passed. */
    predicate Valid() {
      id.text != "" && planId.text != "" && requested > 0 && filled <= requested
      && (state == Filled ==> filled == requested)
    }
  }

  /** shares None leaves the filled count as it is; a negative count fails as one that decreases. */
  function Apply(o: Lifecycle, next: State, at: int, provenance: Provenance, shares: Option<int>): Applied {
    var filled := if shares.None? then o.filled else shares.value;
    if next !in Allowed(o.state) then Unmoved(IllegalTransition)
    else if filled < o.filled then Unmoved(FillDecreases)
    else if next == PartiallyFilled && !(o.filled < filled < o.requested) then Unmoved(NotPartial)
    else if next == Filled && filled != o.requested then Unmoved(NotComplete)
    else if provenance == Blank then Unmoved(NoProvenance)
    else if filled > o.requested then Unmoved(FillExceedsRequest)
    else
      var e := Event(|o.events| + 1, at, o.state, next, filled, provenance);
      Moved(o.(state := next, filled := filled, events := o.events + [e]))
  }

  // ---- replay ----

  /** The order with one event applied again. */
  function Redo(o: Lifecycle, e: Event): Lifecycle {
    o.(state := e.to, filled := e.filled, events := o.events + [e])
  }

  function Replay(o: Lifecycle, events: seq<Event>): Lifecycle
    decreases |events|
  {
    if events == [] then o else Redo(Replay(o, events[..|events| - 1]), events[|events| - 1])
  }

  /** The next event an order may record: numbered on, from its state, along an allowed transition, with a
      fill that neither falls nor passes the request. */
  predicate Follows(o: Lifecycle, e: Event) {
    e.sequence == |o.events| + 1 && e.from == o.state && e.to in Allowed(o.state)
    && o.filled <= e.filled <= o.requested
    && (e.to == PartiallyFilled ==> o.filled < e.filled < o.requested)
    && (e.to == Filled ==> e.filled == o.requested)
  }

  /** Events that this order may record one after another. */
  predicate Continues(o: Lifecycle, events: seq<Event>)
    decreases |events|
  {
    events == []
    || (var before := Replay(o, events[..|events| - 1]);
        Continues(o, events[..|events| - 1]) && Follows(before, events[|events| - 1]))
  }

  /** A transition succeeds exactly when its event continues the order, and then it is that one event more. */
  lemma ApplyIsRedo(o: Lifecycle, next: State, at: int, provenance: Provenance, shares: Option<int>)
    requires o.Valid()
    ensures var r := Apply(o, next, at, provenance, shares);
            var filled := if shares.None? then o.filled else shares.value;
            (r.Moved? <==> filled >= 0 && provenance != Blank
                           && Continues(o, [Event(|o.events| + 1, at, o.state, next, filled, provenance)]))
            && (r.Moved? ==> r.value.Valid() && |r.value.events| == |o.events| + 1
                             && o.events <= r.value.events && r.value == Redo(o, r.value.events[|o.events|])
                             && r.value.filled >= o.filled)
  {
    var filled := if shares.None? then o.filled else shares.value;
    if filled >= 0 {
      var e := Event(|o.events| + 1, at, o.state, next, filled, provenance);
      assert [e][..0] == [];
      assert Continues(o, [e]) <==>
             (e.to in Allowed(o.state) && o.filled <= e.filled <= o.requested
              && (e.to == PartiallyFilled ==> o.filled < e.filled < o.requested)
              && (e.to == Filled ==> e.filled == o.requested));
    }
  }

  lemma {:induction false} ReplayEvents(o: Lifecycle, events: seq<Event>)
    ensures Replay(o, events).events == o.events + events
    ensures Replay(o, events) == o.(state := Replay(o, events).state, filled := Replay(o, events).filled,
                                    events := o.events + events)
    decreases |events|
  {
    if events != [] {
      ReplayEvents(o, events[..|events| - 1]);
      assert events[..|events| - 1] + [events[|events| - 1]] == events;
    }
  }

  // ---- which steps there are ----

  /** The broker has the order and it is not over. */
  predicate Working(s: State) { s == Submitted || s == PartiallyFilled || s == CancelPending }

  /** Read backwards the table is short: each gate is entered only from the one before it, fills and cancellations come
      only to orders at work, a cancel is requested once, and an approved order may be withdrawn. A refusal comes before
      any fill or cancel request. */
  lemma EnteredFrom(s: State, next: State)
    ensures next == Created ==> next !in Allowed(s)
    ensures next == PendingRisk ==> (next in Allowed(s) <==> s == Created)
    ensures next == Approved ==> (next in Allowed(s) <==> s == PendingRisk)
    ensures next == Submitted ==> (next in Allowed(s) <==> s == Approved)
    ensures next == PartiallyFilled || next == Filled ==> (next in Allowed(s) <==> Working(s))
    ensures next == CancelPending ==> (next in Allowed(s) <==> Working(s) && s != CancelPending)
    ensures next == Cancelled ==> (next in Allowed(s) <==> Working(s) || s == Approved)
    ensures next == Rejected ==> (next in Allowed(s) <==> !Terminal(s) && s != PartiallyFilled && s != CancelPending)
  {
  }

  /** How many of the three gates an order in this state has passed: risk, approval, submission. */
  function GatesPassed(s: State): nat {
    if s == PendingRisk then 1 else if s == Approved then 2 else if Working(s) || s == Filled then 3 else 0
  }

  /** The events begin with the gates up to this many, in order. */
  predicate PassesGates(events: seq<Event>, n: nat) {
    n <= |events| && (n >= 1 ==> events[0].to == PendingRisk) && (n >= 2 ==> events[1].to == Approved)
    && (n >= 3 ==> events[2].to == Submitted)
  }

  /** Over every history of a new order: whatever is at work or filled has passed risk, approval and submission in that
      order, as its first three events; before that it has had no other event. */
  lemma {:induction false} NothingWithoutApproval(o: Lifecycle, events: seq<Event>)
    requires o.Valid() && o.state == Created && Continues(o, events)
    ensures var now := Replay(o, events);
            PassesGates(events, GatesPassed(now.state))
            && (now.state in {Created, PendingRisk, Approved} ==> |events| == GatesPassed(now.state))
    decreases |events|
  {
    if events != [] {
      var before, e := events[..|events| - 1], events[|events| - 1];
      NothingWithoutApproval(o, before);
      EnteredFrom(Replay(o, before).state, e.to);
      assert before == events[..|before|];
    }
  }

  // ---- termination ----

  /** The most events that can still follow. */
  function Remaining(o: Lifecycle): nat {
    var partials := if o.requested > o.filled then o.requested - o.filled - 1 else 0;
    match o.state
    case Created => 2 * partials + 5
    case PendingRisk => 2 * partials + 4
    case Approved => 2 * partials + 3
    case Submitted => 2 * partials + 2
    case PartiallyFilled => 2 * partials + 2
    case CancelPending => 2 * partials + 1
    case _ => 0
  }

  /** Every continuation is paid for by Remaining, so a history has at most that many events more; fills
      never decrease or pass the request, and a terminal order never changes. */
  lemma {:induction false} HistoryIsFinite(o: Lifecycle, events: seq<Event>)
    requires o.Valid() && Continues(o, events)
    ensures var o' := Replay(o, events);
            |events| + Remaining(o') <= Remaining(o)
            && o'.Valid() && o.filled <= o'.filled <= o.requested == o'.requested
            && (Terminal(o.state) ==> events == [])
    decreases |events|
  {
    if events != [] {
      HistoryIsFinite(o, events[..|events| - 1]);
      ReplayEvents(o, events[..|events| - 1]);
    }
  }

  /** A new order has at most 2 * requested + 3 events, however it is driven. */
  lemma NewOrderBound(o: Lifecycle, events: seq<Event>)
    requires o.Valid() && o.state == Created && o.filled == 0 && o.events == []
    requires Continues(o, events)
    ensures |events| <= 2 * o.requested + 3
  {
    HistoryIsFinite(o, events);
  }

  lemma OneMore(o: Lifecycle, events: seq<Event>, e: Event)
    requires Continues(o, events) && Follows(Replay(o, events), e)
    ensures Continues(o, events + [e]) && Replay(o, events + [e]) == Redo(Replay(o, events), e)
  {
    assert (events + [e])[..|events|] == events;
  }

  /** The bound is met: fills of one share, each followed by a cancel request, then the cancellation. */
  function Longest(requested: nat, k: nat): seq<Event>
    requires k < requested
  {
    if k == 0 then
      [] + [Event(1, 0, Created, PendingRisk, 0, PaperStatus)] + [Event(2, 0, PendingRisk, Approved, 0, PaperStatus)]
      + [Event(3, 0, Approved, Submitted, 0, PaperStatus)] + [Event(4, 0, Submitted, CancelPending, 0, PaperStatus)]
    else
      Longest(requested, k - 1)
      + [Event(2 * k + 3, 0, CancelPending, PartiallyFilled, k, PaperStatus)]
      + [Event(2 * k + 4, 0, PartiallyFilled, CancelPending, k, PaperStatus)]
  }

  lemma {:induction false} LongestContinues(o: Lifecycle, k: nat)
    requires o.Valid() && o.state == Created && o.filled == 0 && o.events == [] && k < o.requested
    ensures var l := Longest(o.requested, k);
            |l| == 2 * k + 4 && Continues(o, l) && Replay(o, l).state == CancelPending && Replay(o, l).filled == k
            && |Replay(o, l).events| == 2 * k + 4 && Replay(o, l).requested == o.requested
  {
    if k == 0 {
      var l1 := [] + [Event(1, 0, Created, PendingRisk, 0, PaperStatus)];
      var l2 := l1 + [Event(2, 0, PendingRisk, Approved, 0, PaperStatus)];
      var l3 := l2 + [Event(3, 0, Approved, Submitted, 0, PaperStatus)];
      OneMore(o, [], Event(1, 0, Created, PendingRisk, 0, PaperStatus));
      OneMore(o, l1, Event(2, 0, PendingRisk, Approved, 0, PaperStatus));
      OneMore(o, l2, Event(3, 0, Approved, Submitted, 0, PaperStatus));
      OneMore(o, l3, Event(4, 0, Submitted, CancelPending, 0, PaperStatus));
    } else {
      LongestContinues(o, k - 1);
      var before := Longest(o.requested, k - 1);
      var e := Event(2 * k + 3, 0, CancelPending, PartiallyFilled, k, PaperStatus);
      OneMore(o, before, e);
      OneMore(o, before + [e], Event(2 * k + 4, 0, PartiallyFilled, CancelPending, k, PaperStatus));
    }
  }

  lemma BoundIsTight(o: Lifecycle) returns (events: seq<Event>)
    requires o.Valid() && o.state == Created && o.filled == 0 && o.events == []
    ensures Continues(o, events) && |events| == 2 * o.requested + 3 && Replay(o, events).state == Cancelled
  {
    var n := o.requested;
    LongestContinues(o, n - 1);
    var last := Event(2 * n + 3, 0, CancelPending, Cancelled, n - 1, PaperStatus);
    OneMore(o, Longest(n, n - 1), last);
    events := Longest(n, n - 1) + [last];
  }
}
