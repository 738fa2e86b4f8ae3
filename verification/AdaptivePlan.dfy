/** The adaptive trade-plan engine (kernel/adaptive_trade_plan.py). Times are microseconds. */
module AdaptivePlan {
  import opened Numbers
  import opened Texts

  datatype Mode = Catalyst | Factor
  datatype State = Watching | Armed | EntryReady | Holding | AddAllowed | ReduceRequired | ExitRequired
                 | Abandoned | Closed
  datatype Action = NoAction | ArmEntry | EnterProbe | AllowAdd | Reduce | TightenStop | ExitNow | Abandon

  datatype Blocker = DataIncomplete | QuoteStale | SpreadTooWide
                   | MarketRiskOff | BenchmarkBelowVwap | SectorBelowVwap | BelowSessionVwap
                   | FifteenMinuteNotConfirmed | FiveMinuteNotConfirmed | OneMinuteNotConfirmed
                   | GreenVolumeNotConfirmed | RelativeStrengthNotConfirmed
                   | CatalystUnavailable | CatalystBelowThreshold | OrderFlowUnavailable | OrderFlowBelowThreshold
                   | CapacityExhausted | FirstTargetFilled | AwaitingPositionIncrease | BarTimeRegressed
                   | SoftLimitReached | SoftCooldownActive

  /** The immutable envelope the owner approved. */
  datatype Plan = Plan(mode: Mode, entryEnd: int, forceExit: int, hardStop: real, maxRisk: real, maxNotional: real,
                       probeFraction: real, maxSpread: real, cooldown: int, maxSoft: nat)
  {
    predicate Valid() {
      entryEnd < forceExit && hardStop > 0.0 && maxRisk > 0.0 && maxNotional > 0.0 && 0.0 < probeFraction <= 1.0
      && maxSpread > 0.0 && cooldown >= 0 && maxSoft >= 1
    }
  }

  datatype Position = Position(shares: nat, average: real, stop: real)

  datatype Facts = Facts(observed: int, quoteAt: int, bid: real, ask: real, last: real, vwap: Option<real>,
                         bar: Option<int>, oneMinute: bool, fiveMinute: bool, fifteenMinute: bool,
                         greenVolume: Option<real>, strength: Option<real>, benchmark: bool, sector: bool,
                         riskOff: bool, flow: Option<real>, catalyst: Option<real>, complete: bool,
                         proposedStop: Option<real>, firstTarget: bool)
  {
    predicate Valid() {
      (bar.Some? ==> bar.value <= observed) && 0.0 < bid <= ask && last > 0.0 && quoteAt <= observed
    }
  }

  datatype Runtime = Runtime(state: State, confirmations: nat, lastBar: Option<int>, lastMaterial: Option<int>,
                             soft: nat, stop: real, revision: nat, lastAddShares: Option<nat>)

  datatype Decision = Decision(action: Action, material: bool, soft: bool, blockers: seq<Blocker>,
                               shares: Option<nat>, runtime: Runtime)

  function Initial(plan: Plan): Runtime { Runtime(Watching, 0, None, None, 0, plan.hardStop, 0, None) }

  // ---- the pieces of one evaluation ----

  function If(c: bool, b: Blocker): seq<Blocker> { if c then [b] else [] }

  /** The blockers whose conditions hold, in order. */
  function Listed(checks: seq<(bool, Blocker)>): seq<Blocker> {
    if checks == [] then [] else If(checks[0].0, checks[0].1) + Listed(checks[1..])
  }

  lemma {:induction false} NothingListed(checks: seq<(bool, Blocker)>)
    ensures Listed(checks) == [] <==> forall i :: 0 <= i < |checks| ==> !checks[i].0
  {
    if checks != [] {
      NothingListed(checks[1..]);
      assert forall i :: 1 <= i < |checks| ==> checks[i] == checks[1..][i - 1];
    }
  }

  function QuoteChecks(plan: Plan, f: Facts): seq<(bool, Blocker)>
    requires f.Valid()
  {
    [(!f.complete, DataIncomplete),
     (f.observed - f.quoteAt > 30_000_000, QuoteStale),
     ((f.ask - f.bid) / ((f.bid + f.ask) / 2.0) > plan.maxSpread, SpreadTooWide)]
  }

  function QuoteBlockers(plan: Plan, f: Facts): seq<Blocker>
    requires f.Valid()
  {
    Listed(QuoteChecks(plan, f))
  }

  predicate Lacks(x: Option<real>, least: real) { x.None? || x.value < least }

  function EntryChecks(plan: Plan, f: Facts): seq<(bool, Blocker)> {
    [(f.riskOff, MarketRiskOff),
     (!f.benchmark, BenchmarkBelowVwap),
     (!f.sector, SectorBelowVwap),
     (f.vwap.None? || f.last <= f.vwap.value, BelowSessionVwap),
     (!f.fifteenMinute, FifteenMinuteNotConfirmed),
     (!f.fiveMinute, FiveMinuteNotConfirmed),
     (!f.oneMinute, OneMinuteNotConfirmed),
     (Lacks(f.greenVolume, 1.5), GreenVolumeNotConfirmed),
     (f.strength.None? || f.strength.value <= 0.0, RelativeStrengthNotConfirmed),
     if plan.mode == Catalyst then
       (Lacks(f.catalyst, 0.70), if f.catalyst.None? then CatalystUnavailable else CatalystBelowThreshold)
     else
       (Lacks(f.flow, 0.20), if f.flow.None? then OrderFlowUnavailable else OrderFlowBelowThreshold)]
  }

  function EntryBlockers(plan: Plan, f: Facts): seq<Blocker> { Listed(EntryChecks(plan, f)) }

  function FlowBlockers(f: Facts): seq<Blocker> {
    If(Lacks(f.flow, 0.20), if f.flow.None? then OrderFlowUnavailable else OrderFlowBelowThreshold)
  }

  /** Whole shares the envelope still admits, floored separately by notional and by risk. */
  function Capacity(plan: Plan, ask: real, held: nat, average: real, stop: real): int
    requires ask > 0.0
  {
    if ask - stop <= 0.0 then 0
    else
      var notional := plan.maxNotional - held as real * ask;
      var risk := plan.maxRisk - held as real * Max(average - stop, 0.0);
      if notional <= 0.0 || risk <= 0.0 then 0
      else
        var byNotional, byRisk := (notional / ask).Floor, (risk / (ask - stop)).Floor;
        var least := if byRisk < byNotional then byRisk else byNotional;
        if least < 0 then 0 else least
  }

  function ProbeSize(plan: Plan, capacity: nat): nat
    requires capacity >= 1 && plan.Valid()
  {
    var size := (capacity as real * plan.probeFraction).Floor;
    if size > 1 then size else 1
  }

  function SoftBlocker(plan: Plan, r: Runtime, f: Facts): seq<Blocker> {
    if r.soft >= plan.maxSoft then [SoftLimitReached]
    else If(r.lastMaterial.Some? && f.observed - r.lastMaterial.value < plan.cooldown, SoftCooldownActive)
  }

  function Quiet(r: Runtime, next: State, blockers: seq<Blocker>): Decision {
    Decision(NoAction, false, false, blockers, None, r.(state := next))
  }

  function Material(r: Runtime, f: Facts, action: Action, next: State, soft: bool, shares: Option<nat>): Decision {
    Decision(action, true, soft, [], shares,
             r.(state := next, revision := r.revision + 1, lastMaterial := Some(f.observed),
                soft := if soft then r.soft + 1 else r.soft))
  }

  // ---- the evaluation ----

  function Synchronized(r: Runtime, p: Option<Position>): Runtime {
    if p.Some? && (r.state == Watching || r.state == Armed || r.state == EntryReady) then r.(state := Holding) else r
  }

  predicate HoldsPosition(s: State) { s == Holding || s == AddAllowed || s == ReduceRequired || s == ExitRequired }

  predicate Deteriorating(f: Facts) {
    f.vwap.Some? && f.last < f.vwap.value && !f.fiveMinute && (f.flow.None? || f.flow.value < -0.20)
  }

  function EffectiveStop(plan: Plan, r: Runtime, p: Position): real { Max(Max(plan.hardStop, r.stop), p.stop) }

  function AddBlockers(plan: Plan, r: Runtime, f: Facts, p: Position): seq<Blocker>
    requires f.Valid()
  {
    var entry := EntryBlockers(plan, f);
    entry + If(f.firstTarget, FirstTargetFilled)
    + (if OrderFlowUnavailable in entry || OrderFlowBelowThreshold in entry then [] else FlowBlockers(f))
    + If(Capacity(plan, f.ask, p.shares, p.average, EffectiveStop(plan, r, p)) < 1, CapacityExhausted)
  }

  predicate SameAsLastAdd(r: Runtime, p: Position) { r.lastAddShares.Some? && p.shares <= r.lastAddShares.value }

  function WithPosition(plan: Plan, r: Runtime, f: Facts, p: Position): Decision
    requires plan.Valid() && f.Valid()
  {
    var stop := EffectiveStop(plan, r, p);
    if f.bid <= stop then Material(r.(stop := stop), f, ExitNow, ExitRequired, false, None)
    else if f.firstTarget && f.proposedStop.Some? && stop < f.proposedStop.value < f.bid then
      Material(r.(stop := f.proposedStop.value), f, TightenStop, Holding, false, None)
    else if Deteriorating(f) then Material(r, f, Reduce, ReduceRequired, false, None)
    else Adding(plan, r, f, p)
  }

  function Adding(plan: Plan, r: Runtime, f: Facts, p: Position): Decision
    requires plan.Valid() && f.Valid()
  {
    var blockers := AddBlockers(plan, r, f, p);
    if blockers != [] then Quiet(r, Holding, blockers)
    else if SameAsLastAdd(r, p) then
      if r.state == AddAllowed then Quiet(r, AddAllowed, []) else Quiet(r, Holding, [AwaitingPositionIncrease])
    else if f.bar.Some? && f.bar != r.lastBar then
      if SoftBlocker(plan, r, f) != [] then Quiet(r, Holding, SoftBlocker(plan, r, f))
      else
        AddWithinCapacity(plan, r, f, p);
        Material(r.(lastBar := f.bar, lastAddShares := Some(p.shares)), f, AllowAdd, AddAllowed, true,
                 Some(ProbeSize(plan, Capacity(plan, f.ask, p.shares, p.average, EffectiveStop(plan, r, p)))))
    else Quiet(r, Holding, [])
  }

  lemma AddWithinCapacity(plan: Plan, r: Runtime, f: Facts, p: Position)
    requires f.Valid() && AddBlockers(plan, r, f, p) == []
    ensures Capacity(plan, f.ask, p.shares, p.average, EffectiveStop(plan, r, p)) >= 1
    ensures EntryBlockers(plan, f) == [] && !f.firstTarget && !Lacks(f.flow, 0.20)
  {
    assert |AddBlockers(plan, r, f, p)| == 0;
  }

  function EntryCapacity(plan: Plan, f: Facts): int
    requires f.Valid()
  {
    Capacity(plan, f.ask, 0, 0.0, plan.hardStop)
  }

  /** The entry confluence holds and the envelope admits at least one share. */
  predicate Confirming(plan: Plan, f: Facts)
    requires f.Valid()
  {
    EntryBlockers(plan, f) == [] && EntryCapacity(plan, f) >= 1
  }

  function WithoutPosition(plan: Plan, r: Runtime, f: Facts): Decision
    requires plan.Valid() && f.Valid()
  {
    if f.observed >= plan.entryEnd then
      if r.state == Abandoned then Quiet(r, Abandoned, [])
      else Material(r, f, Abandon, Abandoned, false, None)
    else if !Confirming(plan, f) then
      Quiet(r.(confirmations := 0), Watching,
            EntryBlockers(plan, f) + If(EntryCapacity(plan, f) < 1, CapacityExhausted))
    else if f.bar.None? || f.bar == r.lastBar then Quiet(r, r.state, [])
    else if r.lastBar.Some? && f.bar.value < r.lastBar.value then Quiet(r, r.state, [BarTimeRegressed])
    else Confirmed(plan, r, f)
  }

  /** A new completed bar confirms the entry. */
  function Confirmed(plan: Plan, r: Runtime, f: Facts): Decision
    requires plan.Valid() && f.Valid() && Confirming(plan, f)
  {
    var r1 := r.(confirmations := r.confirmations + 1, lastBar := f.bar);
    if r1.confirmations == 1 then Decision(ArmEntry, false, false, [], None, r1.(state := Armed))
    else if r.state == EntryReady then Quiet(r1, EntryReady, [])
    else if SoftBlocker(plan, r, f) != [] then Quiet(r1, Armed, SoftBlocker(plan, r, f))
    else Material(r1, f, EnterProbe, EntryReady, true, Some(ProbeSize(plan, EntryCapacity(plan, f))))
  }

  function Evaluate(plan: Plan, runtime: Runtime, f: Facts, p: Option<Position>): Decision
    requires plan.Valid() && f.Valid()
  {
    var r := Synchronized(runtime, p);
    if p.None? && HoldsPosition(r.state) then Material(r, f, NoAction, Closed, false, None)
    else if p.None? && r.state == Closed then Quiet(r, Closed, [])
    else if p.Some? && f.observed >= plan.forceExit then Material(r, f, ExitNow, ExitRequired, false, None)
    else if QuoteBlockers(plan, f) != [] then Quiet(r, r.state, QuoteBlockers(plan, f))
    else if p.Some? then WithPosition(plan, r, f, p.value)
    else WithoutPosition(plan, r, f)
  }

  // ---- the risk envelope ----

  /** Held and new shares at the ask stay inside the approved notional, and their loss down to the stop inside
      the approved risk. */
  predicate WithinEnvelope(plan: Plan, ask: real, held: nat, average: real, stop: real, shares: nat) {
    (held + shares) as real * ask <= plan.maxNotional
    && held as real * Max(average - stop, 0.0) + shares as real * (ask - stop) <= plan.maxRisk
  }

  lemma FloorIsLargest(x: real, unit: real, n: int)
    requires unit > 0.0
    ensures n <= (x / unit).Floor <==> n as real * unit <= x
  {
    var q := x / unit;
    assert q * unit == x;
    if n as real * unit <= x {
      assert (q - n as real) * unit >= 0.0;
      assert q >= n as real;
    } else {
      assert (n as real - q) * unit > 0.0;
    }
  }

  /** The capacity is the largest share count the envelope admits. */
  lemma CapacityIsLargest(plan: Plan, ask: real, held: nat, average: real, stop: real, shares: nat)
    requires plan.Valid() && ask > 0.0 && shares >= 1
    ensures shares <= Capacity(plan, ask, held, average, stop)
            <==> stop < ask && WithinEnvelope(plan, ask, held, average, stop, shares)
  {
    if stop < ask {
      var notional, risk := plan.maxNotional - held as real * ask, plan.maxRisk - held as real * Max(average - stop, 0.0);
      FloorIsLargest(notional, ask, shares);
      FloorIsLargest(risk, ask - stop, shares);
      assert (held + shares) as real * ask == held as real * ask + shares as real * ask;
      assert shares as real * ask >= ask && shares as real * (ask - stop) >= ask - stop;
    }
  }

  lemma ProbeSizeFits(plan: Plan, capacity: nat)
    requires plan.Valid() && capacity >= 1
    ensures 1 <= ProbeSize(plan, capacity) <= capacity
  {
    assert capacity as real * (1.0 - plan.probeFraction) >= 0.0;
    assert capacity as real * plan.probeFraction <= capacity as real;
  }

  /** Shares are suggested exactly on an entry, which needs no position, and on an add, which needs one. */
  lemma SuggestionsAreBuys(plan: Plan, r: Runtime, f: Facts, p: Option<Position>)
    requires plan.Valid() && f.Valid()
    ensures var d := Evaluate(plan, r, f, p);
            (d.shares.Some? <==> d.action == EnterProbe || d.action == AllowAdd)
            && (d.action == AllowAdd ==> p.Some?) && (d.action == EnterProbe ==> p.None?)
  {
    if p.Some? { AddNeedsRoom(plan, Synchronized(r, p), f, p.value); }
  }

  lemma AddNeedsRoom(plan: Plan, r: Runtime, f: Facts, p: Position)
    requires plan.Valid() && f.Valid()
    ensures var d := WithPosition(plan, r, f, p);
            d.action != EnterProbe && (d.shares.Some? <==> d.action == AllowAdd)
            && (d.action == AllowAdd ==>
                  AddBlockers(plan, r, f, p) == [] && EffectiveStop(plan, r, p) < f.bid
                  && Capacity(plan, f.ask, p.shares, p.average, EffectiveStop(plan, r, p)) >= 1
                  && d.shares == Some(ProbeSize(plan, Capacity(plan, f.ask, p.shares, p.average, EffectiveStop(plan, r, p)))))
  {
    if AddBlockers(plan, r, f, p) == [] { AddWithinCapacity(plan, r, f, p); }
  }

  lemma ProbeFitsEnvelope(plan: Plan, r: Runtime, f: Facts, p: Option<Position>)
    requires plan.Valid() && f.Valid() && Evaluate(plan, r, f, p).action == EnterProbe
    ensures var d := Evaluate(plan, r, f, p);
            d.shares.Some? && d.shares.value >= 1
            && WithinEnvelope(plan, f.ask, 0, 0.0, plan.hardStop, d.shares.value)
  {
    SuggestionsAreBuys(plan, r, f, p);
    ProbeSizeFits(plan, EntryCapacity(plan, f));
    CapacityIsLargest(plan, f.ask, 0, 0.0, plan.hardStop, ProbeSize(plan, EntryCapacity(plan, f)));
  }

  lemma AddFitsEnvelope(plan: Plan, r: Runtime, f: Facts, p: Option<Position>)
    requires plan.Valid() && f.Valid() && Evaluate(plan, r, f, p).action == AllowAdd
    ensures var d := Evaluate(plan, r, f, p);
            p.Some? && d.shares.Some? && d.shares.value >= 1
            && EffectiveStop(plan, Synchronized(r, p), p.value) < f.bid
            && WithinEnvelope(plan, f.ask, p.value.shares, p.value.average,
                              EffectiveStop(plan, Synchronized(r, p), p.value), d.shares.value)
  {
    SuggestionsAreBuys(plan, r, f, p);
    var s, held := Synchronized(r, p), p.value;
    AddNeedsRoom(plan, s, f, held);
    var stop := EffectiveStop(plan, s, held);
    var capacity := Capacity(plan, f.ask, held.shares, held.average, stop);
    ProbeSizeFits(plan, capacity);
    CapacityIsLargest(plan, f.ask, held.shares, held.average, stop, ProbeSize(plan, capacity));
  }

  // ---- when each action is taken, over the fields ----

  /** Complete data, a quote of at most thirty seconds and a spread within the plan's. */
  predicate UsableQuote(plan: Plan, f: Facts)
    requires f.Valid()
  {
    f.complete && f.observed - f.quoteAt <= 30_000_000 && (f.ask - f.bid) / ((f.bid + f.ask) / 2.0) <= plan.maxSpread
  }

  predicate AtLeast(x: Option<real>, least: real) { x.Some? && x.value >= least }

  /** The market, the three timeframes, volume and strength, and the catalyst or the order flow its mode asks for. */
  predicate Confluence(plan: Plan, f: Facts) {
    !f.riskOff && f.benchmark && f.sector && f.vwap.Some? && f.vwap.value < f.last
    && f.fifteenMinute && f.fiveMinute && f.oneMinute && AtLeast(f.greenVolume, 1.5)
    && f.strength.Some? && f.strength.value > 0.0
    && (if plan.mode == Catalyst then AtLeast(f.catalyst, 0.70) else AtLeast(f.flow, 0.20))
  }

  lemma NoBlockers(plan: Plan, f: Facts)
    requires f.Valid()
    ensures QuoteBlockers(plan, f) == [] <==> UsableQuote(plan, f)
    ensures EntryBlockers(plan, f) == [] <==> Confluence(plan, f)
  {
    ThreeChecks(QuoteChecks(plan, f));
    TenChecks(EntryChecks(plan, f));
  }

  /** A soft revision is left and the last material decision is a cooldown ago. */
  predicate SoftReady(plan: Plan, r: Runtime, f: Facts) {
    r.soft < plan.maxSoft && (r.lastMaterial.Some? ==> f.observed - r.lastMaterial.value >= plan.cooldown)
  }

  /** A completed bar later than the last recorded one. */
  predicate LaterBar(r: Runtime, f: Facts) { f.bar.Some? && (r.lastBar.Some? ==> r.lastBar.value < f.bar.value) }

  /** The price is at or below one of the three stops. */
  predicate AtStop(plan: Plan, r: Runtime, p: Position, price: real) {
    price <= plan.hardStop || price <= r.stop || price <= p.stop
  }

  /** Below the session's mean price without the five-minute structure, and with selling order flow or none known. */
  predicate Weakens(f: Facts) {
    f.vwap.Some? && f.last < f.vwap.value && !f.fiveMinute && (f.flow.Some? ==> f.flow.value < -0.20)
  }

  /** Nothing is held and the runtime is neither closed nor about a position. */
  predicate EntryPhase(s: State) { s == Watching || s == Armed || s == EntryReady || s == Abandoned }

  /** An entry is looked at, in its window and on a usable quote. */
  predicate Considers(plan: Plan, r: Runtime, f: Facts, p: Option<Position>)
    requires f.Valid()
  {
    p.None? && EntryPhase(r.state) && UsableQuote(plan, f) && f.observed < plan.entryEnd
  }

  /** The confluence holds, and one share fits the envelope above the hard stop. */
  predicate Confirms(plan: Plan, f: Facts) {
    Confluence(plan, f) && plan.hardStop < f.ask <= plan.maxNotional && f.ask - plan.hardStop <= plan.maxRisk
  }

  lemma ConfirmsIff(plan: Plan, f: Facts)
    requires plan.Valid() && f.Valid()
    ensures Confirming(plan, f) <==> Confirms(plan, f)
  {
    NoBlockers(plan, f);
    CapacityIsLargest(plan, f.ask, 0, 0.0, plan.hardStop, 1);
  }

  /** An entry is signalled exactly on a later confirming bar after at least one earlier confirmation, with no entry
      signalled yet and a soft revision left and cooled down. */
  lemma EntersIff(plan: Plan, r: Runtime, f: Facts, p: Option<Position>)
    requires plan.Valid() && f.Valid()
    ensures Evaluate(plan, r, f, p).action == EnterProbe
            <==> Considers(plan, r, f, p) && r.state != EntryReady && Confirms(plan, f) && LaterBar(r, f)
                 && r.confirmations >= 1 && SoftReady(plan, r, f)
  {
    NoBlockers(plan, f);
    ConfirmsIff(plan, f);
    SuggestionsAreBuys(plan, r, f, p);
  }

  /** The entry is armed exactly on a first confirming bar, and abandoned exactly once, on a usable quote at or after the
      end of its window. */
  lemma ArmsIff(plan: Plan, r: Runtime, f: Facts, p: Option<Position>)
    requires plan.Valid() && f.Valid()
    ensures Evaluate(plan, r, f, p).action == ArmEntry
            <==> Considers(plan, r, f, p) && Confirms(plan, f) && LaterBar(r, f) && r.confirmations == 0
    ensures Evaluate(plan, r, f, p).action == Abandon
            <==> p.None? && EntryPhase(r.state) && r.state != Abandoned && UsableQuote(plan, f)
                 && f.observed >= plan.entryEnd
  {
    NoBlockers(plan, f);
    ConfirmsIff(plan, f);
    if p.Some? { AddNeedsRoom(plan, Synchronized(r, p), f, p.value); }
  }

  /** Confirmations count the later confirming bars since the last look that did not confirm. */
  lemma ConfirmationsCount(plan: Plan, r: Runtime, f: Facts, p: Option<Position>)
    requires plan.Valid() && f.Valid()
    ensures Evaluate(plan, r, f, p).runtime.confirmations
         == if !Considers(plan, r, f, p) then r.confirmations
            else if !Confirms(plan, f) then 0
            else if LaterBar(r, f) then r.confirmations + 1
            else r.confirmations
  {
    NoBlockers(plan, f);
    ConfirmsIff(plan, f);
    if p.Some? && AddBlockers(plan, Synchronized(r, p), f, p.value) == [] {
      AddWithinCapacity(plan, Synchronized(r, p), f, p.value);
    }
  }

  /** An add was signalled for these shares, and everything it needs still holds. */
  predicate SignalStands(plan: Plan, r: Runtime, f: Facts, p: Position) {
    r.lastAddShares.Some? && p.shares <= r.lastAddShares.value && RoomToAdd(plan, r, f, p)
  }

  /** The confluence with order flow, before the first target, and one more share within the envelope. */
  predicate RoomToAdd(plan: Plan, r: Runtime, f: Facts, p: Position) {
    Confluence(plan, f) && !f.firstTarget && AtLeast(f.flow, 0.20)
    && EffectiveStop(plan, r, p) < f.ask
    && WithinEnvelope(plan, f.ask, p.shares, p.average, EffectiveStop(plan, r, p), 1)
  }

  /** An action has its own state, and is material unless it only arms. */
  predicate StateFits(d: Decision) {
    (ActionState(d.action).Some? ==> d.runtime.state == ActionState(d.action).value)
    && (d.material ==> d.action != NoAction || d.runtime.state == Closed)
    && (d.action != NoAction && d.action != ArmEntry ==> d.material) && (d.action == ArmEntry ==> !d.material)
  }

  /** A held position's decision leaves its action's state, and one that is about a position. */
  lemma HeldStateFits(plan: Plan, r: Runtime, f: Facts, p: Position)
    requires plan.Valid() && f.Valid()
    ensures StateFits(WithPosition(plan, r, f, p)) && HoldsPosition(WithPosition(plan, r, f, p).runtime.state)
  {
    AddNeedsRoom(plan, r, f, p);
  }

  lemma FlatStateFits(plan: Plan, r: Runtime, f: Facts)
    requires plan.Valid() && f.Valid()
    ensures StateFits(WithoutPosition(plan, r, f))
  {
  }

  /** Without a position each decision leaves its action's state, too; a vanished position closes the plan for good, and a look without confluence disarms. */
  lemma FlatStateFollows(plan: Plan, r: Runtime, f: Facts)
    requires plan.Valid() && f.Valid()
    ensures var d := Evaluate(plan, r, f, None);
            StateFits(d) && (HoldsPosition(r.state) ==> d.runtime.state == Closed && d.material)
            && (r.state == Closed ==> d.runtime.state == Closed && !d.material)
            && (Considers(plan, r, f, None) && !Confirms(plan, f) ==> d.runtime.state == Watching)
  {
    FlatStateFits(plan, r, f);
    NoBlockers(plan, f);
    ConfirmsIff(plan, f);
  }

  /** The state an action leaves. */
  function ActionState(a: Action): Option<State> {
    match a
    case NoAction => None
    case ArmEntry => Some(Armed)
    case EnterProbe => Some(EntryReady)
    case AllowAdd => Some(AddAllowed)
    case Reduce => Some(ReduceRequired)
    case TightenStop => Some(Holding)
    case ExitNow => Some(ExitRequired)
    case Abandon => Some(Abandoned)
  }

  /** A position on which nothing is done is held, unless an add signalled for these shares still stands. */
  lemma HoldsOn(plan: Plan, r: Runtime, f: Facts, p: Position)
    requires plan.Valid() && f.Valid() && Evaluate(plan, r, f, Some(p)).action == NoAction && UsableQuote(plan, f)
    ensures Evaluate(plan, r, f, Some(p)).runtime.state
         == if r.state == AddAllowed && SignalStands(plan, r, f, p) then AddAllowed else Holding
  {
    NoBlockers(plan, f);
    NoAddBlockers(plan, Synchronized(r, Some(p)), f, p);
    AddNeedsRoom(plan, Synchronized(r, Some(p)), f, p);
  }

  lemma StopIsHighest(plan: Plan, r: Runtime, p: Position, price: real)
    ensures price <= EffectiveStop(plan, r, p) <==> AtStop(plan, r, p, price)
  {
  }

  /** A held position is to be sold exactly at the forced time, whatever the quote, or on a usable quote with a bid at or
      below any stop. The stop is raised exactly after a first target, to a proposal above every stop and below the bid;
      a reduction needs a usable quote above the stops and all three signs of weakness. */
  lemma SellsIff(plan: Plan, r: Runtime, f: Facts, p: Position)
    requires plan.Valid() && f.Valid()
    ensures var d := Evaluate(plan, r, f, Some(p));
            var usable := f.observed < plan.forceExit && UsableQuote(plan, f);
            (d.action == ExitNow <==> f.observed >= plan.forceExit || (usable && AtStop(plan, r, p, f.bid)))
            && (d.action == TightenStop <==>
                  usable && f.firstTarget && f.proposedStop.Some? && f.proposedStop.value < f.bid
                  && !AtStop(plan, r, p, f.proposedStop.value))
            && (d.action == TightenStop ==> d.runtime.stop == f.proposedStop.value)
            && (d.action == Reduce <==>
                  usable && !AtStop(plan, r, p, f.bid) && d.action != TightenStop && Weakens(f))
            && (d.blockers != [] ==> d.action == NoAction && !d.material)
  {
    NoBlockers(plan, f);
    StopIsHighest(plan, r, p, f.bid);
    if f.proposedStop.Some? { StopIsHighest(plan, r, p, f.proposedStop.value); }
    if AddBlockers(plan, Synchronized(r, Some(p)), f, p) == [] {
      AddWithinCapacity(plan, Synchronized(r, Some(p)), f, p);
    }
  }

  /** When an add is due: a held position above its stops before the forced time, on a usable quote, with nothing that
      tightens or reduces, the confluence with order flow, room for one more share, shares grown since the last signal,
      another completed bar, and a soft revision left and cooled down. */
  predicate AddDue(plan: Plan, r: Runtime, f: Facts, p: Position)
    requires f.Valid()
  {
    f.observed < plan.forceExit && UsableQuote(plan, f) && !AtStop(plan, r, p, f.bid) && !Weakens(f)
    && Confluence(plan, f) && !f.firstTarget && AtLeast(f.flow, 0.20)
    && WithinEnvelope(plan, f.ask, p.shares, p.average, EffectiveStop(plan, r, p), 1)
    && (r.lastAddShares.Some? ==> r.lastAddShares.value < p.shares)
    && f.bar.Some? && f.bar != r.lastBar && SoftReady(plan, r, f)
  }

  lemma AddsIff(plan: Plan, r: Runtime, f: Facts, p: Option<Position>)
    requires plan.Valid() && f.Valid()
    ensures Evaluate(plan, r, f, p).action == AllowAdd <==> p.Some? && AddDue(plan, r, f, p.value)
  {
    NoBlockers(plan, f);
    if p.Some? {
      StopIsHighest(plan, r, p.value, f.bid);
      NoAddBlockers(plan, Synchronized(r, p), f, p.value);
    }
  }

  lemma NoAddBlockers(plan: Plan, r: Runtime, f: Facts, p: Position)
    requires plan.Valid() && f.Valid()
    ensures var stop := EffectiveStop(plan, r, p);
            AddBlockers(plan, r, f, p) == []
            <==> Confluence(plan, f) && !f.firstTarget && AtLeast(f.flow, 0.20)
                 && stop < f.ask && WithinEnvelope(plan, f.ask, p.shares, p.average, stop, 1)
  {
    NoBlockers(plan, f);
    CapacityIsLargest(plan, f.ask, p.shares, p.average, EffectiveStop(plan, r, p), 1);
    if AddBlockers(plan, r, f, p) == [] { AddWithinCapacity(plan, r, f, p); }
  }

  // ---- why nothing is done ----

  /** What each blocker of a quote or an entry reports. */
  predicate Reports(plan: Plan, f: Facts, b: Blocker)
    requires f.Valid()
  {
    match b
    case DataIncomplete => !f.complete
    case QuoteStale => f.observed - f.quoteAt > 30_000_000
    case SpreadTooWide => (f.ask - f.bid) / ((f.bid + f.ask) / 2.0) > plan.maxSpread
    case MarketRiskOff => f.riskOff
    case BenchmarkBelowVwap => !f.benchmark
    case SectorBelowVwap => !f.sector
    case BelowSessionVwap => f.vwap.None? || f.last <= f.vwap.value
    case FifteenMinuteNotConfirmed => !f.fifteenMinute
    case FiveMinuteNotConfirmed => !f.fiveMinute
    case OneMinuteNotConfirmed => !f.oneMinute
    case GreenVolumeNotConfirmed => !AtLeast(f.greenVolume, 1.5)
    case RelativeStrengthNotConfirmed => f.strength.None? || f.strength.value <= 0.0
    case CatalystUnavailable => plan.mode == Catalyst && f.catalyst.None?
    case CatalystBelowThreshold => plan.mode == Catalyst && f.catalyst.Some? && f.catalyst.value < 0.70
    case OrderFlowUnavailable => plan.mode == Factor && f.flow.None?
    case OrderFlowBelowThreshold => plan.mode == Factor && f.flow.Some? && f.flow.value < 0.20
    case CapacityExhausted => !(plan.hardStop < f.ask <= plan.maxNotional && f.ask - plan.hardStop <= plan.maxRisk)
    case _ => false
  }

  predicate OfQuote(b: Blocker) { b == DataIncomplete || b == QuoteStale || b == SpreadTooWide }

  lemma {:induction false} InListed(checks: seq<(bool, Blocker)>, b: Blocker)
    ensures b in Listed(checks) <==> exists i :: 0 <= i < |checks| && checks[i].0 && checks[i].1 == b
  {
    if checks != [] {
      InListed(checks[1..], b);
      assert forall i :: 1 <= i < |checks| ==> checks[i] == checks[1..][i - 1];
      if b in Listed(checks[1..]) {
        var i :| 0 <= i < |checks[1..]| && checks[1..][i].0 && checks[1..][i].1 == b;
        assert checks[i + 1].0 && checks[i + 1].1 == b;
      }
    }
  }

  lemma InThree(c: seq<(bool, Blocker)>, b: Blocker)
    requires |c| == 3
    ensures b in Listed(c) <==> (c[0].0 && c[0].1 == b) || (c[1].0 && c[1].1 == b) || (c[2].0 && c[2].1 == b)
  {
    InListed(c, b);
  }

  lemma QuoteReport(plan: Plan, f: Facts, b: Blocker)
    requires f.Valid()
    ensures b in QuoteBlockers(plan, f) <==> OfQuote(b) && Reports(plan, f, b)
  {
    InThree(QuoteChecks(plan, f), b);
  }

  /** Where an entry check stands in its list; the mode's own stands last. */
  function Rank(b: Blocker): nat {
    match b
    case MarketRiskOff => 0
    case BenchmarkBelowVwap => 1
    case SectorBelowVwap => 2
    case BelowSessionVwap => 3
    case FifteenMinuteNotConfirmed => 4
    case FiveMinuteNotConfirmed => 5
    case OneMinuteNotConfirmed => 6
    case GreenVolumeNotConfirmed => 7
    case RelativeStrengthNotConfirmed => 8
    case CatalystUnavailable => 9
    case CatalystBelowThreshold => 9
    case OrderFlowUnavailable => 9
    case OrderFlowBelowThreshold => 9
    case _ => 10
  }

  lemma EntryRanks(plan: Plan, f: Facts, i: nat)
    requires i < 10
    ensures Rank(EntryChecks(plan, f)[i].1) == i
  {
  }

  lemma RankedReport(plan: Plan, f: Facts, b: Blocker)
    ensures b in EntryBlockers(plan, f)
       <==> Rank(b) < 10 && EntryChecks(plan, f)[Rank(b)].0 && EntryChecks(plan, f)[Rank(b)].1 == b
  {
    var c := EntryChecks(plan, f);
    InListed(c, b);
    if b in EntryBlockers(plan, f) {
      var i :| 0 <= i < |c| && c[i].0 && c[i].1 == b;
      EntryRanks(plan, f, i);
    }
  }

  lemma EntryReport(plan: Plan, f: Facts, b: Blocker)
    requires f.Valid() && b != CapacityExhausted
    ensures b in EntryBlockers(plan, f) <==> !OfQuote(b) && Reports(plan, f, b)
  {
    RankedReport(plan, f, b);
    if Rank(b) < 10 { EntryRanks(plan, f, Rank(b)); }
  }

  lemma RoomReport(plan: Plan, f: Facts)
    requires plan.Valid() && f.Valid()
    ensures EntryCapacity(plan, f) < 1 <==> Reports(plan, f, CapacityExhausted)
  {
    CapacityIsLargest(plan, f.ask, 0, 0.0, plan.hardStop, 1);
  }

  /** Without a position, an unusable quote is reported by exactly its faults, and a look that does not confirm by exactly
      the missing parts of the confluence and the lack of room. */
  lemma BlockersReport(plan: Plan, r: Runtime, f: Facts, b: Blocker)
    requires plan.Valid() && f.Valid() && EntryPhase(r.state)
    ensures var d := Evaluate(plan, r, f, None);
            (!UsableQuote(plan, f) ==> (b in d.blockers <==> OfQuote(b) && Reports(plan, f, b)))
            && (Considers(plan, r, f, None) && !Confirms(plan, f) ==>
                  (b in d.blockers <==> !OfQuote(b) && Reports(plan, f, b)))
  {
    NoBlockers(plan, f);
    ConfirmsIff(plan, f);
    QuoteReport(plan, f, b);
    RoomReport(plan, f);
    RankedReport(plan, f, CapacityExhausted);
    if b != CapacityExhausted { EntryReport(plan, f, b); }
    BlockedBy(plan, r, f);
  }

  lemma BlockedBy(plan: Plan, r: Runtime, f: Facts)
    requires plan.Valid() && f.Valid() && EntryPhase(r.state)
    ensures var d := Evaluate(plan, r, f, None);
            (QuoteBlockers(plan, f) != [] ==> d.blockers == QuoteBlockers(plan, f))
            && (QuoteBlockers(plan, f) == [] && f.observed < plan.entryEnd && !Confirming(plan, f) ==>
                  d.blockers == EntryBlockers(plan, f) + If(EntryCapacity(plan, f) < 1, CapacityExhausted))
  {
  }

  /** An entry suggests the plan's fraction of the largest count that fits the envelope, in whole shares and at least
      one. */
  lemma EntryShares(plan: Plan, r: Runtime, f: Facts, p: Option<Position>, most: nat, n: nat)
    requires plan.Valid() && f.Valid() && Evaluate(plan, r, f, p).action == EnterProbe
    requires WithinEnvelope(plan, f.ask, 0, 0.0, plan.hardStop, most)
    requires !WithinEnvelope(plan, f.ask, 0, 0.0, plan.hardStop, most + 1)
    ensures Evaluate(plan, r, f, p).shares.Some?
    ensures n <= Evaluate(plan, r, f, p).shares.value <==> n <= 1 || n as real <= most as real * plan.probeFraction
  {
    SuggestionsAreBuys(plan, r, f, p);
    EntersIff(plan, r, f, p);
    ConfirmsIff(plan, f);
    IsCapacity(plan, f.ask, 0, 0.0, plan.hardStop, most);
  }

  /** So does an add, of the count that fits beside what is held. */
  lemma AddShares(plan: Plan, r: Runtime, f: Facts, p: Position, most: nat, n: nat)
    requires plan.Valid() && f.Valid() && Evaluate(plan, r, f, Some(p)).action == AllowAdd
    requires WithinEnvelope(plan, f.ask, p.shares, p.average, EffectiveStop(plan, r, p), most)
    requires !WithinEnvelope(plan, f.ask, p.shares, p.average, EffectiveStop(plan, r, p), most + 1)
    ensures Evaluate(plan, r, f, Some(p)).shares.Some?
    ensures n <= Evaluate(plan, r, f, Some(p)).shares.value
            <==> n <= 1 || n as real <= most as real * plan.probeFraction
  {
    var stop := EffectiveStop(plan, r, p);
    SuggestionsAreBuys(plan, r, f, Some(p));
    AddNeedsRoom(plan, Synchronized(r, Some(p)), f, p);
    IsCapacity(plan, f.ask, p.shares, p.average, stop, most);
  }

  lemma IsCapacity(plan: Plan, ask: real, held: nat, average: real, stop: real, most: nat)
    requires plan.Valid() && ask > 0.0 && stop < ask && Capacity(plan, ask, held, average, stop) >= 1
    requires WithinEnvelope(plan, ask, held, average, stop, most)
    requires !WithinEnvelope(plan, ask, held, average, stop, most + 1)
    ensures Capacity(plan, ask, held, average, stop) == most
  {
    CapacityIsLargest(plan, ask, held, average, stop, most + 1);
    CapacityIsLargest(plan, ask, held, average, stop, 1);
    if most >= 1 { CapacityIsLargest(plan, ask, held, average, stop, most); }
  }

  /** An entry or an add has every part of the confluence: a fresh complete quote, the market, the three
      timeframes, volume and strength, and the order flow or catalyst its mode asks for; an add asks for both. */
  lemma BuysNeedConfluence(plan: Plan, r: Runtime, f: Facts, p: Option<Position>)
    requires plan.Valid() && f.Valid() && Evaluate(plan, r, f, p).shares.Some?
    ensures UsableQuote(plan, f) && Confluence(plan, f)
            && (plan.mode == Factor || p.Some? ==> AtLeast(f.flow, 0.20))
            && (p.Some? ==> !f.firstTarget && !AtStop(plan, r, p.value, f.bid) && f.observed < plan.forceExit)
            && (p.None? ==> f.observed < plan.entryEnd)
  {
    SuggestionsAreBuys(plan, r, f, p);
    AddsIff(plan, r, f, p);
    EntersIff(plan, r, f, p);
  }

  lemma ThreeChecks(c: seq<(bool, Blocker)>)
    requires |c| == 3
    ensures Listed(c) == [] <==> !c[0].0 && !c[1].0 && !c[2].0
  {
    NothingListed(c);
  }

  lemma TenChecks(c: seq<(bool, Blocker)>)
    requires |c| == 10
    ensures Listed(c) == [] <==> !c[0].0 && !c[1].0 && !c[2].0 && !c[3].0 && !c[4].0 && !c[5].0 && !c[6].0 && !c[7].0
                                 && !c[8].0 && !c[9].0
  {
    NothingListed(c);
  }
}
