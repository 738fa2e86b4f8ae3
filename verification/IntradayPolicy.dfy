/** The intraday position policy (kernel/intraday_policy.py) and the lifecycle evidence the paper session adds to
    it (execution/autonomous_paper_session.py). The clock is New York time in microseconds after midnight. */
module IntradayPolicy {
  import opened Texts

  const HOUR := 3_600_000_000
  const MINUTE := 60_000_000

  datatype Route = Catalyst | FactorOrderFlow
  datatype Action = Observe | EnterProbe | Hold | Upgrade | Exit | TrimToTail | ReduceTail
  datatype TailMode = Standard | HighRightTail | APlusPlus

  datatype Tail = Tail(mode: TailMode, initial: real, stage: nat, fifteenMinute: bool, belowVwapBars: nat,
                       flowBelowSeconds: nat, failedReclaim: bool, currentR: real, maxR: real, chandelier: bool,
                       hardBreakdown: bool)
  {
    predicate Valid() { 0.0 < initial <= 0.30 && stage <= 1 && currentR <= maxR }
  }

  datatype Snapshot = Snapshot(clock: int, route: Route, catalyst: Option<real>, factor: Option<real>,
                               flow: Option<real>, execution: Option<real>, rightTail: Option<real>, structure: bool,
                               newsClear: Option<bool>, materialNegative: bool, data: bool, agents: bool, push: bool,
                               position: real, average: Option<real>, last: Option<real>, approvedRisk: real,
                               profit: bool, aPlusPlus: bool, tail: Option<Tail>, firstTarget: Option<real>,
                               expected: Option<real>)
  {
    predicate Held() { position > 0.0 }

    predicate Valid() {
      0.0 <= position <= 1.0 && (average.Some? ==> average.value > 0.0) && (last.Some? ==> last.value > 0.0)
      && 0.0 < approvedRisk <= 0.0035 && (tail.Some? ==> tail.value.Valid())
    }
  }

  datatype Reason = AveragingDownForbidden | CatalystProbeNeutralUntil1000 | CatalystProbeUnconfirmedAt1000
                  | EntryConditionsNotMet | FactorProbeUnconfirmedAt0935 | FirstTargetBelow2r5
                  | IntradayForceExit1200 | MarketDataUnhealthy | NewEntriesCutoffReached
                  | OpeningConfirmationPassed | OpeningTransitionFrozen | OpeningTransitionHoldOnly
                  | PremarketEntryNotStarted | PushUnhealthyAddsDisabled | RequiredAgentUnhealthy
                  | RewardRiskUnavailable | EntryRoutePassed | TailActive | TailChandelierStop | TailFailedReclaim
                  | TailHardBreakdown | TailProfitGivebackLimit | TailSingleWarningTolerated | TailStarted
                  | TailTrendIntact | TailTwoSoftBreaksConfirmed | TakeProfit2Reached | VerifiedMaterialNegative
                  | ExpectedRewardBelow3r

  datatype Decision = Decision(action: Action, target: real, risk: real, reason: Reason)

  predicate AtLeast(x: Option<real>, least: real) { x.Some? && x.value >= least }

  function Exiting(reason: Reason): Decision { Decision(Exit, 0.0, 0.0, reason) }

  function Holding(s: Snapshot, reason: Reason): Decision { Decision(Hold, s.position, 0.0, reason) }

  function Watching(reason: Reason): Decision { Decision(Observe, 0.0, 0.0, reason) }

  // ---- a held position ----

  function Giveback(maxR: real): real {
    if maxR * 0.30 < 1.0 then 1.0 else if maxR * 0.30 > 2.0 then 2.0 else maxR * 0.30
  }

  function SoftBreaks(t: Tail): nat {
    (if !t.fifteenMinute then 1 else 0) + (if t.belowVwapBars >= 2 then 1 else 0)
    + if t.flowBelowSeconds >= 300 then 1 else 0
  }

  function OnTail(s: Snapshot, t: Tail): Decision {
    if t.hardBreakdown then Exiting(TailHardBreakdown)
    else if t.chandelier then Exiting(TailChandelierStop)
    else if t.stage == 1 && t.failedReclaim then Exiting(TailFailedReclaim)
    else if t.maxR - t.currentR > Giveback(t.maxR) then Exiting(TailProfitGivebackLimit)
    else if t.stage == 0 && SoftBreaks(t) >= 2 then
      Decision(ReduceTail, t.initial / 2.0, 0.0, TailTwoSoftBreaksConfirmed)
    else Holding(s, if SoftBreaks(t) == 1 then TailSingleWarningTolerated else TailTrendIntact)
  }

  function TailChoice(s: Snapshot): (TailMode, real) {
    if AtLeast(s.rightTail, 85.0) && s.aPlusPlus && AtLeast(s.catalyst, 95.0) && AtLeast(s.flow, 85.0)
       && AtLeast(s.execution, 85.0) then (APlusPlus, 0.30)
    else if AtLeast(s.rightTail, 70.0) then (HighRightTail, 0.25)
    else (Standard, 0.20)
  }

  function OnProfit(s: Snapshot): Decision {
    var fraction := TailChoice(s).1;
    if s.position > fraction then Decision(TrimToTail, fraction, 0.0, TailStarted) else Holding(s, TailActive)
  }

  predicate AllHealthy(s: Snapshot) {
    s.structure && !s.materialNegative && s.data && s.agents && s.push
  }

  predicate OpeningConfirmed(s: Snapshot) {
    s.clock >= 9 * HOUR + 31 * MINUTE && s.position == 0.25 && s.average.Some? && s.last.Some?
    && s.last.value >= s.average.value && s.route == Catalyst && AtLeast(s.catalyst, 75.0) && AtLeast(s.flow, 60.0)
    && AtLeast(s.execution, 70.0) && s.newsClear == Some(true) && AllHealthy(s)
  }

  predicate FactorFailed(s: Snapshot) {
    !AtLeast(s.factor, 65.0) || !AtLeast(s.flow, 75.0) || !AtLeast(s.execution, 75.0) || !s.structure
  }

  /** A held position on the ordinary path: no tail, no recorded profit, no forced exit. */
  function OnHeld(s: Snapshot): Decision {
    if 9 * HOUR + 25 * MINUTE <= s.clock < 9 * HOUR + 31 * MINUTE && AllHealthy(s) then
      Holding(s, OpeningTransitionHoldOnly)
    else if OpeningConfirmed(s) then Decision(Upgrade, 0.50, s.approvedRisk, OpeningConfirmationPassed)
    else if s.clock >= 10 * HOUR && s.position == 0.25 && s.route == Catalyst then
      Exiting(CatalystProbeUnconfirmedAt1000)
    else if s.clock >= 9 * HOUR + 31 * MINUTE && s.average.Some? && s.last.Some? && s.last.value < s.average.value
            && s.structure && !s.materialNegative then
      Holding(s, AveragingDownForbidden)
    else if 9 * HOUR + 35 * MINUTE <= s.clock < 10 * HOUR && s.position == 0.25 && s.route == Catalyst
            && AtLeast(s.catalyst, 75.0) && AtLeast(s.flow, 45.0) && !AtLeast(s.flow, 60.0)
            && s.newsClear == Some(true) && AllHealthy(s) then
      Decision(Hold, 0.25, 0.0015, CatalystProbeNeutralUntil1000)
    else if s.clock >= 9 * HOUR + 35 * MINUTE && s.position == 0.25 && s.route == FactorOrderFlow && FactorFailed(s) then
      Exiting(FactorProbeUnconfirmedAt0935)
    else Decision(Observe, s.position, 0.0, EntryConditionsNotMet)
  }

  // ---- no position ----

  predicate RoutePassed(s: Snapshot) {
    s.newsClear == Some(true) && AllHealthy(s)
    && match s.route
       case Catalyst => AtLeast(s.catalyst, 75.0) && AtLeast(s.flow, 60.0) && AtLeast(s.execution, 70.0)
       case FactorOrderFlow => AtLeast(s.factor, 65.0) && AtLeast(s.flow, 75.0) && AtLeast(s.execution, 75.0)
  }

  function OnFlat(s: Snapshot): Decision {
    if s.clock >= 12 * HOUR then Watching(NewEntriesCutoffReached)
    else if s.clock < 7 * HOUR then Watching(PremarketEntryNotStarted)
    else if 9 * HOUR + 25 * MINUTE <= s.clock < 9 * HOUR + 31 * MINUTE then Watching(OpeningTransitionFrozen)
    else if s.firstTarget.None? || s.expected.None? then Watching(RewardRiskUnavailable)
    else if s.firstTarget.value < 2.5 then Watching(FirstTargetBelow2r5)
    else if s.expected.value < 3.0 then Watching(ExpectedRewardBelow3r)
    else if RoutePassed(s) then
      Decision(EnterProbe, 0.25, if s.route == Catalyst then 0.0015 else 0.0010, EntryRoutePassed)
    else Watching(EntryConditionsNotMet)
  }

  function Evaluate(s: Snapshot): Decision {
    if !s.Held() then OnFlat(s)
    else if s.clock >= 12 * HOUR then Exiting(IntradayForceExit1200)
    else if s.materialNegative then Exiting(VerifiedMaterialNegative)
    else if !s.agents then Exiting(RequiredAgentUnhealthy)
    else if !s.data then Exiting(MarketDataUnhealthy)
    else if !s.push && s.structure then Holding(s, PushUnhealthyAddsDisabled)
    else if s.tail.Some? then OnTail(s, s.tail.value)
    else if s.profit then OnProfit(s)
    else OnHeld(s)
  }

  // ---- when a position is closed or a target rises ----

  /** A tail that ends the position: broken down, stopped out, failed at its reclaim, or gave back more than its
      allowance, which is three tenths of the best excursion held between one and two R. */
  predicate TailEnds(t: Tail) {
    t.hardBreakdown || t.chandelier || (t.stage == 1 && t.failedReclaim)
    || (t.maxR - t.currentR > 1.0 && t.maxR - t.currentR > 0.30 * t.maxR) || t.maxR - t.currentR > 2.0
  }

  /** A probe that was not confirmed in time: the catalyst's by 10:00, the factor's from 9:35 on unless its price
      is below the entry on an intact structure. */
  predicate ProbeLapses(s: Snapshot) {
    s.position == 0.25 && !UpgradeDue(s)
    && if s.route == Catalyst then s.clock >= 10 * HOUR
       else
         s.clock >= 9 * HOUR + 35 * MINUTE
         && !(AtLeast(s.factor, 65.0) && AtLeast(s.flow, 75.0) && AtLeast(s.execution, 75.0) && s.structure)
         && !(s.average.Some? && s.last.Some? && s.last.value < s.average.value && s.structure)
  }

  /** A held position that nothing closes or freezes ahead of its tail and its probe. */
  predicate Unforced(s: Snapshot) {
    s.Held() && s.clock < 12 * HOUR && !s.materialNegative && s.agents && s.data && (s.push || !s.structure)
  }

  /** A position is to be closed at noon, on bad news, without its agents or its data, and otherwise, unless a push
      outage on an intact structure freezes it, when its tail ends or its probe lapses. */
  predicate ExitDue(s: Snapshot) {
    s.Held()
    && (s.clock >= 12 * HOUR || s.materialNegative || !s.agents || !s.data
        || ((s.push || !s.structure)
            && if s.tail.Some? then TailEnds(s.tail.value) else !s.profit && ProbeLapses(s)))
  }

  /** And it is closed exactly then. */
  lemma ExitsIff(s: Snapshot)
    requires s.Valid()
    ensures Evaluate(s).action == Exit <==> ExitDue(s)
    ensures Evaluate(s).action == Exit ==> Evaluate(s).target == 0.0
  {
  }

  /** From nothing, between 7:00 and noon outside the opening freeze, with both rewards, cleared news, everything
      healthy and the scores its route asks for. */
  predicate ProbeDue(s: Snapshot) {
    s.position == 0.0 && 7 * HOUR <= s.clock < 12 * HOUR
    && !(9 * HOUR + 25 * MINUTE <= s.clock < 9 * HOUR + 31 * MINUTE)
    && AtLeast(s.firstTarget, 2.5) && AtLeast(s.expected, 3.0)
    && s.newsClear == Some(true) && !s.materialNegative && s.structure && s.data && s.agents && s.push
    && (s.route == Catalyst ==> AtLeast(s.catalyst, 75.0) && AtLeast(s.flow, 60.0) && AtLeast(s.execution, 70.0))
    && (s.route == FactorOrderFlow ==>
          AtLeast(s.factor, 65.0) && AtLeast(s.flow, 75.0) && AtLeast(s.execution, 75.0))
  }

  lemma ProbesIff(s: Snapshot)
    requires s.Valid()
    ensures Evaluate(s).action == EnterProbe <==> ProbeDue(s)
    ensures ProbeDue(s) ==> Evaluate(s).target == 0.25
    ensures ProbeDue(s) ==> Evaluate(s).risk == if s.route == Catalyst then 0.0015 else 0.0010
  {
  }

  /** A healthy catalyst quarter at or above its average entry, between 9:31 and noon, with its three scores and
      cleared news, before any profit is recorded. */
  predicate UpgradeDue(s: Snapshot) {
    s.position == 0.25 && s.route == Catalyst && 9 * HOUR + 31 * MINUTE <= s.clock < 12 * HOUR
    && s.tail.None? && !s.profit && s.average.Some? && s.last.Some? && s.last.value >= s.average.value
    && AtLeast(s.catalyst, 75.0) && AtLeast(s.flow, 60.0) && AtLeast(s.execution, 70.0)
    && s.newsClear == Some(true) && !s.materialNegative && s.structure && s.data && s.agents && s.push
  }

  lemma UpgradesIff(s: Snapshot)
    requires s.Valid()
    ensures Evaluate(s).action == Upgrade <==> UpgradeDue(s)
    ensures UpgradeDue(s) ==> Evaluate(s).target == 0.50 && Evaluate(s).risk == s.approvedRisk
  {
  }

  /** A first-stage tail that goes on with at least two of its three soft breaks. */
  predicate TailReduces(s: Snapshot) {
    Unforced(s) && s.tail.Some?
    && var t := s.tail.value;
       t.stage == 0 && !TailEnds(t)
       && ((!t.fifteenMinute && (t.belowVwapBars >= 2 || t.flowBelowSeconds >= 300))
           || (t.belowVwapBars >= 2 && t.flowBelowSeconds >= 300))
  }

  lemma ReducesIff(s: Snapshot)
    requires s.Valid()
    ensures Evaluate(s).action == ReduceTail <==> TailReduces(s)
    ensures TailReduces(s) ==> Evaluate(s).target == s.tail.value.initial / 2.0
  {
  }

  /** The scores of an exceptional plan: the right tail, the catalyst, the flow and the execution, and the owner's
      mark. */
  predicate Exceptional(s: Snapshot) {
    s.aPlusPlus && AtLeast(s.rightTail, 85.0) && AtLeast(s.catalyst, 95.0) && AtLeast(s.flow, 85.0)
    && AtLeast(s.execution, 85.0)
  }

  /** A fifth is always kept, a quarter with a strong right tail, and three tenths of an exceptional plan. */
  lemma TailIs(s: Snapshot)
    ensures var (mode, fraction) := TailChoice(s);
            (fraction == 0.30 <==> Exceptional(s)) && (fraction == 0.30 <==> mode == APlusPlus)
            && (fraction == 0.20 <==> !AtLeast(s.rightTail, 70.0)) && (fraction == 0.20 <==> mode == Standard)
            && (fraction == 0.25 <==> AtLeast(s.rightTail, 70.0) && !Exceptional(s))
  {
  }

  /** The position exceeds its tail: it is more than three tenths, or more than a quarter of a plan that is not
      exceptional, or more than a fifth without a strong right tail. */
  predicate ExceedsTail(s: Snapshot) {
    s.position > 0.30 || (s.position > 0.25 && !Exceptional(s)) || (s.position > 0.20 && !AtLeast(s.rightTail, 70.0))
  }

  /** A recorded profit on a position that still exceeds its tail, without tail evidence yet. */
  predicate TrimDue(s: Snapshot) { Unforced(s) && s.tail.None? && s.profit && ExceedsTail(s) }

  lemma TrimsIff(s: Snapshot)
    requires s.Valid()
    ensures Evaluate(s).action == TrimToTail <==> TrimDue(s)
    ensures TrimDue(s) ==>
              Evaluate(s).target == if Exceptional(s) then 0.30 else if AtLeast(s.rightTail, 70.0) then 0.25 else 0.20
  {
  }

  /** The target exceeds the position exactly when a probe or an upgrade is due, or when a tail is to be reduced whose
      position is already below half of the tail's initial fraction. */
  lemma RisesIff(s: Snapshot)
    requires s.Valid()
    ensures Evaluate(s).target > s.position
            <==> ProbeDue(s) || UpgradeDue(s) || (TailReduces(s) && s.position < s.tail.value.initial / 2.0)
  {
    ProbesIff(s);
    UpgradesIff(s);
    ReducesIff(s);
    RiseNeedsAction(s);
  }

  lemma RiseNeedsAction(s: Snapshot)
    requires s.Valid()
    ensures Evaluate(s).target > s.position ==>
              Evaluate(s).action == EnterProbe || Evaluate(s).action == Upgrade || Evaluate(s).action == ReduceTail
  {
  }

  /** A held position whose profit is recorded is raised exactly by reducing a tail it is already below half of. */
  lemma ProfitRisesIff(s: Snapshot)
    requires s.Valid() && s.Held() && s.profit
    ensures Evaluate(s).target > s.position
            <==> TailReduces(s) && s.position < s.tail.value.initial / 2.0
  {
    RisesIff(s);
  }

  /** Evidence a caller supplies itself can do that: a position at a twentieth is taken up to a tenth. */
  lemma SuppliedTailCanRaise()
    ensures exists s: Snapshot :: s.Valid() && s.Held() && s.profit && Evaluate(s).action == ReduceTail
                                  && Evaluate(s).target > s.position
  {
    var t := Tail(Standard, 0.20, 0, false, 2, 0, false, 1.0, 1.0, false, false);
    var s := Snapshot(11 * HOUR, Catalyst, None, None, None, None, None, true, None, false, true, true, true, 0.05,
                      Some(10.0), Some(11.0), 0.001, true, false, Some(t), None, None);
    assert TailReduces(s);
    ReducesIff(s);
  }

  // ---- the evidence the session adds ----

  /** What the session knows about a tail beside its prices. */
  datatype Signs = Signs(belowVwapBars: nat, failedReclaim: bool, chandelier: bool, breakdown: bool)

  /** The snapshot with the tail evidence of a recorded profit (_with_tail_evidence), and the advanced tail runtime.
      Nothing is added while a price is missing or the position still exceeds the tail; None when the risk per share
      is not positive or time moved back, which the code raises for. hardStop is the plan's. */
  function SessionEvidence(s: Snapshot, hardStop: real, prior: Option<TailRuntime>, at: int, signs: Signs)
    : Option<(Snapshot, Option<TailRuntime>)>
  {
    var (mode, initial) := TailChoice(s);
    if !s.profit || s.average.None? || s.last.None? || s.position > initial then Some((s, prior))
    else if s.average.value <= hardStop then None
    else
      var currentR := (s.last.value - s.average.value) / (s.average.value - hardStop);
      match Advanced(prior, Observation(at, currentR, s.flow))
      case None => None
      case Some(r) =>
        var stage := if s.position <= initial / 2.0 then 1 else 0;
        Some((s.(tail := Some(Tail(mode, initial, stage, s.structure, signs.belowVwapBars, r.seconds,
                                   signs.failedReclaim, currentR, r.maxR, signs.chandelier, signs.breakdown))),
              Some(r)))
  }

  /** Session evidence keeps the snapshot but for its tail, and marks a tail reduced once the position is at half of it. */
  lemma EvidenceShape(s: Snapshot, hardStop: real, prior: Option<TailRuntime>, at: int, signs: Signs)
    requires s.Valid() && s.tail.None? && SessionEvidence(s, hardStop, prior, at, signs).Some?
    ensures var e := SessionEvidence(s, hardStop, prior, at, signs).value.0;
            e.Valid() && e == s.(tail := e.tail) && (e.tail.Some? ==> s.profit)
            && (e.tail.Some? && e.tail.value.stage == 0 ==> e.position > e.tail.value.initial / 2.0)
  {
  }

  /** The gain in units of the risk down to the hard stop. */
  predicate GainsR(s: Snapshot, hardStop: real, currentR: real) {
    s.average.Some? && s.last.Some? && currentR * (s.average.value - hardStop) == s.last.value - s.average.value
  }

  predicate Gathered(s: Snapshot, signs: Signs, t: Tail, r: TailRuntime) {
    (t.mode, t.initial) == TailChoice(s) && t.stage == (if 2.0 * s.position <= t.initial then 1 else 0)
    && t.fifteenMinute == s.structure && t.belowVwapBars == signs.belowVwapBars
    && t.failedReclaim == signs.failedReclaim && t.chandelier == signs.chandelier && t.hardBreakdown == signs.breakdown
    && t.maxR == r.maxR && t.flowBelowSeconds == r.seconds
  }

  lemma InUnits(gain: real, unit: real)
    requires unit > 0.0
    ensures gain / unit * unit == gain
  {
  }

  /** The session adds evidence exactly to a recorded profit with both prices whose position does not exceed its tail, and
      raises there exactly when the risk to the hard stop is not positive or time moved back. */
  lemma EvidenceIff(s: Snapshot, hardStop: real, prior: Option<TailRuntime>, at: int, signs: Signs)
    requires s.tail.None?
    ensures var e := SessionEvidence(s, hardStop, prior, at, signs);
            if !s.profit || s.average.None? || s.last.None? || ExceedsTail(s) then e == Some((s, prior))
            else if s.average.value <= hardStop || (prior.Some? && at < prior.value.at) then e.None?
            else e.Some? && e.value.0.tail.Some? && e.value.1.Some?
  {
    TailIs(s);
  }

  /** The evidence is the gain in units of risk, the advanced runtime's best gain and seconds, and the signs; a tail counts
      as reduced at half of its fraction. */
  lemma EvidenceGathers(s: Snapshot, hardStop: real, prior: Option<TailRuntime>, at: int, signs: Signs)
    requires s.tail.None? && SessionEvidence(s, hardStop, prior, at, signs).Some?
    requires SessionEvidence(s, hardStop, prior, at, signs).value.0.tail.Some?
    ensures var (e, r) := SessionEvidence(s, hardStop, prior, at, signs).value;
            r.Some? && Gathered(s, signs, e.tail.value, r.value) && GainsR(s, hardStop, e.tail.value.currentR)
            && Advanced(prior, Observation(at, e.tail.value.currentR, s.flow)) == r
  {
    if s.average.Some? && s.last.Some? && s.average.value > hardStop {
      InUnits(s.last.value - s.average.value, s.average.value - hardStop);
    }
  }

  /** With evidence built by the session, the target rises exactly on a due probe and a due upgrade; so a held position
      is never raised once its main profit is recorded. */
  lemma SessionRisesIff(s: Snapshot, hardStop: real, prior: Option<TailRuntime>, at: int, signs: Signs)
    requires s.Valid() && s.tail.None? && SessionEvidence(s, hardStop, prior, at, signs).Some?
    ensures var e := SessionEvidence(s, hardStop, prior, at, signs).value.0;
            e.Valid() && (Evaluate(e).target > s.position <==> ProbeDue(s) || UpgradeDue(s))
            && (s.Held() && s.profit ==> Evaluate(e).target <= s.position)
  {
    EvidenceShape(s, hardStop, prior, at, signs);
    RisesIff(SessionEvidence(s, hardStop, prior, at, signs).value.0);
  }

  // ---- runs in which fills follow decisions ----

  /** What a session carries from tick to tick: the held fraction, the profit mark and the tail runtime. */
  datatype Carried = Carried(fraction: real, marked: bool, runtime: Option<TailRuntime>)

  const FLAT := Carried(0.0, false, None)

  /** One tick: the policy snapshot without position and tail, whether the ledger finds the main profit taken, and
      the tail's signs. */
  datatype Turn = Turn(s: Snapshot, marks: bool, hardStop: real, at: int, signs: Signs)

  predicate ValidTurn(t: Turn) { t.s.Valid() && t.s.tail.None? }

  function Marked(c: Carried, t: Turn): bool { c.marked || (c.fraction > 0.0 && t.marks) }

  /** The snapshot as the session completes it: the held fraction, and the profit a ledger mark stands for. */
  function Seen(c: Carried, t: Turn): Snapshot {
    t.s.(position := c.fraction, profit := t.s.profit || (c.fraction > 0.0 && Marked(c, t)))
  }

  /** Fills follow the decision; a tick that raises decides nothing. */
  function Turned(c: Carried, t: Turn): Carried {
    var evidence := if c.fraction > 0.0 then SessionEvidence(Seen(c, t), t.hardStop, c.runtime, t.at, t.signs)
                    else Some((Seen(c, t), c.runtime));
    match evidence
    case None => c.(marked := Marked(c, t))
    case Some((e, r)) => Carried(Evaluate(e).target, Marked(c, t), r)
  }

  function RunOf(turns: seq<Turn>): Carried
    decreases |turns|
  {
    if turns == [] then FLAT else Turned(RunOf(turns[..|turns| - 1]), turns[|turns| - 1])
  }

  /** One tick raises the fraction exactly on a due probe or a due upgrade, that is from nothing to a quarter, or from
      a quarter to a half at or above the average entry with no profit marked or reported. */
  lemma TurnRisesIff(c: Carried, t: Turn)
    requires ValidTurn(t) && 0.0 <= c.fraction <= 1.0
    requires c.fraction == 0.0 || SessionEvidence(Seen(c, t), t.hardStop, c.runtime, t.at, t.signs).Some?
    ensures Turned(c, t).fraction > c.fraction <==> ProbeDue(Seen(c, t)) || UpgradeDue(Seen(c, t))
    ensures ProbeDue(Seen(c, t)) ==> c.fraction == 0.0 && Turned(c, t).fraction == 0.25
    ensures UpgradeDue(Seen(c, t)) ==> c.fraction == 0.25 && Turned(c, t).fraction == 0.50 && !Turned(c, t).marked
  {
    var s := Seen(c, t);
    ProbesIff(s);
    UpgradesIff(s);
    if c.fraction > 0.0 {
      SessionRisesIff(s, t.hardStop, c.runtime, t.at, t.signs);
      EvidenceShape(s, t.hardStop, c.runtime, t.at, t.signs);
    } else {
      RisesIff(s);
    }
  }

  lemma TargetInUnit(s: Snapshot)
    requires s.Valid()
    ensures 0.0 <= Evaluate(s).target <= 1.0
  {
  }

  lemma {:induction false} FractionInUnit(turns: seq<Turn>)
    requires forall i :: 0 <= i < |turns| ==> ValidTurn(turns[i])
    ensures 0.0 <= RunOf(turns).fraction <= 1.0
    decreases |turns|
  {
    if turns != [] {
      var c, t := RunOf(turns[..|turns| - 1]), turns[|turns| - 1];
      FractionInUnit(turns[..|turns| - 1]);
      var s := Seen(c, t);
      TargetInUnit(s);
      if c.fraction > 0.0 && SessionEvidence(s, t.hardStop, c.runtime, t.at, t.signs).Some? {
        EvidenceShape(s, t.hardStop, c.runtime, t.at, t.signs);
        TargetInUnit(SessionEvidence(s, t.hardStop, c.runtime, t.at, t.signs).value.0);
      }
    }
  }

  /** Over a whole run, its profit and tail phases included, the fraction rises only from nothing to a quarter on a due
      probe and from a quarter to a half on a due upgrade, the latter only while no profit is marked. */
  lemma FractionLadder(turns: seq<Turn>, k: nat)
    requires k < |turns| && forall i :: 0 <= i < |turns| ==> ValidTurn(turns[i])
    requires RunOf(turns[..k + 1]).fraction > RunOf(turns[..k]).fraction
    ensures var c, d := RunOf(turns[..k]), RunOf(turns[..k + 1]);
            (c.fraction == 0.0 && d.fraction == 0.25 && ProbeDue(Seen(c, turns[k])))
            || (c.fraction == 0.25 && d.fraction == 0.50 && !d.marked && UpgradeDue(Seen(c, turns[k])))
  {
    assert turns[..k + 1][..k] == turns[..k];
    FractionInUnit(turns[..k]);
    TurnRisesIff(RunOf(turns[..k]), turns[k]);
  }

  /** A profit mark stays, and from it on a position that is not closed only shrinks. */
  lemma {:induction false} MarkedOnlyShrinks(turns: seq<Turn>, i: nat, k: nat)
    requires i <= k <= |turns| && forall j :: 0 <= j < |turns| ==> ValidTurn(turns[j])
    requires RunOf(turns[..i]).marked && forall j :: i <= j < k ==> RunOf(turns[..j]).fraction > 0.0
    ensures RunOf(turns[..k]).marked && RunOf(turns[..k]).fraction <= RunOf(turns[..i]).fraction
    decreases k
  {
    if i < k {
      MarkedOnlyShrinks(turns, i, k - 1);
      ShrinksOnce(turns, k - 1);
    }
  }

  lemma ShrinksOnce(turns: seq<Turn>, k: nat)
    requires k < |turns| && forall j :: 0 <= j < |turns| ==> ValidTurn(turns[j])
    requires RunOf(turns[..k]).marked && RunOf(turns[..k]).fraction > 0.0
    ensures RunOf(turns[..k + 1]).marked && RunOf(turns[..k + 1]).fraction <= RunOf(turns[..k]).fraction
  {
    assert turns[..k + 1][..k] == turns[..k] && turns[..k + 1][k] == turns[k];
    FractionInUnit(turns[..k]);
    MarkedStep(RunOf(turns[..k]), turns[k]);
  }

  lemma MarkedStep(c: Carried, t: Turn)
    requires ValidTurn(t) && c.marked && 0.0 < c.fraction <= 1.0
    ensures Turned(c, t).marked && Turned(c, t).fraction <= c.fraction
  {
    if SessionEvidence(Seen(c, t), t.hardStop, c.runtime, t.at, t.signs).Some? { TurnRisesIff(c, t); }
  }

  // ---- the tail runtime ----

  /** Best excursion, whole seconds the flow score has been below 45, and the last observation. */
  datatype TailRuntime = TailRuntime(maxR: real, seconds: nat, at: int, below: bool)

  datatype Observation = Observation(at: int, currentR: real, flow: Option<real>)
  {
    predicate Below() { flow.Some? && flow.value < 45.0 }
  }

  const SECOND := 1_000_000

  function Gap(from: int, to: int): int { (to - from) / SECOND }

  /** The runtime after an observation; none when time moved backwards. */
  function Advanced(r: Option<TailRuntime>, o: Observation): Option<TailRuntime> {
    match r
    case None => Some(TailRuntime(o.currentR, 0, o.at, o.Below()))
    case Some(p) =>
      if o.at < p.at then None
      else
        var gap := Gap(p.at, o.at);
        Some(TailRuntime(if o.currentR > p.maxR then o.currentR else p.maxR,
                         if o.Below() && p.below && gap <= 30 then p.seconds + gap else 0, o.at, o.Below()))
  }

  /** The stored runtime after a list of observations; a refused one leaves it. */
  function After(os: seq<Observation>): Option<TailRuntime> {
    if os == [] then None
    else
      var before := After(os[..|os| - 1]);
      var next := Advanced(before, os[|os| - 1]);
      if next.None? then before else next
  }

  predicate Accepted(os: seq<Observation>) { forall i, j :: 0 <= i < j < |os| ==> os[i].at <= os[j].at }

  /** From observation j to the last one the flow stayed below 45 with no gap of more than thirty whole seconds. */
  predicate Unbroken(os: seq<Observation>, j: nat) {
    j < |os| && (forall i :: j <= i < |os| ==> os[i].Below())
    && forall i :: j <= i < |os| - 1 ==> Gap(os[i].at, os[i + 1].at) <= 30
  }

  lemma UnbrokenExtends(os: seq<Observation>, j: nat)
    requires |os| >= 2 && Unbroken(os[..|os| - 1], j) && os[|os| - 1].Below()
    requires Gap(os[|os| - 2].at, os[|os| - 1].at) <= 30
    ensures Unbroken(os, j)
  {
    var before := os[..|os| - 1];
    forall i | j <= i < |os| ensures os[i].Below() {
      if i < |before| { assert before[i].Below(); }
    }
    forall i | j <= i < |os| - 1 ensures Gap(os[i].at, os[i + 1].at) <= 30 {
      if i < |before| - 1 { assert Gap(before[i].at, before[i + 1].at) <= 30; }
    }
  }

  /** Observations in time order are all accepted, and the stored time and flag are the last observation's. */
  lemma {:induction false} LastIsStored(os: seq<Observation>)
    requires os != [] && Accepted(os)
    ensures After(os).Some? && After(os).value.at == os[|os| - 1].at && After(os).value.below == os[|os| - 1].Below()
  {
    if |os| > 1 { LastIsStored(os[..|os| - 1]); }
  }

  /** The run of observations below 45 without a gap begins here. */
  predicate Begins(os: seq<Observation>, j: nat)
    requires j < |os|
  {
    j == 0 || !os[j - 1].Below() || Gap(os[j - 1].at, os[j].at) > 30
  }

  /** The counted seconds are the time since the current unbroken run below 45 began, less under a second for each
      observation in it. */
  lemma {:induction false} SecondsAreWitnessed(os: seq<Observation>) returns (j: nat)
    requires os != [] && Accepted(os)
    ensures After(os).Some?
    ensures After(os).value.below ==>
              Unbroken(os, j) && Begins(os, j) && After(os).value.seconds <= Gap(os[j].at, os[|os| - 1].at)
              && os[|os| - 1].at - os[j].at < (After(os).value.seconds + |os| - j) * SECOND
    ensures !After(os).value.below ==> After(os).value.seconds == 0
  {
    var n := |os| - 1;
    LastIsStored(os);
    if n == 0 {
      j := 0;
      assert After(os[..0]) == None;
    } else {
      var before := os[..n];
      LastIsStored(before);
      j := SecondsAreWitnessed(before);
      if os[n].Below() && os[n - 1].Below() && Gap(os[n - 1].at, os[n].at) <= 30 {
        UnbrokenExtends(os, j);
      } else {
        j := n;
      }
    }
  }

  /** The best excursion is the largest R observed, so it is never below the current one. */
  lemma {:induction false} ExcursionIsMaximum(os: seq<Observation>) returns (i: nat)
    requires os != [] && Accepted(os)
    ensures After(os).Some? && i < |os| && os[i].currentR == After(os).value.maxR
    ensures forall k :: 0 <= k < |os| ==> os[k].currentR <= After(os).value.maxR
  {
    var n := |os| - 1;
    LastIsStored(os);
    if n == 0 {
      i := 0;
      assert After(os[..0]) == None;
    } else {
      var before := os[..n];
      LastIsStored(before);
      i := ExcursionIsMaximum(before);
      assert forall k :: 0 <= k < n ==> os[k] == before[k];
      if os[n].currentR > After(before).value.maxR { i := n; }
    }
  }

  /** The flow counts as a soft break only after at least five minutes below 45 without a gap. */
  lemma FlowBreakMeansFiveMinutes(os: seq<Observation>) returns (j: nat)
    requires os != [] && Accepted(os) && After(os).Some? && After(os).value.seconds >= 300
    ensures Unbroken(os, j) && os[|os| - 1].at - os[j].at >= 300 * SECOND
  {
    j := SecondsAreWitnessed(os);
  }

  // ---- the risk a decision admits ----

  /** A healthy catalyst quarter between 9:35 and 10:00, not below its average entry, whose flow is neutral. */
  predicate NeutralProbe(s: Snapshot) {
    s.position == 0.25 && s.route == Catalyst && 9 * HOUR + 35 * MINUTE <= s.clock < 10 * HOUR
    && s.tail.None? && !s.profit && !(s.average.Some? && s.last.Some? && s.last.value < s.average.value)
    && AtLeast(s.catalyst, 75.0) && AtLeast(s.flow, 45.0) && !AtLeast(s.flow, 60.0)
    && s.newsClear == Some(true) && !s.materialNegative && s.structure && s.data && s.agents && s.push
  }

  /** A decision admits risk exactly for a probe, by its route, for an upgrade, what was approved, and for a neutral probe
      that is kept, the probe's. */
  lemma RiskIs(s: Snapshot)
    requires s.Valid()
    ensures Evaluate(s).risk
         == if ProbeDue(s) then if s.route == Catalyst then 0.0015 else 0.0010
            else if UpgradeDue(s) then s.approvedRisk
            else if NeutralProbe(s) then 0.0015
            else 0.0
  {
  }
}
