/** Share arithmetic of the paper session (execution/autonomous_paper_session.py): target quantities within the risk
    and notional budgets, and the split of an entry into its tail and main components. */
module Allocation {
  datatype Budget = Budget(reference: real, hardStop: real, riskFraction: real, notionalFraction: real)
  {
    predicate Valid() {
      0.0 < hardStop < reference && 0.0 < riskFraction <= 0.0035 && 0.0 < notionalFraction <= 1.0
    }
  }

  /** Whole shares a budget pays for. */
  function Shares(budget: real, perShare: real): int
    requires perShare > 0.0
  {
    (budget / perShare).Floor
  }

  function FullQuantity(b: Budget, equity: real): int
    requires b.Valid()
  {
    Affordable(Share(equity, b.riskFraction), b.reference - b.hardStop, Share(equity, b.notionalFraction), b.reference)
  }

  function Share(amount: real, fraction: real): real { amount * fraction }

  function Cost(n: int, perShare: real): real { n as real * perShare }

  function Affordable(risk: real, riskPerShare: real, notional: real, price: real): int
    requires riskPerShare > 0.0 && price > 0.0
  {
    Least(Shares(risk, riskPerShare), Shares(notional, price))
  }

  function Least(a: int, b: int): int { if b < a then b else a }

  /** A fraction of a whole number of shares, rounded down. */
  function Part(full: int, fraction: real): int { (full as real * fraction).Floor }

  function TargetQuantity(b: Budget, equity: real, fraction: real): int
    requires b.Valid()
  {
    Part(FullQuantity(b, equity), fraction)
  }

  lemma TimesOrder(a: real, b: real, unit: real)
    requires a <= b && unit >= 0.0
    ensures a * unit <= b * unit && unit * a <= unit * b
  {
    assert (b - a) * unit >= 0.0;
  }

  /** A number of shares is within what a budget pays for exactly when it costs at most the budget. */
  lemma SharesFit(n: int, budget: real, perShare: real)
    requires perShare > 0.0
    ensures n <= Shares(budget, perShare) <==> n as real * perShare <= budget
  {
    var q := budget / perShare;
    assert q * perShare == budget;
    FloorFits(n, q, perShare);
  }

  lemma FloorFits(n: int, q: real, unit: real)
    requires unit > 0.0
    ensures n <= q.Floor <==> n as real * unit <= q * unit
  {
    if n as real <= q { TimesOrder(n as real, q, unit); } else { TimesStrict(q, n as real, unit); }
  }

  lemma TimesStrict(a: real, b: real, unit: real)
    requires a < b && unit > 0.0
    ensures a * unit < b * unit
  {
    assert (b - a) * unit > 0.0;
  }

  lemma PartBounds(full: int, fraction: real)
    requires full >= 0 && 0.0 <= fraction <= 1.0
    ensures 0 <= Part(full, fraction) <= full
  {
    TimesOrder(0.0, fraction, full as real);
    TimesOrder(fraction, 1.0, full as real);
    var product := full as real * fraction;
    assert 0.0 <= product <= full as real;
  }

  lemma PartGrows(full: int, a: real, b: real)
    requires full >= 0 && 0.0 <= a <= b
    ensures Part(full, a) <= Part(full, b)
  {
    TimesOrder(a, b, full as real);
  }

  /** The full quantity is the largest that, bought at the reference price, stays within the notional budget and,
      down to the hard stop, within the risk budget. */
  lemma FullIsLargest(b: Budget, equity: real, n: int)
    requires b.Valid() && equity > 0.0
    ensures n <= FullQuantity(b, equity)
            <==> Cost(n, b.reference - b.hardStop) <= Share(equity, b.riskFraction)
                 && Cost(n, b.reference) <= Share(equity, b.notionalFraction)
  {
    AffordableIsLargest(n, Share(equity, b.riskFraction), b.reference - b.hardStop, Share(equity, b.notionalFraction),
                        b.reference);
  }

  lemma SharePositive(amount: real, fraction: real)
    requires amount > 0.0 && fraction > 0.0
    ensures Share(amount, fraction) > 0.0
  {
  }

  lemma FullIsNonnegative(b: Budget, equity: real)
    requires b.Valid() && equity > 0.0
    ensures FullQuantity(b, equity) >= 0
  {
    FullIsLargest(b, equity, 0);
    SharePositive(equity, b.riskFraction);
    SharePositive(equity, b.notionalFraction);
    assert Cost(0, b.reference - b.hardStop) == 0.0 && Cost(0, b.reference) == 0.0;
  }

  lemma AffordableIsLargest(n: int, risk: real, riskPerShare: real, notional: real, price: real)
    requires riskPerShare > 0.0 && price > 0.0
    ensures n <= Affordable(risk, riskPerShare, notional, price)
            <==> Cost(n, riskPerShare) <= risk && Cost(n, price) <= notional
  {
    SharesFit(n, risk, riskPerShare);
    SharesFit(n, notional, price);
  }

  /** Bought at the reference price, a target quantity stays within the notional budget, and down to the hard stop
      within the risk budget. */
  lemma TargetWithinBudgets(b: Budget, equity: real, fraction: real)
    requires b.Valid() && equity > 0.0 && 0.0 <= fraction <= 1.0
    ensures 0 <= TargetQuantity(b, equity, fraction)
    ensures Cost(TargetQuantity(b, equity, fraction), b.reference - b.hardStop) <= Share(equity, b.riskFraction)
    ensures Cost(TargetQuantity(b, equity, fraction), b.reference) <= Share(equity, b.notionalFraction)
  {
    FullIsNonnegative(b, equity);
    PartBounds(FullQuantity(b, equity), fraction);
    FullIsLargest(b, equity, TargetQuantity(b, equity, fraction));
  }

  // ---- components ----

  /** Shares to buy for the tail and for the main component, going from the prior fraction to the target. */
  function Components(b: Budget, equity: real, prior: real, target: real, tail: real): (int, int)
    requires b.Valid()
  {
    var desired := TargetQuantity(b, equity, target);
    var tailTarget := Least(desired, TargetQuantity(b, equity, tail));
    var before := TargetQuantity(b, equity, prior);
    var tailBefore := Least(before, Part(TargetQuantity(b, equity, 1.0), tail));
    (tailTarget - tailBefore, (desired - tailTarget) - (before - tailBefore))
  }

  /** Both components are nonnegative and together they are exactly the target less the prior stage. */
  lemma ComponentsAreExact(b: Budget, equity: real, prior: real, target: real, tail: real)
    requires b.Valid() && equity > 0.0 && 0.0 <= prior <= target <= 1.0 && 0.0 <= tail <= 1.0
    ensures var (tailShares, mainShares) := Components(b, equity, prior, target, tail);
            tailShares >= 0 && mainShares >= 0
            && tailShares + mainShares == TargetQuantity(b, equity, target) - TargetQuantity(b, equity, prior)
  {
    FullIsNonnegative(b, equity);
    PartGrows(FullQuantity(b, equity), prior, target);
    assert TargetQuantity(b, equity, 1.0) == FullQuantity(b, equity);
  }

  /** The closing check compares the components with what is missing to the target: it fails exactly when the held
      shares are not the prior stage's. */
  lemma CheckFailsIff(b: Budget, equity: real, prior: real, target: real, tail: real, held: int)
    requires b.Valid() && equity > 0.0 && 0.0 <= prior <= target <= 1.0 && 0.0 <= tail <= 1.0
    ensures var (tailShares, mainShares) := Components(b, equity, prior, target, tail);
            tailShares + mainShares != TargetQuantity(b, equity, target) - held
            <==> held != TargetQuantity(b, equity, prior)
  {
    ComponentsAreExact(b, equity, prior, target, tail);
  }

  /** Probe and upgrade together arrive at the split of the half position: the tail's share of the full quantity, as
      far as the half reaches, and the rest in the main component. */
  lemma TwoStagesReachSplit(b: Budget, equity: real, tail: real)
    requires b.Valid() && equity > 0.0 && 0.0 <= tail <= 1.0
    ensures var (tailProbe, mainProbe) := Components(b, equity, 0.0, 0.25, tail);
            var (tailUpgrade, mainUpgrade) := Components(b, equity, 0.25, 0.50, tail);
            var half := TargetQuantity(b, equity, 0.50);
            tailProbe + tailUpgrade == Least(half, TargetQuantity(b, equity, tail))
            && mainProbe + mainUpgrade == half - Least(half, TargetQuantity(b, equity, tail))
  {
    FullIsNonnegative(b, equity);
    PartBounds(FullQuantity(b, equity), tail);
    assert TargetQuantity(b, equity, 1.0) == FullQuantity(b, equity);
    assert TargetQuantity(b, equity, 0.0) == 0;
  }
}
