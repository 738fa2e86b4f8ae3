/** What the startup report says about positions and orders (execution/recovery.py), in terms of the rows compared. */
module RecoveryReport {
  import opened Texts
  import opened OrderState
  import opened OrderLedger
  import opened Reconcile
  import opened Recovery

  /** A filled order of one of today's plans, in this symbol. */
  predicate Fills(o: Lifecycle, plans: set<Name>, symbol: Name) {
    o.symbol == symbol && o.planId in plans && o.filled > 0
  }

  predicate NoneFills(docs: seq<Lifecycle>, plans: set<Name>, symbol: Name) {
    forall i :: 0 <= i < |docs| ==> !Fills(docs[i], plans, symbol)
  }

  /** A position that cannot be compared: not long, unreadable, or not positive. */
  predicate Broken(p: Position) { !p.long || p.qty.None? || p.qty.value <= 0.0 }

  predicate Elsewhere(positions: seq<Position>, symbol: Name) {
    forall i :: 0 <= i < |positions| ==> positions[i].symbol != symbol
  }

  // ---- the pass ----

  /** One order ends the pass exactly when it is open, known to the broker, and its reconciliation raises anything but a
      reconciliation error, which only leaves it unresolved. */
  lemma PassEndsIff(t: Tally, local: Lifecycle, find: map<Name, BrokerOrder>, at: int)
    requires t.fault.None?
    ensures var t' := Counted(t, local, find, at);
            (t'.fault.Some?
             <==> local.state != Cancelled && local.state != Rejected && local.id in find
                  && var r := AfterReconcile(t.book, local, find[local.id], at).1;
                     r.Raised? && r.fault != ReconciliationFault)
            && (t'.fault.Some? ==> t'.fault.value == AfterReconcile(t.book, local, find[local.id], at).1.fault)
  {
  }

  // ---- the sums split at any place ----

  lemma {:induction false} ManagedSplits(xs: seq<Lifecycle>, ys: seq<Lifecycle>, plans: set<Name>, symbol: Name)
    ensures ManagedQty(xs + ys, plans, symbol) == ManagedQty(xs, plans, symbol) + ManagedQty(ys, plans, symbol)
    decreases |ys|
  {
    if ys == [] {
      assert xs + ys == xs;
    } else {
      assert (xs + ys)[..|xs + ys| - 1] == xs + ys[..|ys| - 1];
      ManagedSplits(xs, ys[..|ys| - 1], plans, symbol);
    }
  }

  lemma {:induction false} HeldSplits(xs: seq<Position>, ys: seq<Position>, symbol: Name)
    ensures BrokerQty(xs + ys, symbol) == BrokerQty(xs, symbol) + BrokerQty(ys, symbol)
    decreases |ys|
  {
    if ys == [] {
      assert xs + ys == xs;
    } else {
      assert (xs + ys)[..|xs + ys| - 1] == xs + ys[..|ys| - 1];
      HeldSplits(xs, ys[..|ys| - 1], symbol);
    }
  }

  lemma ManagedAround(xs: seq<Lifecycle>, o: Lifecycle, ys: seq<Lifecycle>, plans: set<Name>, symbol: Name)
    ensures ManagedQty(xs + [o] + ys, plans, symbol)
         == ManagedQty(xs, plans, symbol) + (if Fills(o, plans, symbol) then o.filled else 0) + ManagedQty(ys, plans, symbol)
  {
    ManagedSplits(xs + [o], ys, plans, symbol);
    ManagedSplits(xs, [o], plans, symbol);
    assert [o][..0] == [];
  }

  lemma HeldAround(xs: seq<Position>, p: Position, ys: seq<Position>, symbol: Name)
    ensures BrokerQty(xs + [p] + ys, symbol)
         == BrokerQty(xs, symbol) + (if p.symbol == symbol && !Broken(p) then p.qty.value else 0.0) + BrokerQty(ys, symbol)
  {
    HeldSplits(xs + [p], ys, symbol);
    HeldSplits(xs, [p], symbol);
    assert [p][..0] == [];
  }

  lemma {:induction false} NothingManaged(docs: seq<Lifecycle>, plans: set<Name>, symbol: Name)
    requires NoneFills(docs, plans, symbol)
    ensures ManagedQty(docs, plans, symbol) == 0
    decreases |docs|
  {
    if docs != [] { NothingManaged(docs[..|docs| - 1], plans, symbol); }
  }

  lemma {:induction false} NothingHeld(positions: seq<Position>, symbol: Name)
    requires Elsewhere(positions, symbol)
    ensures BrokerQty(positions, symbol) == 0.0
    decreases |positions|
  {
    if positions != [] { NothingHeld(positions[..|positions| - 1], symbol); }
  }

  lemma ManagedIff(docs: seq<Lifecycle>, plans: set<Name>, symbol: Name)
    ensures symbol in ManagedSymbols(docs, plans) <==> !NoneFills(docs, plans, symbol)
  {
    if !NoneFills(docs, plans, symbol) {
      var i :| 0 <= i < |docs| && Fills(docs[i], plans, symbol);
      assert docs[i] in docs && Managed(docs[i], plans);
    }
  }

  lemma HeldIff(positions: seq<Position>, symbol: Name)
    ensures symbol in Symbols(positions) <==> !Elsewhere(positions, symbol)
  {
    if !Elsewhere(positions, symbol) {
      var i :| 0 <= i < |positions| && positions[i].symbol == symbol;
      assert positions[i] in positions;
    }
  }

  // ---- the report ----

  /** The positions' symbols are the broker's, and a symbol is unmatched exactly when it is held and none of today's plans
      has a filled order in it. */
  lemma UnmatchedIff(t: Tally, docs: seq<Lifecycle>, plans: set<Name>, positions: seq<Position>, symbol: Name)
    ensures var r := ReportOf(t, docs, plans, positions);
            (symbol in r.symbols <==> !Elsewhere(positions, symbol))
            && (symbol in r.unmatched <==> !Elsewhere(positions, symbol) && NoneFills(docs, plans, symbol))
            && (symbol in r.mismatched ==> symbol in r.symbols)
  {
    ManagedIff(docs, plans, symbol);
    HeldIff(positions, symbol);
  }

  /** A symbol without a filled order of today's plans is mismatched exactly when one of its positions is broken. */
  lemma UnmanagedMismatchIff(t: Tally, docs: seq<Lifecycle>, plans: set<Name>, positions: seq<Position>, symbol: Name)
    requires NoneFills(docs, plans, symbol)
    ensures symbol in ReportOf(t, docs, plans, positions).mismatched
       <==> exists i :: 0 <= i < |positions| && positions[i].symbol == symbol && Broken(positions[i])
  {
    ManagedIff(docs, plans, symbol);
    HeldIff(positions, symbol);
    BrokenMismatches(t, docs, plans, positions, symbol);
  }

  /** A broken position makes its symbol mismatched, whatever the ledger filled. */
  lemma BrokenMismatches(t: Tally, docs: seq<Lifecycle>, plans: set<Name>, positions: seq<Position>, symbol: Name)
    ensures (exists i :: 0 <= i < |positions| && positions[i].symbol == symbol && Broken(positions[i])) ==>
              symbol in ReportOf(t, docs, plans, positions).mismatched
  {
    HeldIff(positions, symbol);
    if i :| 0 <= i < |positions| && positions[i].symbol == symbol && Broken(positions[i]) {
      assert positions[i] in positions && !Sound(positions[i]);
    }
  }

  /** One filled order and one sound position of a symbol, among any others of other symbols: mismatched exactly when
      their quantities differ. */
  lemma QuantityMismatchIff(t: Tally, docs: seq<Lifecycle>, plans: set<Name>, positions: seq<Position>, symbol: Name,
                            xs: seq<Lifecycle>, o: Lifecycle, ys: seq<Lifecycle>,
                            us: seq<Position>, p: Position, vs: seq<Position>)
    requires docs == xs + [o] + ys && Fills(o, plans, symbol)
    requires NoneFills(xs, plans, symbol) && NoneFills(ys, plans, symbol)
    requires positions == us + [p] + vs && p.symbol == symbol && !Broken(p)
    requires Elsewhere(us, symbol) && Elsewhere(vs, symbol)
    ensures symbol in ReportOf(t, docs, plans, positions).mismatched <==> p.qty.value != o.filled as real
  {
    ManagedAround(xs, o, ys, plans, symbol);
    NothingManaged(xs, plans, symbol);
    NothingManaged(ys, plans, symbol);
    HeldAround(us, p, vs, symbol);
    NothingHeld(us, symbol);
    NothingHeld(vs, symbol);
    assert docs[|xs|] == o && positions[|us|] == p;
    ManagedIff(docs, plans, symbol);
    HeldIff(positions, symbol);
    assert p in positions && Sound(p);
    assert forall q :: q in us || q in vs ==> q.symbol != symbol;
    assert forall q :: q in positions ==> q in us || q == p || q in vs;
  }

  /** The report depends on the orders only through which symbols they fill and how much of each. */
  lemma SameFillsSameReport(t: Tally, docs: seq<Lifecycle>, docs': seq<Lifecycle>, plans: set<Name>,
                            positions: seq<Position>)
    requires forall s :: NoneFills(docs, plans, s) == NoneFills(docs', plans, s)
                         && ManagedQty(docs, plans, s) == ManagedQty(docs', plans, s)
    ensures ReportOf(t, docs, plans, positions) == ReportOf(t, docs', plans, positions)
  {
    forall s ensures s in ManagedSymbols(docs, plans) <==> s in ManagedSymbols(docs', plans) {
      ManagedIff(docs, plans, s);
      ManagedIff(docs', plans, s);
    }
    assert ManagedSymbols(docs, plans) == ManagedSymbols(docs', plans);
    forall s ensures Mismatched(docs, plans, positions, s) <==> Mismatched(docs', plans, positions, s) {}
    assert (set s | s in Symbols(positions) && Mismatched(docs, plans, positions, s))
        == (set s | s in Symbols(positions) && Mismatched(docs', plans, positions, s));
  }

  lemma NoneFillsAround(xs: seq<Lifecycle>, o: Lifecycle, ys: seq<Lifecycle>, plans: set<Name>, s: Name)
    ensures NoneFills(xs + [o] + ys, plans, s)
       <==> NoneFills(xs, plans, s) && !Fills(o, plans, s) && NoneFills(ys, plans, s)
  {
    var all := xs + [o] + ys;
    assert forall i :: 0 <= i < |xs| ==> all[i] == xs[i];
    assert all[|xs|] == o;
    assert forall i :: 0 <= i < |ys| ==> all[|xs| + 1 + i] == ys[i];
  }

  lemma NoneFillsBoth(xs: seq<Lifecycle>, ys: seq<Lifecycle>, plans: set<Name>, s: Name)
    ensures NoneFills(xs + ys, plans, s) <==> NoneFills(xs, plans, s) && NoneFills(ys, plans, s)
  {
    assert forall i :: 0 <= i < |xs| ==> (xs + ys)[i] == xs[i];
    assert forall i :: 0 <= i < |ys| ==> (xs + ys)[|xs| + i] == ys[i];
  }

  /** Orders of other plans, and orders with nothing filled, change nothing. */
  lemma IdleOrdersChangeNothing(t: Tally, plans: set<Name>, positions: seq<Position>,
                                xs: seq<Lifecycle>, o: Lifecycle, ys: seq<Lifecycle>)
    requires o.planId !in plans || o.filled == 0
    ensures ReportOf(t, xs + [o] + ys, plans, positions) == ReportOf(t, xs + ys, plans, positions)
  {
    forall s ensures NoneFills(xs + [o] + ys, plans, s) == NoneFills(xs + ys, plans, s)
             ensures ManagedQty(xs + [o] + ys, plans, s) == ManagedQty(xs + ys, plans, s)
    {
      NoneFillsAround(xs, o, ys, plans, s);
      NoneFillsBoth(xs, ys, plans, s);
      ManagedAround(xs, o, ys, plans, s);
      ManagedSplits(xs, ys, plans, s);
    }
    SameFillsSameReport(t, xs + [o] + ys, xs + ys, plans, positions);
  }

  /** Two orders of today's plans in one symbol count as one of their fills together. */
  lemma FillsAdd(t: Tally, plans: set<Name>, positions: seq<Position>,
                 xs: seq<Lifecycle>, o: Lifecycle, ys: seq<Lifecycle>, q: Lifecycle, zs: seq<Lifecycle>)
    requires o.planId in plans && q.planId in plans && o.symbol == q.symbol
    ensures ReportOf(t, xs + [o] + ys + [q] + zs, plans, positions)
         == ReportOf(t, xs + [o.(filled := o.filled + q.filled)] + ys + zs, plans, positions)
  {
    var both := o.(filled := o.filled + q.filled);
    forall s ensures NoneFills(xs + [o] + ys + [q] + zs, plans, s) == NoneFills(xs + [both] + ys + zs, plans, s)
             ensures ManagedQty(xs + [o] + ys + [q] + zs, plans, s) == ManagedQty(xs + [both] + ys + zs, plans, s)
    {
      NoneFillsAround(xs + [o] + ys, q, zs, plans, s);
      NoneFillsAround(xs, o, ys, plans, s);
      NoneFillsBoth(xs + [both] + ys, zs, plans, s);
      NoneFillsAround(xs, both, ys, plans, s);
      ManagedAround(xs + [o] + ys, q, zs, plans, s);
      ManagedAround(xs, o, ys, plans, s);
      ManagedSplits(xs + [both] + ys, zs, plans, s);
      ManagedAround(xs, both, ys, plans, s);
    }
    SameFillsSameReport(t, xs + [o] + ys + [q] + zs, xs + [both] + ys + zs, plans, positions);
  }

  /** Two sound positions of one symbol count as one of their sum. */
  lemma PositionsAdd(t: Tally, docs: seq<Lifecycle>, plans: set<Name>,
                     us: seq<Position>, p: Position, vs: seq<Position>, q: Position, ws: seq<Position>)
    requires p.symbol == q.symbol && !Broken(p) && !Broken(q)
    ensures ReportOf(t, docs, plans, us + [p] + vs + [q] + ws)
         == ReportOf(t, docs, plans, us + [p.(qty := Some(p.qty.value + q.qty.value))] + vs + ws)
  {
    var both := p.(qty := Some(p.qty.value + q.qty.value));
    var apart, joined := us + [p] + vs + [q] + ws, us + [both] + vs + ws;
    forall s ensures SameHolding(apart, joined, s) {
      SamePositions(us, p, vs, q, ws, both, s);
      HeldAround(us + [p] + vs, q, ws, s);
      HeldAround(us, p, vs, s);
      HeldSplits(us + [both] + vs, ws, s);
      HeldAround(us, both, vs, s);
    }
    SameHoldingsSameReport(t, docs, plans, apart, joined);
  }

  /** Two lists of positions say the same of a symbol. */
  predicate SameHolding(a: seq<Position>, b: seq<Position>, s: Name) {
    (s in Symbols(a) <==> s in Symbols(b)) && (HoldsSound(a, s) <==> HoldsSound(b, s))
    && (HoldsUnsound(a, s) <==> HoldsUnsound(b, s)) && BrokerQty(a, s) == BrokerQty(b, s)
  }

  lemma SameHoldingSameMismatch(docs: seq<Lifecycle>, plans: set<Name>, a: seq<Position>, b: seq<Position>, s: Name)
    requires SameHolding(a, b, s)
    ensures Mismatched(docs, plans, a, s) <==> Mismatched(docs, plans, b, s)
  {
  }

  lemma SameHoldingsSameReport(t: Tally, docs: seq<Lifecycle>, plans: set<Name>, a: seq<Position>, b: seq<Position>)
    requires forall s :: SameHolding(a, b, s)
    ensures ReportOf(t, docs, plans, a) == ReportOf(t, docs, plans, b)
  {
    forall s ensures s in Symbols(a) <==> s in Symbols(b) { assert SameHolding(a, b, s); }
    assert Symbols(a) == Symbols(b);
    forall s ensures Mismatched(docs, plans, a, s) <==> Mismatched(docs, plans, b, s) {
      SameHoldingSameMismatch(docs, plans, a, b, s);
    }
    assert (set s | s in Symbols(a) && Mismatched(docs, plans, a, s))
        == (set s | s in Symbols(b) && Mismatched(docs, plans, b, s));
  }

  lemma SamePositions(us: seq<Position>, p: Position, vs: seq<Position>, q: Position, ws: seq<Position>,
                      both: Position, s: Name)
    requires p.symbol == q.symbol == both.symbol && Sound(p) && Sound(q) && Sound(both)
    ensures var apart, joined := us + [p] + vs + [q] + ws, us + [both] + vs + ws;
            (s in Symbols(apart) <==> s in Symbols(joined))
            && (HoldsSound(apart, s) <==> HoldsSound(joined, s))
            && (HoldsUnsound(apart, s) <==> HoldsUnsound(joined, s))
  {
    var apart, joined := us + [p] + vs + [q] + ws, us + [both] + vs + ws;
    var rest := us + vs + ws;
    forall r ensures r in apart <==> r in rest || r == p || r == q {}
    forall r ensures r in joined <==> r in rest || r == both {}
    assert p in apart && both in joined;
  }

  /** It is safe to resume exactly when every open order was resolved, every held symbol has a filled order of today's
      plans, and none is mismatched. */
  lemma SafeIff(t: Tally, docs: seq<Lifecycle>, plans: set<Name>, positions: seq<Position>)
    ensures var r := ReportOf(t, docs, plans, positions);
            r.safe <==> t.unresolved == []
                        && (forall i :: 0 <= i < |positions| ==> !NoneFills(docs, plans, positions[i].symbol))
                        && (forall i :: 0 <= i < |positions| ==> positions[i].symbol !in r.mismatched)
  {
    var r := ReportOf(t, docs, plans, positions);
    forall s ensures s in r.unmatched <==> s in r.symbols && NoneFills(docs, plans, s) {
      UnmatchedIff(t, docs, plans, positions, s);
    }
    forall i | 0 <= i < |positions| ensures positions[i].symbol in r.symbols {
      assert positions[i] in positions;
    }
  }
}
