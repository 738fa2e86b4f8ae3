/** What the live desk accepts as an order (execution/ibkr_execution.py), in terms of the account's own rows:
    which positions and working orders count, how they add up, and the price and caps. */
module ExecutionDeskOrders {
  import opened Texts
  import opened ExecutionDesk
  import Safety = ExecutionDeskSafety

  /** A position that adds nothing to what may be sold of a symbol. */
  predicate Idle(p: Position, symbol: string) { p.symbol != symbol || p.quantity <= 0.0 }

  predicate AllIdle(positions: seq<Position>, symbol: string) {
    forall i :: 0 <= i < |positions| ==> Idle(positions[i], symbol)
  }

  /** An order that is not working on this side of a symbol. */
  predicate Done(o: OpenOrder, symbol: string, side: Side) {
    o.symbol != symbol || o.side != side || o.remaining <= 0.0
    || o.status in {"filled", "cancelled", "canceled", "apicancelled", "rejected", "inactive"}
  }

  predicate AllDone(orders: seq<OpenOrder>, symbol: string, side: Side) {
    forall i :: 0 <= i < |orders| ==> Done(orders[i], symbol, side)
  }

  /** The whole cents nearest to a price, an even number of them when two are equally near. */
  predicate NearestCent(price: real, cents: int) {
    var d := price * 100.0 - cents as real;
    -0.5 <= d <= 0.5 && ((d == 0.5 || d == -0.5) ==> cents % 2 == 0)
  }

  /** The desk's cap and the order's own cap both leave room for this amount. */
  predicate WithinCaps(maxNotional: real, cap: Cap, amount: real) {
    !cap.NotNumeric? && amount <= maxNotional && (cap.GivenCap? ==> amount <= cap.amount)
  }

  predicate PositiveCaps(maxNotional: real, cap: Cap) {
    !cap.NotNumeric? && maxNotional > 0.0 && (cap.GivenCap? ==> cap.amount > 0.0)
  }

  predicate WellFormed(raw: RawOrder) {
    raw.wellKeyed && ValidSymbol(raw.symbol) && ValidClientOrderId(raw.clientOrderId) && raw.contract == LIVE_CONTRACT
    && raw.operation.Some? && raw.quantity.Some? && raw.quantity.value > 0
    && raw.limitPrice.Some? && raw.limitPrice.value > 0.0
  }

  // ---- the two sums split at any place ----

  lemma {:induction false} HeldSplits(xs: seq<Position>, ys: seq<Position>, symbol: string)
    ensures HeldLong(xs + ys, symbol) == HeldLong(xs, symbol) + HeldLong(ys, symbol)
    decreases |ys|
  {
    if ys == [] {
      assert xs + ys == xs;
    } else {
      var last := |ys| - 1;
      assert (xs + ys)[..|xs + ys| - 1] == xs + ys[..last];
      HeldSplits(xs, ys[..last], symbol);
    }
  }

  lemma {:induction false} WorkingSplits(xs: seq<OpenOrder>, ys: seq<OpenOrder>, symbol: string, side: Side)
    ensures Working(xs + ys, symbol, side) == Working(xs, symbol, side) + Working(ys, symbol, side)
    decreases |ys|
  {
    if ys == [] {
      assert xs + ys == xs;
    } else {
      var last := |ys| - 1;
      assert (xs + ys)[..|xs + ys| - 1] == xs + ys[..last];
      WorkingSplits(xs, ys[..last], symbol, side);
    }
  }

  lemma HeldAround(xs: seq<Position>, p: Position, ys: seq<Position>, symbol: string)
    ensures HeldLong(xs + [p] + ys, symbol)
         == HeldLong(xs, symbol) + (if Idle(p, symbol) then 0.0 else p.quantity) + HeldLong(ys, symbol)
  {
    HeldSplits(xs + [p], ys, symbol);
    HeldSplits(xs, [p], symbol);
    assert [p][..0] == [];
  }

  lemma WorkingAround(xs: seq<OpenOrder>, o: OpenOrder, ys: seq<OpenOrder>, symbol: string, side: Side)
    ensures Working(xs + [o] + ys, symbol, side)
         == Working(xs, symbol, side) + (if Done(o, symbol, side) then 0.0 else o.remaining) + Working(ys, symbol, side)
  {
    WorkingSplits(xs + [o], ys, symbol, side);
    WorkingSplits(xs, [o], symbol, side);
    assert [o][..0] == [];
  }

  lemma {:induction false} NothingHeld(positions: seq<Position>, symbol: string)
    ensures HeldLong(positions, symbol) >= 0.0
    ensures HeldLong(positions, symbol) == 0.0 <==> AllIdle(positions, symbol)
    decreases |positions|
  {
    if positions != [] {
      var last := |positions| - 1;
      NothingHeld(positions[..last], symbol);
      assert AllIdle(positions, symbol) <==> AllIdle(positions[..last], symbol) && Idle(positions[last], symbol) by {
        assert forall i :: 0 <= i < last ==> positions[..last][i] == positions[i];
      }
    }
  }

  lemma {:induction false} NothingWorking(orders: seq<OpenOrder>, symbol: string, side: Side)
    ensures Working(orders, symbol, side) >= 0.0
    ensures Working(orders, symbol, side) == 0.0 <==> AllDone(orders, symbol, side)
    decreases |orders|
  {
    if orders != [] {
      var last := |orders| - 1;
      NothingWorking(orders[..last], symbol, side);
      assert AllDone(orders, symbol, side) <==> AllDone(orders[..last], symbol, side) && Done(orders[last], symbol, side)
      by {
        assert forall i :: 0 <= i < last ==> orders[..last][i] == orders[i];
      }
    }
  }

  // ---- price and caps ----

  /** The price sent is the typed price to the nearest cent, and no other whole number of cents is. */
  lemma PriceIsNearestCent(price: real, cents: int)
    ensures NearestCent(price, cents) <==> cents == ToCents(price)
  {
    var low := (price * 100.0).Floor;
    assert low as real <= price * 100.0 < (low + 1) as real;
    if cents < low {
      assert cents as real <= low as real - 1.0;
    } else if cents > low + 1 {
      assert cents as real >= low as real + 2.0;
    }
  }

  /** Both caps bind, whichever is the smaller. */
  lemma CapsBind(maxNotional: real, cap: Cap, amount: real)
    ensures var c := CapFor(maxNotional, cap);
            (c.Some? && amount <= c.value <==> WithinCaps(maxNotional, cap, amount))
            && (c.Some? && c.value > 0.0 <==> PositiveCaps(maxNotional, cap))
  {}

  // ---- which orders are accepted ----

  /** A buy is accepted exactly when it is well formed, fits both caps at its price in cents, and no order to buy
      the symbol is working. */
  lemma OpensIff(account: Account, maxNotional: real, raw: RawOrder, cents: int)
    requires raw.operation == Some(OpenLong)
    requires raw.limitPrice.Some? ==> NearestCent(raw.limitPrice.value, cents)
    ensures Normalize(account, maxNotional, raw).Ok?
       <==> WellFormed(raw) && PositiveCaps(maxNotional, raw.maxNotional)
            && WithinCaps(maxNotional, raw.maxNotional, (cents * raw.quantity.value) as real / 100.0)
            && AllDone(account.openOrders, raw.symbol, Buy)
  {
    NothingWorking(account.openOrders, raw.symbol, Buy);
    if raw.limitPrice.Some? {
      PriceIsNearestCent(raw.limitPrice.value, cents);
    }
    if raw.quantity.Some? {
      CapsBind(maxNotional, raw.maxNotional, (cents * raw.quantity.value) as real / 100.0);
    }
  }

  /** One long position of the symbol and one working order to sell it, among rows that do not count: a reduction is
      accepted exactly when it is well formed, the caps are positive, and it fits what is held and not yet on offer. */
  lemma ReducesIff(account: Account, maxNotional: real, raw: RawOrder,
                   xs: seq<Position>, p: Position, ys: seq<Position>,
                   us: seq<OpenOrder>, o: OpenOrder, vs: seq<OpenOrder>)
    requires raw.operation == Some(ReduceLong)
    requires account.positions == xs + [p] + ys && AllIdle(xs, raw.symbol) && AllIdle(ys, raw.symbol)
    requires account.openOrders == us + [o] + vs && AllDone(us, raw.symbol, Sell) && AllDone(vs, raw.symbol, Sell)
    requires !Idle(p, raw.symbol) && !Done(o, raw.symbol, Sell)
    ensures Normalize(account, maxNotional, raw).Ok?
       <==> WellFormed(raw) && PositiveCaps(maxNotional, raw.maxNotional)
            && raw.quantity.value as real <= p.quantity - o.remaining
  {
    HeldAround(xs, p, ys, raw.symbol);
    NothingHeld(xs, raw.symbol);
    NothingHeld(ys, raw.symbol);
    WorkingAround(us, o, vs, raw.symbol, Sell);
    NothingWorking(us, raw.symbol, Sell);
    NothingWorking(vs, raw.symbol, Sell);
    CapsBind(maxNotional, raw.maxNotional, 0.0);
  }

  /** The same without a working order to sell: the whole position may go. */
  lemma ReducesWholeIff(account: Account, maxNotional: real, raw: RawOrder,
                        xs: seq<Position>, p: Position, ys: seq<Position>)
    requires raw.operation == Some(ReduceLong)
    requires account.positions == xs + [p] + ys && AllIdle(xs, raw.symbol) && AllIdle(ys, raw.symbol)
    requires !Idle(p, raw.symbol) && AllDone(account.openOrders, raw.symbol, Sell)
    ensures Normalize(account, maxNotional, raw).Ok?
       <==> WellFormed(raw) && PositiveCaps(maxNotional, raw.maxNotional) && raw.quantity.value as real <= p.quantity
  {
    HeldAround(xs, p, ys, raw.symbol);
    NothingHeld(xs, raw.symbol);
    NothingHeld(ys, raw.symbol);
    NothingWorking(account.openOrders, raw.symbol, Sell);
    CapsBind(maxNotional, raw.maxNotional, 0.0);
  }

  /** Without a long position in the symbol no reduction of it is accepted. */
  lemma NothingToReduce(account: Account, maxNotional: real, raw: RawOrder)
    requires raw.operation == Some(ReduceLong) && AllIdle(account.positions, raw.symbol)
    ensures Normalize(account, maxNotional, raw).Err?
  {
    NothingHeld(account.positions, raw.symbol);
    NothingWorking(account.openOrders, raw.symbol, Sell);
  }

  /** Positions in other symbols and positions that are not long change no answer. */
  lemma IdlePositionsChangeNothing(account: Account, maxNotional: real, raw: RawOrder,
                                   xs: seq<Position>, p: Position, ys: seq<Position>)
    requires account.positions == xs + ys && Idle(p, raw.symbol)
    ensures Normalize(account.(positions := xs + [p] + ys), maxNotional, raw) == Normalize(account, maxNotional, raw)
  {
    HeldAround(xs, p, ys, raw.symbol);
    HeldSplits(xs, ys, raw.symbol);
  }

  /** Neither do orders in other symbols and orders that are over. */
  lemma DoneOrdersChangeNothing(account: Account, maxNotional: real, raw: RawOrder,
                                us: seq<OpenOrder>, o: OpenOrder, vs: seq<OpenOrder>)
    requires account.openOrders == us + vs && Done(o, raw.symbol, Buy) && Done(o, raw.symbol, Sell)
    ensures Normalize(account.(openOrders := us + [o] + vs), maxNotional, raw) == Normalize(account, maxNotional, raw)
  {
    WorkingAround(us, o, vs, raw.symbol, Buy);
    WorkingAround(us, o, vs, raw.symbol, Sell);
    WorkingSplits(us, vs, raw.symbol, Buy);
    WorkingSplits(us, vs, raw.symbol, Sell);
  }

  /** Two long positions of one symbol count as one of their sum, wherever they stand in the account. */
  lemma LongPositionsAdd(account: Account, maxNotional: real, raw: RawOrder,
                         xs: seq<Position>, p: Position, ys: seq<Position>, q: Position, zs: seq<Position>)
    requires account.positions == xs + [p] + ys + [q] + zs
    requires p.symbol == q.symbol && p.quantity > 0.0 && q.quantity > 0.0
    ensures Normalize(account, maxNotional, raw)
         == Normalize(account.(positions := xs + [p.(quantity := p.quantity + q.quantity)] + ys + zs), maxNotional, raw)
  {
    var both := p.(quantity := p.quantity + q.quantity);
    HeldAround(xs + [p] + ys, q, zs, raw.symbol);
    HeldAround(xs, p, ys, raw.symbol);
    HeldSplits(xs + [both] + ys, zs, raw.symbol);
    HeldAround(xs, both, ys, raw.symbol);
  }

  /** Two working orders on one side of one symbol count as one of their sum. */
  lemma WorkingOrdersAdd(account: Account, maxNotional: real, raw: RawOrder,
                         us: seq<OpenOrder>, o: OpenOrder, vs: seq<OpenOrder>, n: OpenOrder, ws: seq<OpenOrder>)
    requires account.openOrders == us + [o] + vs + [n] + ws
    requires !Done(o, o.symbol, o.side) && !Done(n, o.symbol, o.side)
    ensures Normalize(account, maxNotional, raw)
         == Normalize(account.(openOrders := us + [o.(remaining := o.remaining + n.remaining)] + vs + ws),
                      maxNotional, raw)
  {
    var both := o.(remaining := o.remaining + n.remaining);
    forall side: Side
      ensures Working(account.openOrders, raw.symbol, side) == Working(us + [both] + vs + ws, raw.symbol, side)
    {
      WorkingAround(us + [o] + vs, n, ws, raw.symbol, side);
      WorkingAround(us, o, vs, raw.symbol, side);
      WorkingSplits(us + [both] + vs, ws, raw.symbol, side);
      WorkingAround(us, both, vs, raw.symbol, side);
    }
  }

  /** An accepted order is the typed one: same symbol, operation and quantity, on the account asked, at the typed
      price to the nearest cent, and shown with the value of its shares at that price. */
  lemma AcceptedOrderIsTyped(account: Account, maxNotional: real, raw: RawOrder)
    requires Normalize(account, maxNotional, raw).Ok?
    ensures var (request, intent) := Normalize(account, maxNotional, raw).value;
            WellFormed(raw)
            && request.account == account.id && request.clientOrderId == intent.clientOrderId == raw.clientOrderId
            && request.symbol == intent.symbol == raw.symbol && request.contract == intent.contract == LIVE_CONTRACT
            && request.operation == intent.operation == raw.operation.value
            && request.side == (if raw.operation == Some(OpenLong) then Buy else Sell)
            && request.quantity == intent.quantity == raw.quantity.value
            && request.limitCents == intent.limitCents && NearestCent(raw.limitPrice.value, request.limitCents)
            && intent.notionalCents == request.limitCents * request.quantity
  {
    PriceIsNearestCent(raw.limitPrice.value, ToCents(raw.limitPrice.value));
  }

  // ---- what is sent ----

  /** What an order asks of the account it is for: a buy meets no working buy of its symbol, and a sale finds a long
      position of it; where that position is the only one, it covers the sale. */
  predicate Fits(account: Account, maxNotional: real, r: Request) {
    r.account == account.id && r.quantity > 0
    && (r.side.Buy? ==>
          r.operation.OpenLong? && AllDone(account.openOrders, r.symbol, Buy)
          && (r.limitCents * r.quantity) as real / 100.0 <= maxNotional)
    && (r.side.Sell? ==>
          r.operation.ReduceLong? && !AllIdle(account.positions, r.symbol)
          && forall i :: 0 <= i < |account.positions|
               && AllIdle(account.positions[..i], r.symbol) && AllIdle(account.positions[i + 1..], r.symbol)
               ==> r.quantity as real <= account.positions[i].quantity)
  }

  lemma AcceptedOrderFits(account: Account, maxNotional: real, raw: RawOrder)
    requires Normalize(account, maxNotional, raw).Ok?
    ensures Fits(account, maxNotional, Normalize(account, maxNotional, raw).value.0)
  {
    NothingWorking(account.openOrders, raw.symbol, Buy);
    NothingWorking(account.openOrders, raw.symbol, Sell);
    NothingHeld(account.positions, raw.symbol);
    forall i | 0 <= i < |account.positions|
               && AllIdle(account.positions[..i], raw.symbol) && AllIdle(account.positions[i + 1..], raw.symbol)
      ensures HeldLong(account.positions, raw.symbol) == 0.0
              || HeldLong(account.positions, raw.symbol) == account.positions[i].quantity
    {
      assert account.positions == account.positions[..i] + [account.positions[i]] + account.positions[i + 1..];
      HeldAround(account.positions[..i], account.positions[i], account.positions[i + 1..], raw.symbol);
      NothingHeld(account.positions[..i], raw.symbol);
      NothingHeld(account.positions[i + 1..], raw.symbol);
    }
  }

  /** An order that reaches the broker is the typed one and fits the account fetched together with it. */
  lemma SentOrderFitsAccount(cfg: Config, w: World, c: Command)
    requires Safety.DeskInv(w.desk) && Step(cfg, w, c).sent != w.sent
    ensures c.op.Submit? && c.op.order.refresh.Got? && c.op.order.raw.Some?
    ensures exists r: Request, ref: string ::
              Step(cfg, w, c).sent == w.sent + [SentOrder(r, cfg.clientId, ref)]
              && Fits(c.op.order.refresh.value, cfg.maxNotional, r)
              && r.symbol == c.op.order.raw.value.symbol && Some(r.quantity) == c.op.order.raw.value.quantity
              && Some(r.operation) == c.op.order.raw.value.operation
              && c.op.order.raw.value.limitPrice.Some?
              && NearestCent(c.op.order.raw.value.limitPrice.value, r.limitCents)
  {
    Safety.SubmissionIsAuthorised(cfg, w, c);
    AcceptedOrderFits(c.op.order.refresh.value, cfg.maxNotional, c.op.order.raw.value);
    AcceptedOrderIsTyped(c.op.order.refresh.value, cfg.maxNotional, c.op.order.raw.value);
  }
}
