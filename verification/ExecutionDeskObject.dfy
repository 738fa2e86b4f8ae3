/** The desk as the object it is: fields assigned step by step around ledger writes and broker
    calls, each method equal to its transition in ExecutionDesk. */
module ExecutionDeskObject {
  import opened Texts
  import opened ExecutionDesk
  import opened ExecutionDeskSafety

  /** The order table; a method is one immediate transaction. */
  class OrderStore {
    var rows: seq<Row>

    constructor ()
      ensures rows == []
    {
      rows := [];
    }

    method CreateOrRead(row: Row) returns (index: nat, created: bool)
      modifies this
      ensures index == FindKey(old(rows), row.key)
      ensures created == (index == |old(rows)|)
      ensures rows == if created then old(rows) + [row] else old(rows)
    {
      index := 0;
      while index < |rows| && rows[index].key != row.key
        invariant index <= |rows| && rows == old(rows)
        invariant FindKey(rows, row.key) == index + FindKey(rows[index..], row.key)
      {
        assert rows[index..][1..] == rows[index + 1..];
        index := index + 1;
      }
      created := index == |rows|;
      if created {
        rows := rows + [row];
      }
    }

    method Update(index: nat, status: string, s: Option<Submission>, error: Option<string>)
      requires index < |rows|
      modifies this
      ensures rows == old(rows)[index := Settled(old(rows)[index], status, s, error)]
    {
      rows := rows[index := Settled(rows[index], status, s, error)];
    }

    method AnyUncertain() returns (found: bool)
      ensures found == RecoveryRequired(rows)
    {
      found := false;
      for i := 0 to |rows|
        invariant !found && forall j :: 0 <= j < i ==> !Uncertain(rows[j])
      {
        if Uncertain(rows[i]) { return true; }
      }
    }
  }

  /** The broker session: every order handed to it, in order. */
  class BrokerPort {
    var sent: seq<SentOrder>

    constructor ()
      ensures sent == []
    {
      sent := [];
    }

    method Submit(order: SentOrder)
      modifies this
      ensures sent == old(sent) + [order]
    {
      sent := sent + [order];
    }
  }

  method LongPositionQuantity(positions: seq<Position>, symbol: string) returns (total: real)
    ensures total == HeldLong(positions, symbol)
  {
    total := 0.0;
    for i := 0 to |positions|
      invariant total == HeldLong(positions[..i], symbol)
    {
      assert positions[..i + 1][..i] == positions[..i];
      if positions[i].symbol == symbol && positions[i].quantity > 0.0 {
        total := total + positions[i].quantity;
      }
    }
    assert positions[..|positions|] == positions;
  }

  method ActiveOpenQuantity(orders: seq<OpenOrder>, symbol: string, side: Side) returns (total: real)
    ensures total == Working(orders, symbol, side)
  {
    total := 0.0;
    for i := 0 to |orders|
      invariant total == Working(orders[..i], symbol, side)
    {
      assert orders[..i + 1][..i] == orders[..i];
      if orders[i].symbol == symbol && orders[i].side == side && !Terminal(orders[i].status)
         && orders[i].remaining > 0.0
      {
        total := total + orders[i].remaining;
      }
    }
    assert orders[..|orders|] == orders;
  }

  class LiveDesk {
    const cfg: Config
    const store: OrderStore
    const broker: BrokerPort
    var liveAccount: Option<string>
    var connected: bool
    var writesArmed: bool
    var armedUntil: Option<real>
    var account: Option<Account>
    var preview: Option<Preview>
    ghost var arms: nat

    constructor (cfg: Config, store: OrderStore, broker: BrokerPort, live: Option<string>)
      ensures this.cfg == cfg && this.store == store && this.broker == broker
      ensures Memory() == FreshDesk(live) && arms == 0
    {
      this.cfg, this.store, this.broker := cfg, store, broker;
      liveAccount, connected, writesArmed, armedUntil := live, false, false, None;
      account, preview, arms := None, None, 0;
    }

    ghost function Memory(): Desk
      reads this
    {
      Desk(liveAccount, connected, writesArmed, armedUntil, account, preview)
    }

    ghost function State(): World
      reads this, store, broker
    {
      World(Memory(), store.rows, broker.sent, arms)
    }

    method Disarm()
      modifies this`writesArmed, this`armedUntil
      ensures Memory() == Disarmed(old(Memory()))
    {
      writesArmed, armedUntil := false, None;
    }

    /** The process dies and a new desk opens on the same ledger. */
    method Reopen(live: Option<string>)
      modifies this`liveAccount, this`connected, this`writesArmed, this`armedUntil, this`account, this`preview
      ensures Memory() == FreshDesk(live)
    {
      liveAccount, connected, writesArmed, armedUntil, account, preview := live, false, false, None, None, None;
    }

    method Sync(h: Health)
      modifies this`connected, this`writesArmed, this`armedUntil, this`preview
      ensures Memory() == Synced(old(Memory()), h)
    {
      if connected && !h.up {
        connected := false;
        Disarm();
        preview := None;
      }
      if armedUntil.Some? && h.now >= armedUntil.value {
        Disarm();
      }
    }

    predicate AccountBound()
      reads this
      ensures AccountBound() == Bound(Memory())
    {
      account.Some? && liveAccount.Some? && account.value.id == liveAccount.value
    }

    method RefreshAccount(reply: Reply<Account>) returns (ok: bool)
      modifies this`connected, this`writesArmed, this`armedUntil, this`preview, this`account
      ensures (Memory(), ok) == Refreshed(old(Memory()), reply)
    {
      if !connected || reply.Failed? { return false; }
      if liveAccount.Some? && reply.value.id != liveAccount.value {
        Disarm();
        preview, account, connected := None, None, false;
        return false;
      }
      account := Some(reply.value);
      return true;
    }

    method RecoverUncertainOrder(index: nat, answer: Lookup)
      requires index < |store.rows| && !answer.LookupRaised?
      modifies this`preview, store
      ensures store.rows == old(store.rows)[index := RecoveredRow(old(store.rows)[index], answer)]
      ensures Memory() == old(Memory()).(preview := None)
    {
      if answer.Found? {
        store.Update(index, answer.s.status, Some(answer.s), None);
      } else if store.rows[index].status == "submitting" {
        store.Update(index, "unknown", None, Some("recovery_lookup_empty"));
      }
      preview := None;
    }

    method RecoverUncertainOrders(lookups: map<string, Lookup>) returns (complete: bool)
      requires account.Some? && preview == None
      modifies this`preview, store
      ensures (store.rows, complete)
              == RecoveredRows(old(store.rows), account.value.id, cfg.clientId, lookups, 0)
      ensures Memory() == old(Memory())
    {
      var i := 0;
      while i < |store.rows|
        invariant i <= |store.rows| && Memory() == old(Memory())
        invariant RecoveredRows(store.rows, account.value.id, cfg.clientId, lookups, i)
                  == RecoveredRows(old(store.rows), account.value.id, cfg.clientId, lookups, 0)
        decreases |store.rows| - i
      {
        if Recoverable(store.rows[i], account.value.id, cfg.clientId) {
          var answer := LookedUp(lookups, store.rows[i].orderRef);
          if answer.LookupRaised? { return false; }
          RecoverUncertainOrder(i, answer);
        }
        i := i + 1;
      }
      return true;
    }

    method NormalizeOrder(raw: RawOrder) returns (r: Result<(Request, Intent)>)
      requires account.Some?
      ensures r == Normalize(account.value, cfg.maxNotional, raw)
    {
      if !raw.wellKeyed { return Err("order fields"); }
      if !ValidSymbol(raw.symbol) { return Err("symbol"); }
      if raw.contract != LIVE_CONTRACT { return Err("contract"); }
      if raw.operation.None? { return Err("action"); }
      if raw.quantity.None? || raw.quantity.value <= 0 { return Err("quantity"); }
      if raw.limitPrice.None? || raw.limitPrice.value <= 0.0 { return Err("limit_price"); }
      var op, quantity, cents := raw.operation.value, raw.quantity.value, ToCents(raw.limitPrice.value);
      var cap := CapFor(cfg.maxNotional, raw.maxNotional);
      if cap.None? { return Err("max_notional"); }
      if cap.value <= 0.0 || (op.OpenLong? && (cents * quantity) as real / 100.0 > cap.value) {
        return Err("order exceeds max_notional");
      }
      if !ValidClientOrderId(raw.clientOrderId) { return Err("client_order_id"); }
      if op.OpenLong? {
        var buying := ActiveOpenQuantity(account.value.openOrders, raw.symbol, Buy);
        if buying > 0.0 { return Err("active BUY"); }
      } else {
        var held := LongPositionQuantity(account.value.positions, raw.symbol);
        var selling := ActiveOpenQuantity(account.value.openOrders, raw.symbol, Sell);
        if quantity as real > held - selling { return Err("exceeds long"); }
      }
      var request := Request(raw.clientOrderId, account.value.id, raw.symbol, raw.contract,
                             if op.OpenLong? then Buy else Sell, op, quantity, cents);
      return Ok((request, Intent(raw.clientOrderId, raw.symbol, raw.contract, op, quantity, cents,
                                 cents * quantity)));
    }

    method ConnectLive(reply: Reply<Account>, lookups: map<string, Lookup>) returns (answered: bool)
      modifies this, store
      ensures (State(), answered) == AfterConnect(cfg, old(State()), reply, lookups)
    {
      connected := false;
      Disarm();
      account, preview := None, None;
      if reply.Failed? { return false; }
      if liveAccount.Some? && reply.value.id != liveAccount.value { return false; }
      account, connected := Some(reply.value), true;
      answered := true;
      if AccountBound() {
        answered := RecoverUncertainOrders(lookups);
      }
    }

    method BindAccount(mask: string, lookups: map<string, Lookup>) returns (answered: bool)
      modifies this, store
      ensures (State(), answered) == AfterBind(cfg, old(State()), mask, lookups)
    {
      if !connected || account.None? || AccountBound() || mask != Mask(account.value.id) { return false; }
      liveAccount := Some(account.value.id);
      Disarm();
      preview := None;
      answered := RecoverUncertainOrders(lookups);
    }

    method ArmWrites(mask: string, at: real) returns (answered: bool)
      modifies this
      ensures (State(), answered) == AfterArm(cfg, old(State()), mask, at)
    {
      if !connected || account.None? || !AccountBound() || account.value.readOnly
         || mask != Mask(account.value.id)
      {
        return false;
      }
      writesArmed, armedUntil := true, Some(at + cfg.armTtl);
      arms := arms + 1;
      return true;
    }

    method MakePreview(raw: Option<RawOrder>, refresh: Reply<Account>, whatIf: Reply<WhatIf>, at: real, token: string)
      returns (answered: bool)
      modifies this
      ensures (State(), answered) == AfterPreview(cfg, old(State()), raw, refresh, whatIf, at, token)
    {
      if !connected || account.None? || !AccountBound() { return false; }
      var stuck := store.AnyUncertain();
      if stuck { return false; }
      var current := RefreshAccount(refresh);
      if !current || raw.None? { return false; }
      var normal := NormalizeOrder(raw.value);
      if normal.Err? || whatIf.Failed? || !whatIf.value.accepted { return false; }
      var (request, intent) := normal.value;
      var warning, mask := whatIf.value.warning, Mask(account.value.id);
      var phrase := Phrase(mask, request.operation, request.quantity, request.symbol, request.limitCents,
                           token, if warning == Some("") then None else warning);
      preview := Some(Preview(token, mask, intent, request, warning, phrase, at + cfg.previewTtl));
      return true;
    }

    /** Every check of a submission that comes before the ledger is written. */
    method Authorise(o: SubmitOrder) returns (passed: bool)
      modifies this
      ensures (Memory(), passed) == Authorised(cfg, old(Memory()), store.rows, o) && arms == old(arms)
    {
      if !connected || account.None? || !AccountBound() { return false; }
      var stuck := store.AnyUncertain();
      if stuck || !writesArmed { return false; }
      if preview.None? || o.token != preview.value.token { return false; }
      if preview.value.mask != Mask(account.value.id) { return false; }
      if o.at > preview.value.expiresAt {
        preview := None;
        return false;
      }
      if o.phrase != preview.value.phrase || o.raw.None? { return false; }
      var intent, warning := preview.value.intent, preview.value.warning;
      var current := RefreshAccount(o.refresh);
      if !current { return false; }
      var normal := NormalizeOrder(o.raw.value);
      return normal.Ok? && normal.value.1 == intent
             && o.whatIf.Got? && o.whatIf.value.accepted && o.whatIf.value.warning == warning;
    }

    /** The row is committed: hand the order to the broker, then settle the row. */
    method SendAndSettle(request: Request, o: SubmitOrder)
      requires store.rows != []
      modifies this, store, broker
      ensures State() == AfterWriteAhead(cfg, old(State()), request, o)
    {
      var index := |store.rows| - 1;
      if o.crash.CrashBeforeBroker? {
        Reopen(o.crash.live);
        return;
      }
      broker.Submit(SentOrder(request, cfg.clientId, store.rows[index].orderRef));
      if o.crash.CrashAfterBroker? {
        Reopen(o.crash.live);
        return;
      }
      match o.reply {
        case Accepted(s) => store.Update(index, s.status, Some(s), None);
        case Rejected(code) => store.Update(index, "rejected", None, Some(code));
        case TimedOut => store.Update(index, "unknown", None, Some("broker_timeout"));
        case Raised => store.Update(index, "unknown", None, Some("broker_exception"));
      }
      preview := None;
      if o.reply.Accepted? {
        var _ := RefreshAccount(o.receipt);
      }
    }

    /** Write the order ahead, unless its identity already has a row. */
    method Record(chosen: Preview, o: SubmitOrder)
      requires account.Some?
      modifies this, store, broker
      ensures State() == PastGate(cfg, old(State()), GateOf(cfg, old(Memory()), old(store.rows), chosen), o)
    {
      var ref := OrderRef(account.value.id, cfg.clientId, chosen.request.clientOrderId);
      var row := NewRow(cfg, chosen.request, chosen.intent, ref);
      var index, created := store.CreateOrRead(row);
      if store.rows[index].intent != chosen.intent { return; }
      if !Uncertain(store.rows[index]) {
        Disarm();
        preview := None;
        var _ := RefreshAccount(o.receipt);
      } else if !created {
        var answer := LookedUp(o.lookups, store.rows[index].orderRef);
        if !answer.LookupRaised? {
          RecoverUncertainOrder(index, answer);
        }
      } else {
        Disarm();
        SendAndSettle(chosen.request, o);
      }
    }

    method SubmitPreviewed(o: SubmitOrder)
      modifies this, store, broker
      ensures State() == AfterSubmit(cfg, old(State()), o)
    {
      var chosen := preview;
      var passed := Authorise(o);
      if passed {
        Record(chosen.value, o);
      }
    }

    method RecoverOrders(lookups: map<string, Lookup>) returns (answered: bool)
      modifies this, store
      ensures (State(), answered) == AfterRecover(cfg, old(State()), lookups)
    {
      if !connected || account.None? || !AccountBound() { return false; }
      Disarm();
      preview := None;
      answered := RecoverUncertainOrders(lookups);
    }

    method Handle(c: Command)
      modifies this, store, broker
      ensures State() == Step(cfg, old(State()), c)
    {
      Sync(c.before);
      var answered := Act(c.op);
      if answered && AnswersWithSnapshot(c.op) { Sync(c.after); }
    }

    /** The command itself; the answer counts only where a closing snapshot follows it. */
    method Act(op: Op) returns (answered: bool)
      modifies this, store, broker
      ensures State() == AfterOp(cfg, old(State()), op).0
      ensures AnswersWithSnapshot(op) ==> answered == AfterOp(cfg, old(State()), op).1
    {
      answered := true;
      match op {
        case Snapshot =>
        case Connect(reply, lookups) => answered := ConnectLive(reply, lookups);
        case Bind(mask, lookups) => answered := BindAccount(mask, lookups);
        case Arm(mask, at) => answered := ArmWrites(mask, at);
        case DisarmDesk => Disarm();
        case PreviewOrder(raw, refresh, whatIf, at, token) =>
          answered := MakePreview(raw, refresh, whatIf, at, token);
        case Submit(order) => SubmitPreviewed(order);
        case Recover(lookups) => answered := RecoverOrders(lookups);
        case Disconnect =>
          connected := false;
          Disarm();
          preview := None;
        case Restart(live) => Reopen(live);
      }
    }

    /** A session of commands on one desk. */
    method Serve(commands: seq<Command>)
      requires DeskInv(Memory()) && Durable(store.rows, broker.sent)
      modifies this, store, broker
      ensures State() == Run(cfg, old(State()), commands)
      ensures DistinctOrders(broker.sent)
      ensures AtMostOneUncertain(old(store.rows)) ==> AtMostOneUncertain(store.rows)
    {
      for i := 0 to |commands|
        invariant State() == Run(cfg, old(State()), commands[..i])
      {
        assert commands[..i + 1][..i] == commands[..i];
        Handle(commands[i]);
      }
      assert commands[..|commands|] == commands;
      RunKeeps(cfg, old(State()), commands);
      DurableIsDistinct(store.rows, broker.sent);
    }
  }
}
