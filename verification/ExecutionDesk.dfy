/** The live IBKR desk (execution/ibkr_execution.py) as a state machine: what the desk
    holds in memory, the durable order rows, and every order handed to the broker.
    Broker answers, clock readings and tokens arrive as parts of each command. */
module ExecutionDesk {
  import opened Texts

  datatype Side = Buy | Sell
  datatype Operation = OpenLong | ReduceLong
  datatype Contract = Contract(securityType: string, exchange: string, currency: string,
                               orderType: string, tif: string)
  const LIVE_CONTRACT := Contract("STK", "SMART", "USD", "LMT", "DAY")

  datatype Position = Position(symbol: string, quantity: real)
  datatype OpenOrder = OpenOrder(symbol: string, side: Side, status: string, remaining: real)
  datatype Account = Account(id: string, readOnly: bool, positions: seq<Position>, openOrders: seq<OpenOrder>)

  datatype Request = Request(clientOrderId: string, account: string, symbol: string, contract: Contract,
                             side: Side, operation: Operation, quantity: int, limitCents: int)
  datatype Intent = Intent(clientOrderId: string, symbol: string, contract: Contract,
                           operation: Operation, quantity: int, limitCents: int, notionalCents: int)

  /** An order as the operator typed it; None stands for a field of the wrong form. */
  datatype Cap = DefaultCap | GivenCap(amount: real) | NotNumeric
  datatype RawOrder = RawOrder(wellKeyed: bool, clientOrderId: string, symbol: string, contract: Contract,
                               operation: Option<Operation>, quantity: Option<int>, limitPrice: Option<real>,
                               maxNotional: Cap)

  datatype Phrase = Phrase(mask: string, operation: Operation, quantity: int, symbol: string,
                           limitCents: int, token: string, warning: Option<string>)
  datatype Preview = Preview(token: string, mask: string, intent: Intent, request: Request,
                             warning: Option<string>, phrase: Phrase, expiresAt: real)

  datatype Submission = Submission(status: string, orderId: int, permId: Option<int>)
  datatype Reply<+T> = Got(value: T) | Failed
  datatype WhatIf = WhatIf(accepted: bool, warning: Option<string>)
  datatype SubmitReply = Accepted(s: Submission) | Rejected(code: string) | TimedOut | Raised
  datatype Lookup = Found(s: Submission) | NotFound | LookupTimedOut | LookupRaised

  datatype Row = Row(key: string, account: string, clientId: nat, clientOrderId: string, intent: Intent,
                     status: string, brokerOrderId: Option<int>, permId: Option<int>, orderRef: string,
                     lastError: Option<string>)
  datatype SentOrder = SentOrder(request: Request, clientId: nat, orderRef: string)

  datatype Config = Config(clientId: nat, maxNotional: real, previewTtl: real, armTtl: real)
  datatype Desk = Desk(liveAccount: Option<string>, connected: bool, armed: bool, armedUntil: Option<real>,
                       account: Option<Account>, preview: Option<Preview>)

  /** arms counts the arm commands that succeeded; no decision reads it. */
  datatype World = World(desk: Desk, rows: seq<Row>, sent: seq<SentOrder>, arms: nat)

  datatype Health = Health(up: bool, now: real)
  datatype Crash = NoCrash | CrashBeforeBroker(live: Option<string>) | CrashAfterBroker(live: Option<string>)
  datatype SubmitOrder = SubmitOrder(token: string, phrase: Phrase, raw: Option<RawOrder>, at: real,
                                     refresh: Reply<Account>, whatIf: Reply<WhatIf>, reply: SubmitReply,
                                     receipt: Reply<Account>, lookups: map<string, Lookup>, crash: Crash)
  datatype Op =
    | Snapshot
    | Connect(account: Reply<Account>, lookups: map<string, Lookup>)
    | Bind(mask: string, lookups: map<string, Lookup>)
    | Arm(mask: string, at: real)
    | DisarmDesk
    | PreviewOrder(raw: Option<RawOrder>, refresh: Reply<Account>, whatIf: Reply<WhatIf>, at: real, token: string)
    | Submit(order: SubmitOrder)
    | Recover(lookups: map<string, Lookup>)
    | Disconnect
    | Restart(live: Option<string>)
  /** Health is read before every command, and again by those that answer with a snapshot. */
  datatype Command = Command(before: Health, op: Op, after: Health)

  // ---- identifiers ----

  function OrderKey(account: string, clientId: nat, clientOrderId: string): string {
    "live:" + account + ":" + DecimalText(clientId) + ":" + clientOrderId
  }

  function OrderRef(account: string, clientId: nat, clientOrderId: string): string {
    "vq:" + OrderKey(account, clientId, clientOrderId)
  }

  function Stars(n: nat): string { seq(n, _ => '*') }

  function Mask(account: string): string {
    if |account| <= 4 then Stars(|account|)
    else [account[0]] + Stars(|account| - 5) + account[|account| - 4..]
  }

  predicate IsUpper(c: char) { 'A' <= c <= 'Z' }

  predicate ValidSymbol(s: string) {
    1 <= |s| <= 15 && IsUpper(s[0])
    && forall i :: 1 <= i < |s| ==> IsUpper(s[i]) || IsDigit(s[i]) || s[i] == '.' || s[i] == '-'
  }

  predicate ValidClientOrderId(s: string) {
    1 <= |s| <= 80
    && forall i :: 0 <= i < |s| ==>
         IsUpper(s[i]) || 'a' <= s[i] <= 'z' || IsDigit(s[i]) || s[i] == '_' || s[i] == '.' || s[i] == '-'
  }

  // ---- normalising an order ----

  /** Decimal quantisation to cents, ties to the even cent. */
  function ToCents(price: real): int {
    var cents := (price * 100.0).Floor;
    var rest := price * 100.0 - cents as real;
    if rest < 0.5 || (rest == 0.5 && cents % 2 == 0) then cents else cents + 1
  }

  predicate Terminal(status: string) {
    status in {"filled", "cancelled", "canceled", "apicancelled", "rejected", "inactive"}
  }

  function HeldLong(positions: seq<Position>, symbol: string): real {
    if positions == [] then 0.0
    else
      var p := positions[|positions| - 1];
      HeldLong(positions[..|positions| - 1], symbol)
      + if p.symbol == symbol && p.quantity > 0.0 then p.quantity else 0.0
  }

  function Working(orders: seq<OpenOrder>, symbol: string, side: Side): real {
    if orders == [] then 0.0
    else
      var o := orders[|orders| - 1];
      Working(orders[..|orders| - 1], symbol, side)
      + if o.symbol == symbol && o.side == side && !Terminal(o.status) && o.remaining > 0.0
        then o.remaining else 0.0
  }

  function CapFor(maxNotional: real, cap: Cap): Option<real> {
    match cap
    case DefaultCap => Some(maxNotional)
    case GivenCap(c) => Some(if c < maxNotional then c else maxNotional)
    case NotNumeric => None
  }

  function Normalize(account: Account, maxNotional: real, raw: RawOrder): Result<(Request, Intent)> {
    if !raw.wellKeyed then Err("order fields")
    else if !ValidSymbol(raw.symbol) then Err("symbol")
    else if raw.contract != LIVE_CONTRACT then Err("contract")
    else if raw.operation.None? then Err("action")
    else if raw.quantity.None? || raw.quantity.value <= 0 then Err("quantity")
    else if raw.limitPrice.None? || raw.limitPrice.value <= 0.0 then Err("limit_price")
    else
      var op, quantity, cents := raw.operation.value, raw.quantity.value, ToCents(raw.limitPrice.value);
      var cap := CapFor(maxNotional, raw.maxNotional);
      if cap.None? then Err("max_notional")
      else if cap.value <= 0.0 || (op.OpenLong? && (cents * quantity) as real / 100.0 > cap.value) then
        Err("order exceeds max_notional")
      else if !ValidClientOrderId(raw.clientOrderId) then Err("client_order_id")
      else if op.OpenLong? && Working(account.openOrders, raw.symbol, Buy) > 0.0 then Err("active BUY")
      else if op.ReduceLong?
              && quantity as real > HeldLong(account.positions, raw.symbol)
                                    - Working(account.openOrders, raw.symbol, Sell) then Err("exceeds long")
      else
        Ok((Request(raw.clientOrderId, account.id, raw.symbol, raw.contract,
                    if op.OpenLong? then Buy else Sell, op, quantity, cents),
            Intent(raw.clientOrderId, raw.symbol, raw.contract, op, quantity, cents, cents * quantity)))
  }

  // ---- the desk's memory ----

  function FreshDesk(live: Option<string>): Desk { Desk(live, false, false, None, None, None) }

  predicate Bound(d: Desk) {
    d.account.Some? && d.liveAccount.Some? && d.account.value.id == d.liveAccount.value
  }

  function Disarmed(d: Desk): Desk { d.(armed := false, armedUntil := None) }

  function Synced(d: Desk, h: Health): Desk {
    var d1 := if d.connected && !h.up then Disarmed(d).(connected := false, preview := None) else d;
    if d1.armedUntil.Some? && h.now >= d1.armedUntil.value then Disarmed(d1) else d1
  }

  /** The refreshed memory, and whether the refresh raised nothing. */
  function Refreshed(d: Desk, reply: Reply<Account>): (Desk, bool) {
    if !d.connected || reply.Failed? then (d, false)
    else if d.liveAccount.Some? && reply.value.id != d.liveAccount.value then
      (Disarmed(d).(preview := None, account := None, connected := false), false)
    else (d.(account := Some(reply.value)), true)
  }

  // ---- the durable rows ----

  predicate UncertainStatus(status: string) { status == "submitting" || status == "unknown" }

  predicate Uncertain(row: Row) { UncertainStatus(row.status) }

  predicate RecoveryRequired(rows: seq<Row>) { exists i :: 0 <= i < |rows| && Uncertain(rows[i]) }

  /** Index of the row with this key, or |rows|. */
  function FindKey(rows: seq<Row>, key: string): (i: nat)
    ensures i <= |rows|
    ensures i < |rows| ==> rows[i].key == key
    ensures forall j :: 0 <= j < i ==> rows[j].key != key
  {
    if rows == [] || rows[0].key == key then 0 else 1 + FindKey(rows[1..], key)
  }

  function Settled(row: Row, status: string, s: Option<Submission>, error: Option<string>): Row {
    row.(status := status, lastError := error,
         brokerOrderId := if s.Some? then Some(s.value.orderId) else None,
         permId := if s.Some? then s.value.permId else None)
  }

  function LookedUp(lookups: map<string, Lookup>, ref: string): Lookup {
    if ref in lookups then lookups[ref] else NotFound
  }

  function RecoveredRow(row: Row, answer: Lookup): Row {
    match answer
    case Found(s) => Settled(row, s.status, Some(s), None)
    case _ => if row.status == "submitting" then Settled(row, "unknown", None, Some("recovery_lookup_empty")) else row
  }

  predicate Recoverable(row: Row, account: string, clientId: nat) {
    row.account == account && row.clientId == clientId && Uncertain(row)
  }

  /** Rows from i on after recovery, and whether no lookup raised on the way. */
  function RecoveredRows(rows: seq<Row>, account: string, clientId: nat, lookups: map<string, Lookup>, i: nat)
    : (r: (seq<Row>, bool))
    requires i <= |rows|
    ensures |r.0| == |rows| && r.0[..i] == rows[..i]
    decreases |rows| - i
  {
    if i == |rows| then (rows, true)
    else if !Recoverable(rows[i], account, clientId) then RecoveredRows(rows, account, clientId, lookups, i + 1)
    else
      var answer := LookedUp(lookups, rows[i].orderRef);
      if answer.LookupRaised? then (rows, false)
      else RecoveredRows(rows[i := RecoveredRow(rows[i], answer)], account, clientId, lookups, i + 1)
  }

  function NewRow(cfg: Config, request: Request, intent: Intent, ref: string): Row {
    Row(OrderKey(request.account, cfg.clientId, request.clientOrderId), request.account, cfg.clientId,
        request.clientOrderId, intent, "submitting", None, None, ref, None)
  }

  // ---- submit: checks, write-ahead, broker call, settlement ----

  /** How far a submit command gets before any broker write. */
  datatype Gate =
    | Refused(desk: Desk)
    | Conflict(desk: Desk, index: nat)
    | Replay(desk: Desk, index: nat)
    | Unresolved(desk: Desk, index: nat)
    | Ready(desk: Desk, row: Row, request: Request)

  /** The desk after every check that precedes the write, and whether all of them passed. */
  function Authorised(cfg: Config, d: Desk, rows: seq<Row>, o: SubmitOrder): (r: (Desk, bool))
    ensures r.1 ==> d.preview.Some? && r.0.account.Some?
  {
    if !d.connected || d.account.None? || !Bound(d) || RecoveryRequired(rows) || !d.armed then (d, false)
    else if d.preview.None? || o.token != d.preview.value.token then (d, false)
    else if d.preview.value.mask != Mask(d.account.value.id) then (d, false)
    else if o.at > d.preview.value.expiresAt then (d.(preview := None), false)
    else if o.phrase != d.preview.value.phrase || o.raw.None? then (d, false)
    else
      var (d1, current) := Refreshed(d, o.refresh);
      if !current then (d1, false)
      else
        var normal := Normalize(d1.account.value, cfg.maxNotional, o.raw.value);
        (d1,
         normal.Ok? && normal.value.1 == d.preview.value.intent
         && o.whatIf.Got? && o.whatIf.value.accepted && o.whatIf.value.warning == d.preview.value.warning)
  }

  /** What the ledger makes of an authorised order: a new row, or the one already there. */
  function GateOf(cfg: Config, d: Desk, rows: seq<Row>, preview: Preview): (g: Gate)
    requires d.account.Some?
    ensures (g.Conflict? || g.Replay? || g.Unresolved?) ==> g.index < |rows|
  {
    var row := NewRow(cfg, preview.request, preview.intent,
                      OrderRef(d.account.value.id, cfg.clientId, preview.request.clientOrderId));
    var i := FindKey(rows, row.key);
    if i == |rows| then Ready(Disarmed(d), row, preview.request)
    else if rows[i].intent != preview.intent then Conflict(d, i)
    else if !Uncertain(rows[i]) then Replay(Disarmed(d).(preview := None), i)
    else Unresolved(d, i)
  }

  function OpenGate(cfg: Config, d: Desk, rows: seq<Row>, o: SubmitOrder): (g: Gate)
    ensures (g.Conflict? || g.Replay? || g.Unresolved?) ==> g.index < |rows|
  {
    var (d1, passed) := Authorised(cfg, d, rows, o);
    if passed then GateOf(cfg, d1, rows, d.preview.value) else Refused(d1)
  }

  function ReplyRow(row: Row, reply: SubmitReply): Row {
    match reply
    case Accepted(s) => Settled(row, s.status, Some(s), None)
    case Rejected(code) => Settled(row, "rejected", None, Some(code))
    case TimedOut => Settled(row, "unknown", None, Some("broker_timeout"))
    case Raised => Settled(row, "unknown", None, Some("broker_exception"))
  }

  /** From the committed row on: the call to the broker, and the row settled by its reply. */
  function AfterWriteAhead(cfg: Config, w: World, request: Request, o: SubmitOrder): World
    requires w.rows != []
  {
    var last := |w.rows| - 1;
    var sent := w.sent + [SentOrder(request, cfg.clientId, w.rows[last].orderRef)];
    var d := w.desk.(preview := None);
    if o.crash.CrashBeforeBroker? then w.(desk := FreshDesk(o.crash.live))
    else if o.crash.CrashAfterBroker? then w.(desk := FreshDesk(o.crash.live), sent := sent)
    else w.(desk := if o.reply.Accepted? then Refreshed(d, o.receipt).0 else d,
            rows := w.rows[last := ReplyRow(w.rows[last], o.reply)], sent := sent)
  }

  function PastGate(cfg: Config, w: World, g: Gate, o: SubmitOrder): World
    requires (g.Conflict? || g.Replay? || g.Unresolved?) ==> g.index < |w.rows|
  {
    match g
    case Refused(d) => w.(desk := d)
    case Conflict(d, _) => w.(desk := d)
    case Replay(d, _) => w.(desk := Refreshed(d, o.receipt).0)
    case Unresolved(d, i) =>
      var answer := LookedUp(o.lookups, w.rows[i].orderRef);
      if answer.LookupRaised? then w.(desk := d)
      else w.(desk := d.(preview := None), rows := w.rows[i := RecoveredRow(w.rows[i], answer)])
    case Ready(d, row, request) => AfterWriteAhead(cfg, w.(desk := d, rows := w.rows + [row]), request, o)
  }

  function AfterSubmit(cfg: Config, w: World, o: SubmitOrder): World {
    PastGate(cfg, w, OpenGate(cfg, w.desk, w.rows, o), o)
  }

  // ---- the other commands ----

  /** How a command goes on after its work in memory: it raises, answers, or recovers the uncertain rows first. */
  datatype Next = Raises | Answers | Recovers

  function ConnectStart(d: Desk, reply: Reply<Account>): (Desk, Next) {
    var d0 := Disarmed(d).(connected := false, account := None, preview := None);
    if reply.Failed? || (d0.liveAccount.Some? && reply.value.id != d0.liveAccount.value) then (d0, Raises)
    else
      var d1 := d0.(account := Some(reply.value), connected := true);
      (d1, if Bound(d1) then Recovers else Answers)
  }

  function BindStart(d: Desk, mask: string): (Desk, Next) {
    if !d.connected || d.account.None? || Bound(d) || mask != Mask(d.account.value.id) then (d, Raises)
    else (Disarmed(d).(liveAccount := Some(d.account.value.id), preview := None), Recovers)
  }

  function RecoverStart(d: Desk): (Desk, Next) {
    if !d.connected || d.account.None? || !Bound(d) then (d, Raises)
    else (Disarmed(d).(preview := None), Recovers)
  }

  // Each pairs the new world with whether the command answered instead of raising.

  function Recovering(cfg: Config, w: World, d: Desk, lookups: map<string, Lookup>): (World, bool)
    requires d.account.Some?
  {
    var (rows, complete) := RecoveredRows(w.rows, d.account.value.id, cfg.clientId, lookups, 0);
    (w.(desk := d, rows := rows), complete)
  }

  function AfterStart(cfg: Config, w: World, start: (Desk, Next), lookups: map<string, Lookup>): (World, bool)
    requires start.1.Recovers? ==> start.0.account.Some?
  {
    match start.1
    case Raises => (w.(desk := start.0), false)
    case Answers => (w.(desk := start.0), true)
    case Recovers => Recovering(cfg, w, start.0, lookups)
  }

  function AfterConnect(cfg: Config, w: World, reply: Reply<Account>, lookups: map<string, Lookup>): (World, bool) {
    AfterStart(cfg, w, ConnectStart(w.desk, reply), lookups)
  }

  function AfterBind(cfg: Config, w: World, mask: string, lookups: map<string, Lookup>): (World, bool) {
    AfterStart(cfg, w, BindStart(w.desk, mask), lookups)
  }

  function AfterArm(cfg: Config, w: World, mask: string, at: real): (World, bool) {
    var d := w.desk;
    if !d.connected || d.account.None? || !Bound(d) || d.account.value.readOnly || mask != Mask(d.account.value.id)
    then (w, false)
    else (w.(desk := d.(armed := true, armedUntil := Some(at + cfg.armTtl)), arms := w.arms + 1), true)
  }

  function AfterPreview(cfg: Config, w: World, raw: Option<RawOrder>, refresh: Reply<Account>,
                        whatIf: Reply<WhatIf>, at: real, token: string): (World, bool) {
    var d := w.desk;
    if !d.connected || d.account.None? || !Bound(d) || RecoveryRequired(w.rows) then (w, false)
    else
      var (d1, current) := Refreshed(d, refresh);
      if !current || raw.None? then (w.(desk := d1), false)
      else
        var normal := Normalize(d1.account.value, cfg.maxNotional, raw.value);
        if normal.Err? || whatIf.Failed? || !whatIf.value.accepted then (w.(desk := d1), false)
        else
          var (request, intent) := normal.value;
          var warning := whatIf.value.warning;
          var mask := Mask(d1.account.value.id);
          var phrase := Phrase(mask, request.operation, request.quantity, request.symbol, request.limitCents,
                               token, if warning == Some("") then None else warning);
          var preview := Preview(token, mask, intent, request, warning, phrase, at + cfg.previewTtl);
          (w.(desk := d1.(preview := Some(preview))), true)
  }

  function AfterRecover(cfg: Config, w: World, lookups: map<string, Lookup>): (World, bool) {
    AfterStart(cfg, w, RecoverStart(w.desk), lookups)
  }

  function AfterOp(cfg: Config, w: World, op: Op): (World, bool) {
    match op
    case Snapshot => (w, true)
    case Connect(reply, lookups) => AfterConnect(cfg, w, reply, lookups)
    case Bind(mask, lookups) => AfterBind(cfg, w, mask, lookups)
    case Arm(mask, at) => AfterArm(cfg, w, mask, at)
    case DisarmDesk => (w.(desk := Disarmed(w.desk)), true)
    case PreviewOrder(raw, refresh, whatIf, at, token) => AfterPreview(cfg, w, raw, refresh, whatIf, at, token)
    case Submit(order) => (AfterSubmit(cfg, w, order), false)
    case Recover(lookups) => AfterRecover(cfg, w, lookups)
    case Disconnect => (w.(desk := Disarmed(w.desk).(connected := false, preview := None)), true)
    case Restart(live) => (w.(desk := FreshDesk(live)), false)
  }

  predicate AnswersWithSnapshot(op: Op) { !op.Bind? && !op.PreviewOrder? && !op.Submit? && !op.Restart? }

  /** One command of `handle`: read health, act, and read it again for a closing snapshot. */
  function Step(cfg: Config, w: World, c: Command): World {
    var (w1, answered) := AfterOp(cfg, w.(desk := Synced(w.desk, c.before)), c.op);
    if answered && AnswersWithSnapshot(c.op) then w1.(desk := Synced(w1.desk, c.after)) else w1
  }

  function Run(cfg: Config, w: World, commands: seq<Command>): World
    decreases |commands|
  {
    if commands == [] then w
    else Step(cfg, Run(cfg, w, commands[..|commands| - 1]), commands[|commands| - 1])
  }
}
