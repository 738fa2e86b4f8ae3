/** What every run of the live desk keeps: at most one broker submission per order
    identity, write-ahead rows, one uncertain row, one submission per arming. */
module ExecutionDeskSafety {
  import opened Texts
  import opened ExecutionDesk

  // ---- identity: the ledger key can be read back ----

  /** Accounts may hold colons; the client ID and the order ID cannot, so the key splits from the right. */
  lemma KeyDecodes(a1: string, c1: nat, o1: string, a2: string, c2: nat, o2: string)
    requires ValidClientOrderId(o1) && ValidClientOrderId(o2)
    requires OrderKey(a1, c1, o1) == OrderKey(a2, c2, o2)
    ensures a1 == a2 && c1 == c2 && o1 == o2
  {
    var h1, h2 := "live:" + a1 + ":" + DecimalText(c1), "live:" + a2 + ":" + DecimalText(c2);
    assert OrderKey(a1, c1, o1) == h1 + [':'] + o1 && OrderKey(a2, c2, o2) == h2 + [':'] + o2;
    LastSeparatorSplits(h1, o1, h2, o2, ':');
    DecimalTextIsDigits(c1);
    DecimalTextIsDigits(c2);
    assert h1 == ("live:" + a1) + [':'] + DecimalText(c1) && h2 == ("live:" + a2) + [':'] + DecimalText(c2);
    LastSeparatorSplits("live:" + a1, DecimalText(c1), "live:" + a2, DecimalText(c2), ':');
    assert a1 == ("live:" + a1)[5..] && a2 == ("live:" + a2)[5..];
    ParseUndoesDecimalText(c1);
    ParseUndoesDecimalText(c2);
  }

  lemma RefDecodes(a1: string, c1: nat, o1: string, a2: string, c2: nat, o2: string)
    requires ValidClientOrderId(o1) && ValidClientOrderId(o2)
    requires OrderRef(a1, c1, o1) == OrderRef(a2, c2, o2)
    ensures a1 == a2 && c1 == c2 && o1 == o2
  {
    assert OrderKey(a1, c1, o1) == OrderRef(a1, c1, o1)[3..];
    assert OrderKey(a2, c2, o2) == OrderRef(a2, c2, o2)[3..];
    KeyDecodes(a1, c1, o1, a2, c2, o2);
  }

  /** The confirmation phrases compare masks only. Two accounts share one exactly when they are as long as each
      other and, beyond four characters, agree in the first and the last four. */
  lemma MasksAgreeIff(a: string, b: string)
    ensures Mask(a) == Mask(b)
            <==> |a| == |b| && (|a| > 4 ==> a[0] == b[0] && a[|a| - 4..] == b[|b| - 4..])
  {
    assert |Mask(a)| == |a| && |Mask(b)| == |b|;
    if |a| > 4 {
      assert Mask(a)[0] == a[0] && Mask(a)[|a| - 4..] == a[|a| - 4..];
    }
    if |b| > 4 {
      assert Mask(b)[0] == b[0] && Mask(b)[|b| - 4..] == b[|b| - 4..];
    }
  }

  lemma MaskIsNotInjective()
    ensures exists a, b :: a != b && Mask(a) == Mask(b)
  {
    MasksAgreeIff("U1114567", "U2224567");
    assert "U1114567"[4..] == "4567" == "U2224567"[4..];
    assert "U1114567"[1] != "U2224567"[1];
  }

  // ---- invariants ----

  predicate Describes(intent: Intent, r: Request) {
    intent == Intent(r.clientOrderId, r.symbol, r.contract, r.operation, r.quantity, r.limitCents,
                     r.limitCents * r.quantity)
    && r.side == (if r.operation.OpenLong? then Buy else Sell)
    && ValidClientOrderId(r.clientOrderId)
  }

  /** A live preview or an armed desk is connected to its bound account, whose ID the preview carries. */
  predicate DeskInv(d: Desk) {
    (d.armed ==> d.connected && Bound(d) && d.armedUntil.Some?)
    && (d.preview.Some? ==>
          d.connected && Bound(d)
          && d.preview.value.request.account == d.account.value.id
          && d.preview.value.mask == Mask(d.account.value.id)
          && Describes(d.preview.value.intent, d.preview.value.request))
  }

  predicate RowNamed(row: Row) {
    ValidClientOrderId(row.clientOrderId)
    && row.key == OrderKey(row.account, row.clientId, row.clientOrderId)
    && row.orderRef == OrderRef(row.account, row.clientId, row.clientOrderId)
  }

  predicate SentNamed(s: SentOrder) {
    ValidClientOrderId(s.request.clientOrderId)
    && s.orderRef == OrderRef(s.request.account, s.clientId, s.request.clientOrderId)
  }

  predicate HasRow(rows: seq<Row>, ref: string) { exists i :: 0 <= i < |rows| && rows[i].orderRef == ref }

  predicate RowsNamed(rows: seq<Row>) { forall i :: 0 <= i < |rows| ==> RowNamed(rows[i]) }

  predicate SentsNamed(sent: seq<SentOrder>) { forall k :: 0 <= k < |sent| ==> SentNamed(sent[k]) }

  predicate DistinctKeys(rows: seq<Row>) { forall i, j :: 0 <= i < j < |rows| ==> rows[i].key != rows[j].key }

  predicate Covered(rows: seq<Row>, sent: seq<SentOrder>) {
    forall k :: 0 <= k < |sent| ==> HasRow(rows, sent[k].orderRef)
  }

  predicate DistinctRefs(sent: seq<SentOrder>) {
    forall j, k :: 0 <= j < k < |sent| ==> sent[j].orderRef != sent[k].orderRef
  }

  /** Rows have distinct keys; every submission has its row; no two submissions share a reference. */
  predicate Durable(rows: seq<Row>, sent: seq<SentOrder>) {
    RowsNamed(rows) && DistinctKeys(rows) && SentsNamed(sent) && Covered(rows, sent) && DistinctRefs(sent)
  }

  predicate AtMostOneUncertain(rows: seq<Row>) {
    forall i, j :: 0 <= i < |rows| && 0 <= j < |rows| && Uncertain(rows[i]) && Uncertain(rows[j]) ==> i == j
  }

  // ---- steps ----

  lemma SyncKeepsDeskInv(d: Desk, h: Health)
    requires DeskInv(d)
    ensures DeskInv(Synced(d, h))
  {}

  lemma RefreshKeepsDeskInv(d: Desk, reply: Reply<Account>)
    requires DeskInv(d)
    ensures DeskInv(Refreshed(d, reply).0)
    ensures Refreshed(d, reply).1 ==>
              Refreshed(d, reply).0 == d.(account := Some(reply.value)) && (Bound(d) ==> Bound(Refreshed(d, reply).0))
  {}

  /** Recovery rewrites only the status of rows that were uncertain. */
  lemma {:induction false} RecoveryKeepsRows(rows: seq<Row>, account: string, clientId: nat,
                                             lookups: map<string, Lookup>, i: nat)
    requires i <= |rows|
    ensures var r := RecoveredRows(rows, account, clientId, lookups, i).0;
            |r| == |rows|
            && forall j :: 0 <= j < |r| ==>
                 r[j] == rows[j].(status := r[j].status, brokerOrderId := r[j].brokerOrderId,
                                  permId := r[j].permId, lastError := r[j].lastError)
                 && (r[j] != rows[j] ==> Recoverable(rows[j], account, clientId))
    decreases |rows| - i
  {
    if i < |rows| {
      if !Recoverable(rows[i], account, clientId) {
        RecoveryKeepsRows(rows, account, clientId, lookups, i + 1);
      } else if !LookedUp(lookups, rows[i].orderRef).LookupRaised? {
        var next := rows[i := RecoveredRow(rows[i], LookedUp(lookups, rows[i].orderRef))];
        RecoveryKeepsRows(next, account, clientId, lookups, i + 1);
        var r := RecoveredRows(next, account, clientId, lookups, i + 1).0;
        assert r[..i + 1] == next[..i + 1];
        assert r[i] == r[..i + 1][i] == next[i];
      }
    }
  }

  lemma CoverGrows(rows: seq<Row>, r: seq<Row>, sent: seq<SentOrder>)
    requires Covered(rows, sent) && |rows| <= |r|
    requires forall j :: 0 <= j < |rows| ==> r[j].orderRef == rows[j].orderRef
    ensures Covered(r, sent)
  {
    forall k | 0 <= k < |sent| ensures HasRow(r, sent[k].orderRef) {
      assert HasRow(rows, sent[k].orderRef);
      var i :| 0 <= i < |rows| && rows[i].orderRef == sent[k].orderRef;
      assert r[i].orderRef == sent[k].orderRef;
    }
  }

  lemma NormalizedDescribes(account: Account, maxNotional: real, raw: RawOrder)
    ensures var n := Normalize(account, maxNotional, raw);
            n.Ok? ==> Describes(n.value.1, n.value.0) && n.value.0.account == account.id && n.value.0.quantity > 0
  {}

  lemma NormalFixesRequest(account: Account, maxNotional: real, raw: RawOrder, intent: Intent, r: Request)
    requires Describes(intent, r) && r.account == account.id
    requires Normalize(account, maxNotional, raw).Ok? && Normalize(account, maxNotional, raw).value.1 == intent
    ensures Normalize(account, maxNotional, raw).value.0 == r
  {
    NormalizedDescribes(account, maxNotional, raw);
  }

  /** Past the recovery check no row is uncertain, so the gate never meets an unresolved order. */
  lemma UnresolvedIsUnreachable(cfg: Config, d: Desk, rows: seq<Row>, o: SubmitOrder)
    ensures !OpenGate(cfg, d, rows, o).Unresolved?
    ensures OpenGate(cfg, d, rows, o).Ready? ==> !RecoveryRequired(rows)
  {}

  /** Authorised: armed, previewed, confirmed in time, nothing uncertain, and the previewed request is
      what the order normalises to on the account just read. */
  lemma AuthorisedFacts(cfg: Config, d: Desk, rows: seq<Row>, o: SubmitOrder)
    requires DeskInv(d)
    ensures var (d1, passed) := Authorised(cfg, d, rows, o);
            DeskInv(d1) && (d1.armed ==> d.armed)
            && (passed ==>
                  d.armed && d.preview.Some? && o.phrase == d.preview.value.phrase
                  && o.at <= d.preview.value.expiresAt && !RecoveryRequired(rows)
                  && o.refresh.Got? && o.raw.Some? && d1 == d.(account := Some(o.refresh.value))
                  && d.liveAccount == Some(d.preview.value.request.account)
                  && o.refresh.value.id == d.preview.value.request.account
                  && Normalize(o.refresh.value, cfg.maxNotional, o.raw.value)
                     == Ok((d.preview.value.request, d.preview.value.intent)))
  {
    RefreshKeepsDeskInv(d, o.refresh);
    if Authorised(cfg, d, rows, o).1 {
      NormalFixesRequest(o.refresh.value, cfg.maxNotional, o.raw.value,
                         d.preview.value.intent, d.preview.value.request);
    }
  }

  /** A row for a previewed request names it. */
  lemma NewRowIsNamed(cfg: Config, d: Desk)
    requires DeskInv(d) && d.preview.Some?
    ensures var r := d.preview.value.request;
            RowNamed(NewRow(cfg, r, d.preview.value.intent, OrderRef(r.account, cfg.clientId, r.clientOrderId)))
  {
  }

  lemma ReadyRow(cfg: Config, d: Desk, rows: seq<Row>, preview: Preview)
    requires d.account.Some? && d.account.value.id == preview.request.account && GateOf(cfg, d, rows, preview).Ready?
    ensures var g := GateOf(cfg, d, rows, preview);
            g.request == preview.request && g.desk == Disarmed(d) && FindKey(rows, g.row.key) == |rows|
            && g.row == NewRow(cfg, preview.request, preview.intent,
                               OrderRef(preview.request.account, cfg.clientId, preview.request.clientOrderId))
  {
    var account := d.account.value.id;
    assert account == preview.request.account;
    var ref := OrderRef(account, cfg.clientId, preview.request.clientOrderId);
    var row := NewRow(cfg, preview.request, preview.intent, ref);
    assert GateOf(cfg, d, rows, preview) == Ready(Disarmed(d), row, preview.request);
  }

  lemma ReadyMeansPassed(cfg: Config, d: Desk, rows: seq<Row>, o: SubmitOrder)
    requires OpenGate(cfg, d, rows, o).Ready?
    ensures Authorised(cfg, d, rows, o).1 && d.preview.Some? && Authorised(cfg, d, rows, o).0.account.Some?
    ensures OpenGate(cfg, d, rows, o) == GateOf(cfg, Authorised(cfg, d, rows, o).0, rows, d.preview.value)
  {
  }

  /** An open gate hands on the previewed request, its new row, and a disarmed desk. */
  lemma GateOpens(cfg: Config, d: Desk, rows: seq<Row>, o: SubmitOrder)
    requires DeskInv(d) && OpenGate(cfg, d, rows, o).Ready?
    ensures var g := OpenGate(cfg, d, rows, o);
            Authorised(cfg, d, rows, o).1 && d.preview.Some?
            && g.request == d.preview.value.request
            && g.desk == Disarmed(Authorised(cfg, d, rows, o).0)
            && g.row == NewRow(cfg, g.request, d.preview.value.intent,
                               OrderRef(g.request.account, cfg.clientId, g.request.clientOrderId))
            && FindKey(rows, g.row.key) == |rows|
            && RowNamed(g.row)
  {
    ReadyMeansPassed(cfg, d, rows, o);
    AuthorisedFacts(cfg, d, rows, o);
    ReadyRow(cfg, Authorised(cfg, d, rows, o).0, rows, d.preview.value);
    NewRowIsNamed(cfg, d);
  }

  lemma FreshKeyFreshRef(rows: seq<Row>, sent: seq<SentOrder>, row: Row)
    requires Durable(rows, sent) && RowNamed(row) && FindKey(rows, row.key) == |rows|
    ensures forall k :: 0 <= k < |sent| ==> sent[k].orderRef != row.orderRef
  {
    forall k | 0 <= k < |sent| ensures sent[k].orderRef != row.orderRef {
      assert HasRow(rows, sent[k].orderRef);
      var i :| 0 <= i < |rows| && rows[i].orderRef == sent[k].orderRef;
      assert rows[i].key != row.key;
      if rows[i].orderRef == row.orderRef {
        RefDecodes(rows[i].account, rows[i].clientId, rows[i].clientOrderId,
                   row.account, row.clientId, row.clientOrderId);
      }
    }
  }

  lemma AppendKeepsDurable(rows: seq<Row>, sent: seq<SentOrder>, row: Row)
    requires Durable(rows, sent) && RowNamed(row) && FindKey(rows, row.key) == |rows|
    ensures Durable(rows + [row], sent)
  {
    CoverGrows(rows, rows + [row], sent);
  }

  lemma SendKeepsDurable(rows: seq<Row>, sent: seq<SentOrder>, row: Row, s: SentOrder)
    requires Durable(rows, sent) && RowNamed(row) && FindKey(rows, row.key) == |rows|
    requires SentNamed(s) && s.orderRef == row.orderRef
    ensures Durable(rows + [row], sent + [s])
  {
    AppendKeepsDurable(rows, sent, row);
    FreshKeyFreshRef(rows, sent, row);
    assert (rows + [row])[|rows|].orderRef == s.orderRef;
    CoverOneMore(rows + [row], sent, s);
  }

  lemma CoverOneMore(rows: seq<Row>, sent: seq<SentOrder>, s: SentOrder)
    requires Covered(rows, sent) && HasRow(rows, s.orderRef)
    ensures Covered(rows, sent + [s])
  {
    forall k | 0 <= k < |sent + [s]| ensures HasRow(rows, (sent + [s])[k].orderRef) {
      if k < |sent| { assert HasRow(rows, sent[k].orderRef); }
    }
  }

  function ArmedCount(d: Desk): nat { if d.armed then 1 else 0 }

  /** What any stretch of commands keeps between two worlds. */
  predicate Keeps(w: World, w': World) {
    DeskInv(w'.desk) && Durable(w'.rows, w'.sent)
    && (AtMostOneUncertain(w.rows) ==> AtMostOneUncertain(w'.rows))
    && w.sent <= w'.sent
    && |w'.sent| + ArmedCount(w'.desk) + w.arms <= |w.sent| + ArmedCount(w.desk) + w'.arms
  }

  lemma SendKeeps(cfg: Config, w: World, o: SubmitOrder, row': Row, d': Desk)
    requires DeskInv(w.desk) && Durable(w.rows, w.sent) && OpenGate(cfg, w.desk, w.rows, o).Ready?
    requires var row := OpenGate(cfg, w.desk, w.rows, o).row;
             row' == row.(status := row'.status, brokerOrderId := row'.brokerOrderId, permId := row'.permId,
                          lastError := row'.lastError)
    requires DeskInv(d') && !d'.armed
    ensures var g := OpenGate(cfg, w.desk, w.rows, o);
            Keeps(w, World(d', w.rows + [row'], w.sent, w.arms))
            && Keeps(w, World(d', w.rows + [row'],
                              w.sent + [SentOrder(g.request, cfg.clientId, g.row.orderRef)], w.arms))
  {
    GateOpens(cfg, w.desk, w.rows, o);
    UnresolvedIsUnreachable(cfg, w.desk, w.rows, o);
    AuthorisedFacts(cfg, w.desk, w.rows, o);
    var g := OpenGate(cfg, w.desk, w.rows, o);
    assert RowNamed(row');
    AppendKeepsDurable(w.rows, w.sent, row');
    SendKeepsDurable(w.rows, w.sent, row', SentOrder(g.request, cfg.clientId, g.row.orderRef));
  }

  /** The desk after the write-ahead row and the broker call. */
  function DeskAfterSend(d: Desk, o: SubmitOrder): Desk {
    if o.crash.CrashBeforeBroker? || o.crash.CrashAfterBroker? then FreshDesk(o.crash.live)
    else if o.reply.Accepted? then Refreshed(d.(preview := None), o.receipt).0 else d.(preview := None)
  }

  /** The row is stored either way; with it the broker has the order or not, and an answer only settles the row. */
  lemma WriteAheadIsOneOf(cfg: Config, w: World, d: Desk, row: Row, request: Request, o: SubmitOrder)
    ensures var sent := w.sent + [SentOrder(request, cfg.clientId, row.orderRef)];
            var w' := AfterWriteAhead(cfg, w.(desk := d, rows := w.rows + [row]), request, o);
            w' == World(DeskAfterSend(d, o), w.rows + [row], w.sent, w.arms)
            || w' == World(DeskAfterSend(d, o), w.rows + [row], sent, w.arms)
            || w' == World(DeskAfterSend(d, o), w.rows + [ReplyRow(row, o.reply)], sent, w.arms)
  {
    assert (w.rows + [row])[|w.rows| := ReplyRow(row, o.reply)] == w.rows + [ReplyRow(row, o.reply)];
  }

  lemma WriteAheadKeeps(cfg: Config, w: World, o: SubmitOrder)
    requires DeskInv(w.desk) && Durable(w.rows, w.sent) && OpenGate(cfg, w.desk, w.rows, o).Ready?
    ensures Keeps(w, AfterSubmit(cfg, w, o))
  {
    var g := OpenGate(cfg, w.desk, w.rows, o);
    var d := DeskAfterSend(g.desk, o);
    SendKeeps(cfg, w, o, g.row, d);
    SendKeeps(cfg, w, o, ReplyRow(g.row, o.reply), d);
    WriteAheadIsOneOf(cfg, w, g.desk, g.row, g.request, o);
    assert AfterSubmit(cfg, w, o) == AfterWriteAhead(cfg, w.(desk := g.desk, rows := w.rows + [g.row]), g.request, o);
  }

  lemma SubmitKeeps(cfg: Config, w: World, o: SubmitOrder)
    requires DeskInv(w.desk) && Durable(w.rows, w.sent)
    ensures Keeps(w, AfterSubmit(cfg, w, o))
  {
    var g := OpenGate(cfg, w.desk, w.rows, o);
    if g.Ready? {
      WriteAheadKeeps(cfg, w, o);
    } else {
      UnresolvedIsUnreachable(cfg, w.desk, w.rows, o);
      AuthorisedFacts(cfg, w.desk, w.rows, o);
      if g.Replay? { RefreshKeepsDeskInv(g.desk, o.receipt); }
    }
  }

  lemma RecoveringKeeps(cfg: Config, w: World, d: Desk, lookups: map<string, Lookup>)
    requires d.account.Some? && DeskInv(d) && !d.armed && Durable(w.rows, w.sent)
    ensures Keeps(w, Recovering(cfg, w, d, lookups).0)
  {
    RecoveryKeepsRows(w.rows, d.account.value.id, cfg.clientId, lookups, 0);
    var r := RecoveredRows(w.rows, d.account.value.id, cfg.clientId, lookups, 0).0;
  }

  lemma ConnectKeeps(cfg: Config, w: World, reply: Reply<Account>, lookups: map<string, Lookup>)
    requires DeskInv(w.desk) && Durable(w.rows, w.sent)
    ensures Keeps(w, AfterConnect(cfg, w, reply, lookups).0)
  {
    if reply.Got? {
      var d := Disarmed(w.desk).(connected := true, account := Some(reply.value), preview := None);
      RecoveringKeeps(cfg, w, d, lookups);
    }
  }

  lemma BindKeeps(cfg: Config, w: World, mask: string, lookups: map<string, Lookup>)
    requires DeskInv(w.desk) && Durable(w.rows, w.sent)
    ensures Keeps(w, AfterBind(cfg, w, mask, lookups).0)
  {
    if w.desk.account.Some? {
      var d := Disarmed(w.desk).(liveAccount := Some(w.desk.account.value.id), preview := None);
      RecoveringKeeps(cfg, w, d, lookups);
    }
  }

  lemma RecoverKeeps(cfg: Config, w: World, lookups: map<string, Lookup>)
    requires DeskInv(w.desk) && Durable(w.rows, w.sent)
    ensures Keeps(w, AfterRecover(cfg, w, lookups).0)
  {
    if w.desk.account.Some? {
      RecoveringKeeps(cfg, w, Disarmed(w.desk).(preview := None), lookups);
    }
  }

  lemma PreviewKeeps(cfg: Config, w: World, raw: Option<RawOrder>, refresh: Reply<Account>,
                     whatIf: Reply<WhatIf>, at: real, token: string)
    requires DeskInv(w.desk) && Durable(w.rows, w.sent)
    ensures Keeps(w, AfterPreview(cfg, w, raw, refresh, whatIf, at, token).0)
  {
    RefreshKeepsDeskInv(w.desk, refresh);
    var (d1, current) := Refreshed(w.desk, refresh);
    if current && d1.account.Some? && raw.Some? {
      NormalizedDescribes(d1.account.value, cfg.maxNotional, raw.value);
    }
  }

  lemma OpKeeps(cfg: Config, w: World, op: Op)
    requires DeskInv(w.desk) && Durable(w.rows, w.sent)
    ensures Keeps(w, AfterOp(cfg, w, op).0)
  {
    match op {
      case Connect(reply, lookups) => ConnectKeeps(cfg, w, reply, lookups);
      case Bind(mask, lookups) => BindKeeps(cfg, w, mask, lookups);
      case Recover(lookups) => RecoverKeeps(cfg, w, lookups);
      case PreviewOrder(raw, refresh, whatIf, at, token) => PreviewKeeps(cfg, w, raw, refresh, whatIf, at, token);
      case Submit(o) => SubmitKeeps(cfg, w, o);
      case _ =>
    }
  }

  /** One command keeps every invariant, and pays for a submission with an arm command. */
  lemma StepKeeps(cfg: Config, w: World, c: Command)
    requires DeskInv(w.desk) && Durable(w.rows, w.sent)
    ensures Keeps(w, Step(cfg, w, c))
  {
    SyncKeepsDeskInv(w.desk, c.before);
    var w0 := w.(desk := Synced(w.desk, c.before));
    OpKeeps(cfg, w0, c.op);
    SyncKeepsDeskInv(AfterOp(cfg, w0, c.op).0.desk, c.after);
  }

  // ---- runs ----

  /** Over every run of one desk, its crashes and restarts included: one uncertain row at most, and
      no more submissions than arm commands. */
  lemma {:induction false} RunKeeps(cfg: Config, w: World, commands: seq<Command>)
    requires DeskInv(w.desk) && Durable(w.rows, w.sent)
    ensures Keeps(w, Run(cfg, w, commands))
    decreases |commands|
  {
    if commands != [] {
      var before := commands[..|commands| - 1];
      RunKeeps(cfg, w, before);
      StepKeeps(cfg, Run(cfg, w, before), commands[|commands| - 1]);
    }
  }

  predicate DistinctOrders(sent: seq<SentOrder>) {
    forall j, k :: 0 <= j < k < |sent| ==>
      !(sent[j].request.account == sent[k].request.account && sent[j].clientId == sent[k].clientId
        && sent[j].request.clientOrderId == sent[k].request.clientOrderId)
  }

  lemma DurableIsDistinct(rows: seq<Row>, sent: seq<SentOrder>)
    requires Durable(rows, sent)
    ensures DistinctOrders(sent)
  {}

  /** A command that reaches the broker: one previewed order, on an armed and unexpired desk with nothing
      uncertain, priced and sized against the account it has just re-read, recorded before it is sent. */
  lemma SubmissionIsAuthorised(cfg: Config, w: World, c: Command)
    requires DeskInv(w.desk) && Step(cfg, w, c).sent != w.sent
    ensures var d := Synced(w.desk, c.before);
            c.op.Submit? && d.armed && c.before.now < d.armedUntil.value && d.preview.Some?
            && !RecoveryRequired(w.rows)
            && var r, o := d.preview.value.request, c.op.order;
               var ref := OrderRef(r.account, cfg.clientId, r.clientOrderId);
               var crashed := AfterSubmit(cfg, w.(desk := d), o.(crash := CrashBeforeBroker(None)));
               Step(cfg, w, c).sent == w.sent + [SentOrder(r, cfg.clientId, ref)]
               && d.liveAccount == Some(r.account) && d.account.value.id == r.account
               && !Step(cfg, w, c).desk.armed
               && o.refresh.Got? && o.refresh.value.id == r.account && o.raw.Some?
               && Normalize(o.refresh.value, cfg.maxNotional, o.raw.value) == Ok((r, d.preview.value.intent))
               && (r.operation.OpenLong? ==>
                     r.side == Buy && (r.limitCents * r.quantity) as real / 100.0 <= cfg.maxNotional
                     && Working(o.refresh.value.openOrders, r.symbol, Buy) <= 0.0)
               && (r.operation.ReduceLong? ==>
                     r.side == Sell && r.quantity as real <= HeldLong(o.refresh.value.positions, r.symbol)
                                                  - Working(o.refresh.value.openOrders, r.symbol, Sell))
               && crashed.sent == w.sent
               && crashed.rows == w.rows + [NewRow(cfg, r, d.preview.value.intent, ref)]
  {
    var d := Synced(w.desk, c.before);
    SyncKeepsDeskInv(w.desk, c.before);
    if c.op.Submit? {
      UnresolvedIsUnreachable(cfg, d, w.rows, c.op.order);
      assert OpenGate(cfg, d, w.rows, c.op.order).Ready?;
      GateOpens(cfg, d, w.rows, c.op.order);
      AuthorisedFacts(cfg, d, w.rows, c.op.order);
      var o' := c.op.order.(crash := CrashBeforeBroker(None));
      assert OpenGate(cfg, d, w.rows, o') == OpenGate(cfg, d, w.rows, c.op.order);
    }
  }
}
