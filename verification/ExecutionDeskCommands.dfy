/** When each command of the live desk takes effect (execution/ibkr_execution.py): exact conditions over the desk's
    memory, the rows, and what the broker and the operator say. */
module ExecutionDeskCommands {
  import opened Texts
  import opened ExecutionDesk
  import Safety = ExecutionDeskSafety

  // ---- health and expiry ----

  /** The arm is still good at a health reading: the link, if there was one, is up, and its time has not come. */
  predicate StaysArmed(d: Desk, h: Health) {
    d.armed && (d.connected ==> h.up) && (d.armedUntil.Some? ==> h.now < d.armedUntil.value)
  }

  /** A health reading drops the connection and the preview exactly with the link, and the arm also at its time; the
      accounts stay. */
  lemma HealthDrops(d: Desk, h: Health)
    ensures var s := Synced(d, h);
            s.connected == (d.connected && h.up) && s.armed == StaysArmed(d, h)
            && s.preview == (if d.connected && !h.up then None else d.preview)
            && s.account == d.account && s.liveAccount == d.liveAccount
            && (s.armed ==> s.armedUntil == d.armedUntil)
  {
  }

  /** The desk is connected to its bound account over a link that is up. */
  predicate Live(d: Desk, h: Health) {
    d.connected && h.up && d.account.Some? && d.liveAccount == Some(d.account.value.id)
  }

  predicate NothingUncertain(rows: seq<Row>) {
    forall i :: 0 <= i < |rows| ==> rows[i].status != "submitting" && rows[i].status != "unknown"
  }

  lemma NothingUncertainIff(rows: seq<Row>)
    ensures RecoveryRequired(rows) <==> !NothingUncertain(rows)
  {
    assert forall i :: 0 <= i < |rows| ==>
             (Uncertain(rows[i]) <==> rows[i].status == "submitting" || rows[i].status == "unknown");
  }

  predicate KeyIsNew(rows: seq<Row>, key: string) { forall i :: 0 <= i < |rows| ==> rows[i].key != key }

  lemma KeyIsNewIff(rows: seq<Row>, key: string)
    ensures FindKey(rows, key) == |rows| <==> KeyIsNew(rows, key)
  {
    if FindKey(rows, key) < |rows| { assert rows[FindKey(rows, key)].key == key; }
  }

  // ---- submitting ----

  /** The stored preview is confirmed in time, for an order that the account read again still gives, under an unchanged
      warning. */
  predicate Confirms(cfg: Config, d: Desk, o: SubmitOrder) {
    d.preview.Some? && d.account.Some? && o.raw.Some? && o.refresh.Got?
    && var p := d.preview.value;
       o.token == p.token && o.phrase == p.phrase && o.at <= p.expiresAt
       && o.refresh.value.id == d.account.value.id
       && Normalize(o.refresh.value, cfg.maxNotional, o.raw.value).Ok?
       && Normalize(o.refresh.value, cfg.maxNotional, o.raw.value).value.1 == p.intent
       && o.whatIf == Got(WhatIf(true, p.warning))
  }

  lemma AuthorisedIff(cfg: Config, d: Desk, rows: seq<Row>, o: SubmitOrder)
    requires Safety.DeskInv(d)
    ensures Authorised(cfg, d, rows, o).1 <==> d.armed && NothingUncertain(rows) && Confirms(cfg, d, o)
  {
    NothingUncertainIff(rows);
  }

  /** A command sends an order exactly when it is a submit to an armed desk on a live link, before the arm's time, with
      nothing uncertain and no row for the order yet, it confirms the preview, and no crash precedes the broker call. */
  lemma SendsIff(cfg: Config, w: World, c: Command)
    requires Safety.DeskInv(w.desk)
    ensures Step(cfg, w, c).sent != w.sent
       <==> c.op.Submit? && StaysArmed(w.desk, c.before) && NothingUncertain(w.rows)
            && Confirms(cfg, w.desk, c.op.order)
            && KeyIsNew(w.rows, OrderKey(w.desk.account.value.id, cfg.clientId,
                                         w.desk.preview.value.request.clientOrderId))
            && !c.op.order.crash.CrashBeforeBroker?
  {
    HealthDrops(w.desk, c.before);
    Safety.SyncKeepsDeskInv(w.desk, c.before);
    if c.op.Submit? {
      SubmitSendsIff(cfg, w.(desk := Synced(w.desk, c.before)), c.op.order);
    }
  }

  lemma SubmitSendsIff(cfg: Config, w: World, o: SubmitOrder)
    requires Safety.DeskInv(w.desk)
    ensures AfterSubmit(cfg, w, o).sent != w.sent
       <==> w.desk.armed && NothingUncertain(w.rows) && Confirms(cfg, w.desk, o)
            && KeyIsNew(w.rows, OrderKey(w.desk.account.value.id, cfg.clientId,
                                         w.desk.preview.value.request.clientOrderId))
            && !o.crash.CrashBeforeBroker?
  {
    AuthorisedIff(cfg, w.desk, w.rows, o);
    var (d1, passed) := Authorised(cfg, w.desk, w.rows, o);
    if passed {
      Safety.AuthorisedFacts(cfg, w.desk, w.rows, o);
      KeyIsNewIff(w.rows, OrderKey(w.desk.account.value.id, cfg.clientId, w.desk.preview.value.request.clientOrderId));
    }
  }

  /** A confirmed order that has a row already sends nothing and changes no row. Under another intent it is a conflict that
      leaves the desk armed with its preview; otherwise the stored answer is returned, and arm and preview are gone. */
  lemma RepeatIsNotSent(cfg: Config, w: World, c: Command, i: nat)
    requires Safety.DeskInv(w.desk) && Safety.DistinctKeys(w.rows) && i < |w.rows|
    requires c.op.Submit? && StaysArmed(w.desk, c.before) && NothingUncertain(w.rows) && Confirms(cfg, w.desk, c.op.order)
    requires w.rows[i].key == OrderKey(w.desk.account.value.id, cfg.clientId,
                                       w.desk.preview.value.request.clientOrderId)
    ensures var w' := Step(cfg, w, c);
            w'.rows == w.rows && w'.sent == w.sent
            && if w.rows[i].intent != w.desk.preview.value.intent
               then w'.desk.armed && w'.desk.preview == w.desk.preview
               else !w'.desk.armed && w'.desk.preview.None?
  {
    HealthDrops(w.desk, c.before);
    Safety.SyncKeepsDeskInv(w.desk, c.before);
    SubmitRepeats(cfg, w.(desk := Synced(w.desk, c.before)), c.op.order, i);
  }

  lemma SubmitRepeats(cfg: Config, w: World, o: SubmitOrder, i: nat)
    requires Safety.DeskInv(w.desk) && Safety.DistinctKeys(w.rows) && i < |w.rows|
    requires w.desk.armed && NothingUncertain(w.rows) && Confirms(cfg, w.desk, o)
    requires w.rows[i].key == OrderKey(w.desk.account.value.id, cfg.clientId,
                                       w.desk.preview.value.request.clientOrderId)
    ensures var w' := AfterSubmit(cfg, w, o);
            w'.rows == w.rows && w'.sent == w.sent
            && if w.rows[i].intent != w.desk.preview.value.intent
               then w'.desk.armed && w'.desk.preview == w.desk.preview
               else !w'.desk.armed && w'.desk.preview.None?
  {
    AuthorisedIff(cfg, w.desk, w.rows, o);
    Safety.AuthorisedFacts(cfg, w.desk, w.rows, o);
    var j := FindKey(w.rows, w.rows[i].key);
    assert j == i;
    assert Uncertain(w.rows[i]) ==> RecoveryRequired(w.rows);
    NothingUncertainIff(w.rows);
  }

  // ---- the other commands ----

  /** A command that only looks, or that gives up the arm or the connection, touches no row; health is read before it and
      again before it answers. */
  lemma LooksOnly(cfg: Config, w: World, c: Command)
    requires c.op.Snapshot? || c.op.DisarmDesk? || c.op.Disconnect?
    ensures var d, d' := w.desk, Step(cfg, w, c).desk;
            Step(cfg, w, c) == w.(desk := d') && d'.account == d.account && d'.liveAccount == d.liveAccount
            && d'.connected == (!c.op.Disconnect? && d.connected && c.before.up && c.after.up)
            && d'.armed == (c.op.Snapshot? && StaysArmed(d, c.before) && StaysArmed(d, c.after))
            && d'.preview == (if c.op.Disconnect? || (d.connected && !(c.before.up && c.after.up)) then None
                              else d.preview)
  {
    HealthDrops(w.desk, c.before);
    var d1 := AfterOp(cfg, w.(desk := Synced(w.desk, c.before)), c.op).0.desk;
    HealthDrops(d1, c.after);
  }

  /** An arm takes effect exactly on a live link to an account that may be written, named by its mask, and lasts its
      time from then. */
  lemma ArmsIff(cfg: Config, w: World, c: Command)
    ensures Step(cfg, w, c).arms == w.arms
            + (if c.op.Arm? && Live(w.desk, c.before) && !w.desk.account.value.readOnly
                  && c.op.mask == Mask(w.desk.account.value.id) then 1 else 0)
    ensures Step(cfg, w, c).arms > w.arms ==>
              Step(cfg, w, c).desk.armed == (c.after.up && c.after.now < c.op.at + cfg.armTtl)
  {
    HealthDrops(w.desk, c.before);
  }

  /** A preview is taken exactly on a live link with nothing uncertain, for an order the account read again accepts and
      the broker's own preview does; it is for that order, with the broker's warning, and expires after its time. */
  lemma PreviewsIff(cfg: Config, w: World, c: Command)
    requires c.op.PreviewOrder?
    ensures var d := Step(cfg, w, c).desk;
            var taken := Live(w.desk, c.before) && NothingUncertain(w.rows) && c.op.raw.Some? && c.op.refresh.Got?
                         && c.op.refresh.value.id == w.desk.account.value.id
                         && Normalize(c.op.refresh.value, cfg.maxNotional, c.op.raw.value).Ok?
                         && c.op.whatIf.Got? && c.op.whatIf.value.accepted;
            if taken then d.preview.Some? && PreviewIs(cfg, c.op, d.preview.value)
            else d.preview == None || d.preview == w.desk.preview
  {
    HealthDrops(w.desk, c.before);
    NothingUncertainIff(w.rows);
  }

  predicate PreviewIs(cfg: Config, op: Op, p: Preview)
    requires op.PreviewOrder? && op.refresh.Got? && op.raw.Some? && op.whatIf.Got?
  {
    var normal, warning := Normalize(op.refresh.value, cfg.maxNotional, op.raw.value), op.whatIf.value.warning;
    normal == Ok((p.request, p.intent)) && p.token == op.token && p.mask == Mask(op.refresh.value.id)
    && p.warning == warning && p.expiresAt == op.at + cfg.previewTtl
    && p.phrase.mask == p.mask && p.phrase.operation == p.request.operation && p.phrase.quantity == p.request.quantity
    && p.phrase.symbol == p.request.symbol && p.phrase.limitCents == p.request.limitCents && p.phrase.token == p.token
    && (p.phrase.warning == None <==> warning == None || warning == Some(""))
    && (p.phrase.warning.Some? ==> p.phrase.warning == warning)
  }

  /** A connection stands exactly when the broker answers with the account the desk is bound to, if it is bound. It is
      never armed and has no preview. */
  lemma ConnectsIff(cfg: Config, w: World, c: Command)
    requires c.op.Connect?
    ensures var d, reply := Step(cfg, w, c).desk, c.op.account;
            var stands := reply.Got? && (w.desk.liveAccount.Some? ==> w.desk.liveAccount == Some(reply.value.id));
            (d.account == if stands then Some(reply.value) else None)
            && (!stands ==> !d.connected) && (d.connected ==> stands)
            && (stands && c.after.up ==> d.connected)
            && !d.armed && d.preview.None? && d.liveAccount == w.desk.liveAccount
  {
    HealthDrops(w.desk, c.before);
  }

  /** A desk is bound exactly by naming, on a link that is up, the mask of an account it is not bound to yet; nothing
      else changes the account it is bound to but a restart. */
  lemma BindsIff(cfg: Config, w: World, c: Command)
    requires !c.op.Restart? && !(c.op.Submit? && !c.op.order.crash.NoCrash?)
    ensures Step(cfg, w, c).desk.liveAccount
         == if c.op.Bind? && w.desk.connected && c.before.up && w.desk.account.Some?
               && w.desk.liveAccount != Some(w.desk.account.value.id) && c.op.mask == Mask(w.desk.account.value.id)
            then Some(w.desk.account.value.id) else w.desk.liveAccount
  {
    HealthDrops(w.desk, c.before);
    if c.op.Submit? { SubmitKeepsBinding(cfg, w.(desk := Synced(w.desk, c.before)), c.op.order); }
  }

  lemma SubmitKeepsBinding(cfg: Config, w: World, o: SubmitOrder)
    requires o.crash.NoCrash?
    ensures AfterSubmit(cfg, w, o).desk.liveAccount == w.desk.liveAccount
  {
    var d1 := Authorised(cfg, w.desk, w.rows, o).0;
    assert d1.liveAccount == w.desk.liveAccount;
  }

  /** Rows are looked up again exactly by a recovery on a live link, a binding, or a connection that finds the desk bound
      to its account: those of that account and this client ID. */
  lemma RecoversIff(cfg: Config, w: World, c: Command)
    requires !c.op.Submit?
    ensures Step(cfg, w, c).rows
         == match c.op
            case Recover(lookups) =>
              if Live(w.desk, c.before) then RecoveredRows(w.rows, w.desk.account.value.id, cfg.clientId, lookups, 0).0
              else w.rows
            case Bind(_, lookups) =>
              if Step(cfg, w, c).desk.liveAccount != w.desk.liveAccount
              then RecoveredRows(w.rows, w.desk.account.value.id, cfg.clientId, lookups, 0).0 else w.rows
            case Connect(reply, lookups) =>
              if reply.Got? && w.desk.liveAccount == Some(reply.value.id)
              then RecoveredRows(w.rows, reply.value.id, cfg.clientId, lookups, 0).0 else w.rows
            case _ => w.rows
  {
    HealthDrops(w.desk, c.before);
  }

  /** The desk in memory after a start: bound as configured, and neither connected nor armed nor with an account. */
  predicate Idle(d: Desk) { !d.connected && !d.armed && d.account.None? && d.preview.None? }

  /** After a restart, or a crash, nothing but a connection has any effect. */
  lemma OnlyConnectWakes(cfg: Config, w: World, c: Command)
    requires Idle(w.desk) && !c.op.Connect?
    ensures Idle(Step(cfg, w, c).desk) && Step(cfg, w, c).rows == w.rows && Step(cfg, w, c).sent == w.sent
            && Step(cfg, w, c).arms == w.arms
  {
    HealthDrops(w.desk, c.before);
  }

  lemma RestartsIdle(cfg: Config, w: World, c: Command)
    ensures c.op.Restart? ==> Idle(Step(cfg, w, c).desk) && Step(cfg, w, c).desk.liveAccount == c.op.live
    ensures c.op.DisarmDesk? ==> !Step(cfg, w, c).desk.armed
  {
  }
}
