/** What a lost answer does to the live desk: it blocks every submission until the broker says what became of the
    order, whatever is restarted in between. */
module ExecutionDeskRecovery {
  import opened ExecutionDesk
  import opened ExecutionDeskSafety
  import opened Texts

  /** Several desks, each with its own settings, on one ledger file and one brokerage. */
  datatype Fleet = Fleet(desks: seq<Desk>, rows: seq<Row>, sent: seq<SentOrder>)
  datatype Turn = Turn(desk: nat, cfg: Config, command: Command)

  function FleetStep(f: Fleet, t: Turn): Fleet {
    if t.desk >= |f.desks| then f
    else
      var w := Step(t.cfg, World(f.desks[t.desk], f.rows, f.sent, 0), t.command);
      Fleet(f.desks[t.desk := w.desk], w.rows, w.sent)
  }

  function FleetRun(f: Fleet, turns: seq<Turn>): Fleet
    decreases |turns|
  {
    if turns == [] then f else FleetStep(FleetRun(f, turns[..|turns| - 1]), turns[|turns| - 1])
  }

  // ---- one submission ----

  /** The order's fate is not known: a crash around the broker call, no answer, or an answer that says so. */
  predicate AnswerLost(o: SubmitOrder) {
    !o.crash.NoCrash? || o.reply.TimedOut? || o.reply.Raised?
    || (o.reply.Accepted? && UncertainStatus(o.reply.s.status))
  }

  /** The row is the one written ahead, settled by the broker's reply: its status and IDs, the code of a refusal, or that
      the outcome is unknown and why. */
  predicate Carries(ahead: Row, reply: SubmitReply, row: Row) {
    match reply
    case Accepted(s) =>
      row == ahead.(status := s.status, brokerOrderId := Some(s.orderId), permId := s.permId, lastError := None)
    case Rejected(code) =>
      row == ahead.(status := "rejected", brokerOrderId := None, permId := None, lastError := Some(code))
    case _ =>
      row == ahead.(status := "unknown", brokerOrderId := None, permId := None,
                    lastError := Some(if reply.TimedOut? then "broker_timeout" else "broker_exception"))
  }

  lemma NoneUncertainBefore(rows: seq<Row>, row: Row)
    requires !RecoveryRequired(rows)
    ensures RecoveryRequired(rows + [row]) <==> Uncertain(row)
  {
    if Uncertain(row) { assert Uncertain((rows + [row])[|rows|]); }
  }

  /** A submission that wrote its row leaves the ledger blocked exactly when its answer was lost; the row carries the
      broker's reply, unless a crash left it as it was written ahead. */
  lemma BlockedIffAnswerLost(cfg: Config, w: World, o: SubmitOrder)
    requires DeskInv(w.desk) && OpenGate(cfg, w.desk, w.rows, o).Ready?
    ensures var w' := AfterSubmit(cfg, w, o);
            |w'.rows| == |w.rows| + 1
            && (RecoveryRequired(w'.rows) <==> AnswerLost(o))
            && (!AnswerLost(o) ==> w'.sent != w.sent)
            && var ahead, row := OpenGate(cfg, w.desk, w.rows, o).row, w'.rows[|w.rows|];
               if o.crash.NoCrash? then Carries(ahead, o.reply, row) else row == ahead
  {
    var g := OpenGate(cfg, w.desk, w.rows, o);
    UnresolvedIsUnreachable(cfg, w.desk, w.rows, o);
    GateOpens(cfg, w.desk, w.rows, o);
    WriteAheadIsOneOf(cfg, w, g.desk, g.row, g.request, o);
    NoneUncertainBefore(w.rows, g.row);
    NoneUncertainBefore(w.rows, ReplyRow(g.row, o.reply));
    assert (w.rows + [g.row])[|w.rows| := ReplyRow(g.row, o.reply)] == w.rows + [ReplyRow(g.row, o.reply)];
  }

  // ---- a recovery pass ----

  /** A row of this account and client ID whose outcome is not known. */
  predicate Awaits(row: Row, account: string, clientId: nat) {
    row.account == account && row.clientId == clientId && (row.status == "submitting" || row.status == "unknown")
  }

  /** What a lookup makes of it: the found order's status and IDs; without one, unknown and without IDs if it was still
      being submitted, and otherwise as it was. */
  predicate Hears(row: Row, answer: Lookup, after: Row) {
    if answer.Found? then
      after == row.(status := answer.s.status, brokerOrderId := Some(answer.s.orderId), permId := answer.s.permId,
                    lastError := None)
    else if row.status == "submitting" then
      after == row.(status := "unknown", brokerOrderId := None, permId := None,
                    lastError := Some("recovery_lookup_empty"))
    else after == row
  }

  /** A pass settles its rows from the broker's answers and touches no other; one that ends early has met a lookup
      that raised, and has settled exactly the rows before it. */
  lemma {:induction false} RecoverySettles(rows: seq<Row>, account: string, clientId: nat,
                                           lookups: map<string, Lookup>, i: nat) returns (n: nat)
    requires i <= |rows|
    ensures i <= n <= |rows|
    ensures var (r, complete) := RecoveredRows(rows, account, clientId, lookups, i);
            |r| == |rows|
            && (forall j :: 0 <= j < |rows| ==>
                  if i <= j < n && Awaits(rows[j], account, clientId)
                  then Hears(rows[j], LookedUp(lookups, rows[j].orderRef), r[j]) else r[j] == rows[j])
            && (complete <==> n == |rows|)
            && (!complete ==> Awaits(rows[n], account, clientId)
                              && LookedUp(lookups, rows[n].orderRef).LookupRaised?)
    decreases |rows| - i
  {
    if i == |rows| {
      n := i;
    } else if !Recoverable(rows[i], account, clientId) {
      n := RecoverySettles(rows, account, clientId, lookups, i + 1);
    } else if LookedUp(lookups, rows[i].orderRef).LookupRaised? {
      n := i;
    } else {
      var next := rows[i := RecoveredRow(rows[i], LookedUp(lookups, rows[i].orderRef))];
      n := RecoverySettles(next, account, clientId, lookups, i + 1);
    }
  }

  // ---- runs without news from the broker ----

  function LookupsOf(op: Op): map<string, Lookup> {
    match op
    case Connect(_, lookups) => lookups
    case Bind(_, lookups) => lookups
    case Recover(lookups) => lookups
    case Submit(o) => o.lookups
    case _ => map[]
  }

  /** No lookup of the command tells what became of an order. */
  predicate NoNews(op: Op) {
    forall ref :: ref in LookupsOf(op) && LookupsOf(op)[ref].Found? ==> UncertainStatus(LookupsOf(op)[ref].s.status)
  }

  lemma StaysUncertain(rows: seq<Row>, account: string, clientId: nat, lookups: map<string, Lookup>)
    requires RecoveryRequired(rows)
    requires forall ref :: ref in lookups && lookups[ref].Found? ==> UncertainStatus(lookups[ref].s.status)
    ensures RecoveryRequired(RecoveredRows(rows, account, clientId, lookups, 0).0)
  {
    var n := RecoverySettles(rows, account, clientId, lookups, 0);
    var j :| 0 <= j < |rows| && Uncertain(rows[j]);
    assert Uncertain(RecoveredRows(rows, account, clientId, lookups, 0).0[j]);
  }

  lemma BlockedStep(cfg: Config, w: World, c: Command)
    requires RecoveryRequired(w.rows) && NoNews(c.op)
    ensures Step(cfg, w, c).sent == w.sent && RecoveryRequired(Step(cfg, w, c).rows)
  {
    var d := Synced(w.desk, c.before);
    if c.op.Submit? {
      assert !Authorised(cfg, d, w.rows, c.op.order).1;
    } else if d.account.Some? {
      StaysUncertain(w.rows, d.account.value.id, cfg.clientId, LookupsOf(c.op));
    }
    if c.op.Connect? && c.op.account.Got? {
      StaysUncertain(w.rows, c.op.account.value.id, cfg.clientId, LookupsOf(c.op));
    }
  }

  /** With an uncertain row in the ledger, however the commands of any number of desks interleave, and whatever is
      armed, previewed or restarted: until a lookup tells what became of an order, nothing is sent. */
  lemma {:induction false} NothingSentWithoutNews(f: Fleet, turns: seq<Turn>)
    requires RecoveryRequired(f.rows) && forall i :: 0 <= i < |turns| ==> NoNews(turns[i].command.op)
    ensures FleetRun(f, turns).sent == f.sent && RecoveryRequired(FleetRun(f, turns).rows)
    decreases |turns|
  {
    if turns != [] {
      var before, t := FleetRun(f, turns[..|turns| - 1]), turns[|turns| - 1];
      NothingSentWithoutNews(f, turns[..|turns| - 1]);
      if t.desk < |before.desks| {
        BlockedStep(t.cfg, World(before.desks[t.desk], before.rows, before.sent, 0), t.command);
      }
    }
  }

  // ---- what a row says about the broker ----

  predicate WasSent(sent: seq<SentOrder>, ref: string) { exists k :: 0 <= k < |sent| && sent[k].orderRef == ref }

  /** The broker finds only orders it was sent. */
  predicate Truthful(sent: seq<SentOrder>, lookups: map<string, Lookup>) {
    forall ref :: ref in lookups && lookups[ref].Found? ==> WasSent(sent, ref)
  }

  /** A row with a broker ID stands for an order that was sent. */
  predicate RowsHonest(rows: seq<Row>, sent: seq<SentOrder>) {
    forall i :: 0 <= i < |rows| && rows[i].brokerOrderId.Some? ==> WasSent(sent, rows[i].orderRef)
  }

  lemma SentGrows(sent: seq<SentOrder>, sent': seq<SentOrder>, ref: string)
    requires sent <= sent' && WasSent(sent, ref)
    ensures WasSent(sent', ref)
  {
    var k :| 0 <= k < |sent| && sent[k].orderRef == ref;
    assert sent'[k].orderRef == ref;
  }

  lemma RecoveryIsHonest(rows: seq<Row>, sent: seq<SentOrder>, account: string, clientId: nat,
                         lookups: map<string, Lookup>)
    requires RowsHonest(rows, sent) && Truthful(sent, lookups)
    ensures RowsHonest(RecoveredRows(rows, account, clientId, lookups, 0).0, sent)
  {
    var n := RecoverySettles(rows, account, clientId, lookups, 0);
  }

  lemma SubmitIsHonest(cfg: Config, w: World, o: SubmitOrder)
    requires DeskInv(w.desk) && RowsHonest(w.rows, w.sent) && Truthful(w.sent, o.lookups)
    ensures var w' := AfterSubmit(cfg, w, o); RowsHonest(w'.rows, w'.sent)
  {
    var g, w' := OpenGate(cfg, w.desk, w.rows, o), AfterSubmit(cfg, w, o);
    UnresolvedIsUnreachable(cfg, w.desk, w.rows, o);
    if g.Ready? {
      GateOpens(cfg, w.desk, w.rows, o);
      WriteAheadIsOneOf(cfg, w, g.desk, g.row, g.request, o);
      forall i | 0 <= i < |w'.rows| && w'.rows[i].brokerOrderId.Some? ensures WasSent(w'.sent, w'.rows[i].orderRef) {
        if i < |w.rows| {
          assert w'.rows[i] == w.rows[i];
          SentGrows(w.sent, w'.sent, w.rows[i].orderRef);
        } else {
          assert w'.sent[|w.sent|].orderRef == g.row.orderRef == w'.rows[i].orderRef;
        }
      }
    }
  }

  lemma OtherOpsAreHonest(cfg: Config, w: World, op: Op)
    requires !op.Submit? && RowsHonest(w.rows, w.sent) && Truthful(w.sent, LookupsOf(op))
    ensures AfterOp(cfg, w, op).0.sent == w.sent && RowsHonest(AfterOp(cfg, w, op).0.rows, w.sent)
  {
    if w.desk.account.Some? {
      RecoveryIsHonest(w.rows, w.sent, w.desk.account.value.id, cfg.clientId, LookupsOf(op));
    }
    if op.Connect? && op.account.Got? {
      RecoveryIsHonest(w.rows, w.sent, op.account.value.id, cfg.clientId, LookupsOf(op));
    }
  }

  /** As long as the broker only finds what it was sent, no row ever shows a broker ID for an order that was not. */
  lemma StepIsHonest(cfg: Config, w: World, c: Command)
    requires DeskInv(w.desk) && RowsHonest(w.rows, w.sent) && Truthful(w.sent, LookupsOf(c.op))
    ensures RowsHonest(Step(cfg, w, c).rows, Step(cfg, w, c).sent)
  {
    var w0 := w.(desk := Synced(w.desk, c.before));
    SyncKeepsDeskInv(w.desk, c.before);
    if c.op.Submit? {
      SubmitIsHonest(cfg, w0, c.op.order);
    } else {
      OtherOpsAreHonest(cfg, w0, c.op);
    }
  }

  predicate TruthfulRun(cfg: Config, w: World, commands: seq<Command>) {
    forall i :: 0 <= i < |commands| ==> Truthful(Run(cfg, w, commands[..i]).sent, LookupsOf(commands[i].op))
  }

  lemma {:induction false} BrokerIdsAreHonest(cfg: Config, w: World, commands: seq<Command>)
    requires DeskInv(w.desk) && Durable(w.rows, w.sent) && RowsHonest(w.rows, w.sent) && TruthfulRun(cfg, w, commands)
    ensures RowsHonest(Run(cfg, w, commands).rows, Run(cfg, w, commands).sent)
    decreases |commands|
  {
    if commands != [] {
      var before := commands[..|commands| - 1];
      assert forall i :: 0 <= i < |before| ==> before[..i] == commands[..i] && before[i] == commands[i];
      BrokerIdsAreHonest(cfg, w, before);
      RunKeeps(cfg, w, before);
      StepIsHonest(cfg, Run(cfg, w, before), commands[|commands| - 1]);
    }
  }
}
