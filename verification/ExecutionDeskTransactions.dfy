/** Several live desks on one ledger file and one brokerage, interleaved between any two ledger transactions and broker
    calls (execution/ibkr_execution.py). A lock keeps one process to one command at a time; between processes only the
    ledger's own transactions order anything. */
module ExecutionDeskTransactions {
  import opened ExecutionDesk
  import opened ExecutionDeskSafety
  import opened Texts

  /** Where a process is in its command: all checks passed, the row written, the broker called, or rows to look up as
      they were when they were read. */
  datatype Stage =
    | Idle
    | Checked(order: SubmitOrder, preview: Preview)
    | Written(order: SubmitOrder, request: Request, row: Row)
    | Answered(order: SubmitOrder, row: Row)
    | Resolving(pending: seq<Row>, lookups: map<string, Lookup>, after: Option<Health>)

  datatype Process = Process(cfg: Config, desk: Desk, stage: Stage)

  datatype System = System(processes: seq<Process>, rows: seq<Row>, sent: seq<SentOrder>)

  /** A process starts a command, goes on with it by one transaction or broker call, or dies where it stands. */
  datatype Move = Begin(command: Command) | Advance | Die(live: Option<string>)

  datatype Turn = Turn(process: nat, move: Move)

  // ---- starting a command ----

  /** The rows a recovery reads at its start. */
  function ToResolve(rows: seq<Row>, account: string, clientId: nat, i: nat): seq<Row>
    requires i <= |rows|
    decreases |rows| - i
  {
    if i == |rows| then []
    else
      var rest := ToResolve(rows, account, clientId, i + 1);
      if Recoverable(rows[i], account, clientId) then [rows[i]] + rest else rest
  }

  function Closed(d: Desk, after: Option<Health>): Desk { if after.Some? then Synced(d, after.value) else d }

  function Resumed(p: Process, pending: seq<Row>, lookups: map<string, Lookup>, after: Option<Health>): Process {
    if pending == [] then p.(desk := Closed(p.desk, after), stage := Idle)
    else p.(stage := Resolving(pending, lookups, after))
  }

  function AfterReading(p: Process, rows: seq<Row>, start: (Desk, Next), lookups: map<string, Lookup>,
                        after: Option<Health>): Process
    requires start.1.Recovers? ==> start.0.account.Some?
  {
    match start.1
    case Raises => p.(desk := start.0)
    case Answers => p.(desk := Closed(start.0, after))
    case Recovers =>
      Resumed(p.(desk := start.0), ToResolve(rows, start.0.account.value.id, p.cfg.clientId, 0), lookups, after)
  }

  predicate Recovery(op: Op) { op.Connect? || op.Bind? || op.Recover? }

  function StartOf(d: Desk, op: Op): (start: (Desk, Next))
    requires Recovery(op)
    ensures start.1.Recovers? ==> start.0.account.Some? && start.0.preview.None?
  {
    match op
    case Connect(reply, _) => ConnectStart(d, reply)
    case Bind(mask, _) => BindStart(d, mask)
    case _ => RecoverStart(d)
  }

  /** A command up to its first write or lookup; the ledger is read once at most. */
  function Started(p: Process, rows: seq<Row>, c: Command): Process {
    var d := Synced(p.desk, c.before);
    if c.op.Submit? then
      var (d1, passed) := Authorised(p.cfg, d, rows, c.op.order);
      p.(desk := d1, stage := if passed then Checked(c.op.order, d.preview.value) else Idle)
    else if Recovery(c.op) then
      AfterReading(p, rows, StartOf(d, c.op), c.op.lookups, if c.op.Bind? then None else Some(c.after))
    else p.(desk := Step(p.cfg, World(p.desk, rows, [], 0), c).desk)
  }

  // ---- going on with it ----

  function With(s: System, i: nat, p: Process): System
    requires i < |s.processes|
  {
    s.(processes := s.processes[i := p])
  }

  /** Index of the row with this reference, or |rows|. */
  function FindRef(rows: seq<Row>, ref: string): (i: nat)
    ensures i <= |rows| && (i < |rows| ==> rows[i].orderRef == ref)
    ensures forall j :: 0 <= j < i ==> rows[j].orderRef != ref
  {
    if rows == [] || rows[0].orderRef == ref then 0 else 1 + FindRef(rows[1..], ref)
  }

  /** The update of the row with a reference by a broker's reply, whatever the row has become. */
  function Settling(rows: seq<Row>, ref: string, reply: SubmitReply): seq<Row> {
    var i := FindRef(rows, ref);
    if i == |rows| then rows else rows[i := ReplyRow(rows[i], reply)]
  }

  /** The update by a lookup: it is decided by the status that was read, not by the one the row has now. */
  function Resettled(now: Row, read: Row, answer: Lookup): Row {
    match answer
    case Found(s) => Settled(now, s.status, Some(s), None)
    case _ => if read.status == "submitting" then Settled(now, "unknown", None, Some("recovery_lookup_empty")) else now
  }

  function Resolved(rows: seq<Row>, read: Row, answer: Lookup): seq<Row> {
    var i := FindRef(rows, read.orderRef);
    if i == |rows| then rows else rows[i := Resettled(rows[i], read, answer)]
  }

  /** The transaction that creates or reads the row. */
  function Created(s: System, i: nat, o: SubmitOrder, preview: Preview): System
    requires i < |s.processes| && s.processes[i].desk.account.Some?
  {
    var p := s.processes[i];
    match GateOf(p.cfg, p.desk, s.rows, preview)
    case Replay(d, _) => With(s, i, p.(desk := Refreshed(d, o.receipt).0, stage := Idle))
    case Unresolved(d, k) => With(s, i, p.(desk := d, stage := Resolving([s.rows[k]], o.lookups, None)))
    case Ready(d, row, request) =>
      With(s, i, p.(desk := d, stage := Written(o, request, row))).(rows := s.rows + [row])
    case g => With(s, i, p.(desk := g.desk, stage := Idle))
  }

  function Advanced(s: System, i: nat): System
    requires i < |s.processes|
  {
    var p := s.processes[i];
    match p.stage
    case Idle => s
    case Checked(o, preview) =>
      if p.desk.account.None? then With(s, i, p.(stage := Idle)) else Created(s, i, o, preview)
    case Written(o, request, row) =>
      With(s, i, p.(stage := Answered(o, row))).(sent := s.sent + [SentOrder(request, p.cfg.clientId, row.orderRef)])
    case Answered(o, row) =>
      var d := p.desk.(preview := None);
      With(s, i, p.(desk := if o.reply.Accepted? then Refreshed(d, o.receipt).0 else d, stage := Idle))
      .(rows := Settling(s.rows, row.orderRef, o.reply))
    case Resolving(pending, lookups, after) =>
      if pending == [] || LookedUp(lookups, pending[0].orderRef).LookupRaised? then With(s, i, p.(stage := Idle))
      else
        With(s, i, Resumed(p.(desk := p.desk.(preview := None)), pending[1..], lookups, after))
        .(rows := Resolved(s.rows, pending[0], LookedUp(lookups, pending[0].orderRef)))
  }

  function Moved(s: System, t: Turn): System {
    if t.process >= |s.processes| then s
    else
      var p := s.processes[t.process];
      match t.move
      case Begin(c) => if p.stage.Idle? then With(s, t.process, Started(p, s.rows, c)) else s
      case Advance => Advanced(s, t.process)
      case Die(live) => With(s, t.process, p.(desk := FreshDesk(live), stage := Idle))
  }

  function Interleaved(s: System, turns: seq<Turn>): System
    decreases |turns|
  {
    if turns == [] then s else Moved(Interleaved(s, turns[..|turns| - 1]), turns[|turns| - 1])
  }

  // ---- what every turn keeps ----

  predicate Unsent(sent: seq<SentOrder>, ref: string) { forall k :: 0 <= k < |sent| ==> sent[k].orderRef != ref }

  /** A process past its checks has the previewed request of its own account; one that has written its row owns that
      row's reference, under which nothing was sent. */
  predicate StageOk(p: Process, rows: seq<Row>, sent: seq<SentOrder>) {
    match p.stage
    case Checked(_, preview) =>
      p.desk.account.Some? && preview.request.account == p.desk.account.value.id
      && Describes(preview.intent, preview.request)
    case Written(_, request, row) =>
      RowNamed(row) && SentNamed(SentOrder(request, p.cfg.clientId, row.orderRef))
      && HasRow(rows, row.orderRef) && Unsent(sent, row.orderRef)
    case _ => true
  }

  predicate Owns(p: Process, ref: string) { p.stage.Written? && p.stage.row.orderRef == ref }

  predicate OwnersDiffer(ps: seq<Process>) {
    forall i, j :: 0 <= i < j < |ps| && ps[i].stage.Written? ==> !Owns(ps[j], ps[i].stage.row.orderRef)
  }

  predicate SystemInv(s: System) {
    Durable(s.rows, s.sent) && OwnersDiffer(s.processes)
    && forall i :: 0 <= i < |s.processes| ==>
         DeskInv(s.processes[i].desk) && StageOk(s.processes[i], s.rows, s.sent)
  }

  /** Rows keep their places and names, and others may follow. */
  predicate NamesStay(rows: seq<Row>, rows': seq<Row>) {
    |rows| <= |rows'|
    && forall j :: 0 <= j < |rows| ==>
         rows'[j] == rows[j].(status := rows'[j].status, brokerOrderId := rows'[j].brokerOrderId,
                              permId := rows'[j].permId, lastError := rows'[j].lastError)
  }

  lemma StageStays(p: Process, rows: seq<Row>, rows': seq<Row>, sent: seq<SentOrder>)
    requires StageOk(p, rows, sent) && NamesStay(rows, rows')
    ensures StageOk(p, rows', sent)
  {
    if p.stage.Written? {
      var i :| 0 <= i < |rows| && rows[i].orderRef == p.stage.row.orderRef;
      assert rows'[i].orderRef == p.stage.row.orderRef;
    }
  }

  lemma UpdateKeepsDurable(rows: seq<Row>, rows': seq<Row>, sent: seq<SentOrder>)
    requires Durable(rows, sent) && NamesStay(rows, rows') && |rows| == |rows'|
    ensures Durable(rows', sent)
  {
    CoverGrows(rows, rows', sent);
  }

  /** A turn that gives one process a stage without an own row, and updates rows at most. */
  lemma LocalKeeps(s: System, i: nat, p: Process, rows: seq<Row>)
    requires SystemInv(s) && i < |s.processes| && NamesStay(s.rows, rows) && |rows| == |s.rows|
    requires DeskInv(p.desk) && StageOk(p, rows, s.sent) && !p.stage.Written?
    ensures SystemInv(With(s, i, p).(rows := rows))
  {
    UpdateKeepsDurable(s.rows, rows, s.sent);
    forall j | 0 <= j < |s.processes| && j != i ensures StageOk(s.processes[j], rows, s.sent) {
      StageStays(s.processes[j], s.rows, rows, s.sent);
    }
  }

  lemma StartedOk(p: Process, rows: seq<Row>, sent: seq<SentOrder>, c: Command)
    requires DeskInv(p.desk) && p.stage.Idle? && Durable(rows, sent)
    ensures var q := Started(p, rows, c); DeskInv(q.desk) && StageOk(q, rows, sent) && !q.stage.Written?
  {
    SyncKeepsDeskInv(p.desk, c.before);
    if c.op.Submit? {
      AuthorisedFacts(p.cfg, Synced(p.desk, c.before), rows, c.op.order);
    } else if Recovery(c.op) {
      ReadingOk(p, rows, c);
    } else {
      NothingSent(rows);
      StepKeeps(p.cfg, World(p.desk, rows, [], 0), c);
    }
  }

  lemma ReadingOk(p: Process, rows: seq<Row>, c: Command)
    requires DeskInv(p.desk) && p.stage.Idle? && Recovery(c.op)
    ensures var q := Started(p, rows, c); DeskInv(q.desk) && (q.stage.Idle? || q.stage.Resolving?)
  {
    SyncKeepsDeskInv(p.desk, c.before);
  }

  lemma NothingSent(rows: seq<Row>)
    ensures RowsNamed(rows) && DistinctKeys(rows) ==> Durable(rows, [])
  {
  }

  /** A new row's reference is no other process's. */
  lemma NewRefIsNobodys(s: System, row: Row)
    requires SystemInv(s) && RowNamed(row) && FindKey(s.rows, row.key) == |s.rows|
    ensures forall j :: 0 <= j < |s.processes| ==> !Owns(s.processes[j], row.orderRef)
    ensures Unsent(s.sent, row.orderRef)
  {
    FreshKeyFreshRef(s.rows, s.sent, row);
    forall j | 0 <= j < |s.processes| && Owns(s.processes[j], row.orderRef) ensures false {
      assert StageOk(s.processes[j], s.rows, s.sent);
      var i :| 0 <= i < |s.rows| && s.rows[i].orderRef == row.orderRef;
      RefDecodes(s.rows[i].account, s.rows[i].clientId, s.rows[i].clientOrderId, row.account, row.clientId,
                 row.clientOrderId);
    }
  }

  lemma WriteKeeps(s: System, i: nat, o: SubmitOrder, preview: Preview)
    requires SystemInv(s) && i < |s.processes| && s.processes[i].stage == Checked(o, preview)
    requires GateOf(s.processes[i].cfg, s.processes[i].desk, s.rows, preview).Ready?
    ensures SystemInv(Created(s, i, o, preview))
  {
    var p := s.processes[i];
    ReadyRow(p.cfg, p.desk, s.rows, preview);
    var g := GateOf(p.cfg, p.desk, s.rows, preview);
    AppendKeepsDurable(s.rows, s.sent, g.row);
    NewRefIsNobodys(s, g.row);
    var rows := s.rows + [g.row];
    assert rows[|s.rows|].orderRef == g.row.orderRef;
    forall j | 0 <= j < |s.processes| && j != i ensures StageOk(s.processes[j], rows, s.sent) {
      StageStays(s.processes[j], s.rows, rows, s.sent);
    }
  }

  lemma CreateKeeps(s: System, i: nat, o: SubmitOrder, preview: Preview)
    requires SystemInv(s) && i < |s.processes| && s.processes[i].stage == Checked(o, preview)
    ensures SystemInv(Created(s, i, o, preview))
  {
    var p := s.processes[i];
    var g := GateOf(p.cfg, p.desk, s.rows, preview);
    if g.Ready? {
      WriteKeeps(s, i, o, preview);
    } else {
      if g.Replay? { RefreshKeepsDeskInv(g.desk, o.receipt); }
      var q := Created(s, i, o, preview).processes[i];
      LocalKeeps(s, i, q, s.rows);
      assert Created(s, i, o, preview) == With(s, i, q).(rows := s.rows);
    }
  }

  /** The owner of a reference sends it: nobody else owned it, and now nobody does. */
  lemma SendingKeeps(s: System, i: nat)
    requires SystemInv(s) && i < |s.processes| && s.processes[i].stage.Written?
    ensures SystemInv(Advanced(s, i))
  {
    var p := s.processes[i];
    var row := p.stage.row;
    var order := SentOrder(p.stage.request, p.cfg.clientId, row.orderRef);
    assert StageOk(p, s.rows, s.sent);
    CoverOneMore(s.rows, s.sent, order);
    assert DistinctRefs(s.sent + [order]);
    forall j | 0 <= j < |s.processes| && j != i ensures StageOk(s.processes[j], s.rows, s.sent + [order]) {
      assert StageOk(s.processes[j], s.rows, s.sent) && !Owns(s.processes[j], row.orderRef);
    }
  }

  lemma AdvanceKeeps(s: System, i: nat)
    requires SystemInv(s) && i < |s.processes|
    ensures SystemInv(Advanced(s, i))
  {
    var p := s.processes[i];
    match p.stage {
      case Idle =>
      case Checked(o, preview) => CreateKeeps(s, i, o, preview);
      case Written(_, _, _) => SendingKeeps(s, i);
      case Answered(o, row) =>
        RefreshKeepsDeskInv(p.desk.(preview := None), o.receipt);
        LocalKeeps(s, i, Advanced(s, i).processes[i], Settling(s.rows, row.orderRef, o.reply));
      case Resolving(pending, lookups, after) => ResolveKeeps(s, i);
    }
  }

  lemma ResolveKeeps(s: System, i: nat)
    requires SystemInv(s) && i < |s.processes| && s.processes[i].stage.Resolving?
    ensures SystemInv(Advanced(s, i))
  {
    var p, q, rows := s.processes[i], Advanced(s, i).processes[i], Advanced(s, i).rows;
    if p.stage.pending != [] {
      ResolvedNames(s.rows, p.stage.pending[0], LookedUp(p.stage.lookups, p.stage.pending[0].orderRef));
      ResumedOk(p.(desk := p.desk.(preview := None)), p.stage.pending[1..], p.stage.lookups, p.stage.after);
    }
    LocalKeeps(s, i, q, rows);
    assert Advanced(s, i) == With(s, i, q).(rows := rows);
  }

  lemma ResolvedNames(rows: seq<Row>, read: Row, answer: Lookup)
    ensures NamesStay(rows, Resolved(rows, read, answer)) && |Resolved(rows, read, answer)| == |rows|
  {
  }

  lemma {:induction false} ResumedOk(p: Process, pending: seq<Row>, lookups: map<string, Lookup>, after: Option<Health>)
    requires DeskInv(p.desk)
    ensures var q := Resumed(p, pending, lookups, after); DeskInv(q.desk) && (q.stage.Idle? || q.stage.Resolving?)
  {
    if after.Some? { SyncKeepsDeskInv(p.desk, after.value); }
  }

  lemma TurnKeeps(s: System, t: Turn)
    requires SystemInv(s)
    ensures SystemInv(Moved(s, t))
  {
    if t.process < |s.processes| {
      var p := s.processes[t.process];
      match t.move {
        case Begin(c) =>
          if p.stage.Idle? {
            StartedOk(p, s.rows, s.sent, c);
            LocalKeeps(s, t.process, Started(p, s.rows, c), s.rows);
          }
        case Advance => AdvanceKeeps(s, t.process);
        case Die(live) => LocalKeeps(s, t.process, p.(desk := FreshDesk(live), stage := Idle), s.rows);
      }
    }
  }

  /** broker.submit is called at most once per (account, client ID, client order ID), each call having its ledger row,
      however the transactions and broker calls of any number of desks interleave and wherever they die. */
  lemma {:induction false} AtMostOneSubmission(s: System, turns: seq<Turn>)
    requires SystemInv(s)
    ensures var s' := Interleaved(s, turns);
            SystemInv(s') && DistinctOrders(s'.sent) && Covered(s'.rows, s'.sent)
    decreases |turns|
  {
    if turns != [] {
      AtMostOneSubmission(s, turns[..|turns| - 1]);
      TurnKeeps(Interleaved(s, turns[..|turns| - 1]), turns[|turns| - 1]);
    }
    DurableIsDistinct(Interleaved(s, turns).rows, Interleaved(s, turns).sent);
  }

  // ---- commands left alone ----

  function Alone(s: System, n: nat): System
    requires s.processes != []
    ensures |Alone(s, n).processes| == |s.processes|
    decreases n
  {
    if n == 0 then s else Alone(Advanced(s, 0), n - 1)
  }

  predicate RefsDiffer(rows: seq<Row>) { forall i, j :: 0 <= i < j < |rows| ==> rows[i].orderRef != rows[j].orderRef }

  lemma NamedRefsDiffer(rows: seq<Row>)
    requires RowsNamed(rows) && DistinctKeys(rows)
    ensures RefsDiffer(rows)
  {
    forall i, j | 0 <= i < j < |rows| ensures rows[i].orderRef != rows[j].orderRef {
      if rows[i].orderRef == rows[j].orderRef {
        RefDecodes(rows[i].account, rows[i].clientId, rows[i].clientOrderId, rows[j].account, rows[j].clientId,
                   rows[j].clientOrderId);
      }
    }
  }

  lemma {:induction false} OtherRowsToResolve(rows: seq<Row>, rows': seq<Row>, account: string, clientId: nat, i: nat)
    requires i <= |rows| == |rows'| && rows[i..] == rows'[i..]
    ensures ToResolve(rows, account, clientId, i) == ToResolve(rows', account, clientId, i)
    decreases |rows| - i
  {
    if i < |rows| {
      assert rows[i] == rows[i..][0] == rows'[i..][0] == rows'[i];
      assert rows[i + 1..] == rows[i..][1..] && rows'[i + 1..] == rows'[i..][1..];
      OtherRowsToResolve(rows, rows', account, clientId, i + 1);
    }
  }

  lemma {:induction false} IdleStays(s: System, n: nat)
    requires s.processes != [] && s.processes[0].stage.Idle?
    ensures Alone(s, n) == s
  {
    if n > 0 { IdleStays(s, n - 1); }
  }

  /** A recovery that nothing interrupts, row by row, is the recovery of the whole command. */
  lemma {:induction false} ResolvingAlone(p: Process, rows: seq<Row>, sent: seq<SentOrder>, account: string,
                                          lookups: map<string, Lookup>, after: Option<Health>, i: nat)
    requires RefsDiffer(rows) && i <= |rows| && p.desk.preview.None? && p.stage.Idle?
    ensures var pending := ToResolve(rows, account, p.cfg.clientId, i);
            var (rows', complete) := RecoveredRows(rows, account, p.cfg.clientId, lookups, i);
            Alone(System([Resumed(p, pending, lookups, after)], rows, sent), |pending|)
            == System([p.(desk := if complete then Closed(p.desk, after) else p.desk)], rows', sent)
    decreases |rows| - i
  {
    var pending := ToResolve(rows, account, p.cfg.clientId, i);
    if i == |rows| {
    } else if !Recoverable(rows[i], account, p.cfg.clientId) {
      ResolvingAlone(p, rows, sent, account, lookups, after, i + 1);
    } else {
      var answer := LookedUp(lookups, rows[i].orderRef);
      if answer.LookupRaised? {
        RaiseEnds(p, rows, sent, pending, lookups, after);
      } else {
        RowResolves(p, rows, sent, account, lookups, after, i);
        ResolvingAlone(p, rows[i := RecoveredRow(rows[i], answer)], sent, account, lookups, after, i + 1);
      }
    }
  }

  lemma {:induction false} RaiseEnds(p: Process, rows: seq<Row>, sent: seq<SentOrder>, pending: seq<Row>,
                                     lookups: map<string, Lookup>, after: Option<Health>)
    requires p.stage.Idle? && pending != [] && LookedUp(lookups, pending[0].orderRef).LookupRaised?
    ensures Alone(System([Resumed(p, pending, lookups, after)], rows, sent), |pending|) == System([p], rows, sent)
  {
    assert Advanced(System([Resumed(p, pending, lookups, after)], rows, sent), 0) == System([p], rows, sent);
    IdleStays(System([p], rows, sent), |pending| - 1);
  }

  lemma RowResolves(p: Process, rows: seq<Row>, sent: seq<SentOrder>, account: string, lookups: map<string, Lookup>,
                    after: Option<Health>, i: nat)
    requires RefsDiffer(rows) && i < |rows| && p.desk.preview.None? && p.stage.Idle?
    requires Recoverable(rows[i], account, p.cfg.clientId) && !LookedUp(lookups, rows[i].orderRef).LookupRaised?
    ensures var next := rows[i := RecoveredRow(rows[i], LookedUp(lookups, rows[i].orderRef))];
            var pending, rest := ToResolve(rows, account, p.cfg.clientId, i), ToResolve(next, account, p.cfg.clientId, i + 1);
            RefsDiffer(next)
            && RecoveredRows(rows, account, p.cfg.clientId, lookups, i)
               == RecoveredRows(next, account, p.cfg.clientId, lookups, i + 1)
            && Alone(System([Resumed(p, pending, lookups, after)], rows, sent), |pending|)
               == Alone(System([Resumed(p, rest, lookups, after)], next, sent), |rest|)
  {
    var next := rows[i := RecoveredRow(rows[i], LookedUp(lookups, rows[i].orderRef))];
    assert rows[i + 1..] == next[i + 1..];
    OtherRowsToResolve(rows, next, account, p.cfg.clientId, i + 1);
    PendingResolves(p, rows, sent, ToResolve(next, account, p.cfg.clientId, i + 1), lookups, after, i);
  }

  lemma {:induction false} PendingResolves(p: Process, rows: seq<Row>, sent: seq<SentOrder>, rest: seq<Row>,
                                           lookups: map<string, Lookup>, after: Option<Health>, i: nat)
    requires RefsDiffer(rows) && i < |rows| && p.desk.preview.None? && p.stage.Idle?
    requires !LookedUp(lookups, rows[i].orderRef).LookupRaised? && Uncertain(rows[i])
    ensures var next := rows[i := RecoveredRow(rows[i], LookedUp(lookups, rows[i].orderRef))];
            Alone(System([Resumed(p, [rows[i]] + rest, lookups, after)], rows, sent), 1 + |rest|)
            == Alone(System([Resumed(p, rest, lookups, after)], next, sent), |rest|)
  {
    var s := System([Resumed(p, [rows[i]] + rest, lookups, after)], rows, sent);
    var next := rows[i := RecoveredRow(rows[i], LookedUp(lookups, rows[i].orderRef))];
    assert FindRef(rows, rows[i].orderRef) == i;
    assert ([rows[i]] + rest)[1..] == rest;
    assert Advanced(s, 0) == System([Resumed(p, rest, lookups, after)], next, sent);
  }

  /** A submit left alone is four pieces: checks, row, broker call, reply. A recovering command is its reading and one
      piece a row. Both end where the whole command ends. */
  lemma SubmitIsItsPieces(p: Process, rows: seq<Row>, sent: seq<SentOrder>, c: Command)
    requires c.op.Submit? && c.op.order.crash.NoCrash? && p.stage.Idle? && DeskInv(p.desk) && Durable(rows, sent)
    ensures var w := Step(p.cfg, World(p.desk, rows, sent, 0), c);
            Alone(Moved(System([p], rows, sent), Turn(0, Begin(c))), 3)
            == System([p.(desk := w.desk)], w.rows, w.sent)
  {
    var d, o := Synced(p.desk, c.before), c.op.order;
    SyncKeepsDeskInv(p.desk, c.before);
    UnresolvedIsUnreachable(p.cfg, d, rows, o);
    var (d1, passed) := Authorised(p.cfg, d, rows, o);
    var s := Moved(System([p], rows, sent), Turn(0, Begin(c)));
    if !passed {
      assert s == System([p.(desk := d1)], rows, sent);
      IdleStays(s, 3);
    } else {
      assert s == System([p.(desk := d1, stage := Checked(o, d.preview.value))], rows, sent);
      AuthorisedFacts(p.cfg, d, rows, o);
      CheckedAlone(p, d1, o, d.preview.value, rows, sent);
    }
  }

  lemma CheckedAlone(p: Process, d: Desk, o: SubmitOrder, preview: Preview, rows: seq<Row>, sent: seq<SentOrder>)
    requires p.stage.Idle? && o.crash.NoCrash? && Durable(rows, sent)
    requires d.account.Some? && !GateOf(p.cfg, d, rows, preview).Unresolved?
    requires preview.request.account == d.account.value.id && Describes(preview.intent, preview.request)
    ensures var w := PastGate(p.cfg, World(d, rows, sent, 0), GateOf(p.cfg, d, rows, preview), o);
            Alone(System([p.(desk := d, stage := Checked(o, preview))], rows, sent), 3)
            == System([p.(desk := w.desk)], w.rows, w.sent)
  {
    var s, g := System([p.(desk := d, stage := Checked(o, preview))], rows, sent), GateOf(p.cfg, d, rows, preview);
    if g.Ready? {
      ReadyRow(p.cfg, d, rows, preview);
      WrittenAlone(p, g.desk, o, g.request, g.row, rows, sent);
      assert Advanced(s, 0) == System([p.(desk := g.desk, stage := Written(o, g.request, g.row))], rows + [g.row], sent);
    } else {
      assert Advanced(s, 0).processes[0].stage.Idle?;
      IdleStays(Advanced(s, 0), 2);
    }
  }

  lemma SettlingLast(rows: seq<Row>, sent: seq<SentOrder>, row: Row, reply: SubmitReply)
    requires Durable(rows, sent) && RowNamed(row) && FindKey(rows, row.key) == |rows|
    ensures Settling(rows + [row], row.orderRef, reply) == (rows + [row])[|rows| := ReplyRow(row, reply)]
  {
    var all := rows + [row];
    AppendKeepsDurable(rows, sent, row);
    NamedRefsDiffer(all);
    assert all[|rows|] == row && FindRef(all, row.orderRef) == |rows|;
  }

  lemma WrittenAlone(p: Process, d: Desk, o: SubmitOrder, request: Request, row: Row, rows: seq<Row>,
                     sent: seq<SentOrder>)
    requires p.stage.Idle? && o.crash.NoCrash? && Durable(rows, sent) && RowNamed(row) && FindKey(rows, row.key) == |rows|
    ensures var w := AfterWriteAhead(p.cfg, World(d, rows + [row], sent, 0), request, o);
            Alone(System([p.(desk := d, stage := Written(o, request, row))], rows + [row], sent), 2)
            == System([p.(desk := w.desk)], w.rows, w.sent)
  {
    TwoAlone(System([p.(desk := d, stage := Written(o, request, row))], rows + [row], sent));
    WrittenSends(p.(desk := d, stage := Written(o, request, row)), rows + [row], sent);
    AnsweredSettles(p, d, o, request, row, rows, sent);
  }

  lemma WrittenSends(p: Process, rows: seq<Row>, sent: seq<SentOrder>)
    requires p.stage.Written?
    ensures Advanced(System([p], rows, sent), 0)
         == System([p.(stage := Answered(p.stage.order, p.stage.row))], rows,
                   sent + [SentOrder(p.stage.request, p.cfg.clientId, p.stage.row.orderRef)])
  {
  }

  lemma AnsweredSettles(p: Process, d: Desk, o: SubmitOrder, request: Request, row: Row, rows: seq<Row>,
                        sent: seq<SentOrder>)
    requires p.stage.Idle? && o.crash.NoCrash? && Durable(rows, sent) && RowNamed(row) && FindKey(rows, row.key) == |rows|
    ensures var w := AfterWriteAhead(p.cfg, World(d, rows + [row], sent, 0), request, o);
            Advanced(System([p.(desk := d, stage := Answered(o, row))], rows + [row],
                            sent + [SentOrder(request, p.cfg.clientId, row.orderRef)]), 0)
            == System([p.(desk := w.desk)], w.rows, w.sent)
  {
    SettlingLast(rows, sent, row, o.reply);
    AnsweredAlone(p, d, o, row, rows + [row], sent + [SentOrder(request, p.cfg.clientId, row.orderRef)]);
    WriteAheadWithoutCrash(p.cfg, World(d, rows + [row], sent, 0), request, o);
  }

  lemma TwoAlone(s: System)
    requires s.processes != []
    ensures Alone(s, 2) == Advanced(Advanced(s, 0), 0)
  {
    assert Alone(s, 2) == Alone(Advanced(s, 0), 1) == Alone(Advanced(Advanced(s, 0), 0), 0);
  }

  lemma WriteAheadWithoutCrash(cfg: Config, w: World, request: Request, o: SubmitOrder)
    requires w.rows != [] && o.crash.NoCrash?
    ensures var last, d := |w.rows| - 1, w.desk.(preview := None);
            AfterWriteAhead(cfg, w, request, o)
            == World(if o.reply.Accepted? then Refreshed(d, o.receipt).0 else d,
                     w.rows[last := ReplyRow(w.rows[last], o.reply)],
                     w.sent + [SentOrder(request, cfg.clientId, w.rows[last].orderRef)], w.arms)
  {
  }

  lemma AnsweredAlone(p: Process, d: Desk, o: SubmitOrder, row: Row, rows: seq<Row>, sent: seq<SentOrder>)
    requires p.stage.Idle?
    ensures var d0 := d.(preview := None);
            Advanced(System([p.(desk := d, stage := Answered(o, row))], rows, sent), 0)
            == System([p.(desk := if o.reply.Accepted? then Refreshed(d0, o.receipt).0 else d0)],
                      Settling(rows, row.orderRef, o.reply), sent)
  {
  }

  lemma RecoveryIsItsPieces(p: Process, rows: seq<Row>, sent: seq<SentOrder>, c: Command)
    requires Recovery(c.op) && p.stage.Idle? && Durable(rows, sent)
    ensures var w := Step(p.cfg, World(p.desk, rows, sent, 0), c);
            exists n :: Alone(Moved(System([p], rows, sent), Turn(0, Begin(c))), n)
                        == System([p.(desk := w.desk)], w.rows, w.sent)
  {
    var s, w := Moved(System([p], rows, sent), Turn(0, Begin(c))), Step(p.cfg, World(p.desk, rows, sent, 0), c);
    var d := Synced(p.desk, c.before);
    var after := if c.op.Bind? then None else Some(c.after);
    var start := StartOf(d, c.op);
    assert s == System([AfterReading(p, rows, start, c.op.lookups, after)], rows, sent);
    if start.1.Recovers? {
      var account := start.0.account.value.id;
      var pending := ToResolve(rows, account, p.cfg.clientId, 0);
      NamedRefsDiffer(rows);
      ResolvingAlone(p.(desk := start.0), rows, sent, account, c.op.lookups, after, 0);
      assert Alone(s, |pending|) == System([p.(desk := w.desk)], w.rows, w.sent);
    } else {
      assert Alone(s, 0) == System([p.(desk := w.desk)], w.rows, w.sent);
    }
  }

  // ---- one order on two desks ----

  /** Two desks past their checks with the same order: the one that writes the row second finds it unresolved, looks
      it up and never sends. */
  lemma SecondDeskDefers(s: System, i: nat, j: nat, o: SubmitOrder, o': SubmitOrder, preview: Preview, preview': Preview)
    requires SystemInv(s) && i < |s.processes| && j < |s.processes| && i != j
    requires s.processes[i].stage == Checked(o, preview) && s.processes[j].stage == Checked(o', preview')
    requires s.processes[i].cfg.clientId == s.processes[j].cfg.clientId
    requires preview.request.account == preview'.request.account && preview.intent == preview'.intent
    requires FindKey(s.rows, OrderKey(preview.request.account, s.processes[i].cfg.clientId,
                                      preview.request.clientOrderId)) == |s.rows|
    ensures var s1 := Advanced(s, i);
            var s2 := Advanced(s1, j);
            var s3 := Advanced(s2, j);
            s1.processes[i].stage.Written? && s1.rows == s.rows + [s1.processes[i].stage.row]
            && s2.processes[j].stage == Resolving([s1.processes[i].stage.row], o'.lookups, None)
            && s3.processes[j].stage.Idle? && s3.sent == s.sent
  {
    var s1 := Advanced(s, i);
    var q := s.processes[j];
    assert s1.processes[j] == q;
    var row := s1.processes[i].stage.row;
    AppendedIsFound(s.rows, row);
    assert GateOf(q.cfg, q.desk, s1.rows, preview').Unresolved?;
  }

  lemma {:induction false} AppendedIsFound(rows: seq<Row>, row: Row)
    requires FindKey(rows, row.key) == |rows|
    ensures FindKey(rows + [row], row.key) == |rows|
  {
    assert (rows + [row])[|rows|] == row;
    assert forall k :: 0 <= k < |rows| ==> (rows + [row])[k] == rows[k];
  }

  /** Two desks that get the same confirmed order at the same time get that far. */
  lemma UnresolvedIsReached(p: Process, rows: seq<Row>, sent: seq<SentOrder>, c: Command)
    requires DeskInv(p.desk) && p.stage.Idle? && Durable(rows, sent) && c.op.Submit?
    requires OpenGate(p.cfg, Synced(p.desk, c.before), rows, c.op.order).Ready?
    ensures var s0 := System([p, p], rows, sent);
            var s1 := Moved(Moved(s0, Turn(0, Begin(c))), Turn(1, Begin(c)));
            var s2 := Moved(Moved(s1, Turn(0, Advance)), Turn(1, Advance));
            s2.processes[0].stage.Written? && s2.processes[1].stage.Resolving?
            && s2.processes[1].stage.pending == [s2.processes[0].stage.row]
  {
    var q, preview := Started(p, rows, c), Synced(p.desk, c.before).preview;
    var s0 := System([p, p], rows, sent);
    StartedOnOrder(p, rows, sent, c);
    Twins(q, rows, sent);
    var s1 := Moved(Moved(s0, Turn(0, Begin(c))), Turn(1, Begin(c)));
    assert s1 == System([q, q], rows, sent);
    SecondDeskDefers(s1, 0, 1, c.op.order, c.op.order, preview.value, preview.value);
  }

  lemma StartedOnOrder(p: Process, rows: seq<Row>, sent: seq<SentOrder>, c: Command)
    requires DeskInv(p.desk) && p.stage.Idle? && Durable(rows, sent) && c.op.Submit?
    requires OpenGate(p.cfg, Synced(p.desk, c.before), rows, c.op.order).Ready?
    ensures var q, preview := Started(p, rows, c), Synced(p.desk, c.before).preview;
            preview.Some? && q == p.(desk := q.desk, stage := Checked(c.op.order, preview.value))
            && DeskInv(q.desk) && StageOk(q, rows, sent)
            && FindKey(rows, OrderKey(preview.value.request.account, p.cfg.clientId,
                                      preview.value.request.clientOrderId)) == |rows|
  {
    SyncKeepsDeskInv(p.desk, c.before);
    StartedOk(p, rows, sent, c);
    OrderIsNew(p.cfg, Synced(p.desk, c.before), rows, c.op.order);
  }

  lemma OrderIsNew(cfg: Config, d: Desk, rows: seq<Row>, o: SubmitOrder)
    requires DeskInv(d) && OpenGate(cfg, d, rows, o).Ready?
    ensures Authorised(cfg, d, rows, o).1 && d.preview.Some?
    ensures var r := d.preview.value.request;
            FindKey(rows, OrderKey(r.account, cfg.clientId, r.clientOrderId)) == |rows|
  {
    GateOpens(cfg, d, rows, o);
  }

  lemma Twins(q: Process, rows: seq<Row>, sent: seq<SentOrder>)
    requires Durable(rows, sent) && DeskInv(q.desk) && StageOk(q, rows, sent) && !q.stage.Written?
    ensures SystemInv(System([q, q], rows, sent))
  {
  }

  /** Two desks past their checks with different orders both write: one uncertain row is kept by one desk only. */
  lemma TwoUncertainRows(s: System, i: nat, j: nat, o: SubmitOrder, o': SubmitOrder, preview: Preview, preview': Preview)
    requires SystemInv(s) && i < |s.processes| && j < |s.processes| && i != j
    requires s.processes[i].stage == Checked(o, preview) && s.processes[j].stage == Checked(o', preview')
    requires GateOf(s.processes[i].cfg, s.processes[i].desk, s.rows, preview).Ready?
    requires GateOf(s.processes[j].cfg, s.processes[j].desk, Advanced(s, i).rows, preview').Ready?
    ensures !AtMostOneUncertain(Advanced(Advanced(s, i), j).rows)
  {
    var n, rows := |s.rows|, Advanced(Advanced(s, i), j).rows;
    assert Advanced(s, i).processes[j] == s.processes[j];
    assert Uncertain(rows[n]) && Uncertain(rows[n + 1]);
  }

  // ---- settled rows ----

  /** A process holds a reference that its next pieces may still write to. */
  predicate Holds(p: Process, ref: string) {
    match p.stage
    case Written(_, _, row) => row.orderRef == ref
    case Answered(_, row) => row.orderRef == ref
    case Resolving(pending, _, _) => exists k :: 0 <= k < |pending| && pending[k].orderRef == ref
    case _ => false
  }

  predicate Unheld(s: System, ref: string) { forall i :: 0 <= i < |s.processes| ==> !Holds(s.processes[i], ref) }

  /** The row is there, settled, and nobody holds it. */
  predicate Final(s: System, row: Row) { row in s.rows && !Uncertain(row) && Unheld(s, row.orderRef) }

  lemma {:induction false} OnlyUncertainToResolve(rows: seq<Row>, account: string, clientId: nat, i: nat)
    requires i <= |rows|
    ensures forall r :: r in ToResolve(rows, account, clientId, i) ==> r in rows && Uncertain(r)
    decreases |rows| - i
  {
    if i < |rows| { OnlyUncertainToResolve(rows, account, clientId, i + 1); }
  }

  lemma OtherRef(rows: seq<Row>, row: Row, r: Row)
    requires RowsNamed(rows) && DistinctKeys(rows) && row in rows && r in rows && r != row
    ensures r.orderRef != row.orderRef
  {
    NamedRefsDiffer(rows);
    var i :| 0 <= i < |rows| && rows[i] == row;
    var j :| 0 <= j < |rows| && rows[j] == r;
  }

  lemma ReadingHoldsOthers(rows: seq<Row>, row: Row, account: string, clientId: nat)
    requires RowsNamed(rows) && DistinctKeys(rows) && row in rows && !Uncertain(row)
    ensures forall r :: r in ToResolve(rows, account, clientId, 0) ==> r.orderRef != row.orderRef
  {
    OnlyUncertainToResolve(rows, account, clientId, 0);
    forall r | r in ToResolve(rows, account, clientId, 0) ensures r.orderRef != row.orderRef { OtherRef(rows, row, r); }
  }

  lemma StartedHoldsOthers(p: Process, rows: seq<Row>, c: Command, row: Row)
    requires RowsNamed(rows) && DistinctKeys(rows) && row in rows && !Uncertain(row) && p.stage.Idle?
    ensures !Holds(Started(p, rows, c), row.orderRef)
  {
    var d := Synced(p.desk, c.before);
    if Recovery(c.op) && StartOf(d, c.op).1.Recovers? {
      ReadingHoldsOthers(rows, row, StartOf(d, c.op).0.account.value.id, p.cfg.clientId);
      var pending := ToResolve(rows, StartOf(d, c.op).0.account.value.id, p.cfg.clientId, 0);
      assert forall k :: 0 <= k < |pending| ==> pending[k] in pending;
    }
  }

  lemma CreatedHoldsOthers(s: System, i: nat, row: Row)
    requires SystemInv(s) && Final(s, row) && i < |s.processes| && s.processes[i].stage.Checked?
    ensures row in Advanced(s, i).rows && !Holds(Advanced(s, i).processes[i], row.orderRef)
  {
    var p := s.processes[i];
    var g := GateOf(p.cfg, p.desk, s.rows, p.stage.preview);
    if g.Ready? {
      ReadyRow(p.cfg, p.desk, s.rows, p.stage.preview);
      var k :| 0 <= k < |s.rows| && s.rows[k] == row;
      if g.row.orderRef == row.orderRef {
        RefDecodes(g.row.account, g.row.clientId, g.row.clientOrderId, row.account, row.clientId, row.clientOrderId);
      }
    } else if g.Unresolved? {
      OtherRef(s.rows, row, s.rows[g.index]);
    }
  }

  /** A settled row that nobody holds is never written again, whatever the desks do. */
  lemma FinalStep(s: System, t: Turn, row: Row)
    requires SystemInv(s) && Final(s, row)
    ensures Final(Moved(s, t), row)
  {
    if t.process < |s.processes| {
      var i, p := t.process, s.processes[t.process];
      assert !Holds(p, row.orderRef);
      match t.move {
        case Begin(c) =>
          if p.stage.Idle? {
            StartedHoldsOthers(p, s.rows, c, row);
            OthersHoldNone(s, Moved(s, t), i, row);
          }
        case Advance =>
          if p.stage.Checked? { CreatedHoldsOthers(s, i, row); } else { UpdateSparesFinal(s, i, row); }
          OthersHoldNone(s, Moved(s, t), i, row);
        case Die(_) => OthersHoldNone(s, Moved(s, t), i, row);
      }
    }
  }

  lemma OthersHoldNone(s: System, s': System, i: nat, row: Row)
    requires Final(s, row) && i < |s.processes| == |s'.processes| && row in s'.rows
    requires s'.processes == s.processes[i := s'.processes[i]] && !Holds(s'.processes[i], row.orderRef)
    ensures Final(s', row)
  {
    forall j | 0 <= j < |s.processes| ensures !Holds(s'.processes[j], row.orderRef) {
      assert j != i ==> s'.processes[j] == s.processes[j];
    }
  }

  lemma UpdateSparesFinal(s: System, i: nat, row: Row)
    requires SystemInv(s) && Final(s, row) && i < |s.processes| && !s.processes[i].stage.Checked?
    ensures row in Advanced(s, i).rows && !Holds(Advanced(s, i).processes[i], row.orderRef)
  {
    var p, rows := s.processes[i], Advanced(s, i).rows;
    assert !Holds(p, row.orderRef);
    var k :| 0 <= k < |s.rows| && s.rows[k] == row;
    assert rows[k] == row;
    if p.stage.Resolving? && p.stage.pending != [] {
      var rest := p.stage.pending[1..];
      assert forall j :: 0 <= j < |rest| ==> rest[j] == p.stage.pending[j + 1];
    }
  }

  lemma {:induction false} SettledIsFinal(s: System, turns: seq<Turn>, row: Row)
    requires SystemInv(s) && Final(s, row)
    ensures Final(Interleaved(s, turns), row)
    decreases |turns|
  {
    if turns != [] {
      SettledIsFinal(s, turns[..|turns| - 1], row);
      AtMostOneSubmission(s, turns[..|turns| - 1]);
      FinalStep(Interleaved(s, turns[..|turns| - 1]), turns[|turns| - 1], row);
    }
  }

  /** Held rows are not safe: when two desks recover the same row, one whose lookup found the order settles it, and the
      other, whose lookup came back empty, makes it unknown again and drops its broker ID. */
  lemma StaleRecoveryUnsettles(p: Process, row: Row, sent: seq<SentOrder>, before: Health, after: Health, found: Submission)
    requires p.stage.Idle? && RecoverStart(Synced(p.desk, before)).1.Recovers?
    requires Recoverable(row, Synced(p.desk, before).account.value.id, p.cfg.clientId) && row.status == "submitting"
    ensures var none, some := Command(before, Recover(map[]), after),
                              Command(before, Recover(map[row.orderRef := Found(found)]), after);
            var s0 := System([p, p], [row], sent);
            var s1 := Moved(Moved(s0, Turn(0, Begin(none))), Turn(1, Begin(some)));
            var s2 := Moved(s1, Turn(1, Advance));
            var s3 := Moved(s2, Turn(0, Advance));
            s2.rows == [Settled(row, found.status, Some(found), None)]
            && s3.rows == [Settled(row, "unknown", None, Some("recovery_lookup_empty"))]
  {
    var none, some := Command(before, Recover(map[]), after),
                      Command(before, Recover(map[row.orderRef := Found(found)]), after);
    var d := RecoverStart(Synced(p.desk, before)).0;
    var q0 := p.(desk := d, stage := Resolving([row], map[], Some(after)));
    var q1 := p.(desk := d, stage := Resolving([row], map[row.orderRef := Found(found)], Some(after)));
    var account := d.account.value.id;
    assert ToResolve([row], account, p.cfg.clientId, 1) == [];
    assert ToResolve([row], account, p.cfg.clientId, 0) == [row];
    var s0 := System([p, p], [row], sent);
    var s1 := Moved(Moved(s0, Turn(0, Begin(none))), Turn(1, Begin(some)));
    assert s1 == System([q0, q1], [row], sent);
    var settled := Settled(row, found.status, Some(found), None);
    var s2 := Moved(s1, Turn(1, Advance));
    assert s2.rows == [settled] && s2.processes[0] == q0;
    assert Moved(s2, Turn(0, Advance)).rows == [Resettled(settled, row, NotFound)];
  }
}
