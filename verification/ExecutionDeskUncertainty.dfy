/** Uncertain order rows when several live desks share a ledger (execution/ibkr_execution.py): which turns make a second
    one, which make a settled row uncertain again, and what an uncertain row still lets through. */
module ExecutionDeskUncertainty {
  import opened ExecutionDesk
  import opened ExecutionDeskSafety
  import opened ExecutionDeskTransactions
  import opened Texts

  /** A broker's reply, or a lookup for a row as it was read, that leaves the row uncertain. */
  predicate UncertainReply(reply: SubmitReply) {
    reply.TimedOut? || reply.Raised? || (reply.Accepted? && UncertainStatus(reply.s.status))
  }

  predicate UncertainAnswer(read: Row, answer: Lookup) {
    match answer
    case Found(s) => UncertainStatus(s.status)
    case LookupRaised => false
    case _ => read.status == "submitting"
  }

  /** The row with this reference is there and settled. */
  predicate SettledAt(rows: seq<Row>, ref: string) {
    FindRef(rows, ref) < |rows| && !Uncertain(rows[FindRef(rows, ref)])
  }

  /** A process whose next piece writes an uncertain row where none was: it creates its order's row, or it settles or
      looks up a row that is settled by now. */
  predicate MakesUncertain(p: Process, rows: seq<Row>) {
    match p.stage
    case Checked(_, preview) => p.desk.account.Some? && GateOf(p.cfg, p.desk, rows, preview).Ready?
    case Answered(o, row) => UncertainReply(o.reply) && SettledAt(rows, row.orderRef)
    case Resolving(pending, lookups, _) =>
      pending != [] && UncertainAnswer(pending[0], LookedUp(lookups, pending[0].orderRef))
      && SettledAt(rows, pending[0].orderRef)
    case _ => false
  }

  lemma AppendUncertain(rows: seq<Row>, row: Row)
    requires AtMostOneUncertain(rows) && Uncertain(row)
    ensures AtMostOneUncertain(rows + [row]) <==> !RecoveryRequired(rows)
  {
    var all := rows + [row];
    assert all[|rows|] == row;
    if RecoveryRequired(rows) {
      var i :| 0 <= i < |rows| && Uncertain(rows[i]);
      assert Uncertain(all[i]) && Uncertain(all[|rows|]);
    }
  }

  lemma UpdateUncertain(rows: seq<Row>, k: nat, row: Row)
    requires AtMostOneUncertain(rows) && k < |rows|
    ensures AtMostOneUncertain(rows[k := row]) <==> !(RecoveryRequired(rows) && Uncertain(row) && !Uncertain(rows[k]))
  {
    if RecoveryRequired(rows) && Uncertain(row) && !Uncertain(rows[k]) {
      var i :| 0 <= i < |rows| && Uncertain(rows[i]);
      assert Uncertain(rows[k := row][i]) && Uncertain(rows[k := row][k]);
    }
  }

  /** A turn leaves two uncertain rows where there was one at most exactly when one was there and the turn goes on with a
      process that makes another. */
  lemma SecondUncertainIff(s: System, t: Turn)
    requires SystemInv(s) && AtMostOneUncertain(s.rows)
    ensures !AtMostOneUncertain(Moved(s, t).rows)
            <==> RecoveryRequired(s.rows) && t.process < |s.processes| && t.move.Advance?
                 && MakesUncertain(s.processes[t.process], s.rows)
  {
    if t.process < |s.processes| && t.move.Advance? {
      var p := s.processes[t.process];
      match p.stage {
        case Checked(_, preview) =>
          if p.desk.account.Some? && GateOf(p.cfg, p.desk, s.rows, preview).Ready? {
            AppendUncertain(s.rows, GateOf(p.cfg, p.desk, s.rows, preview).row);
          }
        case Answered(o, row) =>
          var k := FindRef(s.rows, row.orderRef);
          if k < |s.rows| { UpdateUncertain(s.rows, k, ReplyRow(s.rows[k], o.reply)); }
        case Resolving(pending, lookups, _) =>
          if pending != [] { LookupUncertain(s.rows, pending[0], LookedUp(lookups, pending[0].orderRef)); }
        case _ =>
      }
    }
  }

  lemma LookupUncertain(rows: seq<Row>, read: Row, answer: Lookup)
    requires AtMostOneUncertain(rows)
    ensures !answer.LookupRaised? ==>
              (!AtMostOneUncertain(Resolved(rows, read, answer))
               <==> RecoveryRequired(rows) && UncertainAnswer(read, answer) && SettledAt(rows, read.orderRef))
  {
    var k := FindRef(rows, read.orderRef);
    if k < |rows| {
      assert rows[k := rows[k]] == rows;
      UpdateUncertain(rows, k, Resettled(rows[k], read, answer));
    }
  }

  /** Two idle desks with different orders, both ready on the same rows: begun together and taken to their rows, they
      leave two uncertain ones. */
  lemma TwoUncertainReached(p: Process, q: Process, rows: seq<Row>, sent: seq<SentOrder>, c: Command, d: Command)
    requires DeskInv(p.desk) && p.stage.Idle? && DeskInv(q.desk) && q.stage.Idle? && Durable(rows, sent)
    requires c.op.Submit? && OpenGate(p.cfg, Synced(p.desk, c.before), rows, c.op.order).Ready?
    requires d.op.Submit? && OpenGate(q.cfg, Synced(q.desk, d.before), rows, d.op.order).Ready?
    requires OpenGate(p.cfg, Synced(p.desk, c.before), rows, c.op.order).row.key
             != OpenGate(q.cfg, Synced(q.desk, d.before), rows, d.op.order).row.key
    ensures var s0 := System([p, q], rows, sent);
            var s1 := Moved(Moved(s0, Turn(0, Begin(c))), Turn(1, Begin(d)));
            !RecoveryRequired(rows)
            && !AtMostOneUncertain(Moved(Moved(s1, Turn(0, Advance)), Turn(1, Advance)).rows)
  {
    var s0 := System([p, q], rows, sent);
    var p1, q1 := Started(p, rows, c), Started(q, rows, d);
    StartedAtGate(p, rows, sent, c);
    StartedAtGate(q, rows, sent, d);
    UnresolvedIsUnreachable(p.cfg, Synced(p.desk, c.before), rows, c.op.order);
    assert Moved(Moved(s0, Turn(0, Begin(c))), Turn(1, Begin(d))) == System([p1, q1], rows, sent);
    BothWrite(p1, q1, rows, sent);
  }

  lemma BothWrite(p: Process, q: Process, rows: seq<Row>, sent: seq<SentOrder>)
    requires Durable(rows, sent) && AtReady(p, rows, sent) && AtReady(q, rows, sent)
    requires GateOf(p.cfg, p.desk, rows, p.stage.preview).row.key != GateOf(q.cfg, q.desk, rows, q.stage.preview).row.key
    ensures !AtMostOneUncertain(Advanced(Advanced(System([p, q], rows, sent), 0), 1).rows)
  {
    Pair(p, q, rows, sent);
    StillReady(rows, GateOf(p.cfg, p.desk, rows, p.stage.preview).row, q.cfg, q.desk, q.stage.preview);
    TwoUncertainRows(System([p, q], rows, sent), 0, 1, p.stage.order, q.stage.order, p.stage.preview, q.stage.preview);
  }

  /** Past its checks, with an order the ledger does not know. */
  predicate AtReady(p: Process, rows: seq<Row>, sent: seq<SentOrder>) {
    p.stage.Checked? && DeskInv(p.desk) && StageOk(p, rows, sent) && p.desk.account.Some?
    && GateOf(p.cfg, p.desk, rows, p.stage.preview).Ready?
  }

  lemma StartedAtGate(p: Process, rows: seq<Row>, sent: seq<SentOrder>, c: Command)
    requires DeskInv(p.desk) && p.stage.Idle? && Durable(rows, sent) && c.op.Submit?
    requires OpenGate(p.cfg, Synced(p.desk, c.before), rows, c.op.order).Ready?
    ensures var q := Started(p, rows, c);
            AtReady(q, rows, sent)
            && GateOf(q.cfg, q.desk, rows, q.stage.preview) == OpenGate(p.cfg, Synced(p.desk, c.before), rows, c.op.order)
  {
    StartedOk(p, rows, sent, c);
    SyncKeepsDeskInv(p.desk, c.before);
    ReadyMeansPassed(p.cfg, Synced(p.desk, c.before), rows, c.op.order);
  }

  lemma Pair(p: Process, q: Process, rows: seq<Row>, sent: seq<SentOrder>)
    requires Durable(rows, sent) && DeskInv(p.desk) && StageOk(p, rows, sent) && !p.stage.Written?
    requires DeskInv(q.desk) && StageOk(q, rows, sent) && !q.stage.Written?
    ensures SystemInv(System([p, q], rows, sent))
  {
  }

  /** Another order's row does not close a gate. */
  lemma StillReady(rows: seq<Row>, row: Row, cfg: Config, d: Desk, preview: Preview)
    requires d.account.Some? && GateOf(cfg, d, rows, preview).Ready? && row.key != GateOf(cfg, d, rows, preview).row.key
    ensures GateOf(cfg, d, rows + [row], preview).Ready?
  {
    assert forall k :: 0 <= k < |rows| ==> (rows + [row])[k] == rows[k];
    assert (rows + [row])[|rows|] == row;
  }

  // ---- settled rows made uncertain ----

  /** A process whose next piece writes an uncertain status under this reference. */
  predicate Unsettles(p: Process, ref: string) {
    match p.stage
    case Answered(o, row) => row.orderRef == ref && UncertainReply(o.reply)
    case Resolving(pending, lookups, _) =>
      pending != [] && pending[0].orderRef == ref && UncertainAnswer(pending[0], LookedUp(lookups, ref))
    case _ => false
  }

  /** A turn makes a settled row uncertain exactly when it goes on with a process that holds the row's reference and
      writes a timeout, an exception or an uncertain status there, or finds nothing for a row it read as submitting. */
  lemma UnsettledIff(s: System, t: Turn, k: nat)
    requires SystemInv(s) && k < |s.rows| && !Uncertain(s.rows[k])
    ensures var rows := Moved(s, t).rows;
            k < |rows| && rows[k].orderRef == s.rows[k].orderRef
            && (Uncertain(rows[k]) <==> t.process < |s.processes| && t.move.Advance?
                                        && Unsettles(s.processes[t.process], s.rows[k].orderRef))
  {
    if t.process < |s.processes| && t.move.Advance? {
      NamedRefsDiffer(s.rows);
      var p := s.processes[t.process];
      match p.stage {
        case Answered(o, row) => ReplyAt(s.rows, row.orderRef, o.reply, k);
        case Resolving(pending, lookups, _) =>
          if pending != [] && !LookedUp(lookups, pending[0].orderRef).LookupRaised? {
            LookupAt(s.rows, pending[0], LookedUp(lookups, pending[0].orderRef), k);
          }
        case _ =>
      }
    }
  }

  lemma ReplyAt(rows: seq<Row>, ref: string, reply: SubmitReply, k: nat)
    requires RefsDiffer(rows) && k < |rows| && !Uncertain(rows[k])
    ensures var row := Settling(rows, ref, reply)[k];
            row.orderRef == rows[k].orderRef && (Uncertain(row) <==> rows[k].orderRef == ref && UncertainReply(reply))
  {
    assert rows[k].orderRef == ref ==> FindRef(rows, ref) == k;
  }

  lemma LookupAt(rows: seq<Row>, read: Row, answer: Lookup, k: nat)
    requires RefsDiffer(rows) && k < |rows| && !Uncertain(rows[k]) && !answer.LookupRaised?
    ensures var row := Resolved(rows, read, answer)[k];
            row.orderRef == rows[k].orderRef
            && (Uncertain(row) <==> rows[k].orderRef == read.orderRef && UncertainAnswer(read, answer))
  {
    assert rows[k].orderRef == read.orderRef ==> FindRef(rows, read.orderRef) == k;
  }

  // ---- what an uncertain row still lets through ----

  /** A process past its checks that has not called the broker. */
  predicate PastChecks(p: Process) { p.stage.Checked? || p.stage.Written? }

  function CountPast(ps: seq<Process>): nat {
    if ps == [] then 0 else CountPast(ps[..|ps| - 1]) + if PastChecks(ps[|ps| - 1]) then 1 else 0
  }

  lemma {:induction false} CountOneChange(ps: seq<Process>, i: nat, p: Process)
    requires i < |ps|
    ensures CountPast(ps[i := p]) + (if PastChecks(ps[i]) then 1 else 0)
         == CountPast(ps) + if PastChecks(p) then 1 else 0
    decreases |ps|
  {
    var n := |ps| - 1;
    if i < n {
      CountOneChange(ps[..n], i, p);
      assert ps[i := p][..n] == ps[..n][i := p];
    } else {
      assert ps[i := p][..n] == ps[..n];
    }
  }

  /** With an uncertain row, no turn raises the number of orders sent and processes past their checks. */
  lemma TurnPays(s: System, t: Turn)
    requires RecoveryRequired(s.rows)
    ensures var s' := Moved(s, t);
            |s'.sent| + CountPast(s'.processes) <= |s.sent| + CountPast(s.processes)
  {
    if t.process < |s.processes| {
      var p, q := s.processes[t.process], Moved(s, t).processes[t.process];
      CountOneChange(s.processes, t.process, q);
      if t.move.Begin? && p.stage.Idle? {
        assert !PastChecks(q);
      }
    }
  }

  /** As long as some row stays uncertain, the orders still sent are at most the processes that were past their checks
      when it was met, however the desks go on. */
  lemma {:induction false} SentWhileUncertain(s: System, turns: seq<Turn>)
    requires forall i :: 0 <= i < |turns| ==> RecoveryRequired(Interleaved(s, turns[..i]).rows)
    ensures var s' := Interleaved(s, turns);
            |s'.sent| + CountPast(s'.processes) <= |s.sent| + CountPast(s.processes)
    decreases |turns|
  {
    if turns != [] {
      var before := turns[..|turns| - 1];
      assert forall i :: 0 <= i < |before| ==> before[..i] == turns[..i];
      SentWhileUncertain(s, before);
      TurnPays(Interleaved(s, before), turns[|turns| - 1]);
    }
  }
}
