/**
 The life of an invoice over whole runs. No UPDATE tests the old status, yet the
 status only ever moves forward, and what was written at submission or
 validation is never overwritten.
 */
module Lifecycle {
  import opened Wrappers
  import opened Outbox
  import opened Decisions
  import opened Invariant
  import opened Protocol
  import opened ProtocolInvariant
  import Ubl

  /** One step of the lifecycle, or none. */
  predicate Edge(a: Status, b: Status) {
    || a == b
    || (a == Pending && (b == Submitted || b == Failed))
    || (a == Submitted && (b == Valid || b == Invalid || b == Cancelled))
    || (a == Valid && b == Cancelled)
  }

  /** Any number of steps. */
  predicate Follows(a: Status, b: Status) {
    || Edge(a, b)
    || a == Pending
  }

  predicate Final(a: Status) {
    a == Invalid || a == Cancelled || a == Failed
  }

  /** Columns written once: at creation, at submission, at validation. */
  predicate WrittenOnce(row: Invoice, row': Invoice) {
    && row'.ref == row.ref && row'.payload == row.payload && row'.createdAt == row.createdAt
    && (EverSubmitted(row) ==>
          && row'.submissionUid == row.submissionUid && row'.uuid == row.uuid
          && row'.signature == row.signature && row'.document == row.document && row'.digest == row.digest
          && row'.submittedAt == row.submittedAt)
    && (row.validatedAt.Some? ==>
          row'.validatedAt == row.validatedAt && row'.cancellableUntil == row.cancellableUntil
          && row'.qrUrl == row.qrUrl && row'.longId == row.longId)
    && (row.cancelledAt.Some? ==> row'.cancelledAt == row.cancelledAt)
  }

  predicate Progress(row: Invoice, row': Invoice) {
    Edge(row.status, row'.status) && WrittenOnce(row, row')
  }

  lemma TxnFollowsLifecycle(c: Settings, due: Due, row: Invoice, ev: Event, txn: Txn, at: int, now: int)
    requires RowOk(c, row) && EventOk(c, row, ev) && TxnFits(c, due, row, ev, txn, at)
    ensures Progress(row, RowAfter(row, txn, now))
  {
  }

  /** The row a commit leaves behind for the invoice it names. */
  lemma CommittedRow(c: Settings, s: System, kind: Kind, t: int)
    requires Inv(c, s) && Enabled(c, s, Commit(kind, t))
    ensures var w := Get(s, kind);
            && w.batch[0].id in s.st.invoices
            && Owns(s.st, w.batch[0].o, w.batch[0].id)
            && TxnFits(c, w.batch[0], s.st.invoices[w.batch[0].id], s.st.outbox[w.batch[0].o], w.phase.txn, w.phase.at)
            && EventOk(c, s.st.invoices[w.batch[0].id], s.st.outbox[w.batch[0].o])
            && RowOk(c, s.st.invoices[w.batch[0].id])
            && Exec(s.st, w.phase.txn, t).invoices
               == s.st.invoices[w.batch[0].id := RowAfter(s.st.invoices[w.batch[0].id], w.phase.txn, t)]
  {
    var w := Get(s, kind);
    assert WorkerInv(c, s, kind);
    assert Held(s, kind, w.batch[0]);
    assert LocalInv(c, s.st, w.batch[0].id);
    var row := s.st.invoices[w.batch[0].id];
    assert s.st.invoices[w.batch[0].id := row] == s.st.invoices;
  }

  lemma CommitMakesProgress(c: Settings, s: System, kind: Kind, t: int, id: InvoiceId)
    requires Inv(c, s) && Enabled(c, s, Commit(kind, t)) && id in s.st.invoices
    ensures id in Apply(c, s, Commit(kind, t)).st.invoices
    ensures Progress(s.st.invoices[id], Apply(c, s, Commit(kind, t)).st.invoices[id])
  {
    var w := Get(s, kind);
    CommittedRow(c, s, kind, t);
    TxnFollowsLifecycle(c, w.batch[0], s.st.invoices[w.batch[0].id], s.st.outbox[w.batch[0].o],
                        w.phase.txn, w.phase.at, t);
  }

  /** The times a commit writes are its own clock's, and for a cancellation LHDN
      agreed to the clock at its answer. */
  lemma CommitStamps(c: Settings, s: System, kind: Kind, t: int)
    requires Inv(c, s) && Enabled(c, s, Commit(kind, t))
    ensures var id, at, s' := Get(s, kind).batch[0].id, Get(s, kind).phase.at, Apply(c, s, Commit(kind, t));
            && id in s.st.invoices && id in s'.st.invoices
            && var row, row' := s.st.invoices[id], s'.st.invoices[id];
               && (row' == row || row'.updatedAt == t)
               && (row'.status == Submitted && row.status == Pending ==> row'.submittedAt == Some(t))
               && (row'.status == Cancelled && kind == Cancel ==> row'.cancelledAt == Some(at))
  {
    CommittedRow(c, s, kind, t);
    assert WorkerInv(c, s, kind) && Held(s, kind, Get(s, kind).batch[0]);
  }

  /** Only the API and commits write the tables. */
  lemma OtherStepsKeepStore(c: Settings, s: System, step: Step)
    requires Enabled(c, s, step) && !step.Create? && !step.RequestCancel? && !step.Commit?
    ensures Apply(c, s, step).st == s.st
  {
  }

  lemma CreateMakesProgress(c: Settings, s: System, step: Step, id: InvoiceId)
    requires Enabled(c, s, step) && step.Create? && id in s.st.invoices
    ensures id in Apply(c, s, step).st.invoices && Apply(c, s, step).st.invoices[id] == s.st.invoices[id]
  {
  }

  lemma RequestMakesProgress(c: Settings, s: System, step: Step, id: InvoiceId)
    requires Enabled(c, s, step) && step.RequestCancel? && id in s.st.invoices
    ensures id in Apply(c, s, step).st.invoices
    ensures Progress(s.st.invoices[id], Apply(c, s, step).st.invoices[id])
  {
  }

  /** No step of the system removes an invoice, moves its status backwards or
      sideways, or rewrites a column that is written once. */
  lemma StepMakesProgress(c: Settings, s: System, step: Step, id: InvoiceId)
    requires SettingsOk(c) && Inv(c, s) && Enabled(c, s, step) && id in s.st.invoices
    ensures id in Apply(c, s, step).st.invoices
    ensures Progress(s.st.invoices[id], Apply(c, s, step).st.invoices[id])
  {
    match step
    case Commit(kind, t) => CommitMakesProgress(c, s, kind, t, id);
    case Create(_, _, _) => CreateMakesProgress(c, s, step, id);
    case RequestCancel(_, _, _) => RequestMakesProgress(c, s, step, id);
    case _ => OtherStepsKeepStore(c, s, step);
  }

  lemma ProgressComposes(first: Invoice, row: Invoice, row': Invoice)
    requires Follows(first.status, row.status) && WrittenOnce(first, row) && Progress(row, row')
    ensures Follows(first.status, row'.status) && WrittenOnce(first, row')
    ensures Final(first.status) ==> row'.status == first.status
  {
  }

  ghost predicate Later(c: Settings, run: seq<System>, i: nat, j: nat, id: InvoiceId)
    requires i <= j < |run| && id in run[i].st.invoices
  {
    && id in run[j].st.invoices
    && Follows(run[i].st.invoices[id].status, run[j].st.invoices[id].status)
    && WrittenOnce(run[i].st.invoices[id], run[j].st.invoices[id])
  }

  /** Over every run: an invoice never disappears, its status only moves along
      Pending to Submitted or Failed, Submitted to Valid, Invalid or Cancelled, Valid to
      Cancelled, and the columns written once stay as they were. */
  lemma {:induction false} RunMakesProgress(c: Settings, run: seq<System>, i: nat, j: nat, id: InvoiceId)
    requires SettingsOk(c) && IsRun(c, run) && i <= j < |run| && id in run[i].st.invoices
    ensures Later(c, run, i, j, id)
    ensures Final(run[i].st.invoices[id].status) ==> run[j].st.invoices[id].status == run[i].st.invoices[id].status
    ensures i < j ==>
              id in run[j - 1].st.invoices && Edge(run[j - 1].st.invoices[id].status, run[j].st.invoices[id].status)
    decreases j
  {
    if i < j {
      RunMakesProgress(c, run, i, j - 1, id);
      OneStepOfRun(c, run, j - 1, id);
      ProgressComposes(run[i].st.invoices[id], run[j - 1].st.invoices[id], run[j].st.invoices[id]);
    }
  }

  lemma OneStepOfRun(c: Settings, run: seq<System>, i: nat, id: InvoiceId)
    requires SettingsOk(c) && IsRun(c, run) && i + 1 < |run| && id in run[i].st.invoices
    ensures id in run[i + 1].st.invoices && Progress(run[i].st.invoices[id], run[i + 1].st.invoices[id])
  {
    RunKeepsInv(c, run, i);
    assert StepAt(c, run, i);
    var step :| Enabled(c, run[i], step) && run[i + 1] == Apply(c, run[i], step);
    StepMakesProgress(c, run[i], step, id);
  }

  // ----- Ownership, as a reader would state it -------------------------------

  ghost predicate HasEvent(st: Store, id: InvoiceId, kind: Kind) {
    exists o: nat :: Owns(st, o, id) && st.outbox[o].kind == kind
  }

  ghost predicate NoEvent(st: Store, id: InvoiceId) {
    forall o: nat :: !Owns(st, o, id)
  }

  /** Who owns which event, in every reachable state: at most one event per
      invoice; a submit event exactly for Pending rows, a poll event exactly for
      Submitted rows without a recorded failure, a cancel event only for Valid
      rows, and none for the final states. */
  lemma EventOwnership(c: Settings, run: seq<System>, i: nat, id: InvoiceId)
    requires SettingsOk(c) && IsRun(c, run) && i < |run| && id in run[i].st.invoices
    ensures forall o: nat, p: nat :: Owns(run[i].st, o, id) && Owns(run[i].st, p, id) ==> o == p
    ensures var st, row := run[i].st, run[i].st.invoices[id];
            && (HasEvent(st, id, Submit) <==> row.status == Pending)
            && (HasEvent(st, id, Poll) <==> row.status == Submitted && row.error == None)
            && (HasEvent(st, id, Cancel) ==> row.status == Valid)
            && (Final(row.status) ==> NoEvent(st, id))
            && (row.status == Submitted ==> (NoEvent(st, id) <==> row.error.Some?))
  {
    RunKeepsInv(c, run, i);
    var st := run[i].st;
    assert LocalInv(c, st, id);
    if NeedsEvent(st.invoices[id]) {
      var o: nat :| Owns(st, o, id);
      assert HasEvent(st, id, st.outbox[o].kind);
    }
  }

  /** References are unique, so a code number picks out one row. */
  lemma ReferencesUnique(c: Settings, run: seq<System>, i: nat, id: InvoiceId, other: InvoiceId)
    requires SettingsOk(c) && IsRun(c, run) && i < |run|
    requires id in run[i].st.invoices && other in run[i].st.invoices
    ensures Ubl.CodeNumber(run[i].st.invoices[id].payload) == Some(run[i].st.invoices[id].ref)
    ensures Ubl.CodeNumber(run[i].st.invoices[id].payload) == Ubl.CodeNumber(run[i].st.invoices[other].payload)
            ==> id == other
  {
    RunKeepsInv(c, run, i);
    assert LocalInv(c, run[i].st, id) && LocalInv(c, run[i].st, other);
  }

  // ----- Snapshots -----------------------------------------------------------

  /** Whatever interleaves between a worker's fetch and its commit, each event
      still in its batch is in the table with the kind, invoice and attempts it
      was fetched with, and the row it loaded is the row the table holds. */
  lemma SnapshotsStayCurrent(c: Settings, run: seq<System>, i: nat, kind: Kind, due: Due)
    requires SettingsOk(c) && IsRun(c, run) && i < |run| && due in Get(run[i], kind).batch
    ensures due.o in run[i].st.outbox && due.id in run[i].st.invoices
    ensures var ev := run[i].st.outbox[due.o];
            ev.kind == kind && ev.invoiceId == due.id && ev.attempts == due.attempts
    ensures kind == Submit ==> run[i].st.invoices[due.id].attempts == due.attempts
    ensures due == Get(run[i], kind).batch[0] ==>
              match Get(run[i], kind).phase
              case Loaded(found) => found == Some(run[i].st.invoices[due.id])
              case InFlight(row, _) => row == run[i].st.invoices[due.id]
              case Rejected(row, _, _) => row == run[i].st.invoices[due.id]
              case _ => true
  {
    RunKeepsInv(c, run, i);
    assert WorkerInv(c, run[i], kind) && Held(run[i], kind, due);
    assert LocalInv(c, run[i].st, due.id);
  }
}
