/**
 Nothing in the tables is invented: over whole runs, every status but Pending,
 every recorded refusal and every identifier, time and link received from LHDN is
 there because LHDN answered so to a call made for that very invoice. `heard` is
 the set of those answers.
 */
module Evidence {
  import opened Wrappers
  import opened Json
  import opened Lhdn
  import opened Outbox
  import opened Decisions
  import opened Invariant
  import opened InvariantProofs
  import opened Protocol
  import opened ProtocolInvariant
  import opened Lifecycle
  import Ubl

  // ----- What LHDN must have said --------------------------------------------

  /** A submission reply that does not reject `ref`, and the uuid it lists for it. */
  predicate Took(heard: set<Reply>, ref: string, uid: string, uuid: string) {
    exists reply :: reply in heard && TookIn(reply, ref, uid, uuid)
  }

  predicate TookIn(reply: Reply, ref: string, uid: string, uuid: string) {
    && reply.Submission?
    && (forall x :: x in reply.rejected ==> x.codeNumber != ref)
    && reply.submissionUid == uid
    && (if exists a :: a in reply.accepted && a.codeNumber == ref
        then exists a :: a in reply.accepted && a.codeNumber == ref && a.uuid == uuid
        else uuid == "")
  }

  /** A submission reply that rejects `ref` with this code, message and details. */
  predicate RejectedWith(heard: set<Reply>, ref: string, code: string, message: string, details: seq<Json>) {
    exists reply :: reply in heard && reply.Submission?
                    && RejectedDocument(ref, code, message, details) in reply.rejected
  }

  predicate Validated(heard: set<Reply>, portal: string, longId: string, qrUrl: string, at: int) {
    exists reply :: reply in heard && ValidatedIn(reply, portal, longId, qrUrl, at)
  }

  predicate ValidatedIn(reply: Reply, portal: string, longId: string, qrUrl: string, at: int) {
    && reply.Details? && reply.details.status == NowValid
    && (reply.details.longId == Some(longId) || (reply.details.longId == None && longId == ""))
    && qrUrl == portal + "/" + reply.details.uuid + "/share/" + longId
    && (reply.details.validatedAt == Some(at) || reply.details.validatedAt == None)
  }

  predicate Ended(heard: set<Reply>, at: int) {
    || CancelOk in heard
    || exists reply :: reply in heard && reply.Details? && reply.details.status == NowCancelled
                       && (reply.details.cancelledAt == Some(at) || reply.details.cancelledAt == None)
  }

  /** The reply a recorded error quotes. */
  predicate Quotes(heard: set<Reply>, ref: string, error: ErrorNote) {
    match error
    case DocumentRejected(code, message, details) => RejectedWith(heard, ref, code, message, details)
    case SubmitFailed(e, _) => Refused(e) in heard
    case PollFailed(e, _) => Refused(e) in heard
    case CancelFailed(e, _) => Refused(e) in heard
    case ValidationFailed(why) =>
      exists reply :: reply in heard && reply.Details? && reply.details.status == NowInvalid
                      && reply.details.reason == why
    case PollExhausted(_) =>
      exists reply :: reply in heard && reply.Details? && reply.details.status == StillSubmitted
    case _ => true
  }

  /** Errors that can make a row Failed, or Invalid. */
  predicate FailsDelivery(error: ErrorNote) {
    error.BuildFailed? || error.DocumentRejected? || error.SubmitFailed?
  }

  predicate FailsValidation(error: ErrorNote) {
    error.ValidationFailed? || error.PollExhausted?
  }

  predicate RowEvidence(c: Settings, row: Invoice, heard: set<Reply>) {
    && (EverSubmitted(row) ==>
          row.submissionUid.Some? && row.uuid.Some? && Took(heard, row.ref, row.submissionUid.value, row.uuid.value))
    && (row.validatedAt.Some? ==>
          row.longId.Some? && row.qrUrl.Some?
          && Validated(heard, c.portal, row.longId.value, row.qrUrl.value, row.validatedAt.value))
    && (row.status == Status.Cancelled ==> row.cancelledAt.Some? && Ended(heard, row.cancelledAt.value))
    && (row.error.Some? ==>
          && Quotes(heard, row.ref, row.error.value)
          && (row.status == Failed ==> FailsDelivery(row.error.value))
          && (row.status == Invalid ==> FailsValidation(row.error.value)))
  }

  /** What a transaction about to be committed rests on. */
  predicate TxnEvidence(c: Settings, ref: string, heard: set<Reply>, txn: Txn) {
    match txn
    case CompleteSubmission(_, _, uid, uuid, _, _, _) => Took(heard, ref, uid, uuid)
    case FailPermanently(_, _, _, error) => FailsDelivery(error) && Quotes(heard, ref, error)
    case Reschedule(_, _, _, _, error, _) => Quotes(heard, ref, error)
    case MarkValid(_, _, longId, qrUrl, at, _) => Validated(heard, c.portal, longId, qrUrl, at)
    case MarkInvalid(_, _, error) => FailsValidation(error) && Quotes(heard, ref, error)
    case MarkCancelledViaPoll(_, _, at) => Ended(heard, at)
    case FailPoll(_, _, error) => Quotes(heard, ref, error)
    case CompleteCancel(_, _, at) => Ended(heard, at)
    case FailCancel(_, _, error) => Quotes(heard, ref, error)
    case _ => true
  }

  // ----- One row -------------------------------------------------------------

  lemma EvidenceGrows(c: Settings, row: Invoice, heard: set<Reply>, heard': set<Reply>)
    requires RowEvidence(c, row, heard) && heard <= heard'
    ensures RowEvidence(c, row, heard')
  {
  }

  lemma TxnKeepsEvidence(c: Settings, due: Due, row: Invoice, ev: Event, txn: Txn, at: int, now: int, heard: set<Reply>)
    requires RowOk(c, row) && EventOk(c, row, ev) && TxnFits(c, due, row, ev, txn, at)
    requires RowEvidence(c, row, heard) && TxnEvidence(c, row.ref, heard, txn)
    ensures RowEvidence(c, RowAfter(row, txn, now), heard)
  {
  }

  lemma PlanHasEvidence(c: Settings, kind: Kind, due: Due, row: Invoice, now: int, heard: set<Reply>)
    ensures var plan := PlanFor(c, kind, due, Some(row), now);
            plan.Settle? ==> TxnEvidence(c, row.ref, heard, plan.txn)
  {
  }

  lemma VerdictHasEvidence(c: Settings, kind: Kind, due: Due, row: Invoice, builtAt: int, reply: Reply, now: int,
                           heard: set<Reply>)
    requires SettingsOk(c) && RowOk(c, row) && Answers(kind, reply) && CallJustified(c, kind, row, builtAt)
    requires reply in heard
    ensures match VerdictFor(c, kind, due, row, builtAt, reply, now)
            case Settled(txn) => TxnEvidence(c, row.ref, heard, txn)
            case ReadAgain(e) => FailsDelivery(e) && Quotes(heard, row.ref, e)
  {
    if kind == Submit {
      var d := c.build(row.payload, builtAt).value;
      assert match c.build(row.payload, builtAt)
             case Success(d) => Ubl.CodeNumber(row.payload) == Some(d.codeNumber)
             case Failure(_) => true;
      if reply.Submission? { SubmissionHasEvidence(reply, row.ref, heard); }
    }
  }

  lemma SubmissionHasEvidence(reply: Reply, ref: string, heard: set<Reply>)
    requires reply.Submission? && reply in heard
    ensures match FirstRejected(reply.rejected, ref)
            case Some(r) => RejectedWith(heard, ref, r.code, r.message, r.details)
            case None => Took(heard, ref, reply.submissionUid, AcceptedUuid(reply.accepted, ref))
  {
    match FirstRejected(reply.rejected, ref)
    case Some(r) => assert RejectedDocument(ref, r.code, r.message, r.details) == r;
    case None => assert TookIn(reply, ref, reply.submissionUid, AcceptedUuid(reply.accepted, ref));
  }

  // ----- The system ----------------------------------------------------------

  /** The transaction or rejection a worker carries rests on answers it heard. */
  ghost predicate WorkerEvidence(c: Settings, s: System, kind: Kind) {
    var w := Get(s, kind);
    w.batch != [] && w.batch[0].id in s.st.invoices ==>
      var row, heard := s.st.invoices[w.batch[0].id], Heard(s.h, w.batch[0].id);
      match w.phase
      case Rejected(_, error, _) => FailsDelivery(error) && Quotes(heard, row.ref, error)
      case Ready(txn, _, _) => TxnEvidence(c, row.ref, heard, txn)
      case _ => true
  }

  ghost predicate Backed(c: Settings, s: System, id: InvoiceId) {
    id in s.st.invoices ==> RowEvidence(c, s.st.invoices[id], Heard(s.h, id))
  }

  ghost predicate EvidenceOk(c: Settings, s: System) {
    && (forall id :: Backed(c, s, id))
    && (forall kind :: WorkerEvidence(c, s, kind))
  }

  /** A step of one worker that leaves the tables alone and may hear an answer. */
  lemma WorkerStepEvidence(c: Settings, s: System, s': System, kind: Kind)
    requires EvidenceOk(c, s) && s'.st == s.st && WorkerEvidence(c, s', kind)
    requires forall k :: k != kind ==> Get(s', k) == Get(s, k)
    requires forall id :: Heard(s.h, id) <= Heard(s'.h, id)
    ensures EvidenceOk(c, s')
  {
    forall id ensures Backed(c, s', id) {
      assert Backed(c, s, id);
      if id in s.st.invoices { EvidenceGrows(c, s.st.invoices[id], Heard(s.h, id), Heard(s'.h, id)); }
    }
    forall k ensures WorkerEvidence(c, s', k) {
      assert WorkerEvidence(c, s, k);
    }
  }

  lemma FetchEvidence(c: Settings, s: System, step: Step)
    requires EvidenceOk(c, s) && Enabled(c, s, step)
    requires step.Fetch? || step.Load? || step.Abandon?
    ensures EvidenceOk(c, Apply(c, s, step))
  {
    WorkerStepEvidence(c, s, Apply(c, s, step), step.kind);
  }

  lemma DispatchEvidence(c: Settings, s: System, kind: Kind)
    requires Inv(c, s) && EvidenceOk(c, s) && Enabled(c, s, Dispatch(kind))
    ensures EvidenceOk(c, Apply(c, s, Dispatch(kind)))
  {
    var w := Get(s, kind);
    assert WorkerInv(c, s, kind) && Held(s, kind, w.batch[0]);
    PlanHasEvidence(c, kind, w.batch[0], s.st.invoices[w.batch[0].id], s.now, Heard(s.h, w.batch[0].id));
    WorkerStepEvidence(c, s, Apply(c, s, Dispatch(kind)), kind);
  }

  lemma AnswerEvidence(c: Settings, s: System, kind: Kind, reply: Reply)
    requires SettingsOk(c) && Inv(c, s) && EvidenceOk(c, s) && Enabled(c, s, Answer(kind, reply))
    ensures EvidenceOk(c, Apply(c, s, Answer(kind, reply)))
  {
    var s' := Apply(c, s, Answer(kind, reply));
    var w := Get(s, kind);
    var due := w.batch[0];
    assert WorkerInv(c, s, kind) && Held(s, kind, due);
    assert LocalInv(c, s.st, due.id);
    VerdictHasEvidence(c, kind, due, w.phase.row, w.phase.builtAt, reply, s.now, Heard(s'.h, due.id));
    WorkerStepEvidence(c, s, s', kind);
  }

  lemma RereadEvidence(c: Settings, s: System, kind: Kind)
    requires EvidenceOk(c, s) && Enabled(c, s, Reread(kind))
    ensures EvidenceOk(c, Apply(c, s, Reread(kind)))
  {
    assert WorkerEvidence(c, s, kind);
    WorkerStepEvidence(c, s, Apply(c, s, Reread(kind)), kind);
  }

  /** A worker that did not move, the references and answers being as before. */
  lemma SameWorkerEvidence(c: Settings, s: System, s': System, k: Kind)
    requires WorkerInv(c, s, k) && WorkerEvidence(c, s, k) && s'.h.heard == s.h.heard && Get(s', k) == Get(s, k)
    requires forall id :: id in s.st.invoices ==>
               id in s'.st.invoices && s'.st.invoices[id].ref == s.st.invoices[id].ref
    ensures WorkerEvidence(c, s', k)
  {
    if Get(s, k).batch != [] { assert Held(s, k, Get(s, k).batch[0]); }
  }

  /** New rows hold nothing from LHDN; a cancel request changes only the reason. */
  lemma ApiBacked(c: Settings, s: System, step: Step, id: InvoiceId)
    requires Backed(c, s, id) && Enabled(c, s, step) && (step.Create? || step.RequestCancel?)
    ensures Backed(c, Apply(c, s, step), id)
  {
  }

  lemma ApiEvidence(c: Settings, s: System, step: Step)
    requires Inv(c, s) && EvidenceOk(c, s) && Enabled(c, s, step) && (step.Create? || step.RequestCancel?)
    ensures EvidenceOk(c, Apply(c, s, step))
  {
    var s' := Apply(c, s, step);
    forall id ensures Backed(c, s', id) { ApiBacked(c, s, step, id); }
    forall k ensures WorkerEvidence(c, s', k) {
      assert WorkerInv(c, s, k);
      SameWorkerEvidence(c, s, s', k);
    }
  }

  lemma CommitBacked(c: Settings, s: System, kind: Kind, t: int)
    requires Inv(c, s) && Enabled(c, s, Commit(kind, t))
    requires Backed(c, s, Get(s, kind).batch[0].id) && WorkerEvidence(c, s, kind)
    ensures Backed(c, Apply(c, s, Commit(kind, t)), Get(s, kind).batch[0].id)
  {
    var w := Get(s, kind);
    var due := w.batch[0];
    CommittedRow(c, s, kind, t);
    TxnKeepsEvidence(c, due, s.st.invoices[due.id], s.st.outbox[due.o], w.phase.txn, w.phase.at, t, Heard(s.h, due.id));
  }

  lemma CommitKeepsRefs(c: Settings, s: System, kind: Kind, t: int)
    requires Inv(c, s) && Enabled(c, s, Commit(kind, t))
    ensures var x, s' := Get(s, kind).batch[0].id, Apply(c, s, Commit(kind, t));
            && s'.h.heard == s.h.heard
            && (forall id :: id in s.st.invoices <==> id in s'.st.invoices)
            && (forall id :: id in s.st.invoices ==> s'.st.invoices[id].ref == s.st.invoices[id].ref)
            && (forall id :: id in s.st.invoices && id != x ==> s'.st.invoices[id] == s.st.invoices[id])
  {
    CommittedRow(c, s, kind, t);
    CommitRecords(c, s, kind, t);
    CommitMakesProgress(c, s, kind, t, Get(s, kind).batch[0].id);
  }

  lemma CommitEvidence(c: Settings, s: System, kind: Kind, t: int)
    requires Inv(c, s) && EvidenceOk(c, s) && Enabled(c, s, Commit(kind, t))
    ensures EvidenceOk(c, Apply(c, s, Commit(kind, t)))
  {
    var s' := Apply(c, s, Commit(kind, t));
    CommitKeepsRefs(c, s, kind, t);
    forall id ensures Backed(c, s', id) {
      assert Backed(c, s, id);
      if id == Get(s, kind).batch[0].id { CommitBacked(c, s, kind, t); }
    }
    forall k ensures WorkerEvidence(c, s', k) {
      assert WorkerInv(c, s, k) && WorkerEvidence(c, s, k);
      if k != kind { SameWorkerEvidence(c, s, s', k); }
    }
  }

  lemma ClockEvidence(c: Settings, s: System, step: Step)
    requires EvidenceOk(c, s) && Enabled(c, s, step) && (step.Crash? || step.Advance?)
    ensures EvidenceOk(c, Apply(c, s, step))
  {
    var s' := Apply(c, s, step);
    forall id ensures Backed(c, s', id) { assert Backed(c, s, id); }
    forall k ensures WorkerEvidence(c, s', k) { assert WorkerEvidence(c, s, k); }
  }

  lemma StepKeepsEvidence(c: Settings, s: System, step: Step)
    requires SettingsOk(c) && Inv(c, s) && EvidenceOk(c, s) && Enabled(c, s, step)
    ensures EvidenceOk(c, Apply(c, s, step))
  {
    match step
    case Create(_, _, _) => ApiEvidence(c, s, step);
    case RequestCancel(_, _, _) => ApiEvidence(c, s, step);
    case Fetch(_, _, _) => FetchEvidence(c, s, step);
    case Load(_) => FetchEvidence(c, s, step);
    case Abandon(_) => FetchEvidence(c, s, step);
    case Dispatch(kind) => DispatchEvidence(c, s, kind);
    case Answer(kind, reply) => AnswerEvidence(c, s, kind, reply);
    case Reread(kind) => RereadEvidence(c, s, kind);
    case Commit(kind, t) => CommitEvidence(c, s, kind, t);
    case Crash => ClockEvidence(c, s, step);
    case Advance(_) => ClockEvidence(c, s, step);
  }

  /** In every reachable state, every row is backed by answers to its own calls. */
  lemma {:induction false} NothingInvented(c: Settings, run: seq<System>, i: nat)
    requires SettingsOk(c) && IsRun(c, run) && i < |run|
    ensures EvidenceOk(c, run[i])
  {
    if i > 0 {
      NothingInvented(c, run, i - 1);
      RunKeepsInv(c, run, i - 1);
      assert StepAt(c, run, i - 1);
      var step :| Enabled(c, run[i - 1], step) && run[i] == Apply(c, run[i - 1], step);
      StepKeepsEvidence(c, run[i - 1], step);
    }
  }

  /** Answers are only ever added, by an answer to a call made for the invoice. */
  lemma HeardFromCalls(c: Settings, s: System, step: Step, id: InvoiceId, reply: Reply)
    requires Enabled(c, s, step) && reply in Heard(Apply(c, s, step).h, id) && reply !in Heard(s.h, id)
    ensures step.Answer? && step.reply == reply
    ensures Get(s, step.kind).batch != [] && Get(s, step.kind).batch[0].id == id && Get(s, step.kind).phase.InFlight?
  {
    OnlyCallsRecorded(c, s, step);
    if step.Answer? { AnswerRecords(c, s, step.kind, step.reply); }
  }
}
