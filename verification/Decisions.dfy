/**
 What each worker decides for one event, as a function of what it has read:
 `process_event`, `handle_success`, `handle_details` and `handle_failure` of
 crates/adapters/src/worker/{submitter,poller,canceller}.rs.

 A pass over an event is: load the row, `PlanFor` the event (which may settle it
 without a call), call LHDN, take the `VerdictFor` the reply, commit one
 transaction. A rejected submission reads the row once more in between.
 */
module Decisions {
  import opened Wrappers
  import opened Json
  import opened Lhdn
  import opened Outbox
  import opened Backoff
  import Ubl

  datatype Settings = Settings(
    submitMax: int,
    pollMax: int,
    cancelMax: int,
    submitBatch: int,
    pollBatch: int,
    cancelBatch: int,
    portal: string,
    build: (Json, int) -> Result<Ubl.SignedDocument, Ubl.DomainError>)
  {
    function BatchSize(kind: Kind): int {
      match kind
      case Submit => submitBatch
      case Poll => pollBatch
      case Cancel => cancelBatch
    }
  }

  const CANCELLATION_WINDOW: int := 72 * 60 * 60

  /** `build_qr_url`. */
  function QrUrl(portal: string, uuid: string, longId: string): string {
    portal + "/" + uuid + "/share/" + longId
  }

  /** `as_deref().map(str::is_empty).unwrap_or(true)`. */
  predicate Absent(text: Option<string>) {
    text.None? || text.value == ""
  }

  /** `check_preconditions`; it never looks at the status. */
  function CheckPreconditions(row: Invoice, now: int): Option<CancelBar> {
    if Absent(row.uuid) then Some(NoUuid)
    else if Absent(row.reason) then Some(NoReason)
    else if row.cancellableUntil.Some? && row.cancellableUntil.value > now then None
    else Some(WindowClosed)
  }

  /** What happens once the row is loaded: settle the event, or call LHDN. */
  datatype Plan = Settle(txn: Txn) | CallLhdn

  function PlanFor(c: Settings, kind: Kind, due: Due, row: Option<Invoice>, now: int): Plan {
    match kind
    case Submit =>
      (match row
       case None => Settle(FailPermanently(due.id, due.o, 0, RowMissing))
       case Some(invoice) =>
         match c.build(invoice.payload, now)
         case Failure(e) => Settle(FailPermanently(due.id, due.o, invoice.attempts, BuildFailed(e)))
         case Success(_) => CallLhdn)
    case Poll =>
      (match row
       case None => Settle(ReschedulePoll(due.o, c.pollMax, 0, Some(Orphan)))
       case Some(invoice) =>
         if Absent(invoice.uuid) then Settle(ReschedulePoll(due.o, c.pollMax, 0, Some(MissingUuid))) else CallLhdn)
    case Cancel =>
      (match row
       case None => Settle(FailCancel(due.id, due.o, RowMissing))
       case Some(invoice) =>
         match CheckPreconditions(invoice, now)
         case Some(what) => Settle(FailCancel(due.id, due.o, CancelPrecondition(what)))
         case None => CallLhdn)
  }

  /** Replies of the endpoint the worker called. */
  predicate Answers(kind: Kind, reply: Reply) {
    reply.Refused?
    || match kind
       case Submit => reply.Submission?
       case Poll => reply.Details?
       case Cancel => reply.CancelOk?
  }

  /** What a reply leads to: a transaction, or, for a rejected document, a
      second read of the row before failing it. */
  datatype Verdict = Settled(txn: Txn) | ReadAgain(error: ErrorNote)

  function SubmitFailure(c: Settings, due: Due, attempts: int, e: LhdnError, now: int): Txn {
    var tries := attempts + 1;
    if !e.IsTransient() || tries >= c.submitMax
    then FailPermanently(due.id, due.o, tries, SubmitFailed(e, tries))
    else Reschedule(due.id, due.o, tries, now + SubmitBackoff(tries), SubmitFailed(e, tries), FromLhdn(e))
  }

  function PollFailure(c: Settings, due: Due, e: LhdnError, now: int): Txn {
    var tries := due.attempts + 1;
    if !e.IsTransient() || tries >= c.pollMax
    then FailPoll(due.id, due.o, PollFailed(e, tries))
    else ReschedulePoll(due.o, tries, now + PollBackoff(tries), Some(FromLhdn(e)))
  }

  function CancelFailure(c: Settings, due: Due, e: LhdnError, now: int): Txn {
    var tries := due.attempts + 1;
    if !e.IsTransient() || tries >= c.cancelMax
    then FailCancel(due.id, due.o, CancelFailed(e, tries))
    else RescheduleCancel(due.o, tries, now + SubmitBackoff(tries), FromLhdn(e))
  }

  function PollDetails(c: Settings, due: Due, d: DocumentDetails, now: int): Txn {
    match d.status
    case NowValid =>
      var validatedAt := d.validatedAt.GetOr(now);
      var longId := d.longId.GetOr("");
      MarkValid(due.id, due.o, longId, QrUrl(c.portal, d.uuid, longId), validatedAt, validatedAt + CANCELLATION_WINDOW)
    case NowInvalid => MarkInvalid(due.id, due.o, ValidationFailed(d.reason))
    case NowCancelled => MarkCancelledViaPoll(due.id, due.o, d.cancelledAt.GetOr(now))
    case StillSubmitted =>
      var tries := due.attempts + 1;
      if tries >= c.pollMax then MarkInvalid(due.id, due.o, PollExhausted(tries))
      else ReschedulePoll(due.o, tries, now + PollBackoff(tries), None)
  }

  /** `row` is the loaded row, `builtAt` the signing time, `now` the clock when
      the reply is handled. */
  function VerdictFor(c: Settings, kind: Kind, due: Due, row: Invoice, builtAt: int, reply: Reply, now: int): Verdict
    requires Answers(kind, reply)
    requires kind == Submit ==> c.build(row.payload, builtAt).Success?
  {
    match kind
    case Submit =>
      (match reply
       case Refused(e) => Settled(SubmitFailure(c, due, row.attempts, e, now))
       case Submission(uid, accepted, rejected) =>
         var doc := c.build(row.payload, builtAt).value;
         match FirstRejected(rejected, doc.codeNumber)
         case Some(r) => ReadAgain(DocumentRejected(r.code, r.message, r.details))
         case None =>
           Settled(CompleteSubmission(due.id, due.o, uid, AcceptedUuid(accepted, doc.codeNumber),
                                      doc.signature, doc.canonicalText, doc.documentHash)))
    case Poll =>
      (match reply
       case Refused(e) => Settled(PollFailure(c, due, e, now))
       case Details(d) => Settled(PollDetails(c, due, d, now)))
    case Cancel =>
      (match reply
       case Refused(e) => Settled(CancelFailure(c, due, e, now))
       case CancelOk => Settled(CompleteCancel(due.id, due.o, now)))
  }

  /** After the second read: attempts as the row now has them. */
  function RejectionTxn(due: Due, current: Option<Invoice>, error: ErrorNote): Txn {
    FailPermanently(due.id, due.o, if current.Some? then current.value.attempts else 0, error)
  }

  function Lookup(st: Store, id: InvoiceId): Option<Invoice> {
    if id in st.invoices then Some(st.invoices[id]) else None
  }

  // ----- A whole pass with nobody else active --------------------------------

  /** What the world contributes to one pass: whether each database operation
      succeeds, LHDN's reply, and the clock at each read. */
  datatype World = World(
    loadOk: bool,
    plannedAt: int,
    reply: Reply,
    repliedAt: int,
    rereadOk: bool,
    commitOk: bool,
    committedAt: int)

  function ExecIf(ok: bool, st: Store, txn: Txn, now: int): Store {
    if ok then Exec(st, txn, now) else st
  }

  /** The tables after `process_event` on `due`. */
  function Handle(c: Settings, kind: Kind, st: Store, due: Due, w: World): Store
    requires Answers(kind, w.reply)
  {
    if !w.loadOk then st
    else
      var row := Lookup(st, due.id);
      match PlanFor(c, kind, due, row, w.plannedAt)
      case Settle(txn) => ExecIf(w.commitOk, st, txn, w.committedAt)
      case CallLhdn =>
        match VerdictFor(c, kind, due, row.value, w.plannedAt, w.reply, w.repliedAt)
        case Settled(txn) => ExecIf(w.commitOk, st, txn, w.committedAt)
        case ReadAgain(e) =>
          if w.rereadOk then ExecIf(w.commitOk, st, RejectionTxn(due, row, e), w.committedAt) else st
  }

  /** Whether the pass returned `Ok`. */
  predicate HandledOk(c: Settings, kind: Kind, st: Store, due: Due, w: World)
    requires Answers(kind, w.reply)
  {
    w.loadOk && w.commitOk
    && (var row := Lookup(st, due.id);
        PlanFor(c, kind, due, row, w.plannedAt).CallLhdn?
        && VerdictFor(c, kind, due, row.value, w.plannedAt, w.reply, w.repliedAt).ReadAgain?
        ==> w.rereadOk)
  }

  /** One world per event of a tick. */
  type Worlds = nat -> World

  ghost predicate WorldsAnswer(kind: Kind, worlds: Worlds) {
    forall o :: Answers(kind, worlds(o).reply)
  }

  /** The tables after handling the events of `batch` in order. */
  ghost function HandleAll(c: Settings, kind: Kind, st: Store, batch: seq<Due>, worlds: Worlds): Store
    requires WorldsAnswer(kind, worlds)
    decreases |batch|
  {
    if batch == [] then st
    else HandleAll(c, kind, Handle(c, kind, st, batch[0], worlds(batch[0].o)), batch[1..], worlds)
  }
}
