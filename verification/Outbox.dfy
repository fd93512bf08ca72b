/**
 The two tables of the invoice store and its transactions
 (crates/adapters/src/repo.rs, migrations/0001_init.sql). Each transaction is one
 function from tables to tables, `now` being the clock read it makes.

 As in the source, an UPDATE names a row only by id: none of them tests the
 status the row had, and none of the event statements tests the kind.
 */
module Outbox {
  import opened Wrappers
  import opened Json
  import opened Lhdn
  import Ubl

  type InvoiceId = string

  datatype Status = Pending | Submitted | Valid | Invalid | Cancelled | Failed

  datatype Kind = Submit | Poll | Cancel

  /** Why the canceller refuses to call LHDN. */
  datatype CancelBar = NoUuid | NoReason | WindowClosed

  /** Contents of `invoices.error_json`. */
  datatype ErrorNote =
    | RowMissing
    | BuildFailed(cause: Ubl.DomainError)
    | DocumentRejected(code: string, message: string, details: seq<Json>)
    | SubmitFailed(err: LhdnError, tries: int)
    | ValidationFailed(why: Option<string>)
    | PollExhausted(tries: int)
    | PollFailed(err: LhdnError, tries: int)
    | CancelPrecondition(what: CancelBar)
    | CancelFailed(err: LhdnError, tries: int)

  /** Contents of `outbox_events.last_error`. */
  datatype EventNote = Orphan | MissingUuid | FromLhdn(err: LhdnError)

  datatype Invoice = Invoice(
    ref: string,
    payload: Json,
    status: Status,
    submissionUid: Option<string>,
    uuid: Option<string>,
    signature: Option<string>,
    document: Option<string>,
    digest: Option<string>,
    longId: Option<string>,
    qrUrl: Option<string>,
    error: Option<ErrorNote>,
    attempts: int,
    nextAttemptAt: Option<int>,
    submittedAt: Option<int>,
    validatedAt: Option<int>,
    cancellableUntil: Option<int>,
    cancelledAt: Option<int>,
    createdAt: int,
    updatedAt: int,
    reason: Option<string>)

  datatype Event = Event(
    invoiceId: InvoiceId,
    kind: Kind,
    availableAt: int,
    attempts: int,
    lastError: Option<EventNote>)

  /** `nextId` is above every outbox id ever issued (AUTOINCREMENT). */
  datatype Store = Store(
    invoices: map<InvoiceId, Invoice>,
    outbox: map<nat, Event>,
    nextId: nat)

  const EMPTY_STORE := Store(map[], map[], 1)

  // ----- Statements ----------------------------------------------------------

  /** `UPDATE invoices ... WHERE id = ?` with a row computed by the caller. */
  function PutRow(st: Store, id: InvoiceId, row: Invoice): Store {
    if id in st.invoices then st.(invoices := st.invoices[id := row]) else st
  }

  function DeleteEvent(st: Store, o: nat): Store {
    st.(outbox := st.outbox - {o})
  }

  function InsertEvent(st: Store, id: InvoiceId, kind: Kind, availableAt: int): Store {
    st.(outbox := st.outbox[st.nextId := Event(id, kind, availableAt, 0, None)], nextId := st.nextId + 1)
  }

  function UpdateEvent(st: Store, o: nat, availableAt: int, attempts: int, note: Option<EventNote>): Store {
    if o in st.outbox
    then st.(outbox := st.outbox[o := st.outbox[o].(availableAt := availableAt,
                          attempts := attempts, lastError := note)])
    else st
  }

  // ----- Transactions of the workers -----------------------------------------

  datatype Txn =
    | CompleteSubmission(id: InvoiceId, o: nat, submissionUid: string, uuid: string,
                         signature: string, document: string, digest: string)
    | FailPermanently(id: InvoiceId, o: nat, attempts: int, error: ErrorNote)
    | Reschedule(id: InvoiceId, o: nat, attempts: int, nextAt: int, error: ErrorNote, note: EventNote)
    | MarkValid(id: InvoiceId, o: nat, longId: string, qrUrl: string, validatedAt: int, cancellableUntil: int)
    | MarkInvalid(id: InvoiceId, o: nat, error: ErrorNote)
    | MarkCancelledViaPoll(id: InvoiceId, o: nat, cancelledAt: int)
    | FailPoll(id: InvoiceId, o: nat, error: ErrorNote)
    | ReschedulePoll(o: nat, attempts: int, nextAt: int, pollNote: Option<EventNote>)
    | CompleteCancel(id: InvoiceId, o: nat, cancelledAt: int)
    | FailCancel(id: InvoiceId, o: nat, error: ErrorNote)
    | RescheduleCancel(o: nat, attempts: int, nextAt: int, note: EventNote)

  /** The SET clause of each transaction. */
  function RowAfter(row: Invoice, txn: Txn, now: int): Invoice {
    match txn
    case CompleteSubmission(_, _, submissionUid, uuid, signature, document, digest) =>
      row.(status := Submitted, submissionUid := Some(submissionUid), uuid := Some(uuid),
           signature := Some(signature), document := Some(document), digest := Some(digest),
           error := None, submittedAt := Some(now), nextAttemptAt := None, updatedAt := now)
    case FailPermanently(_, _, attempts, error) =>
      row.(status := Failed, attempts := attempts, error := Some(error), nextAttemptAt := None, updatedAt := now)
    case Reschedule(_, _, attempts, nextAt, error, _) =>
      row.(attempts := attempts, error := Some(error), nextAttemptAt := Some(nextAt), updatedAt := now)
    case MarkValid(_, _, longId, qrUrl, validatedAt, cancellableUntil) =>
      row.(status := Valid, longId := Some(longId), qrUrl := Some(qrUrl), validatedAt := Some(validatedAt),
           cancellableUntil := Some(cancellableUntil), error := None, updatedAt := now)
    case MarkInvalid(_, _, error) =>
      row.(status := Invalid, error := Some(error), updatedAt := now)
    case MarkCancelledViaPoll(_, _, cancelledAt) =>
      row.(status := Cancelled, cancelledAt := Some(cancelledAt), updatedAt := now)
    case FailPoll(_, _, error) =>
      row.(error := Some(error), updatedAt := now)
    case CompleteCancel(_, _, cancelledAt) =>
      row.(status := Cancelled, cancelledAt := Some(cancelledAt), error := None, updatedAt := now)
    case FailCancel(_, _, error) =>
      row.(error := Some(error), updatedAt := now)
    case ReschedulePoll(_, _, _, _) => row
    case RescheduleCancel(_, _, _, _) => row
  }

  function UpdateRow(st: Store, txn: Txn, now: int): Store
    requires !txn.ReschedulePoll? && !txn.RescheduleCancel?
  {
    if txn.id in st.invoices then PutRow(st, txn.id, RowAfter(st.invoices[txn.id], txn, now)) else st
  }

  function Exec(st: Store, txn: Txn, now: int): Store {
    match txn
    case CompleteSubmission(id, o, _, _, _, _, _) =>
      // The INSERT breaks the foreign key, and so rolls back, when the row is gone.
      if id in st.invoices then InsertEvent(DeleteEvent(UpdateRow(st, txn, now), o), id, Poll, now) else st
    case Reschedule(_, o, attempts, nextAt, _, note) =>
      UpdateEvent(UpdateRow(st, txn, now), o, nextAt, attempts, Some(note))
    case ReschedulePoll(o, attempts, nextAt, note) =>
      UpdateEvent(st, o, nextAt, attempts, note)
    case RescheduleCancel(o, attempts, nextAt, note) =>
      UpdateEvent(st, o, nextAt, attempts, Some(note))
    case _ =>
      DeleteEvent(UpdateRow(st, txn, now), txn.o)
  }

  // ----- Transactions of the API ---------------------------------------------

  datatype RepoError = DuplicateRef

  datatype CancelError = NotFound | NotCancellable(state: Status) | PastWindow | AlreadyRequested

  predicate RefTaken(st: Store, ref: string) {
    exists id :: id in st.invoices && st.invoices[id].ref == ref
  }

  function FreshInvoice(ref: string, payload: Json, now: int): Invoice {
    Invoice(ref, payload, Pending, None, None, None, None, None, None, None, None, 0,
            Some(now), None, None, None, None, now, now, None)
  }

  /** `create_pending`. A clash of the generated id is reported the same way as
      a clash of the reference: both are unique-constraint violations. */
  function CreatePending(st: Store, id: InvoiceId, ref: string, payload: Json, now: int): Result<Store, RepoError> {
    if RefTaken(st, ref) || id in st.invoices then Failure(DuplicateRef)
    else Success(InsertEvent(st.(invoices := st.invoices[id := FreshInvoice(ref, payload, now)]), id, Submit, now))
  }

  /** The row a reference selects. */
  ghost function FindByRef(st: Store, ref: string): Option<InvoiceId> {
    if RefTaken(st, ref) then
      var id :| id in st.invoices && st.invoices[id].ref == ref; Some(id)
    else None
  }

  predicate HasCancelEvent(st: Store, id: InvoiceId) {
    exists o :: o in st.outbox && st.outbox[o].invoiceId == id && st.outbox[o].kind == Cancel
  }

  function CancelRefusal(st: Store, id: InvoiceId, now: int): Option<CancelError>
    requires id in st.invoices
  {
    var row := st.invoices[id];
    if row.status != Valid then Some(NotCancellable(row.status))
    else if row.cancellableUntil.None? || row.cancellableUntil.value <= now then Some(PastWindow)
    else if HasCancelEvent(st, id) then Some(AlreadyRequested)
    else None
  }

  function EnqueueCancel(st: Store, id: InvoiceId, reason: string, now: int): Store
    requires id in st.invoices
  {
    InsertEvent(PutRow(st, id, st.invoices[id].(reason := Some(reason), updatedAt := now)), id, Cancel, now)
  }

  /** `request_cancellation`. */
  ghost function RequestCancellation(st: Store, ref: string, reason: string, now: int): Result<Store, CancelError> {
    match FindByRef(st, ref)
    case None => Failure(CancelError.NotFound)
    case Some(id) =>
      match CancelRefusal(st, id, now)
      case Some(e) => Failure(e)
      case None => Success(EnqueueCancel(st, id, reason, now))
  }

  // ----- Selections ----------------------------------------------------------

  /** An event as the `due_*_events` queries return it. */
  datatype Due = Due(o: nat, id: InvoiceId, attempts: int)

  predicate IsDue(st: Store, kind: Kind, now: int, o: nat) {
    o in st.outbox && st.outbox[o].kind == kind && st.outbox[o].availableAt <= now
  }

  function DueSet(st: Store, kind: Kind, now: int): set<nat> {
    set o | o in st.outbox && IsDue(st, kind, now, o)
  }

  predicate Listed(st: Store, kind: Kind, now: int, due: Due) {
    && IsDue(st, kind, now, due.o)
    && due.id == st.outbox[due.o].invoiceId
    && due.attempts == st.outbox[due.o].attempts
  }

  /** How many of `n` rows `LIMIT limit` keeps; a negative limit keeps all. */
  function Limited(limit: int, n: nat): (kept: nat)
    ensures kept == n || kept == limit < n
    ensures 0 <= limit ==> kept <= limit
  {
    if limit < 0 || n <= limit then n else limit
  }

  /** A result of `WHERE kind = ? AND available_at <= ? ORDER BY available_at
      LIMIT ?`: ties may come in any order, so several results are possible. */
  ghost predicate IsBatch(st: Store, kind: Kind, now: int, limit: int, batch: seq<Due>) {
    && (forall i :: 0 <= i < |batch| ==> Listed(st, kind, now, batch[i]))
    && (forall i, j :: 0 <= i < j < |batch| ==> batch[i].o != batch[j].o)
    && (forall i, j :: 0 <= i < j < |batch| ==>
          st.outbox[batch[i].o].availableAt <= st.outbox[batch[j].o].availableAt)
    && |batch| == Limited(limit, |DueSet(st, kind, now)|)
    && (forall i, o :: 0 <= i < |batch| && IsDue(st, kind, now, o) && (forall j :: 0 <= j < |batch| ==> batch[j].o != o)
          ==> st.outbox[batch[i].o].availableAt <= st.outbox[o].availableAt)
  }
}
