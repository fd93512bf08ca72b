/**
 The invariant of the two tables: who owns which outbox event, and how the
 columns of a row agree with each other and with its event. It is local: it says
 something about each invoice id separately, so a transaction that touches one
 invoice and its event leaves it intact everywhere else.
 */
module Invariant {
  import opened Wrappers
  import opened Json
  import opened Outbox
  import opened Backoff
  import opened Decisions
  import Ubl

  /** What the workers need of the document builder: it succeeds with the
      trimmed reference as code number, and reports a missing reference exactly
      when there is none. */
  ghost predicate SettingsOk(c: Settings) {
    forall p, t ::
      match c.build(p, t)
      case Success(d) => Ubl.CodeNumber(p) == Some(d.codeNumber)
      case Failure(e) => e == Ubl.MissingInvoiceRef <==> Ubl.CodeNumber(p) == None
  }

  /** First try is always made, even with a ceiling below one. */
  function AtLeastOne(max: int): int {
    if max < 1 then 1 else max
  }

  /** LHDN's 2xx reply listed the document in neither list: no uuid to poll. */
  predicate Stuck(row: Invoice) {
    row.uuid == Some("")
  }

  predicate Parked(c: Settings, ev: Event) {
    ev.attempts == c.pollMax && ev.availableAt == 0 && ev.lastError == Some(MissingUuid)
  }

  // ----- One row -------------------------------------------------------------

  predicate EverSubmitted(row: Invoice) {
    row.status == Submitted || row.status == Valid || row.status == Invalid || row.status == Cancelled
  }

  predicate ColumnsAgree(row: Invoice) {
    && (row.nextAttemptAt.Some? <==> row.status == Pending)
    && (row.submittedAt.Some? <==> EverSubmitted(row))
    && (row.uuid.Some? <==> EverSubmitted(row))
    && (row.validatedAt.Some? ==> row.status == Valid || row.status == Cancelled)
    && (row.status == Valid ==> row.validatedAt.Some? && !Absent(row.uuid))
    && (row.cancellableUntil
        == if row.validatedAt.Some? then Some(row.validatedAt.value + CANCELLATION_WINDOW) else None)
    && (row.cancelledAt.Some? <==> row.status == Cancelled)
    && (row.reason.Some? ==> row.validatedAt.Some?)
  }

  predicate ErrorsTold(row: Invoice) {
    && (row.status == Failed || row.status == Invalid ==> row.error.Some?)
    && (row.status == Pending ==> (row.error.Some? <==> row.attempts > 0))
    && (row.status == Cancelled ==> row.error == None)
  }

  /** No failure is recorded before the retries it reports could have run. */
  predicate FailuresTimely(c: Settings, row: Invoice) {
    && (row.status == Failed && row.error.Some? && row.error.value.SubmitFailed? ==>
          && row.attempts == row.error.value.tries
          && row.updatedAt >= row.createdAt + SubmitWait(row.attempts - 1)
          && (row.error.value.err.IsTransient() ==> row.attempts >= c.submitMax))
    && (row.error.Some? && row.error.value.PollExhausted? ==>
          && row.status == Invalid && row.submittedAt.Some?
          && row.updatedAt >= row.submittedAt.value + PollWait(row.error.value.tries - 1)
          && row.error.value.tries >= c.pollMax)
    && (row.error.Some? && row.error.value.PollFailed? ==>
          && row.status == Submitted && row.submittedAt.Some?
          && row.updatedAt >= row.submittedAt.value + PollWait(row.error.value.tries - 1)
          && (row.error.value.err.IsTransient() ==> row.error.value.tries >= c.pollMax))
    && (row.error.Some? && row.error.value.CancelFailed? ==>
          && row.status == Valid
          && (row.error.value.err.IsTransient() ==> row.error.value.tries >= c.cancelMax))
  }

  predicate AttemptsBounded(c: Settings, row: Invoice) {
    && 0 <= row.attempts <= AtLeastOne(c.submitMax)
    && (row.status == Pending ==> row.attempts < AtLeastOne(c.submitMax))
  }

  /** The stored reference is the code number of the stored payload, and no row
      failed for want of one. */
  predicate ReferenceCoherent(row: Invoice) {
    && Ubl.CodeNumber(row.payload) == Some(row.ref)
    && row.error != Some(BuildFailed(Ubl.MissingInvoiceRef))
    && row.error != Some(RowMissing)
    && (row.status == Valid || row.status == Cancelled ==>
          row.error != Some(CancelPrecondition(NoUuid))
          && row.error != Some(CancelPrecondition(NoReason)))
  }

  predicate Signed(c: Settings, payload: Json, t: int, signature: string, document: string, digest: string) {
    match c.build(payload, t)
    case Success(d) => signature == d.signature && document == d.canonicalText && digest == d.documentHash
    case Failure(_) => false
  }

  /** The stored document and signature come from one build of the payload. */
  ghost predicate DocumentStored(c: Settings, row: Invoice) {
    EverSubmitted(row) ==>
      && row.signature.Some? && row.document.Some? && row.digest.Some?
      && exists t :: Signed(c, row.payload, t, row.signature.value, row.document.value, row.digest.value)
  }

  ghost predicate RowOk(c: Settings, row: Invoice) {
    && ColumnsAgree(row)
    && ErrorsTold(row)
    && FailuresTimely(c, row)
    && AttemptsBounded(c, row)
    && ReferenceCoherent(row)
    && DocumentStored(c, row)
  }

  /** Rows that some worker still has to act on. */
  predicate NeedsEvent(row: Invoice) {
    row.status == Pending || (row.status == Submitted && row.error == None)
  }

  // ----- A row and its event -------------------------------------------------

  predicate EventOk(c: Settings, row: Invoice, ev: Event) {
    match ev.kind
    case Submit =>
      && row.status == Pending
      && ev.attempts == row.attempts
      && row.nextAttemptAt == Some(ev.availableAt)
      && ev.availableAt > 0 && ev.availableAt >= row.createdAt + SubmitWait(ev.attempts)
    case Poll =>
      && row.status == Submitted && row.error == None
      && (if Stuck(row) then (ev.attempts == 0 && ev.availableAt > 0) || Parked(c, ev)
          else && 0 <= ev.attempts < AtLeastOne(c.pollMax) && ev.availableAt > 0
               && row.submittedAt.Some? && ev.availableAt >= row.submittedAt.value + PollWait(ev.attempts))
    case Cancel =>
      && row.status == Valid
      && !Absent(row.reason)
      && 0 <= ev.attempts < AtLeastOne(c.cancelMax) && ev.availableAt > 0
  }

  predicate Owns(st: Store, o: nat, id: InvoiceId) {
    o in st.outbox && st.outbox[o].invoiceId == id
  }

  ghost predicate LocalInv(c: Settings, st: Store, id: InvoiceId) {
    && (forall o: nat :: Owns(st, o, id) ==>
          o < st.nextId && id in st.invoices && EventOk(c, st.invoices[id], st.outbox[o]))
    && (forall o: nat, p: nat :: Owns(st, o, id) && Owns(st, p, id) ==> o == p)
    && (id in st.invoices ==>
          && RowOk(c, st.invoices[id])
          && (NeedsEvent(st.invoices[id]) ==> exists o: nat :: Owns(st, o, id)))
  }

  ghost predicate UniqueRefs(st: Store) {
    forall id, id' ::
      id in st.invoices && id' in st.invoices && st.invoices[id].ref == st.invoices[id'].ref ==> id == id'
  }

  ghost predicate StoreInv(c: Settings, st: Store) {
    && (forall id :: LocalInv(c, st, id))
    && UniqueRefs(st)
    && (forall o :: o in st.outbox ==> o < st.nextId)
  }

  // ----- Framing -------------------------------------------------------------

  /** Nothing about `id` differs between the two stores. */
  ghost predicate SameFor(st: Store, st': Store, id: InvoiceId) {
    && (id in st.invoices <==> id in st'.invoices)
    && (id in st.invoices ==> st.invoices[id] == st'.invoices[id])
    && (forall o: nat :: Owns(st, o, id) <==> Owns(st', o, id))
    && (forall o: nat :: Owns(st, o, id) ==> st.outbox[o] == st'.outbox[o])
    && st.nextId <= st'.nextId
  }

  lemma LocalInvFrame(c: Settings, st: Store, st': Store, id: InvoiceId)
    requires LocalInv(c, st, id) && SameFor(st, st', id)
    ensures LocalInv(c, st', id)
  {
    if id in st.invoices && NeedsEvent(st.invoices[id]) {
      var o: nat :| Owns(st, o, id);
      assert Owns(st', o, id);
    }
  }

  /** A change confined to one invoice keeps the invariant when it keeps it there. */
  lemma StoreInvFrame(c: Settings, st: Store, st': Store, x: InvoiceId)
    requires StoreInv(c, st)
    requires forall id :: id != x ==> SameFor(st, st', id)
    requires LocalInv(c, st', x)
    requires UniqueRefs(st')
    ensures StoreInv(c, st')
  {
    forall id ensures LocalInv(c, st', id) {
      if id != x { LocalInvFrame(c, st, st', id); }
    }
    forall o | o in st'.outbox ensures o < st'.nextId {
      assert Owns(st', o, st'.outbox[o].invoiceId);
      assert LocalInv(c, st', st'.outbox[o].invoiceId);
    }
  }

  /** The store before any request. */
  lemma EmptyStoreInv(c: Settings)
    ensures StoreInv(c, EMPTY_STORE)
  {
  }

  // ----- Transactions that fit the event they settle -------------------------

  /** `txn` is what a worker may decide for event `due.o` with contents `ev`,
      having read `row`, the last clock read being `at`. */
  ghost predicate TxnFits(c: Settings, due: Due, row: Invoice, ev: Event, txn: Txn, at: int) {
    && txn.o == due.o
    && (!txn.ReschedulePoll? && !txn.RescheduleCancel? ==> txn.id == due.id)
    && ev.availableAt <= at
    && 0 < at
    && match txn
       case CompleteSubmission(_, _, _, _, signature, document, digest) =>
         ev.kind == Submit && exists t :: Signed(c, row.payload, t, signature, document, digest)
       case FailPermanently(_, _, attempts, error) =>
         && ev.kind == Submit
         && (error.BuildFailed? || error.DocumentRejected? || error.SubmitFailed?)
         && error != BuildFailed(Ubl.MissingInvoiceRef)
         && (if error.SubmitFailed?
             then attempts == error.tries == row.attempts + 1 && (error.err.IsTransient() ==> attempts >= c.submitMax)
             else attempts == row.attempts)
       case Reschedule(_, _, attempts, nextAt, error, _) =>
         && ev.kind == Submit && error.SubmitFailed?
         && attempts == row.attempts + 1 < c.submitMax && nextAt == at + SubmitBackoff(attempts)
       case MarkValid(_, _, _, _, validatedAt, cancellableUntil) =>
         ev.kind == Poll && !Stuck(row) && cancellableUntil == validatedAt + CANCELLATION_WINDOW
       case MarkInvalid(_, _, error) =>
         && ev.kind == Poll && !Stuck(row)
         && (error.ValidationFailed? || error.PollExhausted?)
         && (error.PollExhausted? ==> error.tries == ev.attempts + 1 >= c.pollMax)
       case MarkCancelledViaPoll(_, _, _) =>
         ev.kind == Poll && !Stuck(row)
       case FailPoll(_, _, error) =>
         && ev.kind == Poll && !Stuck(row) && error.PollFailed? && error.tries == ev.attempts + 1
         && (error.err.IsTransient() ==> error.tries >= c.pollMax)
       case ReschedulePoll(_, attempts, nextAt, note) =>
         && ev.kind == Poll
         && (if Stuck(row) then attempts == c.pollMax && nextAt == 0 && note == Some(MissingUuid)
             else attempts == ev.attempts + 1 < c.pollMax && nextAt == at + PollBackoff(attempts))
       case CompleteCancel(_, _, cancelledAt) =>
         ev.kind == Cancel && cancelledAt == at
       case FailCancel(_, _, error) =>
         && ev.kind == Cancel
         && (error == CancelPrecondition(WindowClosed) || error.CancelFailed?)
         && (error.CancelFailed? ==>
               error.tries == ev.attempts + 1 && (error.err.IsTransient() ==> error.tries >= c.cancelMax))
       case RescheduleCancel(_, attempts, nextAt, _) =>
         ev.kind == Cancel && attempts == ev.attempts + 1 < c.cancelMax && nextAt == at + SubmitBackoff(attempts)
  }

  ghost predicate Holds(st: Store, kind: Kind, due: Due) {
    && Owns(st, due.o, due.id)
    && st.outbox[due.o].kind == kind
    && st.outbox[due.o].attempts == due.attempts
  }
}
