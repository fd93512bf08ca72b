/** What the accounts and the column invariant mean for an operator, in every
    reachable state. */
module Guarantees {
  import opened Wrappers
  import opened Lhdn
  import opened Outbox
  import opened Backoff
  import opened Decisions
  import opened Invariant
  import opened Protocol
  import opened ProtocolInvariant
  import opened Accounting
  import opened CancelTiming
  import Ubl

  // ----- Submission calls ----------------------------------------------------

  /** LHDN is asked to accept an invoice at most `max_attempts` times plus once
      per pass lost to a crash or a failed commit; while the row is Pending the
      count is exact. */
  lemma SubmitCallsBounded(c: Settings, run: seq<System>, i: nat, id: InvoiceId)
    requires SettingsOk(c) && IsRun(c, run) && i < |run| && id in run[i].st.invoices
    ensures var s := run[i];
            && Count(s.h.submitCalls, id) <= AtLeastOne(c.submitMax) + Count(s.h.interrupted, id)
            && (s.st.invoices[id].status == Pending ==>
                  Count(s.h.submitCalls, id)
                  == s.st.invoices[id].attempts + Count(s.h.interrupted, id)
                     + (if CalledFor(s.submitter, id) then 1 else 0))
  {
    RunKeepsAccounts(c, run, i);
    assert CallsOk(c, run[i], id);
  }

  /** No submission call is ever made for a row that is not Pending. */
  lemma NoCallAfterPending(c: Settings, s: System, step: Step, id: InvoiceId)
    requires SettingsOk(c) && Inv(c, s) && Enabled(c, s, step)
    ensures Count(Apply(c, s, step).h.submitCalls, id) != Count(s.h.submitCalls, id) ==>
              step == Dispatch(Submit) && id in s.st.invoices && s.st.invoices[id].status == Pending
  {
    if step == Dispatch(Submit) {
      assert WorkerInv(c, s, Submit) && Held(s, Submit, s.submitter.batch[0]);
      assert LocalInv(c, s.st, s.submitter.batch[0].id);
    } else {
      OnlyCallsRecorded(c, s, step);
    }
  }

  // ----- Handlings -----------------------------------------------------------

  /** Committed handlings of one invoice stay within the submit budget, the poll
      budget and one cancel budget per accepted request, unless LHDN took the
      document without giving it a uuid. */
  lemma HandlingsBounded(c: Settings, run: seq<System>, i: nat, id: InvoiceId)
    requires SettingsOk(c) && IsRun(c, run) && i < |run| && id in run[i].st.invoices
    requires !Stuck(run[i].st.invoices[id])
    ensures Count(run[i].h.handled, id)
         <= AtLeastOne(c.submitMax) + AtLeastOne(c.pollMax) + AtLeastOne(c.cancelMax) * Count(run[i].h.cancels, id)
  {
    RunKeepsAccounts(c, run, i);
    assert BudgetOk(c, run[i], id);
  }

  // ----- Cancellation --------------------------------------------------------

  /** Although the worker never looks at the status, it calls LHDN's cancel
      endpoint only for a Valid invoice with a uuid, with the reason of the
      request that enqueued the event, the deadline being checked and not past. */
  lemma CancelCallsAreSafe(c: Settings, run: seq<System>, i: nat)
    requires SettingsOk(c) && IsRun(c, run) && i < |run|
    requires run[i].canceller.batch != [] && run[i].canceller.phase.InFlight?
    ensures var s, due, checkedAt := run[i], run[i].canceller.batch[0], run[i].canceller.phase.builtAt;
            && due.id in s.st.invoices
            && var row := s.st.invoices[due.id];
               && s.canceller.phase.row == row
               && row.status == Valid
               && !Absent(row.uuid)
               && row.validatedAt.Some? && checkedAt < row.validatedAt.value + 259200 && checkedAt <= s.now
               && due.o in s.h.requests && s.h.requests[due.o].id == due.id
               && row.reason == Some(s.h.requests[due.o].reason) && s.h.requests[due.o].reason != ""
  {
    RunKeepsInv(c, run, i);
    RunKeepsAccounts(c, run, i);
    var due := run[i].canceller.batch[0];
    assert WorkerInv(c, run[i], Cancel) && Held(run[i], Cancel, due);
    assert LocalInv(c, run[i].st, due.id);
    assert LiveCancel(run[i].st, due.o);
  }

  /** The canceller's refusals for a missing uuid or reason never happen; the
      only refusal without a call is a closed window. */
  lemma CancelRefusalsAreDeadlines(c: Settings, run: seq<System>, i: nat)
    requires SettingsOk(c) && IsRun(c, run) && i < |run|
    requires run[i].canceller.batch != [] && run[i].canceller.phase.Loaded?
    ensures var s := run[i];
            match PlanFor(c, Cancel, s.canceller.batch[0], s.canceller.phase.found, s.now)
            case CallLhdn => true
            case Settle(txn) =>
              && txn.FailCancel? && txn.error == CancelPrecondition(WindowClosed)
              && txn.id in s.st.invoices && s.st.invoices[txn.id].cancellableUntil.Some?
              && s.st.invoices[txn.id].cancellableUntil.value <= s.now
  {
    RunKeepsInv(c, run, i);
    var due := run[i].canceller.batch[0];
    assert WorkerInv(c, run[i], Cancel) && Held(run[i], Cancel, due);
    assert LocalInv(c, run[i].st, due.id);
  }

  /** A submission that fails locally never does so for want of a reference, and
      the reply is matched by the row's own reference. */
  lemma MissingReferenceUnreachable(c: Settings, run: seq<System>, i: nat)
    requires SettingsOk(c) && IsRun(c, run) && i < |run|
    requires run[i].submitter.batch != [] && run[i].submitter.phase.Loaded?
    ensures var s, due := run[i], run[i].submitter.batch[0];
            && s.submitter.phase.found.Some?
            && (match c.build(s.submitter.phase.found.value.payload, s.now)
                case Success(d) => d.codeNumber == s.submitter.phase.found.value.ref
                case Failure(e) => e != Ubl.MissingInvoiceRef)
  {
    RunKeepsInv(c, run, i);
    var due := run[i].submitter.batch[0];
    assert WorkerInv(c, run[i], Submit) && Held(run[i], Submit, due);
    assert LocalInv(c, run[i].st, due.id);
    var payload := run[i].st.invoices[due.id].payload;
    assert match c.build(payload, run[i].now)
           case Success(d) => Ubl.CodeNumber(payload) == Some(d.codeNumber)
           case Failure(e) => e == Ubl.MissingInvoiceRef <==> Ubl.CodeNumber(payload) == None;
  }

  // ----- Time ----------------------------------------------------------------

  lemma ReachableRow(c: Settings, run: seq<System>, i: nat, id: InvoiceId)
    requires SettingsOk(c) && IsRun(c, run) && i < |run| && id in run[i].st.invoices
    ensures RowOk(c, run[i].st.invoices[id])
  {
    RunKeepsInv(c, run, i);
    assert LocalInv(c, run[i].st, id);
  }

  /** The errors worth a retry. */
  predicate Passing(e: LhdnError) {
    e.RateLimited? || e.Server? || e.Transport? || e.Storage?
  }

  /** With the default ceiling of 8, an invoice is never given up for transient
      errors before 15150 seconds have passed since it was accepted. */
  lemma DeliveryNotGivenUpEarly(c: Settings, run: seq<System>, i: nat, id: InvoiceId)
    requires SettingsOk(c) && IsRun(c, run) && i < |run| && id in run[i].st.invoices
    requires c.submitMax == 8
    requires run[i].st.invoices[id].status == Failed
    requires var error := run[i].st.invoices[id].error;
             error.Some? && error.value.SubmitFailed? && Passing(error.value.err)
    ensures run[i].st.invoices[id].attempts == 8
    ensures run[i].st.invoices[id].updatedAt >= run[i].st.invoices[id].createdAt + 15150
  {
    ReachableRow(c, run, i, id);
    SubmitWaitClosedForm(7);
  }

  /** With the default ceiling of 60, polling is never given up, for want of a
      result or for transient errors, before 46010 seconds after submission:
      "roughly 13 hours". */
  lemma PollingNotGivenUpEarly(c: Settings, run: seq<System>, i: nat, id: InvoiceId)
    requires SettingsOk(c) && IsRun(c, run) && i < |run| && id in run[i].st.invoices
    requires c.pollMax == 60
    requires var error := run[i].st.invoices[id].error;
             error.Some? && (error.value.PollExhausted? || (error.value.PollFailed? && Passing(error.value.err)))
    ensures run[i].st.invoices[id].submittedAt.Some?
    ensures run[i].st.invoices[id].updatedAt >= run[i].st.invoices[id].submittedAt.value + 46010
  {
    ReachableRow(c, run, i, id);
    var tries := run[i].st.invoices[id].error.value.tries;
    PollWaitClosedForm(tries - 1);
  }

  /** With the default ceiling of 8, a cancellation is never given up for
      transient errors before 15150 seconds after it was requested. */
  lemma CancellingNotGivenUpEarly(c: Settings, run: seq<System>, i: nat)
    requires SettingsOk(c) && IsRun(c, run) && i < |run| && c.cancelMax == 8
    requires var w := run[i].canceller;
             && w.batch != [] && w.phase.Ready? && w.phase.txn.FailCancel?
             && w.phase.txn.error.CancelFailed? && Passing(w.phase.txn.error.err)
    ensures var s, w := run[i], run[i].canceller;
            && w.phase.txn.o in s.h.requests
            && w.phase.txn.error.tries >= 8
            && w.phase.at >= s.h.requests[w.phase.txn.o].at + 15150
  {
    RunKeepsInv(c, run, i);
    RunKeepsAccounts(c, run, i);
    RunKeepsCancelsTimely(c, run, i);
    var w := run[i].canceller;
    assert WorkerInv(c, run[i], Cancel) && Held(run[i], Cancel, w.batch[0]);
    assert LiveCancel(run[i].st, w.phase.txn.o) && TimelyAt(run[i], w.phase.txn.o);
    SubmitWaitClosedForm(w.phase.txn.error.tries - 1);
  }

  /** No retry is scheduled before its backoffs have been waited out, whatever
      the ceilings are. */
  lemma RetriesWaitTheirTurn(c: Settings, run: seq<System>, i: nat, o: nat)
    requires SettingsOk(c) && IsRun(c, run) && i < |run| && o in run[i].st.outbox
    ensures var ev := run[i].st.outbox[o];
            && ev.invoiceId in run[i].st.invoices
            && var row := run[i].st.invoices[ev.invoiceId];
               match ev.kind
               case Submit => ev.availableAt >= row.createdAt + SubmitWait(ev.attempts)
               case Poll => !Stuck(row) ==>
                              row.submittedAt.Some? && ev.availableAt >= row.submittedAt.value + PollWait(ev.attempts)
               case Cancel =>
                 o in run[i].h.requests && ev.availableAt >= run[i].h.requests[o].at + SubmitWait(ev.attempts)
  {
    RunKeepsInv(c, run, i);
    RunKeepsAccounts(c, run, i);
    RunKeepsCancelsTimely(c, run, i);
    if run[i].st.outbox[o].kind == Cancel { assert LiveCancel(run[i].st, o) && TimelyAt(run[i], o); }
    assert Owns(run[i].st, o, run[i].st.outbox[o].invoiceId);
    assert LocalInv(c, run[i].st, run[i].st.outbox[o].invoiceId);
  }

  // ----- Columns -------------------------------------------------------------

  /** Columns that say the same thing twice never disagree, and nothing is lost
      silently: each failure leaves an error on its row. */
  lemma ColumnsNeverDisagree(c: Settings, run: seq<System>, i: nat, id: InvoiceId)
    requires SettingsOk(c) && IsRun(c, run) && i < |run| && id in run[i].st.invoices
    ensures ColumnsAgree(run[i].st.invoices[id]) && ErrorsTold(run[i].st.invoices[id])
    ensures forall o: nat :: Owns(run[i].st, o, id) && run[i].st.outbox[o].kind == Submit ==>
              run[i].st.invoices[id].nextAttemptAt == Some(run[i].st.outbox[o].availableAt)
              && run[i].st.invoices[id].attempts == run[i].st.outbox[o].attempts
  {
    RunKeepsInv(c, run, i);
    assert LocalInv(c, run[i].st, id);
  }
}
