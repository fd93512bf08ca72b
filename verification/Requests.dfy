/**
 What the two requests of the API do (crates/adapters/src/api.rs, and
 `create_pending` and `request_cancellation` of crates/adapters/src/repo.rs): when
 each is accepted, which refusal it meets otherwise, and every column and event an
 accepted one writes; stated from the rows, the events and the request's body.
 */
module Requests {
  import opened Wrappers
  import opened Json
  import opened Outbox
  import opened Decisions
  import opened Invariant
  import opened Protocol
  import opened ProtocolInvariant
  import opened Lifecycle
  import opened Contents
  import Text

  ghost predicate Names(st: Store, ref: string, id: InvoiceId) {
    id in st.invoices && st.invoices[id].ref == ref
  }

  ghost predicate Unnamed(st: Store, ref: string) {
    forall id :: id in st.invoices ==> st.invoices[id].ref != ref
  }

  ghost predicate HasNoEvent(st: Store, id: InvoiceId) {
    forall o :: o in st.outbox ==> st.outbox[o].invoiceId != id
  }

  // ----- Cancel requests -----------------------------------------------------

  /** Valid, and less than 72 hours ago. */
  predicate Cancellable(row: Invoice, now: int) {
    row.status == Valid && row.validatedAt.Some? && now < row.validatedAt.value + 259200
  }

  /** In the column of its deadline, the row says so too. */
  lemma DeadlineSaysSo(c: Settings, st: Store, id: InvoiceId, now: int)
    requires StoreInv(c, st) && id in st.invoices && st.invoices[id].status == Valid
    ensures Cancellable(st.invoices[id], now)
       <==> st.invoices[id].cancellableUntil.Some? && now < st.invoices[id].cancellableUntil.value
    ensures HasCancelEvent(st, id) <==> !HasNoEvent(st, id)
  {
    assert LocalInv(c, st, id);
    forall o | o in st.outbox && st.outbox[o].invoiceId == id ensures st.outbox[o].kind == Cancel {
      assert Owns(st, o, id);
    }
  }

  /** A cancel request naming row `id` is accepted exactly when the row is
      cancellable and no event of its is live; otherwise the refusal says why. */
  lemma CancelAcceptedIff(c: Settings, st: Store, ref: string, reason: string, now: int, id: InvoiceId)
    requires StoreInv(c, st) && Names(st, ref, id)
    ensures var r, row := RequestCancellation(st, ref, reason, now), st.invoices[id];
            && (r.Success? <==> Cancellable(row, now) && HasNoEvent(st, id))
            && (r == Failure(NotCancellable(row.status)) <==> row.status != Valid)
            && (r == Failure(PastWindow) <==> row.status == Valid && !Cancellable(row, now))
            && (r == Failure(AlreadyRequested) <==> Cancellable(row, now) && !HasNoEvent(st, id))
            && (r.Success? ==>
                  r.value == Store(st.invoices[id := row.(reason := Some(reason), updatedAt := now)],
                                   st.outbox[st.nextId := Event(id, Cancel, now, 0, None)], st.nextId + 1))
  {
    assert FindByRef(st, ref) == Some(id);
    if st.invoices[id].status == Valid { DeadlineSaysSo(c, st, id, now); }
  }

  lemma CancelNotFoundIff(st: Store, ref: string, reason: string, now: int)
    ensures RequestCancellation(st, ref, reason, now) == Failure(CancelError.NotFound) <==> Unnamed(st, ref)
  {
  }

  /** `POST /v1/invoices/{ref}/cancel` over the whole system: it changes the tables
      exactly when its body has a reason and the above holds, and then stores the
      trimmed reason. */
  lemma CancelEndpoint(c: Settings, s: System, ref: string, body: Json, t: int, id: InvoiceId)
    requires StoreInv(c, s.st) && Names(s.st, ref, id)
    ensures var s' := AfterRequestCancel(s, ref, body, t);
            if HasText(body, "reason") && Cancellable(s.st.invoices[id], t) && HasNoEvent(s.st, id) then
              var reason := Text.Trim(body.members["reason"].s);
              && s'.st == Store(s.st.invoices[id := s.st.invoices[id].(reason := Some(reason), updatedAt := t)],
                                s.st.outbox[s.st.nextId := Event(id, Cancel, t, 0, None)], s.st.nextId + 1)
              && s'.h.requests == s.h.requests[s.st.nextId := Request(id, reason, t)]
            else s' == s
  {
    assert FindByRef(s.st, ref) == Some(id);
    if HasText(body, "reason") { CancelAcceptedIff(c, s.st, ref, Text.Trim(body.members["reason"].s), t, id); }
  }

  // ----- New invoices --------------------------------------------------------

  /** A row just accepted: nothing but the reference, the payload and the time. */
  predicate JustAccepted(row: Invoice, ref: string, payload: Json, now: int) {
    && row.ref == ref && row.payload == payload && row.status == Pending && row.attempts == 0
    && row.nextAttemptAt == Some(now) && row.createdAt == now && row.updatedAt == now
    && row.submissionUid == row.uuid == row.signature == row.document == row.digest == None
    && row.longId == row.qrUrl == row.reason == None && row.error == None
    && row.submittedAt == row.validatedAt == row.cancellableUntil == row.cancelledAt == None
  }

  /** `POST /v1/invoices`: it changes the tables exactly when its body has a
      reference, which is then trimmed, and no row has it (nor the fresh id); the
      payload is stored as it came. */
  lemma SubmitEndpoint(s: System, id: InvoiceId, payload: Json, t: int)
    ensures var s' := AfterCreate(s, id, payload, t);
            if HasText(payload, "invoice_ref") && id !in s.st.invoices
               && Unnamed(s.st, Text.Trim(payload.members["invoice_ref"].s)) then
              && id in s'.st.invoices
              && JustAccepted(s'.st.invoices[id], Text.Trim(payload.members["invoice_ref"].s), payload, t)
              && s'.st == Store(s.st.invoices[id := s'.st.invoices[id]],
                                s.st.outbox[s.st.nextId := Event(id, Submit, t, 0, None)], s.st.nextId + 1)
            else s' == s
  {
  }

  // ----- Over whole runs -----------------------------------------------------

  /** Accepted request `o` was made less than 72 hours after its row's validation. */
  ghost predicate InTime(s: System, o: nat) {
    o in s.h.requests ==>
      && s.h.requests[o].id in s.st.invoices && s.h.requests[o].reason != ""
      && s.st.invoices[s.h.requests[o].id].validatedAt.Some?
      && s.h.requests[o].at < s.st.invoices[s.h.requests[o].id].validatedAt.value + 259200
  }

  lemma AcceptanceInTime(c: Settings, s: System, step: Step, o: nat)
    requires Inv(c, s) && Enabled(c, s, step) && step.RequestCancel? && InTime(s, o)
    ensures InTime(Apply(c, s, step), o)
  {
    if RefTaken(s.st, step.ref) {
      var id :| id in s.st.invoices && s.st.invoices[id].ref == step.ref;
      CancelEndpoint(c, s, step.ref, step.body, step.t, id);
    }
  }

  lemma StepKeepsInTime(c: Settings, s: System, step: Step, o: nat)
    requires SettingsOk(c) && Inv(c, s) && Enabled(c, s, step) && InTime(s, o)
    ensures InTime(Apply(c, s, step), o)
  {
    if step.RequestCancel? {
      AcceptanceInTime(c, s, step, o);
    } else {
      OtherStepsKeepRequests(c, s, step);
      if o in s.h.requests { StepMakesProgress(c, s, step, s.h.requests[o].id); }
    }
  }

  /** In every reachable state, every cancel request ever accepted had a reason
      and came less than 72 hours after the validation of its invoice. */
  lemma {:induction false} AcceptedInTime(c: Settings, run: seq<System>, i: nat, o: nat)
    requires SettingsOk(c) && IsRun(c, run) && i < |run|
    ensures InTime(run[i], o)
  {
    if i > 0 {
      AcceptedInTime(c, run, i - 1, o);
      RunKeepsInv(c, run, i - 1);
      assert StepAt(c, run, i - 1);
      var step :| Enabled(c, run[i - 1], step) && run[i] == Apply(c, run[i - 1], step);
      StepKeepsInTime(c, run[i - 1], step, o);
    }
  }
}
