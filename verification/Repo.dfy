/** `InvoiceRepo` of crates/adapters/src/repo.rs: the tables as mutable state, one
    method per transaction, each statement of the transaction in its order. */
module Repo {
  import opened Wrappers
  import opened Json
  import opened Outbox
  import opened Invariant

  /** `batch` lists due events, earliest first and each once; `remaining` are the
      due events not listed, none of them earlier. */
  ghost predicate Selecting(st: Store, kind: Kind, now: int, batch: seq<Due>, remaining: set<nat>) {
    && remaining <= DueSet(st, kind, now)
    && |batch| + |remaining| == |DueSet(st, kind, now)|
    && (forall i :: 0 <= i < |batch| ==> Listed(st, kind, now, batch[i]) && batch[i].o !in remaining)
    && (forall o :: IsDue(st, kind, now, o) && o !in remaining ==> exists i :: 0 <= i < |batch| && batch[i].o == o)
    && (forall i, j :: 0 <= i < j < |batch| ==> batch[i].o != batch[j].o)
    && (forall i, j :: 0 <= i < j < |batch| ==>
          st.outbox[batch[i].o].availableAt <= st.outbox[batch[j].o].availableAt)
    && (forall i, o :: 0 <= i < |batch| && o in remaining ==>
          st.outbox[batch[i].o].availableAt <= st.outbox[o].availableAt)
  }

  lemma SelectNext(st: Store, kind: Kind, now: int, batch: seq<Due>, remaining: set<nat>, o: nat)
    requires Selecting(st, kind, now, batch, remaining) && o in remaining
    requires forall p :: p in remaining ==> st.outbox[o].availableAt <= st.outbox[p].availableAt
    ensures Selecting(st, kind, now, batch + [Due(o, st.outbox[o].invoiceId, st.outbox[o].attempts)], remaining - {o})
  {
    var longer := batch + [Due(o, st.outbox[o].invoiceId, st.outbox[o].attempts)];
    forall p | IsDue(st, kind, now, p) && p !in remaining - {o}
      ensures exists i :: 0 <= i < |longer| && longer[i].o == p {
      if p == o {
        assert longer[|batch|].o == p;
      } else {
        var i :| 0 <= i < |batch| && batch[i].o == p;
        assert longer[i].o == p;
      }
    }
  }

  class InvoiceRepo {
    var invoices: map<InvoiceId, Invoice>
    var outbox: map<nat, Event>
    var nextId: nat

    function View(): Store
      reads this
    {
      Store(invoices, outbox, nextId)
    }

    constructor ()
      ensures View() == EMPTY_STORE
    {
      invoices := map[];
      outbox := map[];
      nextId := 1;
    }

    // ----- Statements --------------------------------------------------------

    method Insert(id: InvoiceId, kind: Kind, availableAt: int)
      modifies this
      ensures View() == InsertEvent(old(View()), id, kind, availableAt)
    {
      outbox := outbox[nextId := Event(id, kind, availableAt, 0, None)];
      nextId := nextId + 1;
    }

    method Delete(o: nat)
      modifies this
      ensures View() == DeleteEvent(old(View()), o)
    {
      outbox := outbox - {o};
    }

    method Move(o: nat, availableAt: int, attempts: int, note: Option<EventNote>)
      modifies this
      ensures View() == UpdateEvent(old(View()), o, availableAt, attempts, note)
    {
      if o in outbox {
        outbox := outbox[o := outbox[o].(availableAt := availableAt, attempts := attempts, lastError := note)];
      }
    }

    // ----- API transactions --------------------------------------------------

    /** `SELECT ... WHERE invoice_ref = ?`. */
    method SelectByRef(ref: string) returns (found: Option<InvoiceId>)
      ensures found.Some? ==> found.value in invoices && invoices[found.value].ref == ref
      ensures found.None? <==> !RefTaken(View(), ref)
    {
      var rest := invoices.Keys;
      while rest != {}
        invariant rest <= invoices.Keys
        invariant forall id :: id in invoices && id !in rest ==> invoices[id].ref != ref
        decreases |rest|
      {
        var id :| id in rest;
        if invoices[id].ref == ref { return Some(id); }
        rest := rest - {id};
      }
      return None;
    }

    method CreatePending(id: InvoiceId, ref: string, payload: Json, now: int) returns (r: Result<Invoice, RepoError>)
      modifies this
      ensures match Outbox.CreatePending(old(View()), id, ref, payload, now)
              case Success(st) => View() == st && r == Success(st.invoices[id])
              case Failure(e) => View() == old(View()) && r == Failure(e)
    {
      var taken := SelectByRef(ref);
      if taken.Some? || id in invoices { return Failure(DuplicateRef); }
      invoices := invoices[id := FreshInvoice(ref, payload, now)];
      Insert(id, Submit, now);
      return Success(invoices[id]);
    }

    method RequestCancellation(ref: string, reason: string, now: int) returns (r: Result<Invoice, CancelError>)
      requires UniqueRefs(View())
      modifies this
      ensures match Outbox.RequestCancellation(old(View()), ref, reason, now)
              case Success(st) => View() == st && r == Success(st.invoices[FindByRef(old(View()), ref).value])
              case Failure(e) => View() == old(View()) && r == Failure(e)
    {
      var found := SelectByRef(ref);
      if found.None? { return Failure(CancelError.NotFound); }
      var id := found.value;
      assert FindByRef(View(), ref) == Some(id);
      if invoices[id].status != Valid { return Failure(NotCancellable(invoices[id].status)); }
      var deadline := invoices[id].cancellableUntil;
      if deadline.None? || deadline.value <= now { return Failure(PastWindow); }
      if HasCancelEvent(View(), id) { return Failure(AlreadyRequested); }
      invoices := invoices[id := invoices[id].(reason := Some(reason), updatedAt := now)];
      Insert(id, Cancel, now);
      return Success(invoices[id]);
    }

    // ----- Selections --------------------------------------------------------

    method Load(id: InvoiceId) returns (row: Option<Invoice>)
      ensures row == if id in invoices then Some(invoices[id]) else None
    {
      row := if id in invoices then Some(invoices[id]) else None;
    }

    /** The earliest of a non-empty set of events. */
    method Earliest(candidates: set<nat>) returns (o: nat)
      requires candidates != {} && candidates <= outbox.Keys
      ensures o in candidates && forall p :: p in candidates ==> outbox[o].availableAt <= outbox[p].availableAt
    {
      o :| o in candidates;
      var rest := candidates - {o};
      while rest != {}
        invariant rest <= candidates && o in candidates
        invariant forall p :: p in candidates && p !in rest ==> outbox[o].availableAt <= outbox[p].availableAt
        decreases |rest|
      {
        var p :| p in rest;
        if outbox[p].availableAt < outbox[o].availableAt { o := p; }
        rest := rest - {p};
      }
    }

    /** `due_submit_events`, `due_poll_events` and `due_cancel_events`, which differ
        only in the kind. */
    method DueEvents(kind: Kind, now: int, limit: int) returns (batch: seq<Due>)
      ensures IsBatch(View(), kind, now, limit, batch)
    {
      var remaining := DueSet(View(), kind, now);
      batch := [];
      while remaining != {} && (limit < 0 || |batch| < limit)
        invariant Selecting(View(), kind, now, batch, remaining)
        invariant limit >= 0 ==> |batch| <= limit
        decreases |remaining|
      {
        var o := Earliest(remaining);
        SelectNext(View(), kind, now, batch, remaining, o);
        batch := batch + [Due(o, outbox[o].invoiceId, outbox[o].attempts)];
        remaining := remaining - {o};
      }
    }

    // ----- Worker transactions -----------------------------------------------

    // Each UPDATE names its row by id and tests no other column.

    /** Fails and rolls back when the row is gone: the new event would dangle. */
    method CompleteSubmission(id: InvoiceId, o: nat, uid: string, uuid: string,
                              signature: string, document: string, digest: string, now: int)
      modifies this
      ensures View() == Exec(old(View()), Txn.CompleteSubmission(id, o, uid, uuid, signature, document, digest), now)
    {
      if id !in invoices { return; }
      invoices := invoices[id := invoices[id].(status := Submitted, submissionUid := Some(uid), uuid := Some(uuid),
                               signature := Some(signature), document := Some(document), digest := Some(digest),
                               error := None, submittedAt := Some(now), nextAttemptAt := None, updatedAt := now)];
      Delete(o);
      Insert(id, Poll, now);
    }

    method MarkValid(id: InvoiceId, o: nat, longId: string, qrUrl: string,
                     validatedAt: int, cancellableUntil: int, now: int)
      modifies this
      ensures View() == Exec(old(View()), Txn.MarkValid(id, o, longId, qrUrl, validatedAt, cancellableUntil), now)
    {
      if id in invoices {
        invoices := invoices[id := invoices[id].(status := Valid, longId := Some(longId), qrUrl := Some(qrUrl),
                                 validatedAt := Some(validatedAt), cancellableUntil := Some(cancellableUntil),
                                 error := None, updatedAt := now)];
      }
      Delete(o);
    }

    method MarkInvalid(id: InvoiceId, o: nat, error: ErrorNote, now: int)
      modifies this
      ensures View() == Exec(old(View()), Txn.MarkInvalid(id, o, error), now)
    {
      if id in invoices {
        invoices := invoices[id := invoices[id].(status := Invalid, error := Some(error), updatedAt := now)];
      }
      Delete(o);
    }

    method MarkCancelledViaPoll(id: InvoiceId, o: nat, cancelledAt: int, now: int)
      modifies this
      ensures View() == Exec(old(View()), Txn.MarkCancelledViaPoll(id, o, cancelledAt), now)
    {
      if id in invoices {
        invoices := invoices[id := invoices[id].(status := Cancelled, cancelledAt := Some(cancelledAt),
                                 updatedAt := now)];
      }
      Delete(o);
    }

    method FailPoll(id: InvoiceId, o: nat, error: ErrorNote, now: int)
      modifies this
      ensures View() == Exec(old(View()), Txn.FailPoll(id, o, error), now)
    {
      if id in invoices {
        invoices := invoices[id := invoices[id].(error := Some(error), updatedAt := now)];
      }
      Delete(o);
    }

    method ReschedulePoll(o: nat, attempts: int, nextAt: int, note: Option<EventNote>, ghost now: int)
      modifies this
      ensures View() == Exec(old(View()), Txn.ReschedulePoll(o, attempts, nextAt, note), now)
    {
      Move(o, nextAt, attempts, note);
    }

    method CompleteCancel(id: InvoiceId, o: nat, cancelledAt: int, now: int)
      modifies this
      ensures View() == Exec(old(View()), Txn.CompleteCancel(id, o, cancelledAt), now)
    {
      if id in invoices {
        invoices := invoices[id := invoices[id].(status := Cancelled, cancelledAt := Some(cancelledAt), error := None,
                                 updatedAt := now)];
      }
      Delete(o);
    }

    method FailCancel(id: InvoiceId, o: nat, error: ErrorNote, now: int)
      modifies this
      ensures View() == Exec(old(View()), Txn.FailCancel(id, o, error), now)
    {
      if id in invoices {
        invoices := invoices[id := invoices[id].(error := Some(error), updatedAt := now)];
      }
      Delete(o);
    }

    method RescheduleCancel(o: nat, attempts: int, nextAt: int, note: EventNote, ghost now: int)
      modifies this
      ensures View() == Exec(old(View()), Txn.RescheduleCancel(o, attempts, nextAt, note), now)
    {
      Move(o, nextAt, attempts, Some(note));
    }

    method FailPermanently(id: InvoiceId, o: nat, attempts: int, error: ErrorNote, now: int)
      modifies this
      ensures View() == Exec(old(View()), Txn.FailPermanently(id, o, attempts, error), now)
    {
      if id in invoices {
        invoices := invoices[id := invoices[id].(status := Failed, attempts := attempts, error := Some(error),
                                 nextAttemptAt := None, updatedAt := now)];
      }
      Delete(o);
    }

    method Reschedule(id: InvoiceId, o: nat, attempts: int, nextAt: int, error: ErrorNote, note: EventNote, now: int)
      modifies this
      ensures View() == Exec(old(View()), Txn.Reschedule(id, o, attempts, nextAt, error, note), now)
    {
      if id in invoices {
        invoices := invoices[id := invoices[id].(attempts := attempts, error := Some(error),
                                 nextAttemptAt := Some(nextAt),
                                 updatedAt := now)];
      }
      Move(o, nextAt, attempts, Some(note));
    }
  }
}
