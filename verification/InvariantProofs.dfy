/** Every transaction that fits its event keeps the tables' invariant. */
module InvariantProofs {
  import opened Wrappers
  import opened Json
  import opened Lhdn
  import opened Outbox
  import opened Decisions
  import opened Invariant
  import Ubl

  // ----- Effects on one invoice ----------------------------------------------

  lemma SettleTouchesOne(st: Store, x: InvoiceId, o: nat, row: Invoice, st': Store)
    requires Owns(st, o, x) && st' == DeleteEvent(PutRow(st, x, row), o)
    ensures forall id :: id != x ==> SameFor(st, st', id)
  {
  }

  /** A row updated and its only event deleted. */
  lemma SettleKeeps(c: Settings, st: Store, x: InvoiceId, o: nat, row: Invoice, st': Store)
    requires StoreInv(c, st) && Owns(st, o, x) && x in st.invoices
    requires st' == DeleteEvent(PutRow(st, x, row), o)
    requires RowOk(c, row) && !NeedsEvent(row) && row.ref == st.invoices[x].ref
    ensures StoreInv(c, st')
  {
    assert LocalInv(c, st, x);
    assert LocalInv(c, st', x) by {
      forall p: nat | Owns(st', p, x) ensures false {
        assert Owns(st, p, x);
      }
    }
    SettleTouchesOne(st, x, o, row, st');
    StoreInvFrame(c, st, st', x);
  }

  lemma AmendTouchesOne(st: Store, x: InvoiceId, o: nat, row: Invoice, ev: Event, st': Store)
    requires Owns(st, o, x) && ev.invoiceId == x
    requires st'.invoices == st.invoices[x := row] && st'.outbox == st.outbox[o := ev] && st'.nextId == st.nextId
    ensures forall id :: id != x ==> SameFor(st, st', id)
  {
  }

  /** A row updated and its event changed in place. */
  lemma AmendKeeps(c: Settings, st: Store, x: InvoiceId, o: nat, row: Invoice, ev: Event, st': Store)
    requires StoreInv(c, st) && Owns(st, o, x) && x in st.invoices
    requires st'.invoices == st.invoices[x := row] && st'.outbox == st.outbox[o := ev] && st'.nextId == st.nextId
    requires RowOk(c, row) && row.ref == st.invoices[x].ref
    requires ev.invoiceId == x && EventOk(c, row, ev)
    ensures StoreInv(c, st')
    ensures forall id :: id != x ==> SameFor(st, st', id)
  {
    assert LocalInv(c, st, x);
    assert LocalInv(c, st', x) by {
      assert Owns(st', o, x);
      forall p: nat | Owns(st', p, x) ensures p == o {
        assert Owns(st, p, x);
      }
    }
    AmendTouchesOne(st, x, o, row, ev, st');
    StoreInvFrame(c, st, st', x);
  }

  /** A row written, its event deleted if it had one, and a new event inserted. */
  lemma EnqueueKeeps(c: Settings, st: Store, x: InvoiceId, row: Invoice, ev: Event, st': Store)
    requires StoreInv(c, st)
    requires st'.invoices == st.invoices[x := row] && st'.nextId == st.nextId + 1
    requires forall p: nat :: p in st'.outbox <==> p == st.nextId || (p in st.outbox && st.outbox[p].invoiceId != x)
    requires st'.outbox[st.nextId] == ev
    requires forall p: nat :: p in st.outbox && st.outbox[p].invoiceId != x ==> st'.outbox[p] == st.outbox[p]
    requires RowOk(c, row) && ev.invoiceId == x && EventOk(c, row, ev)
    requires if x in st.invoices then row.ref == st.invoices[x].ref else !RefTaken(st, row.ref)
    ensures StoreInv(c, st')
    ensures forall id :: id != x ==> SameFor(st, st', id)
  {
    assert LocalInv(c, st', x) by {
      assert Owns(st', st.nextId, x);
    }
    assert st.nextId !in st.outbox;
    StoreInvFrame(c, st, st', x);
  }

  // ----- Rows stay well-formed -----------------------------------------------

  lemma SubmitTxnKeepsRow(c: Settings, due: Due, row: Invoice, ev: Event, txn: Txn, at: int, now: int)
    requires RowOk(c, row) && EventOk(c, row, ev) && ev.kind == Submit
    requires TxnFits(c, due, row, ev, txn, at) && at <= now
    ensures RowOk(c, RowAfter(row, txn, now))
    ensures txn.Reschedule? ==>
              EventOk(c, RowAfter(row, txn, now),
                      ev.(availableAt := txn.nextAt, attempts := txn.attempts, lastError := Some(txn.note)))
    ensures txn.CompleteSubmission? ==>
              EventOk(c, RowAfter(row, txn, now), Event(ev.invoiceId, Poll, now, 0, None))
  {
  }

  lemma PollTxnKeepsRow(c: Settings, due: Due, row: Invoice, ev: Event, txn: Txn, at: int, now: int)
    requires RowOk(c, row) && EventOk(c, row, ev) && ev.kind == Poll
    requires TxnFits(c, due, row, ev, txn, at) && at <= now
    ensures RowOk(c, RowAfter(row, txn, now))
    ensures txn.ReschedulePoll? ==>
              EventOk(c, row, ev.(availableAt := txn.nextAt, attempts := txn.attempts, lastError := txn.pollNote))
  {
  }

  lemma CancelTxnKeepsRow(c: Settings, due: Due, row: Invoice, ev: Event, txn: Txn, at: int, now: int)
    requires RowOk(c, row) && EventOk(c, row, ev) && ev.kind == Cancel
    requires TxnFits(c, due, row, ev, txn, at) && at <= now
    ensures RowOk(c, RowAfter(row, txn, now))
    ensures txn.RescheduleCancel? ==>
              EventOk(c, row, ev.(availableAt := txn.nextAt, attempts := txn.attempts, lastError := Some(txn.note)))
  {
  }

  lemma RowStaysOk(c: Settings, due: Due, row: Invoice, ev: Event, txn: Txn, at: int, now: int)
    requires RowOk(c, row) && EventOk(c, row, ev)
    requires TxnFits(c, due, row, ev, txn, at) && at <= now
    ensures RowOk(c, RowAfter(row, txn, now))
    ensures RowAfter(row, txn, now).ref == row.ref && RowAfter(row, txn, now).payload == row.payload
  {
    match ev.kind
    case Submit => SubmitTxnKeepsRow(c, due, row, ev, txn, at, now);
    case Poll => PollTxnKeepsRow(c, due, row, ev, txn, at, now);
    case Cancel => CancelTxnKeepsRow(c, due, row, ev, txn, at, now);
  }

  // ----- The commits ---------------------------------------------------------

  ghost predicate CommitPre(c: Settings, st: Store, kind: Kind, due: Due, txn: Txn, at: int) {
    && StoreInv(c, st) && Holds(st, kind, due) && due.id in st.invoices
    && TxnFits(c, due, st.invoices[due.id], st.outbox[due.o], txn, at)
  }

  lemma SubmissionCommitKeeps(c: Settings, st: Store, kind: Kind, due: Due, txn: Txn, at: int, now: int)
    requires CommitPre(c, st, kind, due, txn, at) && at <= now && txn.CompleteSubmission?
    ensures StoreInv(c, Exec(st, txn, now))
    ensures forall id :: id != due.id ==> SameFor(st, Exec(st, txn, now), id)
  {
    var x, st' := due.id, Exec(st, txn, now);
    assert LocalInv(c, st, x);
    SubmitTxnKeepsRow(c, due, st.invoices[x], st.outbox[due.o], txn, at, now);
    forall p: nat ensures p in st'.outbox <==> p == st.nextId || (p in st.outbox && st.outbox[p].invoiceId != x) {
      if p in st.outbox && st.outbox[p].invoiceId == x { assert Owns(st, p, x); }
    }
    EnqueueKeeps(c, st, x, RowAfter(st.invoices[x], txn, now), Event(x, Poll, now, 0, None), st');
  }

  lemma RescheduleKeeps(c: Settings, st: Store, kind: Kind, due: Due, txn: Txn, at: int, now: int)
    requires CommitPre(c, st, kind, due, txn, at) && at <= now && txn.Reschedule?
    ensures StoreInv(c, Exec(st, txn, now))
    ensures forall id :: id != due.id ==> SameFor(st, Exec(st, txn, now), id)
  {
    var row, ev := st.invoices[due.id], st.outbox[due.o];
    assert LocalInv(c, st, due.id);
    SubmitTxnKeepsRow(c, due, row, ev, txn, at, now);
    AmendKeeps(c, st, due.id, due.o, RowAfter(row, txn, now),
               ev.(availableAt := txn.nextAt, attempts := txn.attempts, lastError := Some(txn.note)),
                 Exec(st, txn, now));
  }

  lemma EventOnlyKeeps(c: Settings, st: Store, kind: Kind, due: Due, txn: Txn, at: int, now: int)
    requires CommitPre(c, st, kind, due, txn, at) && at <= now && (txn.ReschedulePoll? || txn.RescheduleCancel?)
    ensures StoreInv(c, Exec(st, txn, now))
    ensures forall id :: id != due.id ==> SameFor(st, Exec(st, txn, now), id)
  {
    var row, ev := st.invoices[due.id], st.outbox[due.o];
    assert LocalInv(c, st, due.id);
    assert st.invoices[due.id := row] == st.invoices;
    if txn.ReschedulePoll? {
      PollTxnKeepsRow(c, due, row, ev, txn, at, now);
      AmendKeeps(c, st, due.id, due.o, row,
                 ev.(availableAt := txn.nextAt, attempts := txn.attempts, lastError := txn.pollNote),
                 Exec(st, txn, now));
    } else {
      CancelTxnKeepsRow(c, due, row, ev, txn, at, now);
      AmendKeeps(c, st, due.id, due.o, row,
                 ev.(availableAt := txn.nextAt, attempts := txn.attempts, lastError := Some(txn.note)),
                 Exec(st, txn, now));
    }
  }

  /** The transactions that end the event's life. */
  predicate Settles(txn: Txn) {
    !txn.CompleteSubmission? && !txn.Reschedule? && !txn.ReschedulePoll? && !txn.RescheduleCancel?
  }

  lemma SettlingCommitKeeps(c: Settings, st: Store, kind: Kind, due: Due, txn: Txn, at: int, now: int)
    requires CommitPre(c, st, kind, due, txn, at) && at <= now && Settles(txn)
    ensures StoreInv(c, Exec(st, txn, now))
    ensures forall id :: id != due.id ==> SameFor(st, Exec(st, txn, now), id)
  {
    var row := st.invoices[due.id];
    assert LocalInv(c, st, due.id);
    RowStaysOk(c, due, row, st.outbox[due.o], txn, at, now);
    SettleTouchesOne(st, due.id, due.o, RowAfter(row, txn, now), Exec(st, txn, now));
    SettleKeeps(c, st, due.id, due.o, RowAfter(row, txn, now), Exec(st, txn, now));
  }

  /** Any transaction that fits the event a worker holds keeps the invariant and
      changes nothing about any other invoice. */
  lemma CommitKeeps(c: Settings, st: Store, kind: Kind, due: Due, txn: Txn, at: int, now: int)
    requires CommitPre(c, st, kind, due, txn, at) && at <= now
    ensures StoreInv(c, Exec(st, txn, now))
    ensures forall id :: id != due.id ==> SameFor(st, Exec(st, txn, now), id)
  {
    if txn.CompleteSubmission? { SubmissionCommitKeeps(c, st, kind, due, txn, at, now); }
    else if txn.Reschedule? { RescheduleKeeps(c, st, kind, due, txn, at, now); }
    else if Settles(txn) { SettlingCommitKeeps(c, st, kind, due, txn, at, now); }
    else { EventOnlyKeeps(c, st, kind, due, txn, at, now); }
  }

  // ----- The API -------------------------------------------------------------

  lemma CreateKeeps(c: Settings, st: Store, id: InvoiceId, ref: string, payload: Json, now: int)
    requires StoreInv(c, st) && CreatePending(st, id, ref, payload, now).Success?
    requires Ubl.CodeNumber(payload) == Some(ref) && now > 0
    ensures var st' := CreatePending(st, id, ref, payload, now).value;
            StoreInv(c, st') && forall other :: other != id ==> SameFor(st, st', other)
  {
    var st' := CreatePending(st, id, ref, payload, now).value;
    forall p: nat | p in st.outbox ensures st.outbox[p].invoiceId != id {
      assert Owns(st, p, st.outbox[p].invoiceId);
      assert LocalInv(c, st, st.outbox[p].invoiceId);
    }
    EnqueueKeeps(c, st, id, FreshInvoice(ref, payload, now), Event(id, Submit, now, 0, None), st');
  }

  /** A Valid row has no event but possibly a cancel event. */
  lemma AcceptedCancelHasNoEvent(c: Settings, st: Store, id: InvoiceId, now: int)
    requires StoreInv(c, st) && id in st.invoices && CancelRefusal(st, id, now).None?
    ensures forall o: nat :: !Owns(st, o, id)
  {
    assert LocalInv(c, st, id);
  }

  lemma EnqueueCancelKeeps(c: Settings, st: Store, id: InvoiceId, reason: string, now: int)
    requires StoreInv(c, st) && id in st.invoices && CancelRefusal(st, id, now).None? && reason != "" && now > 0
    ensures StoreInv(c, EnqueueCancel(st, id, reason, now))
    ensures forall other :: other != id ==> SameFor(st, EnqueueCancel(st, id, reason, now), other)
  {
    AcceptedCancelHasNoEvent(c, st, id, now);
    assert LocalInv(c, st, id);
    forall p: nat | p in st.outbox ensures st.outbox[p].invoiceId != id {
      assert !Owns(st, p, id);
    }
    EnqueueKeeps(c, st, id, st.invoices[id].(reason := Some(reason), updatedAt := now),
                 Event(id, Cancel, now, 0, None), EnqueueCancel(st, id, reason, now));
  }

  // ----- Decisions fit -------------------------------------------------------

  lemma PlanFits(c: Settings, st: Store, kind: Kind, due: Due, now: int)
    requires SettingsOk(c) && StoreInv(c, st) && Holds(st, kind, due)
    requires st.outbox[due.o].availableAt <= now && now > 0
    ensures due.id in st.invoices
    ensures var plan := PlanFor(c, kind, due, Some(st.invoices[due.id]), now);
            plan.Settle? ==> TxnFits(c, due, st.invoices[due.id], st.outbox[due.o], plan.txn, now)
  {
    assert LocalInv(c, st, due.id);
    var row := st.invoices[due.id];
    if kind == Submit {
      assert match c.build(row.payload, now) case Failure(e) => e != Ubl.MissingInvoiceRef case Success(_) => true;
    }
  }

  /** When LHDN is called the worker has what the call needs. */
  predicate CallJustified(c: Settings, kind: Kind, row: Invoice, builtAt: int) {
    match kind
    case Submit => c.build(row.payload, builtAt).Success?
    case Poll => !Absent(row.uuid)
    case Cancel => CheckPreconditions(row, builtAt).None?
  }

  ghost predicate VerdictOk(c: Settings, kind: Kind, due: Due, row: Invoice, ev: Event, builtAt: int,
                           reply: Reply, now: int)
    requires Answers(kind, reply) && CallJustified(c, kind, row, builtAt)
  {
    match VerdictFor(c, kind, due, row, builtAt, reply, now)
    case Settled(txn) => TxnFits(c, due, row, ev, txn, now)
    case ReadAgain(e) => kind == Submit && TxnFits(c, due, row, ev, RejectionTxn(due, Some(row), e), now)
  }

  /** What is known of an event when LHDN's reply for it is judged. */
  ghost predicate Answerable(c: Settings, kind: Kind, due: Due, row: Invoice, ev: Event, builtAt: int,
                             reply: Reply, now: int) {
    && RowOk(c, row) && EventOk(c, row, ev)
    && ev.kind == kind && ev.attempts == due.attempts && ev.availableAt <= now && now > 0
    && Answers(kind, reply) && CallJustified(c, kind, row, builtAt)
  }

  lemma SubmitVerdictFits(c: Settings, due: Due, row: Invoice, ev: Event, builtAt: int, reply: Reply, now: int)
    requires SettingsOk(c) && Answerable(c, Submit, due, row, ev, builtAt, reply, now)
    ensures VerdictOk(c, Submit, due, row, ev, builtAt, reply, now)
  {
    var d := c.build(row.payload, builtAt).value;
    assert Signed(c, row.payload, builtAt, d.signature, d.canonicalText, d.documentHash);
  }

  lemma PollVerdictFits(c: Settings, due: Due, row: Invoice, ev: Event, builtAt: int, reply: Reply, now: int)
    requires Answerable(c, Poll, due, row, ev, builtAt, reply, now)
    ensures VerdictOk(c, Poll, due, row, ev, builtAt, reply, now)
  {
  }

  lemma CancelVerdictFits(c: Settings, due: Due, row: Invoice, ev: Event, builtAt: int, reply: Reply, now: int)
    requires Answerable(c, Cancel, due, row, ev, builtAt, reply, now)
    ensures VerdictOk(c, Cancel, due, row, ev, builtAt, reply, now)
  {
  }

  lemma VerdictFits(c: Settings, st: Store, kind: Kind, due: Due, builtAt: int, reply: Reply, now: int)
    requires SettingsOk(c) && StoreInv(c, st) && Holds(st, kind, due) && Answers(kind, reply)
    requires due.id in st.invoices && CallJustified(c, kind, st.invoices[due.id], builtAt)
    requires st.outbox[due.o].availableAt <= now && now > 0
    ensures VerdictOk(c, kind, due, st.invoices[due.id], st.outbox[due.o], builtAt, reply, now)
  {
    assert LocalInv(c, st, due.id);
    var row, ev := st.invoices[due.id], st.outbox[due.o];
    match kind
    case Submit => SubmitVerdictFits(c, due, row, ev, builtAt, reply, now);
    case Poll => PollVerdictFits(c, due, row, ev, builtAt, reply, now);
    case Cancel => CancelVerdictFits(c, due, row, ev, builtAt, reply, now);
  }

  /** One undisturbed pass over an event keeps the invariant. */
  lemma HandleKeeps(c: Settings, kind: Kind, st: Store, due: Due, w: World)
    requires SettingsOk(c) && StoreInv(c, st) && Holds(st, kind, due) && Answers(kind, w.reply)
    requires st.outbox[due.o].availableAt <= w.plannedAt && 0 < w.plannedAt <= w.repliedAt <= w.committedAt
    ensures StoreInv(c, Handle(c, kind, st, due, w))
    ensures forall id :: id != due.id ==> SameFor(st, Handle(c, kind, st, due, w), id)
  {
    if w.loadOk {
      PlanFits(c, st, kind, due, w.plannedAt);
      var row := st.invoices[due.id];
      match PlanFor(c, kind, due, Some(row), w.plannedAt)
      case Settle(txn) => CommitKeeps(c, st, kind, due, txn, w.plannedAt, w.committedAt);
      case CallLhdn =>
        VerdictFits(c, st, kind, due, w.plannedAt, w.reply, w.repliedAt);
        match VerdictFor(c, kind, due, row, w.plannedAt, w.reply, w.repliedAt)
        case Settled(txn) => CommitKeeps(c, st, kind, due, txn, w.repliedAt, w.committedAt);
        case ReadAgain(e) => CommitKeeps(c, st, kind, due, RejectionTxn(due, Some(row), e), w.repliedAt, w.committedAt);
    }
  }
}
