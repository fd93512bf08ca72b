/**
 Calls, handlings and cancel requests counted over whole runs: how often LHDN is
 asked to accept one invoice, how many worker transactions one invoice can cost,
 and what becomes of every accepted cancel request.
 */
module Accounting {
  import opened Wrappers
  import opened Json
  import opened Lhdn
  import opened Outbox
  import opened Decisions
  import opened Invariant
  import opened InvariantProofs
  import opened Protocol
  import opened ProtocolInvariant
  import opened Lifecycle

  /** Calls of `submit_documents` for one invoice. */
  predicate CallsOk(c: Settings, s: System, id: InvoiceId) {
    var calls, lost := Count(s.h.submitCalls, id), Count(s.h.interrupted, id);
    if id !in s.st.invoices then calls == 0 && lost == 0
    else
      && calls <= AtLeastOne(c.submitMax) + lost
      && (s.st.invoices[id].status == Pending ==>
            calls == s.st.invoices[id].attempts + lost + (if CalledFor(s.submitter, id) then 1 else 0))
  }

  /** Handlings an event can still lead to, if its row is not stuck. */
  function Weight(c: Settings, ev: Event): int {
    match ev.kind
    case Submit => AtLeastOne(c.submitMax) - ev.attempts + AtLeastOne(c.pollMax)
    case Poll => AtLeastOne(c.pollMax) - ev.attempts
    case Cancel => AtLeastOne(c.cancelMax) - ev.attempts
  }

  function Budget(c: Settings, cancels: nat): int {
    AtLeastOne(c.submitMax) + AtLeastOne(c.pollMax) + AtLeastOne(c.cancelMax) * cancels
  }

  lemma BudgetGrows(c: Settings, cancels: nat)
    ensures Budget(c, cancels + 1) == Budget(c, cancels) + AtLeastOne(c.cancelMax)
  {
  }

  /** Handlings spent plus handlings still possible stay within the budget. */
  ghost predicate BudgetOk(c: Settings, s: System, id: InvoiceId) {
    var spent, cancels := Count(s.h.handled, id), Count(s.h.cancels, id);
    if id !in s.st.invoices then spent == 0 && cancels == 0
    else
      !Stuck(s.st.invoices[id]) ==>
        && spent <= Budget(c, cancels)
        && forall o: nat :: Owns(s.st, o, id) ==> spent + Weight(c, s.st.outbox[o]) <= Budget(c, cancels)
  }

  predicate LiveCancel(st: Store, o: nat) {
    o in st.outbox && st.outbox[o].kind == Cancel
  }

  /** Every accepted cancel request is live, completed or refused, and only one
      of the three; a live one still carries the reason that was accepted. */
  ghost predicate LedgerOk(s: System) {
    && (forall o: nat :: o in s.h.requests <==> LiveCancel(s.st, o) || o in s.h.completed || o in s.h.refused)
    && (forall o: nat :: o in s.h.completed ==> o !in s.h.refused && !LiveCancel(s.st, o))
    && (forall o: nat :: o in s.h.refused ==> !LiveCancel(s.st, o))
    && (forall o: nat :: o in s.h.requests ==> o < s.st.nextId)
    && (forall o: nat :: LiveCancel(s.st, o) ==>
          && s.h.requests[o].id == s.st.outbox[o].invoiceId
          && s.h.requests[o].id in s.st.invoices
          && s.st.invoices[s.h.requests[o].id].reason == Some(s.h.requests[o].reason))
  }

  /** A delivery is only ever counted as failed after a call. */
  predicate RetriesFollowCalls(s: System) {
    s.submitter.phase.Ready? && s.submitter.phase.txn.Reschedule? ==> s.submitter.phase.called
  }

  ghost predicate AccountsOk(c: Settings, s: System) {
    && (forall id :: CallsOk(c, s, id))
    && (forall id :: BudgetOk(c, s, id))
    && LedgerOk(s)
    && RetriesFollowCalls(s)
  }

  lemma InitAccounts(c: Settings, s: System)
    requires Init(s)
    ensures AccountsOk(c, s)
  {
  }

  // ----- Steps that leave tables and counters alone --------------------------

  lemma QuietStep(c: Settings, s: System, s': System)
    requires AccountsOk(c, s)
    requires s'.st == s.st && s'.h == s.h.(heard := s'.h.heard, dropped := s'.h.dropped)
    requires forall id :: CalledFor(s'.submitter, id) <==> CalledFor(s.submitter, id)
    requires RetriesFollowCalls(s')
    ensures AccountsOk(c, s')
  {
    forall id ensures CallsOk(c, s', id) { assert CallsOk(c, s, id); }
    forall id ensures BudgetOk(c, s', id) { assert BudgetOk(c, s, id); }
  }

  // ----- The submitter's call and its loss -----------------------------------

  lemma DispatchAccounts(c: Settings, s: System, kind: Kind)
    requires SettingsOk(c) && Inv(c, s) && AccountsOk(c, s) && Enabled(c, s, Dispatch(kind))
    ensures AccountsOk(c, Apply(c, s, Dispatch(kind)))
  {
    var s' := Apply(c, s, Dispatch(kind));
    assert WorkerInv(c, s, kind);
    var x := Get(s, kind).batch[0].id;
    assert Held(s, kind, Get(s, kind).batch[0]);
    if kind == Submit && Get(s', kind).phase.InFlight? {
      assert LocalInv(c, s.st, x);
      forall id ensures CallsOk(c, s', id) { assert CallsOk(c, s, id); }
      forall id ensures BudgetOk(c, s', id) { assert BudgetOk(c, s, id); }
    } else {
      QuietStep(c, s, s');
    }
  }

  /** Losing a pass turns its call into an interrupted one. */
  lemma LostPassAccounts(c: Settings, s: System, s': System)
    requires Inv(c, s) && AccountsOk(c, s)
    requires s'.st == s.st && s'.h == s.h.(interrupted := Interrupted(s.h, s.submitter), dropped := s'.h.dropped)
    requires s'.submitter.phase.Fetched?
    ensures AccountsOk(c, s')
  {
    assert WorkerInv(c, s, Submit);
    if Called(s.submitter) { assert Held(s, Submit, s.submitter.batch[0]); }
    forall id ensures CallsOk(c, s', id) { assert CallsOk(c, s, id); }
    forall id ensures BudgetOk(c, s', id) { assert BudgetOk(c, s, id); }
  }

  // ----- Framing -------------------------------------------------------------

  /** Nothing counted about `id` changed. */
  predicate SameCounts(h: History, h': History, id: InvoiceId) {
    && Count(h.submitCalls, id) == Count(h'.submitCalls, id)
    && Count(h.interrupted, id) == Count(h'.interrupted, id)
    && Count(h.handled, id) == Count(h'.handled, id)
    && Count(h.cancels, id) == Count(h'.cancels, id)
  }

  lemma AccountsFrame(c: Settings, s: System, s': System, id: InvoiceId)
    requires CallsOk(c, s, id) && BudgetOk(c, s, id)
    requires SameFor(s.st, s'.st, id) && SameCounts(s.h, s'.h, id)
    requires CalledFor(s'.submitter, id) <==> CalledFor(s.submitter, id)
    ensures CallsOk(c, s', id) && BudgetOk(c, s', id)
  {
  }

  lemma LedgerFrame(s: System, s': System)
    requires LedgerOk(s)
    requires s'.h.requests == s.h.requests && s'.h.completed == s.h.completed && s'.h.refused == s.h.refused
    requires s.st.nextId <= s'.st.nextId
    requires forall o: nat :: LiveCancel(s'.st, o) <==> LiveCancel(s.st, o)
    requires forall o: nat :: LiveCancel(s.st, o) ==>
               o in s'.st.outbox && s'.st.outbox[o].invoiceId == s.st.outbox[o].invoiceId
    requires forall id :: id in s.st.invoices ==>
               id in s'.st.invoices && s'.st.invoices[id].reason == s.st.invoices[id].reason
    ensures LedgerOk(s')
  {
  }

  /** The submitter works on rows that exist and are Pending. */
  lemma CalledIsPending(c: Settings, s: System, id: InvoiceId)
    requires Inv(c, s) && CalledFor(s.submitter, id)
    ensures id in s.st.invoices && s.st.invoices[id].status == Pending
  {
    assert WorkerInv(c, s, Submit);
    assert Held(s, Submit, s.submitter.batch[0]);
    assert LocalInv(c, s.st, id);
  }

  // ----- The API -------------------------------------------------------------

  lemma CreateAccounts(c: Settings, s: System, id: InvoiceId, payload: Json, t: int)
    requires Inv(c, s) && AccountsOk(c, s) && t > 0
    ensures AccountsOk(c, AfterCreate(s, id, payload, t))
  {
    var ref := Ubl.CodeNumber(payload);
    if ref.Some? && CreatePending(s.st, id, ref.value, payload, t).Success? {
      var s' := AfterCreate(s, id, payload, t);
      CreateKeeps(c, s.st, id, ref.value, payload, t);
      assert LocalInv(c, s.st, id) && LocalInv(c, s'.st, id);
      forall x ensures CallsOk(c, s', x) && BudgetOk(c, s', x) {
        assert CallsOk(c, s, x) && BudgetOk(c, s, x);
        if x != id {
          AccountsFrame(c, s, s', x);
        } else {
          if CalledFor(s.submitter, id) { CalledIsPending(c, s, id); }
          assert Owns(s'.st, s.st.nextId, id);
        }
      }
      assert s.st.nextId !in s.st.outbox;
      LedgerFrame(s, s');
    }
  }

  lemma CancelAccounts(c: Settings, s: System, ref: string, body: Json, t: int)
    requires Inv(c, s) && AccountsOk(c, s) && t > 0
    ensures AccountsOk(c, AfterRequestCancel(s, ref, body, t))
  {
    var reason := Ubl.RequiredText(body, "reason");
    if reason.Some? && RequestCancellation(s.st, ref, reason.value, t).Success? {
      var s' := AfterRequestCancel(s, ref, body, t);
      var id := FindByRef(s.st, ref).value;
      EnqueueCancelKeeps(c, s.st, id, reason.value, t);
      AcceptedCancelHasNoEvent(c, s.st, id, t);
      forall x ensures CallsOk(c, s', x) && BudgetOk(c, s', x) {
        assert CallsOk(c, s, x) && BudgetOk(c, s, x);
        if x != id {
          AccountsFrame(c, s, s', x);
        } else {
          CancelAccountsAt(c, s, s', id);
        }
      }
      CancelLedger(c, s, s', id, reason.value, t);
    }
  }

  lemma CancelAccountsAt(c: Settings, s: System, s': System, id: InvoiceId)
    requires id in s.st.invoices && CallsOk(c, s, id) && BudgetOk(c, s, id)
    requires s.st.invoices[id].status == Valid && (forall o: nat :: !Owns(s.st, o, id))
    requires exists reason, t :: s'.st == EnqueueCancel(s.st, id, reason, t)
    requires s'.submitter == s.submitter && s'.h.submitCalls == s.h.submitCalls
    requires s'.h.interrupted == s.h.interrupted && s'.h.handled == s.h.handled && s'.h.cancels == Bump(s.h.cancels, id)
    ensures CallsOk(c, s', id) && BudgetOk(c, s', id)
  {
    BudgetGrows(c, Count(s.h.cancels, id));
    forall o: nat | Owns(s'.st, o, id) ensures o == s.st.nextId {
      assert !Owns(s.st, o, id);
    }
  }

  lemma CancelLedger(c: Settings, s: System, s': System, id: InvoiceId, reason: string, t: int)
    requires Inv(c, s) && LedgerOk(s) && id in s.st.invoices && forall o: nat :: !Owns(s.st, o, id)
    requires s'.st == EnqueueCancel(s.st, id, reason, t)
    requires s'.h.requests == s.h.requests[s.st.nextId := Request(id, reason, t)]
    requires s'.h.completed == s.h.completed && s'.h.refused == s.h.refused
    ensures LedgerOk(s')
  {
    forall o: nat | LiveCancel(s'.st, o) && o != s.st.nextId
      ensures LiveCancel(s.st, o) && s.st.outbox[o] == s'.st.outbox[o] && s.st.outbox[o].invoiceId != id
    {
      assert !Owns(s.st, o, id);
    }
    assert s.st.nextId !in s.st.outbox;
    forall o: nat ensures LiveCancel(s'.st, o) <==> LiveCancel(s.st, o) || o == s.st.nextId { }
  }

  // ----- Commits -------------------------------------------------------------

  /** What a transaction makes of the event it settles or moves. */
  function EventAfter(ev: Event, txn: Txn, now: int): Option<Event> {
    match txn
    case CompleteSubmission(_, _, _, _, _, _, _) => Some(Event(ev.invoiceId, Poll, now, 0, None))
    case Reschedule(_, _, attempts, nextAt, _, note) =>
      Some(ev.(availableAt := nextAt, attempts := attempts, lastError := Some(note)))
    case ReschedulePoll(_, attempts, nextAt, note) =>
      Some(ev.(availableAt := nextAt, attempts := attempts, lastError := note))
    case RescheduleCancel(_, attempts, nextAt, note) =>
      Some(ev.(availableAt := nextAt, attempts := attempts, lastError := Some(note)))
    case _ => None
  }

  /** After the commit the invoice's events are exactly what it makes of the old one. */
  lemma OwnedAfter(c: Settings, st: Store, kind: Kind, due: Due, txn: Txn, at: int, now: int, p: nat)
    requires CommitPre(c, st, kind, due, txn, at) && Owns(Exec(st, txn, now), p, due.id)
    ensures EventAfter(st.outbox[due.o], txn, now) == Some(Exec(st, txn, now).outbox[p])
  {
    assert LocalInv(c, st, due.id);
    if p in st.outbox && st.outbox[p].invoiceId == due.id {
      assert Owns(st, p, due.id);
    }
  }

  /** Every handling of an event of a row that is not stuck uses up weight. */
  lemma WeightDrops(c: Settings, due: Due, row: Invoice, ev: Event, txn: Txn, at: int, now: int)
    requires RowOk(c, row) && EventOk(c, row, ev) && TxnFits(c, due, row, ev, txn, at) && !Stuck(row)
    ensures Weight(c, ev) >= 1
    ensures EventAfter(ev, txn, now).Some? ==> Weight(c, EventAfter(ev, txn, now).value) < Weight(c, ev)
  {
  }

  lemma CommitBudget(c: Settings, s: System, kind: Kind, t: int)
    requires Inv(c, s) && Enabled(c, s, Commit(kind, t)) && BudgetOk(c, s, Get(s, kind).batch[0].id)
    ensures BudgetOk(c, Apply(c, s, Commit(kind, t)), Get(s, kind).batch[0].id)
  {
    var s' := Apply(c, s, Commit(kind, t));
    var w := Get(s, kind);
    var due := w.batch[0];
    assert WorkerInv(c, s, kind);
    CommittedRow(c, s, kind, t);
    var row, ev := s.st.invoices[due.id], s.st.outbox[due.o];
    if !Stuck(s'.st.invoices[due.id]) {
      TxnFollowsLifecycle(c, due, row, ev, w.phase.txn, w.phase.at, t);
      WeightDrops(c, due, row, ev, w.phase.txn, w.phase.at, t);
      forall p: nat | Owns(s'.st, p, due.id)
        ensures EventAfter(ev, w.phase.txn, t) == Some(s'.st.outbox[p])
      {
        OwnedAfter(c, s.st, kind, due, w.phase.txn, w.phase.at, t, p);
      }
    }
  }

  lemma CommitCalls(c: Settings, s: System, kind: Kind, t: int)
    requires Inv(c, s) && Enabled(c, s, Commit(kind, t)) && RetriesFollowCalls(s)
    requires CallsOk(c, s, Get(s, kind).batch[0].id)
    ensures CallsOk(c, Apply(c, s, Commit(kind, t)), Get(s, kind).batch[0].id)
  {
    var s' := Apply(c, s, Commit(kind, t));
    var w := Get(s, kind);
    CommittedRow(c, s, kind, t);
    if kind == Submit {
      assert w == s.submitter && Get(s', kind) == s'.submitter;
    } else {
      assert WorkerInv(c, s, kind) && Held(s, kind, w.batch[0]);
      assert s'.st.invoices[w.batch[0].id].status != Pending;
    }
  }

  /** Only the two settling cancel transactions end a live cancel event. */
  lemma ExecLiveCancels(c: Settings, st: Store, due: Due, row: Invoice, txn: Txn, at: int, now: int)
    requires due.o in st.outbox && TxnFits(c, due, row, st.outbox[due.o], txn, at)
    requires st.nextId !in st.outbox
    ensures st.nextId <= Exec(st, txn, now).nextId
    ensures forall o: nat :: LiveCancel(Exec(st, txn, now), o)
              <==> LiveCancel(st, o) && !(o == due.o && (txn.CompleteCancel? || txn.FailCancel?))
    ensures forall o: nat :: LiveCancel(Exec(st, txn, now), o) ==>
              Exec(st, txn, now).outbox[o].invoiceId == st.outbox[o].invoiceId
  {
  }

  /** One live cancel event settled, one way or the other. */
  lemma SettledLedger(s: System, s': System, o: nat, done: bool)
    requires LedgerOk(s) && LiveCancel(s.st, o)
    requires s'.h.requests == s.h.requests
    requires s'.h.completed == (if done then s.h.completed + {o} else s.h.completed)
    requires s'.h.refused == (if done then s.h.refused else s.h.refused + {o})
    requires s.st.nextId <= s'.st.nextId
    requires forall p: nat :: LiveCancel(s'.st, p) <==> LiveCancel(s.st, p) && p != o
    requires forall p: nat :: LiveCancel(s'.st, p) ==> s'.st.outbox[p].invoiceId == s.st.outbox[p].invoiceId
    requires forall id :: id in s.st.invoices ==>
               id in s'.st.invoices && s'.st.invoices[id].reason == s.st.invoices[id].reason
    ensures LedgerOk(s')
  {
  }

  lemma CommitLedger(c: Settings, s: System, kind: Kind, t: int)
    requires Inv(c, s) && Enabled(c, s, Commit(kind, t)) && LedgerOk(s)
    ensures LedgerOk(Apply(c, s, Commit(kind, t)))
  {
    var s' := Apply(c, s, Commit(kind, t));
    var w := Get(s, kind);
    CommittedRow(c, s, kind, t);
    assert s.st.nextId !in s.st.outbox;
    ExecLiveCancels(c, s.st, w.batch[0], s.st.invoices[w.batch[0].id], w.phase.txn, w.phase.at, t);
    if w.phase.txn.CompleteCancel? || w.phase.txn.FailCancel? {
      SettledLedger(s, s', w.batch[0].o, w.phase.txn.CompleteCancel?);
    } else {
      LedgerFrame(s, s');
    }
  }

  /** A commit leaves the counters of every other invoice alone. */
  lemma CommitSameCounts(c: Settings, s: System, kind: Kind, t: int, id: InvoiceId)
    requires Inv(c, s) && Enabled(c, s, Commit(kind, t)) && id != Get(s, kind).batch[0].id
    ensures var s' := Apply(c, s, Commit(kind, t));
            SameCounts(s.h, s'.h, id) && (CalledFor(s'.submitter, id) <==> CalledFor(s.submitter, id))
  {
  }

  lemma CommitRetries(c: Settings, s: System, kind: Kind, t: int)
    requires RetriesFollowCalls(s) && Enabled(c, s, Commit(kind, t))
    ensures RetriesFollowCalls(Apply(c, s, Commit(kind, t)))
  {
  }

  lemma CommitAccounts(c: Settings, s: System, kind: Kind, t: int)
    requires Inv(c, s) && AccountsOk(c, s) && Enabled(c, s, Commit(kind, t))
    ensures AccountsOk(c, Apply(c, s, Commit(kind, t)))
  {
    var s' := Apply(c, s, Commit(kind, t));
    var x := Get(s, kind).batch[0].id;
    CommitStepKeeps(c, s, kind, t);
    forall id ensures CallsOk(c, s', id) && BudgetOk(c, s', id) {
      assert CallsOk(c, s, id) && BudgetOk(c, s, id);
      if id == x {
        CommitCalls(c, s, kind, t);
        CommitBudget(c, s, kind, t);
      } else {
        CommitSameCounts(c, s, kind, t, id);
        AccountsFrame(c, s, s', id);
      }
    }
    CommitLedger(c, s, kind, t);
    CommitRetries(c, s, kind, t);
  }

  // ----- All steps -----------------------------------------------------------

  lemma AnswerAccounts(c: Settings, s: System, kind: Kind, reply: Reply)
    requires AccountsOk(c, s) && Enabled(c, s, Answer(kind, reply))
    ensures AccountsOk(c, Apply(c, s, Answer(kind, reply)))
  {
    QuietStep(c, s, Apply(c, s, Answer(kind, reply)));
  }

  lemma StepKeepsAccounts(c: Settings, s: System, step: Step)
    requires SettingsOk(c) && Inv(c, s) && AccountsOk(c, s) && Enabled(c, s, step)
    ensures AccountsOk(c, Apply(c, s, step))
  {
    match step
    case Create(id, payload, t) => CreateAccounts(c, s, id, payload, t);
    case RequestCancel(ref, body, t) => CancelAccounts(c, s, ref, body, t);
    case Dispatch(kind) => DispatchAccounts(c, s, kind);
    case Answer(kind, reply) => AnswerAccounts(c, s, kind, reply);
    case Commit(kind, t) => CommitAccounts(c, s, kind, t);
    case Abandon(kind) =>
      if kind == Submit { LostPassAccounts(c, s, Apply(c, s, step)); } else { QuietStep(c, s, Apply(c, s, step)); }
    case Crash => LostPassAccounts(c, s, Apply(c, s, step));
    case Fetch(_, _, _) => QuietStep(c, s, Apply(c, s, step));
    case Load(_) => QuietStep(c, s, Apply(c, s, step));
    case Reread(_) => QuietStep(c, s, Apply(c, s, step));
    case Advance(_) => QuietStep(c, s, Apply(c, s, step));
  }

  lemma {:induction false} RunKeepsAccounts(c: Settings, run: seq<System>, i: nat)
    requires SettingsOk(c) && IsRun(c, run) && i < |run|
    ensures AccountsOk(c, run[i])
  {
    if i == 0 {
      InitAccounts(c, run[0]);
    } else {
      RunKeepsAccounts(c, run, i - 1);
      RunKeepsInv(c, run, i - 1);
      assert StepAt(c, run, i - 1);
      var step :| Enabled(c, run[i - 1], step) && run[i] == Apply(c, run[i - 1], step);
      StepKeepsAccounts(c, run[i - 1], step);
    }
  }
}
