/**
 Answers can be lost: concrete runs, for every configuration, in which LHDN takes
 a document whose invoice ends Failed, and agrees to a cancellation whose invoice
 stays Valid. Both need one crash, between an answer and its commit.
 */
module Mishaps {
  import opened Wrappers
  import opened Json
  import opened Lhdn
  import opened Outbox
  import opened Decisions
  import opened Invariant
  import opened Protocol
  import opened Fates
  import Ubl

  function Last(run: seq<System>): System
    requires run != []
  {
    run[|run| - 1]
  }

  lemma Continue(c: Settings, run: seq<System>, step: Step) returns (longer: seq<System>)
    requires IsRun(c, run) && Enabled(c, Last(run), step)
    ensures IsRun(c, longer) && Last(longer) == Apply(c, Last(run), step)
  {
    longer := run + [Apply(c, Last(run), step)];
    forall i | 0 <= i < |longer| - 1 ensures StepAt(c, longer, i) {
      if i < |run| - 1 { assert StepAt(c, run, i); }
    }
  }

  /** The only due event of its kind. */
  ghost predicate OnlyDue(c: Settings, s: System, kind: Kind, due: Due) {
    && s.now > 0 && c.BatchSize(kind) != 0 && Get(s, kind) == IDLE
    && DueSet(s.st, kind, s.now) == {due.o} && Listed(s.st, kind, s.now, due) && due.id in s.st.invoices
  }

  /** Fetch, load, and call LHDN. */
  lemma Ask(c: Settings, run: seq<System>, kind: Kind, due: Due) returns (longer: seq<System>)
    requires IsRun(c, run) && OnlyDue(c, Last(run), kind, due)
    requires PlanFor(c, kind, due, Some(Last(run).st.invoices[due.id]), Last(run).now).CallLhdn?
    ensures IsRun(c, longer)
    ensures var s, s' := Last(run), Last(longer);
            && s' == Put(s, kind, WorkerState([due], InFlight(s.st.invoices[due.id], s.now))).(h := s'.h)
            && s'.h == s.h.(submitCalls := s'.h.submitCalls)
  {
    var s := Last(run);
    assert |{due.o}| == 1;
    assert forall o :: IsDue(s.st, kind, s.now, o) ==> o in DueSet(s.st, kind, s.now);
    assert IsBatch(s.st, kind, s.now, c.BatchSize(kind), [due]);
    longer := Continue(c, run, Fetch(kind, [due], s.now));
    longer := Continue(c, longer, Load(kind));
    DispatchRecords(c, Last(longer), kind);
    longer := Continue(c, longer, Dispatch(kind));
  }

  /** An answer, and its commit. */
  lemma Decide(c: Settings, run: seq<System>, kind: Kind, reply: Reply) returns (longer: seq<System>)
    requires IsRun(c, run) && Enabled(c, Last(run), Answer(kind, reply)) && |Get(Last(run), kind).batch| == 1
    requires var w := Get(Last(run), kind);
             Lookup(Last(run).st, w.batch[0].id) == Some(w.phase.row)
    ensures IsRun(c, longer)
    ensures var s, s', w := Last(run), Last(longer), Get(Last(run), kind);
            var txn := VerdictTxn(c, kind, w.batch[0], w.phase.row, w.phase.builtAt, reply, s.now);
            && s' == Put(s, kind, IDLE).(st := Exec(s.st, txn, s.now), h := s'.h)
            && s'.h.heard == Hear(s.h, w.batch[0].id, reply).heard
  {
    var s := Last(run);
    AnswerRecords(c, s, kind, reply);
    AnswerCarries(c, s, kind, reply);
    longer := Continue(c, run, Answer(kind, reply));
    if Get(Last(longer), kind).phase.Rejected? {
      longer := Continue(c, longer, Reread(kind));
    }
    CommitRecords(c, Last(longer), kind, s.now);
    longer := Continue(c, longer, Commit(kind, s.now));
  }

  /** An answer, and a crash before its commit. */
  lemma Forget(c: Settings, run: seq<System>, kind: Kind, reply: Reply) returns (longer: seq<System>)
    requires IsRun(c, run) && Enabled(c, Last(run), Answer(kind, reply))
    ensures IsRun(c, longer)
    ensures var s, s' := Last(run), Last(longer);
            && s' == System(s.st, IDLE, IDLE, IDLE, s.now, s'.h)
            && s'.h.heard == Hear(s.h, Get(s, kind).batch[0].id, reply).heard
  {
    var s := Last(run);
    AnswerRecords(c, s, kind, reply);
    AnswerCarries(c, s, kind, reply);
    longer := Continue(c, run, Answer(kind, reply));
    LossRecords(c, Last(longer), Crash);
    longer := Continue(c, longer, Crash);
  }

  // ----- Up to a first call --------------------------------------------------

  /** One invoice, just accepted, its submission in flight. */
  lemma Submitting(c: Settings, id: InvoiceId, payload: Json) returns (run: seq<System>)
    requires SettingsOk(c) && c.submitBatch != 0 && c.build(payload, 1).Success?
    ensures IsRun(c, run)
    ensures var s := Last(run);
            Ubl.CodeNumber(payload).Some? && s.now == 1
            && var row := FreshInvoice(Ubl.CodeNumber(payload).value, payload, 1);
               && s.st == Store(map[id := row], map[1 := Event(id, Submit, 1, 0, None)], 2)
               && s.submitter == WorkerState([Due(1, id, 0)], InFlight(row, 1))
               && s.poller == IDLE && s.canceller == IDLE
  {
    assert match c.build(payload, 1)
           case Success(d) => Ubl.CodeNumber(payload) == Some(d.codeNumber)
           case Failure(_) => true;
    var h := History(map[], map[], map[], map[], map[], {}, {}, map[], map[], map[]);
    run := [System(EMPTY_STORE, IDLE, IDLE, IDLE, 1, h)];
    run := Continue(c, run, Create(id, payload, 1));
    assert DueSet(Last(run).st, Submit, 1) == {1};
    run := Ask(c, run, Submit, Due(1, id, 0));
  }

  // ----- Taken, yet Failed ---------------------------------------------------

  /** LHDN takes the document, the process crashes before the commit, and the
      document is submitted again. */
  lemma Resubmitting(c: Settings, id: InvoiceId, payload: Json) returns (run: seq<System>)
    requires SettingsOk(c) && c.submitBatch != 0 && c.build(payload, 1).Success?
    ensures IsRun(c, run) && Ubl.CodeNumber(payload).Some?
    ensures var s, ref := Last(run), Ubl.CodeNumber(payload).value;
            && s.now == 1 && s.st.invoices == map[id := FreshInvoice(ref, payload, 1)]
            && s.submitter == WorkerState([Due(1, id, 0)], InFlight(FreshInvoice(ref, payload, 1), 1))
            && Told(Heard(s.h, id), ref, Taken)
  {
    run := Submitting(c, id, payload);
    var taken := Submission("first", [AcceptedDocument("uuid", Ubl.CodeNumber(payload).value)], []);
    run := Forget(c, run, Submit, taken);
    assert taken in Heard(Last(run).h, id) && Says(taken, Ubl.CodeNumber(payload).value, Taken);
    assert DueSet(Last(run).st, Submit, 1) == {1};
    run := Ask(c, run, Submit, Due(1, id, 0));
  }

  /** Then LHDN turns the duplicate down. */
  lemma TakenYetFailed(c: Settings, id: InvoiceId, payload: Json) returns (run: seq<System>)
    requires SettingsOk(c) && c.submitBatch != 0 && c.build(payload, 1).Success?
    ensures IsRun(c, run) && id in Last(run).st.invoices
    ensures var s := Last(run);
            s.st.invoices[id].status == Failed && Told(Heard(s.h, id), s.st.invoices[id].ref, Taken)
  {
    run := Resubmitting(c, id, payload);
    var ref := Ubl.CodeNumber(payload).value;
    var taken :| taken in Heard(Last(run).h, id) && Says(taken, ref, Taken);
    var rejected := [RejectedDocument(ref, "Duplicate", "already submitted", [])];
    assert rejected[0] in rejected;
    VerdictWritesWhatIsSaid(c, Submit, Due(1, id, 0), FreshInvoice(ref, payload, 1), 1,
                            Submission("second", [], rejected), 1, TurnedDown);
    run := Decide(c, run, Submit, Submission("second", [], rejected));
    assert taken in Heard(Last(run).h, id);
  }

  // ----- Agreed to be cancelled, yet Valid -----------------------------------

  const PORTAL_DETAILS := DocumentDetails("uuid", None, NowValid, Some(1), None, None)

  /** An invoice taken at once. */
  lemma AcceptedAtOnce(c: Settings, id: InvoiceId, payload: Json) returns (run: seq<System>)
    requires SettingsOk(c) && c.submitBatch != 0 && c.build(payload, 1).Success?
    ensures IsRun(c, run) && Ubl.CodeNumber(payload).Some?
    ensures var s := Last(run);
            && s.now == 1 && s.submitter == s.poller == s.canceller == IDLE
            && s.st.invoices.Keys == {id} && s.st.outbox == map[2 := Event(id, Poll, 1, 0, None)] && s.st.nextId == 3
            && var row := s.st.invoices[id];
               row.ref == Ubl.CodeNumber(payload).value && row.uuid == Some("uuid")
  {
    run := Submitting(c, id, payload);
    var ref := Ubl.CodeNumber(payload).value;
    var taken := Submission("first", [AcceptedDocument("uuid", ref)], []);
    assert FirstAccepted(taken.accepted, ref).Some? by { assert taken.accepted[0] in taken.accepted; }
    assert Says(taken, ref, Taken);
    VerdictWritesWhatIsSaid(c, Submit, Due(1, id, 0), FreshInvoice(ref, payload, 1), 1, taken, 1, Taken);
    run := Decide(c, run, Submit, taken);
  }

  /** And validated at once. */
  lemma Validated(c: Settings, id: InvoiceId, payload: Json) returns (run: seq<System>)
    requires SettingsOk(c) && c.submitBatch != 0 && c.pollBatch != 0 && c.build(payload, 1).Success?
    ensures IsRun(c, run) && Ubl.CodeNumber(payload).Some?
    ensures var s := Last(run);
            && s.now == 1 && s.submitter == s.poller == s.canceller == IDLE
            && s.st.invoices.Keys == {id} && s.st.outbox == map[] && s.st.nextId == 3
            && var row := s.st.invoices[id];
               && row.ref == Ubl.CodeNumber(payload).value && row.status == Valid
               && row.uuid == Some("uuid") && row.cancellableUntil == Some(259201)
  {
    run := AcceptedAtOnce(c, id, payload);
    assert DueSet(Last(run).st, Poll, 1) == {2};
    run := Ask(c, run, Poll, Due(2, id, 0));
    run := Decide(c, run, Poll, Details(PORTAL_DETAILS));
  }

  /** Its cancellation requested and in flight. */
  lemma Cancelling(c: Settings, id: InvoiceId, payload: Json) returns (run: seq<System>)
    requires SettingsOk(c) && c.submitBatch != 0 && c.pollBatch != 0 && c.cancelBatch != 0
    requires c.build(payload, 1).Success?
    ensures IsRun(c, run)
    ensures var s := Last(run);
            && s.now == 1 && s.submitter == s.poller == IDLE
            && s.st.invoices.Keys == {id} && s.st.outbox == map[3 := Event(id, Cancel, 1, 0, None)]
            && var row := s.st.invoices[id];
               && row.status == Valid && CheckPreconditions(row, 1) == None
               && s.canceller == WorkerState([Due(3, id, 0)], InFlight(row, 1))
  {
    run := Validated(c, id, payload);
    var s := Last(run);
    var ref := s.st.invoices[id].ref;
    var body := Obj(map["reason" := Str("wrong")]);
    assert Ubl.RequiredText(body, "reason") == Some("wrong");
    assert id in s.st.invoices && FindByRef(s.st, ref) == Some(id);
    run := Continue(c, run, RequestCancel(ref, body, 1));
    assert DueSet(Last(run).st, Cancel, 1) == {3};
    run := Ask(c, run, Cancel, Due(3, id, 0));
  }

  /** LHDN agrees, the process crashes before the commit, and the request is
      sent again. */
  lemma CancellingAgain(c: Settings, id: InvoiceId, payload: Json) returns (run: seq<System>)
    requires SettingsOk(c) && c.submitBatch != 0 && c.pollBatch != 0 && c.cancelBatch != 0
    requires c.build(payload, 1).Success?
    ensures IsRun(c, run)
    ensures var s := Last(run);
            && s.st.invoices.Keys == {id} && s.st.outbox == map[3 := Event(id, Cancel, 1, 0, None)]
            && s.st.invoices[id].status == Valid && CancelOk in Heard(s.h, id)
            && s.canceller == WorkerState([Due(3, id, 0)], InFlight(s.st.invoices[id], 1))
  {
    run := Cancelling(c, id, payload);
    run := Forget(c, run, Cancel, CancelOk);
    assert CancelOk in Heard(Last(run).h, id);
    assert DueSet(Last(run).st, Cancel, 1) == {3};
    run := Ask(c, run, Cancel, Due(3, id, 0));
  }

  /** Then LHDN finds the document cancelled already. */
  lemma AgreedYetValid(c: Settings, id: InvoiceId, payload: Json) returns (run: seq<System>)
    requires SettingsOk(c) && c.submitBatch != 0 && c.pollBatch != 0 && c.cancelBatch != 0
    requires c.build(payload, 1).Success?
    ensures IsRun(c, run) && id in Last(run).st.invoices
    ensures var s := Last(run);
            s.st.invoices[id].status == Valid && s.st.outbox == map[] && CancelOk in Heard(s.h, id)
  {
    run := CancellingAgain(c, id, payload);
    run := Decide(c, run, Cancel, Refused(Conflict("Conflict", "already cancelled")));
    assert CancelOk in Heard(Last(run).h, id);
  }
}
