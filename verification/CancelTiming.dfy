/** Cancel retries wait out their backoffs, counted from the accepted request. */
module CancelTiming {
  import opened Outbox
  import opened Backoff
  import opened Decisions
  import opened Invariant
  import opened Protocol
  import opened ProtocolInvariant
  import opened Lifecycle
  import opened Accounting
  import opened Drain

  ghost predicate TimelyAt(s: System, o: nat) {
    o in s.h.requests && LiveCancel(s.st, o) ==>
      s.st.outbox[o].availableAt >= s.h.requests[o].at + SubmitWait(s.st.outbox[o].attempts)
  }

  ghost predicate CancelsTimely(s: System) {
    forall o: nat :: TimelyAt(s, o)
  }

  lemma RetryTimely(c: Settings, due: Due, row: Invoice, ev: Event, txn: Txn, at: int, start: int)
    requires EventOk(c, row, ev) && TxnFits(c, due, row, ev, txn, at) && txn.RescheduleCancel?
    requires ev.availableAt >= start + SubmitWait(ev.attempts)
    ensures txn.nextAt >= start + SubmitWait(txn.attempts)
  {
  }

  lemma CommitTimely(c: Settings, s: System, kind: Kind, t: int)
    requires Inv(c, s) && CancelsTimely(s) && Enabled(c, s, Commit(kind, t))
    ensures CancelsTimely(Apply(c, s, Commit(kind, t)))
  {
    var w, s' := Get(s, kind), Apply(c, s, Commit(kind, t));
    var due := w.batch[0];
    CommittedRow(c, s, kind, t);
    CommitRecords(c, s, kind, t);
    ExecElsewhere(s.st, w.phase.txn, t);
    forall o: nat ensures TimelyAt(s', o) {
      assert TimelyAt(s, o);
      if o == due.o && w.phase.txn.RescheduleCancel? && o in s.h.requests {
        RetryTimely(c, due, s.st.invoices[due.id], s.st.outbox[o], w.phase.txn, w.phase.at, s.h.requests[o].at);
      }
    }
  }

  lemma ApiTimely(c: Settings, s: System, step: Step)
    requires Inv(c, s) && CancelsTimely(s) && Enabled(c, s, step) && (step.Create? || step.RequestCancel?)
    ensures CancelsTimely(Apply(c, s, step))
  {
    forall o: nat ensures TimelyAt(Apply(c, s, step), o) { assert TimelyAt(s, o); }
  }

  lemma StepKeepsCancelsTimely(c: Settings, s: System, step: Step)
    requires Inv(c, s) && CancelsTimely(s) && Enabled(c, s, step)
    ensures CancelsTimely(Apply(c, s, step))
  {
    match step
    case Commit(kind, t) => CommitTimely(c, s, kind, t);
    case Create(_, _, _) => ApiTimely(c, s, step);
    case RequestCancel(_, _, _) => ApiTimely(c, s, step);
    case _ =>
      OtherStepsKeepStore(c, s, step);
      OtherStepsKeepRequests(c, s, step);
      forall o: nat ensures TimelyAt(Apply(c, s, step), o) { assert TimelyAt(s, o); }
  }

  lemma {:induction false} RunKeepsCancelsTimely(c: Settings, run: seq<System>, i: nat)
    requires SettingsOk(c) && IsRun(c, run) && i < |run|
    ensures CancelsTimely(run[i])
  {
    if i > 0 {
      RunKeepsCancelsTimely(c, run, i - 1);
      RunKeepsInv(c, run, i - 1);
      assert StepAt(c, run, i - 1);
      var step :| Enabled(c, run[i - 1], step) && run[i] == Apply(c, run[i - 1], step);
      StepKeepsCancelsTimely(c, run[i - 1], step);
    }
  }
}
