/**
 The exception to progress. When LHDN answers a submission with 2xx but lists the
 document in neither list, or lists it with an empty uuid, the row becomes
 Submitted with uuid "". Its poll event can then never be settled: the poller
 parks it at `available_at = 0`, due for ever, and hands it to itself again on
 every tick.
 */
module StuckPolls {
  import opened Lhdn
  import opened Outbox
  import opened Decisions
  import opened Invariant
  import opened Protocol
  import opened ProtocolInvariant
  import opened Lifecycle

  /** A submission reply that takes the document and gives no uuid to poll. */
  predicate GivesNoUuid(reply: Reply, code: string) {
    && reply.Submission?
    && (forall r :: r in reply.rejected ==> r.codeNumber != code)
    && ((forall a :: a in reply.accepted ==> a.codeNumber != code)
        || FirstAccepted(reply.accepted, code).value.uuid == "")
  }

  /** Exactly the replies that make a row stuck. */
  lemma BecomesStuckIff(c: Settings, due: Due, row: Invoice, builtAt: int, reply: Reply, now: int)
    requires Answers(Submit, reply) && c.build(row.payload, builtAt).Success?
    ensures var verdict := VerdictFor(c, Submit, due, row, builtAt, reply, now);
            (verdict.Settled? && verdict.txn.CompleteSubmission? && Stuck(RowAfter(row, verdict.txn, now)))
            <==> GivesNoUuid(reply, c.build(row.payload, builtAt).value.codeNumber)
  {
  }

  /** A live poll event of a stuck row. */
  ghost predicate StuckEvent(st: Store, o: nat) {
    && o in st.outbox && st.outbox[o].kind == Poll
    && st.outbox[o].invoiceId in st.invoices && Stuck(st.invoices[st.outbox[o].invoiceId])
  }

  ghost predicate ParkedEvent(c: Settings, st: Store, o: nat) {
    StuckEvent(st, o) && Parked(c, st.outbox[o])
  }

  /** One undisturbed, faultless pass parks the event. */
  lemma HandlingParks(c: Settings, st: Store, due: Due, w: World)
    requires SettingsOk(c) && StoreInv(c, st) && Holds(st, Poll, due) && StuckEvent(st, due.o)
    requires Answers(Poll, w.reply) && w.loadOk && w.commitOk
    ensures ParkedEvent(c, Handle(c, Poll, st, due, w), due.o)
    ensures Handle(c, Poll, st, due, w).invoices == st.invoices
  {
  }

  /** Once parked, handling it changes nothing at all, whatever the world does. */
  lemma ParkedIsFixpoint(c: Settings, st: Store, due: Due, w: World)
    requires Holds(st, Poll, due) && ParkedEvent(c, st, due.o) && Answers(Poll, w.reply)
    ensures Handle(c, Poll, st, due, w) == st
  {
    var ev := st.outbox[due.o];
    assert st.outbox[due.o := ev] == st.outbox;
  }

  // ----- In every continuation -----------------------------------------------

  lemma CommitKeepsStuck(c: Settings, s: System, kind: Kind, t: int, o: nat)
    requires Inv(c, s) && Enabled(c, s, Commit(kind, t)) && StuckEvent(s.st, o)
    ensures StuckEvent(Apply(c, s, Commit(kind, t)).st, o)
    ensures Apply(c, s, Commit(kind, t)).st.outbox[o].invoiceId == s.st.outbox[o].invoiceId
    ensures Apply(c, s, Commit(kind, t)).st.outbox[o].availableAt <= s.st.outbox[o].availableAt
    ensures ParkedEvent(c, s.st, o) ==> Apply(c, s, Commit(kind, t)).st.outbox[o] == s.st.outbox[o]
  {
    var w := Get(s, kind);
    var x := s.st.outbox[o].invoiceId;
    CommittedRow(c, s, kind, t);
    CommitStepKeeps(c, s, kind, t);
    assert Owns(s.st, o, x) && LocalInv(c, s.st, x);
    if x != w.batch[0].id {
      assert SameFor(s.st, Apply(c, s, Commit(kind, t)).st, x);
    }
  }

  lemma ApiKeepsStuck(c: Settings, s: System, step: Step, o: nat)
    requires Inv(c, s) && (step.Create? || step.RequestCancel?) && Enabled(c, s, step) && StuckEvent(s.st, o)
    ensures StuckEvent(Apply(c, s, step).st, o) && Apply(c, s, step).st.outbox[o] == s.st.outbox[o]
  {
    assert s.st.nextId !in s.st.outbox;
    if step.RequestCancel? {
      assert Owns(s.st, o, s.st.outbox[o].invoiceId) && LocalInv(c, s.st, s.st.outbox[o].invoiceId);
    }
  }

  lemma StepKeepsStuck(c: Settings, s: System, step: Step, o: nat)
    requires SettingsOk(c) && Inv(c, s) && Enabled(c, s, step) && StuckEvent(s.st, o)
    ensures StuckEvent(Apply(c, s, step).st, o)
    ensures Apply(c, s, step).st.outbox[o].invoiceId == s.st.outbox[o].invoiceId
    ensures Apply(c, s, step).st.outbox[o].availableAt <= s.st.outbox[o].availableAt
    ensures ParkedEvent(c, s.st, o) ==> Apply(c, s, step).st.outbox[o] == s.st.outbox[o]
  {
    match step
    case Commit(kind, t) => CommitKeepsStuck(c, s, kind, t, o);
    case Create(_, _, _) => ApiKeepsStuck(c, s, step, o);
    case RequestCancel(_, _, _) => ApiKeepsStuck(c, s, step, o);
    case _ => OtherStepsKeepStore(c, s, step);
  }

  lemma StuckStep(c: Settings, run: seq<System>, j: nat, o: nat)
    requires SettingsOk(c) && IsRun(c, run) && 0 < j < |run| && StuckEvent(run[j - 1].st, o)
    ensures StuckEvent(run[j].st, o) && run[j].st.outbox[o].invoiceId == run[j - 1].st.outbox[o].invoiceId
    ensures run[j].st.outbox[o].availableAt <= run[j - 1].st.outbox[o].availableAt && run[j - 1].now <= run[j].now
    ensures ParkedEvent(c, run[j - 1].st, o) ==> run[j].st.outbox[o] == run[j - 1].st.outbox[o]
  {
    RunKeepsInv(c, run, j - 1);
    assert StepAt(c, run, j - 1);
    var step :| Enabled(c, run[j - 1], step) && run[j] == Apply(c, run[j - 1], step);
    StepKeepsStuck(c, run[j - 1], step, o);
    ClockAdvances(c, run[j - 1], step);
  }

  lemma ClockAdvances(c: Settings, s: System, step: Step)
    requires Enabled(c, s, step)
    ensures s.now <= Apply(c, s, step).now
  {
  }

  /** In every continuation of every run a stuck event stays stuck, its row stays
      Submitted, and once parked the event never changes again. */
  lemma {:induction false} StuckForEver(c: Settings, run: seq<System>, i: nat, j: nat, o: nat)
    requires SettingsOk(c) && IsRun(c, run) && i <= j < |run| && StuckEvent(run[i].st, o)
    ensures StuckEvent(run[j].st, o) && run[j].st.outbox[o].invoiceId == run[i].st.outbox[o].invoiceId
    ensures run[j].st.invoices[run[j].st.outbox[o].invoiceId].status == Submitted
    ensures ParkedEvent(c, run[i].st, o) ==> run[j].st.outbox[o] == run[i].st.outbox[o]
    decreases j
  {
    RunKeepsInv(c, run, j);
    if i < j {
      StuckForEver(c, run, i, j - 1, o);
      StuckStep(c, run, j, o);
    }
    assert Owns(run[j].st, o, run[j].st.outbox[o].invoiceId) && LocalInv(c, run[j].st, run[j].st.outbox[o].invoiceId);
  }

  // ----- What they do to the others ------------------------------------------

  ghost function ParkedSet(c: Settings, st: Store): set<nat> {
    set o | o in st.outbox && ParkedEvent(c, st, o)
  }

  ghost function ParkedIn(c: Settings, st: Store, batch: seq<Due>): set<nat> {
    set i | 0 <= i < |batch| && ParkedEvent(c, st, batch[i].o) :: batch[i].o
  }

  ghost function OutboxIds(batch: seq<Due>): set<nat> {
    set i | 0 <= i < |batch| :: batch[i].o
  }

  lemma {:induction false} DistinctIds(batch: seq<Due>)
    requires forall i, j :: 0 <= i < j < |batch| ==> batch[i].o != batch[j].o
    ensures |OutboxIds(batch)| == |batch|
  {
    if batch != [] {
      var last := |batch| - 1;
      DistinctIds(batch[..last]);
      assert OutboxIds(batch) == OutboxIds(batch[..last]) + {batch[last].o};
    }
  }

  /** Every poll event that is not parked is due only after time 0. */
  lemma OthersAreLater(c: Settings, st: Store, o: nat)
    requires StoreInv(c, st) && o in st.outbox && st.outbox[o].kind == Poll && !ParkedEvent(c, st, o)
    ensures st.outbox[o].availableAt > 0
  {
    assert Owns(st, o, st.outbox[o].invoiceId) && LocalInv(c, st, st.outbox[o].invoiceId);
  }

  lemma {:induction false} SubsetSize(small: set<nat>, large: set<nat>)
    requires small <= large
    ensures |small| <= |large|
  {
    if small != {} {
      var x :| x in small;
      SubsetSize(small - {x}, large - {x});
    }
  }

  /** A batch that reaches past the parked events contains all of them. */
  lemma ParkedComeFirst(c: Settings, st: Store, now: int, limit: int, batch: seq<Due>, i: nat, o: nat)
    requires StoreInv(c, st) && now >= 0 && IsBatch(st, Poll, now, limit, batch)
    requires i < |batch| && !ParkedEvent(c, st, batch[i].o) && ParkedEvent(c, st, o)
    ensures o in ParkedIn(c, st, batch)
  {
    assert Listed(st, Poll, now, batch[i]);
    OthersAreLater(c, st, batch[i].o);
    assert IsDue(st, Poll, now, o);
  }

  lemma ParkedAreDue(c: Settings, st: Store, now: int, batch: seq<Due>)
    requires now >= 0
    ensures ParkedSet(c, st) <= DueSet(st, Poll, now)
    ensures ParkedIn(c, st, batch) <= ParkedSet(c, st) && ParkedIn(c, st, batch) <= OutboxIds(batch)
    ensures |ParkedIn(c, st, batch)| <= |ParkedSet(c, st)| <= |DueSet(st, Poll, now)|
    ensures |ParkedIn(c, st, batch)| <= |OutboxIds(batch)|
  {
    SubsetSize(ParkedSet(c, st), DueSet(st, Poll, now));
    SubsetSize(ParkedIn(c, st, batch), ParkedSet(c, st));
    SubsetSize(ParkedIn(c, st, batch), OutboxIds(batch));
  }

  lemma ReachingPast(c: Settings, st: Store, now: int, limit: int, batch: seq<Due>, i: nat)
    requires StoreInv(c, st) && now >= 0 && IsBatch(st, Poll, now, limit, batch)
    requires i < |batch| && !ParkedEvent(c, st, batch[i].o)
    ensures ParkedIn(c, st, batch) == ParkedSet(c, st) && |ParkedSet(c, st)| < |batch|
  {
    DistinctIds(batch);
    forall o | o in ParkedSet(c, st) ensures o in ParkedIn(c, st, batch) {
      ParkedComeFirst(c, st, now, limit, batch, i, o);
    }
    assert ParkedIn(c, st, batch) == ParkedSet(c, st);
    SubsetSize(ParkedIn(c, st, batch) + {batch[i].o}, OutboxIds(batch));
  }

  /** With `s` parked events, a poll batch of limit `b` contains min(s, b) of
      them, so any other poll is selected only while s < b. */
  lemma ParkedFillTheBatch(c: Settings, st: Store, now: int, limit: int, batch: seq<Due>)
    requires StoreInv(c, st) && now >= 0 && limit >= 0 && IsBatch(st, Poll, now, limit, batch)
    ensures |ParkedIn(c, st, batch)| == Limited(limit, |ParkedSet(c, st)|)
    ensures (exists i :: 0 <= i < |batch| && !ParkedEvent(c, st, batch[i].o)) ==> |ParkedSet(c, st)| < limit
  {
    DistinctIds(batch);
    ParkedAreDue(c, st, now, batch);
    if i :| 0 <= i < |batch| && !ParkedEvent(c, st, batch[i].o) {
      ReachingPast(c, st, now, limit, batch, i);
    } else {
      assert ParkedIn(c, st, batch) == OutboxIds(batch);
    }
  }
}
