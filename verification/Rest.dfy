/**
 The three workers together, their steps interleaved in any way with each other
 and with the API, at a clock that stands still: they come to rest. Stated on
 labelled runs that start anywhere, the workers idle.
 */
module Rest {
  import opened Lhdn
  import opened Outbox
  import opened Decisions
  import opened Invariant
  import opened Protocol
  import opened ProtocolInvariant
  import opened Lifecycle
  import opened StuckPolls
  import opened Drain
  import opened Repo

  ghost predicate StepsTo(c: Settings, trace: seq<System>, steps: seq<Step>, i: int) {
    && 0 <= i < |steps| && |trace| == |steps| + 1
    && Enabled(c, trace[i], steps[i]) && trace[i + 1] == Apply(c, trace[i], steps[i])
  }

  /** The clock does not move, and no answer takes a document without giving it a
      uuid. Everything else is free: arrivals, refusals, crashes, failures. */
  predicate Still(c: Settings, s: System, step: Step) {
    match step
    case Advance(seconds) => seconds == 0
    case Answer(Submit, reply) =>
      s.submitter.phase.InFlight? && c.build(s.submitter.phase.row.payload, s.submitter.phase.builtAt).Success? ==>
        !GivesNoUuid(reply, c.build(s.submitter.phase.row.payload, s.submitter.phase.builtAt).value.codeNumber)
    case _ => true
  }

  ghost predicate IsTrace(c: Settings, trace: seq<System>, steps: seq<Step>) {
    && |trace| == |steps| + 1
    && (forall i :: 0 <= i < |steps| ==> StepsTo(c, trace, steps, i) && Still(c, trace[i], steps[i]))
  }

  /** A reachable kind of state with the workers idle and no stuck poll due. */
  ghost predicate StartsAtRest(c: Settings, s: System) {
    Inv(c, s) && s.submitter == s.poller == s.canceller == IDLE && NoStuckDue(s.st, s.now)
  }

  // ----- What is kept --------------------------------------------------------

  /** What a worker decided, it decided now; and it gives the row a uuid. */
  predicate DecidedNow(w: WorkerState, now: int) {
    w.phase.Ready? ==> w.phase.at == now && (w.phase.txn.CompleteSubmission? ==> w.phase.txn.uuid != "")
  }

  ghost predicate RestInv(c: Settings, s: System) {
    Inv(c, s) && NoStuckDue(s.st, s.now) && forall k :: DecidedNow(Get(s, k), s.now)
  }

  /** The event a worker holds is due and its row is not stuck. */
  lemma HeldNotStuck(c: Settings, s: System, kind: Kind)
    requires RestInv(c, s) && Get(s, kind).batch != []
    ensures var due := Get(s, kind).batch[0];
            Held(s, kind, due) && IsDue(s.st, kind, s.now, due.o) && !Stuck(s.st.invoices[due.id])
  {
    var due := Get(s, kind).batch[0];
    assert WorkerInv(c, s, kind) && Held(s, kind, due);
    assert LocalInv(c, s.st, due.id);
    assert kind == Poll ==> !StuckEvent(s.st, due.o);
  }

  lemma CommitIsProgress(c: Settings, s: System, kind: Kind, t: int)
    requires RestInv(c, s) && Enabled(c, s, Commit(kind, t))
    ensures DueMeasure(Apply(c, s, Commit(kind, t)).st, s.now) + 1 <= DueMeasure(s.st, s.now)
  {
    var w := Get(s, kind);
    HeldNotStuck(c, s, kind);
    assert DecidedNow(w, s.now) && WorkerInv(c, s, kind);
    CommitDue(c, s.st, kind, w.batch[0], w.phase.txn, w.phase.at, t, s.now);
    HandledLowersMeasure(s.st, Exec(s.st, w.phase.txn, t), kind, w.batch[0].o, s.now);
  }

  /** A poll event due after a commit was due before and is another invoice's, or
      is new and its row has the uuid just received. */
  lemma CommitLeavesNoStuck(c: Settings, s: System, kind: Kind, t: int, o: nat)
    requires RestInv(c, s) && Enabled(c, s, Commit(kind, t))
    requires IsDue(Apply(c, s, Commit(kind, t)).st, Poll, s.now, o)
    ensures !StuckEvent(Apply(c, s, Commit(kind, t)).st, o)
  {
    var w, st' := Get(s, kind), Apply(c, s, Commit(kind, t)).st;
    var due := w.batch[0];
    HeldNotStuck(c, s, kind);
    assert DecidedNow(w, s.now) && WorkerInv(c, s, kind);
    CommittedRow(c, s, kind, t);
    ExecMovesOn(c, s.st, kind, due, w.phase.txn, w.phase.at, t, s.now);
    ExecElsewhere(s.st, w.phase.txn, t);
    if o != due.o && o != s.st.nextId {
      CommitStepKeeps(c, s, kind, t);
      var x := s.st.outbox[o].invoiceId;
      assert Owns(s.st, o, x) && Owns(s.st, due.o, due.id) && LocalInv(c, s.st, x);
      assert IsDue(s.st, Poll, s.now, o) && !StuckEvent(s.st, o);
      assert SameFor(s.st, st', x);
    }
  }

  // ----- Arrivals ------------------------------------------------------------

  /** A request the API accepted. */
  ghost predicate Accepted(c: Settings, s: System, step: Step)
    requires Enabled(c, s, step)
  {
    (step.Create? || step.RequestCancel?) && Apply(c, s, step).st != s.st
  }

  lemma InsertedDue(st: Store, st': Store, kind: Kind, ev: Event, now: int)
    requires st'.outbox == st.outbox[st.nextId := ev] && st.nextId !in st.outbox && ev.kind == kind
    ensures forall k :: k != kind ==> DueSet(st', k, now) == DueSet(st, k, now)
    ensures |DueSet(st', kind, now)| <= |DueSet(st, kind, now)| + 1
  {
    SubsetSize(DueSet(st', kind, now), DueSet(st, kind, now) + {st.nextId});
  }

  lemma ArrivalAdds(c: Settings, s: System, step: Step)
    requires Inv(c, s) && Enabled(c, s, step) && (step.Create? || step.RequestCancel?)
    ensures var s' := Apply(c, s, step);
            DueMeasure(s'.st, s.now)
            <= DueMeasure(s.st, s.now) + (if !Accepted(c, s, step) then 0 else if step.Create? then 2 else 1)
  {
    var s' := Apply(c, s, step);
    if Accepted(c, s, step) {
      InsertedDue(s.st, s'.st, if step.Create? then Submit else Cancel, s'.st.outbox[s.st.nextId], s.now);
    }
  }

  lemma ArrivalLeavesNoStuck(c: Settings, s: System, step: Step)
    requires SettingsOk(c) && Inv(c, s) && NoStuckDue(s.st, s.now) && Enabled(c, s, step)
    requires step.Create? || step.RequestCancel?
    ensures NoStuckDue(Apply(c, s, step).st, s.now)
  {
    var st' := Apply(c, s, step).st;
    forall o | IsDue(st', Poll, s.now, o) ensures !StuckEvent(st', o) {
      assert o in s.st.outbox && st'.outbox[o] == s.st.outbox[o];
      assert !StuckEvent(s.st, o);
      var x := s.st.outbox[o].invoiceId;
      assert Owns(s.st, o, x) && LocalInv(c, s.st, x);
    }
  }

  /** What a step adds to the work due: a submission counts twice, for the poll
      it turns into. */
  ghost function Arrival(c: Settings, s: System, step: Step): nat
    requires Enabled(c, s, step)
  {
    if !Accepted(c, s, step) then 0 else if step.Create? then 2 else 1
  }

  // ----- One step ------------------------------------------------------------

  lemma AnswerDecidesNow(c: Settings, s: System, kind: Kind, reply: Reply)
    requires Enabled(c, s, Answer(kind, reply)) && Still(c, s, Answer(kind, reply))
    ensures DecidedNow(Get(Apply(c, s, Answer(kind, reply)), kind), s.now)
  {
    if kind == Submit {
      var w := s.submitter;
      BecomesStuckIff(c, w.batch[0], w.phase.row, w.phase.builtAt, reply, s.now);
    }
  }

  lemma WorkerStepDecidesNow(c: Settings, s: System, step: Step, k: Kind)
    requires Enabled(c, s, step) && Still(c, s, step) && DecidedNow(Get(s, k), s.now)
    ensures DecidedNow(Get(Apply(c, s, step), k), s.now)
  {
    match step
    case Answer(kind, reply) => if k == kind { AnswerDecidesNow(c, s, kind, reply); }
    case _ =>
  }

  lemma StepKeepsRest(c: Settings, s: System, step: Step)
    requires SettingsOk(c) && RestInv(c, s) && Enabled(c, s, step) && Still(c, s, step)
    ensures RestInv(c, Apply(c, s, step)) && Apply(c, s, step).now == s.now
  {
    var s' := Apply(c, s, step);
    StepKeepsInv(c, s, step);
    forall k ensures DecidedNow(Get(s', k), s'.now) { WorkerStepDecidesNow(c, s, step, k); }
    match step
    case Commit(kind, t) =>
      forall o | IsDue(s'.st, Poll, s.now, o) ensures !StuckEvent(s'.st, o) { CommitLeavesNoStuck(c, s, kind, t, o); }
    case Create(_, _, _) => ArrivalLeavesNoStuck(c, s, step);
    case RequestCancel(_, _, _) => ArrivalLeavesNoStuck(c, s, step);
    case _ => OtherStepsKeepStore(c, s, step);
  }

  lemma StepMeasured(c: Settings, s: System, step: Step)
    requires RestInv(c, s) && Enabled(c, s, step) && Still(c, s, step)
    ensures DueMeasure(Apply(c, s, step).st, s.now) + (if step.Commit? then 1 else 0)
         <= DueMeasure(s.st, s.now) + Arrival(c, s, step)
  {
    match step
    case Commit(kind, t) => CommitIsProgress(c, s, kind, t);
    case Create(_, _, _) => ArrivalAdds(c, s, step);
    case RequestCancel(_, _, _) => ArrivalAdds(c, s, step);
    case _ => OtherStepsKeepStore(c, s, step);
  }

  // ----- All the workers' steps ----------------------------------------------

  /** A step some worker takes with an event in hand, or to get some. */
  predicate Busy(step: Step) {
    match step
    case Fetch(_, batch, _) => batch != []
    case Load(_) => true
    case Dispatch(_) => true
    case Answer(_, _) => true
    case Reread(_) => true
    case Commit(_, _) => true
    case _ => false
  }

  /** No crash and no failed operation. */
  predicate Faultless(steps: seq<Step>) {
    forall i :: 0 <= i < |steps| ==> !steps[i].Crash? && !steps[i].Abandon?
  }

  /** Steps a worker can still take before its next commit. */
  function Left(w: WorkerState): nat {
    if w.batch == [] then 5
    else
      match w.phase
      case Fetched => 4
      case Loaded(_) => 3
      case InFlight(_, _) => 2
      case Rejected(_, _, _) => 1
      case Ready(_, _, _) => 0
  }

  function LeftAll(s: System): nat {
    Left(s.submitter) + Left(s.poller) + Left(s.canceller)
  }

  lemma ApiLeavesWorkers(c: Settings, s: System, step: Step, k: Kind)
    requires Enabled(c, s, step) && (step.Create? || step.RequestCancel?)
    ensures Get(Apply(c, s, step), k) == Get(s, k)
  {
  }

  lemma StepLeaves(c: Settings, s: System, step: Step)
    requires Enabled(c, s, step) && !step.Crash? && !step.Abandon?
    ensures LeftAll(Apply(c, s, step)) + (if Busy(step) then 1 else 0)
         <= LeftAll(s) + (if step.Commit? then 6 else 0)
  {
    if step.Create? || step.RequestCancel? {
      ApiLeavesWorkers(c, s, step, Submit);
      ApiLeavesWorkers(c, s, step, Poll);
      ApiLeavesWorkers(c, s, step, Cancel);
    }
  }

  // ----- Whole traces --------------------------------------------------------

  function Tally(s: seq<nat>): nat {
    if s == [] then 0 else Tally(s[..|s| - 1]) + s[|s| - 1]
  }

  /** One for each commit. */
  function Commits(steps: seq<Step>): seq<nat> {
    seq(|steps|, i requires 0 <= i < |steps| => if steps[i].Commit? then 1 else 0)
  }

  /** One for each busy step. */
  function BusySteps(steps: seq<Step>): seq<nat> {
    seq(|steps|, i requires 0 <= i < |steps| => if Busy(steps[i]) then 1 else 0)
  }

  ghost function ArrivalAt(c: Settings, trace: seq<System>, steps: seq<Step>, i: nat): nat
    requires IsTrace(c, trace, steps) && i < |steps|
  {
    assert StepsTo(c, trace, steps, i);
    Arrival(c, trace[i], steps[i])
  }

  /** Two for each accepted invoice and one for each accepted cancel request. */
  ghost function Arrivals(c: Settings, trace: seq<System>, steps: seq<Step>): seq<nat>
    requires IsTrace(c, trace, steps)
  {
    seq(|steps|, i requires 0 <= i < |steps| => ArrivalAt(c, trace, steps, i))
  }

  /** No level exceeds the one before by more than arrived, what was spent included. */
  predicate Dropping(level: seq<int>, spent: seq<nat>, gained: seq<nat>) {
    && |level| == |spent| + 1 && |gained| == |spent|
    && forall i :: 0 <= i < |spent| ==> level[i + 1] + spent[i] <= level[i] + gained[i]
  }

  /** What a level cannot lose, it has gained. */
  lemma {:induction false} Telescope(level: seq<int>, spent: seq<nat>, gained: seq<nat>)
    requires Dropping(level, spent, gained)
    ensures Tally(spent) + level[|spent|] <= level[0] + Tally(gained)
  {
    if spent != [] {
      var n := |spent| - 1;
      Telescope(level[..n + 1], spent[..n], gained[..n]);
    }
  }

  lemma StartKeepsRest(c: Settings, s: System)
    requires StartsAtRest(c, s)
    ensures RestInv(c, s)
  {
    forall k ensures DecidedNow(Get(s, k), s.now) { }
  }

  lemma RestContinues(c: Settings, trace: seq<System>, steps: seq<Step>, i: nat)
    requires SettingsOk(c) && IsTrace(c, trace, steps) && i < |steps| && RestInv(c, trace[i])
    ensures RestInv(c, trace[i + 1]) && trace[i + 1].now == trace[i].now
  {
    assert StepsTo(c, trace, steps, i);
    StepKeepsRest(c, trace[i], steps[i]);
  }

  lemma {:induction false} TraceKeepsRest(c: Settings, trace: seq<System>, steps: seq<Step>, n: nat)
    requires SettingsOk(c) && IsTrace(c, trace, steps) && StartsAtRest(c, trace[0]) && n <= |steps|
    ensures RestInv(c, trace[n]) && trace[n].now == trace[0].now
  {
    if n == 0 {
      StartKeepsRest(c, trace[0]);
    } else {
      TraceKeepsRest(c, trace, steps, n - 1);
      RestContinues(c, trace, steps, n - 1);
    }
  }

  ghost function DueLevels(trace: seq<System>): seq<int>
    requires trace != []
  {
    seq(|trace|, i requires 0 <= i < |trace| => DueMeasure(trace[i].st, trace[0].now))
  }

  lemma LevelDrops(c: Settings, trace: seq<System>, steps: seq<Step>, i: nat)
    requires SettingsOk(c) && IsTrace(c, trace, steps) && StartsAtRest(c, trace[0]) && i < |steps|
    ensures DueMeasure(trace[i + 1].st, trace[0].now) + (if steps[i].Commit? then 1 else 0)
         <= DueMeasure(trace[i].st, trace[0].now) + ArrivalAt(c, trace, steps, i)
  {
    TraceKeepsRest(c, trace, steps, i);
    assert StepsTo(c, trace, steps, i);
    StepMeasured(c, trace[i], steps[i]);
  }

  lemma DueLevelsDrop(c: Settings, trace: seq<System>, steps: seq<Step>)
    requires SettingsOk(c) && IsTrace(c, trace, steps) && StartsAtRest(c, trace[0])
    ensures Dropping(DueLevels(trace), Commits(steps), Arrivals(c, trace, steps))
  {
    var level, spent, gained := DueLevels(trace), Commits(steps), Arrivals(c, trace, steps);
    forall i | 0 <= i < |spent| ensures level[i + 1] + spent[i] <= level[i] + gained[i] {
      LevelDrops(c, trace, steps, i);
    }
  }

  /** However the three workers, the API, crashes and failures interleave, the
      workers commit no more transactions than there was work due at the start
      and has arrived since, and the rest is still due. */
  lemma CommitsBounded(c: Settings, trace: seq<System>, steps: seq<Step>)
    requires SettingsOk(c) && IsTrace(c, trace, steps) && StartsAtRest(c, trace[0])
    ensures Tally(Commits(steps)) + DueMeasure(trace[|steps|].st, trace[0].now)
         <= DueMeasure(trace[0].st, trace[0].now) + Tally(Arrivals(c, trace, steps))
  {
    DueLevelsDrop(c, trace, steps);
    Telescope(DueLevels(trace), Commits(steps), Arrivals(c, trace, steps));
  }

  // ----- Without faults ------------------------------------------------------

  function Sixfold(s: seq<nat>): seq<nat> {
    seq(|s|, i requires 0 <= i < |s| => 6 * s[i])
  }

  lemma {:induction false} TallySixfold(s: seq<nat>)
    ensures Tally(Sixfold(s)) == 6 * Tally(s)
  {
    if s != [] {
      TallySixfold(s[..|s| - 1]);
      assert Sixfold(s)[..|s| - 1] == Sixfold(s[..|s| - 1]);
    }
  }

  ghost function WorkLevels(trace: seq<System>): seq<int>
    requires trace != []
  {
    seq(|trace|, i requires 0 <= i < |trace| => 6 * DueMeasure(trace[i].st, trace[0].now) + LeftAll(trace[i]))
  }

  lemma WorkDrops(c: Settings, trace: seq<System>, steps: seq<Step>, i: nat)
    requires SettingsOk(c) && IsTrace(c, trace, steps) && StartsAtRest(c, trace[0]) && i < |steps|
    requires !steps[i].Crash? && !steps[i].Abandon?
    ensures 6 * DueMeasure(trace[i + 1].st, trace[0].now) + LeftAll(trace[i + 1]) + (if Busy(steps[i]) then 1 else 0)
         <= 6 * DueMeasure(trace[i].st, trace[0].now) + LeftAll(trace[i]) + 6 * ArrivalAt(c, trace, steps, i)
  {
    LevelDrops(c, trace, steps, i);
    assert StepsTo(c, trace, steps, i);
    StepLeaves(c, trace[i], steps[i]);
  }

  lemma WorkLevelsDrop(c: Settings, trace: seq<System>, steps: seq<Step>)
    requires SettingsOk(c) && IsTrace(c, trace, steps) && StartsAtRest(c, trace[0]) && Faultless(steps)
    ensures Dropping(WorkLevels(trace), BusySteps(steps), Sixfold(Arrivals(c, trace, steps)))
  {
    var level, spent, gained := WorkLevels(trace), BusySteps(steps), Sixfold(Arrivals(c, trace, steps));
    forall i | 0 <= i < |spent| ensures level[i + 1] + spent[i] <= level[i] + gained[i] {
      WorkDrops(c, trace, steps, i);
    }
  }

  /** Without faults the three workers come to rest: between arrivals they take
      no more than six steps per event due, a submission counting twice, and five
      for each worker's last look. */
  lemma WorkersComeToRest(c: Settings, trace: seq<System>, steps: seq<Step>)
    requires SettingsOk(c) && IsTrace(c, trace, steps) && StartsAtRest(c, trace[0]) && Faultless(steps)
    ensures Tally(BusySteps(steps)) + 6 * DueMeasure(trace[|steps|].st, trace[0].now)
         <= 6 * DueMeasure(trace[0].st, trace[0].now) + 6 * Tally(Arrivals(c, trace, steps)) + 15
  {
    WorkLevelsDrop(c, trace, steps);
    Telescope(WorkLevels(trace), BusySteps(steps), Sixfold(Arrivals(c, trace, steps)));
    TallySixfold(Arrivals(c, trace, steps));
  }

  // ----- Rest ----------------------------------------------------------------

  lemma EarliestExists(st: Store, candidates: set<nat>) returns (o: nat)
    requires candidates != {} && candidates <= st.outbox.Keys
    ensures o in candidates
    ensures forall p :: p in candidates ==> st.outbox[o].availableAt <= st.outbox[p].availableAt
  {
    o :| o in candidates;
    if candidates != {o} {
      var p := EarliestExists(st, candidates - {o});
      if st.outbox[p].availableAt < st.outbox[o].availableAt { o := p; }
    }
  }

  /** A selection always has a result. */
  lemma BatchExists(st: Store, kind: Kind, now: int, limit: int) returns (batch: seq<Due>)
    ensures IsBatch(st, kind, now, limit, batch)
  {
    var remaining := DueSet(st, kind, now);
    batch := [];
    while remaining != {} && (limit < 0 || |batch| < limit)
      invariant Selecting(st, kind, now, batch, remaining)
      invariant limit >= 0 ==> |batch| <= limit
      decreases |remaining|
    {
      var o := EarliestExists(st, remaining);
      SelectNext(st, kind, now, batch, remaining, o);
      batch := batch + [Due(o, st.outbox[o].invoiceId, st.outbox[o].attempts)];
      remaining := remaining - {o};
    }
  }

  ghost predicate CanBeBusy(c: Settings, s: System) {
    exists step :: Enabled(c, s, step) && Busy(step)
  }

  lemma FetchNeedsDue(c: Settings, s: System, step: Step)
    requires s.submitter == s.poller == s.canceller == IDLE && Enabled(c, s, step) && Busy(step)
    ensures DueMeasure(s.st, s.now) > 0
  {
    assert step.Fetch? && Listed(s.st, step.kind, step.t, step.batch[0]);
    assert step.batch[0].o in DueSet(s.st, step.kind, s.now);
  }

  /** With the workers idle, a busy step is possible exactly when something is
      due: then some worker can fetch it. */
  lemma IdleCanBeBusyIff(c: Settings, s: System)
    requires s.now > 0 && s.submitter == s.poller == s.canceller == IDLE
    requires forall k :: c.BatchSize(k) != 0
    ensures CanBeBusy(c, s) <==> DueMeasure(s.st, s.now) > 0
  {
    if DueMeasure(s.st, s.now) > 0 {
      var kind :| DueSet(s.st, kind, s.now) != {};
      var batch := BatchExists(s.st, kind, s.now, c.BatchSize(kind));
      assert Enabled(c, s, Fetch(kind, batch, s.now)) && Busy(Fetch(kind, batch, s.now));
    }
    if CanBeBusy(c, s) {
      var step :| Enabled(c, s, step) && Busy(step);
      FetchNeedsDue(c, s, step);
    }
  }

  // ----- The exception -------------------------------------------------------

  /** A submission committed leaves a stuck poll due at once exactly when it was
      given no uuid. */
  lemma NoUuidIsStuckIff(c: Settings, s: System, t: int)
    requires Inv(c, s) && Enabled(c, s, Commit(Submit, t)) && s.submitter.phase.txn.CompleteSubmission?
    ensures StuckAndDue(Apply(c, s, Commit(Submit, t)).st, s.st.nextId, s.now) <==> s.submitter.phase.txn.uuid == ""
  {
    CommittedRow(c, s, Submit, t);
    assert Get(s, Submit) == s.submitter;
  }

  /** A stuck poll that is due stays due in every continuation of every run,
      whatever interleaves: the poller never comes to rest again. */
  lemma {:induction false} StuckNeverRests(c: Settings, run: seq<System>, i: nat, j: nat, o: nat)
    requires SettingsOk(c) && IsRun(c, run) && i <= j < |run|
    requires StuckAndDue(run[i].st, o, run[i].now)
    ensures StuckAndDue(run[j].st, o, run[j].now)
    decreases j
  {
    if i < j {
      StuckNeverRests(c, run, i, j - 1, o);
      StuckStep(c, run, j, o);
    }
  }
}
