/**
 The running system as interleaved atomic steps: the HTTP API, one submitter, one
 poller and one canceller (crates/bin/src/main.rs spawns one of each), all over the
 same two tables.

 Every SQL transaction or query is one step; between any two steps of a worker
 the others, the API and the clock may move. LHDN's replies are arbitrary, any
 database operation may fail, and the process may crash at any point, losing the
 workers' memory and keeping the tables. A clock value used by a step may have
 been read earlier, but not before the worker's previous step.

 `History` is bookkeeping of this model; no step's effect on the rest reads it.
 */
module Protocol {
  import opened Wrappers
  import opened Json
  import opened Lhdn
  import opened Outbox
  import opened Decisions
  import Ubl

  /** Where a worker stands with the first event of its batch. */
  datatype Phase =
    | Fetched
    | Loaded(found: Option<Invoice>)
    | InFlight(row: Invoice, builtAt: int)
    | Rejected(row: Invoice, error: ErrorNote, at: int)
    | Ready(txn: Txn, at: int, called: bool)

  /** Idle when the batch is empty. */
  datatype WorkerState = WorkerState(batch: seq<Due>, phase: Phase)

  const IDLE := WorkerState([], Fetched)

  /** An accepted cancel request and the clock it was accepted at. */
  datatype Request = Request(id: InvoiceId, reason: string, at: int)

  datatype History = History(
    submitCalls: map<InvoiceId, nat>,     // submit_documents calls made
    interrupted: map<InvoiceId, nat>,     // passes lost after such a call, by a crash or a failed commit
    handled: map<InvoiceId, nat>,         // committed worker transactions
    cancels: map<InvoiceId, nat>,         // accepted cancel requests
    requests: map<nat, Request>,          // the same by outbox id of the event they enqueued
    completed: set<nat>,                  // cancel events settled by complete_cancel
    refused: set<nat>,                    // and by fail_cancel
    heard: map<InvoiceId, set<Reply>>,    // LHDN's answers to calls for the invoice
    settled: map<InvoiceId, set<Txn>>,    // committed worker transactions
    dropped: map<InvoiceId, set<Txn>>)    // those decided on but lost, by a crash or a failed operation

  datatype System = System(
    st: Store,
    submitter: WorkerState,
    poller: WorkerState,
    canceller: WorkerState,
    now: int,
    h: History)

  function Get(s: System, kind: Kind): WorkerState {
    match kind
    case Submit => s.submitter
    case Poll => s.poller
    case Cancel => s.canceller
  }

  function Put(s: System, kind: Kind, w: WorkerState): System {
    match kind
    case Submit => s.(submitter := w)
    case Poll => s.(poller := w)
    case Cancel => s.(canceller := w)
  }

  function Count(m: map<InvoiceId, nat>, id: InvoiceId): nat {
    if id in m then m[id] else 0
  }

  function Bump(m: map<InvoiceId, nat>, id: InvoiceId): map<InvoiceId, nat> {
    m[id := Count(m, id) + 1]
  }

  function Heard(h: History, id: InvoiceId): set<Reply> {
    if id in h.heard then h.heard[id] else {}
  }

  function Hear(h: History, id: InvoiceId, reply: Reply): History {
    h.(heard := h.heard[id := Heard(h, id) + {reply}])
  }

  /** On to the next event of the batch. */
  function Next(w: WorkerState): WorkerState
    requires w.batch != []
  {
    WorkerState(w.batch[1..], Fetched)
  }

  /** The submitter has called LHDN for its current event and not committed. */
  predicate Called(w: WorkerState) {
    w.batch != [] && (w.phase.InFlight? || w.phase.Rejected? || (w.phase.Ready? && w.phase.called))
  }

  predicate CalledFor(w: WorkerState, id: InvoiceId) {
    Called(w) && w.batch[0].id == id
  }

  /** The transaction a worker has decided on and not committed; after a
      rejection, the one it will make once it has read the row again. */
  function Carrying(w: WorkerState): Option<Txn> {
    if w.batch == [] then None
    else
      match w.phase
      case Rejected(row, error, _) => Some(RejectionTxn(w.batch[0], Some(row), error))
      case Ready(txn, _, _) => Some(txn)
      case _ => None
  }

  function Txns(m: map<InvoiceId, set<Txn>>, id: InvoiceId): set<Txn> {
    if id in m then m[id] else {}
  }

  function Note(m: map<InvoiceId, set<Txn>>, id: InvoiceId, txn: Txn): map<InvoiceId, set<Txn>> {
    m[id := Txns(m, id) + {txn}]
  }

  /** Passes lost after a call, once the submitter loses its current one. */
  function Interrupted(h: History, submitter: WorkerState): map<InvoiceId, nat> {
    if Called(submitter) then Bump(h.interrupted, submitter.batch[0].id) else h.interrupted
  }

  /** Transactions lost, once worker `w` loses its current pass. */
  function Dropped(m: map<InvoiceId, set<Txn>>, w: WorkerState): map<InvoiceId, set<Txn>> {
    if Carrying(w).Some? then Note(m, w.batch[0].id, Carrying(w).value) else m
  }

  datatype Step =
    | Create(id: InvoiceId, payload: Json, t: int)              // POST /v1/invoices
    | RequestCancel(ref: string, body: Json, t: int)            // POST /v1/invoices/{ref}/cancel
    | Fetch(kind: Kind, batch: seq<Due>, t: int)
    | Load(kind: Kind)
    | Dispatch(kind: Kind)
    | Answer(kind: Kind, reply: Reply)
    | Reread(kind: Kind)
    | Commit(kind: Kind, t: int)
    | Abandon(kind: Kind)                                       // a database operation failed
    | Crash
    | Advance(seconds: nat)

  ghost predicate Enabled(c: Settings, s: System, step: Step) {
    match step
    case Create(_, _, t) => 0 < t <= s.now
    case RequestCancel(_, _, t) => 0 < t <= s.now
    case Fetch(kind, batch, t) =>
      Get(s, kind).batch == [] && 0 < t <= s.now && IsBatch(s.st, kind, t, c.BatchSize(kind), batch)
    case Load(kind) => var w := Get(s, kind); w.batch != [] && w.phase.Fetched?
    case Dispatch(kind) => var w := Get(s, kind); w.batch != [] && w.phase.Loaded?
    case Answer(kind, reply) =>   // a submit call is only in flight for a document that builds
      var w := Get(s, kind);
      && w.batch != [] && w.phase.InFlight? && Answers(kind, reply)
      && (kind == Submit ==> c.build(w.phase.row.payload, w.phase.builtAt).Success?)
    case Reread(kind) => var w := Get(s, kind); w.batch != [] && w.phase.Rejected?
    case Commit(kind, t) => var w := Get(s, kind); w.batch != [] && w.phase.Ready? && w.phase.at <= t <= s.now
    case Abandon(kind) =>
      var w := Get(s, kind); w.batch != [] && (w.phase.Fetched? || w.phase.Rejected? || w.phase.Ready?)
    case Crash => true
    case Advance(_) => true
  }

  /** `submit_invoice`: a payload without a reference is refused before any
      write; so is a reference already taken. */
  function AfterCreate(s: System, id: InvoiceId, payload: Json, t: int): System {
    match Ubl.CodeNumber(payload)
    case None => s
    case Some(ref) =>
      match CreatePending(s.st, id, ref, payload, t)
      case Failure(_) => s
      case Success(st) => s.(st := st)
  }

  /** `cancel_invoice`. */
  ghost function AfterRequestCancel(s: System, ref: string, body: Json, t: int): System {
    match Ubl.RequiredText(body, "reason")
    case None => s
    case Some(reason) =>
      match RequestCancellation(s.st, ref, reason, t)
      case Failure(_) => s
      case Success(st) =>
        var id := FindByRef(s.st, ref).value;
        s.(st := st,
           h := s.h.(cancels := Bump(s.h.cancels, id), requests := s.h.requests[s.st.nextId := Request(id, reason, t)]))
  }

  function AfterDispatch(c: Settings, s: System, kind: Kind): System
    requires Get(s, kind).batch != [] && Get(s, kind).phase.Loaded?
  {
    var w := Get(s, kind);
    match PlanFor(c, kind, w.batch[0], w.phase.found, s.now)
    case Settle(txn) => Put(s, kind, w.(phase := Ready(txn, s.now, false)))
    case CallLhdn =>
      var called := Put(s, kind, w.(phase := InFlight(w.phase.found.value, s.now)));
      if kind == Submit
      then called.(h := s.h.(submitCalls := Bump(s.h.submitCalls, w.batch[0].id)))
      else called
  }

  ghost function AfterAnswer(c: Settings, s: System, kind: Kind, reply: Reply): System
    requires Enabled(c, s, Answer(kind, reply))
  {
    var w := Get(s, kind);
    var told := s.(h := Hear(s.h, w.batch[0].id, reply));
    match VerdictFor(c, kind, w.batch[0], w.phase.row, w.phase.builtAt, reply, s.now)
    case Settled(txn) => Put(told, kind, w.(phase := Ready(txn, s.now, true)))
    case ReadAgain(e) => Put(told, kind, w.(phase := Rejected(w.phase.row, e, s.now)))
  }

  function CommitHistory(h: History, kind: Kind, due: Due, txn: Txn): History {
    var counted := h.(handled := Bump(h.handled, due.id), settled := Note(h.settled, due.id, txn));
    if txn.CompleteCancel? then counted.(completed := h.completed + {due.o})
    else if txn.FailCancel? then counted.(refused := h.refused + {due.o})
    else counted
  }

  ghost function Apply(c: Settings, s: System, step: Step): System
    requires Enabled(c, s, step)
  {
    match step
    case Create(id, payload, t) => AfterCreate(s, id, payload, t)
    case RequestCancel(ref, body, t) => AfterRequestCancel(s, ref, body, t)
    case Fetch(kind, batch, _) => Put(s, kind, WorkerState(batch, Fetched))
    case Load(kind) =>
      var w := Get(s, kind);
      Put(s, kind, w.(phase := Loaded(Lookup(s.st, w.batch[0].id))))
    case Dispatch(kind) => AfterDispatch(c, s, kind)
    case Answer(kind, reply) => AfterAnswer(c, s, kind, reply)
    case Reread(kind) =>
      var w := Get(s, kind);
      Put(s, kind, w.(phase := Ready(RejectionTxn(w.batch[0], Lookup(s.st, w.batch[0].id), w.phase.error),
                           s.now, true)))
    case Commit(kind, t) =>
      var w := Get(s, kind);
      Put(s, kind, Next(w)).(st := Exec(s.st, w.phase.txn, t), h := CommitHistory(s.h, kind, w.batch[0], w.phase.txn))
    case Abandon(kind) =>
      var w := Get(s, kind);
      var interrupted := if kind == Submit then Interrupted(s.h, w) else s.h.interrupted;
      Put(s, kind, Next(w)).(h := s.h.(interrupted := interrupted, dropped := Dropped(s.h.dropped, w)))
    case Crash =>
      var dropped := Dropped(Dropped(Dropped(s.h.dropped, s.submitter), s.poller), s.canceller);
      s.(submitter := IDLE, poller := IDLE, canceller := IDLE,
         h := s.h.(interrupted := Interrupted(s.h, s.submitter), dropped := dropped))
    case Advance(seconds) => s.(now := s.now + seconds)
  }

  ghost predicate Init(s: System) {
    && s.st == EMPTY_STORE
    && s.submitter == s.poller == s.canceller == IDLE
    && s.now > 0
    && s.h == History(map[], map[], map[], map[], map[], {}, {}, map[], map[], map[])
  }

  ghost predicate Steps(c: Settings, s: System, s': System) {
    exists step :: Enabled(c, s, step) && s' == Apply(c, s, step)
  }

  ghost predicate StepAt(c: Settings, run: seq<System>, i: int) {
    0 <= i < |run| - 1 && Steps(c, run[i], run[i + 1])
  }

  /** A run from the empty store, of any length and with any choices. */
  ghost predicate IsRun(c: Settings, run: seq<System>) {
    && run != []
    && Init(run[0])
    && forall i :: 0 <= i < |run| - 1 ==> StepAt(c, run, i)
  }

  // ----- What each step records ----------------------------------------------

  lemma AnswerRecords(c: Settings, s: System, kind: Kind, reply: Reply)
    requires Enabled(c, s, Answer(kind, reply))
    ensures Apply(c, s, Answer(kind, reply)).h == Hear(s.h, Get(s, kind).batch[0].id, reply)
  {
  }

  lemma ApiRecords(c: Settings, s: System, step: Step)
    requires Enabled(c, s, step) && (step.Create? || step.RequestCancel?)
    ensures var h' := Apply(c, s, step).h;
            h' == s.h.(cancels := h'.cancels, requests := h'.requests)
  {
  }

  lemma DispatchRecords(c: Settings, s: System, kind: Kind)
    requires Enabled(c, s, Dispatch(kind))
    ensures var h' := Apply(c, s, Dispatch(kind)).h;
            h' == s.h.(submitCalls := if kind == Submit then h'.submitCalls else s.h.submitCalls)
  {
  }

  lemma CommitHistoryRecords(h: History, kind: Kind, due: Due, txn: Txn)
    ensures var h' := CommitHistory(h, kind, due, txn);
            h' == h.(handled := Bump(h.handled, due.id), settled := Note(h.settled, due.id, txn),
                     completed := h'.completed, refused := h'.refused)
  {
  }

  lemma CommitRecords(c: Settings, s: System, kind: Kind, t: int)
    requires Enabled(c, s, Commit(kind, t))
    ensures var w, h' := Get(s, kind), Apply(c, s, Commit(kind, t)).h;
            h' == s.h.(handled := Bump(s.h.handled, w.batch[0].id),
                       settled := Note(s.h.settled, w.batch[0].id, w.phase.txn),
                       completed := h'.completed, refused := h'.refused)
  {
    CommitHistoryRecords(s.h, kind, Get(s, kind).batch[0], Get(s, kind).phase.txn);
  }

  lemma LossRecords(c: Settings, s: System, step: Step)
    requires Enabled(c, s, step) && (step.Abandon? || step.Crash?)
    ensures var h' := Apply(c, s, step).h;
            h' == s.h.(interrupted := h'.interrupted, dropped := h'.dropped)
  {
  }

  /** Cancel requests are recorded only when one is accepted. */
  lemma OtherStepsKeepRequests(c: Settings, s: System, step: Step)
    requires Enabled(c, s, step) && !step.RequestCancel?
    ensures Apply(c, s, step).h.requests == s.h.requests && Apply(c, s, step).h.cancels == s.h.cancels
  {
    match step
    case Create(_, _, _) =>
    case Dispatch(kind) => DispatchRecords(c, s, kind);
    case Answer(kind, reply) => AnswerRecords(c, s, kind, reply);
    case Commit(kind, t) => CommitRecords(c, s, kind, t);
    case Abandon(_) => LossRecords(c, s, step);
    case Crash => LossRecords(c, s, step);
    case _ =>
  }

  /** Calls and answers are recorded by the steps that make and receive them. */
  lemma OnlyCallsRecorded(c: Settings, s: System, step: Step)
    requires Enabled(c, s, step)
    ensures step != Dispatch(Submit) ==> Apply(c, s, step).h.submitCalls == s.h.submitCalls
    ensures !step.Answer? ==> Apply(c, s, step).h.heard == s.h.heard
  {
    match step
    case Create(_, _, _) => ApiRecords(c, s, step);
    case RequestCancel(_, _, _) => ApiRecords(c, s, step);
    case Dispatch(kind) => DispatchRecords(c, s, kind);
    case Answer(kind, reply) => AnswerRecords(c, s, kind, reply);
    case Commit(kind, t) => CommitRecords(c, s, kind, t);
    case Abandon(_) => LossRecords(c, s, step);
    case Crash => LossRecords(c, s, step);
    case _ =>
  }
}
