/** What every step of the system keeps, and hence what holds in every state of
    every run. */
module ProtocolInvariant {
  import opened Wrappers
  import opened Json
  import opened Lhdn
  import opened Outbox
  import opened Decisions
  import opened Invariant
  import opened InvariantProofs
  import opened Protocol
  import Ubl

  /** The event is still in the table as it was fetched, and was due. */
  ghost predicate Held(s: System, kind: Kind, due: Due) {
    Holds(s.st, kind, due) && due.id in s.st.invoices && s.st.outbox[due.o].availableAt <= s.now
  }

  /** What the worker remembers about its current event is what the tables say. */
  ghost predicate PhaseOk(c: Settings, s: System, kind: Kind, due: Due, phase: Phase)
    requires Held(s, kind, due)
  {
    var row, ev := s.st.invoices[due.id], s.st.outbox[due.o];
    match phase
    case Fetched => true
    case Loaded(found) => found == Some(row)
    case InFlight(loaded, builtAt) => loaded == row && builtAt <= s.now && CallJustified(c, kind, row, builtAt)
    case Rejected(loaded, error, at) =>
      && kind == Submit && loaded == row && at <= s.now
      && TxnFits(c, due, row, ev, RejectionTxn(due, Some(row), error), at)
    case Ready(txn, at, called) => at <= s.now && TxnFits(c, due, row, ev, txn, at)
  }

  ghost predicate WorkerInv(c: Settings, s: System, kind: Kind) {
    var w := Get(s, kind);
    && (forall i :: 0 <= i < |w.batch| ==> Held(s, kind, w.batch[i]))
    && (forall i, j :: 0 <= i < j < |w.batch| ==> w.batch[i].o != w.batch[j].o)
    && (if w.batch == [] then w.phase.Fetched? else PhaseOk(c, s, kind, w.batch[0], w.phase))
  }

  ghost predicate Inv(c: Settings, s: System) {
    StoreInv(c, s.st) && s.now > 0 && forall kind :: WorkerInv(c, s, kind)
  }

  lemma InitInv(c: Settings, s: System)
    requires Init(s)
    ensures Inv(c, s)
  {
    EmptyStoreInv(c);
  }

  // ----- Framing for workers -------------------------------------------------

  lemma WorkerFrame(c: Settings, s: System, s': System, kind: Kind)
    requires WorkerInv(c, s, kind) && Get(s', kind) == Get(s, kind) && s.now <= s'.now
    requires forall i :: 0 <= i < |Get(s, kind).batch| ==> SameFor(s.st, s'.st, Get(s, kind).batch[i].id)
    ensures WorkerInv(c, s', kind)
  {
    var w := Get(s, kind);
    forall i | 0 <= i < |w.batch| ensures Held(s', kind, w.batch[i]) {
      assert Held(s, kind, w.batch[i]) && SameFor(s.st, s'.st, w.batch[i].id);
    }
  }

  /** Two events in workers' hands never concern the same invoice. */
  lemma HeldApart(c: Settings, s: System, kind: Kind, due: Due, kind': Kind, due': Due)
    requires StoreInv(c, s.st) && Held(s, kind, due) && Held(s, kind', due')
    requires due.o != due'.o || kind != kind'
    ensures due.id != due'.id
  {
    assert LocalInv(c, s.st, due.id);
    assert Owns(s.st, due.o, due.id) && Owns(s.st, due'.o, due'.id);
  }

  /** Changing only an invoice that no other batch mentions. */
  lemma OthersKeep(c: Settings, s: System, s': System, kind: Kind, x: InvoiceId)
    requires WorkerInv(c, s, kind) && Get(s', kind) == Get(s, kind) && s.now <= s'.now
    requires forall id :: id != x ==> SameFor(s.st, s'.st, id)
    requires forall i :: 0 <= i < |Get(s, kind).batch| ==> Get(s, kind).batch[i].id != x
    ensures WorkerInv(c, s', kind)
  {
    WorkerFrame(c, s, s', kind);
  }

  /** A step of worker `kind` that leaves tables, clock and the others alone. */
  lemma PhaseStepKeeps(c: Settings, s: System, s': System, kind: Kind)
    requires Inv(c, s) && WorkerInv(c, s', kind)
    requires s'.st == s.st && s'.now == s.now
    requires forall k :: k != kind ==> Get(s', k) == Get(s, k)
    ensures Inv(c, s')
  {
    forall k ensures WorkerInv(c, s', k) {
      if k != kind { WorkerFrame(c, s, s', k); }
    }
  }

  // ----- The steps -----------------------------------------------------------

  lemma FetchKeeps(c: Settings, s: System, kind: Kind, batch: seq<Due>, t: int)
    requires Inv(c, s) && Enabled(c, s, Fetch(kind, batch, t))
    ensures Inv(c, Apply(c, s, Fetch(kind, batch, t)))
  {
    var s' := Apply(c, s, Fetch(kind, batch, t));
    forall i | 0 <= i < |batch| ensures Held(s', kind, batch[i]) {
      assert Listed(s.st, kind, t, batch[i]);
      assert Owns(s.st, batch[i].o, batch[i].id);
      assert LocalInv(c, s.st, batch[i].id);
    }
    PhaseStepKeeps(c, s, s', kind);
  }

  lemma SameHeld(c: Settings, s: System, s': System, kind: Kind)
    requires WorkerInv(c, s, kind)
    requires s'.st == s.st && s'.now == s.now && Get(s', kind).batch == Get(s, kind).batch
    ensures forall i :: 0 <= i < |Get(s, kind).batch| ==> Held(s', kind, Get(s, kind).batch[i])
  {
    var batch := Get(s, kind).batch;
    forall i | 0 <= i < |batch| ensures Held(s', kind, batch[i]) {
      assert Held(s, kind, batch[i]);
    }
  }

  lemma LoadKeeps(c: Settings, s: System, kind: Kind)
    requires Inv(c, s) && Enabled(c, s, Load(kind))
    ensures Inv(c, Apply(c, s, Load(kind)))
  {
    var s' := Apply(c, s, Load(kind));
    assert WorkerInv(c, s, kind);
    SameHeld(c, s, s', kind);
    PhaseStepKeeps(c, s, s', kind);
  }

  lemma DispatchKeeps(c: Settings, s: System, kind: Kind)
    requires SettingsOk(c) && Inv(c, s) && Enabled(c, s, Dispatch(kind))
    ensures Inv(c, Apply(c, s, Dispatch(kind)))
  {
    var s' := Apply(c, s, Dispatch(kind));
    var w := Get(s, kind);
    assert WorkerInv(c, s, kind);
    SameHeld(c, s, s', kind);
    PlanFits(c, s.st, kind, w.batch[0], s.now);
    assert WorkerInv(c, s', kind);
    PhaseStepKeeps(c, s, s', kind);
  }

  lemma AnswerKeeps(c: Settings, s: System, kind: Kind, reply: Reply)
    requires SettingsOk(c) && Inv(c, s) && Enabled(c, s, Answer(kind, reply))
    ensures Inv(c, Apply(c, s, Answer(kind, reply)))
  {
    var s' := Apply(c, s, Answer(kind, reply));
    var w := Get(s, kind);
    assert WorkerInv(c, s, kind);
    SameHeld(c, s, s', kind);
    VerdictFits(c, s.st, kind, w.batch[0], w.phase.builtAt, reply, s.now);
    assert WorkerInv(c, s', kind);
    PhaseStepKeeps(c, s, s', kind);
  }

  lemma RereadKeeps(c: Settings, s: System, kind: Kind)
    requires Inv(c, s) && Enabled(c, s, Reread(kind))
    ensures Inv(c, Apply(c, s, Reread(kind)))
  {
    var s' := Apply(c, s, Reread(kind));
    assert WorkerInv(c, s, kind);
    SameHeld(c, s, s', kind);
    PhaseStepKeeps(c, s, s', kind);
  }

  /** The rest of a worker's batch, once its first event is dealt with. */
  lemma NextKeeps(c: Settings, s: System, s': System, kind: Kind)
    requires StoreInv(c, s.st) && WorkerInv(c, s, kind) && Get(s, kind).batch != []
    requires Get(s', kind) == Next(Get(s, kind)) && s.now <= s'.now
    requires forall id :: id != Get(s, kind).batch[0].id ==> SameFor(s.st, s'.st, id)
    ensures WorkerInv(c, s', kind)
  {
    var w := Get(s, kind);
    forall i | 0 <= i < |w.batch[1..]| ensures Held(s', kind, w.batch[1..][i]) {
      assert w.batch[1..][i] == w.batch[i + 1];
      assert Held(s, kind, w.batch[0]) && Held(s, kind, w.batch[i + 1]);
      HeldApart(c, s, kind, w.batch[0], kind, w.batch[i + 1]);
      assert SameFor(s.st, s'.st, w.batch[i + 1].id);
    }
  }

  lemma OtherWorkersApart(c: Settings, s: System, kind: Kind, k: Kind)
    requires Inv(c, s) && Get(s, kind).batch != [] && k != kind
    ensures forall i :: 0 <= i < |Get(s, k).batch| ==> Get(s, k).batch[i].id != Get(s, kind).batch[0].id
  {
    assert WorkerInv(c, s, kind) && WorkerInv(c, s, k);
    forall i | 0 <= i < |Get(s, k).batch| ensures Get(s, k).batch[i].id != Get(s, kind).batch[0].id {
      assert Held(s, k, Get(s, k).batch[i]);
      HeldApart(c, s, k, Get(s, k).batch[i], kind, Get(s, kind).batch[0]);
    }
  }

  lemma CommitStepKeeps(c: Settings, s: System, kind: Kind, t: int)
    requires Inv(c, s) && Enabled(c, s, Commit(kind, t))
    ensures Inv(c, Apply(c, s, Commit(kind, t)))
    ensures forall id :: id != Get(s, kind).batch[0].id ==> SameFor(s.st, Apply(c, s, Commit(kind, t)).st, id)
  {
    var s' := Apply(c, s, Commit(kind, t));
    var w := Get(s, kind);
    assert WorkerInv(c, s, kind);
    CommitKeeps(c, s.st, kind, w.batch[0], w.phase.txn, w.phase.at, t);
    forall k ensures WorkerInv(c, s', k) {
      if k == kind {
        NextKeeps(c, s, s', kind);
      } else {
        OtherWorkersApart(c, s, kind, k);
        assert WorkerInv(c, s, k);
        OthersKeep(c, s, s', k, w.batch[0].id);
      }
    }
  }

  lemma AbandonKeeps(c: Settings, s: System, kind: Kind)
    requires Inv(c, s) && Enabled(c, s, Abandon(kind))
    ensures Inv(c, Apply(c, s, Abandon(kind)))
  {
    var s' := Apply(c, s, Abandon(kind));
    assert WorkerInv(c, s, kind);
    NextKeeps(c, s, s', kind);
    PhaseStepKeeps(c, s, s', kind);
  }

  /** No batch mentions an invoice that has no event. */
  lemma NoEventNotHeld(c: Settings, s: System, x: InvoiceId, k: Kind)
    requires WorkerInv(c, s, k) && forall o: nat :: !Owns(s.st, o, x)
    ensures forall i :: 0 <= i < |Get(s, k).batch| ==> Get(s, k).batch[i].id != x
  {
    forall i | 0 <= i < |Get(s, k).batch| ensures Get(s, k).batch[i].id != x {
      assert Held(s, k, Get(s, k).batch[i]);
    }
  }

  lemma ApiStepKeeps(c: Settings, s: System, s': System, x: InvoiceId)
    requires Inv(c, s) && StoreInv(c, s'.st) && s'.now == s.now
    requires forall k :: Get(s', k) == Get(s, k)
    requires forall o: nat :: !Owns(s.st, o, x)
    requires forall id :: id != x ==> SameFor(s.st, s'.st, id)
    ensures Inv(c, s')
  {
    forall k ensures WorkerInv(c, s', k) {
      assert WorkerInv(c, s, k);
      NoEventNotHeld(c, s, x, k);
      OthersKeep(c, s, s', k, x);
    }
  }

  lemma CreateStepKeeps(c: Settings, s: System, id: InvoiceId, payload: Json, t: int)
    requires Inv(c, s) && t > 0
    ensures Inv(c, AfterCreate(s, id, payload, t))
  {
    var ref := Ubl.CodeNumber(payload);
    if ref.Some? && CreatePending(s.st, id, ref.value, payload, t).Success? {
      CreateKeeps(c, s.st, id, ref.value, payload, t);
      assert LocalInv(c, s.st, id);
      ApiStepKeeps(c, s, AfterCreate(s, id, payload, t), id);
    }
  }

  /** An accepted request meets a Valid row that has no event yet. */
  lemma CancelStepKeeps(c: Settings, s: System, ref: string, body: Json, t: int)
    requires Inv(c, s) && t > 0
    ensures Inv(c, AfterRequestCancel(s, ref, body, t))
  {
    var reason := Ubl.RequiredText(body, "reason");
    if reason.Some? && RequestCancellation(s.st, ref, reason.value, t).Success? {
      var id := FindByRef(s.st, ref).value;
      EnqueueCancelKeeps(c, s.st, id, reason.value, t);
      AcceptedCancelHasNoEvent(c, s.st, id, t);
      ApiStepKeeps(c, s, AfterRequestCancel(s, ref, body, t), id);
    }
  }

  lemma ClockAndCrashKeep(c: Settings, s: System, step: Step)
    requires Inv(c, s) && (step.Crash? || step.Advance?)
    ensures Inv(c, Apply(c, s, step))
  {
    var s' := Apply(c, s, step);
    forall k ensures WorkerInv(c, s', k) {
      assert WorkerInv(c, s, k);
      if step.Advance? { WorkerFrame(c, s, s', k); }
    }
  }

  lemma StepKeepsInv(c: Settings, s: System, step: Step)
    requires SettingsOk(c) && Inv(c, s) && Enabled(c, s, step)
    ensures Inv(c, Apply(c, s, step))
  {
    match step
    case Create(id, payload, t) => CreateStepKeeps(c, s, id, payload, t);
    case RequestCancel(ref, body, t) => CancelStepKeeps(c, s, ref, body, t);
    case Fetch(kind, batch, t) => FetchKeeps(c, s, kind, batch, t);
    case Load(kind) => LoadKeeps(c, s, kind);
    case Dispatch(kind) => DispatchKeeps(c, s, kind);
    case Answer(kind, reply) => AnswerKeeps(c, s, kind, reply);
    case Reread(kind) => RereadKeeps(c, s, kind);
    case Commit(kind, t) => CommitStepKeeps(c, s, kind, t);
    case Abandon(kind) => AbandonKeeps(c, s, kind);
    case Crash => ClockAndCrashKeep(c, s, step);
    case Advance(_) => ClockAndCrashKeep(c, s, step);
  }

  /** In every state of every run. */
  lemma {:induction false} RunKeepsInv(c: Settings, run: seq<System>, i: nat)
    requires SettingsOk(c) && IsRun(c, run) && i < |run|
    ensures Inv(c, run[i])
  {
    if i == 0 {
      InitInv(c, run[0]);
    } else {
      RunKeepsInv(c, run, i - 1);
      assert StepAt(c, run, i - 1);
      var step :| Enabled(c, run[i - 1], step) && run[i] == Apply(c, run[i - 1], step);
      StepKeepsInv(c, run[i - 1], step);
    }
  }
}
