/**
 What becomes of what LHDN says, over whole runs. Every final answer heard about
 an invoice has been committed, is being carried by the worker that heard it, or
 was dropped by a crash or a failed database operation; committed ones show in the
 row for ever. The dropped ones are the only way an answer can be lost, and they
 can be: see Mishaps.
 */
module Fates {
  import opened Wrappers
  import opened Lhdn
  import opened Outbox
  import opened Decisions
  import opened Invariant
  import opened Protocol
  import opened ProtocolInvariant
  import opened Lifecycle
  import Ubl

  /** What LHDN can tell about an invoice that ends a phase of its life. */
  datatype Matter = Taken | TurnedDown | FoundValid | FoundInvalid | CancelSeen | CancelAgreed

  function KindOf(m: Matter): Kind {
    match m
    case Taken => Submit
    case TurnedDown => Submit
    case CancelAgreed => Cancel
    case _ => Poll
  }

  predicate TurnsDown(rejected: seq<RejectedDocument>, ref: string) {
    exists x :: x in rejected && x.codeNumber == ref
  }

  /** `reply` says `m` of the invoice with this reference. */
  predicate Says(reply: Reply, ref: string, m: Matter) {
    match m
    case Taken => reply.Submission? && !TurnsDown(reply.rejected, ref)
    case TurnedDown => reply.Submission? && TurnsDown(reply.rejected, ref)
    case FoundValid => reply.Details? && reply.details.status == NowValid
    case FoundInvalid => reply.Details? && reply.details.status == NowInvalid
    case CancelSeen => reply.Details? && reply.details.status == NowCancelled
    case CancelAgreed => reply == CancelOk
  }

  /** What a transaction writes down. */
  function About(txn: Txn): Option<Matter> {
    match txn
    case CompleteSubmission(_, _, _, _, _, _, _) => Some(Taken)
    case FailPermanently(_, _, _, error) => if error.DocumentRejected? then Some(TurnedDown) else None
    case MarkValid(_, _, _, _, _, _) => Some(FoundValid)
    case MarkInvalid(_, _, error) => if error.ValidationFailed? then Some(FoundInvalid) else None
    case MarkCancelledViaPoll(_, _, _) => Some(CancelSeen)
    case CompleteCancel(_, _, _) => Some(CancelAgreed)
    case _ => None
  }

  /** How the row shows it. */
  predicate Shows(row: Invoice, m: Matter) {
    match m
    case Taken => EverSubmitted(row)
    case TurnedDown => row.status == Failed
    case FoundValid => row.validatedAt.Some?
    case FoundInvalid => row.status == Invalid
    case _ => row.status == Cancelled
  }

  predicate Told(heard: set<Reply>, ref: string, m: Matter) {
    exists reply :: reply in heard && Says(reply, ref, m)
  }

  predicate Among(txns: set<Txn>, m: Matter) {
    exists txn :: txn in txns && About(txn) == Some(m)
  }

  /** The worker has heard `m` about `id` and not yet committed it. */
  predicate Carried(s: System, id: InvoiceId, m: Matter) {
    CarriedBy(Get(s, KindOf(m)), id, m)
  }

  predicate CarriedBy(w: WorkerState, id: InvoiceId, m: Matter) {
    Carrying(w).Some? && w.batch[0].id == id && About(Carrying(w).value) == Some(m)
  }

  predicate Settled(s: System, id: InvoiceId, m: Matter) {
    Among(Txns(s.h.settled, id), m)
  }

  predicate Lost(s: System, id: InvoiceId, m: Matter) {
    Among(Txns(s.h.dropped, id), m)
  }

  // ----- The invariant -------------------------------------------------------

  ghost predicate FateOk(s: System, id: InvoiceId, m: Matter) {
    if id !in s.st.invoices then
      Heard(s.h, id) == {} && Txns(s.h.settled, id) == {} && Txns(s.h.dropped, id) == {}
    else
      && (Told(Heard(s.h, id), s.st.invoices[id].ref, m) <==> Settled(s, id, m) || Carried(s, id, m) || Lost(s, id, m))
      && (Settled(s, id, m) ==> Shows(s.st.invoices[id], m))
      && (Lost(s, id, m) && KindOf(m) == Submit ==> Count(s.h.interrupted, id) > 0)
  }

  /** Nothing LHDN said is carried by a submitter that did not call it. */
  ghost predicate CarriedAfterCall(s: System) {
    forall m :: Carrying(s.submitter).Some? && About(Carrying(s.submitter).value) == Some(m) ==> Called(s.submitter)
  }

  ghost predicate FatesOk(s: System) {
    (forall id, m :: FateOk(s, id, m)) && CarriedAfterCall(s)
  }

  // ----- Framing -------------------------------------------------------------

  lemma ShowsStays(row: Invoice, row': Invoice, m: Matter)
    requires Shows(row, m) && Progress(row, row')
    ensures Shows(row', m)
  {
  }

  /** A step that records and settles nothing about `id`. */
  lemma FateFrame(s: System, s': System, id: InvoiceId, m: Matter)
    requires FateOk(s, id, m) && id in s.st.invoices && id in s'.st.invoices
    requires Progress(s.st.invoices[id], s'.st.invoices[id])
    requires Heard(s'.h, id) == Heard(s.h, id) && Txns(s'.h.settled, id) == Txns(s.h.settled, id)
    requires Txns(s'.h.dropped, id) == Txns(s.h.dropped, id)
    requires Count(s'.h.interrupted, id) >= Count(s.h.interrupted, id)
    requires Carried(s', id, m) <==> Carried(s, id, m)
    ensures FateOk(s', id, m)
  {
    if Settled(s, id, m) { ShowsStays(s.st.invoices[id], s'.st.invoices[id], m); }
  }

  /** A worker carries only what its kind of call can tell. */
  lemma CarriedKind(c: Settings, s: System, kind: Kind, m: Matter)
    requires Inv(c, s) && Carrying(Get(s, kind)).Some? && About(Carrying(Get(s, kind)).value) == Some(m)
    ensures KindOf(m) == kind && Get(s, kind).batch[0].id in s.st.invoices
  {
    assert WorkerInv(c, s, kind) && Held(s, kind, Get(s, kind).batch[0]);
  }

  /** The row of an answer being carried is still waiting for it. */
  lemma CarriedRow(c: Settings, s: System, id: InvoiceId, m: Matter)
    requires Inv(c, s) && id in s.st.invoices
    ensures Carried(s, id, m) ==>
              && HasEvent(s.st, id, KindOf(m))
              && s.st.invoices[id].status == match KindOf(m)
                   case Submit => Pending case Poll => Submitted case Cancel => Valid
  {
    if Carried(s, id, m) {
      assert WorkerInv(c, s, KindOf(m)) && Held(s, KindOf(m), Get(s, KindOf(m)).batch[0]);
      assert LocalInv(c, s.st, id);
    }
  }

  // ----- The steps -----------------------------------------------------------

  ghost predicate SameCarried(w: WorkerState, w': WorkerState) {
    forall id, m :: CarriedBy(w', id, m) <==> CarriedBy(w, id, m)
  }

  /** Steps that record no answer, no commit and no loss. */
  lemma QuietFates(c: Settings, s: System, s': System)
    requires FatesOk(s)
    requires s'.st == s.st && s'.h == s.h.(submitCalls := s'.h.submitCalls)
    requires forall k :: SameCarried(Get(s, k), Get(s', k))
    requires CarriedAfterCall(s')
    ensures FatesOk(s')
  {
    forall id, m ensures FateOk(s', id, m) {
      assert FateOk(s, id, m);
      assert SameCarried(Get(s, KindOf(m)), Get(s', KindOf(m)));
    }
  }

  lemma FetchFates(c: Settings, s: System, step: Step)
    requires FatesOk(s) && Enabled(c, s, step) && (step.Fetch? || step.Load? || step.Advance?)
    ensures FatesOk(Apply(c, s, step))
  {
    var s' := Apply(c, s, step);
    if step.Advance? {
      forall id, m ensures FateOk(s', id, m) { assert FateOk(s, id, m); }
    } else {
      QuietFates(c, s, s');
    }
  }

  lemma DispatchFates(c: Settings, s: System, kind: Kind)
    requires FatesOk(s) && Enabled(c, s, Dispatch(kind))
    ensures FatesOk(Apply(c, s, Dispatch(kind)))
  {
    DispatchRecords(c, s, kind);
    QuietFates(c, s, Apply(c, s, Dispatch(kind)));
  }

  lemma RereadFates(c: Settings, s: System, kind: Kind)
    requires FatesOk(s) && Enabled(c, s, Reread(kind))
    ensures FatesOk(Apply(c, s, Reread(kind)))
  {
    QuietFates(c, s, Apply(c, s, Reread(kind)));
  }

  lemma ApiFates(c: Settings, s: System, step: Step)
    requires SettingsOk(c) && Inv(c, s) && FatesOk(s) && Enabled(c, s, step) && (step.Create? || step.RequestCancel?)
    ensures FatesOk(Apply(c, s, step))
  {
    var s' := Apply(c, s, step);
    ApiRecords(c, s, step);
    forall id, m ensures FateOk(s', id, m) {
      assert FateOk(s, id, m);
      if id in s.st.invoices {
        StepMakesProgress(c, s, step, id);
        FateFrame(s, s', id, m);
      } else if Carried(s, id, m) {
        CarriedKind(c, s, KindOf(m), m);
      }
    }
  }

  // ----- An answer -----------------------------------------------------------

  function VerdictTxn(c: Settings, kind: Kind, due: Due, row: Invoice, builtAt: int, reply: Reply, now: int): Txn
    requires Answers(kind, reply) && (kind == Submit ==> c.build(row.payload, builtAt).Success?)
  {
    match VerdictFor(c, kind, due, row, builtAt, reply, now)
    case Settled(txn) => txn
    case ReadAgain(e) => RejectionTxn(due, Some(row), e)
  }

  /** What is decided on an answer writes down exactly what the answer says. */
  lemma VerdictWritesWhatIsSaid(c: Settings, kind: Kind, due: Due, row: Invoice, builtAt: int, reply: Reply, now: int,
                                m: Matter)
    requires SettingsOk(c) && Answers(kind, reply) && Ubl.CodeNumber(row.payload) == Some(row.ref)
    requires kind == Submit ==> c.build(row.payload, builtAt).Success?
    ensures About(VerdictTxn(c, kind, due, row, builtAt, reply, now)) == Some(m) <==> Says(reply, row.ref, m)
    ensures Says(reply, row.ref, m) ==> KindOf(m) == kind
  {
    if kind == Submit {
      assert match c.build(row.payload, builtAt)
             case Success(d) => Ubl.CodeNumber(row.payload) == Some(d.codeNumber)
             case Failure(_) => true;
    }
  }

  lemma AnswerCarries(c: Settings, s: System, kind: Kind, reply: Reply)
    requires Enabled(c, s, Answer(kind, reply))
    ensures var w, s' := Get(s, kind), Apply(c, s, Answer(kind, reply));
            && s'.st == s.st && s'.now == s.now
            && Get(s', kind).batch == w.batch
            && Carrying(w) == None
            && Carrying(Get(s', kind))
               == Some(VerdictTxn(c, kind, w.batch[0], w.phase.row, w.phase.builtAt, reply, s.now))
            && (kind == Submit ==> Called(s'.submitter))
            && forall k :: k != kind ==> Get(s', k) == Get(s, k)
  {
  }

  lemma HearFate(s: System, s': System, id: InvoiceId, m: Matter, reply: Reply)
    requires FateOk(s, id, m) && id in s.st.invoices && s'.st == s.st && s'.h == Hear(s.h, id, reply)
    requires Carried(s', id, m) <==> Carried(s, id, m) || Says(reply, s.st.invoices[id].ref, m)
    ensures FateOk(s', id, m)
  {
    var ref := s.st.invoices[id].ref;
    assert Told(Heard(s'.h, id), ref, m) <==> Told(Heard(s.h, id), ref, m) || Says(reply, ref, m);
  }

  lemma AnswerFate(c: Settings, s: System, kind: Kind, reply: Reply, m: Matter)
    requires SettingsOk(c) && Inv(c, s) && Enabled(c, s, Answer(kind, reply))
    requires FateOk(s, Get(s, kind).batch[0].id, m)
    ensures FateOk(Apply(c, s, Answer(kind, reply)), Get(s, kind).batch[0].id, m)
  {
    var w, s' := Get(s, kind), Apply(c, s, Answer(kind, reply));
    assert WorkerInv(c, s, kind) && Held(s, kind, w.batch[0]);
    assert LocalInv(c, s.st, w.batch[0].id);
    AnswerRecords(c, s, kind, reply);
    AnswerCarries(c, s, kind, reply);
    VerdictWritesWhatIsSaid(c, kind, w.batch[0], w.phase.row, w.phase.builtAt, reply, s.now, m);
    HearFate(s, s', w.batch[0].id, m, reply);
  }

  lemma AnswerFates(c: Settings, s: System, kind: Kind, reply: Reply)
    requires SettingsOk(c) && Inv(c, s) && FatesOk(s) && Enabled(c, s, Answer(kind, reply))
    ensures FatesOk(Apply(c, s, Answer(kind, reply)))
  {
    var s' := Apply(c, s, Answer(kind, reply));
    AnswerRecords(c, s, kind, reply);
    AnswerCarries(c, s, kind, reply);
    forall id, m ensures FateOk(s', id, m) {
      assert FateOk(s, id, m);
      if id == Get(s, kind).batch[0].id { AnswerFate(c, s, kind, reply, m); }
    }
  }

  // ----- A commit ------------------------------------------------------------

  lemma AmongAdded(txns: set<Txn>, txn: Txn, m: Matter)
    ensures Among(txns + {txn}, m) <==> Among(txns, m) || About(txn) == Some(m)
  {
    if About(txn) == Some(m) { assert txn in txns + {txn}; }
    if Among(txns, m) {
      var past :| past in txns && About(past) == Some(m);
      assert past in txns + {txn};
    }
  }

  lemma CommitShows(c: Settings, due: Due, row: Invoice, ev: Event, txn: Txn, at: int, now: int, m: Matter)
    requires RowOk(c, row) && EventOk(c, row, ev) && TxnFits(c, due, row, ev, txn, at) && About(txn) == Some(m)
    ensures Shows(RowAfter(row, txn, now), m)
  {
  }

  lemma CommitCarries(c: Settings, s: System, kind: Kind, t: int)
    requires Enabled(c, s, Commit(kind, t))
    ensures var w, s' := Get(s, kind), Apply(c, s, Commit(kind, t));
            && Carrying(w) == Some(w.phase.txn) && Carrying(Get(s', kind)) == None
            && forall k :: k != kind ==> Get(s', k) == Get(s, k)
  {
  }

  /** Whatever is settled was carried, and shows. */
  lemma SettleFate(s: System, s': System, id: InvoiceId, m: Matter, txn: Txn)
    requires FateOk(s, id, m) && id in s.st.invoices && id in s'.st.invoices
    requires Progress(s.st.invoices[id], s'.st.invoices[id])
    requires s'.h == s.h.(handled := s'.h.handled, settled := Note(s.h.settled, id, txn),
                          completed := s'.h.completed, refused := s'.h.refused)
    requires About(txn) == Some(m) ==> Carried(s, id, m) && Shows(s'.st.invoices[id], m)
    requires Carried(s', id, m) <==> Carried(s, id, m) && About(txn) != Some(m)
    ensures FateOk(s', id, m)
  {
    AmongAdded(Txns(s.h.settled, id), txn, m);
    if Settled(s, id, m) { ShowsStays(s.st.invoices[id], s'.st.invoices[id], m); }
  }

  lemma CommitMovesOn(c: Settings, s: System, kind: Kind, t: int, m: Matter)
    requires Inv(c, s) && Enabled(c, s, Commit(kind, t))
    ensures var w, s' := Get(s, kind), Apply(c, s, Commit(kind, t));
            && (About(w.phase.txn) == Some(m) ==> Carried(s, w.batch[0].id, m))
            && (Carried(s', w.batch[0].id, m) <==> Carried(s, w.batch[0].id, m) && About(w.phase.txn) != Some(m))
  {
    var w := Get(s, kind);
    CommitCarries(c, s, kind, t);
    if About(w.phase.txn) == Some(m) { CarriedKind(c, s, kind, m); }
  }

  lemma CommitFate(c: Settings, s: System, kind: Kind, t: int, m: Matter)
    requires SettingsOk(c) && Inv(c, s) && Enabled(c, s, Commit(kind, t)) && FateOk(s, Get(s, kind).batch[0].id, m)
    ensures FateOk(Apply(c, s, Commit(kind, t)), Get(s, kind).batch[0].id, m)
  {
    var w, s' := Get(s, kind), Apply(c, s, Commit(kind, t));
    var x := w.batch[0].id;
    CommitRecords(c, s, kind, t);
    CommittedRow(c, s, kind, t);
    CommitMakesProgress(c, s, kind, t, x);
    CommitMovesOn(c, s, kind, t, m);
    if About(w.phase.txn) == Some(m) {
      CommitShows(c, w.batch[0], s.st.invoices[x], s.st.outbox[w.batch[0].o], w.phase.txn, w.phase.at, t, m);
    }
    SettleFate(s, s', x, m, w.phase.txn);
  }

  lemma CommitFates(c: Settings, s: System, kind: Kind, t: int)
    requires SettingsOk(c) && Inv(c, s) && FatesOk(s) && Enabled(c, s, Commit(kind, t))
    ensures FatesOk(Apply(c, s, Commit(kind, t)))
  {
    var s' := Apply(c, s, Commit(kind, t));
    CommitRecords(c, s, kind, t);
    CommitCarries(c, s, kind, t);
    CommittedRow(c, s, kind, t);
    forall id, m ensures FateOk(s', id, m) {
      assert FateOk(s, id, m);
      if id == Get(s, kind).batch[0].id { CommitFate(c, s, kind, t, m); }
    }
  }

  // ----- A loss --------------------------------------------------------------

  /** Dropping worker `w` adds to the dropped what it carried, and nothing else. */
  lemma DroppedAdds(m0: map<InvoiceId, set<Txn>>, w: WorkerState, id: InvoiceId, m: Matter)
    ensures Among(Txns(Dropped(m0, w), id), m) <==> Among(Txns(m0, id), m) || CarriedBy(w, id, m)
  {
    if Carrying(w).Some? { AmongAdded(Txns(m0, w.batch[0].id), Carrying(w).value, m); }
  }

  lemma LossFate(c: Settings, s: System, s': System, id: InvoiceId, m: Matter, lost: bool)
    requires Inv(c, s) && FateOk(s, id, m) && CarriedAfterCall(s)
    requires s'.st == s.st && s'.h == s.h.(interrupted := s'.h.interrupted, dropped := s'.h.dropped)
    requires Lost(s', id, m) <==> Lost(s, id, m) || (lost && Carried(s, id, m))
    requires Carried(s', id, m) <==> !lost && Carried(s, id, m)
    requires id !in s.st.invoices ==> Txns(s'.h.dropped, id) == Txns(s.h.dropped, id)
    requires if lost && KindOf(m) == Submit then s'.h.interrupted == Interrupted(s.h, s.submitter)
             else Count(s'.h.interrupted, id) >= Count(s.h.interrupted, id)
    ensures FateOk(s', id, m)
  {
  }

  lemma UnknownNotCarried(c: Settings, s: System, kind: Kind, id: InvoiceId)
    requires Inv(c, s) && id !in s.st.invoices
    ensures Txns(Dropped(s.h.dropped, Get(s, kind)), id) == Txns(s.h.dropped, id)
    ensures Get(s, kind).batch != [] ==> Get(s, kind).batch[0].id != id
  {
    assert WorkerInv(c, s, kind);
    if Get(s, kind).batch != [] { assert Held(s, kind, Get(s, kind).batch[0]); }
  }

  lemma AbandonFates(c: Settings, s: System, kind: Kind)
    requires Inv(c, s) && FatesOk(s) && Enabled(c, s, Abandon(kind))
    ensures FatesOk(Apply(c, s, Abandon(kind)))
  {
    var s' := Apply(c, s, Abandon(kind));
    forall id, m ensures FateOk(s', id, m) {
      assert FateOk(s, id, m);
      DroppedAdds(s.h.dropped, Get(s, kind), id, m);
      if CarriedBy(Get(s, kind), id, m) { CarriedKind(c, s, kind, m); }
      if id !in s.st.invoices { UnknownNotCarried(c, s, kind, id); }
      LossFate(c, s, s', id, m, KindOf(m) == kind);
    }
  }

  lemma CrashFates(c: Settings, s: System)
    requires Inv(c, s) && FatesOk(s)
    ensures FatesOk(Apply(c, s, Crash))
  {
    var s' := Apply(c, s, Crash);
    var d1 := Dropped(s.h.dropped, s.submitter);
    var d2 := Dropped(d1, s.poller);
    forall id, m ensures FateOk(s', id, m) {
      assert FateOk(s, id, m);
      DroppedAdds(s.h.dropped, s.submitter, id, m);
      DroppedAdds(d1, s.poller, id, m);
      DroppedAdds(d2, s.canceller, id, m);
      forall k | CarriedBy(Get(s, k), id, m) ensures k == KindOf(m) { CarriedKind(c, s, k, m); }
      assert s.submitter == Get(s, Submit) && s.poller == Get(s, Poll) && s.canceller == Get(s, Cancel);
      if id !in s.st.invoices {
        forall k ensures Get(s, k).batch != [] ==> Get(s, k).batch[0].id != id { UnknownNotCarried(c, s, k, id); } }
      LossFate(c, s, s', id, m, true);
    }
  }

  // ----- Over whole runs -----------------------------------------------------

  lemma StepKeepsFates(c: Settings, s: System, step: Step)
    requires SettingsOk(c) && Inv(c, s) && FatesOk(s) && Enabled(c, s, step)
    ensures FatesOk(Apply(c, s, step))
  {
    match step
    case Create(_, _, _) => ApiFates(c, s, step);
    case RequestCancel(_, _, _) => ApiFates(c, s, step);
    case Fetch(_, _, _) => FetchFates(c, s, step);
    case Load(_) => FetchFates(c, s, step);
    case Advance(_) => FetchFates(c, s, step);
    case Dispatch(kind) => DispatchFates(c, s, kind);
    case Answer(kind, reply) => AnswerFates(c, s, kind, reply);
    case Reread(kind) => RereadFates(c, s, kind);
    case Commit(kind, t) => CommitFates(c, s, kind, t);
    case Abandon(kind) => AbandonFates(c, s, kind);
    case Crash => CrashFates(c, s);
  }

  lemma {:induction false} RunKeepsFates(c: Settings, run: seq<System>, i: nat)
    requires SettingsOk(c) && IsRun(c, run) && i < |run|
    ensures FatesOk(run[i])
  {
    if i > 0 {
      RunKeepsFates(c, run, i - 1);
      RunKeepsInv(c, run, i - 1);
      assert StepAt(c, run, i - 1);
      var step :| Enabled(c, run[i - 1], step) && run[i] == Apply(c, run[i - 1], step);
      StepKeepsFates(c, run[i - 1], step);
    }
  }

  /** Whatever LHDN has said about an invoice was committed and shows in its row,
      is on its way there, or was dropped; and nothing else was. */
  lemma AnswersAccounted(c: Settings, run: seq<System>, i: nat, id: InvoiceId, m: Matter)
    requires SettingsOk(c) && IsRun(c, run) && i < |run| && id in run[i].st.invoices
    ensures var s := run[i];
            && (Told(Heard(s.h, id), s.st.invoices[id].ref, m)
                <==> Settled(s, id, m) || Carried(s, id, m) || Lost(s, id, m))
            && (Settled(s, id, m) ==> Shows(s.st.invoices[id], m))
            && (Lost(s, id, m) && KindOf(m) == Submit ==> Count(s.h.interrupted, id) > 0)
  {
    RunKeepsFates(c, run, i);
    assert FateOk(run[i], id, m);
  }

  /** The exact condition for an answer to be missing from the tables. */
  lemma MissingIffLost(c: Settings, run: seq<System>, i: nat, id: InvoiceId, m: Matter)
    requires SettingsOk(c) && IsRun(c, run) && i < |run| && id in run[i].st.invoices
    requires !Shows(run[i].st.invoices[id], m) && !Carried(run[i], id, m)
    ensures Told(Heard(run[i].h, id), run[i].st.invoices[id].ref, m) <==> Lost(run[i], id, m)
  {
    AnswersAccounted(c, run, i, id, m);
  }

  /** A Failed row was taken by LHDN exactly when a pass that carried the
      acceptance was lost. */
  lemma FailedThoughTakenIff(c: Settings, run: seq<System>, i: nat, id: InvoiceId)
    requires SettingsOk(c) && IsRun(c, run) && i < |run| && id in run[i].st.invoices
    requires run[i].st.invoices[id].status == Failed
    ensures Told(Heard(run[i].h, id), run[i].st.invoices[id].ref, Taken) <==> Lost(run[i], id, Taken)
    ensures Told(Heard(run[i].h, id), run[i].st.invoices[id].ref, Taken) ==> Count(run[i].h.interrupted, id) > 0
  {
    AnswersAccounted(c, run, i, id, Taken);
    RunKeepsInv(c, run, i);
    CarriedRow(c, run[i], id, Taken);
  }

  /** A row without an event that is not Cancelled was agreed to be cancelled
      exactly when a pass that carried the agreement was lost. */
  lemma NotCancelledThoughAgreedIff(c: Settings, run: seq<System>, i: nat, id: InvoiceId)
    requires SettingsOk(c) && IsRun(c, run) && i < |run| && id in run[i].st.invoices
    requires run[i].st.invoices[id].status != Status.Cancelled && NoEvent(run[i].st, id)
    ensures CancelOk in Heard(run[i].h, id) <==> Lost(run[i], id, CancelAgreed)
  {
    AnswersAccounted(c, run, i, id, CancelAgreed);
    RunKeepsInv(c, run, i);
    CarriedRow(c, run[i], id, CancelAgreed);
    assert CancelOk in Heard(run[i].h, id) ==> Says(CancelOk, run[i].st.invoices[id].ref, CancelAgreed);
  }

  /** Answers are dropped only by a crash or a failed database operation, while
      the worker that heard them carries them. */
  lemma DroppedBy(c: Settings, s: System, step: Step, id: InvoiceId, m: Matter)
    requires Inv(c, s) && Enabled(c, s, step) && !Lost(s, id, m)
    ensures Lost(Apply(c, s, step), id, m)
       <==> Carried(s, id, m) && (step.Crash? || step == Abandon(KindOf(m)))
  {
    match step
    case Abandon(kind) =>
      DroppedAdds(s.h.dropped, Get(s, kind), id, m);
      if CarriedBy(Get(s, kind), id, m) { CarriedKind(c, s, kind, m); }
    case Crash =>
      var d1 := Dropped(s.h.dropped, s.submitter);
      DroppedAdds(s.h.dropped, s.submitter, id, m);
      DroppedAdds(d1, s.poller, id, m);
      DroppedAdds(Dropped(d1, s.poller), s.canceller, id, m);
      forall k | CarriedBy(Get(s, k), id, m) ensures k == KindOf(m) { CarriedKind(c, s, k, m); }
      assert s.submitter == Get(s, Submit) && s.poller == Get(s, Poll) && s.canceller == Get(s, Cancel);
    case Commit(kind, t) => CommitRecords(c, s, kind, t);
    case Answer(kind, reply) => AnswerRecords(c, s, kind, reply);
    case Create(_, _, _) => ApiRecords(c, s, step);
    case RequestCancel(_, _, _) => ApiRecords(c, s, step);
    case _ =>
  }
}
