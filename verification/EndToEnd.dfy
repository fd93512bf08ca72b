/**
 The protocol with the real document builder plugged in, and the two descriptions
 of a worker - interleaved steps and one whole pass - tied together.
 */
module EndToEnd {
  import opened Wrappers
  import opened Json
  import opened Outbox
  import opened Decisions
  import opened Invariant
  import opened InvariantProofs
  import opened Protocol
  import opened ProtocolInvariant
  import Ubl
  import Recovery
  import Contents
  import JsonParser

  // ----- Stored documents ----------------------------------------------------

  /** The settings build documents as ubl.rs does, with this signer. */
  ghost predicate BuildsUbl(c: Settings, signer: Ubl.Signer) {
    forall p, t :: c.build(p, t) == Ubl.BuildSignedDocument(p, signer, t)
  }

  lemma UblSettingsOk(c: Settings, signer: Ubl.Signer)
    requires BuildsUbl(c, signer)
    ensures SettingsOk(c)
  {
    forall p, t
      ensures match c.build(p, t)
              case Success(d) => Ubl.CodeNumber(p) == Some(d.codeNumber)
              case Failure(e) => e == Ubl.MissingInvoiceRef <==> Ubl.CodeNumber(p) == None
    {
      Recovery.BuildResult(p, signer, t);
    }
  }

  /** In every reachable state, every document the tables hold is evidence for
      itself: the text that was signed can be recovered from it, is the canonical
      invoice of that row's payload and reference, and the stored and the embedded
      signature are both its signature. */
  lemma StoredDocumentsVerify(c: Settings, signer: Ubl.Signer, run: seq<System>, i: nat, id: InvoiceId)
    requires BuildsUbl(c, signer) && IsRun(c, run) && i < |run| && id in run[i].st.invoices
    requires EverSubmitted(run[i].st.invoices[id])
    ensures var row := run[i].st.invoices[id];
            && row.document.Some?
            && Recovery.SelfVerifying(row.document.value, signer)
            && Recovery.RecoverSignedPayload(row.document.value)
               == Some(Canonicalize(Ubl.UnsignedInvoice(row.payload, row.ref)))
            && row.signature == Some(signer.sign(Canonicalize(Ubl.UnsignedInvoice(row.payload, row.ref))))
            && row.digest == Some(signer.hash(row.document.value))
  {
    UblSettingsOk(c, signer);
    RunKeepsInv(c, run, i);
    assert LocalInv(c, run[i].st, id);
    var row := run[i].st.invoices[id];
    var t :| Signed(c, row.payload, t, row.signature.value, row.document.value, row.digest.value);
    assert c.build(row.payload, t) == Ubl.BuildSignedDocument(row.payload, signer, t);
    Recovery.BuildResult(row.payload, signer, t);
    Recovery.SignedPayloadIsRecoverable(row.payload, signer, t);
    Recovery.SignedDocumentVerifiesItself(row.payload, signer, t);
  }

  /** And it says what its row's payload says, the stored signature in its place. */
  lemma StoredDocumentsSay(c: Settings, signer: Ubl.Signer, run: seq<System>, i: nat, id: InvoiceId)
    requires BuildsUbl(c, signer) && IsRun(c, run) && i < |run| && id in run[i].st.invoices
    requires EverSubmitted(run[i].st.invoices[id])
    ensures var row := run[i].st.invoices[id];
            && row.document.Some? && row.signature.Some?
            && exists time ::
                 JsonParser.ParseDocument(row.document.value)
                 == Some(Contents.SignedText(
                           row.ref, Contents.StringOr(row.payload, "issue_date", ""),
                           Contents.StringOr(row.payload, "issue_time", ""),
                           Contents.StringOr(row.payload, "currency", "MYR"),
                           Contents.ExtensionsText(row.signature.value, signer.certDigest, signer.certB64, time)))
  {
    UblSettingsOk(c, signer);
    RunKeepsInv(c, run, i);
    assert LocalInv(c, run[i].st, id);
    var row := run[i].st.invoices[id];
    var t :| Signed(c, row.payload, t, row.signature.value, row.document.value, row.digest.value);
    assert c.build(row.payload, t) == Ubl.BuildSignedDocument(row.payload, signer, t);
    Contents.SubmittedTextSays(row.payload, signer, t);
    Recovery.BuildResult(row.payload, signer, t);
  }

  // ----- Steps and passes ----------------------------------------------------

  ghost predicate Path(c: Settings, s: System, steps: seq<Step>, s': System)
    decreases |steps|
  {
    if steps == [] then s == s'
    else Enabled(c, s, steps[0]) && Path(c, Apply(c, s, steps[0]), steps[1..], s')
  }

  lemma Extend(c: Settings, s: System, steps: seq<Step>, mid: System, step: Step)
    requires Path(c, s, steps, mid) && Enabled(c, mid, step)
    ensures Path(c, s, steps + [step], Apply(c, mid, step))
    decreases |steps|
  {
    if steps == [] {
      assert ([step])[1..] == [];
    } else {
      Extend(c, Apply(c, s, steps[0]), steps[1..], mid, step);
      assert (steps + [step])[1..] == steps[1..] + [step];
    }
  }

  /** The clock moves on to `t`. */
  lemma Until(c: Settings, s: System, steps: seq<Step>, mid: System, t: int) returns (steps': seq<Step>, s': System)
    requires Path(c, s, steps, mid) && mid.now <= t
    ensures Path(c, s, steps', s') && s' == mid.(now := t)
  {
    Extend(c, s, steps, mid, Advance(t - mid.now));
    steps', s' := steps + [Advance(t - mid.now)], mid.(now := t);
  }

  /** The pass ends here, with nothing written. */
  lemma GiveUp(c: Settings, s: System, steps: seq<Step>, mid: System, kind: Kind)
    returns (steps': seq<Step>, s': System)
    requires Path(c, s, steps, mid) && Enabled(c, mid, Abandon(kind))
    ensures Path(c, s, steps', s') && s'.st == mid.st && Get(s', kind) == Next(Get(mid, kind))
  {
    Extend(c, s, steps, mid, Abandon(kind));
    steps', s' := steps + [Abandon(kind)], Apply(c, mid, Abandon(kind));
  }

  /** From Ready, the commit at `t` succeeds or fails, and the worker moves on. */
  lemma Finish(c: Settings, s: System, steps: seq<Step>, mid: System, kind: Kind, ok: bool, t: int)
    returns (steps': seq<Step>, s': System)
    requires Path(c, s, steps, mid) && Get(mid, kind).batch != [] && Get(mid, kind).phase.Ready?
    requires Get(mid, kind).phase.at <= mid.now <= t
    ensures Path(c, s, steps', s') && Get(s', kind) == Next(Get(mid, kind))
    ensures s'.st == ExecIf(ok, mid.st, Get(mid, kind).phase.txn, t)
  {
    if ok {
      steps', s' := Until(c, s, steps, mid, t);
      Extend(c, s, steps', s', Commit(kind, t));
      steps', s' := steps' + [Commit(kind, t)], Apply(c, s', Commit(kind, t));
    } else {
      steps', s' := GiveUp(c, s, steps, mid, kind);
    }
  }

  /** The clock reads of a pass come in this order. */
  predicate InOrder(now: int, w: World) {
    now <= w.plannedAt <= w.repliedAt <= w.committedAt
  }

  /** From the call to the end of the pass. */
  lemma AfterCall(c: Settings, s: System, before: seq<Step>, mid: System, kind: Kind, w: World)
    returns (steps: seq<Step>, s': System)
    requires SettingsOk(c) && Inv(c, mid) && Answers(kind, w.reply) && Path(c, s, before, mid)
    requires Get(mid, kind).batch != [] && Get(mid, kind).phase.InFlight?
    requires Get(mid, kind).phase.builtAt == mid.now == w.plannedAt && InOrder(mid.now, w)
    ensures Path(c, s, steps, s') && Get(s', kind) == Next(Get(mid, kind))
    ensures var due, row := Get(mid, kind).batch[0], Get(mid, kind).phase.row;
            CallJustified(c, kind, row, w.plannedAt) &&
            s'.st == match VerdictFor(c, kind, due, row, w.plannedAt, w.reply, w.repliedAt)
                     case Settled(txn) => ExecIf(w.commitOk, mid.st, txn, w.committedAt)
                     case ReadAgain(e) =>
                       if w.rereadOk then ExecIf(w.commitOk, mid.st, RejectionTxn(due, Some(row), e), w.committedAt)
                       else mid.st
  {
    assert WorkerInv(c, mid, kind) && Held(mid, kind, Get(mid, kind).batch[0]);
    steps, s' := Until(c, s, before, mid, w.repliedAt);
    Extend(c, s, steps, s', Answer(kind, w.reply));
    steps, s' := steps + [Answer(kind, w.reply)], Apply(c, s', Answer(kind, w.reply));
    if Get(s', kind).phase.Rejected? && !w.rereadOk {
      steps, s' := GiveUp(c, s, steps, s', kind);
    } else {
      if Get(s', kind).phase.Rejected? {
        Extend(c, s, steps, s', Reread(kind));
        steps, s' := steps + [Reread(kind)], Apply(c, s', Reread(kind));
      }
      steps, s' := Finish(c, s, steps, s', kind, w.commitOk, w.committedAt);
    }
  }

  /** The load and the decision whether to call. */
  lemma UpToPlan(c: Settings, s: System, kind: Kind, t: int) returns (steps: seq<Step>, s': System)
    requires SettingsOk(c) && Inv(c, s) && Get(s, kind).batch != [] && Get(s, kind).phase.Fetched? && s.now <= t
    ensures Path(c, s, steps, s') && Inv(c, s') && s'.st == s.st && s'.now == t
    ensures Get(s', kind).batch == Get(s, kind).batch
    ensures var due := Get(s, kind).batch[0];
            due.id in s.st.invoices &&
            match PlanFor(c, kind, due, Some(s.st.invoices[due.id]), t)
            case Settle(txn) => Get(s', kind).phase == Phase.Ready(txn, t, false)
            case CallLhdn => Get(s', kind).phase == InFlight(s.st.invoices[due.id], t)
  {
    assert WorkerInv(c, s, kind) && Held(s, kind, Get(s, kind).batch[0]);
    Extend(c, s, [], s, Load(kind));
    StepKeepsInv(c, s, Load(kind));
    steps, s' := Until(c, s, [] + [Load(kind)], Apply(c, s, Load(kind)), t);
    StepKeepsInv(c, Apply(c, s, Load(kind)), Advance(t - s.now));
    Extend(c, s, steps, s', Dispatch(kind));
    StepKeepsInv(c, s', Dispatch(kind));
    steps, s' := steps + [Dispatch(kind)], Apply(c, s', Dispatch(kind));
  }

  /** A worker left alone, whatever fails and however the clock moves, takes the
      tables in atomic steps exactly where one whole pass of its handler takes
      them. */
  lemma SoloPassIsHandle(c: Settings, s: System, kind: Kind, w: World) returns (steps: seq<Step>, s': System)
    requires SettingsOk(c) && Inv(c, s) && Answers(kind, w.reply) && InOrder(s.now, w)
    requires Get(s, kind).batch != [] && Get(s, kind).phase.Fetched?
    ensures Path(c, s, steps, s') && Get(s', kind) == Next(Get(s, kind))
    ensures s'.st == Handle(c, kind, s.st, Get(s, kind).batch[0], w)
  {
    if w.loadOk {
      steps, s' := UpToPlan(c, s, kind, w.plannedAt);
      if Get(s', kind).phase.Ready? {
        steps, s' := Finish(c, s, steps, s', kind, w.commitOk, w.committedAt);
      } else {
        steps, s' := AfterCall(c, s, steps, s', kind, w);
      }
    } else {
      steps, s' := GiveUp(c, s, [], s, kind);
    }
  }
}
