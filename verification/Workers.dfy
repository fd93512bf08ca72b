/**
 The workers' loops over the shared repository, as
 crates/adapters/src/worker/{submitter,poller,canceller}.rs run them. The three
 share `run` and `tick`; `process_event` differs. A `World` stands for what the
 database, LHDN and the clock contribute to one pass.
 */
module Workers {
  import opened Wrappers
  import opened Lhdn
  import opened Outbox
  import opened Backoff
  import opened Decisions
  import opened Invariant
  import opened Drain
  import opened Repo

  class Worker {
    const kind: Kind
    const repo: InvoiceRepo
    const c: Settings

    constructor (kind: Kind, repo: InvoiceRepo, c: Settings)
      ensures this.kind == kind && this.repo == repo && this.c == c
    {
      this.kind, this.repo, this.c := kind, repo, c;
    }

    // ----- Submitter ---------------------------------------------------------

    method ProcessSubmit(due: Due, w: World) returns (ok: bool)
      requires Answers(Submit, w.reply)
      modifies repo
      ensures repo.View() == Handle(c, Submit, old(repo.View()), due, w)
      ensures ok == HandledOk(c, Submit, old(repo.View()), due, w)
    {
      if !w.loadOk { return false; }
      var invoice := repo.Load(due.id);
      if invoice.None? {
        if w.commitOk { repo.FailPermanently(due.id, due.o, 0, RowMissing, w.committedAt); }
        return w.commitOk;
      }
      var built := c.build(invoice.value.payload, w.plannedAt);
      if built.Failure? {
        // Never reached LHDN: attempts stay as they are.
        if w.commitOk {
          repo.FailPermanently(due.id, due.o, invoice.value.attempts, BuildFailed(built.error), w.committedAt);
        }
        return w.commitOk;
      }
      var signed := built.value;
      match w.reply
      case Refused(err) =>
        if w.commitOk { SubmitFailed(due, invoice.value.attempts, err, w); }
        return w.commitOk;
      case Submission(uid, accepted, rejected) =>
        var rejection := FirstRejected(rejected, signed.codeNumber);
        if rejection.Some? {
          if !w.rereadOk { return false; }
          var current := repo.Load(due.id);
          var attempts := if current.Some? then current.value.attempts else 0;
          if w.commitOk {
            repo.FailPermanently(due.id, due.o, attempts,
                                 DocumentRejected(rejection.value.code, rejection.value.message,
                                                  rejection.value.details),
                                 w.committedAt);
          }
          return w.commitOk;
        }
        var uuid := AcceptedUuid(accepted, signed.codeNumber);
        if w.commitOk {
          repo.CompleteSubmission(due.id, due.o, uid, uuid, signed.signature, signed.canonicalText,
                                  signed.documentHash, w.committedAt);
        }
        return w.commitOk;
    }

    method SubmitFailed(due: Due, attempts: int, err: LhdnError, w: World)
      modifies repo
      ensures repo.View() == Exec(old(repo.View()), SubmitFailure(c, due, attempts, err, w.repliedAt), w.committedAt)
    {
      var tries := attempts + 1;
      var body := ErrorNote.SubmitFailed(err, tries);
      if !err.IsTransient() || tries >= c.submitMax {
        repo.FailPermanently(due.id, due.o, tries, body, w.committedAt);
      } else {
        var nextAt := w.repliedAt + SubmitBackoff(tries);
        repo.Reschedule(due.id, due.o, tries, nextAt, body, FromLhdn(err), w.committedAt);
      }
    }

    // ----- Poller ------------------------------------------------------------

    method ProcessPoll(due: Due, w: World) returns (ok: bool)
      requires Answers(Poll, w.reply)
      modifies repo
      ensures repo.View() == Handle(c, Poll, old(repo.View()), due, w)
      ensures ok == HandledOk(c, Poll, old(repo.View()), due, w)
    {
      if !w.loadOk { return false; }
      var invoice := repo.Load(due.id);
      if invoice.None? {
        if w.commitOk { repo.ReschedulePoll(due.o, c.pollMax, 0, Some(Orphan), w.committedAt); }
        return w.commitOk;
      }
      if Absent(invoice.value.uuid) {
        if w.commitOk { repo.ReschedulePoll(due.o, c.pollMax, 0, Some(MissingUuid), w.committedAt); }
        return w.commitOk;
      }
      if w.commitOk {
        match w.reply
        case Details(details) => HandleDetails(due, details, w);
        case Refused(err) => PollFailed(due, err, w);
      }
      return w.commitOk;
    }

    method HandleDetails(due: Due, details: DocumentDetails, w: World)
      modifies repo
      ensures repo.View() == Exec(old(repo.View()), PollDetails(c, due, details, w.repliedAt), w.committedAt)
    {
      match details.status
      case NowValid =>
        var validatedAt := details.validatedAt.GetOr(w.repliedAt);
        var cancellableUntil := validatedAt + CANCELLATION_WINDOW;
        var longId := details.longId.GetOr("");
        repo.MarkValid(due.id, due.o, longId, QrUrl(c.portal, details.uuid, longId),
                       validatedAt, cancellableUntil, w.committedAt);
      case NowInvalid =>
        repo.MarkInvalid(due.id, due.o, ValidationFailed(details.reason), w.committedAt);
      case NowCancelled =>
        repo.MarkCancelledViaPoll(due.id, due.o, details.cancelledAt.GetOr(w.repliedAt), w.committedAt);
      case StillSubmitted =>
        var tries := due.attempts + 1;
        if tries >= c.pollMax {
          repo.MarkInvalid(due.id, due.o, PollExhausted(tries), w.committedAt);
        } else {
          repo.ReschedulePoll(due.o, tries, w.repliedAt + PollBackoff(tries), None, w.committedAt);
        }
    }

    method PollFailed(due: Due, err: LhdnError, w: World)
      modifies repo
      ensures repo.View() == Exec(old(repo.View()), PollFailure(c, due, err, w.repliedAt), w.committedAt)
    {
      var tries := due.attempts + 1;
      if !err.IsTransient() || tries >= c.pollMax {
        repo.FailPoll(due.id, due.o, ErrorNote.PollFailed(err, tries), w.committedAt);
      } else {
        repo.ReschedulePoll(due.o, tries, w.repliedAt + PollBackoff(tries), Some(FromLhdn(err)), w.committedAt);
      }
    }

    // ----- Canceller ---------------------------------------------------------

    method ProcessCancel(due: Due, w: World) returns (ok: bool)
      requires Answers(Cancel, w.reply)
      modifies repo
      ensures repo.View() == Handle(c, Cancel, old(repo.View()), due, w)
      ensures ok == HandledOk(c, Cancel, old(repo.View()), due, w)
    {
      if !w.loadOk { return false; }
      var invoice := repo.Load(due.id);
      if invoice.None? {
        if w.commitOk { repo.FailCancel(due.id, due.o, RowMissing, w.committedAt); }
        return w.commitOk;
      }
      var bar := CheckPreconditions(invoice.value, w.plannedAt);
      if bar.Some? {
        if w.commitOk { repo.FailCancel(due.id, due.o, CancelPrecondition(bar.value), w.committedAt); }
        return w.commitOk;
      }
      if w.commitOk {
        match w.reply
        case CancelOk => repo.CompleteCancel(due.id, due.o, w.repliedAt, w.committedAt);
        case Refused(err) => CancelFailed(due, err, w);
      }
      return w.commitOk;
    }

    method CancelFailed(due: Due, err: LhdnError, w: World)
      modifies repo
      ensures repo.View() == Exec(old(repo.View()), CancelFailure(c, due, err, w.repliedAt), w.committedAt)
    {
      var tries := due.attempts + 1;
      if !err.IsTransient() || tries >= c.cancelMax {
        repo.FailCancel(due.id, due.o, ErrorNote.CancelFailed(err, tries), w.committedAt);
      } else {
        repo.RescheduleCancel(due.o, tries, w.repliedAt + SubmitBackoff(tries), FromLhdn(err), w.committedAt);
      }
    }

    // ----- The loops ---------------------------------------------------------

    method ProcessEvent(due: Due, w: World) returns (ok: bool)
      requires Answers(kind, w.reply)
      modifies repo
      ensures repo.View() == Handle(c, kind, old(repo.View()), due, w)
      ensures ok == HandledOk(c, kind, old(repo.View()), due, w)
    {
      match kind
      case Submit => ok := ProcessSubmit(due, w);
      case Poll => ok := ProcessPoll(due, w);
      case Cancel => ok := ProcessCancel(due, w);
    }

    /** One pass over the due events. An event whose handler errs does not stop
        the tick, and counts as processed. A failed selection counts none. */
    method Tick(now: int, selectOk: bool, worlds: Worlds) returns (processed: nat, ghost batch: seq<Due>)
      requires WorldsAnswer(kind, worlds)
      modifies repo
      ensures if selectOk then IsBatch(old(repo.View()), kind, now, c.BatchSize(kind), batch) else batch == []
      ensures processed == |batch|
      ensures selectOk ==>
                processed == Limited(if kind == Submit then c.submitBatch else if kind == Poll then c.pollBatch
                                     else c.cancelBatch, |DueSet(old(repo.View()), kind, now)|)
      ensures repo.View() == HandleAll(c, kind, old(repo.View()), batch, worlds)
    {
      batch := [];
      if !selectOk { return 0, []; }
      var due := repo.DueEvents(kind, now, c.BatchSize(kind));
      batch := due;
      processed := |due|;
      for i := 0 to |due|
        invariant HandleAll(c, kind, repo.View(), due[i..], worlds) == HandleAll(c, kind, old(repo.View()), due, worlds)
      {
        assert due[i..][0] == due[i] && due[i..][1..] == due[i + 1..];
        var _ := ProcessEvent(due[i], worlds(due[i].o));
      }
    }

    /** The part of `run` between two looks at the shutdown signal: tick again at
        once while the last tick processed anything. It ends, with nothing left
        due, when the clock stands still and no operation fails. */
    method RunUntilIdle(now: int, rounds: nat -> Worlds)
      requires SettingsOk(c) && StoreInv(c, repo.View()) && 0 < now && c.BatchSize(kind) != 0
      requires kind == Poll ==> NoStuckDue(repo.View(), now)
      requires forall r :: SmoothWorlds(kind, rounds(r), now)
      modifies repo
      ensures StoreInv(c, repo.View())
      ensures DueSet(repo.View(), kind, now) == {}
    {
      var round: nat := 0;
      var processed := 1;
      while processed > 0
        invariant StoreInv(c, repo.View())
        invariant kind == Poll ==> NoStuckDue(repo.View(), now)
        invariant processed == 0 ==> DueSet(repo.View(), kind, now) == {}
        decreases |DueSet(repo.View(), kind, now)|, processed
      {
        ghost var before := repo.View();
        ghost var batch;
        processed, batch := Tick(now, true, rounds(round));
        assert Drain.Tick(c, kind, now, before, repo.View(), processed);
        TickDrains(c, kind, now, before, repo.View(), processed);
        TickHandlesNothingIff(c, kind, now, before, repo.View(), processed);
        round := round + 1;
      }
    }
  }
}
