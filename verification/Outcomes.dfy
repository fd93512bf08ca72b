/**
 What one pass over a due event leaves behind by the answer LHDN gave, in both
 directions, when nobody else is active and every database operation succeeds.
 What else can become of an answer is the subject of Fates.
 */
module Outcomes {
  import opened Wrappers
  import opened Lhdn
  import opened Outbox
  import opened Backoff
  import opened Decisions
  import opened Invariant
  import opened Drain
  import Ubl

  /** A due event of a worker about to pass over it undisturbed. */
  ghost predicate Undisturbed(c: Settings, kind: Kind, st: Store, due: Due, w: World) {
    && SettingsOk(c) && StoreInv(c, st) && Holds(st, kind, due) && Answers(kind, w.reply)
    && st.outbox[due.o].availableAt <= w.plannedAt && 0 < w.plannedAt && Smooth(w, w.plannedAt)
  }

  lemma ReadyRow(c: Settings, kind: Kind, st: Store, due: Due, w: World)
    requires Undisturbed(c, kind, st, due, w)
    ensures due.id in st.invoices && RowOk(c, st.invoices[due.id])
    ensures EventOk(c, st.invoices[due.id], st.outbox[due.o])
    ensures due.o != st.nextId && st.nextId !in st.outbox
  {
    assert LocalInv(c, st, due.id);
  }

  /** The failure is worth another try - LHDN limited the rate, answered 5xx, was
      not reached, or the token store failed - and the ceiling is not reached. Any
      other error (credentials, a bad request, a missing or conflicting document,
      an unreadable answer, configuration) ends it at once. */
  predicate RetryLeft(e: LhdnError, attempts: int, max: int) {
    (e.RateLimited? || e.Server? || e.Transport? || e.Storage?) && attempts + 1 < max
  }

  /** The event is still there with one attempt more, due after the backoff. */
  predicate Retried(st: Store, st': Store, o: nat, nextAt: int) {
    && o in st.outbox && o in st'.outbox
    && st'.outbox[o].invoiceId == st.outbox[o].invoiceId && st'.outbox[o].kind == st.outbox[o].kind
    && st'.outbox[o].attempts == st.outbox[o].attempts + 1 && st'.outbox[o].availableAt == nextAt
  }

  predicate Rejects(reply: Reply, ref: string) {
    reply.Submission? && exists x :: x in reply.rejected && x.codeNumber == ref
  }

  /** A submit pass: Submitted exactly when LHDN answered without rejecting the
      reference, with a poll event due at once in place of the submit event; still
      Pending exactly when a retry is left; Failed otherwise. */
  lemma SubmitOutcome(c: Settings, st: Store, due: Due, w: World)
    requires Undisturbed(c, Submit, st, due, w)
    ensures due.id in st.invoices
    ensures var st' := Handle(c, Submit, st, due, w);
            && due.id in st'.invoices
            && var row, row' := st.invoices[due.id], st'.invoices[due.id];
               var builds := c.build(row.payload, w.plannedAt).Success?;
               && (row'.status == Submitted <==> builds && w.reply.Submission? && !Rejects(w.reply, row.ref))
               && (row'.status == Pending <==>
                     builds && w.reply.Refused? && RetryLeft(w.reply.error, due.attempts, c.submitMax))
               && (row'.status == Pending || row'.status == Submitted || row'.status == Failed)
               && (row'.status == Pending ==> Retried(st, st', due.o, w.repliedAt + SubmitBackoff(due.attempts + 1)))
               && (row'.status != Pending ==> due.o !in st'.outbox)
               && (row'.status == Submitted <==> st.nextId in st'.outbox)
               && (row'.status == Submitted ==>
                     st'.outbox[st.nextId] == Event(due.id, Poll, w.committedAt, 0, None))
               && row'.attempts == due.attempts + (if builds && w.reply.Refused? then 1 else 0)
  {
    ReadyRow(c, Submit, st, due, w);
    var payload := st.invoices[due.id].payload;
    assert match c.build(payload, w.plannedAt)
           case Success(d) => Ubl.CodeNumber(payload) == Some(d.codeNumber)
           case Failure(_) => true;
  }

  /** Such a pass over a row with a uuid commits what the answer leads to. */
  lemma PollPass(c: Settings, st: Store, due: Due, w: World)
    requires Undisturbed(c, Poll, st, due, w)
    requires due.id in st.invoices ==> !Stuck(st.invoices[due.id])
    ensures due.id in st.invoices && st.invoices[due.id].status == Submitted && st.invoices[due.id].error == None
    ensures due.o in st.outbox && st.outbox[due.o].attempts == due.attempts
    ensures var txn := if w.reply.Refused? then PollFailure(c, due, w.reply.error, w.repliedAt)
                       else PollDetails(c, due, w.reply.details, w.repliedAt);
            Handle(c, Poll, st, due, w) == Exec(st, txn, w.committedAt)
  {
    ReadyRow(c, Poll, st, due, w);
  }

  /** A poll pass over a row with a uuid: the status is the one LHDN reported;
      polling goes on exactly when a retry is left; a row is never left without an
      event and without an error to tell why. */
  lemma PollOutcome(c: Settings, st: Store, due: Due, w: World)
    requires Undisturbed(c, Poll, st, due, w)
    requires due.id in st.invoices ==> !Stuck(st.invoices[due.id])
    ensures var st' := Handle(c, Poll, st, due, w);
            && due.id in st'.invoices
            && var row' := st'.invoices[due.id];
               && (row'.status == Valid <==> w.reply.Details? && w.reply.details.status == NowValid)
               && (row'.status == Cancelled <==> w.reply.Details? && w.reply.details.status == NowCancelled)
               && (row'.status == Invalid <==>
                     && w.reply.Details?
                     && (w.reply.details.status == NowInvalid
                         || (w.reply.details.status == StillSubmitted && due.attempts + 1 >= c.pollMax)))
               && (due.o in st'.outbox <==>
                     if w.reply.Refused? then RetryLeft(w.reply.error, due.attempts, c.pollMax)
                     else w.reply.details.status == StillSubmitted && due.attempts + 1 < c.pollMax)
               && (due.o in st'.outbox ==> Retried(st, st', due.o, w.repliedAt + PollBackoff(due.attempts + 1)))
               && (row'.status == Submitted ==> (due.o in st'.outbox <==> row'.error == None))
  {
    PollPass(c, st, due, w);
  }

  /** A cancel pass: Cancelled exactly when LHDN agreed before the deadline; the
      event stays exactly when a retry is left; a refusal leaves the row Valid with
      its error. */
  lemma CancelOutcome(c: Settings, st: Store, due: Due, w: World)
    requires Undisturbed(c, Cancel, st, due, w)
    ensures due.id in st.invoices
    ensures var st' := Handle(c, Cancel, st, due, w);
            && due.id in st'.invoices
            && var row, row' := st.invoices[due.id], st'.invoices[due.id];
               && row.validatedAt.Some?
               && var open := w.plannedAt < row.validatedAt.value + 259200;
                  && (row'.status == Cancelled <==> open && w.reply == CancelOk)
                  && (row'.status == Cancelled || row'.status == Valid)
                  && (due.o in st'.outbox <==>
                        open && w.reply.Refused? && RetryLeft(w.reply.error, due.attempts, c.cancelMax))
                  && (due.o in st'.outbox ==>
                        row' == row && Retried(st, st', due.o, w.repliedAt + SubmitBackoff(due.attempts + 1)))
                  && (row'.status == Valid && due.o !in st'.outbox ==> row'.error.Some?)
  {
    ReadyRow(c, Cancel, st, due, w);
  }

  // ----- The whole tables after a pass ---------------------------------------

  lemma SubmitPass(c: Settings, st: Store, due: Due, w: World)
    requires Undisturbed(c, Submit, st, due, w)
    ensures due.id in st.invoices && due.o in st.outbox
    ensures var row, ev := st.invoices[due.id], st.outbox[due.o];
            && row.attempts == due.attempts == ev.attempts && ev.kind == Submit && ev.invoiceId == due.id
            && match c.build(row.payload, w.plannedAt)
               case Failure(_) => true
               case Success(d) => d.codeNumber == row.ref
  {
    ReadyRow(c, Submit, st, due, w);
    var payload := st.invoices[due.id].payload;
    assert match c.build(payload, w.plannedAt)
           case Success(d) => Ubl.CodeNumber(payload) == Some(d.codeNumber)
           case Failure(_) => true;
  }

  /** The uuid the first accepted document with this reference carries, or none. */
  function UuidFor(accepted: seq<AcceptedDocument>, ref: string): string {
    if FirstAccepted(accepted, ref).Some? then FirstAccepted(accepted, ref).value.uuid else ""
  }

  /** Every column and event a submit pass writes, by LHDN's answer. */
  lemma SubmitWrites(c: Settings, st: Store, due: Due, w: World)
    requires Undisturbed(c, Submit, st, due, w)
    ensures due.id in st.invoices && due.o in st.outbox
    ensures var st', row, now := Handle(c, Submit, st, due, w), st.invoices[due.id], w.committedAt;
            var tries := due.attempts + 1;
            match c.build(row.payload, w.plannedAt)
            case Failure(e) =>
              st' == Store(st.invoices[due.id := row.(status := Failed, error := Some(BuildFailed(e)),
                                                      nextAttemptAt := None, updatedAt := now)],
                           st.outbox - {due.o}, st.nextId)
            case Success(d) =>
              match w.reply
              case Refused(e) =>
                if RetryLeft(e, due.attempts, c.submitMax) then
                  var next := w.repliedAt + SubmitBackoff(tries);
                  st' == Store(st.invoices[due.id := row.(attempts := tries, error := Some(SubmitFailed(e, tries)),
                                                          nextAttemptAt := Some(next), updatedAt := now)],
                               st.outbox[due.o := Event(due.id, Submit, next, tries, Some(FromLhdn(e)))], st.nextId)
                else
                  st' == Store(st.invoices[due.id := row.(status := Failed, attempts := tries,
                                                          error := Some(SubmitFailed(e, tries)),
                                                          nextAttemptAt := None, updatedAt := now)],
                               st.outbox - {due.o}, st.nextId)
              case Submission(uid, accepted, rejected) =>
                match FirstRejected(rejected, row.ref)
                case Some(r) =>
                  st' == Store(st.invoices[due.id := row.(status := Failed,
                                                          error := Some(DocumentRejected(r.code, r.message, r.details)),
                                                          nextAttemptAt := None, updatedAt := now)],
                               st.outbox - {due.o}, st.nextId)
                case None =>
                  st' == Store(st.invoices[due.id := row.(status := Submitted, submissionUid := Some(uid),
                                                          uuid := Some(UuidFor(accepted, row.ref)),
                                                          signature := Some(d.signature),
                                                          document := Some(d.canonicalText),
                                                          digest := Some(d.documentHash), error := None,
                                                          submittedAt := Some(now), nextAttemptAt := None,
                                                          updatedAt := now)],
                               (st.outbox - {due.o})[st.nextId := Event(due.id, Poll, now, 0, None)], st.nextId + 1)
  {
    SubmitPass(c, st, due, w);
  }

  /** Every column and event a poll pass writes. */
  lemma PollWrites(c: Settings, st: Store, due: Due, w: World)
    requires Undisturbed(c, Poll, st, due, w)
    requires due.id in st.invoices ==> !Stuck(st.invoices[due.id])
    ensures due.id in st.invoices && due.o in st.outbox
    ensures var st', row, now := Handle(c, Poll, st, due, w), st.invoices[due.id], w.committedAt;
            var tries := due.attempts + 1;
            var next := w.repliedAt + PollBackoff(tries);
            match w.reply
            case Refused(e) =>
              if RetryLeft(e, due.attempts, c.pollMax)
              then st' == st.(outbox := st.outbox[due.o := Event(due.id, Poll, next, tries, Some(FromLhdn(e)))])
              else st' == Store(st.invoices[due.id := row.(error := Some(PollFailed(e, tries)), updatedAt := now)],
                                st.outbox - {due.o}, st.nextId)
            case Details(d) =>
              match d.status
              case NowValid =>
                var longId := if d.longId.Some? then d.longId.value else "";
                var validated := if d.validatedAt.Some? then d.validatedAt.value else w.repliedAt;
                st' == Store(st.invoices[due.id := row.(status := Valid, longId := Some(longId),
                                                        qrUrl := Some(c.portal + "/" + d.uuid + "/share/" + longId),
                                                        validatedAt := Some(validated),
                                                        cancellableUntil := Some(validated + 259200),
                                                        error := None, updatedAt := now)],
                             st.outbox - {due.o}, st.nextId)
              case NowInvalid =>
                st' == Store(st.invoices[due.id := row.(status := Invalid, error := Some(ValidationFailed(d.reason)),
                                                        updatedAt := now)],
                             st.outbox - {due.o}, st.nextId)
              case NowCancelled =>
                var cancelled := if d.cancelledAt.Some? then d.cancelledAt.value else w.repliedAt;
                st' == Store(st.invoices[due.id := row.(status := Cancelled, cancelledAt := Some(cancelled),
                                                        updatedAt := now)],
                             st.outbox - {due.o}, st.nextId)
              case StillSubmitted =>
                if tries < c.pollMax
                then st' == st.(outbox := st.outbox[due.o := Event(due.id, Poll, next, tries, None)])
                else st' == Store(st.invoices[due.id := row.(status := Invalid, error := Some(PollExhausted(tries)),
                                                             updatedAt := now)],
                                  st.outbox - {due.o}, st.nextId)
  {
    PollPass(c, st, due, w);
    ReadyRow(c, Poll, st, due, w);
  }

  /** A cancel pass commits a refusal when the window is closed, and otherwise what
      the answer leads to. */
  lemma CancelPass(c: Settings, st: Store, due: Due, w: World)
    requires Undisturbed(c, Cancel, st, due, w)
    ensures due.id in st.invoices && due.o in st.outbox && st.invoices[due.id].validatedAt.Some?
    ensures var ev := st.outbox[due.o];
            ev.attempts == due.attempts && ev.kind == Cancel && ev.invoiceId == due.id
    ensures var open := w.plannedAt < st.invoices[due.id].validatedAt.value + 259200;
            var txn := if !open then FailCancel(due.id, due.o, CancelPrecondition(WindowClosed))
                       else if w.reply.Refused? then CancelFailure(c, due, w.reply.error, w.repliedAt)
                       else CompleteCancel(due.id, due.o, w.repliedAt);
            Handle(c, Cancel, st, due, w) == Exec(st, txn, w.committedAt)
  {
    ReadyRow(c, Cancel, st, due, w);
  }

  /** Every column and event a cancel pass writes. */
  lemma CancelWrites(c: Settings, st: Store, due: Due, w: World)
    requires Undisturbed(c, Cancel, st, due, w)
    ensures due.id in st.invoices && due.o in st.outbox
    ensures var st', row, now := Handle(c, Cancel, st, due, w), st.invoices[due.id], w.committedAt;
            var tries := due.attempts + 1;
            && row.validatedAt.Some?
            && if w.plannedAt >= row.validatedAt.value + 259200 then
                 st' == Store(st.invoices[due.id := row.(error := Some(CancelPrecondition(WindowClosed)),
                                                         updatedAt := now)],
                              st.outbox - {due.o}, st.nextId)
               else
                 match w.reply
                 case CancelOk =>
                   st' == Store(st.invoices[due.id := row.(status := Cancelled, cancelledAt := Some(w.repliedAt),
                                                           error := None, updatedAt := now)],
                                st.outbox - {due.o}, st.nextId)
                 case Refused(e) =>
                   if RetryLeft(e, due.attempts, c.cancelMax)
                   then st' == st.(outbox := st.outbox[due.o := Event(due.id, Cancel,
                                                                      w.repliedAt + SubmitBackoff(tries), tries,
                                                                      Some(FromLhdn(e)))])
                   else st' == Store(st.invoices[due.id := row.(error := Some(CancelFailed(e, tries)),
                                                                updatedAt := now)],
                                     st.outbox - {due.o}, st.nextId)
  {
    CancelPass(c, st, due, w);
  }

  // ----- What else can happen ------------------------------------------------

  /** An event whose row is gone: a submission or cancellation is dropped, a poll
      moved to time 0 at its ceiling, to be met again for ever. */
  lemma OrphanWrites(c: Settings, kind: Kind, st: Store, due: Due, w: World)
    requires due.o in st.outbox && due.id !in st.invoices && Answers(kind, w.reply) && w.loadOk && w.commitOk
    ensures var st' := Handle(c, kind, st, due, w);
            if kind == Poll
            then st' == st.(outbox := st.outbox[due.o := st.outbox[due.o].(availableAt := 0, attempts := c.pollMax,
                                                                           lastError := Some(Orphan))])
            else st' == st.(outbox := st.outbox - {due.o})
  {
  }

  /** The pass has to read the row again: LHDN turned down the document it built. */
  predicate ReadsAgain(c: Settings, kind: Kind, st: Store, due: Due, w: World) {
    && kind == Submit && w.reply.Submission? && due.id in st.invoices
    && match c.build(st.invoices[due.id].payload, w.plannedAt)
       case Success(d) => exists x :: x in w.reply.rejected && x.codeNumber == d.codeNumber
       case Failure(_) => false
  }

  /** A pass reports an error exactly when an operation it needed failed, and then
      it leaves the tables alone. */
  lemma FailureWritesNothing(c: Settings, kind: Kind, st: Store, due: Due, w: World)
    requires Answers(kind, w.reply)
    ensures HandledOk(c, kind, st, due, w)
       <==> w.loadOk && w.commitOk && (ReadsAgain(c, kind, st, due, w) ==> w.rereadOk)
    ensures !HandledOk(c, kind, st, due, w) ==> Handle(c, kind, st, due, w) == st
  {
  }

  /** The canceller's checks, in their order. */
  lemma CancelChecks(row: Invoice, now: int)
    ensures var bar := CheckPreconditions(row, now);
            var hasUuid := row.uuid.Some? && row.uuid.value != "";
            var hasReason := row.reason.Some? && row.reason.value != "";
            && (bar == Some(NoUuid) <==> !hasUuid)
            && (bar == Some(NoReason) <==> hasUuid && !hasReason)
            && (bar == None <==> hasUuid && hasReason && row.cancellableUntil.Some? && now < row.cancellableUntil.value)
  {
  }
}
