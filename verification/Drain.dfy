/**
 Why one worker's loop comes to rest when it runs alone; for all three, their steps
 interleaved, see Rest. `run` ticks again at once while a tick handled
 anything, and only looks at the shutdown signal after one that handled nothing.
 At a fixed clock, and when no database operation fails, every handled event
 leaves the set of due events, so that tick is reached - except when a poll event
 is stuck, and then it is never reached.
 */
module Drain {
  import opened Wrappers
  import opened Outbox
  import opened Backoff
  import opened Decisions
  import opened Invariant
  import opened InvariantProofs
  import opened StuckPolls

  /** No database operation fails, and no clock read precedes the tick's own. */
  predicate Smooth(w: World, now: int) {
    && w.loadOk && w.rereadOk && w.commitOk
    && now <= w.plannedAt <= w.repliedAt <= w.committedAt
  }

  ghost predicate SmoothWorlds(kind: Kind, worlds: Worlds, now: int) {
    WorldsAnswer(kind, worlds) && forall o :: Smooth(worlds(o), now)
  }

  /** One tick at clock `now` handling `n` events. */
  ghost predicate Tick(c: Settings, kind: Kind, now: int, st: Store, st': Store, n: nat) {
    exists batch, worlds ::
      && IsBatch(st, kind, now, c.BatchSize(kind), batch)
      && SmoothWorlds(kind, worlds, now)
      && n == |batch| && st' == HandleAll(c, kind, st, batch, worlds)
  }

  // ----- One event -----------------------------------------------------------

  lemma BackoffsPositive(k: int)
    ensures SubmitBackoff(k) > 0 && PollBackoff(k) > 0
  {
  }

  /** How the due sets at `now` change when event `o` of kind `kind` is handled. */
  ghost predicate Handled(st: Store, st': Store, kind: Kind, o: nat, now: int) {
    && DueSet(st', kind, now) == DueSet(st, kind, now) - {o}
    && (forall k :: k != kind && !(kind == Submit && k == Poll) ==> DueSet(st', k, now) == DueSet(st, k, now))
    && (kind == Submit ==> |DueSet(st', Poll, now)| <= |DueSet(st, Poll, now)| + 1)
  }

  /** A transaction touches its own event and at most the next fresh id. */
  lemma ExecElsewhere(st: Store, txn: Txn, t: int)
    requires txn.o in st.outbox && st.nextId !in st.outbox
    ensures forall o: nat :: o != txn.o && o != st.nextId ==>
              (o in Exec(st, txn, t).outbox <==> o in st.outbox)
              && (o in st.outbox ==> Exec(st, txn, t).outbox[o] == st.outbox[o])
    ensures st.nextId in Exec(st, txn, t).outbox ==>
              txn.CompleteSubmission? && Exec(st, txn, t).outbox[st.nextId].kind == Poll
  {
  }

  /** The event itself is gone, or due later. */
  lemma ExecMovesOn(c: Settings, st: Store, kind: Kind, due: Due, txn: Txn, at: int, t: int, now: int)
    requires CommitPre(c, st, kind, due, txn, at) && now <= at <= t && !Stuck(st.invoices[due.id])
    ensures !IsDue(Exec(st, txn, t), kind, now, due.o)
    ensures due.o in Exec(st, txn, t).outbox ==> Exec(st, txn, t).outbox[due.o].kind == kind
  {
    if txn.Reschedule? || txn.ReschedulePoll? || txn.RescheduleCancel? { BackoffsPositive(txn.attempts); }
  }

  lemma OthersAsDue(c: Settings, st: Store, kind: Kind, due: Due, txn: Txn, at: int, t: int, now: int)
    requires CommitPre(c, st, kind, due, txn, at)
    ensures forall k, o: nat :: o != due.o && !(kind == Submit && k == Poll && o == st.nextId) ==>
              (IsDue(Exec(st, txn, t), k, now, o) <==> IsDue(st, k, now, o))
  {
    assert st.nextId !in st.outbox;
    ExecElsewhere(st, txn, t);
    assert txn.CompleteSubmission? ==> kind == Submit;
  }

  lemma DueSetsMove(st: Store, st': Store, kind: Kind, o: nat, now: int)
    requires o in st.outbox && st.outbox[o].kind == kind && st.nextId !in st.outbox
    requires o in st'.outbox ==> st'.outbox[o].kind == kind && !IsDue(st', kind, now, o)
    requires forall k, p: nat :: p != o && !(kind == Submit && k == Poll && p == st.nextId) ==>
               (IsDue(st', k, now, p) <==> IsDue(st, k, now, p))
    ensures Handled(st, st', kind, o, now)
  {
    assert DueSet(st', kind, now) == DueSet(st, kind, now) - {o};
    if kind == Submit {
      SubsetSize(DueSet(st', Poll, now), DueSet(st, Poll, now) + {st.nextId});
    }
  }

  /** A commit for a due event takes it out of its due set and touches no other,
      except that a completed submission may add a due poll event. */
  lemma CommitDue(c: Settings, st: Store, kind: Kind, due: Due, txn: Txn, at: int, t: int, now: int)
    requires CommitPre(c, st, kind, due, txn, at) && now <= at <= t
    requires !Stuck(st.invoices[due.id])
    ensures Handled(st, Exec(st, txn, t), kind, due.o, now)
  {
    OthersAsDue(c, st, kind, due, txn, at, t, now);
    ExecMovesOn(c, st, kind, due, txn, at, t, now);
    DueSetsMove(st, Exec(st, txn, t), kind, due.o, now);
  }

  lemma HandleDue(c: Settings, kind: Kind, st: Store, due: Due, w: World, now: int)
    requires SettingsOk(c) && StoreInv(c, st) && Holds(st, kind, due) && Answers(kind, w.reply)
    requires st.outbox[due.o].availableAt <= now && 0 < now && Smooth(w, now)
    requires due.id in st.invoices && !Stuck(st.invoices[due.id])
    ensures Handled(st, Handle(c, kind, st, due, w), kind, due.o, now)
  {
    PlanFits(c, st, kind, due, w.plannedAt);
    var row := st.invoices[due.id];
    match PlanFor(c, kind, due, Some(row), w.plannedAt)
    case Settle(txn) => CommitDue(c, st, kind, due, txn, w.plannedAt, w.committedAt, now);
    case CallLhdn =>
      VerdictFits(c, st, kind, due, w.plannedAt, w.reply, w.repliedAt);
      match VerdictFor(c, kind, due, row, w.plannedAt, w.reply, w.repliedAt)
      case Settled(txn) => CommitDue(c, st, kind, due, txn, w.repliedAt, w.committedAt, now);
      case ReadAgain(e) =>
        CommitDue(c, st, kind, due, RejectionTxn(due, Some(row), e), w.repliedAt, w.committedAt, now);
  }

  // ----- One tick ------------------------------------------------------------

  /** The events of a batch are in the table, due, and distinct. */
  ghost predicate InHand(c: Settings, st: Store, kind: Kind, batch: seq<Due>, now: int) {
    && (forall i :: 0 <= i < |batch| ==>
          Holds(st, kind, batch[i]) && batch[i].id in st.invoices && st.outbox[batch[i].o].availableAt <= now)
    && (forall i, j :: 0 <= i < j < |batch| ==> batch[i].o != batch[j].o)
  }

  lemma BatchHeld(c: Settings, st: Store, kind: Kind, now: int, limit: int, batch: seq<Due>)
    requires StoreInv(c, st) && IsBatch(st, kind, now, limit, batch)
    ensures InHand(c, st, kind, batch, now)
  {
    forall i | 0 <= i < |batch| ensures Holds(st, kind, batch[i]) && batch[i].id in st.invoices {
      assert Listed(st, kind, now, batch[i]);
      assert Owns(st, batch[i].o, batch[i].id) && LocalInv(c, st, batch[i].id);
    }
  }

  /** Handling the first event leaves the others of the batch as they were. */
  lemma RestHeld(c: Settings, st: Store, st': Store, kind: Kind, batch: seq<Due>, now: int)
    requires StoreInv(c, st) && batch != [] && InHand(c, st, kind, batch, now)
    requires forall id :: id != batch[0].id ==> SameFor(st, st', id)
    ensures InHand(c, st', kind, batch[1..], now)
    ensures forall i :: 1 <= i < |batch| ==> SameFor(st, st', batch[i].id)
  {
    forall i | 1 <= i < |batch| ensures batch[i].id != batch[0].id && SameFor(st, st', batch[i].id) {
      assert LocalInv(c, st, batch[0].id);
      assert Owns(st, batch[0].o, batch[0].id) && Owns(st, batch[i].o, batch[i].id);
    }
    forall i | 0 <= i < |batch[1..]|
      ensures Holds(st', kind, batch[1..][i]) && batch[1..][i].id in st'.invoices
          && st'.outbox[batch[1..][i].o].availableAt <= now
    {
      assert batch[1..][i] == batch[i + 1] && SameFor(st, st', batch[i + 1].id);
    }
  }

  /** Due events weighted so that a submission turning into a poll still counts
      as progress. */
  ghost function DueMeasure(st: Store, now: int): nat {
    2 * |DueSet(st, Submit, now)| + |DueSet(st, Poll, now)| + |DueSet(st, Cancel, now)|
  }

  lemma HandledLowersMeasure(st: Store, st': Store, kind: Kind, o: nat, now: int)
    requires Handled(st, st', kind, o, now) && IsDue(st, kind, now, o)
    ensures DueMeasure(st', now) + 1 <= DueMeasure(st, now)
    ensures |DueSet(st', kind, now)| + 1 == |DueSet(st, kind, now)|
  {
    assert o in DueSet(st, kind, now);
  }

  ghost predicate NoneStuck(st: Store, batch: seq<Due>) {
    forall i :: 0 <= i < |batch| ==> batch[i].id in st.invoices ==> !Stuck(st.invoices[batch[i].id])
  }

  lemma {:induction false} HandleAllDrains(c: Settings, kind: Kind, st: Store, batch: seq<Due>,
                               worlds: Worlds, now: int)
    requires SettingsOk(c) && StoreInv(c, st) && InHand(c, st, kind, batch, now) && NoneStuck(st, batch)
    requires SmoothWorlds(kind, worlds, now) && 0 < now
    ensures var st' := HandleAll(c, kind, st, batch, worlds);
            && StoreInv(c, st')
            && (forall id :: (forall i :: 0 <= i < |batch| ==> batch[i].id != id) ==> SameFor(st, st', id))
            && |DueSet(st', kind, now)| + |batch| == |DueSet(st, kind, now)|
            && DueSet(st', kind, now) <= DueSet(st, kind, now)
            && (forall i :: 0 <= i < |batch| ==> batch[i].o !in DueSet(st', kind, now))
            && DueMeasure(st', now) + |batch| <= DueMeasure(st, now)
    decreases |batch|
  {
    if batch != [] {
      var due, w := batch[0], worlds(batch[0].o);
      var mid := Handle(c, kind, st, due, w);
      HandleKeeps(c, kind, st, due, w);
      HandleDue(c, kind, st, due, w, now);
      HandledLowersMeasure(st, mid, kind, due.o, now);
      RestHeld(c, st, mid, kind, batch, now);
      assert NoneStuck(mid, batch[1..]) by {
        forall i | 0 <= i < |batch[1..]| && batch[1..][i].id in mid.invoices
          ensures !Stuck(mid.invoices[batch[1..][i].id]) {
          assert batch[1..][i] == batch[i + 1] && SameFor(st, mid, batch[i + 1].id);
        }
      }
      HandleAllDrains(c, kind, mid, batch[1..], worlds, now);
      TailUntouched(c, st, mid, HandleAll(c, kind, mid, batch[1..], worlds), batch);
    }
  }

  lemma TailUntouched(c: Settings, st: Store, mid: Store, last: Store, batch: seq<Due>)
    requires batch != []
    requires forall id :: id != batch[0].id ==> SameFor(st, mid, id)
    requires forall id :: (forall i :: 0 <= i < |batch[1..]| ==> batch[1..][i].id != id) ==> SameFor(mid, last, id)
    ensures forall id :: (forall i :: 0 <= i < |batch| ==> batch[i].id != id) ==> SameFor(st, last, id)
  {
    forall id | forall i :: 0 <= i < |batch| ==> batch[i].id != id ensures SameFor(st, last, id) {
      assert batch[0].id != id && SameFor(st, mid, id);
      forall i | 0 <= i < |batch[1..]| ensures batch[1..][i].id != id {
        assert batch[1..][i] == batch[i + 1];
      }
      assert SameFor(mid, last, id);
    }
  }

  /** No due poll event belongs to a stuck row. */
  ghost predicate NoStuckDue(st: Store, now: int) {
    forall o :: IsDue(st, Poll, now, o) ==> !StuckEvent(st, o)
  }

  /** Events of rows that are not Submitted are never stuck, so the condition
      only concerns the poller. */
  lemma BatchNotStuck(c: Settings, st: Store, kind: Kind, batch: seq<Due>, now: int)
    requires StoreInv(c, st) && InHand(c, st, kind, batch, now)
    requires kind == Poll ==> NoStuckDue(st, now)
    ensures NoneStuck(st, batch)
  {
    forall i | 0 <= i < |batch| ensures !Stuck(st.invoices[batch[i].id]) {
      assert Owns(st, batch[i].o, batch[i].id) && LocalInv(c, st, batch[i].id);
      if kind == Poll { assert IsDue(st, Poll, now, batch[i].o); }
    }
  }

  /** A tick handles the number of events its limit allows, and exactly so many
      fewer are due afterwards. */
  lemma TickDrains(c: Settings, kind: Kind, now: int, st: Store, st': Store, n: nat)
    requires SettingsOk(c) && StoreInv(c, st) && 0 < now && Tick(c, kind, now, st, st', n)
    requires kind == Poll ==> NoStuckDue(st, now)
    ensures StoreInv(c, st')
    ensures n == Limited(c.BatchSize(kind), |DueSet(st, kind, now)|)
    ensures |DueSet(st', kind, now)| + n == |DueSet(st, kind, now)|
    ensures DueMeasure(st', now) + n <= DueMeasure(st, now)
    ensures kind == Poll ==> NoStuckDue(st', now)
  {
    var batch, worlds :|
      && IsBatch(st, kind, now, c.BatchSize(kind), batch) && SmoothWorlds(kind, worlds, now)
      && n == |batch| && st' == HandleAll(c, kind, st, batch, worlds);
    BatchHeld(c, st, kind, now, c.BatchSize(kind), batch);
    BatchNotStuck(c, st, kind, batch, now);
    HandleAllDrains(c, kind, st, batch, worlds, now);
    if kind == Poll {
      forall o | IsDue(st', Poll, now, o) ensures !StuckEvent(st', o) {
        assert o in DueSet(st', Poll, now);
        StillSameRow(c, st, st', batch, o, now);
      }
    }
  }

  /** What is still due after the tick was not in its batch, or was moved by it;
      either way its row has the uuid it had. */
  lemma StillSameRow(c: Settings, st: Store, st': Store, batch: seq<Due>, o: nat, now: int)
    requires StoreInv(c, st) && StoreInv(c, st') && InHand(c, st, Poll, batch, now) && NoneStuck(st, batch)
    requires NoStuckDue(st, now) && IsDue(st, Poll, now, o) && IsDue(st', Poll, now, o)
    requires forall id :: (forall i :: 0 <= i < |batch| ==> batch[i].id != id) ==> SameFor(st, st', id)
    requires forall i :: 0 <= i < |batch| ==> batch[i].o != o
    ensures !StuckEvent(st', o)
  {
    var x := st.outbox[o].invoiceId;
    assert Owns(st, o, x) && LocalInv(c, st, x);
    forall i | 0 <= i < |batch| ensures batch[i].id != x {
      assert Owns(st, batch[i].o, batch[i].id);
    }
    assert SameFor(st, st', x);
    assert !StuckEvent(st, o);
  }

  // ----- Tick after tick -----------------------------------------------------

  ghost predicate SomeTick(c: Settings, kind: Kind, now: int, st: Store, st': Store) {
    exists n: nat :: Tick(c, kind, now, st, st', n)
  }

  /** One worker ticking again and again at the same clock. */
  ghost predicate TickAt(c: Settings, kind: Kind, now: int, chain: seq<Store>, i: int) {
    0 <= i < |chain| - 1 && SomeTick(c, kind, now, chain[i], chain[i + 1])
  }

  ghost predicate TickChain(c: Settings, kind: Kind, now: int, chain: seq<Store>) {
    chain != [] && forall i :: 0 <= i < |chain| - 1 ==> TickAt(c, kind, now, chain, i)
  }

  /** The loop stops after a tick that handles nothing, and that is a tick with
      nothing due. */
  lemma TickHandlesNothingIff(c: Settings, kind: Kind, now: int, st: Store, st': Store, n: nat)
    requires Tick(c, kind, now, st, st', n) && c.BatchSize(kind) != 0
    ensures n == 0 <==> DueSet(st, kind, now) == {}
  {
  }

  /** One more tick leaves fewer events due, or none. */
  lemma SomeTickDrains(c: Settings, kind: Kind, now: int, st: Store, st': Store)
    requires SettingsOk(c) && StoreInv(c, st) && 0 < now && SomeTick(c, kind, now, st, st') && c.BatchSize(kind) != 0
    requires kind == Poll ==> NoStuckDue(st, now)
    ensures StoreInv(c, st') && (kind == Poll ==> NoStuckDue(st', now))
    ensures DueSet(st', kind, now) == {} || |DueSet(st', kind, now)| < |DueSet(st, kind, now)|
  {
    var n: nat :| Tick(c, kind, now, st, st', n);
    TickDrains(c, kind, now, st, st', n);
    TickHandlesNothingIff(c, kind, now, st, st', n);
  }

  lemma {:induction false} ChainDrains(c: Settings, kind: Kind, now: int, chain: seq<Store>, i: nat)
    requires SettingsOk(c) && TickChain(c, kind, now, chain) && i < |chain| && 0 < now
    requires StoreInv(c, chain[0]) && c.BatchSize(kind) != 0
    requires kind == Poll ==> NoStuckDue(chain[0], now)
    ensures StoreInv(c, chain[i]) && (kind == Poll ==> NoStuckDue(chain[i], now))
    ensures DueSet(chain[i], kind, now) == {} || |DueSet(chain[i], kind, now)| + i <= |DueSet(chain[0], kind, now)|
  {
    if i > 0 {
      ChainDrains(c, kind, now, chain, i - 1);
      assert TickAt(c, kind, now, chain, i - 1);
      SomeTickDrains(c, kind, now, chain[i - 1], chain[i]);
    }
  }

  /** The submitter and the canceller come to rest from every state, after at
      most as many ticks as there are events due. */
  lemma SubmitterAndCancellerDrain(c: Settings, kind: Kind, now: int, chain: seq<Store>)
    requires SettingsOk(c) && TickChain(c, kind, now, chain) && 0 < now && kind != Poll
    requires StoreInv(c, chain[0]) && c.BatchSize(kind) != 0
    requires |chain| > |DueSet(chain[0], kind, now)|
    ensures DueSet(chain[|chain| - 1], kind, now) == {}
  {
    ChainDrains(c, kind, now, chain, |chain| - 1);
  }

  // ----- The exception -------------------------------------------------------

  ghost predicate StuckAndDue(st: Store, o: nat, now: int) {
    StuckEvent(st, o) && IsDue(st, Poll, now, o)
  }

  lemma HandleKeepsStuck(c: Settings, st: Store, due: Due, w: World, o: nat, now: int)
    requires SettingsOk(c) && StoreInv(c, st) && Holds(st, Poll, due) && due.id in st.invoices
    requires st.outbox[due.o].availableAt <= now && 0 < now && Smooth(w, now) && Answers(Poll, w.reply)
    requires StuckAndDue(st, o, now)
    ensures StuckAndDue(Handle(c, Poll, st, due, w), o, now)
  {
    if due.o == o {
      HandlingParks(c, st, due, w);
    } else {
      HandleKeeps(c, Poll, st, due, w);
      var x := st.outbox[o].invoiceId;
      assert Owns(st, o, x) && LocalInv(c, st, x) && Owns(st, due.o, due.id);
      assert SameFor(st, Handle(c, Poll, st, due, w), x);
    }
  }

  lemma {:induction false} HandleAllKeepsStuck(c: Settings, st: Store, batch: seq<Due>,
                                    worlds: Worlds, o: nat, now: int)
    requires SettingsOk(c) && StoreInv(c, st) && InHand(c, st, Poll, batch, now)
    requires SmoothWorlds(Poll, worlds, now) && 0 < now && StuckAndDue(st, o, now)
    ensures StoreInv(c, HandleAll(c, Poll, st, batch, worlds))
    ensures StuckAndDue(HandleAll(c, Poll, st, batch, worlds), o, now)
    decreases |batch|
  {
    if batch != [] {
      var mid := Handle(c, Poll, st, batch[0], worlds(batch[0].o));
      HandleKeeps(c, Poll, st, batch[0], worlds(batch[0].o));
      HandleKeepsStuck(c, st, batch[0], worlds(batch[0].o), o, now);
      RestHeld(c, st, mid, Poll, batch, now);
      HandleAllKeepsStuck(c, mid, batch[1..], worlds, o, now);
    }
  }

  lemma {:induction false} ChainStaysStuck(c: Settings, now: int, chain: seq<Store>, i: nat, o: nat)
    requires SettingsOk(c) && TickChain(c, Poll, now, chain) && i < |chain| && 0 < now
    requires StoreInv(c, chain[0]) && StuckAndDue(chain[0], o, now)
    ensures StoreInv(c, chain[i]) && StuckAndDue(chain[i], o, now)
  {
    if i > 0 {
      ChainStaysStuck(c, now, chain, i - 1, o);
      assert TickAt(c, Poll, now, chain, i - 1);
      TickKeepsStuck(c, now, chain[i - 1], chain[i], o);
    }
  }

  lemma TickKeepsStuck(c: Settings, now: int, st: Store, st': Store, o: nat)
    requires SettingsOk(c) && StoreInv(c, st) && StuckAndDue(st, o, now) && 0 < now
    requires SomeTick(c, Poll, now, st, st')
    ensures StoreInv(c, st') && StuckAndDue(st', o, now)
  {
    var n: nat :| Tick(c, Poll, now, st, st', n);
    var batch, worlds :|
      && IsBatch(st, Poll, now, c.BatchSize(Poll), batch) && SmoothWorlds(Poll, worlds, now)
      && n == |batch| && st' == HandleAll(c, Poll, st, batch, worlds);
    BatchHeld(c, st, Poll, now, c.BatchSize(Poll), batch);
    HandleAllKeepsStuck(c, st, batch, worlds, o, now);
  }

  /** The poller comes to rest exactly when no due poll event is stuck: then
      within as many ticks as events were due, and otherwise never. */
  lemma PollerDrainsIff(c: Settings, now: int, chain: seq<Store>)
    requires SettingsOk(c) && TickChain(c, Poll, now, chain) && 0 < now
    requires StoreInv(c, chain[0]) && c.BatchSize(Poll) != 0
    requires |chain| > |DueSet(chain[0], Poll, now)|
    ensures (exists i :: 0 <= i < |chain| && DueSet(chain[i], Poll, now) == {}) <==> NoStuckDue(chain[0], now)
  {
    if NoStuckDue(chain[0], now) {
      ChainDrains(c, Poll, now, chain, |chain| - 1);
      assert DueSet(chain[|chain| - 1], Poll, now) == {};
    } else {
      var o :| IsDue(chain[0], Poll, now, o) && StuckEvent(chain[0], o);
      forall i | 0 <= i < |chain| ensures DueSet(chain[i], Poll, now) != {} {
        ChainStaysStuck(c, now, chain, i, o);
        assert o in DueSet(chain[i], Poll, now);
      }
    }
  }
}
