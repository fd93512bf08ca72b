/** Nothing is created or lost by the queue: in every reachable state the rows, the
    live events and the recorded outcomes add up. */
module Conservation {
  import opened Wrappers
  import opened Outbox
  import opened Decisions
  import opened Invariant
  import opened Protocol
  import opened ProtocolInvariant
  import opened Accounting

  ghost function EventsOf(st: Store, kind: Kind): set<nat> {
    set o | o in st.outbox && st.outbox[o].kind == kind
  }

  ghost function Owners(st: Store, events: set<nat>): set<InvoiceId>
    requires events <= st.outbox.Keys
  {
    set o | o in events :: st.outbox[o].invoiceId
  }

  ghost function RowsWhere(st: Store, p: Invoice -> bool): set<InvoiceId> {
    set id | id in st.invoices && p(st.invoices[id])
  }

  const IS_PENDING := (row: Invoice) => row.status == Pending
  const IS_FAILED := (row: Invoice) => row.status == Failed
  const EVER_SUBMITTED := (row: Invoice) => EverSubmitted(row)
  const BEING_POLLED := (row: Invoice) => row.status == Submitted && row.error == None
  const POLL_FAILED := (row: Invoice) => row.status == Submitted && row.error.Some?
  const EVER_VALID := (row: Invoice) => row.validatedAt.Some?
  const IS_INVALID := (row: Invoice) => row.status == Invalid
  const CANCELLED_BY_LHDN := (row: Invoice) => row.status == Cancelled && row.validatedAt == None

  /** As many events as owners: nobody owns two. */
  lemma {:induction false} OwnersCount(c: Settings, st: Store, events: set<nat>)
    requires StoreInv(c, st) && events <= st.outbox.Keys
    ensures |Owners(st, events)| == |events|
  {
    if events != {} {
      var o :| o in events;
      var x := st.outbox[o].invoiceId;
      OwnersCount(c, st, events - {o});
      assert LocalInv(c, st, x) && Owns(st, o, x);
      assert x !in Owners(st, events - {o}) by {
        forall p | p in events - {o} ensures st.outbox[p].invoiceId != x {
          assert st.outbox[p].invoiceId == x ==> Owns(st, p, x);
        }
      }
      assert Owners(st, events) == Owners(st, events - {o}) + {x};
    }
  }

  lemma SubmitOwners(c: Settings, st: Store)
    requires StoreInv(c, st)
    ensures Owners(st, EventsOf(st, Submit)) == RowsWhere(st, IS_PENDING)
  {
    forall id ensures id in Owners(st, EventsOf(st, Submit)) <==> id in RowsWhere(st, IS_PENDING) {
      assert LocalInv(c, st, id);
      if id in RowsWhere(st, IS_PENDING) {
        var o: nat :| Owns(st, o, id);
        assert o in EventsOf(st, Submit);
      }
      if id in Owners(st, EventsOf(st, Submit)) {
        var o :| o in EventsOf(st, Submit) && st.outbox[o].invoiceId == id;
        assert Owns(st, o, id);
      }
    }
  }

  lemma PollOwners(c: Settings, st: Store)
    requires StoreInv(c, st)
    ensures Owners(st, EventsOf(st, Poll)) == RowsWhere(st, BEING_POLLED)
  {
    forall id ensures id in Owners(st, EventsOf(st, Poll)) <==> id in RowsWhere(st, BEING_POLLED) {
      assert LocalInv(c, st, id);
      if id in RowsWhere(st, BEING_POLLED) {
        var o: nat :| Owns(st, o, id);
        assert o in EventsOf(st, Poll);
      }
      if id in Owners(st, EventsOf(st, Poll)) {
        var o :| o in EventsOf(st, Poll) && st.outbox[o].invoiceId == id;
        assert Owns(st, o, id);
      }
    }
  }

  /** Rows fall into three classes, and submitted rows into five. */
  lemma RowsPartition(st: Store)
    requires forall id :: id in st.invoices ==> ColumnsAgree(st.invoices[id]) && ErrorsTold(st.invoices[id])
    ensures st.invoices.Keys == RowsWhere(st, IS_PENDING) + RowsWhere(st, IS_FAILED) + RowsWhere(st, EVER_SUBMITTED)
    ensures RowsWhere(st, EVER_SUBMITTED)
         == RowsWhere(st, BEING_POLLED) + RowsWhere(st, EVER_VALID) + RowsWhere(st, IS_INVALID)
            + RowsWhere(st, CANCELLED_BY_LHDN) + RowsWhere(st, POLL_FAILED)
  {
  }

  lemma ClassesDisjoint(st: Store)
    requires forall id :: id in st.invoices ==> ColumnsAgree(st.invoices[id])
    ensures RowsWhere(st, IS_PENDING) !! RowsWhere(st, IS_FAILED) !! RowsWhere(st, EVER_SUBMITTED)
    ensures RowsWhere(st, BEING_POLLED) !! RowsWhere(st, EVER_VALID) !! RowsWhere(st, IS_INVALID)
            !! RowsWhere(st, CANCELLED_BY_LHDN) !! RowsWhere(st, POLL_FAILED)
  {
  }

  lemma ReachableRows(c: Settings, run: seq<System>, i: nat)
    requires SettingsOk(c) && IsRun(c, run) && i < |run|
    ensures StoreInv(c, run[i].st)
    ensures forall id :: id in run[i].st.invoices ==>
              ColumnsAgree(run[i].st.invoices[id]) && ErrorsTold(run[i].st.invoices[id])
  {
    RunKeepsInv(c, run, i);
    forall id | id in run[i].st.invoices ensures RowOk(c, run[i].st.invoices[id]) {
      assert LocalInv(c, run[i].st, id);
    }
  }

  /** Created invoices are those with a live submit event, those that failed, and
      those ever submitted. */
  lemma CreatedInvoicesBalance(c: Settings, run: seq<System>, i: nat)
    requires SettingsOk(c) && IsRun(c, run) && i < |run|
    ensures var st := run[i].st;
            |st.invoices| == |EventsOf(st, Submit)| + |RowsWhere(st, IS_FAILED)| + |RowsWhere(st, EVER_SUBMITTED)|
  {
    ReachableRows(c, run, i);
    var st := run[i].st;
    OwnersCount(c, st, EventsOf(st, Submit));
    SubmitOwners(c, st);
    RowsPartition(st);
    ClassesDisjoint(st);
    Sum5(RowsWhere(st, IS_PENDING), RowsWhere(st, IS_FAILED), RowsWhere(st, EVER_SUBMITTED), {}, {});
    assert st.invoices.Keys + {} + {} == st.invoices.Keys;
    assert |st.invoices| == |st.invoices.Keys|;
  }

  /** Submitted invoices are being polled, or were validated, found invalid,
      cancelled by LHDN, or left with a recorded polling failure. */
  lemma SubmittedInvoicesBalance(c: Settings, run: seq<System>, i: nat)
    requires SettingsOk(c) && IsRun(c, run) && i < |run|
    ensures var st := run[i].st;
            |RowsWhere(st, EVER_SUBMITTED)|
            == |EventsOf(st, Poll)| + |RowsWhere(st, EVER_VALID)| + |RowsWhere(st, IS_INVALID)|
               + |RowsWhere(st, CANCELLED_BY_LHDN)| + |RowsWhere(st, POLL_FAILED)|
  {
    ReachableRows(c, run, i);
    var st := run[i].st;
    OwnersCount(c, st, EventsOf(st, Poll));
    PollOwners(c, st);
    RowsPartition(st);
    ClassesDisjoint(st);
    Sum5(RowsWhere(st, BEING_POLLED), RowsWhere(st, EVER_VALID), RowsWhere(st, IS_INVALID),
         RowsWhere(st, CANCELLED_BY_LHDN), RowsWhere(st, POLL_FAILED));
  }

  lemma Sum5(a: set<InvoiceId>, b: set<InvoiceId>, c: set<InvoiceId>, d: set<InvoiceId>, e: set<InvoiceId>)
    requires a !! b !! c !! d !! e
    ensures |a + b + c + d + e| == |a| + |b| + |c| + |d| + |e|
  {
    assert |a + b| == |a| + |b|;
    assert |a + b + c| == |a + b| + |c|;
    assert |a + b + c + d| == |a + b + c| + |d|;
  }

  /** Accepted cancel requests were completed, were refused, or are live. */
  lemma CancelRequestsBalance(c: Settings, run: seq<System>, i: nat)
    requires SettingsOk(c) && IsRun(c, run) && i < |run|
    ensures var s := run[i];
            |s.h.requests| == |s.h.completed| + |s.h.refused| + |EventsOf(s.st, Cancel)|
  {
    RunKeepsAccounts(c, run, i);
    var s := run[i];
    var live := EventsOf(s.st, Cancel);
    forall o: nat ensures o in live <==> LiveCancel(s.st, o) { }
    assert s.h.requests.Keys == s.h.completed + s.h.refused + live;
    assert |s.h.completed + s.h.refused| == |s.h.completed| + |s.h.refused|;
    assert |s.h.completed + s.h.refused + live| == |s.h.completed + s.h.refused| + |live|;
    assert |s.h.requests| == |s.h.requests.Keys|;
  }
}
