/** The per-invoice bounds summed over the whole system. */
module Totals {
  import opened Outbox
  import opened Decisions
  import opened Invariant
  import opened Protocol
  import opened ProtocolInvariant
  import opened Lifecycle
  import opened Accounting

  ghost function Sum(m: map<InvoiceId, nat>, ids: set<InvoiceId>): nat {
    if ids == {} then 0
    else
      var id :| id in ids;
      Count(m, id) + Sum(m, ids - {id})
  }

  lemma {:induction false} SumPicks(m: map<InvoiceId, nat>, ids: set<InvoiceId>, id: InvoiceId)
    requires id in ids
    ensures Sum(m, ids) == Count(m, id) + Sum(m, ids - {id})
  {
    var first :| first in ids && Sum(m, ids) == Count(m, first) + Sum(m, ids - {first});
    if first != id {
      SumPicks(m, ids - {first}, id);
      SumPicks(m, ids - {id}, first);
      assert ids - {first} - {id} == ids - {id} - {first};
    }
  }

  lemma {:induction false} SumSame(m: map<InvoiceId, nat>, m': map<InvoiceId, nat>, ids: set<InvoiceId>)
    requires forall id :: id in ids ==> Count(m', id) == Count(m, id)
    ensures Sum(m', ids) == Sum(m, ids)
  {
    if ids != {} {
      var id :| id in ids;
      SumPicks(m, ids, id);
      SumPicks(m', ids, id);
      SumSame(m, m', ids - {id});
    }
  }

  lemma SumBumped(m: map<InvoiceId, nat>, ids: set<InvoiceId>, id: InvoiceId)
    requires id in ids
    ensures Sum(Bump(m, id), ids) == Sum(m, ids) + 1
  {
    SumPicks(m, ids, id);
    SumPicks(Bump(m, id), ids, id);
    SumSame(m, Bump(m, id), ids - {id});
  }

  lemma SumGrown(m: map<InvoiceId, nat>, ids: set<InvoiceId>, id: InvoiceId)
    requires Count(m, id) == 0
    ensures Sum(m, ids + {id}) == Sum(m, ids)
  {
    if id in ids {
      assert ids + {id} == ids;
    } else {
      SumPicks(m, ids + {id}, id);
      assert ids + {id} - {id} == ids;
    }
  }

  // ----- Accepted cancel requests --------------------------------------------

  ghost predicate CancelsCounted(s: System) {
    Sum(s.h.cancels, s.st.invoices.Keys) == |s.h.requests|
  }

  lemma CreateCounted(c: Settings, s: System, step: Step)
    requires AccountsOk(c, s) && CancelsCounted(s) && Enabled(c, s, step) && step.Create?
    ensures CancelsCounted(Apply(c, s, step))
  {
    var s' := Apply(c, s, step);
    if s'.st != s.st {
      assert BudgetOk(c, s, step.id);
      assert s'.st.invoices.Keys == s.st.invoices.Keys + {step.id};
      SumGrown(s.h.cancels, s.st.invoices.Keys, step.id);
    }
  }

  lemma RequestCounted(c: Settings, s: System, step: Step)
    requires Inv(c, s) && AccountsOk(c, s) && CancelsCounted(s) && Enabled(c, s, step) && step.RequestCancel?
    ensures CancelsCounted(Apply(c, s, step))
  {
    var s' := Apply(c, s, step);
    if s'.st != s.st {
      var id := FindByRef(s.st, step.ref).value;
      assert s.st.nextId !in s.h.requests;
      assert s'.st.invoices.Keys == s.st.invoices.Keys;
      SumBumped(s.h.cancels, s.st.invoices.Keys, id);
    }
  }

  lemma StepKeepsCounted(c: Settings, s: System, step: Step)
    requires SettingsOk(c) && Inv(c, s) && AccountsOk(c, s) && CancelsCounted(s) && Enabled(c, s, step)
    ensures CancelsCounted(Apply(c, s, step))
  {
    match step
    case Create(_, _, _) => CreateCounted(c, s, step);
    case RequestCancel(_, _, _) => RequestCounted(c, s, step);
    case Commit(kind, t) =>
      OtherStepsKeepRequests(c, s, step);
      CommittedRow(c, s, kind, t);
      assert Apply(c, s, step).st.invoices.Keys == s.st.invoices.Keys;
    case _ =>
      OtherStepsKeepRequests(c, s, step);
      OtherStepsKeepStore(c, s, step);
  }

  lemma {:induction false} RunKeepsCounted(c: Settings, run: seq<System>, i: nat)
    requires SettingsOk(c) && IsRun(c, run) && i < |run|
    ensures CancelsCounted(run[i])
  {
    if i > 0 {
      RunKeepsCounted(c, run, i - 1);
      RunKeepsInv(c, run, i - 1);
      RunKeepsAccounts(c, run, i - 1);
      assert StepAt(c, run, i - 1);
      var step :| Enabled(c, run[i - 1], step) && run[i] == Apply(c, run[i - 1], step);
      StepKeepsCounted(c, run[i - 1], step);
    }
  }

  // ----- All handlings -------------------------------------------------------

  lemma {:induction false} HandlingsSum(c: Settings, s: System, ids: set<InvoiceId>)
    requires ids <= s.st.invoices.Keys && (forall id :: BudgetOk(c, s, id))
    requires forall id :: id in ids ==> !Stuck(s.st.invoices[id])
    ensures Sum(s.h.handled, ids)
         <= |ids| * (AtLeastOne(c.submitMax) + AtLeastOne(c.pollMax)) + AtLeastOne(c.cancelMax) * Sum(s.h.cancels, ids)
  {
    if ids != {} {
      var id :| id in ids;
      SumPicks(s.h.handled, ids, id);
      SumPicks(s.h.cancels, ids, id);
      HandlingsSum(c, s, ids - {id});
      assert BudgetOk(c, s, id);
      Distribute(|ids - {id}|, AtLeastOne(c.submitMax) + AtLeastOne(c.pollMax),
                 AtLeastOne(c.cancelMax), Count(s.h.cancels, id), Sum(s.h.cancels, ids - {id}));
    }
  }

  lemma Distribute(n: nat, each: int, per: int, first: nat, rest: nat)
    ensures (n + 1) * each == n * each + each && per * (first + rest) == per * first + per * rest
  {
  }

  /** All committed handlings together, of all invoices ever accepted. */
  lemma AllHandlingsBounded(c: Settings, run: seq<System>, i: nat)
    requires SettingsOk(c) && IsRun(c, run) && i < |run|
    requires forall id :: id in run[i].st.invoices ==> !Stuck(run[i].st.invoices[id])
    ensures var s := run[i];
            Sum(s.h.handled, s.st.invoices.Keys)
            <= |s.st.invoices| * (AtLeastOne(c.submitMax) + AtLeastOne(c.pollMax))
               + AtLeastOne(c.cancelMax) * |s.h.requests|
  {
    RunKeepsAccounts(c, run, i);
    RunKeepsCounted(c, run, i);
    HandlingsSum(c, run[i], run[i].st.invoices.Keys);
    assert |run[i].st.invoices| == |run[i].st.invoices.Keys|;
  }
}
