/** Retry schedules of crates/adapters/src/worker/mod.rs, in seconds. */
module Backoff {

  function SubmitBackoff(attempt: int): int {
    match attempt
    case 1 => 30
    case 2 => 120
    case 3 => 600
    case _ => 3600
  }

  function PollBackoff(attempt: int): int {
    if attempt == 0 || attempt == 1 then 5
    else if attempt == 2 then 15
    else if attempt == 3 then 30
    else if attempt == 4 then 60
    else if 5 <= attempt <= 10 then 300
    else 900
  }

  /** Time waited in total before the delivery after `attempts` recorded failures. */
  function SubmitWait(attempts: int): int {
    if attempts <= 0 then 0 else SubmitWait(attempts - 1) + SubmitBackoff(attempts)
  }

  function PollWait(attempts: int): int {
    if attempts <= 0 then 0 else PollWait(attempts - 1) + PollBackoff(attempts)
  }

  /** 30 seconds, then 2 minutes, then 10 minutes, then an hour each. */
  lemma {:induction false} SubmitWaitClosedForm(k: int)
    requires k >= 1
    ensures SubmitWait(k) == if k == 1 then 30 else if k == 2 then 150 else 750 + 3600 * (k - 3)
  {
    if k > 3 {
      SubmitWaitClosedForm(k - 1);
    } else {
      assert SubmitWait(1) == 30 && SubmitWait(2) == 150;
    }
  }

  /** 5, 15, 30 and 60 seconds, then six times 5 minutes, then 15 minutes each. */
  lemma {:induction false} PollWaitClosedForm(k: int)
    requires k >= 1
    ensures PollWait(k) == if k == 1 then 5 else if k == 2 then 20 else if k == 3 then 50
                           else if k <= 10 then 110 + 300 * (k - 4) else 1910 + 900 * (k - 10)
  {
    if k > 4 {
      PollWaitClosedForm(k - 1);
    } else {
      assert PollWait(1) == 5 && PollWait(2) == 20 && PollWait(3) == 50;
    }
  }
}
