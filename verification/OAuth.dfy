/**
 `LhdnClient::access_token` (crates/adapters/src/lhdn/client.rs) for any number of
 concurrent callers: a memory cache, a database row and a remote fetch behind one
 lock, with every await point a place where others may run.

 The process may restart at any point, losing the cache and all callers and
 keeping the row. A caller's future may be dropped at any await point: the method
 is public and cannot rule that out, although nothing in this program does it, its
 callers being the workers' ticks, which are awaited to the end. One process uses
 the row.
 */
module OAuth {
  import opened Wrappers

  const TOKEN_LEEWAY: int := 60

  datatype Token = Token(text: string, expiresAt: int)

  /** `CachedToken::is_fresh`. */
  predicate IsFresh(token: Token, now: int) {
    token.expiresAt - now > TOKEN_LEEWAY
  }

  predicate FreshIn(slot: Option<Token>, now: int) {
    slot.Some? && IsFresh(slot.value, now)
  }

  datatype TokenError = StorageFailed | FetchFailed

  /** Where a caller past its first look at the cache stands. */
  datatype Pc =
    | Waiting                 // for the lock
    | Locked                  // about to look at the cache again
    | Reading                 // about to read the row
    | Stale                   // about to ask for a new token
    | Asking                  // waiting for the answer
    | Granted(token: Token, at: int, seconds: int)         // about to store it in the row
    | Keeping(token: Token, at: int, grant: Option<int>)   // about to store it in the cache

  predicate PastLock(pc: Pc) {
    !pc.Waiting?
  }

  type Caller = nat

  /** What a caller got: `at` is the clock at the last check or answer it saw, and
      `grant` the validity of a token just fetched, none for a stored one. */
  datatype Return = Return(i: Caller, result: Result<Token, TokenError>, at: int, grant: Option<int>)

  datatype Client = Client(
    cache: Option<Token>,
    row: Option<Token>,
    lock: Option<Caller>,
    callers: map<Caller, Pc>,
    now: int,
    fetches: seq<int>,        // when each token request was sent
    results: seq<Return>)     // what each finished call returned

  datatype Step =
    | Call(i: Caller)
    | Acquire(i: Caller)
    | LookAgain(i: Caller)
    | ReadRow(i: Caller, ok: bool)
    | Ask(i: Caller)
    | AnswerToken(i: Caller, answer: Option<(string, int)>, t: int)   // text and expires_in
    | Upsert(i: Caller, ok: bool)
    | WriteCache(i: Caller)
    | Drop(i: Caller)
    | Restart
    | Advance(seconds: nat)

  predicate Stands(s: Client, i: Caller, pc: Pc) {
    i in s.callers && s.callers[i] == pc
  }

  predicate Enabled(s: Client, step: Step) {
    match step
    case Call(i) => i !in s.callers
    case Acquire(i) => Stands(s, i, Waiting) && s.lock == None
    case LookAgain(i) => Stands(s, i, Locked)
    case ReadRow(i, _) => Stands(s, i, Reading)
    case Ask(i) => Stands(s, i, Stale)
    case AnswerToken(i, _, t) => Stands(s, i, Asking) && s.fetches != [] && s.fetches[|s.fetches| - 1] <= t <= s.now
    case Upsert(i, _) => i in s.callers && s.callers[i].Granted?
    case WriteCache(i) => i in s.callers && s.callers[i].Keeping?
    case Drop(i) => i in s.callers
    case Restart => true
    case Advance(_) => true
  }

  function Move(s: Client, i: Caller, pc: Pc): Client {
    s.(callers := s.callers[i := pc])
  }

  /** The caller is gone, and the lock with it. */
  function Leave(s: Client, i: Caller): Client {
    s.(callers := s.callers - {i}, lock := None)
  }

  function Log(s: Client, i: Caller, result: Result<Token, TokenError>, at: int, grant: Option<int>): Client {
    s.(results := s.results + [Return(i, result, at, grant)])
  }

  function Fail(s: Client, i: Caller, e: TokenError): Client {
    Log(Leave(s, i), i, Failure(e), s.now, None)
  }

  function Apply(s: Client, step: Step): Client
    requires Enabled(s, step)
  {
    match step
    case Call(i) =>
      if FreshIn(s.cache, s.now) then Log(s, i, Success(s.cache.value), s.now, None) else Move(s, i, Waiting)
    case Acquire(i) => Move(s, i, Locked).(lock := Some(i))
    case LookAgain(i) =>
      if FreshIn(s.cache, s.now) then Log(Leave(s, i), i, Success(s.cache.value), s.now, None) else Move(s, i, Reading)
    case ReadRow(i, ok) =>
      if !ok then Fail(s, i, StorageFailed)
      else if FreshIn(s.row, s.now) then Move(s, i, Keeping(s.row.value, s.now, None))
      else Move(s, i, Stale)
    case Ask(i) => Move(s, i, Asking).(fetches := s.fetches + [s.now])
    case AnswerToken(i, answer, t) =>
      (match answer
       case None => Fail(s, i, FetchFailed)
       case Some((text, expiresIn)) => Move(s, i, Granted(Token(text, t + expiresIn), t, expiresIn)))
    case Upsert(i, ok) =>
      var pc := s.callers[i];
      if ok then Move(s, i, Keeping(pc.token, pc.at, Some(pc.seconds))).(row := Some(pc.token))
      else Fail(s, i, StorageFailed)
    case WriteCache(i) =>
      var Keeping(token, at, grant) := s.callers[i];
      Log(Leave(s, i), i, Success(token), at, grant).(cache := Some(token))
    case Drop(i) => if PastLock(s.callers[i]) then Leave(s, i) else s.(callers := s.callers - {i})
    case Restart => s.(cache := None, lock := None, callers := map[])
    case Advance(seconds) => s.(now := s.now + seconds)
  }

  /** A fresh process over whatever row an earlier one left. */
  predicate Init(s: Client) {
    s.cache == None && s.lock == None && s.callers == map[] && s.fetches == [] && s.results == []
  }

  ghost predicate StepAt(run: seq<Client>, steps: seq<Step>, i: int) {
    0 <= i < |steps| && |run| == |steps| + 1 && Enabled(run[i], steps[i]) && run[i + 1] == Apply(run[i], steps[i])
  }

  ghost predicate IsRun(run: seq<Client>, steps: seq<Step>) {
    |run| == |steps| + 1 && Init(run[0]) && forall i :: 0 <= i < |steps| ==> StepAt(run, steps, i)
  }

  // ----- Single flight, and agreement of the two caches ----------------------

  /** A token served from memory is the one in the row. */
  predicate CacheAgrees(s: Client) {
    FreshIn(s.cache, s.now) ==> s.row == s.cache
  }

  /** A stored token was checked at `at`; a fetched one was answered then. */
  predicate Vouched(token: Token, at: int, grant: Option<int>) {
    match grant
    case None => IsFresh(token, at)
    case Some(seconds) => token.expiresAt == at + seconds
  }

  predicate HolderOk(s: Client, pc: Pc) {
    match pc
    case Waiting => true
    case Locked => CacheAgrees(s)
    case Reading => !FreshIn(s.cache, s.now)
    case Stale => !FreshIn(s.cache, s.now) && !FreshIn(s.row, s.now)
    case Asking => !FreshIn(s.cache, s.now) && s.fetches != [] && s.fetches[|s.fetches| - 1] <= s.now
    case Granted(token, at, seconds) => !FreshIn(s.cache, s.now) && Vouched(token, at, Some(seconds))
    case Keeping(token, at, grant) => !FreshIn(s.cache, s.now) && s.row == Some(token) && Vouched(token, at, grant)
  }

  ghost predicate LockInv(s: Client) {
    && (forall i :: i in s.callers && PastLock(s.callers[i]) <==> s.lock == Some(i))
    && (forall i :: i in s.callers ==> HolderOk(s, s.callers[i]))
    && (s.lock == None ==> CacheAgrees(s))
    && (forall j :: 0 <= j < |s.results| ==> ReturnOk(s.results[j]))
  }

  predicate ReturnOk(r: Return) {
    r.result.Success? ==> Vouched(r.result.value, r.at, r.grant)
  }

  function HolderPc(s: Client): Option<Pc> {
    if s.lock.Some? && s.lock.value in s.callers then Some(s.callers[s.lock.value]) else None
  }

  lemma HolderIs(s: Client, i: Caller)
    requires LockInv(s) && i in s.callers && PastLock(s.callers[i])
    ensures s.lock == Some(i) && HolderPc(s) == Some(s.callers[i]) && HolderOk(s, s.callers[i])
  {
  }

  lemma StepKeepsInv(s: Client, step: Step)
    requires LockInv(s) && Enabled(s, step)
    ensures LockInv(Apply(s, step))
  {
    var s' := Apply(s, step);
    match step
    case Advance(_) =>
      forall i | i in s'.callers ensures HolderOk(s', s'.callers[i]) { assert HolderOk(s, s.callers[i]); }
    case _ =>
  }

  lemma {:induction false} RunKeepsInv(run: seq<Client>, steps: seq<Step>, k: nat)
    requires IsRun(run, steps) && k < |run|
    ensures LockInv(run[k])
  {
    if k > 0 {
      RunKeepsInv(run, steps, k - 1);
      assert StepAt(run, steps, k - 1);
      StepKeepsInv(run[k - 1], steps[k - 1]);
    }
  }

  /** However many callers there are, at most one is past the lock, so at most
      one token request is under way. */
  lemma SingleFlight(run: seq<Client>, steps: seq<Step>, k: nat, i: Caller, j: Caller)
    requires IsRun(run, steps) && k < |run|
    requires i in run[k].callers && PastLock(run[k].callers[i])
    requires j in run[k].callers && PastLock(run[k].callers[j])
    ensures i == j
  {
    RunKeepsInv(run, steps, k);
  }

  /** Whenever nobody holds the lock, a token the memory cache would still serve
      is the one in the row, whatever callers were dropped on the way. */
  lemma ServedTokenIsStored(run: seq<Client>, steps: seq<Step>, k: nat)
    requires IsRun(run, steps) && k < |run| && run[k].lock == None && FreshIn(run[k].cache, run[k].now)
    ensures run[k].row == run[k].cache
  {
    RunKeepsInv(run, steps, k);
  }

  /** A token is only asked for when every stored token is stale. */
  lemma FetchOnlyWhenStale(run: seq<Client>, steps: seq<Step>, k: nat)
    requires IsRun(run, steps) && k < |steps| && steps[k].Ask?
    ensures !FreshIn(run[k].cache, run[k].now) && !FreshIn(run[k].row, run[k].now)
  {
    RunKeepsInv(run, steps, k);
    assert StepAt(run, steps, k);
    assert HolderOk(run[k], run[k].callers[steps[k].i]);
  }

  // ----- Which token is returned ---------------------------------------------

  /** A token the memory cache would serve is the one in the row, whoever holds
      the lock. */
  lemma ServedIsStored(s: Client)
    requires LockInv(s) && FreshIn(s.cache, s.now)
    ensures s.row == s.cache
  {
    if s.lock.Some? {
      assert HolderOk(s, s.callers[s.lock.value]);
    }
  }

  /** A step appends at most one result. A token it returns is the row's, and the
      memory cache's too, before the step if it came from there and after it in
      every case in which the caller held the lock. */
  lemma StepReturns(s: Client, step: Step)
    requires LockInv(s) && Enabled(s, step)
    ensures var s' := Apply(s, step);
            && |s.results| <= |s'.results| <= |s.results| + 1 && s'.results[..|s.results|] == s.results
            && (|s'.results| == |s.results| + 1 && s'.results[|s.results|].result.Success? ==>
                  var token := s'.results[|s.results|].result.value;
                  && s.row == Some(token) && s'.row == Some(token) && s'.cache == Some(token)
                  && (step.Call? || step.LookAgain? ==> s.cache == Some(token))
                  && (step.Call? || step.LookAgain? || step.WriteCache?))
  {
    match step
    case Call(_) => if FreshIn(s.cache, s.now) { ServedIsStored(s); }
    case LookAgain(_) => if FreshIn(s.cache, s.now) { ServedIsStored(s); }
    case WriteCache(i) => HolderIs(s, i);
    case _ =>
  }

  /** Over every run: what step `k` returns is the token in the row, and for a
      call served from memory the token in the cache. */
  lemma ReturnedIsStored(run: seq<Client>, steps: seq<Step>, k: nat)
    requires IsRun(run, steps) && k < |steps| && |run[k + 1].results| > |run[k].results|
    requires run[k + 1].results[|run[k].results|].result.Success?
    ensures var token := run[k + 1].results[|run[k].results|].result.value;
            && run[k].row == Some(token) && run[k + 1].cache == Some(token)
            && (steps[k].Call? || steps[k].LookAgain? ==> run[k].cache == Some(token))
  {
    RunKeepsInv(run, steps, k);
    assert StepAt(run, steps, k);
    StepReturns(run[k], steps[k]);
  }

  // ----- Where tokens come from ----------------------------------------------

  /** Step `j` brought this token from the endpoint. */
  predicate Brought(step: Step, token: Token) {
    && step.AnswerToken? && step.answer.Some? && step.answer.value.0 == token.text
    && token.expiresAt == step.t + step.answer.value.1
  }

  /** The endpoint answered it in one of the first `k` steps, or the run started
      with it in the row. */
  ghost predicate Genuine(run: seq<Client>, steps: seq<Step>, k: nat, token: Token)
    requires run != [] && k <= |steps|
  {
    run[0].row == Some(token) || exists j :: 0 <= j < k && Brought(steps[j], token)
  }

  predicate Holds(pc: Pc, token: Token) {
    (pc.Granted? || pc.Keeping?) && pc.token == token
  }

  /** The token is somewhere in the client. */
  ghost predicate Present(s: Client, token: Token) {
    || s.cache == Some(token) || s.row == Some(token)
    || (exists i :: i in s.callers && Holds(s.callers[i], token))
    || (exists j :: 0 <= j < |s.results| && s.results[j].result == Success(token))
  }

  lemma StepBrings(s: Client, step: Step, token: Token)
    requires Enabled(s, step) && Present(Apply(s, step), token) && !Present(s, token)
    ensures Brought(step, token)
  {
    var s' := Apply(s, step);
    if i :| i in s'.callers && Holds(s'.callers[i], token) {
      assert i in s.callers ==> !Holds(s.callers[i], token);
    }
    if j :| 0 <= j < |s'.results| && s'.results[j].result == Success(token) {
      if j < |s.results| { assert s.results[j] == s'.results[j]; }
    }
  }

  /** No token is made up: whatever is in the cache, in the row, in a caller's
      hands or returned was answered by the endpoint, text and expiry, or was in
      the row when the process started. */
  lemma {:induction false} TokensGenuine(run: seq<Client>, steps: seq<Step>, k: nat, token: Token)
    requires IsRun(run, steps) && k < |run| && Present(run[k], token)
    ensures Genuine(run, steps, k, token)
  {
    if k > 0 {
      assert StepAt(run, steps, k - 1);
      if Present(run[k - 1], token) {
        TokensGenuine(run, steps, k - 1, token);
      } else {
        StepBrings(run[k - 1], steps[k - 1], token);
      }
    }
  }

  /** However callers interleave, a returned token is valid for the leeway, at
      the last check or answer its caller saw, exactly when it was a stored one
      or was granted for longer than the leeway. */
  lemma LeewayForAllIff(run: seq<Client>, steps: seq<Step>, k: nat, j: nat)
    requires IsRun(run, steps) && k < |run| && j < |run[k].results| && run[k].results[j].result.Success?
    ensures var r := run[k].results[j];
            IsFresh(r.result.value, r.at) <==> r.grant == None || r.grant.value > TOKEN_LEEWAY
  {
    RunKeepsInv(run, steps, k);
    assert ReturnOk(run[k].results[j]);
  }

  // ----- A cache that is not the row -----------------------------------------

  predicate CacheIsRow(s: Client) {
    s.cache.Some? ==> s.row == s.cache
  }

  predicate KeeperIn(s: Client, i: Caller) {
    i in s.callers && s.callers[i].Keeping?
  }

  /** Of the writes of the cache, the restarts and the drops of a caller between
      the two stores, the last was a drop, and the token it was about to write is
      not the one in the cache. */
  predicate Diverged(run: seq<Client>, steps: seq<Step>, k: nat)
    requires |run| == |steps| + 1 && k < |run|
  {
    k > 0
    && match steps[k - 1]
       case WriteCache(_) => false
       case Restart => false
       case Drop(i) =>
         if KeeperIn(run[k - 1], i) then run[k - 1].cache.Some? && run[k - 1].cache.value != run[k - 1].callers[i].token
         else Diverged(run, steps, k - 1)
       case _ => Diverged(run, steps, k - 1)
  }

  predicate SomeoneKeeps(s: Client) {
    HolderPc(s).Some? && HolderPc(s).value.Keeping?
  }

  lemma StepKeepsAgreement(s: Client, step: Step, diverged: bool)
    requires LockInv(s) && Enabled(s, step) && (SomeoneKeeps(s) || (CacheIsRow(s) <==> !diverged))
    ensures var s' := Apply(s, step);
            SomeoneKeeps(s') ||
            (CacheIsRow(s') <==>
              match step
              case WriteCache(_) => true
              case Restart => true
              case Drop(i) =>
                if KeeperIn(s, i) then s.cache == None || s.cache.value == s.callers[i].token else !diverged
              case _ => !diverged)
  {
    match step
    case Drop(i) => if PastLock(s.callers[i]) { HolderIs(s, i); }
    case Upsert(i, _) => HolderIs(s, i);
    case WriteCache(i) => HolderIs(s, i);
    case _ =>
  }

  lemma {:induction false} RunKeepsAgreement(run: seq<Client>, steps: seq<Step>, k: nat)
    requires IsRun(run, steps) && k < |run|
    ensures SomeoneKeeps(run[k]) || (CacheIsRow(run[k]) <==> !Diverged(run, steps, k))
  {
    if k > 0 {
      RunKeepsAgreement(run, steps, k - 1);
      RunKeepsInv(run, steps, k - 1);
      assert StepAt(run, steps, k - 1);
      StepKeepsAgreement(run[k - 1], steps[k - 1], Diverged(run, steps, k - 1));
    }
  }

  /** Whenever nobody holds the lock, a populated memory cache equals the row
      exactly when the last to touch it was not a caller dropped between the two
      stores with another token in hand. */
  lemma CachesAgreeIff(run: seq<Client>, steps: seq<Step>, k: nat)
    requires IsRun(run, steps) && k < |run| && run[k].lock == None
    ensures CacheIsRow(run[k]) <==> !Diverged(run, steps, k)
  {
    RunKeepsAgreement(run, steps, k);
  }

  /** No caller is dropped between storing a token in the row and in the cache,
      as none is in this program. */
  ghost predicate KeepersFinish(run: seq<Client>, steps: seq<Step>) {
    IsRun(run, steps) && forall k :: 0 <= k < |steps| ==> Finishes(run[k], steps[k])
  }

  predicate Finishes(s: Client, step: Step) {
    step.Drop? ==> !KeeperIn(s, step.i)
  }

  lemma {:induction false} NeverDiverged(run: seq<Client>, steps: seq<Step>, k: nat)
    requires KeepersFinish(run, steps) && k < |run|
    ensures !Diverged(run, steps, k)
  {
    if k > 0 {
      NeverDiverged(run, steps, k - 1);
      assert Finishes(run[k - 1], steps[k - 1]);
    }
  }

  /** Then, whenever nobody holds the lock, even a cache that has gone stale
      equals the row. */
  lemma CachesAgree(run: seq<Client>, steps: seq<Step>, k: nat)
    requires KeepersFinish(run, steps) && k < |run| && run[k].lock == None && run[k].cache.Some?
    ensures run[k].row == run[k].cache
  {
    NeverDiverged(run, steps, k);
    CachesAgreeIff(run, steps, k);
  }

  lemma RunOn(run: seq<Client>, steps: seq<Step>, step: Step) returns (run': seq<Client>, steps': seq<Step>)
    requires IsRun(run, steps) && Enabled(run[|run| - 1], step)
    ensures IsRun(run', steps') && run'[|run'| - 1] == Apply(run[|run| - 1], step)
  {
    run', steps' := run + [Apply(run[|run| - 1], step)], steps + [step];
    forall i | 0 <= i < |steps'| ensures StepAt(run', steps', i) {
      if i < |steps| { assert StepAt(run, steps, i); }
    }
  }

  /** A lone caller up to the moment between the two stores. */
  lemma Refresh(run: seq<Client>, steps: seq<Step>, text: string) returns (run': seq<Client>, steps': seq<Step>)
    requires IsRun(run, steps)
    requires var s := run[|run| - 1];
             s.lock == None && s.callers == map[] && !FreshIn(s.cache, s.now) && !FreshIn(s.row, s.now)
    ensures IsRun(run', steps')
    ensures var s, s' := run[|run| - 1], run'[|run'| - 1];
            var token := Token(text, s.now + 100);
            && s'.cache == s.cache && s'.row == Some(token) && s'.lock == Some(0) && s'.now == s.now
            && s'.callers == map[0 := Keeping(token, s.now, Some(100))]
  {
    run', steps' := RunOn(run, steps, Call(0));
    run', steps' := RunOn(run', steps', Acquire(0));
    run', steps' := RunOn(run', steps', LookAgain(0));
    run', steps' := RunOn(run', steps', ReadRow(0, true));
    run', steps' := RunOn(run', steps', Ask(0));
    run', steps' := RunOn(run', steps', AnswerToken(0, Some((text, 100)), run[|run| - 1].now));
    run', steps' := RunOn(run', steps', Upsert(0, true));
  }

  /** A run that ends with the lock free and an old token in the cache. */
  lemma DroppedKeeperDiverges() returns (run: seq<Client>, steps: seq<Step>)
    ensures IsRun(run, steps)
    ensures var s := run[|run| - 1]; s.lock == None && s.cache.Some? && s.row != s.cache
  {
    run, steps := [Client(None, None, None, map[], 0, [], [])], [];
    run, steps := Refresh(run, steps, "old");
    run, steps := RunOn(run, steps, WriteCache(0));
    run, steps := RunOn(run, steps, Advance(50));
    run, steps := Refresh(run, steps, "new");
    run, steps := RunOn(run, steps, Drop(0));
  }

  // ----- Fetch rate ----------------------------------------------------------

  /** The endpoint grants at least `e` seconds, stores succeed, and neither the
      process nor the caller stops between asking for a token and storing it. */
  predicate GoodStep(s: Client, step: Step, e: int) {
    match step
    case AnswerToken(_, answer, _) => answer.Some? && answer.value.1 >= e
    case Upsert(_, ok) => ok
    case Drop(i) => i in s.callers ==> !s.callers[i].Asking? && !s.callers[i].Granted?
    case Restart => s.lock == None
    case _ => true
  }

  ghost predicate GoodRun(run: seq<Client>, steps: seq<Step>, e: int) {
    IsRun(run, steps) && forall i :: 0 <= i < |steps| ==> GoodStep(run[i], steps[i], e)
  }

  predicate Spaced(fetches: seq<int>, gap: int) {
    forall i :: 0 < i < |fetches| ==> fetches[i] >= fetches[i - 1] + gap
  }

  /** The latest request's token is in the row, or on its way there. */
  predicate LastFetchKept(s: Client, e: int) {
    s.fetches != [] ==>
      var last := s.fetches[|s.fetches| - 1];
      match HolderPc(s)
      case Some(Asking) => true
      case Some(Granted(token, _, _)) => token.expiresAt >= last + e
      case _ => s.row.Some? && s.row.value.expiresAt >= last + e
  }

  predicate RateInv(s: Client, e: int) {
    Spaced(s.fetches, e - TOKEN_LEEWAY) && LastFetchKept(s, e)
  }

  lemma StepKeepsRate(s: Client, step: Step, e: int)
    requires LockInv(s) && RateInv(s, e) && Enabled(s, step) && GoodStep(s, step, e)
    ensures RateInv(Apply(s, step), e)
  {
    match step
    case Call(_) =>
    case Acquire(_) =>
    case Restart =>
    case Advance(_) =>
    case Drop(i) => if PastLock(s.callers[i]) { HolderIs(s, i); }
    case LookAgain(i) => HolderIs(s, i);
    case ReadRow(i, _) => HolderIs(s, i);
    case Ask(i) => HolderIs(s, i);
    case AnswerToken(i, _, _) => HolderIs(s, i);
    case Upsert(i, _) => HolderIs(s, i);
    case WriteCache(i) => HolderIs(s, i);
  }

  lemma {:induction false} RunKeepsRate(run: seq<Client>, steps: seq<Step>, e: int, k: nat)
    requires GoodRun(run, steps, e) && k < |run|
    ensures RateInv(run[k], e)
  {
    if k > 0 {
      RunKeepsRate(run, steps, e, k - 1);
      RunKeepsInv(run, steps, k - 1);
      assert StepAt(run, steps, k - 1);
      StepKeepsRate(run[k - 1], steps[k - 1], e);
    }
  }

  lemma {:induction false} SpacedApart(fetches: seq<int>, gap: int, i: nat, j: nat)
    requires Spaced(fetches, gap) && i <= j < |fetches|
    ensures fetches[j] - fetches[i] >= (j - i) * gap
    decreases j
  {
    if i < j {
      SpacedApart(fetches, gap, i, j - 1);
      assert (j - i) * gap == (j - 1 - i) * gap + gap;
    }
  }

  /** In a window of `length` seconds at most 1 + length / (e - 60) token
      requests are sent, when replies grant `e` > 60 seconds. */
  lemma FetchRate(run: seq<Client>, steps: seq<Step>, e: int, k: nat, i: nat, j: nat, length: nat)
    requires GoodRun(run, steps, e) && k < |run| && e > TOKEN_LEEWAY
    requires i <= j < |run[k].fetches| && run[k].fetches[j] - run[k].fetches[i] <= length
    ensures j - i + 1 <= 1 + length / (e - 60)
  {
    RunKeepsRate(run, steps, e, k);
    SpacedApart(run[k].fetches, e - 60, i, j);
    Quotient(j - i, e - 60, length);
  }

  lemma BeyondQuotient(m: nat, gap: int, length: nat)
    requires gap > 0 && m >= length / gap + 1
    ensures m * gap > length
  {
    var q := length / gap;
    assert m * gap == (q + 1) * gap + (m - q - 1) * gap;
    assert (m - q - 1) * gap >= 0;
  }

  lemma Quotient(m: nat, gap: int, length: nat)
    requires gap > 0 && m * gap <= length
    ensures m <= length / gap
  {
    if m > length / gap { BeyondQuotient(m, gap, length); }
  }
}
