/**
 `access_token` and the token table as one caller executes them
 (crates/adapters/src/lhdn/{client,token_repo}.rs), and when the promise in its
 documentation - a token valid for at least the leeway - is kept.
 */
module TokenClient {
  import opened Wrappers
  import opened OAuth

  /** What one call meets: the clock at each freshness check, whether the row can
      be read and written, and the endpoint's answer. */
  datatype TokenWorld = TokenWorld(
    firstLook: int,
    secondLook: int,
    rowLook: int,
    readOk: bool,
    answer: Option<(string, int)>,
    answeredAt: int,
    storeOk: bool)

  datatype Caches = Caches(cache: Option<Token>, row: Option<Token>)

  datatype Outcome = Outcome(after: Caches, result: Result<Token, TokenError>)

  /** What the call returns and leaves behind when it runs alone. */
  function CallOutcome(s: Caches, w: TokenWorld): Outcome {
    if FreshIn(s.cache, w.firstLook) || FreshIn(s.cache, w.secondLook) then Outcome(s, Success(s.cache.value))
    else if !w.readOk then Outcome(s, Failure(StorageFailed))
    else if FreshIn(s.row, w.rowLook) then Outcome(Caches(s.row, s.row), Success(s.row.value))
    else
      match w.answer
      case None => Outcome(s, Failure(FetchFailed))
      case Some((text, expiresIn)) =>
        var token := Token(text, w.answeredAt + expiresIn);
        if w.storeOk then Outcome(Caches(Some(token), Some(token)), Success(token))
        else Outcome(s, Failure(StorageFailed))
  }

  /** Valid for more than a minute at `now`. */
  predicate Fresh(token: Option<Token>, now: int) {
    token.Some? && token.value.expiresAt > now + 60
  }

  /** The `oauth_tokens` table, keyed by environment. */
  class OauthTokenStore {
    var tokens: map<string, Token>

    constructor ()
      ensures tokens == map[]
    {
      tokens := map[];
    }

    method Get(env: string) returns (token: Option<Token>)
      ensures token == Row(env)
    {
      token := if env in tokens then Some(tokens[env]) else None;
    }

    function Row(env: string): Option<Token>
      reads this
    {
      if env in tokens then Some(tokens[env]) else None
    }

    method Upsert(env: string, token: Token)
      modifies this
      ensures tokens == old(tokens)[env := token]
    {
      tokens := tokens[env := token];
    }
  }

  class LhdnClient {
    const env: string
    const store: OauthTokenStore
    var cache: Option<Token>

    constructor (env: string, store: OauthTokenStore)
      ensures this.env == env && this.store == store && cache == None
    {
      this.env, this.store, cache := env, store, None;
    }

    function View(): Caches
      reads this, store
    {
      Caches(cache, store.Row(env))
    }

    method AccessToken(w: TokenWorld) returns (r: Result<Token, TokenError>)
      modifies this, store
      ensures Outcome(View(), r) == CallOutcome(old(View()), w)
      // A fresh token in memory is returned and nothing changes; else one in the row,
      // which is kept in memory; else the endpoint's, which is kept in both.
      ensures Fresh(old(cache), w.firstLook) || Fresh(old(cache), w.secondLook) ==>
                r == Success(old(cache).value) && cache == old(cache) && store.Row(env) == old(store.Row(env))
      ensures !Fresh(old(cache), w.firstLook) && !Fresh(old(cache), w.secondLook) ==>
                if !w.readOk then r == Failure(StorageFailed) && View() == old(View())
                else if Fresh(old(store.Row(env)), w.rowLook) then
                  r == Success(old(store.Row(env)).value) && cache == store.Row(env) == old(store.Row(env))
                else if w.answer.None? then r == Failure(FetchFailed) && View() == old(View())
                else if !w.storeOk then r == Failure(StorageFailed) && View() == old(View())
                else
                  && r.Success? && r.value.text == w.answer.value.0
                  && r.value.expiresAt == w.answeredAt + w.answer.value.1
                  && cache == store.Row(env) == Some(r.value)
      ensures forall other :: other != env ==> store.Row(other) == old(store.Row(other))
    {
      if FreshIn(cache, w.firstLook) { return Success(cache.value); }
      // The lock is taken here; someone may have refreshed meanwhile.
      if FreshIn(cache, w.secondLook) { return Success(cache.value); }
      if !w.readOk { return Failure(StorageFailed); }
      var stored := store.Get(env);
      if FreshIn(stored, w.rowLook) {
        cache := stored;
        return Success(stored.value);
      }
      if w.answer.None? { return Failure(FetchFailed); }
      var token := Token(w.answer.value.0, w.answeredAt + w.answer.value.1);
      if !w.storeOk { return Failure(StorageFailed); }
      store.Upsert(env, token);
      cache := Some(token);
      return Success(token);
    }
  }

  // ----- The documented promise ----------------------------------------------

  /** The last freshness check or answer the call saw before returning. */
  function LastLook(s: Caches, w: TokenWorld): int {
    if FreshIn(s.cache, w.firstLook) then w.firstLook
    else if FreshIn(s.cache, w.secondLook) then w.secondLook
    else if FreshIn(s.row, w.rowLook) then w.rowLook
    else w.answeredAt
  }

  /** A returned token is valid for the leeway exactly when it came from a cache
      or was granted for longer than the leeway. */
  lemma LeewayKeptIff(s: Caches, w: TokenWorld)
    requires CallOutcome(s, w).result.Success?
    ensures IsFresh(CallOutcome(s, w).result.value, LastLook(s, w))
       <==> FreshIn(s.cache, w.firstLook) || FreshIn(s.cache, w.secondLook) || FreshIn(s.row, w.rowLook)
            || w.answer.value.1 > TOKEN_LEEWAY
  {
  }

  /** The promise fails when the endpoint grants a short-lived token. */
  lemma LeewayCanFail()
    ensures var w := TokenWorld(0, 0, 0, true, Some(("t", 60)), 0, true);
            var r := CallOutcome(Caches(None, None), w).result;
            r == Success(Token("t", 60)) && !IsFresh(r.value, 0)
  {
  }

  // ----- One caller among many -----------------------------------------------

  ghost predicate CallPath(s: Client, steps: seq<Step>, s': Client)
    decreases |steps|
  {
    if steps == [] then s == s' else Enabled(s, steps[0]) && CallPath(Apply(s, steps[0]), steps[1..], s')
  }

  lemma OneMoreStep(s: Client, steps: seq<Step>, mid: Client, step: Step) returns (s': Client)
    requires CallPath(s, steps, mid) && Enabled(mid, step)
    ensures s' == Apply(mid, step) && CallPath(s, steps + [step], s')
    decreases |steps|
  {
    s' := Apply(mid, step);
    if steps == [] {
      assert [step][1..] == [];
    } else {
      var _ := OneMoreStep(Apply(s, steps[0]), steps[1..], mid, step);
      assert (steps + [step])[1..] == steps[1..] + [step];
    }
  }

  /** The clock reads of a call come in this order. */
  predicate LooksInOrder(now: int, w: TokenWorld) {
    now <= w.firstLook <= w.secondLook <= w.rowLook <= w.answeredAt
  }

  lemma WaitUntil(s: Client, steps: seq<Step>, mid: Client, t: int) returns (steps': seq<Step>, s': Client)
    requires CallPath(s, steps, mid) && mid.now <= t
    ensures CallPath(s, steps', s') && s' == mid.(now := t)
  {
    s' := OneMoreStep(s, steps, mid, Advance(t - mid.now));
    steps' := steps + [Advance(t - mid.now)];
  }

  /** From a stale row up to the write of the memory cache. */
  lemma Refetch(s: Client, before: seq<Step>, mid: Client, i: Caller, w: TokenWorld)
    returns (steps: seq<Step>, s': Client)
    requires CallPath(s, before, mid) && Stands(mid, i, Stale) && mid.lock == Some(i) && mid.now <= w.answeredAt
    ensures CallPath(s, steps, s') && s'.cache == mid.cache && s'.now == w.answeredAt
    ensures if w.answer.Some? && w.storeOk
            then var token := Token(w.answer.value.0, w.answeredAt + w.answer.value.1);
                 && s'.row == Some(token) && s'.lock == mid.lock && s'.results == mid.results
                 && s'.callers == mid.callers[i := Keeping(token, w.answeredAt, Some(w.answer.value.1))]
            else
              && s'.row == mid.row && s'.lock == None && s'.callers == mid.callers - {i}
              && var e := if w.answer.None? then FetchFailed else StorageFailed;
                 s'.results == mid.results + [Return(i, Failure(e), w.answeredAt, None)]
  {
    s' := OneMoreStep(s, before, mid, Ask(i));
    steps := before + [Ask(i)];
    steps, s' := WaitUntil(s, steps, s', w.answeredAt);
    s' := OneMoreStep(s, steps, s', AnswerToken(i, w.answer, w.answeredAt));
    steps := steps + [AnswerToken(i, w.answer, w.answeredAt)];
    if w.answer.Some? {
      s' := OneMoreStep(s, steps, s', Upsert(i, w.storeOk));
      steps := steps + [Upsert(i, w.storeOk)];
    }
  }

  /** From the lock up to the write of the memory cache. */
  lemma PastTheLock(s: Client, before: seq<Step>, mid: Client, i: Caller, w: TokenWorld)
    returns (steps: seq<Step>, s': Client)
    requires CallPath(s, before, mid) && Stands(mid, i, Waiting) && mid.lock == None
    requires LooksInOrder(mid.now, w) && !FreshIn(mid.cache, w.firstLook)
    ensures CallPath(s, steps, s')
    ensures var outcome := CallOutcome(Caches(mid.cache, mid.row), w);
            if i in s'.callers
            then
              && s'.callers[i].Keeping? && s'.callers == mid.callers[i := s'.callers[i]] && s'.results == mid.results
              && outcome.result == Success(s'.callers[i].token)
              && outcome.after == Caches(Some(s'.callers[i].token), s'.row)
            else
              && s'.callers == mid.callers - {i} && s'.lock == None
              && outcome.after == Caches(s'.cache, s'.row)
              && |s'.results| == |mid.results| + 1
              && s'.results[|mid.results|].i == i && s'.results[|mid.results|].result == outcome.result
  {
    s' := OneMoreStep(s, before, mid, Acquire(i));
    steps := before + [Acquire(i)];
    steps, s' := WaitUntil(s, steps, s', w.secondLook);
    s' := OneMoreStep(s, steps, s', LookAgain(i));
    steps := steps + [LookAgain(i)];
    if i in s'.callers {
      steps, s' := WaitUntil(s, steps, s', w.rowLook);
      s' := OneMoreStep(s, steps, s', ReadRow(i, w.readOk));
      steps := steps + [ReadRow(i, w.readOk)];
      if w.readOk && !FreshIn(mid.row, w.rowLook) { steps, s' := Refetch(s, steps, s', i, w); }
    }
  }

  /** Run alone among the interleaved callers, whatever it meets and however the
      clock moves, a call leaves the memory cache and the row as `AccessToken`
      does, returns what it returns, and leaves the lock free. */
  lemma SoloCallMatches(s: Client, i: Caller, w: TokenWorld) returns (steps: seq<Step>, s': Client)
    requires i !in s.callers && s.lock == None && LooksInOrder(s.now, w)
    ensures CallPath(s, steps, s') && s'.lock == None && s'.callers == s.callers
    ensures |s'.results| == |s.results| + 1 && s'.results[|s.results|].i == i
    ensures Outcome(Caches(s'.cache, s'.row), s'.results[|s.results|].result)
         == CallOutcome(Caches(s.cache, s.row), w)
  {
    steps, s' := WaitUntil(s, [], s, w.firstLook);
    s' := OneMoreStep(s, steps, s', Call(i));
    steps := steps + [Call(i)];
    if !FreshIn(s.cache, w.firstLook) {
      steps, s' := PastTheLock(s, steps, s', i, w);
      if i in s'.callers {
        s' := OneMoreStep(s, steps, s', WriteCache(i));
        steps := steps + [WriteCache(i)];
      }
    }
  }
}
