/**
 The two token managers, the lock context they enter and the Graph client on top, as the loops and
 objects they are. Whatever a call awaits, other calls may run meanwhile: `World.Await` changes the
 shared state in any way RefreshRuns.WaitingMeansInterference allows.
 */
module TokenManagers {
  import opened Wrappers
  import opened Tokens
  import opened RefreshCall
  import CallCourses
  import opened CallOutcomes
  import opened RefreshSystem
  import opened LeaseExclusion
  import opened RefreshRuns

  /** Redis, the token endpoint and Graph, as one caller meets them. */
  class World {
    const buffer: int
    var clock: int
    var lock: Lock
    var version: nat
    var token: Option<TokenSet>
    var drawn: set<Owner>

    // The token call in progress: its machine state and what it was told so far.
    ghost var call: Worker
    ghost var seen: seq<Event>
    // Everything the caller was ever told, how much of it before this call, and the owner tokens
    // its DELs took off the lock key.
    ghost var log: seq<Event>
    ghost var base: seq<Event>
    ghost var removed: seq<Owner>

    constructor (buffer: int, clock: int, token: Option<TokenSet>)
      ensures this.buffer == buffer && log == [] && removed == []
    {
      this.buffer, this.clock, this.token := buffer, clock, token;
      lock, version, drawn := Free, 0, {};
      call, seen, log, base, removed := Begin(Xero), [], [], [], [];
    }

    function Key(): KeyView
      reads this
    {
      KeyView(clock, lock, version)
    }

    /** The events of the call in progress are those of a legal call, now in state `call`. */
    ghost predicate Tracked()
      reads this
    {
      && Legal(buffer, call.kind, seen) && Replay(buffer, call.kind, seen) == call
      && log == base + seen
    }

    /** The call in progress was told one more thing. */
    twostate predicate Told(e: Event)
      reads this
    {
      && Tracked()
      && Accepts(old(call), e) && call == Advance(buffer, old(call), e)
      && seen == old(seen) + [e] && base == old(base)
    }

    /** Still in the same token call, with nothing taken off the lock key since. */
    twostate predicate SameCall()
      reads this
    {
      Tracked() && base == old(base) && removed == old(removed) && call.kind == old(call).kind
    }

    ghost method StartCall(kind: Kind)
      modifies this`call, this`seen, this`base
      ensures Tracked() && call == Begin(kind) && seen == [] && base == log
    {
      call, seen, base := Begin(kind), [], log;
    }

    ghost method Note(e: Event)
      requires Tracked() && Accepts(call, e)
      modifies this`call, this`seen, this`log
      ensures Told(e)
    {
      ReplaySnoc(buffer, call.kind, seen, e);
      AdvanceKeepsKind(buffer, call, e);
      call, seen, log := Advance(buffer, call, e), seen + [e], log + [e];
    }

    /** Anything may happen here that other calls, callbacks and time can do. */
    method Await()
      modifies this`clock, this`lock, this`version, this`token, this`drawn
      ensures Interferes(call.owner, old(Key()), Key())
      ensures old(drawn) <= drawn
    {}

    method Load() returns (tok: Option<TokenSet>)
      requires Tracked() && Accepts(call, Read(None))
      modifies this
      ensures Told(Read(tok)) && removed == old(removed)
      ensures tok == token
    {
      Await();
      tok := token;
      Note(Read(tok));
    }

    method Now() returns (now: int)
      requires Tracked() && Accepts(call, Clock(0))
      modifies this
      ensures Told(Clock(now)) && removed == old(removed)
      ensures now == clock
    {
      Await();
      now := clock;
      Note(Clock(now));
    }

    /** uuid4: a token nobody has drawn before. */
    method Uuid4() returns (owner: Owner)
      modifies this`drawn
      ensures owner !in old(drawn) && drawn == old(drawn) + {owner}
    {
      var o := UnusedOwner(drawn);
      owner :| owner !in drawn;
      drawn := drawn + {owner};
    }

    /** SET key owner NX EX ttl: granted exactly when the key is free, and no effect otherwise. */
    method SetNx(owner: Owner, ttl: int) returns (granted: bool)
      requires Tracked() && Accepts(call, Tried(owner, false, ttl, clock))
      modifies this
      ensures Told(Tried(owner, granted, ttl, clock)) && removed == old(removed)
      ensures exists before: KeyView ::
        && Interferes(old(call.owner), old(Key()), before)
        && granted == before.lock.Free?
        && lock == (if granted then Held(owner, clock + ttl) else before.lock)
        && version == (if granted then before.version + 1 else before.version)
    {
      Await();
      ghost var before := Key();
      granted := lock.Free?;
      if granted {
        lock, version := Held(owner, clock + ttl), version + 1;
      }
      Note(Tried(owner, granted, ttl, clock));
    }

    method Sleep()
      requires Tracked() && call.pc.Backoff?
      modifies this
      ensures Told(Slept) && removed == old(removed)
    {
      Await();
      Note(Slept);
    }

    /** The refresh request; what comes back is up to the provider. */
    method Refresh(cur: TokenSet) returns (reply: Reply)
      requires Tracked() && call.pc == Presenting(cur)
      modifies this
      ensures Told(Asked(reply)) && removed == old(removed)
    {
      Await();
      reply := *;
      Note(Asked(reply));
    }

    method Store(tok: TokenSet)
      requires Tracked() && call.pc == Storing(tok)
      modifies this
      ensures Told(Wrote) && removed == old(removed)
      ensures token == Some(Normal(tok))
    {
      Await();
      token := Some(Normal(tok));
      Note(Wrote);
    }

    method Watch() returns (watched: nat)
      requires Tracked() && call.pc.Watching?
      modifies this
      ensures Told(Watched(watched)) && removed == old(removed)
      ensures watched == version
    {
      Await();
      watched := version;
      Note(Watched(watched));
    }

    method Get() returns (holder: Option<Owner>)
      requires Tracked() && call.pc.Fetching?
      modifies this
      ensures Told(Got(holder)) && removed == old(removed)
      ensures holder == if lock.Held? then Some(lock.owner) else None
      ensures Interferes(call.owner, old(Key()), Key())
    {
      Await();
      holder := if lock.Held? then Some(lock.owner) else None;
      Note(Got(holder));
    }

    /** MULTI, DEL, EXEC: refused when the key has changed or expired since WATCH. */
    method ExecDelete(watched: nat) returns (ok: bool)
      requires Tracked() && call.pc.Executing? && watched == call.pc.watched
      modifies this
      ensures Told(Execed(ok))
      ensures exists before: KeyView ::
        && Interferes(old(call.owner), old(Key()), before)
        && ok == (before.version == watched)
        && lock == (if ok then Free else before.lock)
        && removed == old(removed) + (if ok && before.lock.Held? then [before.lock.owner] else [])
    {
      Await();
      ghost var before := Key();
      ok := version == watched;
      if ok && lock.Held? {
        removed := removed + [lock.owner];
        lock, version := Free, version + 1;
      }
      Note(Execed(ok));
    }

    /** One POST to Graph. */
    method Post(accessToken: string) returns (status: int)
      modifies this
      ensures log == old(log) + [Posted(accessToken, status)]
      ensures removed == old(removed)
    {
      Await();
      status := *;
      log := log + [Posted(accessToken, status)];
    }
  }

  /** redis_lock.py: one attempt on the lock, released on the way out if it was granted. */
  class LockContext {
    const world: World
    var ownerToken: Option<Owner>
    var acquired: bool

    constructor (world: World)
      ensures this.world == world && ownerToken == None && !acquired
    {
      this.world, ownerToken, acquired := world, None, false;
    }

    method Enter(ttl: int) returns (granted: bool)
      requires world.Tracked() && Accepts(world.call, Tried(0, false, ttl, 0))
      modifies this, world
      ensures granted == acquired && ownerToken.Some?
      ensures world.Told(Tried(ownerToken.value, granted, ttl, world.clock))
      ensures world.removed == old(world.removed)
      ensures exists before: KeyView ::
        && Interferes(old(world.call.owner), old(world.Key()), before)
        && granted == before.lock.Free?
        && world.lock == (if granted then Held(ownerToken.value, world.clock + ttl) else before.lock)
      ensures ownerToken.value !in old(world.drawn)
    {
      var owner := world.Uuid4();
      ownerToken := Some(owner);
      acquired := world.SetNx(owner, ttl);
      granted := acquired;
    }

    /**
     Releases the lock if this context owns it. Afterwards the context's token is not on the key,
     and nothing was removed from the key but that token.
     */
    method Exit()
      requires world.Tracked()
      requires acquired ==> world.call.pc.Watching? && ownerToken == world.call.owner && ownerToken.Some?
      modifies world
      ensures !acquired ==> unchanged(world)
      ensures acquired ==>
        && world.Tracked()
        && world.call == old(world.call).(pc := Done(old(world.call.pc.pending)))
        && !OwnedBy(world.lock, ownerToken)
        && (world.removed == old(world.removed) || world.removed == old(world.removed) + [ownerToken.value])
        && world.base == old(world.base)
    {
      if !acquired || ownerToken.None? {
        return;
      }
      var watched := world.Watch();
      var current := world.Get();
      if current == ownerToken {
        var ok := world.ExecDelete(watched);
      }
    }
  }

  /** At most one token was taken off the lock key, and then it was the call's own. */
  twostate predicate OnlyOwnLockRemoved(world: World)
    reads world
  {
    || world.removed == old(world.removed)
    || (world.call.owner.Some? && world.removed == old(world.removed) + [world.call.owner.value])
  }

  /** Both managers, lock in hand: call the provider, and write what it returns before letting go. */
  method RefreshAndStore(world: World, kind: Kind, cur: TokenSet) returns (out: Outcome)
    requires world.Tracked() && world.call.kind == kind && world.call.pc == Presenting(cur)
    modifies world
    ensures world.SameCall() && world.call == old(world.call).(pc := Watching(out))
    ensures out.Returned? ==> world.token == Some(Normal(out.tok))
  {
    var reply := world.Refresh(cur);
    match reply
    case Granted(raw, _) =>
      var newToken := Refreshed(kind, cur, raw);
      world.Store(newToken);
      out := Returned(newToken);
    case Rejected => out := Expired;
    case Unavailable => out := ProviderDown;
  }

  /** xero/token_manager.py */
  class XeroTokenManager {
    const world: World

    constructor (world: World)
      ensures this.world == world
    {
      this.world := world;
    }

    method GetValidToken() returns (out: Outcome)
      modifies world
      ensures Completes(world.buffer, Xero, world.seen, out) && world.log == old(world.log) + world.seen
      ensures Promise(world.buffer, Xero, world.seen, out)
      ensures OnlyOwnLockRemoved(world) && !OwnedBy(world.lock, world.call.owner)
    {
      world.StartCall(Xero);
      var token := world.Load();
      if token == None {
        out := Missing;
      } else {
        var now := world.Now();
        if !NearExpiry(token.value, world.buffer, now) {
          out := Returned(token.value);
        } else {
          out := RefreshUnderLock();
        }
      }
      PromiseKept(world.buffer, Xero, world.seen, out);
    }

    method RefreshUnderLock() returns (out: Outcome)
      requires world.Tracked() && world.call == Worker(Xero, 0, None, 0, Contend)
      modifies world
      ensures world.Tracked() && world.call.kind == Xero && world.call.pc == Done(out)
      ensures world.base == old(world.base)
      ensures OnlyOwnLockRemoved(world) && !OwnedBy(world.lock, world.call.owner)
    {
      for attempt := 0 to RETRIES
        invariant world.SameCall() && !OwnedBy(world.lock, world.call.owner)
        invariant world.call == NextAttempt(Worker(Xero, attempt, None, 0, Contend))
      {
        var context := new LockContext(world);
        var acquired := context.Enter(LOCK_TTL);
        if acquired {
          out := DoubleCheckAndRefresh();
          context.Exit();
          return;
        }
        context.Exit();
        world.Sleep();
        var token := world.Load();
        if token.Some? {
          var now := world.Now();
          if !NearExpiry(token.value, world.buffer, now) {
            return Returned(token.value);
          }
        }
      }
      out := LockTimeout;
    }

    /** The body of the `async with`, holding the lock. */
    method DoubleCheckAndRefresh() returns (out: Outcome)
      requires world.Tracked() && world.call.kind == Xero && world.call.pc == DoubleLoad
      modifies world
      ensures world.SameCall() && world.call == old(world.call).(pc := Watching(out))
    {
      var token := world.Load();
      if token.Some? {
        var now := world.Now();
        if !NearExpiry(token.value, world.buffer, now) {
          return Returned(token.value);
        }
      }
      if token.None? {
        return Crashed;
      }
      if !Refreshable(Xero, token.value) {
        return Expired;
      }
      out := RefreshAndStore(world, Xero, token.value);
    }
  }

  /** ms_graph/token_manager.py; the token is returned whole, callers use its access token. */
  class MSTokenManager {
    const world: World

    constructor (world: World)
      ensures this.world == world
    {
      this.world := world;
    }

    method GetToken(force: bool) returns (out: Outcome)
      modifies world
      ensures Completes(world.buffer, MS(force), world.seen, out) && world.log == old(world.log) + world.seen
      ensures Promise(world.buffer, MS(force), world.seen, out)
      ensures OnlyOwnLockRemoved(world) && !OwnedBy(world.lock, world.call.owner)
    {
      world.StartCall(MS(force));
      var cached: Option<TokenSet> := None;
      var stale := force;
      if !force {
        cached := world.Load();
        if cached.Some? {
          var now := world.Now();
          stale := NearExpiry(cached.value, world.buffer, now);
        }
      }
      if !force && cached == None {
        out := Missing;
      } else if !stale {
        out := Returned(cached.value);
      } else {
        out := RefreshUnderLock(force);
      }
      PromiseKept(world.buffer, MS(force), world.seen, out);
    }

    method RefreshUnderLock(force: bool) returns (out: Outcome)
      requires world.Tracked() && world.call == Worker(MS(force), 0, None, 0, Contend)
      modifies world
      ensures world.Tracked() && world.call.kind == MS(force) && world.call.pc == Done(out)
      ensures world.base == old(world.base)
      ensures OnlyOwnLockRemoved(world) && !OwnedBy(world.lock, world.call.owner)
    {
      for attempt := 0 to RETRIES
        invariant world.SameCall() && !OwnedBy(world.lock, world.call.owner)
        invariant world.call == NextAttempt(Worker(MS(force), attempt, None, 0, Contend))
      {
        var context := new LockContext(world);
        var acquired := context.Enter(LOCK_TTL);
        if acquired {
          out := DoubleCheckAndRefresh(force);
          context.Exit();
          return;
        }
        context.Exit();
        world.Sleep();
        if !force {
          var cached := world.Load();
          if cached.Some? {
            var now := world.Now();
            if !NearExpiry(cached.value, world.buffer, now) {
              return Returned(cached.value);
            }
          }
        }
      }
      out := LockTimeout;
    }

    /** The body of the `async with`, holding the lock. */
    method DoubleCheckAndRefresh(force: bool) returns (out: Outcome)
      requires world.Tracked() && world.call.kind == MS(force)
      requires world.call.pc == if force then LoadCurrent else DoubleLoad
      modifies world
      ensures world.SameCall() && world.call == old(world.call).(pc := Watching(out))
    {
      if !force {
        var cached := world.Load();
        if cached.Some? {
          var now := world.Now();
          if !NearExpiry(cached.value, world.buffer, now) {
            return Returned(cached.value);
          }
        }
      }
      var current := world.Load();
      if current == None {
        return Missing;
      }
      if !Refreshable(MS(force), current.value) {
        return Expired;
      }
      out := RefreshAndStore(world, MS(force), current.value);
    }
  }

  // ---- ms_graph/client.py ----------------------------------------------------------------------

  datatype PostResult = Sent | Raised(error: Outcome)

  /** The course of one post: the token call, its POST, and after a 401 a second, forced round. */
  datatype PostRun =
    | Unsent(first: seq<Event>)
    | SentOnce(first: seq<Event>, tok: TokenSet, status: int)
    | RetryUnsent(first: seq<Event>, tok: TokenSet, second: seq<Event>)
    | SentTwice(first: seq<Event>, tok: TokenSet, second: seq<Event>, retryTok: TokenSet, status: int)

  function Flat(run: PostRun): seq<Event> {
    match run
    case Unsent(first) => first
    case SentOnce(first, tok, status) => first + [Posted(tok.accessToken, status)]
    case RetryUnsent(first, tok, second) => first + [Posted(tok.accessToken, 401)] + second
    case SentTwice(first, tok, second, retryTok, status) =>
      first + [Posted(tok.accessToken, 401)] + second + [Posted(retryTok.accessToken, status)]
  }

  function Verdict(status: int): PostResult {
    if 200 <= status < 300 then Sent else Raised(ProviderDown)
  }

  ghost predicate PostedAs(buffer: int, run: PostRun, result: PostResult) {
    match run
    case Unsent(first) =>
      result.Raised? && !result.error.Returned? && Completes(buffer, MS(false), first, result.error)
    case SentOnce(first, tok, status) =>
      Completes(buffer, MS(false), first, Returned(tok)) && status != 401 && result == Verdict(status)
    case RetryUnsent(first, tok, second) =>
      && Completes(buffer, MS(false), first, Returned(tok))
      && result.Raised? && !result.error.Returned? && Completes(buffer, MS(true), second, result.error)
    case SentTwice(first, tok, second, retryTok, status) =>
      && Completes(buffer, MS(false), first, Returned(tok))
      && Completes(buffer, MS(true), second, Returned(retryTok)) && result == Verdict(status)
  }

  class GraphClient {
    const world: World
    const manager: MSTokenManager

    constructor (world: World, manager: MSTokenManager)
      requires manager.world == world
      ensures this.world == world && this.manager == manager
    {
      this.world, this.manager := world, manager;
    }

    /** One round of the loop: a token, and if there is one, a POST with it. */
    method PostOnce(force: bool) returns (out: Outcome, status: int, ghost told: seq<Event>)
      requires manager.world == world
      modifies world
      ensures Completes(world.buffer, MS(force), told, out)
      ensures world.log == old(world.log) + told + if out.Returned? then [Posted(out.tok.accessToken, status)] else []
    {
      status := 0;
      out := manager.GetToken(force);
      told := world.seen;
      if out.Returned? {
        status := world.Post(out.tok.accessToken);
      }
    }

    method PostToChannel() returns (result: PostResult, ghost run: PostRun)
      requires manager.world == world
      modifies world
      ensures world.log == old(world.log) + Flat(run)
      ensures PostedAs(world.buffer, run, result)
    {
      run := Unsent([]);
      for attempt := 0 to 2
        invariant attempt <= 1
        invariant attempt == 0 ==> world.log == old(world.log)
        invariant attempt == 1 ==>
          && run.SentOnce? && run.status == 401 && world.log == old(world.log) + Flat(run)
          && Completes(world.buffer, MS(false), run.first, Returned(run.tok))
      {
        var out, status;
        ghost var told;
        out, status, told := PostOnce(attempt > 0);
        if !out.Returned? {
          run := if attempt == 0 then Unsent(told) else RetryUnsent(run.first, run.tok, told);
          return Raised(out), run;
        }
        run := if attempt == 0 then SentOnce(told, out.tok, status)
               else SentTwice(run.first, run.tok, told, out.tok, status);
        if status == 401 && attempt == 0 {
          continue;
        }
        if !(200 <= status < 300) {
          return Raised(ProviderDown), run;
        }
        return Sent, run;
      }
      assert false;
    }
  }

  function Posts(events: seq<Event>): nat {
    if |events| == 0 then 0 else Posts(events[..|events| - 1]) + if events[|events| - 1].Posted? then 1 else 0
  }

  lemma {:induction false} PostsConcat(a: seq<Event>, b: seq<Event>)
    ensures Posts(a + b) == Posts(a) + Posts(b)
  {
    if |b| == 0 {
      assert a + b == a;
    } else {
      assert (a + b)[..|a + b| - 1] == a + b[..|b| - 1];
      PostsConcat(a, b[..|b| - 1]);
    }
  }

  lemma {:induction false} CallsPostNothing(buffer: int, kind: Kind, events: seq<Event>)
    requires Legal(buffer, kind, events)
    ensures Posts(events) == 0
  {
    if |events| > 0 {
      CallsPostNothing(buffer, kind, events[..|events| - 1]);
    }
  }

  /**
   At most two POSTs, the second only after the first was answered 401; and the second carries the
   access token of a refresh that the provider granted to this very call after that 401, stored
   before the call let its lock go, whatever other calls did in between.
   */
  lemma RetryCarriesOwnRefresh(buffer: int, run: PostRun, result: PostResult)
    requires PostedAs(buffer, run, result)
    ensures Posts(Flat(run)) <= 2
    ensures Posts(Flat(run)) == 2 <==> run.SentTwice?
    ensures run.SentTwice? ==>
      && Flat(run)[|run.first|] == Posted(run.tok.accessToken, 401)
      && exists j: nat ::
           && MintedAt(MS(true), run.second, j, run.retryTok)
           && run.retryTok.accessToken == run.second[j].reply.raw.accessToken
    ensures run.SentOnce? ==> run.status != 401
    ensures run.SentOnce? || run.SentTwice? ==> result == if 200 <= run.status < 300 then Sent else Raised(ProviderDown)
    ensures run.Unsent? ==> result.Raised? && CallCourses.Course(buffer, MS(false), run.first, result.error)
    ensures run.RetryUnsent? ==> result.Raised? && CallCourses.Course(buffer, MS(true), run.second, result.error)
  {
    CallsPostNothing(buffer, MS(false), run.first);
    match run
    case Unsent(first) => CallCourses.CallsFollowTheSource(buffer, MS(false), first, result.error);
    case SentOnce(first, tok, status) =>
      PostsConcat(first, [Posted(tok.accessToken, status)]);
    case RetryUnsent(first, tok, second) =>
      CallsPostNothing(buffer, MS(true), second);
      PostsConcat(first, [Posted(tok.accessToken, 401)]);
      PostsConcat(first + [Posted(tok.accessToken, 401)], second);
      CallCourses.CallsFollowTheSource(buffer, MS(true), second, result.error);
    case SentTwice(first, tok, second, retryTok, status) =>
      CallsPostNothing(buffer, MS(true), second);
      PostsConcat(first, [Posted(tok.accessToken, 401)]);
      PostsConcat(first + [Posted(tok.accessToken, 401)], second);
      PostsConcat(first + [Posted(tok.accessToken, 401)] + second, [Posted(retryTok.accessToken, status)]);
      ProvenanceOfResult(buffer, MS(true), second, retryTok);
  }
}
