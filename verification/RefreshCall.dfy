/**
 One `get_valid_token` / `get_token` call as a little machine: a program counter that moves
 each time an `await` (or a look at the clock) completes. Nothing here knows what the other
 workers do; an `Event` is whatever the world answered.
 */
module RefreshCall {
  import opened Wrappers
  import opened Tokens

  const RETRIES: nat := 5
  const LOCK_TTL: int := 30_000

  // The random token drawn by each attempt to take the lock.
  type Owner = nat

  // Which manager runs the call, and for Microsoft whether a refresh is forced.
  datatype Kind = Xero | MS(force: bool)

  // The token endpoint's answer. `retired` says whether the provider consumed the token it was
  // shown; the caller cannot see that.
  datatype Raw = Raw(accessToken: string, expiresAt: int, tokenType: string,
                     refreshToken: Option<string>, scope: Option<string>)
  datatype Reply = Granted(raw: Raw, retired: bool) | Rejected | Unavailable

  datatype Outcome =
    | Returned(tok: TokenSet)
    | Missing            // ConnectionMissingError
    | Expired            // ConnectionExpiredError
    | ProviderDown       // ProviderUnavailableError
    | LockTimeout        // LockTimeoutError
    | Crashed            // AttributeError: `None` handed to the Xero client

  datatype Pc =
    | FirstLoad
    | FirstCheck(seen: TokenSet)
    | Contend                                // about to SET NX EX
    | Backoff                                // refused, about to sleep
    | ReLoad
    | ReCheck(seen: TokenSet)
    | DoubleLoad                             // lock granted from here on
    | DoubleCheck(seen: TokenSet)
    | LoadCurrent                            // Microsoft's second load
    | Presenting(cur: TokenSet)              // about to call the provider
    | Storing(minted: TokenSet)              // provider answered, about to HSET
    | Watching(pending: Outcome)             // release: WATCH, GET, MULTI/DEL/EXEC
    | Fetching(pending: Outcome, watched: nat)
    | Executing(pending: Outcome, watched: nat)
    | Done(result: Outcome)

  datatype Worker = Worker(kind: Kind, attempts: nat, owner: Option<Owner>, leaseEnd: int, pc: Pc)

  datatype Event =
    | Read(tok: Option<TokenSet>)
    | Clock(now: int)
    | Tried(owner: Owner, granted: bool, ttl: int, now: int)
    | Slept
    | Asked(reply: Reply)
    | Wrote
    | Watched(version: nat)
    | Got(holder: Option<Owner>)
    | Execed(ok: bool)
    | Posted(accessToken: string, status: int)   // Graph's answer to a POST; no part of a token call

  predicate Forced(kind: Kind) { kind == MS(true) }

  /** Holds the lock as far as it knows: granted, release not finished. */
  predicate Holding(w: Worker) {
    Critical(w) || w.pc.Watching? || w.pc.Fetching? || w.pc.Executing?
  }

  /** Between the grant of the lock and the end of the token write. */
  predicate Critical(w: Worker) {
    w.pc.DoubleLoad? || w.pc.DoubleCheck? || w.pc.LoadCurrent? || w.pc.Presenting? || w.pc.Storing?
  }

  function Begin(kind: Kind): Worker {
    Worker(kind, 0, None, 0, if Forced(kind) then Contend else FirstLoad)
  }

  function NextAttempt(w: Worker): Worker {
    w.(pc := if w.attempts >= RETRIES then Done(LockTimeout) else Contend)
  }

  /** Xero tests the refresh token's truth, Microsoft only whether it is None. */
  predicate Refreshable(kind: Kind, tok: TokenSet) {
    tok.refreshToken.Some? && (kind.Xero? ==> tok.refreshToken.value != "")
  }

  function Arm(w: Worker, tok: TokenSet): Worker {
    w.(pc := if Refreshable(w.kind, tok) then Presenting(tok) else Watching(Expired))
  }

  /** A refresh keeps the Xero tenant id; everything else is what the provider sent. */
  function Refreshed(kind: Kind, cur: TokenSet, raw: Raw): TokenSet {
    TokenSet(raw.accessToken, raw.expiresAt, raw.tokenType, raw.refreshToken, raw.scope,
             if kind.Xero? then cur.tenantId else None)
  }

  predicate Accepts(w: Worker, e: Event) {
    match w.pc
    case FirstLoad | ReLoad | DoubleLoad | LoadCurrent => e.Read?
    case FirstCheck(_) | ReCheck(_) | DoubleCheck(_) => e.Clock?
    case Contend => e.Tried? && e.ttl == LOCK_TTL
    case Backoff => e.Slept?
    case Presenting(_) => e.Asked?
    case Storing(_) => e.Wrote?
    case Watching(_) => e.Watched?
    case Fetching(_, _) => e.Got?
    case Executing(_, _) => e.Execed?
    case Done(_) => false
  }

  function Advance(buffer: int, w: Worker, e: Event): Worker
    requires Accepts(w, e)
  {
    match w.pc
    case FirstLoad =>
      w.(pc := if e.tok.None? then Done(Missing) else FirstCheck(e.tok.value))
    case FirstCheck(seen) =>
      w.(pc := if NearExpiry(seen, buffer, e.now) then Contend else Done(Returned(seen)))
    case Contend =>
      if e.granted then
        Worker(w.kind, w.attempts + 1, Some(e.owner), e.now + e.ttl, if Forced(w.kind) then LoadCurrent else DoubleLoad)
      else
        w.(attempts := w.attempts + 1, pc := Backoff)
    case Backoff =>
      if Forced(w.kind) then NextAttempt(w) else w.(pc := ReLoad)
    case ReLoad =>
      if e.tok.None? then NextAttempt(w) else w.(pc := ReCheck(e.tok.value))
    case ReCheck(seen) =>
      if NearExpiry(seen, buffer, e.now) then NextAttempt(w) else w.(pc := Done(Returned(seen)))
    case DoubleLoad =>
      w.(pc := if e.tok.Some? then DoubleCheck(e.tok.value)
               else if w.kind.Xero? then Watching(Crashed)
               else LoadCurrent)
    case DoubleCheck(seen) =>
      if !NearExpiry(seen, buffer, e.now) then w.(pc := Watching(Returned(seen)))
      else if w.kind.Xero? then Arm(w, seen)
      else w.(pc := LoadCurrent)
    case LoadCurrent =>
      if e.tok.None? then w.(pc := Watching(Missing)) else Arm(w, e.tok.value)
    case Presenting(cur) =>
      w.(pc := match e.reply
               case Granted(raw, _) => Storing(Refreshed(w.kind, cur, raw))
               case Rejected => Watching(Expired)
               case Unavailable => Watching(ProviderDown))
    case Storing(minted) => w.(pc := Watching(Returned(minted)))
    case Watching(pending) => w.(pc := Fetching(pending, e.version))
    case Fetching(pending, watched) =>
      w.(pc := if e.holder.Some? && e.holder == w.owner then Executing(pending, watched) else Done(pending))
    case Executing(pending, _) => w.(pc := Done(pending))
  }

  // ---- whole calls -------------------------------------------------------------------------

  predicate Legal(buffer: int, kind: Kind, events: seq<Event>) {
    |events| == 0 ||
    var before := events[..|events| - 1];
    Legal(buffer, kind, before) && Accepts(Replay(buffer, kind, before), events[|events| - 1])
  }

  function Replay(buffer: int, kind: Kind, events: seq<Event>): Worker {
    if |events| == 0 then Begin(kind)
    else
      var w := Replay(buffer, kind, events[..|events| - 1]);
      var e := events[|events| - 1];
      if Accepts(w, e) then Advance(buffer, w, e) else w
  }

  /** The call made these observations, in this order, and ended with this outcome. */
  predicate Completes(buffer: int, kind: Kind, events: seq<Event>, out: Outcome) {
    Legal(buffer, kind, events) && Replay(buffer, kind, events).pc == Done(out)
  }

  lemma ReplaySnoc(buffer: int, kind: Kind, events: seq<Event>, e: Event)
    requires Legal(buffer, kind, events) && Accepts(Replay(buffer, kind, events), e)
    ensures Legal(buffer, kind, events + [e])
    ensures Replay(buffer, kind, events + [e]) == Advance(buffer, Replay(buffer, kind, events), e)
  {}

  // ---- bounds ------------------------------------------------------------------------------

  function Refusals(events: seq<Event>): nat {
    if |events| == 0 then 0
    else Refusals(events[..|events| - 1]) + if Refuses(events[|events| - 1]) then 1 else 0
  }
  predicate Refuses(e: Event) { e.Tried? && !e.granted }

  function Grants(events: seq<Event>): nat {
    if |events| == 0 then 0
    else Grants(events[..|events| - 1]) + if Acquires(events[|events| - 1]) then 1 else 0
  }
  predicate Acquires(e: Event) { e.Tried? && e.granted }

  function Sleeps(events: seq<Event>): nat {
    if |events| == 0 then 0
    else Sleeps(events[..|events| - 1]) + if events[|events| - 1].Slept? then 1 else 0
  }

  function Calls(events: seq<Event>): nat {
    if |events| == 0 then 0
    else Calls(events[..|events| - 1]) + if events[|events| - 1].Asked? then 1 else 0
  }

  /** Steps the call can still take. */
  function Fuel(w: Worker): nat {
    var left := 4 * (if w.attempts <= RETRIES then RETRIES - w.attempts else 0) + 9;
    match w.pc
    case FirstLoad => left + 2
    case FirstCheck(_) => left + 1
    case Contend => left
    case Backoff => left + 3
    case ReLoad => left + 2
    case ReCheck(_) => left + 1
    case DoubleLoad => 8
    case DoubleCheck(_) => 7
    case LoadCurrent => 6
    case Presenting(_) => 5
    case Storing(_) => 4
    case Watching(_) => 3
    case Fetching(_, _) => 2
    case Executing(_, _) => 1
    case Done(_) => 0
  }

  lemma FuelDrops(buffer: int, w: Worker, e: Event)
    requires Accepts(w, e) && (w.pc.Contend? ==> w.attempts < RETRIES)
    ensures Fuel(Advance(buffer, w, e)) < Fuel(w)
  {}

  /** The tallies of a call so far, as its program counter knows them. */
  ghost predicate Tallied(w: Worker, refused: nat, granted: nat, slept: nat, asked: nat) {
    && w.attempts == refused + granted <= RETRIES
    && (w.owner.Some? <==> granted == 1)
    && (if Holding(w) then granted == 1 && slept == refused < RETRIES
        else if w.pc.Done? then granted <= 1 && slept == refused
        else granted == 0)
    && (w.pc.FirstLoad? || w.pc.FirstCheck? ==> refused == slept == 0)
    && (w.pc.Contend? ==> refused == slept < RETRIES)
    && (w.pc.Backoff? ==> refused == slept + 1)
    && (w.pc.ReLoad? || w.pc.ReCheck? ==> refused == slept > 0)
    && asked <= granted
    && (w.pc.Presenting? ==> Refreshable(w.kind, w.pc.cur))
    && (w.pc.DoubleLoad? || w.pc.DoubleCheck? || w.pc.LoadCurrent? || w.pc.Presenting? ==> asked == 0)
    && (w.pc == Done(LockTimeout) ==> refused == RETRIES)
    && (w.pc.Watching? || w.pc.Fetching? || w.pc.Executing? ==> w.pc.pending != LockTimeout)
  }

  lemma TalliedStep(buffer: int, w: Worker, e: Event, refused: nat, granted: nat, slept: nat, asked: nat)
    requires Tallied(w, refused, granted, slept, asked) && Accepts(w, e)
    ensures Tallied(Advance(buffer, w, e),
      refused + (if Refuses(e) then 1 else 0), granted + (if Acquires(e) then 1 else 0),
      slept + (if e.Slept? then 1 else 0), asked + (if e.Asked? then 1 else 0))
  {}

  /**
   Whatever the world answers, a call makes at most five attempts on the lock, sleeps at most
   five times and calls the provider at most once; and it is over within 31 steps.
   */
  lemma {:induction false} CallIsBounded(buffer: int, kind: Kind, events: seq<Event>)
    requires Legal(buffer, kind, events)
    ensures Refusals(events) + Grants(events) <= 5
    ensures Sleeps(events) <= 5
    ensures Calls(events) <= 1
    ensures |events| <= 31
    ensures Tallied(Replay(buffer, kind, events), Refusals(events), Grants(events), Sleeps(events), Calls(events))
    ensures |events| + Fuel(Replay(buffer, kind, events)) <= 31
  {
    if |events| > 0 {
      CallIsBounded(buffer, kind, events[..|events| - 1]);
      TalliedStep(buffer, Replay(buffer, kind, events[..|events| - 1]), events[|events| - 1],
        Refusals(events[..|events| - 1]), Grants(events[..|events| - 1]),
        Sleeps(events[..|events| - 1]), Calls(events[..|events| - 1]));
      FuelDrops(buffer, Replay(buffer, kind, events[..|events| - 1]), events[|events| - 1]);
    }
  }
}
