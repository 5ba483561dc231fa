/**
 Any number of token calls for one connection, sharing one Redis and one provider. Each step is
 one completed `await` of one call, or a move of the environment. A run is any interleaving.
 */
module RefreshSystem {
  import opened Wrappers
  import opened Tokens
  import opened RefreshCall

  // A lock key as Redis 7 shows it: an expired key is gone. `version` counts its changes,
  // expiry included, which is what WATCH detects.
  datatype Lock = Free | Held(owner: Owner, expiry: int)

  // One successful refresh: the refresh token shown and the token set that came back.
  datatype Refresh = Refresh(presented: string, tok: TokenSet)

  datatype Shared = Shared(
    clock: int,
    lock: Lock,
    version: nat,
    token: Option<TokenSet>,
    owners: set<Owner>,          // every owner token drawn so far
    issued: set<string>,         // refresh tokens: all ever issued,
    live: set<string>,           // those the provider would accept now,
    consumed: set<string>,       // those spent by a refresh,
    placed: set<string>,         // those that ever reached a worker or the store
    inFlight: set<TokenSet>,     // granted to a callback or device-code poll, not stored yet
    refreshes: seq<Refresh>)

  datatype System = System(buffer: int, shared: Shared, workers: seq<Worker>)

  datatype Step =
    | Act(i: nat, e: Event)       // call i gets the answer it awaits
    | Arrive(kind: Kind)          // a new call begins
    | Tick(now: int)              // time passes; the lock key may expire
    | Grant(tok: TokenSet)        // code exchange or device-code poll succeeds at the provider
    | Deliver(tok: TokenSet)      // ... and its token is stored
    | Delete                      // RevokeConnection, or the Xero client's 401 branch
    | Revoke(refresh: string)     // the provider withdraws a refresh token

  /** A refresh token nobody has seen before; providers issue no empty ones. */
  predicate Unissued(sh: Shared, refresh: string) { refresh !in sh.issued && refresh != "" }

  predicate MayGrant(sh: Shared, presented: string, reply: Reply)
    requires reply.Granted?
  {
    && presented in sh.live && presented !in sh.consumed
    && (reply.raw.refreshToken.Some? ==>
          || Unissued(sh, reply.raw.refreshToken.value)
          || (!reply.retired && reply.raw.refreshToken.value == presented))
  }

  /** The event is an answer the shared state can give right now. */
  predicate Answers(sh: Shared, w: Worker, e: Event) {
    match e
    case Read(tok) => tok == sh.token
    case Clock(now) => now == sh.clock
    case Tried(owner, granted, _, now) => owner !in sh.owners && granted == sh.lock.Free? && now == sh.clock
    case Asked(reply) =>
      w.pc.Presenting? && w.pc.cur.refreshToken.Some? &&
      (reply.Granted? ==> MayGrant(sh, w.pc.cur.refreshToken.value, reply))
    case Watched(version) => version == sh.version
    case Got(holder) => holder == if sh.lock.Held? then Some(sh.lock.owner) else None
    case Execed(ok) => w.pc.Executing? && ok == (sh.version == w.pc.watched)
    case Slept => true
    case Wrote => w.pc.Storing?
    case Posted(_, _) => false
  }

  function AfterGrant(sh: Shared, kind: Kind, cur: TokenSet, reply: Reply): Shared
    requires reply.Granted? && cur.refreshToken.Some?
  {
    var shown := cur.refreshToken.value;
    var gained := if reply.raw.refreshToken.Some? then {reply.raw.refreshToken.value} else {};
    sh.(issued := sh.issued + gained,
        placed := sh.placed + gained,
        live := (if reply.retired then sh.live - {shown} else sh.live) + gained,
        consumed := if reply.retired then sh.consumed + {shown} else sh.consumed,
        refreshes := sh.refreshes + [Refresh(shown, Refreshed(kind, cur, reply.raw))])
  }

  /** DEL of the lock key. */
  function Deleted(sh: Shared): Shared {
    if sh.lock.Held? then sh.(lock := Free, version := sh.version + 1) else sh
  }

  function After(sh: Shared, w: Worker, e: Event): Shared
    requires Answers(sh, w, e)
  {
    match e
    case Tried(owner, granted, ttl, now) =>
      var drawn := sh.(owners := sh.owners + {owner});
      if granted then drawn.(lock := Held(owner, now + ttl), version := sh.version + 1) else drawn
    case Asked(reply) => if reply.Granted? then AfterGrant(sh, w.kind, w.pc.cur, reply) else sh
    case Wrote => sh.(token := Some(Normal(w.pc.minted)))
    case Execed(ok) => if ok then Deleted(sh) else sh
    case _ => sh
  }

  function Gained(tok: TokenSet): set<string> {
    if tok.refreshToken.Some? then {tok.refreshToken.value} else {}
  }

  /** The provider has granted a token outside any refresh. */
  function WithGrant(sh: Shared, tok: TokenSet): Shared {
    sh.(issued := sh.issued + Gained(tok), live := sh.live + Gained(tok), inFlight := sh.inFlight + {tok})
  }

  /** ... and whoever asked for it has stored it. */
  function WithDelivery(sh: Shared, tok: TokenSet): Shared {
    sh.(token := Some(Normal(tok)), placed := sh.placed + Gained(tok), inFlight := sh.inFlight - {tok})
  }

  function AfterTick(sh: Shared, now: int): Shared {
    if sh.lock.Held? && sh.lock.expiry <= now
    then sh.(clock := now, lock := Free, version := sh.version + 1)
    else sh.(clock := now)
  }

  predicate Enabled(s: System, step: Step) {
    match step
    case Act(i, e) => i < |s.workers| && Accepts(s.workers[i], e) && Answers(s.shared, s.workers[i], e)
    case Arrive(_) => true
    case Tick(now) => now >= s.shared.clock
    case Grant(tok) => tok.refreshToken.Some? ==> Unissued(s.shared, tok.refreshToken.value)
    // Whoever was granted a refresh token stores it once.
    case Deliver(tok) => tok in s.shared.inFlight || tok.refreshToken.None?
    case Delete => true
    case Revoke(_) => true
  }

  function Apply(s: System, step: Step): System
    requires Enabled(s, step)
  {
    var sh := s.shared;
    match step
    case Act(i, e) =>
      s.(shared := After(sh, s.workers[i], e), workers := s.workers[i := Advance(s.buffer, s.workers[i], e)])
    case Arrive(kind) => s.(workers := s.workers + [Begin(kind)])
    case Tick(now) => s.(shared := AfterTick(sh, now))
    case Grant(tok) => s.(shared := WithGrant(sh, tok))
    case Deliver(tok) => s.(shared := WithDelivery(sh, tok))
    case Delete => s.(shared := sh.(token := None))
    case Revoke(refresh) => s.(shared := sh.(live := sh.live - {refresh}))
  }

  /**
   A start: nobody calling, the lock free, nothing spent. The store may already hold a token, as
   long as its refresh token is one the provider issued.
   */
  ghost predicate Init(s: System) {
    && s.workers == []
    && s.shared.lock == Free
    && s.shared.consumed == {} && s.shared.inFlight == {} && s.shared.refreshes == []
    && s.shared.live <= s.shared.issued && s.shared.placed <= s.shared.issued
    && (s.shared.token.Some? && s.shared.token.value.refreshToken.Some? ==>
          s.shared.token.value.refreshToken.value in s.shared.placed)
  }

  /** states[0], steps[0], states[1], ... , states[n]. */
  datatype Run = Run(states: seq<System>, steps: seq<Step>)

  ghost predicate IsRun(r: Run) {
    && |r.states| == |r.steps| + 1
    && Init(r.states[0])
    && forall k :: 0 <= k < |r.steps| ==> Moves(r.states[k], r.steps[k], r.states[k + 1])
  }

  ghost predicate Moves(s: System, step: Step, s': System) {
    Enabled(s, step) && s' == Apply(s, step)
  }
}
