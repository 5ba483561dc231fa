/**
 Token calls and authorisation together, for one connection: the callbacks of OAuthSystem and the
 device-code polls are where the grants and deliveries of RefreshSystem come from.
 */
module JointRuns {
  import opened Wrappers
  import opened Tokens
  import R = RefreshSystem
  import O = OAuthSystem
  import Rotation

  // `polled` are the tokens brought by device-code polls and not stored yet.
  datatype Joint = Joint(connection: string, refresh: R.System, oauth: O.System, polled: set<TokenSet>)

  datatype Step =
    | Call(act: R.Step)        // a step of a token call, an arrival, a delete or a revocation
    | Flow(flow: O.Step)       // a step of a callback, a new state, other connections, or time
    | Poll(tok: TokenSet)      // a device-code poll for the connection succeeds
    | StorePolled(tok: TokenSet)

  function TokenOf(tokens: map<string, TokenSet>, connection: string): Option<TokenSet> {
    if connection in tokens then Some(tokens[connection]) else None
  }

  function WithToken(tokens: map<string, TokenSet>, connection: string, tok: Option<TokenSet>): map<string, TokenSet> {
    if tok.Some? then tokens[connection := tok.value] else tokens - {connection}
  }

  /** The callback's code exchange brings a token for the connection. */
  predicate Exchanges(j: Joint, step: O.Step) {
    step.Run? && step.c < |j.oauth.callbacks| && j.oauth.callbacks[step.c].pc == O.Exchanging(j.connection)
    && step.reply.Some?
  }

  /** The token callback c is about to store under the connection, if that is what it is about to do. */
  function Carried(j: Joint, c: int): Option<TokenSet>
    requires 0 <= c < |j.oauth.callbacks|
  {
    match j.oauth.callbacks[c].pc
    case Storing(connection, tok) => if connection == j.connection then Some(tok) else None
    case _ => None
  }

  predicate Enabled(j: Joint, step: Step) {
    match step
    case Call(s) => (s.Act? || s.Arrive? || s.Delete? || s.Revoke?) && R.Enabled(j.refresh, s)
    case Flow(s) =>
      && O.Enabled(j.oauth, s)
      && (s.Elsewhere? ==> TokenOf(s.tokens, j.connection) == TokenOf(j.oauth.tokens, j.connection))
      && (Exchanges(j, s) && s.reply.value.refreshToken.Some? ==>
            R.Unissued(j.refresh.shared, s.reply.value.refreshToken.value))
    case Poll(tok) => tok.refreshToken.Some? ==> R.Unissued(j.refresh.shared, tok.refreshToken.value)
    case StorePolled(tok) => tok in j.polled
  }

  function SharedAfter(j: Joint, step: Step): R.Shared
    requires Enabled(j, step)
  {
    var sh := j.refresh.shared;
    match step
    case Call(s) => R.Apply(j.refresh, s).shared
    case Poll(tok) => R.WithGrant(sh, tok)
    case StorePolled(tok) => R.WithDelivery(sh, tok)
    case Flow(s) =>
      if s.Tick? then R.AfterTick(sh, s.now)
      else if !s.Run? then sh
      else if Exchanges(j, s) then R.WithGrant(sh, s.reply.value)
      else if Carried(j, s.c).Some? then R.WithDelivery(sh, Carried(j, s.c).value)
      else sh
  }

  /** The same step as the authorisation flow sees it: what token calls and polls do happens elsewhere. */
  function FlowStep(j: Joint, step: Step): O.Step
    requires Enabled(j, step)
  {
    if step.Flow? then step.flow
    else O.Elsewhere(WithToken(j.oauth.tokens, j.connection, SharedAfter(j, step).token))
  }

  function Apply(j: Joint, step: Step): Joint
    requires Enabled(j, step)
  {
    Joint(
      j.connection,
      j.refresh.(shared := SharedAfter(j, step),
                 workers := if step.Call? then R.Apply(j.refresh, step.act).workers else j.refresh.workers),
      O.Apply(j.oauth, FlowStep(j, step)),
      match step
      case Poll(tok) => j.polled + {tok}
      case StorePolled(tok) => j.polled - {tok}
      case _ => j.polled)
  }

  /** One store, one clock. */
  predicate InStep(j: Joint) {
    && j.refresh.shared.token == TokenOf(j.oauth.tokens, j.connection)
    && j.refresh.shared.clock == j.oauth.store.clock
  }

  ghost predicate Init(j: Joint) {
    R.Init(j.refresh) && O.Init(j.oauth) && InStep(j) && j.polled == {}
  }

  datatype Run = Run(states: seq<Joint>, steps: seq<Step>)

  ghost predicate IsRun(r: Run) {
    && |r.states| == |r.steps| + 1
    && Init(r.states[0])
    && forall k :: 0 <= k < |r.steps| ==> Moves(r.states[k], r.steps[k], r.states[k + 1])
  }

  ghost predicate Moves(j: Joint, step: Step, j': Joint) {
    Enabled(j, step) && j' == Apply(j, step)
  }

  // ---- who carries what ------------------------------------------------------------------------

  predicate Tracked(j: Joint, tok: TokenSet) {
    tok.refreshToken.Some? ==> tok in j.refresh.shared.inFlight && tok.refreshToken.value in j.refresh.shared.issued
  }

  predicate Clash(t: TokenSet, u: TokenSet) {
    t.refreshToken.Some? && t.refreshToken == u.refreshToken
  }

  // Who has been granted a token and not stored it yet.
  datatype Carrier = ByCallback(c: int) | ByPoll(tok: TokenSet)

  predicate Holds(j: Joint, who: Carrier, tok: TokenSet) {
    match who
    case ByCallback(c) => 0 <= c < |j.oauth.callbacks| && Carried(j, c) == Some(tok)
    case ByPoll(t) => t == tok && t in j.polled
  }

  /** Every granted refresh token on its way to the store is carried by one callback or poll. */
  ghost predicate CarriersOk(j: Joint) {
    && (forall who, tok :: Holds(j, who, tok) ==> Tracked(j, tok))
    && (forall who, other, t, u :: Holds(j, who, t) && Holds(j, other, u) && who != other ==> !Clash(t, u))
  }

  ghost predicate Inv(j: Joint) { InStep(j) && CarriersOk(j) }

  /** The step as the token calls see it, if they can see it at all. */
  function CallStep(j: Joint, step: Step): Option<R.Step>
    requires Enabled(j, step)
  {
    match step
    case Call(s) => Some(s)
    case Poll(tok) => Some(R.Grant(tok))
    case StorePolled(tok) => Some(R.Deliver(tok))
    case Flow(s) =>
      if s.Tick? then Some(R.Tick(s.now))
      else if !s.Run? then None
      else if Exchanges(j, s) then Some(R.Grant(s.reply.value))
      else if Carried(j, s.c).Some? then Some(R.Deliver(Carried(j, s.c).value))
      else None
  }

  /** A delivery by a callback or poll is one RefreshSystem allows; steps it does not see change nothing in it. */
  lemma StepProjects(j: Joint, step: Step)
    requires Inv(j) && Enabled(j, step)
    ensures match CallStep(j, step)
      case Some(s) => R.Enabled(j.refresh, s) && Apply(j, step).refresh == R.Apply(j.refresh, s)
      case None => Apply(j, step).refresh == j.refresh
  {
    match step
    case StorePolled(tok) => assert Holds(j, ByPoll(tok), tok);
    case Flow(s) =>
      if s.Run? && Carried(j, s.c).Some? {
        assert Holds(j, ByCallback(s.c), Carried(j, s.c).value);
      }
    case _ =>
  }

  lemma InStepStep(j: Joint, step: Step)
    requires Inv(j) && Enabled(j, step)
    ensures InStep(Apply(j, step))
  {}

  /** Whoever stores a token in this step. */
  function Leaver(j: Joint, step: Step): Option<Carrier>
    requires Enabled(j, step)
  {
    match step
    case StorePolled(tok) => Some(ByPoll(tok))
    case Flow(s) => if s.Run? && Carried(j, s.c).Some? then Some(ByCallback(s.c)) else None
    case _ => None
  }

  /** Whoever is granted a token in this step. */
  predicate Enters(j: Joint, step: Step, who: Carrier, tok: TokenSet) {
    match step
    case Poll(t) => t == tok && who == ByPoll(tok)
    case Flow(s) => Exchanges(j, s) && s.reply == Some(tok) && who == ByCallback(s.c)
    case _ => false
  }

  lemma CarrierBefore(j: Joint, step: Step, who: Carrier, tok: TokenSet)
    requires Enabled(j, step) && Holds(Apply(j, step), who, tok)
    ensures (Holds(j, who, tok) && Leaver(j, step) != Some(who)) || Enters(j, step, who, tok)
  {}

  lemma NewIsTracked(j: Joint, step: Step, who: Carrier, tok: TokenSet)
    requires Enabled(j, step) && Enters(j, step, who, tok)
    ensures Tracked(Apply(j, step), tok)
    ensures forall t :: Tracked(j, t) ==> !Clash(t, tok)
  {}

  lemma OldStaysTracked(j: Joint, step: Step, who: Carrier, tok: TokenSet)
    requires CarriersOk(j) && Enabled(j, step) && Holds(j, who, tok) && Leaver(j, step) != Some(who)
    ensures Tracked(Apply(j, step), tok)
  {
    match step
    case StorePolled(t) => assert Holds(j, ByPoll(t), t);
    case Flow(s) =>
      if Leaver(j, step).Some? {
        assert Holds(j, ByCallback(s.c), Carried(j, s.c).value);
      }
    case _ =>
  }

  lemma CarriersStep(j: Joint, step: Step)
    requires Inv(j) && Enabled(j, step)
    ensures CarriersOk(Apply(j, step))
  {
    var j' := Apply(j, step);
    forall who, tok | Holds(j', who, tok) ensures Tracked(j', tok) {
      CarrierBefore(j, step, who, tok);
      if Enters(j, step, who, tok) {
        NewIsTracked(j, step, who, tok);
      } else {
        OldStaysTracked(j, step, who, tok);
      }
    }
    forall who, other, t, u | Holds(j', who, t) && Holds(j', other, u) && who != other ensures !Clash(t, u) {
      CarrierBefore(j, step, who, t);
      CarrierBefore(j, step, other, u);
      if Enters(j, step, who, t) {
        NewIsTracked(j, step, who, t);
      } else if Enters(j, step, other, u) {
        NewIsTracked(j, step, other, u);
      }
    }
  }

  lemma {:induction false} InvHolds(r: Run, n: nat)
    requires IsRun(r) && n < |r.states|
    ensures Inv(r.states[n])
  {
    if n > 0 {
      InvHolds(r, n - 1);
      assert Moves(r.states[n - 1], r.steps[n - 1], r.states[n]);
      InStepStep(r.states[n - 1], r.steps[n - 1]);
      CarriersStep(r.states[n - 1], r.steps[n - 1]);
    }
  }

  // ---- projections -----------------------------------------------------------------------------

  /** Leaving out what token calls cannot see, a joint run is a run of RefreshSystem. */
  lemma {:induction false} CallsProject(r: Run, n: nat) returns (p: R.Run, at: seq<nat>)
    requires IsRun(r) && n < |r.states|
    ensures R.IsRun(p) && |at| == |p.states|
    ensures p.states[|p.steps|] == r.states[n].refresh
    ensures forall k :: 0 <= k < |p.steps| ==> at[k] < n && p.states[k] == r.states[at[k]].refresh
  {
    if n == 0 {
      p, at := R.Run([r.states[0].refresh], []), [0];
    } else {
      var j, step := r.states[n - 1], r.steps[n - 1];
      p, at := CallsProject(r, n - 1);
      assert Moves(j, step, r.states[n]);
      InvHolds(r, n - 1);
      StepProjects(j, step);
      if CallStep(j, step).Some? {
        p := Rotation.Extend(p, CallStep(j, step).value);
        at := at[..|at| - 1] + [n - 1, n];
      }
    }
  }

  /** Step by step, a joint run is a history of OAuthSystem. */
  lemma FlowsProject(r: Run) returns (h: O.History)
    requires IsRun(r)
    ensures O.IsHistory(h) && |h.states| == |r.states|
    ensures forall k :: 0 <= k < |r.states| ==> h.states[k] == r.states[k].oauth
  {
    forall k | 0 <= k < |r.steps| ensures Enabled(r.states[k], r.steps[k]) {
      assert Moves(r.states[k], r.steps[k], r.states[k + 1]);
    }
    h := O.History(
      seq(|r.states|, k requires 0 <= k < |r.states| => r.states[k].oauth),
      seq(|r.steps|, k requires 0 <= k < |r.steps| && Enabled(r.states[k], r.steps[k]) => FlowStep(r.states[k], r.steps[k])));
  }

  // ---- both theorems at once -------------------------------------------------------------------

  /**
   Rotation safety with the real callbacks and polls in it: whatever they do, as long as the lease
   assumption has held before, a refresh token shown to the provider was never consumed.
   */
  lemma RotationSafetyWithCallbacks(r: Run, n: nat)
    requires IsRun(r) && n < |r.steps|
    requires forall k :: 0 <= k < n ==> Rotation.LeaseKept(r.states[k].refresh)
    requires r.steps[n].Call? && r.steps[n].act.Act? && r.steps[n].act.e.Asked?
    ensures var s, i := r.states[n].refresh, r.steps[n].act.i;
      && i < |s.workers| && s.workers[i].pc.Presenting? && s.workers[i].pc.cur.refreshToken.Some?
      && s.workers[i].pc.cur.refreshToken.value !in s.shared.consumed
  {
    var p, at := CallsProject(r, n);
    assert Moves(r.states[n], r.steps[n], r.states[n + 1]);
    var q := Rotation.Extend(p, r.steps[n].act);
    Rotation.RotationSafety(q, |p.steps|);
  }

  /**
   Whatever token calls, deletes and polls go on: each state leads to at most one exchange, and a
   callback writes only the token of that exchange, under the connection the state was issued for.
   */
  lemma AuthorisationAmidCalls(r: Run, n: nat)
    requires IsRun(r) && n < |r.states|
    ensures var s := r.states[n].oauth;
      && (forall k, l :: 0 <= k < l < |s.exchanges| ==> s.exchanges[k].state != s.exchanges[l].state)
      && (forall k :: 0 <= k < |s.writes| ==>
            && s.writes[k].state in s.store.issued && s.writes[k].connection == s.store.issued[s.writes[k].state]
            && O.ExchangedFor(s, s.writes[k].state, s.writes[k].tok))
  {
    var h := FlowsProject(r);
    O.AuthorisationEndToEnd(h, n);
  }
}
