/** Runs in which nobody re-authorises, deletes or revokes: the store keeps up with the provider. */
module RefreshChain {
  import opened Wrappers
  import opened Tokens
  import opened RefreshCall
  import opened RefreshSystem
  import opened LeaseExclusion
  import opened Rotation

  /** Only token calls and time; every refresh rotates and the answer carries the new refresh token. */
  predicate Rotating(step: Step) {
    match step
    case Act(_, e) =>
      e.Asked? && e.reply.Granted? ==> e.reply.retired && e.reply.raw.refreshToken.Some?
    case Arrive(_) => true
    case Tick(_) => true
    case _ => false
  }

  ghost predicate RotatingRun(r: Run) {
    IsRun(r) && forall k :: 0 <= k < |r.steps| ==> Rotating(r.steps[k])
  }

  /** One connection, freshly authorised: the stored refresh token is the provider's only live one. */
  ghost predicate Authorised(s: System, first: string) {
    && s.shared.token.Some? && s.shared.token.value.refreshToken == Some(first)
    && s.shared.live == {first}
    && Normal(s.shared.token.value) == s.shared.token.value
  }

  /** The refresh token at the end of the chain. */
  function TipOf(refreshes: seq<Refresh>, first: string): Option<string> {
    if |refreshes| == 0 then Some(first) else refreshes[|refreshes| - 1].tok.refreshToken
  }

  function Tip(sh: Shared, first: string): Option<string> { TipOf(sh.refreshes, first) }

  /** Each refresh presents what the one before it obtained; the first presents `first`. */
  predicate Linear(refreshes: seq<Refresh>, first: string) {
    |refreshes| > 0 ==>
      var next, before := refreshes[|refreshes| - 1], refreshes[..|refreshes| - 1];
      && Linear(before, first)
      && next.tok.refreshToken.Some?
      && Some(next.presented) == TipOf(before, first)
  }

  predicate Writing(s: System, i: int) { 0 <= i < |s.workers| && s.workers[i].pc.Storing? }

  /** The refresh token a call may be about to present. */
  function Carried(w: Worker): Option<string> {
    match w.pc
    case DoubleCheck(seen) => seen.refreshToken
    case Presenting(cur) => cur.refreshToken
    case _ => None
  }

  ghost predicate CarriedOk(s: System, first: string) {
    forall i :: 0 <= i < |s.workers| && Carried(s.workers[i]).Some? ==>
      && Carried(s.workers[i]).value in s.shared.issued
      && ((exists j :: Writing(s, j)) ==> Carried(s.workers[i]) != Tip(s.shared, first))
  }

  ghost predicate WritersOk(s: System, first: string)
    requires s.shared.token.Some?
  {
    var sh := s.shared;
    && (forall i, j :: Writing(s, i) && Writing(s, j) ==> i == j)
    && (forall i :: Writing(s, i) ==>
          && |sh.refreshes| > 0
          && s.workers[i].pc.minted == sh.refreshes[|sh.refreshes| - 1].tok
          && sh.token.value.refreshToken == Some(sh.refreshes[|sh.refreshes| - 1].presented)
          && sh.token.value.refreshToken != Tip(sh, first))
  }

  ghost predicate Agrees(sh: Shared, first: string)
    requires sh.token.Some?
  {
    && sh.token.value.refreshToken == Tip(sh, first)
    && (|sh.refreshes| > 0 ==> sh.token.value == Normal(sh.refreshes[|sh.refreshes| - 1].tok))
  }

  ghost predicate ChainInv(s: System, first: string) {
    var sh := s.shared;
    && Linear(sh.refreshes, first)
    && Tip(sh, first).Some? && Tip(sh, first) != Some("")
    && Tip(sh, first).value in sh.issued && sh.live == {Tip(sh, first).value}
    && sh.token.Some? && sh.token.value.refreshToken.Some? && sh.token.value.refreshToken.value in sh.issued
    && CarriedOk(s, first)
    && WritersOk(s, first)
    && ((forall i :: !Writing(s, i)) ==> Agrees(sh, first))
  }

  lemma GrantedStep(s: System, step: Step, first: string)
    requires ChainInv(s, first) && Enabled(s, step) && Rotating(step)
    requires step.Act? && step.e.Asked? && step.e.reply.Granted?
    ensures ChainInv(Apply(s, step), first)
  {
    var s' := Apply(s, step);
    var tok := Refreshed(s.workers[step.i].kind, s.workers[step.i].pc.cur, step.e.reply.raw);
    assert s'.shared.refreshes[|s'.shared.refreshes| - 1].tok == tok;
    assert Tip(s'.shared, first) == tok.refreshToken;
    assert Carried(s.workers[step.i]) == Tip(s.shared, first);
    assert forall j :: !Writing(s, j);
    assert s'.shared.refreshes[..|s.shared.refreshes|] == s.shared.refreshes;
    assert Writing(s', step.i);
    forall i | Writing(s', i) ensures i == step.i {
      assert i != step.i ==> Writing(s, i);
    }
    forall i | 0 <= i < |s'.workers| && Carried(s'.workers[i]).Some?
      ensures Carried(s'.workers[i]).value in s.shared.issued
    {
      assert i != step.i;
    }
  }

  lemma WroteStep(s: System, step: Step, first: string)
    requires ChainInv(s, first) && Enabled(s, step) && step.Act? && step.e.Wrote?
    ensures ChainInv(Apply(s, step), first)
  {
    var s' := Apply(s, step);
    assert Writing(s, step.i);
    forall i ensures !Writing(s', i) {
      assert Writing(s', i) ==> i != step.i && Writing(s, i);
    }
  }

  predicate Settles(step: Step) { step.Act? && (step.e.Wrote? || (step.e.Asked? && step.e.reply.Granted?)) }

  lemma OthersKeepTokens(s: System, step: Step)
    requires Enabled(s, step) && (step.Act? || step.Arrive? || step.Tick?) && !Settles(step)
    ensures var sh, sh' := s.shared, Apply(s, step).shared;
      sh'.token == sh.token && sh'.refreshes == sh.refreshes && sh'.live == sh.live && sh'.issued == sh.issued
    ensures forall i :: Writing(Apply(s, step), i) <==> Writing(s, i)
    ensures forall i :: Writing(s, i) ==> Apply(s, step).workers[i] == s.workers[i]
  {}

  lemma OtherStep(s: System, step: Step, first: string)
    requires ChainInv(s, first) && Enabled(s, step) && Rotating(step)
    requires !Settles(step)
    ensures ChainInv(Apply(s, step), first)
  {
    var s' := Apply(s, step);
    OthersKeepTokens(s, step);
    forall i | 0 <= i < |s'.workers| && Carried(s'.workers[i]).Some?
      ensures Carried(s'.workers[i]).value in s.shared.issued
      ensures (exists j :: Writing(s, j)) ==> Carried(s'.workers[i]) != Tip(s.shared, first)
    {
      if i < |s.workers| && Carried(s'.workers[i]) != Carried(s.workers[i]) {
        assert Carried(s'.workers[i]) == s.shared.token.value.refreshToken;
      }
    }
  }

  lemma {:induction false} ChainHolds(r: Run, n: nat, first: string)
    requires RotatingRun(r) && Authorised(r.states[0], first) && n < |r.states|
    ensures ChainInv(r.states[n], first)
  {
    if n > 0 {
      ChainHolds(r, n - 1, first);
      var s, step := r.states[n - 1], r.steps[n - 1];
      assert Moves(s, step, r.states[n]);
      if step.Act? && step.e.Asked? && step.e.reply.Granted? {
        GrantedStep(s, step, first);
      } else if step.Act? && step.e.Wrote? {
        WroteStep(s, step, first);
      } else {
        OtherStep(s, step, first);
      }
    }
  }

  /**
   Successful refreshes form one line: each shows the refresh token the one before it obtained, the
   first shows the original. Whenever no call is between provider and store, the stored token is
   what the latest refresh returned and its refresh token is the single one the provider accepts.
   No timing assumption is needed for this.
   */
  lemma StoreAgreesWithProvider(r: Run, n: nat, first: string)
    requires RotatingRun(r) && Authorised(r.states[0], first) && n < |r.states|
    ensures var sh := r.states[n].shared;
      && Linear(sh.refreshes, first)
      && sh.token.Some?
      && ((forall i :: 0 <= i < |r.states[n].workers| ==> !r.states[n].workers[i].pc.Storing?) ==>
            && sh.token.value.refreshToken.Some?
            && sh.live == {sh.token.value.refreshToken.value}
            && (|sh.refreshes| == 0 ==> sh.token.value.refreshToken == Some(first))
            && (|sh.refreshes| > 0 ==> sh.token.value == Normal(sh.refreshes[|sh.refreshes| - 1].tok)))
  {
    ChainHolds(r, n, first);
  }

  // ---- the Xero tenant -----------------------------------------------------------------------

  ghost predicate XeroOnly(r: Run) {
    forall k :: 0 <= k < |r.steps| && r.steps[k].Arrive? ==> r.steps[k].kind == Xero
  }

  predicate HasTenant(w: Worker, tenant: Option<string>) {
    w.kind == Xero &&
    match w.pc
    case DoubleCheck(seen) => seen.tenantId == tenant
    case Presenting(cur) => cur.tenantId == tenant
    case Storing(minted) => minted.tenantId == tenant
    case _ => true
  }

  ghost predicate TenantInv(s: System, tenant: Option<string>) {
    && s.shared.token.Some? && s.shared.token.value.tenantId == tenant
    && forall i :: 0 <= i < |s.workers| ==> HasTenant(s.workers[i], tenant)
  }

  /** However often the Xero token is refreshed, the stored tenant id is still the original. */
  lemma {:induction false} TenantSurvives(r: Run, n: nat, first: string)
    requires RotatingRun(r) && XeroOnly(r) && Authorised(r.states[0], first) && n < |r.states|
    ensures TenantInv(r.states[n], r.states[0].shared.token.value.tenantId)
  {
    if n > 0 {
      TenantSurvives(r, n - 1, first);
      var s, step := r.states[n - 1], r.steps[n - 1];
      assert Moves(s, step, r.states[n]);
      if step.Act? {
        assert HasTenant(s.workers[step.i], r.states[0].shared.token.value.tenantId);
      }
    }
  }

  // ---- no thundering herd --------------------------------------------------------------------

  predicate Unforced(step: Step) {
    step.Act? || step.Tick? || (step.Arrive? && !Forced(step.kind))
  }

  /** Only unforced token calls and time; the provider may rotate or not. */
  ghost predicate UnforcedRun(r: Run) {
    IsRun(r) && forall k :: 0 <= k < |r.steps| ==> Unforced(r.steps[k])
  }

  /** What the first refresh obtained, if there was one, is still outside the buffer. */
  predicate FirstStaysFresh(s: System) {
    |s.shared.refreshes| > 0 ==> s.shared.refreshes[0].tok.expiresAt > s.shared.clock + s.buffer
  }

  /** After the one refresh: its minter is about to write it, or it is stored and nobody means to refresh again. */
  predicate Settled(w: Worker, tok: TokenSet) {
    && !Forced(w.kind)
    && !w.pc.LoadCurrent? && !w.pc.Presenting? && !w.pc.Storing?
    && (w.pc.DoubleCheck? ==> w.pc.seen == Normal(tok))
  }

  ghost predicate HerdInv(s: System) {
    var sh := s.shared;
    && (forall i :: 0 <= i < |s.workers| ==> !Forced(s.workers[i].kind))
    && (|sh.refreshes| == 0 ==> forall i :: !Writing(s, i))
    && |sh.refreshes| <= 1
    && (|sh.refreshes| == 1 ==>
          if exists i :: Writing(s, i) then
            forall i :: Writing(s, i) ==> s.workers[i].pc.minted == sh.refreshes[0].tok
          else
            && sh.token == Some(Normal(sh.refreshes[0].tok))
            && forall i :: 0 <= i < |s.workers| ==> Settled(s.workers[i], sh.refreshes[0].tok))
  }

  lemma HerdWrites(s: System, i: nat)
    requires LockInv(s) && LeaseKept(s) && HerdInv(s) && Enabled(s, Act(i, Wrote))
    ensures HerdInv(Apply(s, Act(i, Wrote)))
  {
    var s' := Apply(s, Act(i, Wrote));
    assert Writing(s, i);
    forall j | 0 <= j < |s'.workers| ensures !Critical(s'.workers[j]) {
      if Critical(s'.workers[j]) && j != i {
        SoleCritical(s, i, j);
      }
    }
  }

  /** While one call is between provider and store, no other call gets an answer from the provider. */
  lemma HerdAsks(s: System, step: Step)
    requires LockInv(s) && LeaseKept(s) && HerdInv(s) && Enabled(s, step)
    requires step.Act? && step.e.Asked? && step.e.reply.Granted?
    ensures HerdInv(Apply(s, step))
  {
    var s' := Apply(s, step);
    if i :| Writing(s, i) {
      SoleCritical(s, i, step.i);
    }
    assert |s.shared.refreshes| == 0;
    assert Writing(s', step.i);
    forall j | Writing(s', j) ensures j == step.i {
      assert j != step.i ==> Writing(s, j);
    }
  }

  lemma HerdWaits(s: System, step: Step)
    requires HerdInv(s) && FirstStaysFresh(s) && Enabled(s, step) && Unforced(step) && !Settles(step)
    ensures HerdInv(Apply(s, step))
  {
    var s' := Apply(s, step);
    OthersKeepTokens(s, step);
    forall i | 0 <= i < |s'.workers| ensures !Forced(s'.workers[i].kind) {
      assert i < |s.workers| ==> s'.workers[i].kind == s.workers[i].kind;
    }
    if |s.shared.refreshes| == 1 && forall i :: !Writing(s, i) {
      var tok := s.shared.refreshes[0].tok;
      forall i | 0 <= i < |s'.workers| ensures Settled(s'.workers[i], tok) {
        assert i < |s.workers| ==> Settled(s.workers[i], tok);
      }
    }
  }

  lemma HerdStep(s: System, step: Step)
    requires LockInv(s) && LeaseKept(s) && HerdInv(s) && FirstStaysFresh(s) && Enabled(s, step) && Unforced(step)
    ensures HerdInv(Apply(s, step))
  {
    if step.Act? && step.e.Wrote? {
      HerdWrites(s, step.i);
    } else if Settles(step) {
      HerdAsks(s, step);
    } else {
      HerdWaits(s, step);
    }
  }

  lemma {:induction false} HerdHolds(r: Run, n: nat)
    requires UnforcedRun(r) && n < |r.states| && LeaseKeptBefore(r, n)
    requires forall k :: 0 <= k < n ==> FirstStaysFresh(r.states[k])
    ensures HerdInv(r.states[n])
  {
    if n > 0 {
      HerdHolds(r, n - 1);
      LockInvHolds(r, n - 1);
      assert Moves(r.states[n - 1], r.steps[n - 1], r.states[n]);
      HerdStep(r.states[n - 1], r.steps[n - 1]);
    }
  }

  /**
   No thundering herd: under the lease assumption, any number of concurrent calls cause at most one
   successful refresh for as long as the token obtained by the first stays outside the buffer, however
   short-lived a second one would be.
   */
  lemma NoThunderingHerd(r: Run, n: nat)
    requires UnforcedRun(r) && n < |r.states| && LeaseKeptBefore(r, n)
    requires forall k :: 0 <= k < n ==> FirstStaysFresh(r.states[k])
    ensures |r.states[n].shared.refreshes| <= 1
  {
    HerdHolds(r, n);
  }
}
