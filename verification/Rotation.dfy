/** Rotating refresh tokens: nothing spent is ever presented again. */
module Rotation {
  import opened Wrappers
  import opened Tokens
  import opened RefreshCall
  import opened RefreshSystem
  import opened LeaseExclusion

  /** The lease assumption: whoever is between grant and token write still has time on the lock. */
  ghost predicate LeaseKept(s: System) {
    forall i :: 0 <= i < |s.workers| && Critical(s.workers[i]) ==> s.shared.clock < s.workers[i].leaseEnd
  }

  /** It has held in every state before the n-th. */
  ghost predicate LeaseKeptBefore(r: Run, n: nat)
    requires n <= |r.states|
  {
    forall k :: 0 <= k < n ==> LeaseKept(r.states[k])
  }

  lemma SoleCritical(s: System, i: nat, j: nat)
    requires LockInv(s) && LeaseKept(s)
    requires i < |s.workers| && j < |s.workers| && Critical(s.workers[i]) && Critical(s.workers[j])
    ensures i == j
  {}

  predicate Unspent(sh: Shared, refresh: Option<string>) {
    refresh.Some? ==> refresh.value in sh.placed && refresh.value !in sh.consumed
  }

  predicate CarriesUnspent(sh: Shared, w: Worker) {
    match w.pc
    case DoubleCheck(seen) => Unspent(sh, seen.refreshToken)
    case Presenting(cur) => cur.refreshToken.Some? && Unspent(sh, cur.refreshToken)
    case Storing(minted) => Unspent(sh, minted.refreshToken)
    case _ => true
  }

  ghost predicate FlightOk(sh: Shared) {
    && (forall t :: t in sh.inFlight && t.refreshToken.Some? ==>
          t.refreshToken.value in sh.issued && t.refreshToken.value !in sh.placed)
    && (forall t, u :: t in sh.inFlight && u in sh.inFlight && t.refreshToken.Some? && t != u ==>
          t.refreshToken != u.refreshToken)
  }

  ghost predicate StoreOk(s: System) {
    var tok := s.shared.token;
    tok.Some? && tok.value.refreshToken.Some? ==>
      && tok.value.refreshToken.value in s.shared.placed
      && (tok.value.refreshToken.value in s.shared.consumed ==>
            exists i :: 0 <= i < |s.workers| && s.workers[i].pc.Storing?)
  }

  ghost predicate RotationInv(s: System) {
    && s.shared.consumed <= s.shared.placed <= s.shared.issued
    && s.shared.live <= s.shared.issued
    && FlightOk(s.shared)
    && StoreOk(s)
    && forall i :: 0 <= i < |s.workers| ==> CarriesUnspent(s.shared, s.workers[i])
  }

  lemma CarriesStep(s: System, step: Step, i: nat)
    requires LockInv(s) && LeaseKept(s) && RotationInv(s) && Enabled(s, step)
    requires i < |s.workers|
    ensures CarriesUnspent(Apply(s, step).shared, Apply(s, step).workers[i])
  {}

  lemma StoreStep(s: System, step: Step)
    requires LockInv(s) && LeaseKept(s) && RotationInv(s) && Enabled(s, step)
    ensures StoreOk(Apply(s, step))
  {
    var s' := Apply(s, step);
    if step.Act? {
      assert CarriesUnspent(s.shared, s.workers[step.i]);
    }
    if i :| 0 <= i < |s.workers| && s.workers[i].pc.Storing? {
      assert s'.workers[i].pc.Storing? || (step.Act? && step.i == i);
    }
    if step.Act? && step.e.Asked? && step.e.reply.Granted? {
      assert s'.workers[step.i].pc.Storing?;
    }
  }

  lemma RotationStep(s: System, step: Step)
    requires LockInv(s) && LeaseKept(s) && RotationInv(s) && Enabled(s, step)
    ensures RotationInv(Apply(s, step))
  {
    var s' := Apply(s, step);
    StoreStep(s, step);
    forall i | 0 <= i < |s'.workers|
      ensures CarriesUnspent(s'.shared, s'.workers[i])
    {
      if i < |s.workers| {
        CarriesStep(s, step, i);
      }
    }
    if step.Act? {
      assert CarriesUnspent(s.shared, s.workers[step.i]);
    }
  }

  lemma {:induction false} RotationHolds(r: Run, n: nat)
    requires IsRun(r) && n < |r.states| && LeaseKeptBefore(r, n)
    ensures RotationInv(r.states[n])
  {
    if n > 0 {
      RotationHolds(r, n - 1);
      LockInvHolds(r, n - 1);
      assert Moves(r.states[n - 1], r.steps[n - 1], r.states[n]);
      RotationStep(r.states[n - 1], r.steps[n - 1]);
    }
  }

  /**
   Rotation safety. In every run, with any number of calls of either manager, under any
   interleaving with stores, deletes and revocations, as long as the lease assumption has held so
   far: a refresh token that is shown to the provider has never been consumed.
   */
  lemma RotationSafety(r: Run, n: nat)
    requires IsRun(r) && n < |r.steps| && LeaseKeptBefore(r, n)
    requires r.steps[n].Act? && r.steps[n].e.Asked?
    ensures r.steps[n].i < |r.states[n].workers|
    ensures var w := r.states[n].workers[r.steps[n].i];
      && w.pc.Presenting? && w.pc.cur.refreshToken.Some?
      && w.pc.cur.refreshToken.value !in r.states[n].shared.consumed
  {
    RotationHolds(r, n);
    assert Moves(r.states[n], r.steps[n], r.states[n + 1]);
    assert CarriesUnspent(r.states[n].shared, r.states[n].workers[r.steps[n].i]);
  }

  // ---- the assumption is needed --------------------------------------------------------------

  const SPENT := TokenSet("a0", 0, "Bearer", Some("r0"), None, Some("tenant"))
  const START := System(0, Shared(0, Free, 0, Some(SPENT), {}, {"r0"}, {"r0"}, {}, {"r0"}, {}, []), [])

  /** Two calls read the stale token; the first one's lease runs out between its check and its refresh. */
  function OverrunSteps(): seq<Step> {
    [Arrive(Xero), Arrive(Xero),
     Act(0, Read(Some(SPENT))), Act(0, Clock(0)), Act(0, Tried(1, true, 30_000, 0)),
     Act(0, Read(Some(SPENT))), Act(0, Clock(0)),
     Tick(30_000),
     Act(1, Read(Some(SPENT))), Act(1, Clock(30_000)), Act(1, Tried(2, true, 30_000, 30_000)),
     Act(1, Read(Some(SPENT))), Act(1, Clock(30_000)),
     Act(1, Asked(Granted(Raw("a1", 90_000, "Bearer", Some("r1"), None), true))),
     Act(0, Asked(Rejected))]
  }

  function End(r: Run): System
    requires |r.states| > 0
  {
    r.states[|r.states| - 1]
  }

  lemma Extend(r: Run, step: Step) returns (r': Run)
    requires IsRun(r) && Enabled(End(r), step)
    ensures IsRun(r') && r'.steps == r.steps + [step] && End(r') == Apply(End(r), step)
    ensures r'.states == r.states + [End(r')]
  {
    r' := Run(r.states + [Apply(End(r), step)], r.steps + [step]);
  }

  // The first call once armed, with its lock token 1.
  const ARMED := Worker(Xero, 1, Some(1), 30_000, Presenting(SPENT))

  lemma FirstCallArms() returns (r: Run)
    ensures IsRun(r) && r.steps == OverrunSteps()[..7]
    ensures End(r) == START.(workers := [ARMED, Begin(Xero)],
              shared := START.shared.(lock := Held(1, 30_000), version := 1, owners := {1}))
  {
    var steps := OverrunSteps();
    r := Run([START], []);
    r := Extend(r, steps[0]); r := Extend(r, steps[1]); r := Extend(r, steps[2]); r := Extend(r, steps[3]);
    r := Extend(r, steps[4]); r := Extend(r, steps[5]); r := Extend(r, steps[6]);
  }

  lemma SecondCallArms() returns (r: Run)
    ensures IsRun(r) && r.steps == OverrunSteps()[..13]
    ensures End(r) == START.(workers := [ARMED, Worker(Xero, 1, Some(2), 60_000, Presenting(SPENT))],
              shared := START.shared.(clock := 30_000, lock := Held(2, 60_000), version := 3, owners := {1, 2}))
  {
    var steps := OverrunSteps();
    r := FirstCallArms();
    r := Extend(r, steps[7]);
    r := Extend(r, steps[8]); r := Extend(r, steps[9]); r := Extend(r, steps[10]);
    r := Extend(r, steps[11]); r := Extend(r, steps[12]);
  }

  /**
   Without the lease assumption rotation safety fails: there is a run in which the lease of a call
   runs out before its refresh, and the token it then presents has already been consumed.
   */
  lemma OverrunPresentsConsumed() returns (r: Run)
    ensures IsRun(r) && r.steps == OverrunSteps()
    ensures |r.states[14].workers| == 2 && r.states[14].workers[0].pc == Presenting(SPENT)
    ensures "r0" in r.states[14].shared.consumed
    ensures !LeaseKept(r.states[14])
  {
    var steps := OverrunSteps();
    r := SecondCallArms();
    r := Extend(r, steps[13]);
    assert Critical(End(r).workers[0]);
    r := Extend(r, steps[14]);
  }
}
