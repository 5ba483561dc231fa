/** The lock: who holds it, and that its optimistic release is as good as an atomic one. */
module LeaseExclusion {
  import opened Wrappers
  import opened Tokens
  import opened RefreshCall
  import opened RefreshSystem

  predicate Owns(sh: Shared, w: Worker) { OwnedBy(sh.lock, w.owner) }

  ghost predicate HolderOk(sh: Shared, w: Worker) {
    && (w.owner.Some? ==> w.owner.value in sh.owners)
    && (Holding(w) ==> w.owner.Some?)
    && (Holding(w) && sh.clock < w.leaseEnd ==> sh.lock == Held(w.owner.value, w.leaseEnd))
    && (Owns(sh, w) ==> Holding(w) && sh.lock.expiry == w.leaseEnd)
    && (w.pc.Contend? || w.pc.Backoff? ==> w.owner.None?)
    && (w.pc.FirstLoad? || w.pc.FirstCheck? || w.pc.ReLoad? || w.pc.ReCheck? ==> w.owner.None?)
    && (w.pc.Fetching? ==> w.pc.watched <= sh.version && (Owns(sh, w) ==> w.pc.watched == sh.version))
    && (w.pc.Executing? ==> w.pc.watched <= sh.version && (Owns(sh, w) <==> w.pc.watched == sh.version))
  }

  ghost predicate OwnersDiffer(ws: seq<Worker>) {
    forall i, j :: 0 <= i < j < |ws| && ws[i].owner.Some? ==> ws[i].owner != ws[j].owner
  }

  ghost predicate LockInv(s: System) {
    && (forall i :: 0 <= i < |s.workers| ==> HolderOk(s.shared, s.workers[i]))
    && OwnersDiffer(s.workers)
    && (s.shared.lock.Held? ==> s.shared.clock < s.shared.lock.expiry && s.shared.lock.owner in s.shared.owners)
    && (s.shared.lock.Held? ==> exists i :: 0 <= i < |s.workers| && Owns(s.shared, s.workers[i]))
  }

  // ---- interference ----------------------------------------------------------------------

  // The lock key, as much of it as a call can notice.
  datatype KeyView = KeyView(clock: int, lock: Lock, version: nat)

  function View(sh: Shared): KeyView { KeyView(sh.clock, sh.lock, sh.version) }

  predicate OwnedBy(lock: Lock, owner: Option<Owner>) {
    lock.Held? && Some(lock.owner) == owner
  }

  /**
   What everybody else can do to the lock key while one call, with this owner token, waits: time
   moves on, every change bumps the version, nobody removes the call's lock before it expires
   and nobody ever puts the call's own token there.
   */
  ghost predicate Interferes(owner: Option<Owner>, a: KeyView, b: KeyView) {
    && a.clock <= b.clock && a.version <= b.version
    && (a.version == b.version ==> a.lock == b.lock)
    && (OwnedBy(b.lock, owner) ==> a.lock == b.lock && a.version == b.version)
    && (OwnedBy(a.lock, owner) && b.clock < a.lock.expiry ==> a.lock == b.lock)
  }

  /** Steps that are not call i's own are, for call i, no more than interference. */
  lemma OthersOnlyInterfere(s: System, step: Step, i: nat)
    requires LockInv(s) && Enabled(s, step) && i < |s.workers| && !(step.Act? && step.i == i)
    ensures Apply(s, step).workers[i] == s.workers[i]
    ensures Interferes(s.workers[i].owner, View(s.shared), View(Apply(s, step).shared))
    ensures s.shared.owners <= Apply(s, step).shared.owners
  {}

  lemma InterferenceIsHarmless(sh: Shared, sh': Shared, w: Worker)
    requires HolderOk(sh, w) && Interferes(w.owner, View(sh), View(sh')) && sh.owners <= sh'.owners
    ensures HolderOk(sh', w)
  {}

  lemma OwnStep(s: System, i: nat, e: Event)
    requires LockInv(s) && Enabled(s, Act(i, e))
    ensures HolderOk(Apply(s, Act(i, e)).shared, Apply(s, Act(i, e)).workers[i])
  {
    assert HolderOk(s.shared, s.workers[i]);
  }

  lemma OwnersDifferStep(s: System, step: Step)
    requires LockInv(s) && Enabled(s, step)
    ensures OwnersDiffer(Apply(s, step).workers)
  {}

  lemma HeldStep(s: System, step: Step)
    requires LockInv(s) && Enabled(s, step)
    ensures var s' := Apply(s, step);
      s'.shared.lock.Held? ==>
        && s'.shared.clock < s'.shared.lock.expiry
        && s'.shared.lock.owner in s'.shared.owners
        && exists i :: 0 <= i < |s'.workers| && Owns(s'.shared, s'.workers[i])
  {
    var s' := Apply(s, step);
    if s'.shared.lock.Held? {
      if s.shared.lock.Held? {
        var i :| 0 <= i < |s.workers| && Owns(s.shared, s.workers[i]);
        assert HolderOk(s.shared, s.workers[i]);
        assert Owns(s'.shared, s'.workers[i]);
      } else {
        assert Owns(s'.shared, s'.workers[step.i]);
      }
    }
  }

  lemma LockInvStep(s: System, step: Step)
    requires LockInv(s) && Enabled(s, step)
    ensures LockInv(Apply(s, step))
  {
    var s' := Apply(s, step);
    OwnersDifferStep(s, step);
    HeldStep(s, step);
    forall i | 0 <= i < |s'.workers|
      ensures HolderOk(s'.shared, s'.workers[i])
    {
      if step.Act? && step.i == i {
        OwnStep(s, i, step.e);
      } else if i < |s.workers| {
        OthersOnlyInterfere(s, step, i);
        InterferenceIsHarmless(s.shared, s'.shared, s.workers[i]);
      }
    }
  }

  /** Every state of every run keeps the lock's invariant. */
  lemma {:induction false} LockInvHolds(r: Run, n: nat)
    requires IsRun(r) && n < |r.states|
    ensures LockInv(r.states[n])
  {
    if n > 0 {
      LockInvHolds(r, n - 1);
      assert Moves(r.states[n - 1], r.steps[n - 1], r.states[n]);
      LockInvStep(r.states[n - 1], r.steps[n - 1]);
    }
  }

  /** Granted, not yet released, time-to-live not elapsed. */
  predicate HoldsLease(s: System, i: nat) {
    i < |s.workers| && Holding(s.workers[i]) && s.shared.clock < s.workers[i].leaseEnd
  }

  /**
   Lease exclusion, with no assumption on timing: in every reachable state a call that was granted
   the lock, has not let it go and whose time-to-live has not elapsed is the one on the key, so no
   two calls hold an unexpired lease.
   */
  lemma AtMostOneLease(r: Run, n: nat, i: nat, j: nat)
    requires IsRun(r) && n < |r.states|
    requires HoldsLease(r.states[n], i) && HoldsLease(r.states[n], j)
    ensures i == j
    ensures r.states[n].workers[i].owner.Some?
    ensures r.states[n].shared.lock == Held(r.states[n].workers[i].owner.value, r.states[n].workers[i].leaseEnd)
  {
    LockInvHolds(r, n);
    assert HolderOk(r.states[n].shared, r.states[n].workers[i]);
    assert HolderOk(r.states[n].shared, r.states[n].workers[j]);
  }

  // ---- release -------------------------------------------------------------------------------

  /** What an atomic compare-and-delete script would leave on the key. */
  function CompareAndDelete(lock: Lock, owner: Option<Owner>): Lock {
    if OwnedBy(lock, owner) then Free else lock
  }

  predicate Releasing(w: Worker) {
    w.pc.Watching? || w.pc.Fetching? || w.pc.Executing?
  }

  /**
   WATCH, GET, compare, MULTI/DEL/EXEC, with anything in between, is an atomic compare-and-delete
   that happens when the release ends: until then the key is untouched, and the last step leaves
   exactly what the script would leave, whether EXEC succeeded, aborted, or was never reached.
   Another owner's value is never removed.
   */
  lemma ReleaseRefinesCompareAndDelete(r: Run, n: nat)
    requires IsRun(r) && n < |r.steps|
    requires r.steps[n].Act? && r.steps[n].i < |r.states[n].workers|
    requires Releasing(r.states[n].workers[r.steps[n].i])
    ensures var lock, lock' := r.states[n].shared.lock, r.states[n + 1].shared.lock;
      var w, w' := r.states[n].workers[r.steps[n].i], r.states[n + 1].workers[r.steps[n].i];
      && (w'.pc.Done? || Releasing(w'))
      && lock' == (if w'.pc.Done? then CompareAndDelete(lock, w.owner) else lock)
      && (w'.pc.Done? ==> w'.pc.result == w.pc.pending)
  {
    LockInvHolds(r, n);
    assert Moves(r.states[n], r.steps[n], r.states[n + 1]);
    assert HolderOk(r.states[n].shared, r.states[n].workers[r.steps[n].i]);
  }

  /** Only these steps change the key, and only in these ways. */
  lemma LockChangesOnlyBy(r: Run, n: nat)
    requires IsRun(r) && n < |r.steps|
    ensures var lock, lock' := r.states[n].shared.lock, r.states[n + 1].shared.lock;
      || lock' == lock
      || (lock.Held? && lock' == Free &&
            (r.states[n + 1].shared.clock >= lock.expiry
             || (r.steps[n].Act? && Owns(r.states[n].shared, r.states[n].workers[r.steps[n].i])
                 && r.states[n].workers[r.steps[n].i].pc.Executing?)))
      || (lock == Free && lock'.Held? && lock'.owner !in r.states[n].shared.owners)
  {
    LockInvHolds(r, n);
    assert Moves(r.states[n], r.steps[n], r.states[n + 1]);
    if r.steps[n].Act? {
      assert HolderOk(r.states[n].shared, r.states[n].workers[r.steps[n].i]);
    }
  }

  lemma {:induction false} OwnerStays(r: Run, n: nat, m: nat, i: nat)
    requires IsRun(r) && n <= m < |r.states| && i < |r.states[n].workers|
    requires r.states[n].workers[i].pc.Done?
    ensures i < |r.states[m].workers| && r.states[m].workers[i] == r.states[n].workers[i]
  {
    if n < m {
      OwnerStays(r, n, m - 1, i);
      assert Moves(r.states[m - 1], r.steps[m - 1], r.states[m]);
    }
  }

  /**
   Once a call is over, on whatever path (EXEC refused included), the token it put on the key is
   gone from the key, in that state and in every later one.
   */
  lemma ReleasedForGood(r: Run, n: nat, m: nat, i: nat)
    requires IsRun(r) && n <= m < |r.states| && i < |r.states[n].workers|
    requires r.states[n].workers[i].pc.Done?
    ensures r.states[m].shared.lock.Held? ==> Some(r.states[m].shared.lock.owner) != r.states[n].workers[i].owner
  {
    OwnerStays(r, n, m, i);
    LockInvHolds(r, m);
    assert HolderOk(r.states[m].shared, r.states[m].workers[i]);
  }
}
