/** Where the Xero path falls short of its documentation: exactly when, and runs that get there. */
module Failures {
  import opened Wrappers
  import opened Tokens
  import opened RefreshCall
  import opened CallOutcomes
  import opened RefreshSystem
  import opened Rotation
  import opened RefreshRuns

  // ---- the token vanishes under the lock -------------------------------------------------------

  /** Call i was granted the lock at g, and the next thing it saw, at l, was a store without its token. */
  ghost predicate GoneInRun(r: Run, i: nat, n: nat, g: nat, l: nat)
    requires IsRun(r) && n < |r.states|
  {
    && g < l < n
    && r.steps[g].Act? && r.steps[g].i == i && Acquires(r.steps[g].e)
    && r.steps[l] == Act(i, Read(None)) && r.states[l].shared.token == None
    && |CallEvents(r, l, i)| == |CallEvents(r, g, i)| + 1
  }

  /**
   In any run a Xero call crashes if and only if its token was gone when it loaded it right after it
   was granted the lock.
   */
  lemma CrashesExactly(r: Run, n: nat, i: nat, out: Outcome)
    requires IsRun(r) && n < |r.states| && i < |r.states[n].workers|
    requires r.states[n].workers[i].kind == Xero && r.states[n].workers[i].pc == Done(out)
    ensures out == Crashed <==> exists g: nat, l: nat :: GoneInRun(r, i, n, g, l)
  {
    FinishedCallsKeepPromises(r, n, i, out);
    var events := CallEvents(r, n, i);
    if j :| 0 <= j < |events| - 1 && Acquires(events[j]) && events[j + 1] == Read(None) {
      var g := StepOfEvent(r, n, i, j);
      var l := StepOfEvent(r, n, i, j + 1);
      EventsInOrder(r, n, i, g, l);
      assert Moves(r.states[l], r.steps[l], r.states[l + 1]);
      assert GoneInRun(r, i, n, g, l);
    }
    if g: nat, l: nat :| GoneInRun(r, i, n, g, l) {
      EventOfStep(r, g, n, i);
      EventOfStep(r, l, n, i);
      assert Acquires(events[|CallEvents(r, g, i)|]) && events[|CallEvents(r, g, i)| + 1] == Read(None);
    }
  }

  /** The connection is revoked while a call waits for the answer to its SET NX. */
  function CrashSteps(): seq<Step> {
    [Arrive(Xero), Act(0, Read(Some(SPENT))), Act(0, Clock(0)), Act(0, Tried(1, true, 30_000, 0)),
     Delete, Act(0, Read(None)), Act(0, Watched(1)), Act(0, Got(Some(1))), Act(0, Execed(true))]
  }

  lemma TokenDeleted() returns (r: Run)
    ensures IsRun(r) && r.steps == CrashSteps()[..5]
    ensures End(r) == START.(workers := [Worker(Xero, 1, Some(1), 30_000, DoubleLoad)],
              shared := START.shared.(lock := Held(1, 30_000), version := 1, owners := {1}, token := None))
  {
    var steps := CrashSteps();
    r := Run([START], []);
    r := Extend(r, steps[0]); r := Extend(r, steps[1]); r := Extend(r, steps[2]); r := Extend(r, steps[3]);
    r := Extend(r, steps[4]);
  }

  lemma DeleteUnderLockCrashes() returns (r: Run)
    ensures IsRun(r) && r.steps == CrashSteps()
    ensures |r.states[9].workers| == 1 && r.states[9].workers[0].pc == Done(Crashed)
    ensures r.states[9].shared.lock == Free
  {
    var steps := CrashSteps();
    r := TokenDeleted();
    r := Extend(r, steps[5]); r := Extend(r, steps[6]); r := Extend(r, steps[7]); r := Extend(r, steps[8]);
  }

  // ---- the retry after a Xero 401 --------------------------------------------------------------

  /** A Xero call ends with ConnectionMissingError if and only if there was no token when it first looked, at l. */
  lemma MissingExactly(r: Run, l: nat, n: nat, i: nat, out: Outcome)
    requires IsRun(r) && l < n < |r.states| && i < |r.states[n].workers|
    requires r.states[n].workers[i].kind == Xero && r.states[n].workers[i].pc == Done(out)
    requires r.steps[l].Act? && r.steps[l].i == i && CallEvents(r, l, i) == []
    ensures out == Missing <==> r.states[l].shared.token == None
  {
    CallsAreLegal(r, n, i);
    EventOfStep(r, l, n, i);
    FirstReadDecidesMissing(r.states[0].buffer, CallEvents(r, n, i));
    assert Moves(r.states[l], r.steps[l], r.states[l + 1]);
  }

  /** Steps that put a token into the store. */
  predicate Stores(step: Step) { step.Deliver? || (step.Act? && step.e.Wrote?) }

  lemma {:induction false} DeletedStaysGone(r: Run, d: nat, l: nat)
    requires IsRun(r) && d < l < |r.states| && r.steps[d].Delete?
    requires forall k :: d < k < l ==> !Stores(r.steps[k])
    ensures r.states[l].shared.token == None
  {
    assert Moves(r.states[l - 1], r.steps[l - 1], r.states[l]);
    if d < l - 1 {
      DeletedStaysGone(r, d, l - 1);
    }
  }

  /**
   After a 401 the Xero client deletes the token, at d, and asks for one again, first looking at l. If
   nobody has stored a token in between, that call ends with ConnectionMissingError.
   */
  lemma RetryAfterDeleteIsMissing(r: Run, d: nat, l: nat, n: nat, i: nat, out: Outcome)
    requires IsRun(r) && d < l < n < |r.states| && i < |r.states[n].workers|
    requires r.steps[d].Delete? && forall k :: d < k < l ==> !Stores(r.steps[k])
    requires r.states[n].workers[i].kind == Xero && r.states[n].workers[i].pc == Done(out)
    requires r.steps[l].Act? && r.steps[l].i == i && CallEvents(r, l, i) == []
    ensures out == Missing
  {
    DeletedStaysGone(r, d, l);
    MissingExactly(r, l, n, i, out);
  }
}
