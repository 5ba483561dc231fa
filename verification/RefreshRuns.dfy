/** From one call to the whole system: every call in a run is a legal call, and the run comes to rest. */
module RefreshRuns {
  import opened Wrappers
  import opened Tokens
  import opened RefreshCall
  import opened CallOutcomes
  import opened RefreshSystem
  import opened LeaseExclusion

  /** What call i got to see during these steps. */
  function EventsOf(steps: seq<Step>, i: nat): seq<Event> {
    if |steps| == 0 then []
    else
      var before := EventsOf(steps[..|steps| - 1], i);
      var step := steps[|steps| - 1];
      if step.Act? && step.i == i then before + [step.e] else before
  }

  function CallEvents(r: Run, n: nat, i: nat): seq<Event>
    requires n <= |r.steps|
  {
    EventsOf(r.steps[..n], i)
  }

  lemma CallEventsStep(r: Run, n: nat, i: nat)
    requires n < |r.steps|
    ensures CallEvents(r, n + 1, i)
         == if r.steps[n].Act? && r.steps[n].i == i then CallEvents(r, n, i) + [r.steps[n].e] else CallEvents(r, n, i)
  {
    assert r.steps[..n + 1][..n] == r.steps[..n];
  }

  /** Seen on its own, each call of a run is a legal call, in the state its own events put it in. */
  lemma {:induction false} CallsAreLegal(r: Run, n: nat, i: nat)
    requires IsRun(r) && n < |r.states|
    ensures i < |r.states[n].workers| ==>
      var w := r.states[n].workers[i];
      && Legal(r.states[0].buffer, w.kind, CallEvents(r, n, i))
      && Replay(r.states[0].buffer, w.kind, CallEvents(r, n, i)) == w
    ensures i >= |r.states[n].workers| ==> CallEvents(r, n, i) == []
    ensures r.states[n].buffer == r.states[0].buffer
  {
    if n > 0 {
      CallsAreLegal(r, n - 1, i);
      var s, step := r.states[n - 1], r.steps[n - 1];
      assert Moves(s, step, r.states[n]);
      CallEventsStep(r, n - 1, i);
      if step.Act? && step.i == i {
        AdvanceKeepsKind(s.buffer, s.workers[i], step.e);
        ReplaySnoc(s.buffer, s.workers[i].kind, CallEvents(r, n - 1, i), step.e);
      }
    }
  }

  lemma AdvanceKeepsKind(buffer: int, w: Worker, e: Event)
    requires Accepts(w, e)
    ensures Advance(buffer, w, e).kind == w.kind
  {}

  /** The step at which call i saw its j-th event. */
  lemma {:induction false} StepOfEvent(r: Run, n: nat, i: nat, j: nat) returns (k: nat)
    requires n <= |r.steps| && j < |CallEvents(r, n, i)|
    ensures k < n && r.steps[k] == Act(i, CallEvents(r, n, i)[j])
    ensures |CallEvents(r, k, i)| == j && CallEvents(r, k, i) == CallEvents(r, n, i)[..j]
  {
    CallEventsStep(r, n - 1, i);
    if |CallEvents(r, n - 1, i)| <= j {
      k := n - 1;
    } else {
      k := StepOfEvent(r, n - 1, i, j);
    }
  }

  lemma {:induction false} EventsGrow(r: Run, k: nat, n: nat, i: nat)
    requires k <= n <= |r.steps|
    ensures |CallEvents(r, k, i)| <= |CallEvents(r, n, i)|
  {
    if k < n {
      var l: nat := n - 1;
      EventsGrow(r, k, l, i);
      CallEventsStep(r, l, i);
    }
  }

  lemma {:induction false} ClockNeverGoesBack(r: Run, k: nat, n: nat)
    requires IsRun(r) && k <= n < |r.states|
    ensures r.states[k].shared.clock <= r.states[n].shared.clock
  {
    if k < n {
      ClockNeverGoesBack(r, k, n - 1);
      assert Moves(r.states[n - 1], r.steps[n - 1], r.states[n]);
    }
  }

  lemma InterferenceComposes(owner: Option<Owner>, a: KeyView, b: KeyView, c: KeyView)
    requires Interferes(owner, a, b) && Interferes(owner, b, c)
    ensures Interferes(owner, a, c)
  {}

  /** Everything the rest of a run does to the lock key while a call waits is interference, however many steps it takes. */
  lemma {:induction false} WaitingMeansInterference(r: Run, k: nat, m: nat, i: nat)
    requires IsRun(r) && k <= m < |r.states| && i < |r.states[k].workers|
    requires |CallEvents(r, k, i)| == |CallEvents(r, m, i)|
    ensures Interferes(r.states[k].workers[i].owner, View(r.states[k].shared), View(r.states[m].shared))
    ensures r.states[k].shared.owners <= r.states[m].shared.owners
  {
    if k < m {
      var l: nat := m - 1;
      EventsGrow(r, k, l, i);
      CallEventsStep(r, l, i);
      WaitingMeansInterference(r, k, l, i);
      QuietMeansSame(r, k, l, i);
      LockInvHolds(r, l);
      assert Moves(r.states[l], r.steps[l], r.states[m]);
      OthersOnlyInterfere(r.states[l], r.steps[l], i);
      InterferenceComposes(r.states[k].workers[i].owner, View(r.states[k].shared), View(r.states[l].shared),
        View(r.states[m].shared));
    }
  }

  // ---- provenance --------------------------------------------------------------------------

  /** At step k call i read `tok` from the store, and the token was outside the buffer at that moment. */
  ghost predicate ReadWhileFresh(r: Run, i: nat, tok: TokenSet, k: nat)
    requires IsRun(r)
  {
    && k < |r.steps|
    && r.steps[k] == Act(i, Read(Some(tok)))
    && r.states[k].shared.token == Some(tok)
    && tok.expiresAt > r.states[k].shared.clock + r.states[0].buffer
  }

  /**
   At step k the provider granted `tok` to call i and recorded it; at step m the call stored it and
   only then turned to releasing the lock.
   */
  ghost predicate MintedAndStored(r: Run, i: nat, tok: TokenSet, k: nat, m: nat)
    requires IsRun(r)
  {
    && k < m < |r.steps|
    && r.steps[k].Act? && r.steps[k].i == i && r.steps[k].e.Asked? && r.steps[k].e.reply.Granted?
    && |r.states[k + 1].shared.refreshes| == |r.states[k].shared.refreshes| + 1
    && r.states[k + 1].shared.refreshes[|r.states[k].shared.refreshes|].tok == tok
    && r.steps[m] == Act(i, Wrote)
    && r.states[m + 1].shared.token == Some(Normal(tok))
    && i < |r.states[m + 1].workers| && r.states[m + 1].workers[i].pc == Watching(Returned(tok))
  }

  lemma FoundFreshInRun(r: Run, n: nat, i: nat, j: nat, tok: TokenSet) returns (k: nat)
    requires IsRun(r) && n < |r.states|
    requires FoundFresh(r.states[0].buffer, CallEvents(r, n, i), j, tok)
    ensures k < n && ReadWhileFresh(r, i, tok, k)
  {
    k := StepOfEvent(r, n, i, j - 1);
    var l := StepOfEvent(r, n, i, j);
    if l < k {
      EventsGrow(r, l, k, i);
    }
    assert Moves(r.states[k], r.steps[k], r.states[k + 1]);
    assert Moves(r.states[l], r.steps[l], r.states[l + 1]);
    ClockNeverGoesBack(r, k, l);
  }

  /** A grant to call i is recorded by the provider as made for the token the call read last. */
  lemma GrantedInRun(r: Run, k: nat, i: nat)
    requires IsRun(r) && k < |r.steps|
    requires r.steps[k].Act? && r.steps[k].i == i && r.steps[k].e.Asked? && r.steps[k].e.reply.Granted?
    ensures i < |r.states[k].workers| && LastRead(CallEvents(r, k, i)).Some?
    ensures var sh, sh' := r.states[k].shared, r.states[k + 1].shared;
      var tok := Refreshed(r.states[k].workers[i].kind, LastRead(CallEvents(r, k, i)).value, r.steps[k].e.reply.raw);
      && |sh'.refreshes| == |sh.refreshes| + 1 && sh'.refreshes[|sh.refreshes|].tok == tok
      && i < |r.states[k + 1].workers| && r.states[k + 1].workers[i].pc == Storing(tok)
  {
    assert Moves(r.states[k], r.steps[k], r.states[k + 1]);
    CallsAreLegal(r, k, i);
    ResultExplained(r.states[0].buffer, r.states[k].workers[i].kind, CallEvents(r, k, i));
  }

  lemma WroteInRun(r: Run, m: nat, i: nat)
    requires IsRun(r) && m < |r.steps| && r.steps[m] == Act(i, Wrote)
    ensures i < |r.states[m].workers| && r.states[m].workers[i].pc.Storing?
    ensures var tok := r.states[m].workers[i].pc.minted;
      && r.states[m + 1].shared.token == Some(Normal(tok))
      && i < |r.states[m + 1].workers| && r.states[m + 1].workers[i].pc == Watching(Returned(tok))
  {
    assert Moves(r.states[m], r.steps[m], r.states[m + 1]);
  }

  lemma Bystander(s: System, step: Step, i: nat)
    requires Enabled(s, step) && i < |s.workers| && !(step.Act? && step.i == i)
    ensures i < |Apply(s, step).workers| && Apply(s, step).workers[i] == s.workers[i]
  {}

  /** Between two events of its own a call does not change. */
  lemma {:induction false} QuietMeansSame(r: Run, k: nat, m: nat, i: nat)
    requires IsRun(r) && k <= m < |r.states| && i < |r.states[k].workers|
    requires |CallEvents(r, k, i)| == |CallEvents(r, m, i)|
    ensures i < |r.states[m].workers| && r.states[m].workers[i] == r.states[k].workers[i]
  {
    if k < m {
      EventsGrow(r, k, m - 1, i);
      CallEventsStep(r, m - 1, i);
      QuietMeansSame(r, k, m - 1, i);
      assert Moves(r.states[m - 1], r.steps[m - 1], r.states[m]);
      Bystander(r.states[m - 1], r.steps[m - 1], i);
    }
  }

  lemma MintedInRun(r: Run, n: nat, i: nat, j: nat, tok: TokenSet) returns (k: nat, m: nat)
    requires IsRun(r) && n < |r.states| && i < |r.states[n].workers|
    requires MintedAt(r.states[n].workers[i].kind, CallEvents(r, n, i), j, tok)
    ensures m < n && MintedAndStored(r, i, tok, k, m)
  {
    k := StepOfEvent(r, n, i, j);
    m := StepOfEvent(r, n, i, j + 1);
    if m < k {
      EventsGrow(r, m, k, i);
    }
    GrantedInRun(r, k, i);
    WroteInRun(r, m, i);
    KindStays(r, k, n, i);
    CallEventsStep(r, k, i);
    QuietMeansSame(r, k + 1, m, i);
  }

  lemma {:induction false} KindStays(r: Run, k: nat, n: nat, i: nat)
    requires IsRun(r) && k <= n < |r.states| && i < |r.states[k].workers|
    ensures i < |r.states[n].workers| && r.states[n].workers[i].kind == r.states[k].workers[i].kind
  {
    if k < n {
      KindStays(r, k, n - 1, i);
      assert Moves(r.states[n - 1], r.steps[n - 1], r.states[n]);
      var step := r.steps[n - 1];
      if step.Act? && step.i == i {
        AdvanceKeepsKind(r.states[n - 1].buffer, r.states[n - 1].workers[i], step.e);
      }
    }
  }

  /**
   Provenance, in the middle of everything else that goes on: a token returned by a call was the
   stored one and outside the refresh buffer at the moment the call read it, or the provider minted
   it for this call, which stored it before it began to release the lock. With force, only the latter.
   */
  lemma ResultsComeFromSomewhere(r: Run, n: nat, i: nat, tok: TokenSet)
    requires IsRun(r) && n < |r.states| && i < |r.states[n].workers|
    requires r.states[n].workers[i].pc == Done(Returned(tok))
    ensures (!Forced(r.states[n].workers[i].kind) && exists k: nat :: k < n && ReadWhileFresh(r, i, tok, k))
         || exists k: nat, m: nat :: m < n && MintedAndStored(r, i, tok, k, m)
  {
    CallsAreLegal(r, n, i);
    var kind, events := r.states[n].workers[i].kind, CallEvents(r, n, i);
    ProvenanceOfResult(r.states[0].buffer, kind, events, tok);
    if j: nat :| !Forced(kind) && FoundFresh(r.states[0].buffer, events, j, tok) {
      var k := FoundFreshInRun(r, n, i, j, tok);
    } else {
      var j: nat :| MintedAt(kind, events, j, tok);
      var k, m := MintedInRun(r, n, i, j, tok);
    }
  }

  // ---- the other promises ----------------------------------------------------------------------

  /** What a single call promises, every finished call of a run has kept, whatever the others did. */
  lemma FinishedCallsKeepPromises(r: Run, n: nat, i: nat, out: Outcome)
    requires IsRun(r) && n < |r.states| && i < |r.states[n].workers|
    requires r.states[n].workers[i].pc == Done(out)
    ensures Promise(r.states[0].buffer, r.states[n].workers[i].kind, CallEvents(r, n, i), out)
  {
    CallsAreLegal(r, n, i);
    PromiseKept(r.states[0].buffer, r.states[n].workers[i].kind, CallEvents(r, n, i), out);
  }

  /** At step g the lock key was free and call i put its token there; later, at l, it read `cur`; at c it saw it stale. */
  ghost predicate SeenStaleUnderLock(r: Run, i: nat, cur: TokenSet, g: nat, l: nat, c: nat)
    requires IsRun(r)
  {
    && g < l < c < |r.steps|
    && r.steps[g].Act? && r.steps[g].i == i && Acquires(r.steps[g].e) && r.states[g].shared.lock == Free
    && r.states[g + 1].shared.lock == Held(r.steps[g].e.owner, r.steps[g].e.now + r.steps[g].e.ttl)
    && r.steps[l] == Act(i, Read(Some(cur))) && r.states[l].shared.token == Some(cur)
    && r.steps[c] == Act(i, Clock(r.states[c].shared.clock))
    && cur.expiresAt <= r.states[c].shared.clock + r.states[0].buffer
  }

  lemma EventsInOrder(r: Run, n: nat, i: nat, k: nat, l: nat)
    requires k < n <= |r.steps| && l < n && |CallEvents(r, k, i)| < |CallEvents(r, l, i)|
    ensures k < l
  {
    if l <= k {
      EventsGrow(r, l, k, i);
    }
  }

  /**
   Whatever a Xero call of a run is about to show the provider, it read from the store after it was
   granted its own lock, and then found it stale; and between the grant and now it saw nothing else.
   */
  lemma XeroPresentsSeenStale(r: Run, n: nat, i: nat) returns (g: nat, l: nat, c: nat)
    requires IsRun(r) && n < |r.states| && i < |r.states[n].workers|
    requires r.states[n].workers[i].kind == Xero && r.states[n].workers[i].pc.Presenting?
    ensures c < n && SeenStaleUnderLock(r, i, r.states[n].workers[i].pc.cur, g, l, c)
    ensures |CallEvents(r, n, i)| == |CallEvents(r, g, i)| + 3
  {
    CallsAreLegal(r, n, i);
    var events := CallEvents(r, n, i);
    PresentsOnlySeenStale(r.states[0].buffer, events);
    g := StepOfEvent(r, n, i, |events| - 3);
    l := StepOfEvent(r, n, i, |events| - 2);
    c := StepOfEvent(r, n, i, |events| - 1);
    EventsInOrder(r, n, i, g, l);
    EventsInOrder(r, n, i, l, c);
    assert Moves(r.states[g], r.steps[g], r.states[g + 1]);
    assert Moves(r.states[l], r.steps[l], r.states[l + 1]);
    assert Moves(r.states[c], r.steps[c], r.states[c + 1]);
  }

  /** What call i saw at step k is its event number |CallEvents(r, k, i)|. */
  lemma {:induction false} EventOfStep(r: Run, k: nat, n: nat, i: nat)
    requires k < n <= |r.steps| && r.steps[k].Act? && r.steps[k].i == i
    ensures |CallEvents(r, k, i)| < |CallEvents(r, n, i)|
    ensures CallEvents(r, n, i)[|CallEvents(r, k, i)|] == r.steps[k].e
    ensures CallEvents(r, n, i)[..|CallEvents(r, k, i)|] == CallEvents(r, k, i)
  {
    CallEventsStep(r, n - 1, i);
    if k < n - 1 {
      EventOfStep(r, k, n - 1, i);
    }
  }

  // ---- coming to rest ------------------------------------------------------------------------

  function Acts(steps: seq<Step>): nat {
    if |steps| == 0 then 0
    else Acts(steps[..|steps| - 1]) + if steps[|steps| - 1].Act? then 1 else 0
  }

  function TotalFuel(ws: seq<Worker>): nat {
    if |ws| == 0 then 0 else TotalFuel(ws[..|ws| - 1]) + Fuel(ws[|ws| - 1])
  }

  lemma {:induction false} FuelUpdate(ws: seq<Worker>, i: nat, w: Worker)
    requires i < |ws|
    ensures TotalFuel(ws[i := w]) + Fuel(ws[i]) == TotalFuel(ws) + Fuel(w)
  {
    var n := |ws| - 1;
    if i == n {
      assert ws[i := w][..n] == ws[..n];
    } else {
      assert ws[i := w][..n] == ws[..n][i := w];
      FuelUpdate(ws[..n], i, w);
    }
  }

  lemma FuelAct(buffer: int, ws: seq<Worker>, i: nat, e: Event)
    requires i < |ws| && Accepts(ws[i], e)
    requires ws[i].pc.Contend? ==> ws[i].attempts < RETRIES
    ensures TotalFuel(ws[i := Advance(buffer, ws[i], e)]) < TotalFuel(ws)
  {
    var w := Advance(buffer, ws[i], e);
    FuelUpdate(ws, i, w);
    FuelDrops(buffer, ws[i], e);
  }

  lemma FuelArrival(ws: seq<Worker>, kind: Kind)
    ensures TotalFuel(ws + [Begin(kind)]) <= TotalFuel(ws) + 31
  {}

  lemma AttemptsLeft(r: Run, n: nat, i: nat)
    requires IsRun(r) && n < |r.states| && i < |r.states[n].workers|
    ensures r.states[n].workers[i].pc.Contend? ==> r.states[n].workers[i].attempts < RETRIES
    ensures r.states[n].workers[i].pc.Presenting? ==> r.states[n].workers[i].pc.cur.refreshToken.Some?
  {
    CallsAreLegal(r, n, i);
    CallIsBounded(r.states[0].buffer, r.states[n].workers[i].kind, CallEvents(r, n, i));
  }

  /** A step of a call burns fuel, an arrival brings 31 units of it, nothing else touches it. */
  lemma FuelStep(r: Run, n: nat)
    requires IsRun(r) && n < |r.steps|
    ensures var before, after := r.states[n].workers, r.states[n + 1].workers;
      TotalFuel(after) + (if r.steps[n].Act? then 1 else 0) + 31 * |before| <= TotalFuel(before) + 31 * |after|
  {
    var s, step := r.states[n], r.steps[n];
    assert Moves(s, step, r.states[n + 1]);
    match step
    case Act(i, e) =>
      AttemptsLeft(r, n, i);
      FuelAct(s.buffer, s.workers, i, e);
    case Arrive(kind) => FuelArrival(s.workers, kind);
    case _ =>
  }

  /** Each call that ever arrived accounts for at most 31 steps, whatever the interleaving. */
  lemma {:induction false} RunsAreShort(r: Run, n: nat)
    requires IsRun(r) && n < |r.states|
    ensures Acts(r.steps[..n]) + TotalFuel(r.states[n].workers) <= 31 * |r.states[n].workers|
  {
    if n > 0 {
      RunsAreShort(r, n - 1);
      FuelStep(r, n - 1);
      assert r.steps[..n][..n - 1] == r.steps[..n - 1];
    }
  }

  lemma UnusedOwner(owners: set<Owner>) returns (o: Owner)
    ensures o !in owners
  {
    o := 0;
    var rest := owners;
    while rest != {}
      invariant rest <= owners && forall x :: x in owners && x !in rest ==> x < o
      decreases rest
    {
      var x :| x in rest;
      rest := rest - {x};
      o := if x < o then o else x + 1;
    }
  }

  /** No call is ever stuck: until it is over, some answer can reach it. */
  lemma CallsNeverBlock(r: Run, n: nat, i: nat) returns (e: Event)
    requires IsRun(r) && n < |r.states|
    requires i < |r.states[n].workers| && !r.states[n].workers[i].pc.Done?
    ensures Enabled(r.states[n], Act(i, e))
  {
    var s := r.states[n];
    var w := s.workers[i];
    AttemptsLeft(r, n, i);
    match w.pc
    case FirstLoad | ReLoad | DoubleLoad | LoadCurrent => e := Read(s.shared.token);
    case FirstCheck(_) | ReCheck(_) | DoubleCheck(_) => e := Clock(s.shared.clock);
    case Contend =>
      var o := UnusedOwner(s.shared.owners);
      e := Tried(o, s.shared.lock.Free?, LOCK_TTL, s.shared.clock);
    case Backoff => e := Slept;
    case Presenting(_) => e := Asked(Rejected);
    case Storing(_) => e := Wrote;
    case Watching(_) => e := Watched(s.shared.version);
    case Fetching(_, _) => e := Got(if s.shared.lock.Held? then Some(s.shared.lock.owner) else None);
    case Executing(_, watched) => e := Execed(s.shared.version == watched);
  }
}
