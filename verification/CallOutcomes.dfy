/** What one token call can end with, and why: theorems about every sequence of answers it may get. */
module CallOutcomes {
  import opened Wrappers
  import opened Tokens
  import opened RefreshCall
  import CallCourses

  function Before(events: seq<Event>): seq<Event>
    requires |events| > 0
  {
    events[..|events| - 1]
  }

  function Last(events: seq<Event>): Event
    requires |events| > 0
  {
    events[|events| - 1]
  }

  /** A stored token was read at j - 1 and found outside the refresh buffer at j. */
  ghost predicate FoundFresh(buffer: int, events: seq<Event>, j: nat, tok: TokenSet) {
    && 0 < j < |events|
    && events[j - 1] == Read(Some(tok))
    && events[j].Clock?
    && tok.expiresAt > events[j].now + buffer
  }

  /** No read of the whole call found a token worth returning. */
  ghost predicate NothingFresh(buffer: int, events: seq<Event>) {
    forall j: nat, tok :: !FoundFresh(buffer, events, j, tok)
  }

  function LastRead(events: seq<Event>): Option<TokenSet> {
    if |events| == 0 then None
    else if Last(events).Read? then Last(events).tok
    else LastRead(Before(events))
  }

  predicate Unreleased(events: seq<Event>) {
    forall k :: 0 <= k < |events| ==> !events[k].Watched?
  }

  /** At j the provider granted `tok` for the token read last, and it was written before any release began. */
  ghost predicate MintedAt(kind: Kind, events: seq<Event>, j: nat, tok: TokenSet) {
    && j + 1 < |events|
    && events[j].Asked? && events[j].reply.Granted?
    && LastRead(events[..j]).Some?
    && tok == Refreshed(kind, LastRead(events[..j]).value, events[j].reply.raw)
    && AsSent(kind, LastRead(events[..j]).value, events[j].reply.raw, tok)
    && events[j + 1] == Wrote
    && Unreleased(events[..j + 2])
  }

  /** A minted token is what the provider sent, but for the Xero tenant id, which the old token lends it. */
  predicate AsSent(kind: Kind, cur: TokenSet, raw: Raw, tok: TokenSet) {
    && tok.accessToken == raw.accessToken && tok.expiresAt == raw.expiresAt && tok.tokenType == raw.tokenType
    && tok.refreshToken == raw.refreshToken && tok.scope == raw.scope
    && tok.tenantId == if kind == Xero then cur.tenantId else None
  }

  /** The provider's answer to the token read last has just come in, and makes up `tok`. */
  ghost predicate AnsweredBy(kind: Kind, events: seq<Event>, tok: TokenSet) {
    && |events| > 0
    && Last(events).Asked? && Last(events).reply.Granted?
    && LastRead(Before(events)).Some?
    && tok == Refreshed(kind, LastRead(Before(events)).value, Last(events).reply.raw)
  }

  ghost predicate Explained(buffer: int, kind: Kind, events: seq<Event>, tok: TokenSet) {
    || (!Forced(kind) && exists j: nat :: FoundFresh(buffer, events, j, tok))
    || exists j: nat :: MintedAt(kind, events, j, tok)
  }

  lemma ExplainedGrows(buffer: int, kind: Kind, events: seq<Event>, tok: TokenSet)
    requires |events| > 0 && Explained(buffer, kind, Before(events), tok)
    ensures Explained(buffer, kind, events, tok)
  {
    var before := Before(events);
    if j: nat :| !Forced(kind) && FoundFresh(buffer, before, j, tok) {
      assert FoundFresh(buffer, events, j, tok);
    } else {
      var j: nat :| MintedAt(kind, before, j, tok);
      assert before[..j] == events[..j] && before[..j + 2] == events[..j + 2];
      assert MintedAt(kind, events, j, tok);
    }
  }

  /** A check of the clock always concerns the token that has just been read. */
  lemma ChecksFollowReads(buffer: int, kind: Kind, events: seq<Event>)
    requires Legal(buffer, kind, events)
    ensures var pc := Replay(buffer, kind, events).pc;
            pc.FirstCheck? || pc.ReCheck? || pc.DoubleCheck? ==>
              |events| > 0 && Last(events) == Read(Some(pc.seen))
  {}

  lemma {:induction false} ResultExplained(buffer: int, kind: Kind, events: seq<Event>)
    requires Legal(buffer, kind, events)
    ensures var pc := Replay(buffer, kind, events).pc;
      && (pc.Presenting? ==> LastRead(events) == Some(pc.cur))
      && (pc.Storing? ==> AnsweredBy(kind, events, pc.minted))
      && (pc.Watching? || pc.Fetching? || pc.Executing? ==>
            pc.pending.Returned? ==> Explained(buffer, kind, events, pc.pending.tok))
      && (pc.Done? && pc.result.Returned? ==> Explained(buffer, kind, events, pc.result.tok))
      && (!pc.Watching? && !pc.Fetching? && !pc.Executing? && !pc.Done? ==> Unreleased(events))
    ensures Replay(buffer, kind, events).kind == kind
  {
    if |events| > 0 {
      var before := Before(events);
      ResultExplained(buffer, kind, before);
      ChecksFollowReads(buffer, kind, before);
      var w := Replay(buffer, kind, before);
      var w' := Replay(buffer, kind, events);
      var n := |events|;
      if w.pc.FirstCheck? || w.pc.ReCheck? || w.pc.DoubleCheck? {
        if Forced(kind) {
          ForcedNeverChecks(buffer, kind, before);
        }
        assert events[n - 2] == Last(before);
        if w.pc.seen.expiresAt > Last(events).now + buffer {
          assert FoundFresh(buffer, events, n - 1, w.pc.seen);
        }
      } else if w.pc.Storing? {
        assert events[..n - 2] == Before(before) && events[..n] == events;
        assert MintedAt(kind, events, n - 2, w.pc.minted);
      } else if (w.pc.Watching? || w.pc.Fetching? || w.pc.Executing?) && w.pc.pending.Returned? {
        ExplainedGrows(buffer, kind, events, w.pc.pending.tok);
      }
    }
  }

  lemma {:induction false} ForcedNeverChecks(buffer: int, kind: Kind, events: seq<Event>)
    requires Legal(buffer, kind, events) && Forced(kind)
    ensures var w := Replay(buffer, kind, events);
      w.kind == kind && !w.pc.FirstLoad? && !w.pc.FirstCheck? && !w.pc.ReLoad? && !w.pc.ReCheck?
      && !w.pc.DoubleLoad? && !w.pc.DoubleCheck?
  {
    if |events| > 0 {
      ForcedNeverChecks(buffer, kind, Before(events));
    }
  }

  /**
   Every token a call returns was either read from the store and outside the buffer when checked,
   or minted by the provider for this very call and written before the lock was let go. A forced
   call returns only the second kind.
   */
  lemma ProvenanceOfResult(buffer: int, kind: Kind, events: seq<Event>, tok: TokenSet)
    requires Completes(buffer, kind, events, Returned(tok))
    ensures Explained(buffer, kind, events, tok)
    ensures Forced(kind) ==> exists j: nat :: MintedAt(kind, events, j, tok)
  {
    ResultExplained(buffer, kind, events);
  }

  /**
   A Xero call shows the provider only a token it read and found stale after its own lock was
   granted: the three latest events are the grant, the read and the check.
   */
  lemma PresentsOnlySeenStale(buffer: int, events: seq<Event>)
    requires Legal(buffer, Xero, events) && Replay(buffer, Xero, events).pc.Presenting?
    ensures var n := |events|; var cur := Replay(buffer, Xero, events).pc.cur;
      && n >= 3
      && Acquires(events[n - 3])
      && events[n - 2] == Read(Some(cur))
      && events[n - 1].Clock? && cur.expiresAt <= events[n - 1].now + buffer
      && cur.refreshToken.Some? && cur.refreshToken != Some("")
  {
    LoadsFollowGrants(buffer, Xero, Before(events));
    ChecksFollowLoads(buffer, Xero, Before(events));
  }

  /** The load that opens the critical section comes straight after the grant. */
  lemma LoadsFollowGrants(buffer: int, kind: Kind, events: seq<Event>)
    requires Legal(buffer, kind, events)
    ensures Replay(buffer, kind, events).kind == kind
    ensures var pc := Replay(buffer, kind, events).pc;
      pc.DoubleLoad? || (Forced(kind) && pc.LoadCurrent?) ==> |events| > 0 && Acquires(Last(events))
  {
    ResultExplained(buffer, kind, events);
    if |events| > 0 {
      ResultExplained(buffer, kind, Before(events));
      if Forced(kind) {
        ForcedNeverChecks(buffer, kind, Before(events));
      }
    }
  }

  /** ... and the check of the token so loaded straight after the load. */
  lemma ChecksFollowLoads(buffer: int, kind: Kind, events: seq<Event>)
    requires Legal(buffer, kind, events) && Replay(buffer, kind, events).pc.DoubleCheck?
    ensures |events| > 1 && Acquires(events[|events| - 2])
    ensures Last(events) == Read(Some(Replay(buffer, kind, events).pc.seen))
  {}

  /** Microsoft's second load follows a first one that found nothing, or a token then seen stale. */
  lemma SecondLoadsFollowFirst(buffer: int, kind: Kind, events: seq<Event>)
    requires Legal(buffer, kind, events) && Replay(buffer, kind, events).pc.LoadCurrent? && !Forced(kind)
    ensures var n := |events|;
      && n >= 2
      && if events[n - 1].Read? then Acquires(events[n - 2]) && events[n - 1] == Read(None)
         else
           && n >= 3 && Acquires(events[n - 3]) && events[n - 2].Read? && events[n - 2].tok.Some?
           && events[n - 1].Clock? && events[n - 2].tok.value.expiresAt <= events[n - 1].now + buffer
  {
    var before := Before(events);
    LoadsFollowGrants(buffer, kind, before);
    if Replay(buffer, kind, before).pc.DoubleCheck? {
      ChecksFollowLoads(buffer, kind, before);
    }
  }

  /**
   A Microsoft call shows the provider what its second load under the lock found. When forced, that
   load follows the grant at once; otherwise a first load came between, and found nothing or a
   token that was then seen stale.
   */
  lemma MSPresentsSecondLoad(buffer: int, force: bool, events: seq<Event>)
    requires Legal(buffer, MS(force), events) && Replay(buffer, MS(force), events).pc.Presenting?
    ensures var n := |events|; var cur := Replay(buffer, MS(force), events).pc.cur;
      && n >= 2 && events[n - 1] == Read(Some(cur)) && cur.refreshToken.Some?
      && if force then Acquires(events[n - 2])
         else if events[n - 2].Read? then n >= 3 && Acquires(events[n - 3]) && events[n - 2] == Read(None)
         else
           && n >= 4 && Acquires(events[n - 4]) && events[n - 3].Read? && events[n - 3].tok.Some?
           && events[n - 2].Clock? && events[n - 3].tok.value.expiresAt <= events[n - 2].now + buffer
  {
    var before := Before(events);
    LoadsFollowGrants(buffer, MS(force), before);
    if !force {
      SecondLoadsFollowFirst(buffer, MS(force), before);
    }
  }

  // ---- the errors ----------------------------------------------------------------------------

  /** What the call will return, once that is settled. */
  function Pending(pc: Pc): Option<Outcome> {
    match pc
    case Watching(pending) => Some(pending)
    case Fetching(pending, _) => Some(pending)
    case Executing(pending, _) => Some(pending)
    case Done(result) => Some(result)
    case _ => None
  }

  predicate ProviderSaid(events: seq<Event>, reply: Reply) {
    exists j :: 0 <= j < |events| && events[j] == Asked(reply)
  }

  /** The first thing read under the lock was that there is no token. */
  predicate GoneUnderLock(events: seq<Event>) {
    exists j :: 0 <= j < |events| - 1 && Acquires(events[j]) && events[j + 1] == Read(None)
  }

  /** The lock was granted, the token stayed stale, and it carries nothing to refresh it with. */
  ghost predicate NothingToPresent(buffer: int, kind: Kind, events: seq<Event>) {
    && Grants(events) == 1 && Calls(events) == 0 && NothingFresh(buffer, events)
    && LastRead(events).Some?
    && (LastRead(events).value.refreshToken.None? || (kind == Xero && LastRead(events).value.refreshToken == Some("")))
  }

  /** The end of a call that was granted the lock or not, as far as its last read and its tallies tell. */
  ghost predicate Accounted(w: Worker, last: Option<TokenSet>, refused: nat, granted: nat, asked: nat) {
    && (w.pc.DoubleCheck? ==> last == Some(w.pc.seen))
    && (w.pc.FirstCheck? || w.pc.ReCheck? ==> last == Some(w.pc.seen))
    && (w.pc.LoadCurrent? ==> w.kind.MS?)
    && (w.pc.Presenting? ==> last == Some(w.pc.cur))
    && (w.pc.Storing? ==> last.Some? && asked == 1)
    && match Pending(w.pc)
       case Some(Crashed) => w.kind == Xero && granted == 1 && last == None && asked == 0
       case Some(Missing) =>
         last == None && asked == 0 && if granted == 1 then w.kind.MS? else refused == 0
       case Some(Expired) =>
         last.Some? && granted == 1 && (asked == 0 ==> !Refreshable(w.kind, last.value))
       case Some(ProviderDown) => last.Some? && asked == 1
       case Some(Returned(_)) => last.Some?
       case _ => true
  }

  lemma AccountedStep(buffer: int, w: Worker, e: Event, last: Option<TokenSet>,
                      refused: nat, granted: nat, slept: nat, asked: nat)
    requires Tallied(w, refused, granted, slept, asked) && Accounted(w, last, refused, granted, asked)
    requires Accepts(w, e)
    ensures Accounted(Advance(buffer, w, e), if e.Read? then e.tok else last,
      refused + (if Refuses(e) then 1 else 0), granted + (if Acquires(e) then 1 else 0),
      asked + (if e.Asked? then 1 else 0))
  {}

  lemma {:induction false} CallsAreAccounted(buffer: int, kind: Kind, events: seq<Event>)
    requires Legal(buffer, kind, events)
    ensures Replay(buffer, kind, events).kind == kind
    ensures Accounted(Replay(buffer, kind, events), LastRead(events), Refusals(events), Grants(events), Calls(events))
  {
    if |events| > 0 {
      var before := Before(events);
      CallsAreAccounted(buffer, kind, before);
      CallIsBounded(buffer, kind, before);
      AccountedStep(buffer, Replay(buffer, kind, before), Last(events), LastRead(before),
        Refusals(before), Grants(before), Sleeps(before), Calls(before));
    }
  }

  /** Finding a fresh token settles the call. */
  lemma {:induction false} FreshSettles(buffer: int, kind: Kind, events: seq<Event>)
    requires Legal(buffer, kind, events)
    ensures forall j: nat, tok :: FoundFresh(buffer, events, j, tok) ==>
      Pending(Replay(buffer, kind, events).pc) == Some(Returned(tok))
    ensures var settled := Pending(Replay(buffer, kind, events).pc);
      settled.Some? && settled.value.Returned? && Calls(events) == 0 ==> !NothingFresh(buffer, events)
    ensures Replay(buffer, kind, events).pc.Storing? ==> Calls(events) > 0
  {
    if |events| > 0 {
      var before := Before(events);
      FreshSettles(buffer, kind, before);
      ChecksFollowReads(buffer, kind, before);
      var w := Replay(buffer, kind, before);
      forall j: nat, tok | FoundFresh(buffer, events, j, tok)
        ensures Pending(Replay(buffer, kind, events).pc) == Some(Returned(tok))
      {
        if j < |events| - 1 {
          assert FoundFresh(buffer, before, j, tok);
        } else {
          assert events[j - 1] == Last(before);
        }
      }
      if j: nat, tok :| FoundFresh(buffer, before, j, tok) {
        assert FoundFresh(buffer, events, j, tok);
      }
      if (w.pc.FirstCheck? || w.pc.ReCheck? || w.pc.DoubleCheck?) && w.pc.seen.expiresAt > Last(events).now + buffer {
        assert events[|events| - 2] == Last(before);
        assert FoundFresh(buffer, events, |events| - 1, w.pc.seen);
      }
    }
  }

  lemma {:induction false} RepliesSettle(buffer: int, kind: Kind, events: seq<Event>)
    requires Legal(buffer, kind, events)
    ensures var settled := Pending(Replay(buffer, kind, events).pc);
      && (ProviderSaid(events, Unavailable) <==> settled == Some(ProviderDown))
      && (ProviderSaid(events, Rejected) ==> settled == Some(Expired))
      && (settled == Some(Expired) && Calls(events) > 0 ==> ProviderSaid(events, Rejected))
    ensures Calls(events) == 0 ==> forall reply :: !ProviderSaid(events, reply)
  {
    if |events| > 0 {
      var before := Before(events);
      RepliesSettle(buffer, kind, before);
      CallIsBounded(buffer, kind, before);
      forall reply
        ensures ProviderSaid(events, reply) <==> ProviderSaid(before, reply) || Last(events) == Asked(reply)
      {
        if j :| 0 <= j < |before| && before[j] == Asked(reply) {
          assert events[j] == Asked(reply);
        }
      }
    }
  }

  /** The check for a vanished token comes straight after the grant. */
  lemma GrantsLeadToLoads(buffer: int, events: seq<Event>)
    requires Legal(buffer, Xero, events)
    ensures Replay(buffer, Xero, events).pc.DoubleLoad? <==> |events| > 0 && Acquires(Last(events))
  {
    CallsAreAccounted(buffer, Xero, events);
    if |events| > 0 {
      CallsAreAccounted(buffer, Xero, Before(events));
    }
  }

  lemma {:induction false} CrashSettles(buffer: int, events: seq<Event>)
    requires Legal(buffer, Xero, events)
    ensures GoneUnderLock(events) <==> Pending(Replay(buffer, Xero, events).pc) == Some(Crashed)
  {
    if |events| > 0 {
      var before := Before(events);
      CrashSettles(buffer, before);
      GrantsLeadToLoads(buffer, before);
      CallsAreAccounted(buffer, Xero, before);
      var n := |events|;
      assert GoneUnderLock(before) ==> GoneUnderLock(events) by {
        if j :| 0 <= j < |before| - 1 && Acquires(before[j]) && before[j + 1] == Read(None) {
          assert Acquires(events[j]) && events[j + 1] == Read(None);
        }
      }
      assert GoneUnderLock(events) && !GoneUnderLock(before) ==> n > 1 && Acquires(events[n - 2]) && events[n - 1] == Read(None) by {
        if j :| 0 <= j < |events| - 1 && Acquires(events[j]) && events[j + 1] == Read(None) {
          assert j < n - 2 ==> Acquires(before[j]) && before[j + 1] == Read(None);
        }
      }
      if Replay(buffer, Xero, before).pc.DoubleLoad? && Last(events) == Read(None) {
        assert Acquires(events[n - 2]) && events[n - 1] == Read(None);
      }
    }
  }

  /**
   Each error exactly: ConnectionMissingError when the last read found nothing, before the lock was
   asked for or (Microsoft) under it; ConnectionExpiredError when the provider rejected the refresh
   or there was nothing to present; ProviderUnavailableError when the provider was unavailable; and
   a crash, which the documentation does not mention, when a Xero call found the token gone right
   after it was granted the lock.
   */
  lemma ErrorsExactly(buffer: int, kind: Kind, events: seq<Event>, out: Outcome)
    requires Completes(buffer, kind, events, out)
    ensures out == Missing <==> LastRead(events) == None && if Grants(events) == 1 then kind.MS? else Refusals(events) == 0
    ensures out == Expired <==> ProviderSaid(events, Rejected) || NothingToPresent(buffer, kind, events)
    ensures out == ProviderDown <==> ProviderSaid(events, Unavailable)
    ensures out == Crashed <==> kind == Xero && GoneUnderLock(events)
  {
    CallIsBounded(buffer, kind, events);
    CallsAreAccounted(buffer, kind, events);
    FreshSettles(buffer, kind, events);
    RepliesSettle(buffer, kind, events);
    if kind == Xero {
      CrashSettles(buffer, events);
    }
  }

  function Reads(events: seq<Event>): nat {
    if |events| == 0 then 0 else Reads(Before(events)) + if Last(events).Read? then 1 else 0
  }

  /** The token read at j was then checked, and was stale. */
  predicate ReadStale(buffer: int, events: seq<Event>, j: nat)
    requires j < |events| && events[j].Read? && events[j].tok.Some?
  {
    j + 1 < |events| && events[j + 1].Clock? && events[j].tok.value.expiresAt <= events[j + 1].now + buffer
  }

  ghost predicate EveryReadStale(buffer: int, events: seq<Event>) {
    forall j: nat :: j < |events| && events[j].Read? && events[j].tok.Some? ==> ReadStale(buffer, events, j)
  }

  lemma StaleGrows(buffer: int, events: seq<Event>)
    requires |events| > 0 && EveryReadStale(buffer, Before(events))
    requires !(Last(events).Read? && Last(events).tok.Some?)
    ensures EveryReadStale(buffer, events)
  {
    forall j: nat | j < |events| && events[j].Read? && events[j].tok.Some? ensures ReadStale(buffer, events, j) {
      assert ReadStale(buffer, Before(events), j);
    }
  }

  lemma StaleChecked(buffer: int, events: seq<Event>, tok: TokenSet)
    requires |events| > 1 && EveryReadStale(buffer, Before(Before(events)))
    requires Last(Before(events)) == Read(Some(tok))
    requires Last(events).Clock? && tok.expiresAt <= Last(events).now + buffer
    ensures EveryReadStale(buffer, events)
  {
    forall j: nat | j < |events| && events[j].Read? && events[j].tok.Some? ensures ReadStale(buffer, events, j) {
      if j < |events| - 2 {
        assert ReadStale(buffer, Before(Before(events)), j);
      }
    }
  }

  /** While it waits for the lock a call gives up no fresh token. */
  lemma {:induction false} WaitingReadsAreStale(buffer: int, kind: Kind, events: seq<Event>)
    requires Legal(buffer, kind, events) && Grants(events) == 0
    ensures var pc := Replay(buffer, kind, events).pc;
      && (pc.FirstCheck? || pc.ReCheck? ==> EveryReadStale(buffer, Before(events)))
      && ((!pc.FirstCheck? && !pc.ReCheck? && Pending(pc).None?) || pc == Done(LockTimeout) ==> EveryReadStale(buffer, events))
  {
    if |events| > 0 {
      var before := Before(events);
      WaitingReadsAreStale(buffer, kind, before);
      CallIsBounded(buffer, kind, before);
      CallsAreAccounted(buffer, kind, before);
      ChecksFollowReads(buffer, kind, before);
      var w := Replay(buffer, kind, before);
      if w.pc.FirstCheck? || w.pc.ReCheck? {
        if w.pc.seen.expiresAt <= Last(events).now + buffer {
          StaleChecked(buffer, events, w.pc.seen);
        }
      } else if !(Last(events).Read? && Last(events).tok.Some?) {
        StaleGrows(buffer, events);
      }
    }
  }

  /** ... and it reads once at the start and once after every sleep, or never when forced. */
  lemma {:induction false} WaitingReadsCounted(buffer: int, kind: Kind, events: seq<Event>)
    requires Legal(buffer, kind, events) && Grants(events) == 0
    ensures var pc := Replay(buffer, kind, events).pc;
      if Forced(kind) then Reads(events) == 0
      else
        && (pc.ReLoad? ==> Reads(events) == Sleeps(events))
        && (pc.FirstCheck? || pc.Contend? || pc.Backoff? || pc.ReCheck? || pc == Done(LockTimeout) ==>
              Reads(events) == 1 + Sleeps(events))
  {
    if |events| > 0 {
      var before := Before(events);
      WaitingReadsCounted(buffer, kind, before);
      CallIsBounded(buffer, kind, before);
      CallsAreAccounted(buffer, kind, before);
      if Forced(kind) {
        ForcedNeverChecks(buffer, kind, before);
      }
    }
  }

  /**
   LockTimeoutError is raised exactly when all five attempts were refused and every token the call
   read was stale when checked; an unforced call has then read six times, a forced one never.
   */
  lemma LockTimeoutExactly(buffer: int, kind: Kind, events: seq<Event>, out: Outcome)
    requires Completes(buffer, kind, events, out)
    ensures out == LockTimeout <==> Refusals(events) == 5 && EveryReadStale(buffer, events)
    ensures out == LockTimeout ==> Reads(events) == if kind == MS(true) then 0 else 6
    ensures kind == MS(true) ==> (out == LockTimeout <==> Refusals(events) == 5)
  {
    CallIsBounded(buffer, kind, events);
    CallsAreAccounted(buffer, kind, events);
    FreshSettles(buffer, kind, events);
    if Grants(events) == 0 {
      WaitingReadsAreStale(buffer, kind, events);
      WaitingReadsCounted(buffer, kind, events);
    }
    forall j: nat, tok | FoundFresh(buffer, events, j, tok) ensures !EveryReadStale(buffer, events) {
      assert !ReadStale(buffer, events, j - 1);
    }
    if Forced(kind) {
      ForcedReadsNothing(buffer, kind, events);
    }
  }

  lemma {:induction false} ForcedReadsNothing(buffer: int, kind: Kind, events: seq<Event>)
    requires Legal(buffer, kind, events) && Forced(kind)
    ensures forall j :: 0 <= j < |events| ==> !events[j].Clock?
  {
    if |events| > 0 {
      ForcedReadsNothing(buffer, kind, Before(events));
      ForcedNeverChecks(buffer, kind, Before(events));
    }
  }

  /** For a Xero call everything depends on the first read: ConnectionMissingError means it found nothing. */
  lemma {:induction false} FirstReadDecidesMissing(buffer: int, events: seq<Event>)
    requires Legal(buffer, Xero, events) && |events| > 0
    ensures Pending(Replay(buffer, Xero, events).pc) == Some(Missing) <==> events[0] == Read(None)
    ensures events[0].Read? && Replay(buffer, Xero, events).kind == Xero && !Replay(buffer, Xero, events).pc.LoadCurrent?
  {
    if |events| > 1 {
      FirstReadDecidesMissing(buffer, Before(events));
      CallsAreAccounted(buffer, Xero, Before(events));
    }
  }

  // ---- all together --------------------------------------------------------------------------

  /** What either manager promises about a finished call, in terms of what the call was told. */
  ghost predicate Promise(buffer: int, kind: Kind, events: seq<Event>, out: Outcome) {
    && CallCourses.Course(buffer, kind, events, out)
    && Refusals(events) + Grants(events) <= 5
    && Sleeps(events) <= 5 && Calls(events) <= 1
    && (out == LockTimeout <==> Refusals(events) == 5 && EveryReadStale(buffer, events))
    && (out == Missing <==> LastRead(events) == None && if Grants(events) == 1 then kind.MS? else Refusals(events) == 0)
    && (out == Expired <==> ProviderSaid(events, Rejected) || NothingToPresent(buffer, kind, events))
    && (out == ProviderDown <==> ProviderSaid(events, Unavailable))
    && (out == Crashed <==> kind == Xero && GoneUnderLock(events))
    && (out.Returned? ==> Explained(buffer, kind, events, out.tok))
  }

  lemma PromiseKept(buffer: int, kind: Kind, events: seq<Event>, out: Outcome)
    requires Completes(buffer, kind, events, out)
    ensures Promise(buffer, kind, events, out)
  {
    CallCourses.CallsFollowTheSource(buffer, kind, events, out);
    CallIsBounded(buffer, kind, events);
    LockTimeoutExactly(buffer, kind, events, out);
    ErrorsExactly(buffer, kind, events, out);
    if out.Returned? {
      ProvenanceOfResult(buffer, kind, events, out.tok);
    }
  }
}
