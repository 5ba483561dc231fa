/**
 The whole of `get_valid_token` and `get_token`, read from top to bottom: which observations, in which
 order, make up a finished call and what it then returns or raises. The machine of RefreshCall goes
 through exactly these courses.
 */
module CallCourses {
  import opened Wrappers
  import opened Tokens
  import opened RefreshCall

  /** `__aexit__`: look who is on the key, and delete it if that is us. */
  predicate Release(owner: Owner, es: seq<Event>) {
    && |es| >= 2 && es[0].Watched? && es[1].Got?
    && if es[1].holder == Some(owner) then |es| == 3 && es[2].Execed? else |es| == 2
  }

  /** The refresh: not without a refresh token; what the provider grants is stored and returned. */
  predicate Present(kind: Kind, owner: Owner, cur: TokenSet, es: seq<Event>, out: Outcome) {
    if cur.refreshToken.None? || (kind == Xero && cur.refreshToken == Some("")) then
      out == Expired && Release(owner, es)
    else
      && |es| > 0 && es[0].Asked?
      && match es[0].reply
         case Rejected => out == Expired && Release(owner, es[1..])
         case Unavailable => out == ProviderDown && Release(owner, es[1..])
         case Granted(raw, _) =>
           && |es| > 1 && es[1] == Wrote && Release(owner, es[2..])
           && out == Returned(TokenSet(raw.accessToken, raw.expiresAt, raw.tokenType, raw.refreshToken, raw.scope,
                                       if kind == Xero then cur.tenantId else None))
  }

  /** Microsoft loads the token to refresh. */
  predicate Current(kind: Kind, owner: Owner, es: seq<Event>, out: Outcome) {
    && |es| > 0 && es[0].Read?
    && if es[0].tok.None? then out == Missing && Release(owner, es[1..])
       else Present(kind, owner, es[0].tok.value, es[1..], out)
  }

  /** The body of the `async with`: look again, and refresh if the token is still stale. */
  predicate UnderLock(buffer: int, kind: Kind, owner: Owner, es: seq<Event>, out: Outcome) {
    if kind == MS(true) then Current(kind, owner, es, out)
    else
      && |es| > 0 && es[0].Read?
      && if es[0].tok.None? then
           if kind == Xero then out == Crashed && Release(owner, es[1..]) else Current(kind, owner, es[1..], out)
         else
           && |es| > 1 && es[1].Clock?
           && if es[0].tok.value.expiresAt > es[1].now + buffer then
                out == Returned(es[0].tok.value) && Release(owner, es[2..])
              else if kind == Xero then Present(kind, owner, es[0].tok.value, es[2..], out)
              else Current(kind, owner, es[2..], out)
  }

  /** The retry loop with so many attempts left. */
  predicate Attempts(buffer: int, kind: Kind, left: nat, es: seq<Event>, out: Outcome)
    decreases left
  {
    if left == 0 then es == [] && out == LockTimeout
    else
      && |es| > 0 && es[0].Tried? && es[0].ttl == 30_000
      && if es[0].granted then UnderLock(buffer, kind, es[0].owner, es[1..], out)
         else
           && |es| > 1 && es[1] == Slept
           && if kind == MS(true) then Attempts(buffer, kind, left - 1, es[2..], out)
              else
                && |es| > 2 && es[2].Read?
                && if es[2].tok.None? then Attempts(buffer, kind, left - 1, es[3..], out)
                   else
                     && |es| > 3 && es[3].Clock?
                     && if es[2].tok.value.expiresAt > es[3].now + buffer
                        then |es| == 4 && out == Returned(es[2].tok.value)
                        else Attempts(buffer, kind, left - 1, es[4..], out)
  }

  predicate Course(buffer: int, kind: Kind, es: seq<Event>, out: Outcome) {
    if kind == MS(true) then Attempts(buffer, kind, 5, es, out)
    else
      && |es| > 0 && es[0].Read?
      && if es[0].tok.None? then |es| == 1 && out == Missing
         else
           && |es| > 1 && es[1].Clock?
           && if es[0].tok.value.expiresAt > es[1].now + buffer
              then |es| == 2 && out == Returned(es[0].tok.value)
              else Attempts(buffer, kind, 5, es[2..], out)
  }

  // ---- the machine, run forwards ---------------------------------------------------------------

  predicate Leads(buffer: int, w: Worker, es: seq<Event>, out: Outcome)
    decreases |es|
  {
    if |es| == 0 then w.pc == Done(out)
    else Accepts(w, es[0]) && Leads(buffer, Advance(buffer, w, es[0]), es[1..], out)
  }

  /** Replaying from the start and running on is running from the start. */
  lemma {:induction false} ReplayThenLead(buffer: int, kind: Kind, es: seq<Event>, rest: seq<Event>, out: Outcome)
    ensures Leads(buffer, Begin(kind), es + rest, out)
       <==> Legal(buffer, kind, es) && Leads(buffer, Replay(buffer, kind, es), rest, out)
  {
    if |es| == 0 {
      assert es + rest == rest;
    } else {
      var before, e := es[..|es| - 1], es[|es| - 1];
      assert es + rest == before + ([e] + rest);
      assert ([e] + rest)[1..] == rest;
      ReplayThenLead(buffer, kind, before, [e] + rest, out);
    }
  }

  lemma CompletesLeads(buffer: int, kind: Kind, es: seq<Event>, out: Outcome)
    ensures Completes(buffer, kind, es, out) <==> Leads(buffer, Begin(kind), es, out)
  {
    assert es + [] == es;
    ReplayThenLead(buffer, kind, es, [], out);
  }

  lemma DoneLeads(buffer: int, w: Worker, es: seq<Event>, out: Outcome)
    requires w.pc.Done?
    ensures Leads(buffer, w, es, out) <==> es == [] && w.pc.result == out
  {}

  /** One observation. */
  lemma OneStep(buffer: int, w: Worker, es: seq<Event>, out: Outcome)
    requires !w.pc.Done?
    ensures Leads(buffer, w, es, out)
       <==> |es| > 0 && Accepts(w, es[0]) && Leads(buffer, Advance(buffer, w, es[0]), es[1..], out)
  {}

  // ---- stage by stage --------------------------------------------------------------------------

  lemma ReleaseLeads(buffer: int, w: Worker, es: seq<Event>, out: Outcome)
    requires w.pc.Watching? && w.owner.Some?
    ensures Leads(buffer, w, es, out) <==> out == w.pc.pending && Release(w.owner.value, es)
  {
    if |es| >= 2 && es[0].Watched? && es[1].Got? {
      var w1 := Advance(buffer, w, es[0]);
      var w2 := Advance(buffer, w1, es[1]);
      OneStep(buffer, w1, es[1..], out);
      assert es[1..][1..] == es[2..];
      if w2.pc.Executing? && |es| > 2 && es[2].Execed? {
        assert es[2..][1..] == es[3..];
        DoneLeads(buffer, Advance(buffer, w2, es[2]), es[3..], out);
      } else if w2.pc.Done? {
        DoneLeads(buffer, w2, es[2..], out);
      }
    }
  }

  lemma PresentLeads(buffer: int, w: Worker, cur: TokenSet, es: seq<Event>, out: Outcome)
    requires w.owner.Some?
    ensures Leads(buffer, Arm(w, cur), es, out) <==> Present(w.kind, w.owner.value, cur, es, out)
  {
    var armed := Arm(w, cur);
    if armed.pc.Watching? {
      ReleaseLeads(buffer, armed, es, out);
    } else if |es| > 0 && es[0].Asked? {
      var w1 := Advance(buffer, armed, es[0]);
      if w1.pc.Watching? {
        ReleaseLeads(buffer, w1, es[1..], out);
      } else if |es| > 1 && es[1] == Wrote {
        assert es[1..][1..] == es[2..];
        ReleaseLeads(buffer, Advance(buffer, w1, es[1]), es[2..], out);
      }
    }
  }

  lemma CurrentLeads(buffer: int, w: Worker, es: seq<Event>, out: Outcome)
    requires w.pc.LoadCurrent? && w.owner.Some?
    ensures Leads(buffer, w, es, out) <==> Current(w.kind, w.owner.value, es, out)
  {
    if |es| > 0 && es[0].Read? {
      if es[0].tok.None? {
        ReleaseLeads(buffer, Advance(buffer, w, es[0]), es[1..], out);
      } else {
        PresentLeads(buffer, w, es[0].tok.value, es[1..], out);
      }
    }
  }

  lemma CheckLeads(buffer: int, w: Worker, es: seq<Event>, out: Outcome)
    requires w.pc.DoubleCheck? && w.owner.Some?
    ensures Leads(buffer, w, es, out) <==>
      && |es| > 0 && es[0].Clock?
      && if w.pc.seen.expiresAt > es[0].now + buffer then out == Returned(w.pc.seen) && Release(w.owner.value, es[1..])
         else if w.kind == Xero then Present(w.kind, w.owner.value, w.pc.seen, es[1..], out)
         else Current(w.kind, w.owner.value, es[1..], out)
  {
    if |es| > 0 && es[0].Clock? {
      var w1 := Advance(buffer, w, es[0]);
      if w.pc.seen.expiresAt > es[0].now + buffer {
        ReleaseLeads(buffer, w1, es[1..], out);
      } else if w.kind == Xero {
        PresentLeads(buffer, w, w.pc.seen, es[1..], out);
      } else {
        CurrentLeads(buffer, w1, es[1..], out);
      }
    }
  }

  lemma UnderLockLeads(buffer: int, w: Worker, es: seq<Event>, out: Outcome)
    requires w.owner.Some? && w.pc == if w.kind == MS(true) then LoadCurrent else DoubleLoad
    ensures Leads(buffer, w, es, out) <==> UnderLock(buffer, w.kind, w.owner.value, es, out)
  {
    if w.kind == MS(true) {
      CurrentLeads(buffer, w, es, out);
    } else if |es| > 0 && es[0].Read? {
      var w1 := Advance(buffer, w, es[0]);
      if es[0].tok.Some? {
        CheckLeads(buffer, w1, es[1..], out);
        if |es| > 1 {
          assert es[1..][1..] == es[2..];
        }
      } else if w.kind == Xero {
        ReleaseLeads(buffer, w1, es[1..], out);
      } else {
        CurrentLeads(buffer, w1, es[1..], out);
      }
    }
  }

  /** A worker at the top of the loop with so many attempts left. */
  function AtTop(kind: Kind, left: nat): Worker
    requires left <= 5
  {
    Worker(kind, 5 - left, None, 0, if left == 0 then Done(LockTimeout) else Contend)
  }

  lemma {:induction false} AttemptsLead(buffer: int, kind: Kind, left: nat, es: seq<Event>, out: Outcome)
    requires left <= 5
    ensures Leads(buffer, AtTop(kind, left), es, out) <==> Attempts(buffer, kind, left, es, out)
    decreases left, 2
  {
    var w := AtTop(kind, left);
    if left == 0 {
      DoneLeads(buffer, w, es, out);
    } else if |es| > 0 && es[0].Tried? && es[0].ttl == 30_000 {
      var w1 := Advance(buffer, w, es[0]);
      if es[0].granted {
        UnderLockLeads(buffer, w1, es[1..], out);
      } else {
        RefusedLeads(buffer, kind, left, w1, es, out);
      }
    }
  }

  lemma {:induction false} RefusedLeads(buffer: int, kind: Kind, left: nat, w1: Worker, es: seq<Event>, out: Outcome)
    requires 0 < left <= 5 && |es| > 0 && es[0].Tried? && es[0].ttl == 30_000 && !es[0].granted
    requires w1 == AtTop(kind, left).(attempts := 6 - left, pc := Backoff)
    ensures Leads(buffer, w1, es[1..], out) <==> Attempts(buffer, kind, left, es, out)
    decreases left, 1
  {
    OneStep(buffer, w1, es[1..], out);
    if |es| > 1 && es[1] == Slept {
      assert es[1..][1..] == es[2..];
      var w2 := Advance(buffer, w1, es[1]);
      if kind == MS(true) {
        assert w2 == AtTop(kind, left - 1);
        AttemptsLead(buffer, kind, left - 1, es[2..], out);
      } else {
        OneStep(buffer, w2, es[2..], out);
        if |es| > 2 && es[2].Read? {
          assert es[2..][1..] == es[3..];
          var w3 := Advance(buffer, w2, es[2]);
          if es[2].tok.None? {
            assert w3 == AtTop(kind, left - 1);
            AttemptsLead(buffer, kind, left - 1, es[3..], out);
          } else {
            OneStep(buffer, w3, es[3..], out);
            if |es| > 3 && es[3].Clock? {
              assert es[3..][1..] == es[4..];
              AfterReCheck(buffer, kind, left, w3, es[3].now, es[4..], out);
            }
          }
        }
      }
    }
  }

  lemma {:induction false} AfterReCheck(buffer: int, kind: Kind, left: nat, w3: Worker, now: int, es: seq<Event>, out: Outcome)
    requires 0 < left <= 5 && w3.pc.ReCheck? && w3 == AtTop(kind, left).(attempts := 6 - left, pc := w3.pc)
    ensures Leads(buffer, Advance(buffer, w3, Clock(now)), es, out) <==>
      if w3.pc.seen.expiresAt > now + buffer then es == [] && out == Returned(w3.pc.seen)
      else Attempts(buffer, kind, left - 1, es, out)
    decreases left, 0
  {
    var w4 := Advance(buffer, w3, Clock(now));
    if w3.pc.seen.expiresAt > now + buffer {
      DoneLeads(buffer, w4, es, out);
    } else {
      assert w4 == AtTop(kind, left - 1);
      AttemptsLead(buffer, kind, left - 1, es, out);
    }
  }

  /**
   The machine completes a call with these observations and this outcome if and only if they make up
   a course of the source's two functions.
   */
  lemma CallsFollowTheSource(buffer: int, kind: Kind, es: seq<Event>, out: Outcome)
    ensures Completes(buffer, kind, es, out) <==> Course(buffer, kind, es, out)
  {
    CompletesLeads(buffer, kind, es, out);
    var w := Begin(kind);
    if kind == MS(true) {
      AttemptsLead(buffer, kind, 5, es, out);
    } else if |es| > 0 && es[0].Read? {
      var w1 := Advance(buffer, w, es[0]);
      if es[0].tok.None? {
        DoneLeads(buffer, w1, es[1..], out);
      } else {
        OneStep(buffer, w1, es[1..], out);
        if |es| > 1 && es[1].Clock? {
          assert es[1..][1..] == es[2..];
          if es[0].tok.value.expiresAt > es[1].now + buffer {
            DoneLeads(buffer, Advance(buffer, w1, es[1]), es[2..], out);
          } else {
            AttemptsLead(buffer, kind, 5, es[2..], out);
          }
        }
      }
    }
  }
}
