/**
 The authorisation dance: states are issued, callbacks race to pop them, the winner exchanges its
 code and stores the token. Any number of callbacks, any interleaving; each `await` is one step.
 */
module OAuthSystem {
  import opened Wrappers
  import opened Tokens

  datatype Entry = Entry(connection: string, expiry: int)

  // What WATCH remembers of a key: its change count, and whether it was there. EXEC is refused
  // when either differs, so also when the key has expired meanwhile (Redis 7).
  datatype Stamp = Stamp(version: nat, visible: bool)

  datatype Result = Stored(connection: string) | Invalid | ProviderDown

  datatype Pc =
    | PopWatch
    | PopGet(stamp: Stamp)
    | PopExec(connection: string, stamp: Stamp)
    | Exchanging(connection: string)
    | Storing(connection: string, tok: TokenSet)
    | Finished(result: Result)

  datatype Callback = Callback(state: string, code: string, pc: Pc)

  // Code exchanges, with what came back, and token writes, in the order they happened, with the
  // callback that made them.
  datatype Exchange = Exchange(state: string, code: string, author: nat, reply: Option<TokenSet>)
  datatype Write = Write(state: string, connection: string, tok: TokenSet, author: nat)

  // The keys oauth:state:*, with the change counts WATCH compares, and for the record every state
  // ever issued and the connection id it was issued for.
  datatype Store = Store(
    clock: int,
    ttl: int,
    entries: map<string, Entry>,
    versions: map<string, nat>,
    issued: map<string, string>)

  datatype System = System(
    store: Store,
    tokens: map<string, TokenSet>,
    callbacks: seq<Callback>,
    exchanges: seq<Exchange>,
    writes: seq<Write>)

  datatype Step =
    | Issue(connection: string, state: string)
    | Arrive(state: string, code: string)
    | Tick(now: int)
    | Elsewhere(tokens: map<string, TokenSet>)     // refreshes, revocations, other flows
    | Run(c: nat, reply: Option<TokenSet>)         // `reply` is the provider's, where it is asked

  predicate Visible(st: Store, state: string) {
    state in st.entries && st.clock < st.entries[state].expiry
  }

  function Version(st: Store, state: string): nat {
    if state in st.versions then st.versions[state] else 0
  }

  function StampOf(st: Store, state: string): Stamp { Stamp(Version(st, state), Visible(st, state)) }

  function Saved(st: Store, state: string, connection: string): Store {
    st.(entries := st.entries[state := Entry(connection, st.clock + st.ttl)],
        versions := st.versions[state := Version(st, state) + 1],
        issued := st.issued[state := connection])
  }

  function Removed(st: Store, state: string): Store {
    st.(entries := st.entries - {state}, versions := st.versions[state := Version(st, state) + 1])
  }

  predicate ExecSucceeds(st: Store, cb: Callback) {
    cb.pc.PopExec? && cb.pc.stamp == StampOf(st, cb.state)
  }

  function NextPc(st: Store, cb: Callback, reply: Option<TokenSet>): Pc
    requires !cb.pc.Finished?
  {
    match cb.pc
    case PopWatch => PopGet(StampOf(st, cb.state))
    case PopGet(stamp) =>
      if Visible(st, cb.state) then PopExec(st.entries[cb.state].connection, stamp) else Finished(Invalid)
    case PopExec(connection, stamp) =>
      if ExecSucceeds(st, cb) then Exchanging(connection) else Finished(Invalid)
    case Exchanging(connection) =>
      if reply.Some? then Storing(connection, reply.value) else Finished(ProviderDown)
    case Storing(connection, _) => Finished(Stored(connection))
  }

  function NextStore(st: Store, cb: Callback): Store {
    if ExecSucceeds(st, cb) then Removed(st, cb.state) else st
  }

  predicate Enabled(s: System, step: Step) {
    match step
    // States are fresh and nobody can have guessed one before it was issued.
    case Issue(_, state) =>
      state !in s.store.issued && forall c :: 0 <= c < |s.callbacks| ==> s.callbacks[c].state != state
    case Arrive(_, _) => true
    case Tick(now) => now >= s.store.clock
    case Elsewhere(_) => true
    case Run(c, _) => c < |s.callbacks| && !s.callbacks[c].pc.Finished?
  }

  function Apply(s: System, step: Step): System
    requires Enabled(s, step)
  {
    match step
    case Issue(connection, state) => s.(store := Saved(s.store, state, connection))
    case Arrive(state, code) => s.(callbacks := s.callbacks + [Callback(state, code, PopWatch)])
    case Tick(now) => s.(store := s.store.(clock := now))
    case Elsewhere(tokens) => s.(tokens := tokens)
    case Run(c, reply) =>
      var cb := s.callbacks[c];
      System(
        NextStore(s.store, cb),
        if cb.pc.Storing? then s.tokens[cb.pc.connection := Normal(cb.pc.tok)] else s.tokens,
        s.callbacks[c := cb.(pc := NextPc(s.store, cb, reply))],
        if cb.pc.Exchanging? then s.exchanges + [Exchange(cb.state, cb.code, c, reply)] else s.exchanges,
        if cb.pc.Storing? then s.writes + [Write(cb.state, cb.pc.connection, cb.pc.tok, c)] else s.writes)
  }

  ghost predicate Init(s: System) {
    && s.store.entries == map[] && s.store.issued == map[]
    && s.callbacks == [] && s.exchanges == [] && s.writes == []
  }

  datatype History = History(states: seq<System>, steps: seq<Step>)

  ghost predicate IsHistory(h: History) {
    && |h.states| == |h.steps| + 1
    && Init(h.states[0])
    && forall k :: 0 <= k < |h.steps| ==> Moves(h.states[k], h.steps[k], h.states[k + 1])
  }

  ghost predicate Moves(s: System, step: Step, s': System) {
    Enabled(s, step) && s' == Apply(s, step)
  }

  // ---- invariant -----------------------------------------------------------------------------

  /** This callback's pop returned a value. */
  predicate Won(cb: Callback) {
    cb.pc.Exchanging? || cb.pc.Storing? || (cb.pc.Finished? && cb.pc.result != Invalid)
  }

  /** The connection id the callback believes its state stands for. */
  function Believes(cb: Callback): Option<string> {
    match cb.pc
    case PopExec(connection, _) => Some(connection)
    case Exchanging(connection) => Some(connection)
    case Storing(connection, _) => Some(connection)
    case Finished(Stored(connection)) => Some(connection)
    case _ => None
  }

  ghost predicate CallbackOk(st: Store, cb: Callback) {
    && (Believes(cb).Some? ==> cb.state in st.issued && Believes(cb).value == st.issued[cb.state])
    && (Won(cb) ==> cb.state in st.issued && cb.state !in st.entries)
    && (cb.pc.PopGet? && cb.state in st.entries ==>
          cb.pc.stamp.version == Version(st, cb.state) && (Visible(st, cb.state) ==> cb.pc.stamp.visible))
    && (cb.pc.PopExec? ==>
          if cb.state in st.entries then cb.pc.stamp == Stamp(Version(st, cb.state), true)
          else cb.pc.stamp.version < Version(st, cb.state))
  }

  ghost predicate WinnersDiffer(s: System) {
    forall c, d :: 0 <= c < d < |s.callbacks| && Won(s.callbacks[c]) && Won(s.callbacks[d]) ==>
      s.callbacks[c].state != s.callbacks[d].state
  }

  predicate WonBy(s: System, c: int, state: string) {
    0 <= c < |s.callbacks| && Won(s.callbacks[c]) && s.callbacks[c].state == state
  }

  ghost predicate EntriesOk(st: Store) {
    forall state :: state in st.entries ==>
      state in st.issued && st.entries[state].connection == st.issued[state]
  }

  ghost predicate GoneOk(s: System) {
    forall state :: state in s.store.issued && state !in s.store.entries ==> exists c :: WonBy(s, c, state)
  }

  ghost predicate ExchangesOk(s: System) {
    && (forall k :: 0 <= k < |s.exchanges| ==>
          WonBy(s, s.exchanges[k].author, s.exchanges[k].state) && !s.callbacks[s.exchanges[k].author].pc.Exchanging?)
    && (forall k, l :: 0 <= k < l < |s.exchanges| ==> s.exchanges[k].author != s.exchanges[l].author)
  }

  ghost predicate WritesOk(s: System) {
    && (forall k :: 0 <= k < |s.writes| ==>
          && WonBy(s, s.writes[k].author, s.writes[k].state)
          && s.callbacks[s.writes[k].author].pc == Finished(Stored(s.writes[k].connection)))
    && (forall k, l :: 0 <= k < l < |s.writes| ==> s.writes[k].author != s.writes[l].author)
  }

  /** Exchange k is this callback's, for its state and code, and brought it this token. */
  predicate Brought(s: System, k: int, c: int, tok: TokenSet) {
    && 0 <= k < |s.exchanges| && 0 <= c < |s.callbacks|
    && s.exchanges[k] == Exchange(s.callbacks[c].state, s.callbacks[c].code, c, Some(tok))
  }

  ghost predicate WasBrought(s: System, c: int, tok: TokenSet) { exists k :: Brought(s, k, c, tok) }

  /** Every token on its way to the store, or written there, came from an exchange of the same callback. */
  ghost predicate TokensOk(s: System) {
    && (forall c :: 0 <= c < |s.callbacks| && s.callbacks[c].pc.Storing? ==>
          WasBrought(s, c, s.callbacks[c].pc.tok))
    && (forall w :: 0 <= w < |s.writes| ==> WasBrought(s, s.writes[w].author, s.writes[w].tok))
  }

  ghost predicate Inv(s: System) {
    && (forall c :: 0 <= c < |s.callbacks| ==> CallbackOk(s.store, s.callbacks[c]))
    && WinnersDiffer(s)
    && EntriesOk(s.store)
    && GoneOk(s)
    && ExchangesOk(s)
    && WritesOk(s)
    && TokensOk(s)
  }

  lemma OwnMove(st: Store, cb: Callback, reply: Option<TokenSet>)
    requires EntriesOk(st) && CallbackOk(st, cb) && !cb.pc.Finished?
    ensures CallbackOk(NextStore(st, cb), cb.(pc := NextPc(st, cb, reply)))
    ensures EntriesOk(NextStore(st, cb))
  {}

  lemma OthersMove(st: Store, mover: Callback, cb: Callback)
    requires CallbackOk(st, cb)
    ensures CallbackOk(NextStore(st, mover), cb)
  {}

  lemma StoreMoves(s: System, step: Step, cb: Callback)
    requires Enabled(s, step) && !step.Run? && CallbackOk(s.store, cb)
    requires step.Issue? ==> step.state != cb.state
    ensures CallbackOk(Apply(s, step).store, cb)
  {}

  lemma CallbackStep(s: System, step: Step, c: nat)
    requires Inv(s) && Enabled(s, step) && c < |Apply(s, step).callbacks|
    ensures CallbackOk(Apply(s, step).store, Apply(s, step).callbacks[c])
  {
    match step
    case Run(d, reply) =>
      if c == d {
        OwnMove(s.store, s.callbacks[c], reply);
      } else {
        OthersMove(s.store, s.callbacks[d], s.callbacks[c]);
      }
    case _ =>
      if c < |s.callbacks| {
        StoreMoves(s, step, s.callbacks[c]);
      }
  }

  /** Only a successful EXEC makes a winner, and its state was still in the store. */
  lemma NewWinner(s: System, step: Step, c: int)
    requires Inv(s) && Enabled(s, step) && 0 <= c < |Apply(s, step).callbacks|
    requires Won(Apply(s, step).callbacks[c])
    ensures c < |s.callbacks| && Apply(s, step).callbacks[c].state == s.callbacks[c].state
    ensures !Won(s.callbacks[c]) ==>
      step.Run? && step.c == c && s.callbacks[c].state in s.store.entries && ExecSucceeds(s.store, s.callbacks[c])
  {}

  lemma WinnersStep(s: System, step: Step)
    requires Inv(s) && Enabled(s, step)
    ensures WinnersDiffer(Apply(s, step))
  {
    var s' := Apply(s, step);
    forall c, d | 0 <= c < d < |s'.callbacks| && Won(s'.callbacks[c]) && Won(s'.callbacks[d])
      ensures s'.callbacks[c].state != s'.callbacks[d].state
    {
      NewWinner(s, step, c);
      NewWinner(s, step, d);
      assert CallbackOk(s.store, s.callbacks[c]) && CallbackOk(s.store, s.callbacks[d]);
    }
  }

  /** Once won, always won. */
  lemma WonStays(s: System, step: Step, c: int, state: string)
    requires Enabled(s, step) && WonBy(s, c, state)
    ensures WonBy(Apply(s, step), c, state)
  {}

  lemma GoneStep(s: System, step: Step)
    requires Inv(s) && Enabled(s, step)
    ensures GoneOk(Apply(s, step))
  {
    var s' := Apply(s, step);
    forall state | state in s'.store.issued && state !in s'.store.entries
      ensures exists c :: WonBy(s', c, state)
    {
      if state in s.store.entries {
        assert WonBy(s', step.c, state);
      } else {
        var c :| WonBy(s, c, state);
        WonStays(s, step, c, state);
      }
    }
  }

  lemma ExchangesStep(s: System, step: Step)
    requires Inv(s) && Enabled(s, step)
    ensures ExchangesOk(Apply(s, step))
  {
    var s' := Apply(s, step);
    forall k | 0 <= k < |s'.exchanges|
      ensures WonBy(s', s'.exchanges[k].author, s'.exchanges[k].state)
      ensures !s'.callbacks[s'.exchanges[k].author].pc.Exchanging?
    {
      if k < |s.exchanges| {
        assert s'.exchanges[k] == s.exchanges[k];
        WonStays(s, step, s.exchanges[k].author, s.exchanges[k].state);
      }
    }
  }

  lemma WritesStep(s: System, step: Step)
    requires Inv(s) && Enabled(s, step)
    ensures WritesOk(Apply(s, step))
  {
    var s' := Apply(s, step);
    forall k | 0 <= k < |s'.writes|
      ensures WonBy(s', s'.writes[k].author, s'.writes[k].state)
      ensures s'.callbacks[s'.writes[k].author].pc == Finished(Stored(s'.writes[k].connection))
    {
      if k < |s.writes| {
        assert s'.writes[k] == s.writes[k];
        WonStays(s, step, s.writes[k].author, s.writes[k].state);
      }
    }
  }

  lemma TokensStep(s: System, step: Step)
    requires Inv(s) && Enabled(s, step)
    ensures TokensOk(Apply(s, step))
  {
    var s' := Apply(s, step);
    forall c, tok | WasBrought(s, c, tok) ensures WasBrought(s', c, tok) {
      var k :| Brought(s, k, c, tok);
      assert Brought(s', k, c, tok);
    }
    forall c | 0 <= c < |s'.callbacks| && s'.callbacks[c].pc.Storing?
      ensures WasBrought(s', c, s'.callbacks[c].pc.tok)
    {
      if !s.callbacks[c].pc.Storing? {
        assert Brought(s', |s.exchanges|, c, s'.callbacks[c].pc.tok);
      }
    }
    forall w | 0 <= w < |s'.writes|
      ensures WasBrought(s', s'.writes[w].author, s'.writes[w].tok)
    {
      if w < |s.writes| {
        assert s'.writes[w] == s.writes[w];
      } else {
        assert WasBrought(s, step.c, s.callbacks[step.c].pc.tok);
      }
    }
  }

  lemma InvStep(s: System, step: Step)
    requires Inv(s) && Enabled(s, step)
    ensures Inv(Apply(s, step))
  {
    WinnersStep(s, step);
    GoneStep(s, step);
    ExchangesStep(s, step);
    WritesStep(s, step);
    TokensStep(s, step);
    if step.Run? {
      OwnMove(s.store, s.callbacks[step.c], step.reply);
    }
    forall c | 0 <= c < |Apply(s, step).callbacks|
      ensures CallbackOk(Apply(s, step).store, Apply(s, step).callbacks[c])
    {
      CallbackStep(s, step, c);
    }
  }

  lemma {:induction false} InvHolds(h: History, n: nat)
    requires IsHistory(h) && n < |h.states|
    ensures Inv(h.states[n])
  {
    if n > 0 {
      InvHolds(h, n - 1);
      assert Moves(h.states[n - 1], h.steps[n - 1], h.states[n]);
      InvStep(h.states[n - 1], h.steps[n - 1]);
    }
  }

  // ---- interference ----------------------------------------------------------------------------

  predicate SameEntry(a: Store, b: Store, state: string) {
    if state in a.entries then state in b.entries && a.entries[state] == b.entries[state] else state !in b.entries
  }

  /** What others can do to the state keys meanwhile: every change of a key is counted. */
  ghost predicate Interferes(a: Store, b: Store) {
    && a.clock <= b.clock && a.ttl == b.ttl
    && forall state :: Version(a, state) <= Version(b, state)
         && (Version(a, state) == Version(b, state) ==> SameEntry(a, b, state))
  }

  lemma StepsOnlyInterfere(s: System, step: Step)
    requires Enabled(s, step)
    ensures Interferes(s.store, Apply(s, step).store)
  {}

  /** ... and so is any number of steps. */
  lemma {:induction false} HistoriesOnlyInterfere(h: History, k: nat, n: nat)
    requires IsHistory(h) && k <= n < |h.states|
    ensures Interferes(h.states[k].store, h.states[n].store)
  {
    if k < n {
      HistoriesOnlyInterfere(h, k, n - 1);
      assert Moves(h.states[n - 1], h.steps[n - 1], h.states[n]);
      StepsOnlyInterfere(h.states[n - 1], h.steps[n - 1]);
    }
  }

  // ---- what the flow promises ------------------------------------------------------------------

  /**
   Each issued state is either still in the store or was popped by exactly one callback, however
   many raced for it, and that callback got the connection id the state was issued for. (An entry
   past its time-to-live still counts as in the store here; it can no longer be popped.)
   */
  lemma SingleConsumption(h: History, n: nat, state: string)
    requires IsHistory(h) && n < |h.states| && state in h.states[n].store.issued
    ensures state in h.states[n].store.entries <==> !exists c :: WonBy(h.states[n], c, state)
    ensures forall c, d :: WonBy(h.states[n], c, state) && WonBy(h.states[n], d, state) ==> c == d
    ensures forall c :: WonBy(h.states[n], c, state) && Believes(h.states[n].callbacks[c]).Some? ==>
      Believes(h.states[n].callbacks[c]).value == h.states[n].store.issued[state]
  {
    InvHolds(h, n);
    var s := h.states[n];
    forall c | WonBy(s, c, state)
      ensures state !in s.store.entries
      ensures Believes(s.callbacks[c]).Some? ==> Believes(s.callbacks[c]).value == s.store.issued[state]
    {
      assert CallbackOk(s.store, s.callbacks[c]);
    }
  }

  /** A state that was never issued is worth nothing. */
  lemma UnissuedNeverWins(h: History, n: nat, c: nat)
    requires IsHistory(h) && n < |h.states| && c < |h.states[n].callbacks|
    requires h.states[n].callbacks[c].state !in h.states[n].store.issued
    ensures !Won(h.states[n].callbacks[c]) && !h.states[n].callbacks[c].pc.PopExec?
  {
    InvHolds(h, n);
    assert CallbackOk(h.states[n].store, h.states[n].callbacks[c]);
  }

  /**
   EXEC decides, and the first one to run wins: a callback about to run EXEC succeeds if and only if
   nobody has won its state yet and the state has not expired.
   */
  lemma FirstExecWins(h: History, n: nat, c: nat, reply: Option<TokenSet>)
    requires IsHistory(h) && n < |h.states| && c < |h.states[n].callbacks|
    requires h.states[n].callbacks[c].pc.PopExec?
    ensures var s, cb := h.states[n], h.states[n].callbacks[c];
      Won(Apply(s, Run(c, reply)).callbacks[c]) <==>
      (Visible(s.store, cb.state) && !exists d :: WonBy(s, d, cb.state))
  {
    InvHolds(h, n);
    var s, cb := h.states[n], h.states[n].callbacks[c];
    assert CallbackOk(s.store, cb);
    SingleConsumption(h, n, cb.state);
  }

  /** The state was issued for this connection id at step k. */
  ghost predicate IssuedAt(h: History, k: nat, state: string, connection: string) {
    k < |h.steps| && k < |h.states| && h.steps[k] == Issue(connection, state)
  }

  /** An entry is as it was saved when its state was issued. */
  lemma {:induction false} EntriesAreAsIssued(h: History, k: nat, n: nat, state: string, connection: string)
    requires IsHistory(h) && k < n < |h.states| && IssuedAt(h, k, state, connection)
    ensures state in h.states[n].store.issued && h.states[n].store.issued[state] == connection
    ensures state in h.states[n].store.entries ==>
      h.states[n].store.entries[state] == Entry(connection, h.states[k].store.clock + h.states[k].store.ttl)
  {
    assert Moves(h.states[n - 1], h.steps[n - 1], h.states[n]);
    if k < n - 1 {
      EntriesAreAsIssued(h, k, n - 1, state, connection);
      InvHolds(h, n - 1);
    }
  }

  /** Whoever got as far as EXEC presents a state that was issued. */
  lemma {:induction false} IssuedSometime(h: History, n: nat, state: string) returns (k: nat, connection: string)
    requires IsHistory(h) && n < |h.states| && state in h.states[n].store.issued
    ensures k < n && IssuedAt(h, k, state, connection)
  {
    assert n > 0;
    var step := h.steps[n - 1];
    assert Moves(h.states[n - 1], step, h.states[n]);
    if step.Issue? && step.state == state {
      k, connection := n - 1, step.connection;
    } else {
      k, connection := IssuedSometime(h, n - 1, state);
    }
  }

  /**
   A pop can only succeed in time: a callback about to run EXEC wins, and goes on with the connection
   id its state was issued for, if and only if nobody has won the state yet and less than the
   time-to-live has passed since it was issued.
   */
  lemma WinsInTime(h: History, n: nat, c: nat, reply: Option<TokenSet>) returns (k: nat, connection: string)
    requires IsHistory(h) && n < |h.states| && c < |h.states[n].callbacks|
    requires h.states[n].callbacks[c].pc.PopExec?
    ensures k < n && IssuedAt(h, k, h.states[n].callbacks[c].state, connection)
    ensures var s, state := h.states[n], h.states[n].callbacks[c].state;
      Apply(s, Run(c, reply)).callbacks[c].pc ==
        if s.store.clock < h.states[k].store.clock + h.states[k].store.ttl && !exists d :: WonBy(s, d, state)
        then Exchanging(connection) else Finished(Invalid)
  {
    InvHolds(h, n);
    var cb := h.states[n].callbacks[c];
    assert CallbackOk(h.states[n].store, cb);
    k, connection := IssuedSometime(h, n, cb.state);
    EntriesAreAsIssued(h, k, n, cb.state, connection);
    SingleConsumption(h, n, cb.state);
    FirstExecWins(h, n, c, reply);
  }

  ghost predicate ExchangedFor(s: System, state: string, tok: TokenSet) {
    exists l :: 0 <= l < |s.exchanges| && s.exchanges[l].state == state && s.exchanges[l].reply == Some(tok)
  }

  /**
   End to end: each issued state leads to at most one code exchange, and a token granted to a
   callback is written at most once, and only under the connection id its state was issued for; it
   is the token that very exchange brought.
   */
  lemma AuthorisationEndToEnd(h: History, n: nat)
    requires IsHistory(h) && n < |h.states|
    ensures var s := h.states[n];
      && (forall k, l :: 0 <= k < l < |s.exchanges| ==> s.exchanges[k].state != s.exchanges[l].state)
      && (forall k :: 0 <= k < |s.exchanges| ==> s.exchanges[k].state in s.store.issued)
      && (forall k, l :: 0 <= k < l < |s.writes| ==> s.writes[k].state != s.writes[l].state)
      && (forall k :: 0 <= k < |s.writes| ==>
            s.writes[k].state in s.store.issued && s.writes[k].connection == s.store.issued[s.writes[k].state])
      && (forall k :: 0 <= k < |s.writes| ==> ExchangedFor(s, s.writes[k].state, s.writes[k].tok))
  {
    InvHolds(h, n);
    var s := h.states[n];
    forall k | 0 <= k < |s.writes|
      ensures ExchangedFor(s, s.writes[k].state, s.writes[k].tok)
    {
      var l :| Brought(s, l, s.writes[k].author, s.writes[k].tok);
      assert WonBy(s, s.writes[k].author, s.writes[k].state);
      assert s.exchanges[l].state == s.writes[k].state && s.exchanges[l].reply == Some(s.writes[k].tok);
    }
    forall k | 0 <= k < |s.exchanges| ensures s.exchanges[k].state in s.store.issued {
      assert WonBy(s, s.exchanges[k].author, s.exchanges[k].state);
      assert CallbackOk(s.store, s.callbacks[s.exchanges[k].author]);
    }
    forall k | 0 <= k < |s.writes|
      ensures s.writes[k].state in s.store.issued && s.writes[k].connection == s.store.issued[s.writes[k].state]
    {
      assert WonBy(s, s.writes[k].author, s.writes[k].state);
      assert CallbackOk(s.store, s.callbacks[s.writes[k].author]);
    }
    forall k, l | 0 <= k < l < |s.exchanges| ensures s.exchanges[k].state != s.exchanges[l].state {
      SingleConsumption(h, n, s.exchanges[k].state);
    }
    forall k, l | 0 <= k < l < |s.writes| ensures s.writes[k].state != s.writes[l].state {
      SingleConsumption(h, n, s.writes[k].state);
    }
  }

  /**
   A step of a callback changes the token store at no connection id but the one its state was issued
   for, and there only to the token its own code exchange brought.
   */
  lemma CallbacksWriteOnlyWhereIssued(h: History, n: nat)
    requires IsHistory(h) && n < |h.steps| && h.steps[n].Run?
    requires h.states[n + 1].tokens != h.states[n].tokens
    ensures var s, c := h.states[n], h.steps[n].c;
      && c < |s.callbacks| && s.callbacks[c].pc.Storing? && s.callbacks[c].state in s.store.issued
      && h.states[n + 1].tokens == s.tokens[s.store.issued[s.callbacks[c].state] := Normal(s.callbacks[c].pc.tok)]
  {
    InvHolds(h, n);
    assert Moves(h.states[n], h.steps[n], h.states[n + 1]);
    assert CallbackOk(h.states[n].store, h.states[n].callbacks[h.steps[n].c]);
  }
}
