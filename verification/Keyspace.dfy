/**
 Five stores over one Redis: their key builders never meet, so the one physical map behaves like
 independent maps.
 */
module Keyspace {
  import opened Wrappers
  import Codecs

  datatype Operation = CreateInvoice | SubmitInvoice | VoidInvoice | SendMessage | SendApprovalCard

  // What a store means by a key, before it is spelled out.
  datatype Key =
    | Token(connection: string)
    | RefreshLock(connection: string)
    | Memo(op: Operation, raw: string)
    | OAuthState(state: string)
    | Approval(id: string)

  function OperationName(op: Operation): string {
    match op
    case CreateInvoice => "create_xero_invoice"
    case SubmitInvoice => "submit_xero_invoice"
    case VoidInvoice => "void_xero_invoice"
    case SendMessage => "send_teams_message"
    case SendApprovalCard => "send_teams_approval_card"
  }

  function MemoPrefix(op: Operation): string { "idempotency:" + OperationName(op) + ":" }

  function Spell(key: Key): string {
    match key
    case Token(connection) => "token:" + connection
    case RefreshLock(connection) => "lock:refresh:" + connection
    case Memo(op, raw) => MemoPrefix(op) + raw
    case OAuthState(state) => "oauth:state:" + state
    case Approval(id) => "approval:" + id
  }

  /** The spellings that other programs and earlier versions rely on. */
  lemma SpelledAs(id: string)
    ensures Spell(Token(id)) == "token:" + id
    ensures Spell(RefreshLock(id)) == "lock:refresh:" + id
    ensures Spell(OAuthState(id)) == "oauth:state:" + id
    ensures Spell(Approval(id)) == "approval:" + id
    ensures Spell(Memo(CreateInvoice, id)) == "idempotency:" + "create_xero_invoice" + ":" + id
    ensures Spell(Memo(SubmitInvoice, id)) == "idempotency:" + "submit_xero_invoice" + ":" + id
    ensures Spell(Memo(VoidInvoice, id)) == "idempotency:" + "void_xero_invoice" + ":" + id
    ensures Spell(Memo(SendMessage, id)) == "idempotency:" + "send_teams_message" + ":" + id
    ensures Spell(Memo(SendApprovalCard, id)) == "idempotency:" + "send_teams_approval_card" + ":" + id
  {}

  /** The operation names part ways within their first twelve letters, before any key text starts. */
  lemma OperationsDiffer(p: Operation, q: Operation)
    requires p != q
    ensures |OperationName(p)| > 11 && |OperationName(q)| > 11
    ensures var a, b := OperationName(p), OperationName(q); a[0] != b[0] || a[1] != b[1] || a[11] != b[11]
  {}

  lemma SamePrefix(prefix: string, a: string, b: string)
    requires prefix + a == prefix + b
    ensures a == b
  {
    assert a == (prefix + a)[|prefix|..];
    assert b == (prefix + b)[|prefix|..];
  }

  lemma MemosDiffer(p: Operation, a: string, q: Operation, b: string)
    requires p != q
    ensures Spell(Memo(p, a)) != Spell(Memo(q, b))
  {
    OperationsDiffer(p, q);
    var s, t := Spell(Memo(p, a)), Spell(Memo(q, b));
    forall i | i == 0 || i == 1 || i == 11
      ensures s[12 + i] == OperationName(p)[i] && t[12 + i] == OperationName(q)[i]
    {}
  }

  /** Two keys are spelled the same only if they are the same key of the same store, colons or not. */
  lemma SpellingIsInjective(k: Key, l: Key)
    requires Spell(k) == Spell(l)
    ensures k == l
  {
    assert Spell(k)[0] == Spell(l)[0];
    match (k, l)
    case (Token(a), Token(b)) => SamePrefix("token:", a, b);
    case (RefreshLock(a), RefreshLock(b)) => SamePrefix("lock:refresh:", a, b);
    case (OAuthState(a), OAuthState(b)) => SamePrefix("oauth:state:", a, b);
    case (Approval(a), Approval(b)) => SamePrefix("approval:", a, b);
    case (Memo(p, a), Memo(q, b)) =>
      if p != q {
        MemosDiffer(p, a, q, b);
      }
      SamePrefix(MemoPrefix(p), a, b);
    case _ =>
  }

  // ---- one map, or five ------------------------------------------------------------------------

  datatype Value = Hash(fields: Codecs.Hash) | Text(text: string)

  // Redis as it is, and the stores as their authors think of them.
  type Redis = map<string, Value>
  datatype Stores = Stores(
    tokens: map<string, Value>,
    locks: map<string, Value>,
    memos: map<(Operation, string), Value>,
    states: map<string, Value>,
    approvals: map<string, Value>)

  datatype Command =
    | HSet(key: Key, fields: Codecs.Hash)
    | HGetAll(key: Key)
    | Get(key: Key)
    | Set(key: Key, text: string)
    | SetNx(key: Key, text: string)
    | Delete(key: Key)                              // DEL, or the time-to-live running out

  datatype Reply = Fields(fields: Codecs.Hash) | Found(text: Option<string>) | Ok | Refused | WrongType

  /** Tokens and approvals are kept as hashes, the rest as strings; that is all the stores ever ask. */
  predicate Fitting(c: Command) {
    match c
    case HSet(k, _) => k.Token? || k.Approval?
    case HGetAll(k) => k.Token? || k.Approval?
    case Get(k) => !k.Token? && !k.Approval?
    case Set(k, _) => !k.Token? && !k.Approval?
    case SetNx(k, _) => !k.Token? && !k.Approval?
    case Delete(_) => true
  }

  function Lookup(s: Stores, key: Key): Option<Value> {
    match key
    case Token(c) => if c in s.tokens then Some(s.tokens[c]) else None
    case RefreshLock(c) => if c in s.locks then Some(s.locks[c]) else None
    case Memo(op, raw) => if (op, raw) in s.memos then Some(s.memos[(op, raw)]) else None
    case OAuthState(st) => if st in s.states then Some(s.states[st]) else None
    case Approval(id) => if id in s.approvals then Some(s.approvals[id]) else None
  }

  function Put(s: Stores, key: Key, value: Value): Stores {
    match key
    case Token(c) => s.(tokens := s.tokens[c := value])
    case RefreshLock(c) => s.(locks := s.locks[c := value])
    case Memo(op, raw) => s.(memos := s.memos[(op, raw) := value])
    case OAuthState(st) => s.(states := s.states[st := value])
    case Approval(id) => s.(approvals := s.approvals[id := value])
  }

  function Drop(s: Stores, key: Key): Stores {
    match key
    case Token(c) => s.(tokens := s.tokens - {c})
    case RefreshLock(c) => s.(locks := s.locks - {c})
    case Memo(op, raw) => s.(memos := s.memos - {(op, raw)})
    case OAuthState(st) => s.(states := s.states - {st})
    case Approval(id) => s.(approvals := s.approvals - {id})
  }

  /** The answer a command gets, given what is stored under its key. */
  function Answer(c: Command, stored: Option<Value>): Reply {
    match c
    case HSet(_, _) => if stored.Some? && stored.value.Text? then WrongType else Ok
    case HGetAll(_) =>
      if stored.None? then Fields(map[]) else if stored.value.Hash? then Fields(stored.value.fields) else WrongType
    case Get(_) =>
      if stored.None? then Found(None) else if stored.value.Text? then Found(Some(stored.value.text)) else WrongType
    case Set(_, _) => Ok
    case SetNx(_, _) => if stored.Some? then Refused else Ok
    case Delete(_) => Ok
  }

  /** What is stored under the key afterwards. */
  function Left(c: Command, stored: Option<Value>): Option<Value> {
    match c
    case HSet(_, fields) =>
      if stored.None? then Some(Hash(fields))
      else if stored.value.Hash? then Some(Hash(stored.value.fields + fields))
      else stored
    case HGetAll(_) => stored
    case Get(_) => stored
    case Set(_, text) => Some(Text(text))
    case SetNx(_, text) => if stored.Some? then stored else Some(Text(text))
    case Delete(_) => None
  }

  function Fetch(r: Redis, key: string): Option<Value> {
    if key in r then Some(r[key]) else None
  }

  function OnRedis(r: Redis, c: Command): Redis {
    match Left(c, Fetch(r, Spell(c.key)))
    case Some(value) => r[Spell(c.key) := value]
    case None => r - {Spell(c.key)}
  }

  function OnStores(s: Stores, c: Command): Stores {
    match Left(c, Lookup(s, c.key))
    case Some(value) => Put(s, c.key, value)
    case None => Drop(s, c.key)
  }

  /** What each command does to Redis and answers, when its key holds the kind of value it is for. */
  lemma CommandEffects(r: Redis, key: Key, fields: Codecs.Hash, text: string)
    ensures var cell := Spell(key);
      && OnRedis(r, SetNx(key, text)) == (if cell in r then r else r[cell := Text(text)])
      && Answer(SetNx(key, text), Fetch(r, cell)) == (if cell in r then Refused else Ok)
      && OnRedis(r, Set(key, text)) == r[cell := Text(text)]
      && OnRedis(r, Delete(key)) == r - {cell}
      && OnRedis(r, Get(key)) == OnRedis(r, HGetAll(key)) == r
      && (cell !in r ==>
            && OnRedis(r, HSet(key, fields)) == r[cell := Hash(fields)]
            && Answer(Get(key), Fetch(r, cell)) == Found(None)
            && Answer(HGetAll(key), Fetch(r, cell)) == Fields(map[]))
      && (cell in r && r[cell].Text? ==> Answer(Get(key), Fetch(r, cell)) == Found(Some(r[cell].text)))
      && (cell in r && r[cell].Hash? ==>
            && OnRedis(r, HSet(key, fields)) == r[cell := Hash(r[cell].fields + fields)]
            && Answer(HGetAll(key), Fetch(r, cell)) == Fields(r[cell].fields))
  {}

  function RedisReplies(r: Redis, commands: seq<Command>): seq<Reply>
    decreases |commands|
  {
    if |commands| == 0 then []
    else [Answer(commands[0], Fetch(r, Spell(commands[0].key)))] + RedisReplies(OnRedis(r, commands[0]), commands[1..])
  }

  function StoreReplies(s: Stores, commands: seq<Command>): seq<Reply>
    decreases |commands|
  {
    if |commands| == 0 then []
    else [Answer(commands[0], Lookup(s, commands[0].key))] + StoreReplies(OnStores(s, commands[0]), commands[1..])
  }

  ghost predicate Represents(r: Redis, s: Stores) {
    forall key :: Fetch(r, Spell(key)) == Lookup(s, key)
  }

  /** Every key the stores could spell holds what its store keeps there. */
  ghost predicate Sound(r: Redis) {
    forall key :: Fetch(r, Spell(key)).Some? ==>
      (Fetch(r, Spell(key)).value.Hash? <==> key.Token? || key.Approval?)
  }

  lemma StoresAreIndependent(s: Stores, key: Key, value: Value, other: Key)
    ensures Lookup(Put(s, key, value), other) == if other == key then Some(value) else Lookup(s, other)
    ensures Lookup(Drop(s, key), other) == if other == key then None else Lookup(s, other)
  {}

  lemma CommandRefines(r: Redis, s: Stores, c: Command)
    requires Represents(r, s) && Sound(r) && Fitting(c)
    ensures Represents(OnRedis(r, c), OnStores(s, c)) && Sound(OnRedis(r, c))
    ensures Answer(c, Fetch(r, Spell(c.key))) == Answer(c, Lookup(s, c.key)) != WrongType
  {
    var left := Left(c, Lookup(s, c.key));
    var filler := if left.Some? then left.value else Text("");
    forall other
      ensures Fetch(OnRedis(r, c), Spell(other)) == Lookup(OnStores(s, c), other)
      ensures Lookup(OnStores(s, c), other) == if other == c.key then left else Lookup(s, other)
    {
      StoresAreIndependent(s, c.key, filler, other);
      if Spell(other) == Spell(c.key) {
        SpellingIsInjective(other, c.key);
      }
    }
  }

  /**
   Over any sequence of commands of the five stores, the shared Redis gives exactly the replies five
   independent maps would give, and no command ever hits a key of the wrong type.
   */
  lemma {:induction false} SharedRedisRefinesStores(r: Redis, s: Stores, commands: seq<Command>)
    requires Represents(r, s) && Sound(r)
    requires forall c :: c in commands ==> Fitting(c)
    ensures RedisReplies(r, commands) == StoreReplies(s, commands)
    ensures WrongType !in RedisReplies(r, commands)
    decreases |commands|
  {
    if |commands| > 0 {
      CommandRefines(r, s, commands[0]);
      SharedRedisRefinesStores(OnRedis(r, commands[0]), OnStores(s, commands[0]), commands[1..]);
    }
  }
}
