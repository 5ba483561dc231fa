/** The Redis-backed stores as the thin objects they are, each on its own keys of one shared Redis. */
module RedisStores {
  import opened Wrappers
  import opened Tokens
  import opened Codecs
  import opened Keyspace

  /** The hash under a key; a missing key reads as an empty hash. */
  function HashUnder(r: Redis, key: Key): Codecs.Hash {
    var value := Fetch(r, Spell(key));
    if value.Some? && value.value.Hash? then value.value.fields else map[]
  }

  function TokenIn(tc: TimeCodec, r: Redis, connection: string): Loaded<TokenSet> {
    LoadToken(tc, HashUnder(r, Token(connection)))
  }

  function ApprovalIn(tc: TimeCodec, r: Redis, id: string): Loaded<ApprovalRequest> {
    LoadApproval(tc, HashUnder(r, Approval(id)))
  }

  ghost predicate SameBut(a: Redis, b: Redis, key: Key) {
    forall other :: other != key ==> Fetch(b, Spell(other)) == Fetch(a, Spell(other))
  }

  lemma OneKeyAtATime(r: Redis, c: Command)
    requires Sound(r) && Fitting(c)
    ensures Sound(OnRedis(r, c)) && SameBut(r, OnRedis(r, c), c.key)
    ensures Fetch(OnRedis(r, c), Spell(c.key)) == Left(c, Fetch(r, Spell(c.key)))
    ensures Answer(c, Fetch(r, Spell(c.key))) != WrongType
  {
    forall other | other != c.key
      ensures Fetch(OnRedis(r, c), Spell(other)) == Fetch(r, Spell(other))
    {
      if Spell(other) == Spell(c.key) {
        SpellingIsInjective(other, c.key);
      }
    }
    forall key | Fetch(OnRedis(r, c), Spell(key)).Some?
      ensures Fetch(OnRedis(r, c), Spell(key)).value.Hash? <==> key.Token? || key.Approval?
    {
      assert key != c.key ==> Fetch(OnRedis(r, c), Spell(key)) == Fetch(r, Spell(key));
    }
  }

  function AfterAll(r: Redis, commands: seq<Command>): Redis {
    if |commands| == 0 then r else OnRedis(AfterAll(r, commands[..|commands| - 1]), commands[|commands| - 1])
  }

  /**
   A stored token is read back, in its normal form, after anything else the five stores may have done
   to any other key, keys of the same spelling but for the prefix included.
   */
  lemma {:induction false} TokenReadBack(tc: TimeCodec, r: Redis, connection: string, tok: TokenSet, commands: seq<Command>)
    requires tc.Valid() && Sound(r)
    requires forall c :: c in commands ==> Fitting(c) && c.key != Token(connection)
    ensures var stored := OnRedis(r, HSet(Token(connection), TokenFields(tc, tok)));
      && Sound(AfterAll(stored, commands))
      && TokenIn(tc, AfterAll(stored, commands), connection) == Loaded.Found(Normal(tok))
  {
    var stored := OnRedis(r, HSet(Token(connection), TokenFields(tc, tok)));
    if |commands| == 0 {
      OneKeyAtATime(r, HSet(Token(connection), TokenFields(tc, tok)));
      TokenSurvivesStore(tc, HashUnder(r, Token(connection)), tok);
      TokenSurvivesStore(tc, map[], tok);
      assert Saved(map[], TokenFields(tc, tok)) == TokenFields(tc, tok);
    } else {
      var before, c := commands[..|commands| - 1], commands[|commands| - 1];
      TokenReadBack(tc, r, connection, tok, before);
      OneKeyAtATime(AfterAll(stored, before), c);
    }
  }

  /** One connection to Redis. */
  class Client {
    var data: Redis

    constructor ()
      ensures data == map[] && Sound(data)
    {
      data := map[];
    }

    method HSetAll(key: Key, fields: Codecs.Hash)
      requires Sound(data) && (key.Token? || key.Approval?)
      modifies this
      ensures Sound(data) && SameBut(old(data), data, key)
      ensures HashUnder(data, key) == Saved(HashUnder(old(data), key), fields)
    {
      OneKeyAtATime(data, HSet(key, fields));
      var before := HashUnder(data, key);
      assert before == map[] ==> Saved(before, fields) == fields;
      data := data[Spell(key) := Hash(Saved(before, fields))];
    }

    method HashOf(key: Key) returns (fields: Codecs.Hash)
      ensures fields == HashUnder(data, key)
    {
      fields := map[];
      if Spell(key) in data && data[Spell(key)].Hash? {
        fields := data[Spell(key)].fields;
      }
    }

    method SetText(key: Key, text: string)
      requires Sound(data) && !key.Token? && !key.Approval?
      modifies this
      ensures Sound(data) && SameBut(old(data), data, key)
      ensures Fetch(data, Spell(key)) == Some(Text(text))
    {
      OneKeyAtATime(data, Set(key, text));
      data := data[Spell(key) := Text(text)];
    }

    method TextOf(key: Key) returns (text: Option<string>)
      requires Sound(data) && !key.Token? && !key.Approval?
      ensures Fetch(data, Spell(key)) == if text.Some? then Some(Text(text.value)) else None
    {
      assert Spell(key) in data ==> Fetch(data, Spell(key)).Some?;
      text := if Spell(key) in data then Some(data[Spell(key)].text) else None;
    }

    method Del(key: Key)
      requires Sound(data)
      modifies this
      ensures Sound(data) && SameBut(old(data), data, key)
      ensures Fetch(data, Spell(key)) == None
    {
      OneKeyAtATime(data, Delete(key));
      data := data - {Spell(key)};
    }
  }

  /** redis_token_store.py */
  class RedisTokenStore {
    const redis: Client
    const tc: TimeCodec

    constructor (redis: Client, tc: TimeCodec)
      ensures this.redis == redis && this.tc == tc
    {
      this.redis, this.tc := redis, tc;
    }

    /** Afterwards the connection has this token, whatever it had before, and nothing else has changed. */
    method Store(connection: string, tok: TokenSet)
      requires tc.Valid() && Sound(redis.data)
      modifies redis
      ensures Sound(redis.data) && SameBut(old(redis.data), redis.data, Token(connection))
      ensures TokenIn(tc, redis.data, connection) == Loaded.Found(Normal(tok))
    {
      TokenSurvivesStore(tc, HashUnder(redis.data, Token(connection)), tok);
      redis.HSetAll(Token(connection), TokenFields(tc, tok));
    }

    method Load(connection: string) returns (loaded: Loaded<TokenSet>)
      ensures loaded == TokenIn(tc, redis.data, connection)
      ensures loaded.Found? ==> Normal(loaded.value) == loaded.value
    {
      var data := redis.HashOf(Token(connection));
      if data == map[] {
        return Absent;
      }
      loaded := LoadToken(tc, data);
      if loaded.Found? {
        LoadedTokenIsNormal(tc, data, loaded.value);
      }
    }

    method Remove(connection: string)
      requires Sound(redis.data)
      modifies redis
      ensures Sound(redis.data) && SameBut(old(redis.data), redis.data, Token(connection))
      ensures TokenIn(tc, redis.data, connection) == Absent
    {
      redis.Del(Token(connection));
    }
  }

  /** redis_approval_store.py */
  class RedisApprovalStore {
    const redis: Client
    const tc: TimeCodec

    constructor (redis: Client, tc: TimeCodec)
      ensures this.redis == redis && this.tc == tc
    {
      this.redis, this.tc := redis, tc;
    }

    method Save(approval: ApprovalRequest)
      requires tc.Valid() && Sound(redis.data)
      modifies redis
      ensures Sound(redis.data) && SameBut(old(redis.data), redis.data, Approval(approval.identity.approvalId))
      ensures ApprovalIn(tc, redis.data, approval.identity.approvalId) == Loaded.Found(NormalApproval(approval))
    {
      var key := Approval(approval.identity.approvalId);
      ApprovalSurvivesStore(tc, HashUnder(redis.data, key), approval);
      redis.HSetAll(key, ApprovalFields(tc, approval));
    }

    method Load(id: string) returns (loaded: Loaded<ApprovalRequest>)
      ensures loaded == ApprovalIn(tc, redis.data, id)
      ensures loaded.Found? ==> NormalApproval(loaded.value) == loaded.value
    {
      var data := redis.HashOf(Approval(id));
      if data == map[] {
        return Absent;
      }
      loaded := LoadApproval(tc, data);
      if loaded.Found? {
        LoadedIsNormal(tc, data, loaded.value);
      }
    }
  }

  /** redis_idempotency_store.py; results are the texts they were dumped to. */
  class RedisIdempotencyStore {
    const redis: Client

    constructor (redis: Client)
      ensures this.redis == redis
    {
      this.redis := redis;
    }

    method GetResult(op: Operation, raw: string) returns (text: Option<string>)
      requires Sound(redis.data)
      ensures Fetch(redis.data, Spell(Memo(op, raw))) == if text.Some? then Some(Text(text.value)) else None
    {
      text := redis.TextOf(Memo(op, raw));
    }

    method SetResult(op: Operation, raw: string, text: string)
      requires Sound(redis.data)
      modifies redis
      ensures Sound(redis.data) && SameBut(old(redis.data), redis.data, Memo(op, raw))
      ensures Fetch(redis.data, Spell(Memo(op, raw))) == Some(Text(text))
    {
      redis.SetText(Memo(op, raw), text);
    }
  }
}
