/**
 The authorisation use cases and their state store as the objects they are. Between awaits the
 world moves on in any way OAuthSystem.HistoriesOnlyInterfere allows.
 */
module OAuthUseCases {
  import opened Wrappers
  import opened Tokens
  import opened OAuthSystem

  // A code sent to the token endpoint with its state, and what came back.
  datatype Exchanged = Exchanged(code: string, state: string, reply: Option<TokenSet>)

  /** Redis, plus a record of what this process itself did to it and asked of the provider. */
  class World {
    var store: Store
    var tokens: map<string, TokenSet>
    ghost var popped: seq<(string, string)>            // state keys deleted, with their value
    ghost var exchanged: seq<Exchanged>                // codes sent to the token endpoint
    ghost var loaded: seq<(string, Option<TokenSet>)>  // tokens read, with their connection id
    ghost var stored: seq<(string, TokenSet)>          // tokens written, with their connection id
    ghost var deleted: seq<string>                     // connection ids whose token was deleted
    ghost var revoked: seq<string>                     // access tokens sent to the revocation endpoint

    constructor (store: Store, tokens: map<string, TokenSet>)
      ensures popped == [] && exchanged == [] && loaded == [] && stored == [] && deleted == [] && revoked == []
    {
      this.store, this.tokens := store, tokens;
      popped, exchanged, loaded, stored, deleted, revoked := [], [], [], [], [], [];
    }

    method Await()
      modifies this`store, this`tokens
      ensures Interferes(old(store), store)
    {}

    /** HSET of every field: the whole token is replaced. */
    method StoreToken(connection: string, tok: TokenSet)
      modifies this`store, this`tokens, this`stored
      ensures Interferes(old(store), store)
      ensures connection in tokens && tokens[connection] == Normal(tok)
      ensures stored == old(stored) + [(connection, tok)]
    {
      Await();
      tokens, stored := tokens[connection := Normal(tok)], stored + [(connection, tok)];
    }

    method LoadToken(connection: string) returns (tok: Option<TokenSet>)
      modifies this`store, this`tokens, this`loaded
      ensures tok == if connection in tokens then Some(tokens[connection]) else None
      ensures loaded == old(loaded) + [(connection, tok)]
    {
      Await();
      tok := if connection in tokens then Some(tokens[connection]) else None;
      loaded := loaded + [(connection, tok)];
    }

    method DeleteToken(connection: string)
      modifies this`store, this`tokens, this`deleted
      ensures connection !in tokens && deleted == old(deleted) + [connection]
    {
      Await();
      tokens, deleted := tokens - {connection}, deleted + [connection];
    }

    /** The token endpoint: a token set, or ProviderUnavailableError. */
    method ExchangeCode(code: string, state: string) returns (tok: Option<TokenSet>)
      modifies this`store, this`tokens, this`exchanged
      ensures Interferes(old(store), store)
      ensures exchanged == old(exchanged) + [Exchanged(code, state, tok)]
    {
      Await();
      tok := *;
      exchanged := exchanged + [Exchanged(code, state, tok)];
    }

    method RevokeAtProvider(tok: TokenSet)
      modifies this`store, this`tokens, this`revoked
      ensures revoked == old(revoked) + [tok.accessToken]
    {
      Await();
      revoked := revoked + [tok.accessToken];
    }
  }

  /** The state could be popped at `a`, and up to `b` its key has neither changed nor expired. */
  predicate Undisturbed(a: Store, b: Store, state: string) {
    Visible(a, state) && Version(b, state) == Version(a, state) && b.clock < a.entries[state].expiry
  }

  /** Meanwhile others may have moved on from `a` to `before`, where the state was there, in time, for this connection id. */
  ghost predicate Found(a: Store, before: Store, state: string, connection: string) {
    && Interferes(a, before)
    && state in before.entries && before.clock < before.entries[state].expiry
    && before.entries[state].connection == connection
  }

  /** It was found so, and taken out; what others did to the keys since comes on top. */
  ghost predicate Consumed(a: Store, b: Store, state: string, connection: string) {
    exists before: Store :: Found(a, before, state, connection) && Interferes(Removed(before, state), b)
  }

  /** redis_oauth_state_store.py */
  class StateStore {
    const world: World

    constructor (world: World)
      ensures this.world == world
    {
      this.world := world;
    }

    method Save(state: string, connection: string)
      modifies world`store, world`tokens
      ensures exists before: Store :: Interferes(old(world.store), before) && world.store == Saved(before, state, connection)
      ensures state in world.store.entries
      ensures world.store.entries[state] == Entry(connection, world.store.clock + world.store.ttl)
    {
      world.Await();
      ghost var before := world.store;
      world.store := Saved(world.store, state, connection);
    }

    /**
     WATCH, GET, MULTI/DEL/EXEC. A value is returned exactly when this call deleted the key, and it
     is the connection id the key held then; otherwise this call has changed nothing. It gives nothing only
     if the state was not there to begin with, or its key was changed or expired while the call ran.
     */
    method Pop(state: string) returns (value: Option<string>)
      modifies world`store, world`tokens, world`popped
      ensures value.Some? ==> state !in world.store.entries && exists before: Store ::
        Found(old(world.store), before, state, value.value) && world.store == Removed(before, state)
      ensures value.None? ==> Interferes(old(world.store), world.store)
      ensures world.popped == old(world.popped) + if value.Some? then [(state, value.value)] else []
      ensures value.None? ==> !Undisturbed(old(world.store), world.store, state)
    {
      ghost var start := world.store;
      world.Await();
      var watched := StampOf(world.store, state);
      ghost var atWatch := world.store;
      world.Await();
      if !Visible(world.store, state) {
        return None;
      }
      value := Some(world.store.entries[state].connection);
      ghost var atGet := world.store;
      world.Await();
      if StampOf(world.store, state) != watched {
        return None;
      }
      assert Version(atWatch, state) == Version(atGet, state) == Version(world.store, state);
      assert SameEntry(atGet, world.store, state);
      assert Found(start, world.store, state, value.value);
      world.popped := world.popped + [(state, world.store.entries[state].connection)];
      world.store := Removed(world.store, state);
    }
  }

  /** oauth.py */
  class UseCases {
    const world: World
    const states: StateStore

    constructor (world: World, states: StateStore)
      requires states.world == world
      ensures this.world == world && this.states == states
    {
      this.world, this.states := world, states;
    }

    /** BuildXeroAuthorizationUrl; `state` is the random value just drawn. */
    method Authorize(connection: string, state: string)
      requires states.world == world
      modifies world`store, world`tokens
      ensures exists before: Store :: Interferes(old(world.store), before) && world.store == Saved(before, state, connection)
      ensures state in world.store.entries && world.store.entries[state].connection == connection
    {
      states.Save(state, connection);
    }

    /**
     HandleXeroOAuthCallback: no code is sent anywhere unless this callback consumed the state, and
     a token is stored only under the connection id the state's entry held when it was consumed.
     */
    method HandleCallback(code: string, state: string) returns (result: Result)
      requires states.world == world
      modifies world`store, world`tokens, world`popped, world`exchanged, world`stored
      ensures match result
        case Invalid =>
          && world.popped == old(world.popped)
          && world.exchanged == old(world.exchanged) && world.stored == old(world.stored)
          && Interferes(old(world.store), world.store)
          && !Undisturbed(old(world.store), world.store, state)
        case ProviderDown =>
          && (exists connection ::
                && Consumed(old(world.store), world.store, state, connection)
                && world.popped == old(world.popped) + [(state, connection)])
          && world.exchanged == old(world.exchanged) + [Exchanged(code, state, None)]
          && world.stored == old(world.stored)
        case Stored(connection) =>
          && Consumed(old(world.store), world.store, state, connection)
          && world.popped == old(world.popped) + [(state, connection)]
          && connection in world.tokens
          && (exists tok ::
                && world.exchanged == old(world.exchanged) + [Exchanged(code, state, Some(tok))]
                && world.stored == old(world.stored) + [(connection, tok)]
                && world.tokens[connection] == Normal(tok))
      ensures world.deleted == old(world.deleted) && world.revoked == old(world.revoked)
    {
      var connection := states.Pop(state);
      if connection == None {
        return Invalid;
      }
      var tokenSet := world.ExchangeCode(code, state);
      if tokenSet == None {
        return ProviderDown;
      }
      world.StoreToken(connection.value, tokenSet.value);
      result := Stored(connection.value);
    }

    /**
     RevokeConnection: the token is gone from the store afterwards, whatever the provider said; the
     provider hears of it exactly if a token was found and there is a client to revoke it (`atProvider`).
     */
    method Revoke(connection: string, atProvider: bool)
      modifies world`store, world`tokens, world`loaded, world`revoked, world`deleted
      ensures connection !in world.tokens && world.deleted == old(world.deleted) + [connection]
      ensures world.stored == old(world.stored) && world.popped == old(world.popped)
      ensures exists found: Option<TokenSet> ::
        && world.loaded == old(world.loaded) + [(connection, found)]
        && world.revoked == old(world.revoked) + if atProvider && found.Some? then [found.value.accessToken] else []
    {
      var tok := world.LoadToken(connection);
      if tok.Some? && atProvider {
        world.RevokeAtProvider(tok.value);
      }
      world.DeleteToken(connection);
    }

    /** PollMSDeviceCodeFlow; `polled` is what the single poll brought, None for any exception. */
    method PollDeviceCode(connection: string, polled: Option<TokenSet>) returns (ok: bool)
      modifies world`store, world`tokens, world`stored
      ensures ok <==> polled.Some?
      ensures ok ==> connection in world.tokens && world.tokens[connection] == Normal(polled.value)
      ensures world.stored == old(world.stored) + if ok then [(connection, polled.value)] else []
    {
      world.Await();
      ok := polled.Some?;
      if ok {
        world.StoreToken(connection, polled.value);
      }
    }
  }
}
