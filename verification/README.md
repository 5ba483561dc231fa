# Token brokerage, proved

This project models the stateful core of a service that brokers Xero and Microsoft Graph for an
agent, and proves what it is meant to guarantee.

* **Token refresh.** Any number of workers run `get_valid_token` (Xero) and `get_token`
  (Microsoft) over one Redis and one provider with rotating refresh tokens. `RefreshCall` is the
  machine of one call, one step per `await` or look at the clock; `CallCourses` reads the same code
  from top to bottom and shows the two agree; `RefreshSystem` interleaves any
  number of calls for one connection (other connections have other keys, see `Keyspace`) with time,
  lock expiry, re-authorisations, deletes and revocations.
  `CallOutcomes`, `LeaseExclusion`, `Rotation`, `RefreshChain` and `RefreshRuns` hold the theorems,
  `Failures` says exactly when the code falls short of its documentation.
  `TokenManagers` is the same code as objects and loops: every method is proved to make a legal call
  of the machine, while `World.Await` lets the rest of the system do anything that
  `RefreshRuns.WaitingMeansInterference` says it can. (`Await` has an empty body; what callers may
  rely on is only its contract.)
* **Single-use OAuth state.** `OAuthSystem` races any number of callbacks over WATCH/GET/MULTI/EXEC
  and follows the winner through code exchange and token write. `OAuthUseCases` is the code.
  `JointRuns` puts callbacks, device-code polls and token calls of one connection together.
* **Idempotency.** `Invoices` is a cache that is checked against a ledger others keep changing.
  `Memos` are the plain memo tables, in one map under the keys that `Keyspace` spells; `Keyspace`
  shows that five stores can share such a map.
* **Stores and approvals.** `Codecs` and `RedisStores` are the hash codecs, with the migration of old
  approval records on read, and the stores around them; `Approvals` is the approval lifecycle.

`Tokens` and `Wrappers` are shared. Each module is in the file of its name. Classes whose source
changes state are proved against functions or machines; the theorems are about those.

## Assumptions

* Owner tokens and OAuth states are fresh, and nobody presents a state before it was issued.
* Redis behaves as version 7 (docker-compose.yml:27): an expired key is gone, and EXEC is refused when
  a watched key has changed or expired since WATCH. There is one clock, and it does not go back.
* A provider call that fails consumed nothing and, for invoices and messages, did nothing. No worker
  dies between the provider's answer and the write of the token.
* Refresh tokens the provider issues are new and not empty; a refresh that does not rotate may
  return the token it was shown.
* The lease assumption (whoever is between the grant of the lock and the end of the token write still
  has time left on its lease) is `Rotation.LeaseKept`. It is a hypothesis of `RotationHolds`,
  `RotationSafety`, `RotationSafetyWithCallbacks` and `NoThunderingHerd` only, and of the states
  before the one they speak of.
* `StoreAgreesWithProvider` and `TenantSurvives` need every refresh to rotate and to return the new
  refresh token: an Azure answer without one makes the code drop the old one
  (`app/adapters/outbound/ms_graph/device_code_client.py:207-213`).
* Instants are integers, spelled in any way that reads back and is not empty (`TimeCodec`).
* Invoice creation and approval decisions take no lock in the code; their properties are about runs
  in which each call is atomic.

## Where code and documentation disagree

The model follows the code.

* `architecture.md:240-245` names the lock `lock:{connection_id}` and a Lua release; the key is
  `lock:refresh:{connection_id}` and the release is WATCH/GET/MULTI/DEL/EXEC.
* `get_valid_token` lists three errors. It can also end with ProviderUnavailableError, and with an
  AttributeError when the token is deleted between its first read and its load under the lock.
  `CallOutcomes.ErrorsExactly` and `Failures.CrashesExactly` say exactly when, and
  `Failures.DeleteUnderLockCrashes` is a run that gets there.
* The Xero client deletes the whole token on a 401 in order to force a refresh
  (`app/adapters/outbound/xero/client.py:173-175`). The refresh token goes with it, so unless another
  writer steps in first the retry ends with ConnectionMissingError
  (`Failures.RetryAfterDeleteIsMissing`). It is a `Delete` step here.
* An "identical" registration is one that agrees in case id, invoice number and supplier; the
  document path and the two URLs are not compared (`app/core/use_cases/approval.py:51-56`).
* The code after the loop of `_post_to_channel` says both attempts returned 401. It is never
  reached: a second 401 raises inside the loop.
* The idempotency store makes retries safe, except that a creation while Xero cannot be asked about
  the cached invoice makes another one (`Invoices.OutageDuplicates`).

## Model

| member | source | states |
|---|---|---|
| `RefreshCall.CallIsBounded` | app/adapters/outbound/xero/token_manager.py:103-137 | whatever the world answers, a call of either manager makes at most 5 attempts on the lock, at most 5 sleeps and at most 1 provider call, and is over within 31 steps |
| `CallCourses.CallsFollowTheSource` | app/adapters/outbound/ms_graph/token_manager.py:85-142 | a call of either manager completes with these observations and this outcome if and only if they are a course of the source, read from top to bottom: expiry compared with clock plus buffer, 5 attempts of 30 s, which loads and checks come when, when the provider is asked, what is stored, each error, and the release |
| `CallOutcomes.ProvenanceOfResult` | app/adapters/outbound/xero/token_manager.py:84-132 | a returned token was read from the store and its expiry was later than clock plus buffer at the check, or was minted by the provider for this call from the token it read last and written before any release began; a forced call returns only the second kind |
| `CallOutcomes.LockTimeoutExactly` | app/adapters/outbound/ms_graph/token_manager.py:103-142 | LockTimeoutError if and only if all 5 attempts were refused and every token read was checked and stale; an unforced call has then read 6 times, a forced one never |
| `CallOutcomes.ErrorsExactly` | app/adapters/outbound/xero/token_manager.py:84-137 | for each other ending an if-and-only-if in terms of what the call was told: missing, expired (rejected, or nothing to present: no refresh token, for Xero also an empty one), provider unavailable, and the crash on a token that vanished before the load under the lock |
| `CallOutcomes.PresentsOnlySeenStale` | app/adapters/outbound/xero/token_manager.py:104-118 | the last three things a Xero call saw before it presents a token are the grant of its lock, the read of that token and a clock that makes it stale |
| `CallOutcomes.MSPresentsSecondLoad` | app/adapters/outbound/ms_graph/token_manager.py:104-122 | a Microsoft call presents what its second load found, and unless forced a first load under the same lock found nothing or a token then seen stale |
| `CallOutcomes.PromiseKept` | app/adapters/outbound/ms_graph/token_manager.py:85-142 | the course, the bounds, the provenance of results and the exact conditions of every error, together, for any completed call of either manager |
| `LeaseExclusion.OthersOnlyInterfere` | app/adapters/outbound/lock/redis_lock.py:28-59 | no step of the rest of the system removes a waiting call's unexpired lock, puts its token on the key, or changes the key without changing its version |
| `LeaseExclusion.LockInvHolds` | app/adapters/outbound/lock/redis_lock.py:28-59 | the lock's invariant (owners differ, an unexpired holder is on the key, a watched version matches exactly while the token is still there) holds in every state of every run |
| `LeaseExclusion.AtMostOneLease` | app/adapters/outbound/lock/redis_lock.py:28-39 | with no timing assumption: a call that was granted the lock, has not let go and whose TTL has not elapsed is the one on the key, so there is at most one |
| `LeaseExclusion.ReleaseRefinesCompareAndDelete` | app/adapters/outbound/lock/redis_lock.py:41-59 | WATCH/GET/MULTI/DEL/EXEC interleaved with anything leaves the key alone until its last step, which leaves what an atomic compare-and-delete would |
| `LeaseExclusion.LockChangesOnlyBy` | app/adapters/outbound/lock/redis_lock.py:28-59 | in any run the key changes only by expiry, by its owner's own EXEC, or by a grant to a token never drawn before |
| `LeaseExclusion.ReleasedForGood` | app/adapters/outbound/lock/redis_lock.py:41-59 | once a call is over, on every path, its own token is off the key in that state and in every later one |
| `Rotation.RotationHolds` | app/adapters/outbound/xero/token_manager.py:108-125 | no call carries, and the store does not hold unless a write is pending, a consumed refresh token, in every state reached under the lease assumption |
| `Rotation.RotationSafety` | app/adapters/outbound/xero/token_manager.py:99-125 | as long as the lease assumption held in all earlier states, for any number of calls of both managers and any interleaving with stores, deletes and revocations, a refresh token shown to the provider was never consumed |
| `Rotation.OverrunPresentsConsumed` | app/adapters/outbound/xero/token_manager.py:104-119 | the lease assumption is needed: a concrete run in which a lease runs out before its refresh and a consumed token is presented |
| `RefreshChain.StoreAgreesWithProvider` | app/adapters/outbound/xero/oauth_client.py:106-138 | with no deletes, revocations or re-authorisation, refreshes form one linear chain, and whenever no call is between provider and store the stored token is the latest and its refresh token the only live one; no timing assumption |
| `RefreshChain.TenantSurvives` | app/adapters/outbound/xero/oauth_client.py:138 | in every state of such a run of Xero calls the stored tenant id, and the one every call carries, is the original |
| `RefreshChain.NoThunderingHerd` | app/adapters/outbound/xero/token_manager.py:84-125 | with the lease kept in every earlier state and no other writer, any number of unforced calls cause at most one successful refresh for as long as the token the first one obtained stays outside the buffer, whatever a second would bring |
| `RefreshRuns.CallsAreLegal` | app/adapters/outbound/ms_graph/token_manager.py:85-142 | each call of a run, seen alone, is a legal call in the state its own observations put it in; this carries the one-call results over to runs |
| `RefreshRuns.WaitingMeansInterference` | app/adapters/outbound/lock/redis_lock.py:28-59 | whatever any number of foreign steps do to the lock key between two events of a call is interference, which is all the imperative model assumes of an await |
| `RefreshRuns.ResultsComeFromSomewhere` | app/adapters/outbound/xero/token_manager.py:84-132 | in any run a returned token was the stored one, with its expiry later than clock plus buffer at the moment it was read, or was granted to that call and stored by it before its release began (with force only the latter) |
| `RefreshRuns.FinishedCallsKeepPromises` | app/adapters/outbound/ms_graph/token_manager.py:103-142 | course, bounds, exact errors and provenance hold of every finished call of every run |
| `RefreshRuns.XeroPresentsSeenStale` | app/adapters/outbound/xero/token_manager.py:104-118 | in any run what a Xero call is about to present it read from the store after its own token went on the free key, and it then saw it stale, with nothing else in between |
| `RefreshRuns.RunsAreShort` | app/adapters/outbound/xero/token_manager.py:103-137 | a measure over all calls drops with every step of a call: any run takes at most 31 steps per call that arrived |
| `RefreshRuns.CallsNeverBlock` | app/adapters/outbound/xero/token_manager.py:103-137 | in every reachable state every unfinished call has a step it can take, so with the bound above any finite set of calls finishes |
| `Failures.CrashesExactly` | app/adapters/outbound/xero/token_manager.py:104-118 | in any run a Xero call crashes if and only if the first thing it saw after the grant of its lock was a store without a token |
| `Failures.DeleteUnderLockCrashes` | app/adapters/outbound/xero/token_manager.py:108-118 | a concrete run gets there: the connection is revoked between the grant and the load |
| `Failures.MissingExactly` | app/adapters/outbound/xero/token_manager.py:84-89 | in any run a Xero call ends with ConnectionMissingError if and only if the store held no token at its first step |
| `Failures.RetryAfterDeleteIsMissing` | app/adapters/outbound/xero/client.py:168-176 | after the delete on a 401, a call that first looks before anybody has stored a token ends with ConnectionMissingError |
| `TokenManagers.World.SetNx` | app/adapters/outbound/lock/redis_lock.py:32-38 | SET NX EX: granted exactly when the key is free, and then the caller's token is on it until now plus TTL; otherwise the key stays as it is |
| `TokenManagers.World.ExecDelete` | app/adapters/outbound/lock/redis_lock.py:53-55 | the key is deleted exactly when its version is still the watched one; whatever is removed is recorded |
| `TokenManagers.World.Store` | app/adapters/outbound/ms_graph/token_manager.py:123 | the stored token becomes the normal form of the one written |
| `TokenManagers.LockContext.Enter` | app/adapters/outbound/lock/redis_lock.py:28-39 | draws a fresh owner token, remembers it and whether the lock was granted, which it is exactly when the key was free; a grant puts the token on the key, a refusal leaves the key alone |
| `TokenManagers.LockContext.Exit` | app/adapters/outbound/lock/redis_lock.py:41-59 | nothing happens unless acquired; afterwards the own token is not on the key and nothing but it was removed |
| `TokenManagers.RefreshAndStore` | app/adapters/outbound/xero/token_manager.py:116-125 | asks the provider once; a grant is stored before the method returns it, any other answer becomes the matching error |
| `TokenManagers.XeroTokenManager.GetValidToken` | app/adapters/outbound/xero/token_manager.py:84-95 | the loop code makes a complete legal call; its result keeps the whole promise; it removed no lock but its own, which is gone |
| `TokenManagers.XeroTokenManager.RefreshUnderLock` | app/adapters/outbound/xero/token_manager.py:99-137 | the retry loop, from the first attempt to a finished call, releasing the lock on every way out |
| `TokenManagers.XeroTokenManager.DoubleCheckAndRefresh` | app/adapters/outbound/xero/token_manager.py:106-125 | the body under the lock takes the call from the grant to the start of the release with the outcome it returns |
| `TokenManagers.MSTokenManager.GetToken` | app/adapters/outbound/ms_graph/token_manager.py:85-96 | the same for Microsoft, with and without force |
| `TokenManagers.MSTokenManager.RefreshUnderLock` | app/adapters/outbound/ms_graph/token_manager.py:100-142 | the Microsoft retry loop, which re-reads after a sleep only when not forced |
| `TokenManagers.MSTokenManager.DoubleCheckAndRefresh` | app/adapters/outbound/ms_graph/token_manager.py:106-129 | the Microsoft body under the lock, with its two loads |
| `TokenManagers.GraphClient.PostOnce` | app/adapters/outbound/ms_graph/client.py:114-122 | one round of the loop: a complete token call and, if it brought a token, one POST with it |
| `TokenManagers.GraphClient.PostToChannel` | app/adapters/outbound/ms_graph/client.py:113-146 | the loop's whole course is one of four shapes, and the result is the verdict of its last answer; the code after the loop is never reached |
| `TokenManagers.RetryCarriesOwnRefresh` | app/adapters/outbound/ms_graph/client.py:113-140 | at most two POSTs, the second only after a first 401, carrying an access token the provider minted for this call after that 401 and stored before the lock was let go; a 2xx succeeds, any other last status is ProviderUnavailableError, and without a POST the error is the token call's |
| `OAuthSystem.InvHolds` | app/adapters/outbound/token_store/redis_oauth_state_store.py:38-58 | the invariant of racing pops, exchanges and writes holds in every state of every history |
| `OAuthSystem.SingleConsumption` | app/adapters/outbound/token_store/redis_oauth_state_store.py:38-58 | an issued state is still in the store or was popped by exactly one callback, which got the connection id the state was issued for |
| `OAuthSystem.FirstExecWins` | app/adapters/outbound/token_store/redis_oauth_state_store.py:52-58 | a callback about to run EXEC succeeds if and only if nobody has won its state yet and it has not expired |
| `OAuthSystem.WinsInTime` | app/adapters/outbound/token_store/redis_oauth_state_store.py:29-58 | a callback about to run EXEC goes on with the connection id its state was issued for if and only if nobody has won it and less than the TTL has passed since it was issued |
| `OAuthSystem.UnissuedNeverWins` | app/adapters/outbound/token_store/redis_oauth_state_store.py:47-51 | a callback with a state that was never issued gets nothing |
| `OAuthSystem.AuthorisationEndToEnd` | app/core/use_cases/oauth.py:91-105 | each issued state leads to at most one code exchange and at most one token write, of the token that exchange brought, under the connection id the state was issued for |
| `OAuthSystem.CallbacksWriteOnlyWhereIssued` | app/core/use_cases/oauth.py:98-99 | a callback's step changes the token store only at the connection id of its issued state |
| `JointRuns.CallsProject` | app/core/use_cases/oauth.py:98-99 | token calls, callbacks and device-code polls together, seen by the token calls, are a run of the refresh system: every token a callback or poll stores is one the provider granted it and nobody else carries |
| `JointRuns.FlowsProject` | app/core/use_cases/oauth.py:85-105 | the same runs, seen by the callbacks, are histories of the authorisation flow |
| `JointRuns.RotationSafetyWithCallbacks` | app/adapters/outbound/xero/token_manager.py:99-125 | rotation safety in such runs: the callbacks and polls are steps of their own, not assumed deliveries |
| `JointRuns.AuthorisationAmidCalls` | app/core/use_cases/oauth.py:91-105 | one exchange per state, and only its token written, under the issued connection id, whatever token calls, deletes and polls go on |
| `OAuthSystem.StepsOnlyInterfere` | app/adapters/outbound/token_store/redis_oauth_state_store.py:29-58 | whatever step anyone takes, a state key whose change count is the same is the same |
| `OAuthSystem.HistoriesOnlyInterfere` | app/adapters/outbound/token_store/redis_oauth_state_store.py:29-58 | the same over any number of steps, which is all the imperative model assumes of an await |
| `OAuthUseCases.StateStore.Save` | app/adapters/outbound/token_store/redis_oauth_state_store.py:29-36 | the state stands for the connection id until now plus TTL; other state keys change only by what others do meanwhile |
| `OAuthUseCases.StateStore.Pop` | app/adapters/outbound/token_store/redis_oauth_state_store.py:38-58 | a value is returned exactly when this call took the key out of the store, unexpired, and it is the connection id its entry held; none only if the state was not there or its key was changed or expired meanwhile |
| `OAuthUseCases.UseCases.Authorize` | app/core/use_cases/oauth.py:48-61 | issues the state for that connection id; this call changes no other state key, pops and exchanges nothing, and reads, writes, deletes and revokes no token |
| `OAuthUseCases.UseCases.HandleCallback` | app/core/use_cases/oauth.py:85-105 | no code is sent unless this callback consumed the state; the token the exchange brought, and no other, is stored under the connection id the state's entry held when it was consumed |
| `OAuthUseCases.UseCases.Revoke` | app/core/use_cases/oauth.py:152-160 | the token is gone afterwards; the access token found is sent to the provider exactly when there was one and there is a client |
| `OAuthUseCases.UseCases.PollDeviceCode` | app/core/use_cases/oauth.py:219-241 | a poll that brings a token stores it under the connection id; any other stores nothing, and no poll pops a state, exchanges a code, or reads, deletes or revokes a token |
| `Invoices.OneLiveExactly` | app/core/use_cases/xero.py:107-161 | any call or outside event keeps the living invoices of a key to the cached one, if and only if it is not a creation that goes uncached or bypasses a living cached invoice, nor the lapse of a living one's entry |
| `Invoices.AtMostOneLiveInvoice` | app/core/use_cases/xero.py:107-161 | over any run free of those events the living invoices made under a key are the cached one or none |
| `Invoices.OutageDuplicates` | app/core/use_cases/xero.py:124-127 | a retry while the lookup is unavailable makes a second living invoice for the key |
| `Invoices.CreationsAreExcused` | app/core/use_cases/xero.py:113-161 | creations for a key number at most 1 plus the voids, deletions or disappearances of the cached invoice, lapses, failed lookups and uncached creations |
| `Invoices.RetriesAgree` | app/core/use_cases/xero.py:113-161 | with no excuse there is one creation, at the first call for which Xero makes an invoice; what every call for the key answers is fixed: an error before, and from then on that one invoice unless the lookup is cut short by an error |
| `Invoices.UsableAnswerIsRepeated` | app/core/use_cases/xero.py:116-132 | a cached invoice that the lookup finds neither voided nor deleted is the answer, and nothing changes |
| `Invoices.OtherwiseCreates` | app/core/use_cases/xero.py:143-161 | without one, or when the lookup is unavailable, or finds it voided, deleted or not at all, the call makes a new draft, caches it and returns it, unless Xero refuses or answers with the wrong type |
| `Invoices.AnswersAreAlive` | app/core/use_cases/xero.py:127-161 | after any run a returned invoice is alive, made for its key and cached under it: the new one if one was made, otherwise nothing changed |
| `Invoices.CreateXeroDraftInvoice.Call` | app/core/use_cases/xero.py:107-161 | the imperative use case changes ledger and cache, and answers, as the function these lemmas are about |
| `Memos.TablesAreIndependent` | app/core/use_cases/xero.py:181-209 | what the calls under one (operation, key) return does not depend on any other call, key, operation or store |
| `Memos.SucceedsOnce` | app/core/use_cases/teams.py:41-72 | each (operation, key) succeeds at the provider at most once, at the first call it answers; that call and all later ones return that one answer |
| `Memos.KeyedCall` | app/core/use_cases/teams.py:53-72 | under a key the cached answer is returned, or else the provider is asked, and its answer recorded as this call's, cached and returned |
| `Memos.KeylessSend` | app/core/use_cases/teams.py:47-72 | a Teams send without a key, or with an empty one, always goes out and is never cached |
| `Memos.UseCases.ChangeInvoiceStatus` | app/core/use_cases/xero.py:330-358 | submit and void, step by step, as the function these lemmas are about |
| `Memos.UseCases.Send` | app/core/use_cases/teams.py:93-124 | message and card: the same, memoised only under a non-empty key |
| `Keyspace.SpellingIsInjective` | app/adapters/outbound/token_store/redis_token_store.py:18-19 | all key builders are injective with disjoint ranges, for all argument strings, colons included |
| `Keyspace.SpelledAs` | app/adapters/outbound/xero/token_manager.py:101 | the literal beginnings of all keys |
| `Keyspace.MemosDiffer` | app/core/use_cases/xero.py:113 | equal raw keys of different operations never share an entry |
| `Keyspace.CommandRefines` | app/adapters/outbound/token_store/redis_oauth_state_store.py:11-12 | one command on the shared map answers as on independent maps, keeps the two in step and never meets a key of the wrong type |
| `Keyspace.SharedRedisRefinesStores` | app/adapters/outbound/approval_store/redis_approval_store.py:25-26 | over any sequence of commands of the five stores the shared map gives exactly the replies of independent maps |
| `RedisStores.TokenReadBack` | app/adapters/outbound/token_store/redis_token_store.py:59-68 | a stored token is read back in normal form after any commands of any store on other keys |
| `RedisStores.RedisTokenStore.Store` | app/adapters/outbound/token_store/redis_token_store.py:59-61 | whatever the hash held, the connection now has this token, and no other key has changed |
| `RedisStores.RedisTokenStore.Load` | app/adapters/outbound/token_store/redis_token_store.py:63-68 | reads what the hash holds, in normal form, and nothing when there is no key |
| `RedisStores.RedisTokenStore.Remove` | app/adapters/outbound/token_store/redis_token_store.py:70-72 | the connection has no token afterwards, and no other key has changed |
| `RedisStores.RedisApprovalStore.Save` | app/adapters/outbound/approval_store/redis_approval_store.py:111-113 | whatever the hash held, the approval is now there, and no other key has changed |
| `RedisStores.RedisApprovalStore.Load` | app/adapters/outbound/approval_store/redis_approval_store.py:115-120 | reads what the hash holds, migrated and in normal form |
| `RedisStores.RedisIdempotencyStore.GetResult` | app/adapters/outbound/token_store/redis_idempotency_store.py:24-29 | the text under the key, if any |
| `RedisStores.RedisIdempotencyStore.SetResult` | app/adapters/outbound/token_store/redis_idempotency_store.py:31-33 | overwrites the entry and no other |
| `Codecs.TokenSurvivesStore` | app/adapters/outbound/token_store/redis_token_store.py:22-45 | whatever the hash held, store then load returns the token with empty optional strings absent, so unchanged exactly when it has none |
| `Codecs.TokenReadsAs` | app/adapters/outbound/token_store/redis_token_store.py:36-45 | how any hash reads as a token: absent exactly when empty, an error exactly when a field is missing or the time does not parse, otherwise field by field with its defaults |
| `Codecs.ApprovalSurvivesStore` | app/adapters/outbound/approval_store/redis_approval_store.py:29-95 | whatever the hash held, save then load returns the approval in normal form |
| `Codecs.ApprovalReadsAs` | app/adapters/outbound/approval_store/redis_approval_store.py:56-95 | how any hash reads as an approval, field by field, with the old statuses promoted to decisions and missing or empty optional fields absent |
| `Codecs.NormalExactly` | app/adapters/outbound/approval_store/redis_approval_store.py:56-95 | a record is kept unchanged if and only if it has no empty optional string and no legacy status; normalising twice changes nothing more |
| `Codecs.MigrationIsStable` | app/adapters/outbound/approval_store/redis_approval_store.py:56-95 | a loaded record, legacy or not, saved over its own hash loads as the same record, and the hash keeps no trace of the old status |
| `Codecs.RedisApprovalCodecIsValid` | app/adapters/outbound/approval_store/redis_approval_store.py:111-120 | the hash codec is one the approval lemmas apply to |
| `Approvals.ApprovalRuns` | app/core/use_cases/approval.py:49-86 | over any run of register and decide calls identity and creation time never change, status goes from pending to resolved at most once, and a record that is not pending is final |
| `Approvals.NotifiedOnceAndTruly` | app/core/use_cases/approval.py:147-193 | at most one notification per approval, of a valid decision that is the stored one; needs_changes always has a stored, stripped, non-blank note |
| `Approvals.OnlyResolvingCallsNotify` | app/core/use_cases/approval.py:141-200 | a call notifies if and only if it turns a pending record into a resolved one; calls that do not save change nothing |
| `Approvals.WhatIsStored` | app/core/use_cases/approval.py:68-79 | field by field, what a registration or a decision leaves in the store |
| `Approvals.RegistrationAnswers` | app/core/use_cases/approval.py:49-86 | the first registration is filed; a retry that agrees in case id, invoice number and supplier gets the stored record, any other DuplicateApprovalError, and neither changes anything |
| `Approvals.RegisteringAgain` | app/core/use_cases/approval.py:49-66 | the same over any run of calls in between, in terms of the two requests |
| `Approvals.DecisionAnswers` | app/core/use_cases/approval.py:141-165 | not found, already decided, invalid or recorded: which decision on which record gets which answer, with the three decisions and the non-blank note spelled out |
| `Approvals.NoteIsStripped` | app/core/use_cases/approval.py:186 | the stored note is the given one without the white space around it, absent if nothing is left |
| `Approvals.StripOnlyTrims` | app/core/use_cases/approval.py:162 | what strip returns is the text between two runs of white space |
| `Approvals.UseCases.RegisterApproval` | app/core/use_cases/approval.py:38-86 | the imperative use case does to the store, and answers, what the function these lemmas are about says |
| `Approvals.UseCases.RecordDecision` | app/core/use_cases/approval.py:134-200 | the same for decisions: load, checks, notification, then save |

## Left out

- FastAPI routes, dependency wiring, middleware, health checks, configuration and logging: no state of their own.
- HTTP bodies, URLs, headers and Adaptive Card JSON: payload shaping.
- The list use cases, GetApproval, GetXeroInvoice and GetConnectionStatus: one read each.
- The mapping of device-code errors and the text matching that tells a rejected Xero refresh from an unavailable provider: the provider's answer is `Rejected` or `Unavailable`; transport and parsing errors of a refresh end the call the same way and count as `Unavailable`.
- The fallback expiry when a token response has no `expires_at`: the answer carries the instant.
- A successful retry after a Xero 401: the code does not provide it.
- Concurrent duplicate suppression for invoice creation and for decisions: the code does not provide it.
- Crashes, cancellation and lost Redis connections.
- JSON text of cached results: `RedisIdempotencyStore` keeps the text it is given, `Invoices` and `Memos` the values.
- The time-to-live of idempotency entries: an entry may lapse at any moment (`Lapse` steps).
- An invoice response without the expected fields: counted with the wrong-type responses, made and not cached.
- The length of the pause between two attempts on the lock: a sleep may take any time.
- Webhook text: the client never raises and returns a string, which is a parameter.
- World.Refresh: in the imperative model the provider's answer is arbitrary; which answers a rotating provider can give is in `RefreshSystem.MayGrant`.
