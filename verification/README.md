# Verification of the auth server's shared state

The server keeps shared state correct under concurrency: several replicas change records in a
versioned key-value store by compare-and-set, and verifiers answer from bounded caches that may lag
the store. This project models that state and proves what holds of it in every run.

| files | component |
|---|---|
| `Numbers`, `Text`, `Digest` | 64-bit counters with saturation, UTF-8 and text rules, the length-prefixed digest |
| `VersionedStore` | the store: fresh revisions, expected revision 0 means absent, lost replies; the retry loop every mutation runs |
| `RevocationRecord`, `RevocationLedger`, `LedgerProperties`, `RevocationAuthority`, `RevocationReplay`, `RevocationCheck` | one append-only, hash-chained, bounded ledger per revocation target; revoke, lift, retries, and the check over a changing store |
| `VerifierCache`, `RevocationGate`, `GateRuns`, `GateLocks`, `GateObject` | the verifier's cache and gate: as a step system over every interleaving, and as the object that takes those steps |
| `EndToEnd` | authority and gates together: how soon a revocation is felt |
| `PermitCache` | the cache with refresh permits and authority generations |
| `RawKey`, `KeyLifecycle`, `KeyCredentials`, `KeyAnswers`, `KeyOperations` | API keys: create, rotate, revoke, list, introspect |
| `Ceremony`, `CeremonyHistory`, `CeremonyExample`, `CeremonyOperations` | governance ceremonies: begin, fenced claim, one verified completion |

## How it is built

Every mutation of the server is the same loop: read a value and its revision, decide, put at that
revision, try again on a mismatch. A decision is a function (`Pass`, `RotatePass`, `ClaimPass`, ...).
The store carries the log of its commits with the request behind each, and a protocol is a rule that
says which commits may follow which log. `VersionedStore.CasLoop` is the loop, proved to commit only
what its decision says, on the value that was current at that position of the log, whatever other
replicas do in between and whichever replies are lost. `InterleavedReplicasStayLegal` says the same
of any number of replicas, stale puts and crashes. So a theorem over every log that keeps the rule is
a theorem over every run.

SHA-256, HMAC, base64 and JSON serialisation are function-valued parameters. Where a statement needs
collision-freedom, it is assumed of the preimages that the statement names, never of all inputs.

In the classes, `KvClient.script` and `SharedGate.script` stand for what other replicas and other
calls do between two steps; nothing is known about them.

## Where the code does less than its documentation says, or than one might expect

The code is followed in each case, and the exact condition is proved.

- `docs/revocation-ledger.md:29` and `src/revocation.rs:4-6` say that a truncated history is rejected.
  A history cut at its end is not: every nonempty prefix of a valid ledger is valid, and a piece of a
  ledger validates exactly when it is one (`LedgerProperties.SliceIsValidExactlyWhenPrefix`).
- The check reads two keys, not one snapshot. A revoked answer is the scan's at one of the two reads. A
  clear answer is the scan's at some instant between them, unless in the gap a commit makes the token key
  match and a later one ends the subject key's match (`RevocationCheck.CheckIsRightUnlessHandedOver`). It is
  wrong at every instant exactly when the subject alone matched at the first read, does not at the second,
  and no commit in between left both keys without a match (`ClearIsWrongThroughoutExactlyWhen`). The history
  subject revoke, token revoke, subject lift does it (`CheckIsNotASnapshot`).
- A revoke retry rebuilds its record at its own time before it looks for the original. It is answered with
  the original snapshot exactly from the token's issue, or a day before the subject's expiry, up to the
  record's expiry; from then on it fails although the commit stands
  (`RevocationReplay.RetriedRevokeIsReplayed`).
- A permit cache whose sequence counter is at its maximum hands the same number out again. Over every run,
  a permit is never applied after a newer refresh of its key has begun, unless the counter was at its
  maximum when the older one was handed out (`PermitCache.OlderPermitAppliedExactlyWhen`); then it can be
  (`SaturatedCounterAppliesOlderPermit`).
- `src/gate.rs:242-244` says that the lock map stays bounded by refreshes in flight. It does not: two
  releasers that each see the other's reference leave the entry (`GateLocks.TwoReleasersLeaveEntry`), and so
  does a call given up while it waits (`GateLocks.AbandonedCallLeavesEntry`). A key no call is using has an
  entry exactly when its last use ended in one of these two ways
  (`GateLocks.EntryOutlivesItsCallsExactlyWhen`).
- A revoke's request hash covers neither the claims' scopes nor space around the reason, so two requests
  that differ only there are the same request to a retry (`RevocationReplay.RevokeHashTellsApart`).
- A ceremony's binding includes its begin time, so a retried begin is replayed exactly when it carries
  the same timestamp (`CeremonyHistory.BeginReplaysExactlyWhen`).

## Model

| member | source | states |
|---|---|---|
| VersionedStore.PutIsOnObserved | src/store.rs:240-273 | a put at the revision that was read, if applied, replaced the very value that was read |
| VersionedStore.InterleavedReplicasStayLegal | src/store.rs:201-273 | over any interleaving of reads, stale puts, lost replies and crashes of any number of replicas, the history is a sequence of whole read-modify-write transitions, each on the current value |
| VersionedStore.KvClient.GetVersioned | src/store.rs:201-234 | the answer is the value and revision current when it is served; other replicas may have committed first; it errs exactly when its own request goes wrong |
| VersionedStore.KvClient.PutIfRevision | src/store.rs:240-273 | the store becomes exactly what the others' requests leave with this put on top; Applied means one commit on the observed value, Mismatch and a refused request leave nothing of this put, a lost reply may hide either |
| VersionedStore.RevisionMovesByCommit | src/store.rs:240-273 | other replicas cannot move a key's revision without a commit to it |
| VersionedStore.CasLoop | src/revocation.rs:578-619 | whatever the loop returns is its decision on the value current at one position of the log, and a write is the commit there; it reports the store exactly when one of its requests went wrong, gives up only after eight commits to the key in its time, and in a quiet world decides on the log as it was |
| Digest.FrameInjective | src/revocation.rs:865-872 | the length-prefixed encoding of a list of byte strings determines the list |
| Digest.DigestBytes | src/token.rs:514-521 | the hasher loop computes the digest of the length-prefixed frame of its parts |
| Digest.DigestTextInjective | src/revocation.rs:860-872 | equal digests of non-colliding preimages come from the same text parts |
| RevocationLedger.ValidateLedger | src/revocation.rs:433-486 | the loop over running state accepts a ledger exactly when every event is good at its place and no idempotency identity repeats |
| RevocationLedger.FindCurrentRecord | src/revocation.rs:317-326 | finds the record of the last event when that is a revoke, and nothing otherwise |
| RevocationLedger.ReplayScan | src/revocation.rs:338-366 | the scan finds the one event with this identity and answers as of that event, or conflicts |
| RevocationLedger.LedgerBuffer.AppendRevoke | src/revocation.rs:368-389 | the buffer in place becomes the validated ledger with one more revoke; on an error the error is the validation's |
| RevocationLedger.LedgerBuffer.AppendLift | src/revocation.rs:391-424 | the buffer in place becomes the validated ledger with one more lift, or the error says why not |
| LedgerProperties.FirstRevoke | src/revocation.rs:289-311 | a first ledger for a valid record is valid exactly when its key is the record's storage key |
| LedgerProperties.RevokeAppendsExactlyWhen | src/revocation.rs:368-389 | on a valid ledger a valid same-target revoke with a fresh identity is appended exactly when there is room and its time is not before the last event |
| LedgerProperties.LiftAppendsExactlyWhen | src/revocation.rs:391-424 | a lift is appended exactly when there is room and the last event is a revoke active at that time; re-validation never fails |
| LedgerProperties.SliceIsValidExactlyWhenPrefix | src/revocation.rs:433-486 | a contiguous piece of a valid ledger validates exactly when it is a nonempty prefix |
| LedgerProperties.SnapshotAfterCommit | src/revocation.rs:488-501 | right after its commit a request is answered with its own sequence number as generation, and active or lifted by its kind |
| LedgerProperties.ReplayIsExact | src/revocation.rs:338-366 | an exact retry gets the original answer whatever was appended since; the same identity with another request conflicts |
| LedgerProperties.ChainBackwards | src/revocation.rs:433-486 | equal event hashes at one place mean equal events at every place up to it |
| LedgerProperties.FinalHashPinsLedger | src/revocation.rs:842-872 | with a collision-free digest, two valid ledgers have equal final hashes exactly when they are equal in full |
| RevocationAuthority.HistoryIsAppendOnly | src/revocation.rs:578-619 | every commit to a target stores a valid ledger of at most 32 events that extends the previous one by exactly one, with the generation one higher |
| RevocationAuthority.CommitTakesEffect | src/revocation.rs:368-424 | a committed revoke leaves its very record current and is answered with that record's expiry; a committed lift leaves none, is answered with the lifted record's expiry, and its event holds the trimmed texts |
| RevocationAuthority.StoredIsLoadable | src/revocation.rs:770-784 | everything ever stored passes the load-time checks for its key |
| RevocationAuthority.StoredOnlyGrows | src/revocation.rs:658-684 | what was once stored for a target is a prefix of whatever is stored later |
| RevocationAuthority.GenerationCountsCommits | src/revocation.rs:313-315 | a target's generation is the number of commits ever made to it |
| RevocationAuthority.CommittedOnce | src/revocation.rs:578-619 | after a commit, any pass with the same identity and request hash writes nothing and gives the commit's own answer; with another request hash it conflicts |
| RevocationReplay.RevokeHashTellsApart | src/revocation.rs:126-161 | under collision-freedom of the two preimages, two revoke requests have one hash exactly when they agree up to the trimmed reason and the claims' scopes |
| RevocationReplay.LiftHashTellsApart | src/revocation.rs:170-180 | under collision-freedom of the two preimages, two lift requests have one hash exactly when they agree up to the trimmed reason |
| RevocationReplay.MutationHashTellsApart | src/revocation.rs:838-840 | under collision-freedom of the two preimages, two mutations have one identity exactly when action, target, trimmed actor and trimmed idempotency key agree |
| RevocationReplay.TargetKeysTellApart | src/token.rs:225-243 | under collision-freedom of the two preimages, two targets share a storage key exactly when issuer, audience, tenant, kind and value agree |
| RevocationReplay.NewIsUnstored | src/revocation.rs:338-366 | an identity is found in the stored ledger exactly when some commit to the target carried it |
| RevocationReplay.RevokeDecidesByHistory | src/revocation.rs:578-619 | against any history, a revoke under a new identity commits exactly when the target has had fewer than 32 commits and none later than its time |
| RevocationReplay.LiftDecidesByHistory | src/revocation.rs:658-684 | against any history, a lift under a new identity commits exactly when there is room and the stored record is active at its time, and otherwise says which failed |
| RevocationReplay.SameIdentityDecidesByRequest | src/revocation.rs:578-619 | after a revoke commits, a request with the same identity gets the original answer exactly when it is the same request, and conflicts otherwise |
| RevocationReplay.SameIdentityDecidesByLift | src/revocation.rs:658-684 | after a lift commits, a request with the same identity gets the original answer exactly when it is the same request, and conflicts otherwise |
| RevocationReplay.RecordCanBeMadeExactlyWhen | src/token.rs:143-223 | a request that made a record once makes the same one, but for its time, exactly between its opening and its expiry, and the window is the error outside |
| RevocationAuthority.IdentitiesNeverRepeat | src/revocation.rs:658-684 | no two commits to one target carry the same idempotency identity |
| RevocationAuthority.MatchingRecordIsIndexed | src/token.rs:225-268 | a stored record that matches claims sits at the token key or the subject key of those claims |
| RevocationAuthority.IndexRefinesScan | src/revocation.rs:704-750 | in a store of valid ledgers the two-key check never errs on valid claims and reports revoked exactly when some ledger anywhere has a matching current record |
| RevocationCheck.CheckSeesItsReads | src/revocation.rs:704-750 | over any history the check never errs on valid claims and reports revoked exactly when the token read or the subject read saw a match |
| RevocationCheck.RevokedAnswerDescribesMatch | src/revocation.rs:719-747 | a revoked answer names the target that matched, token first, with that target's number of commits as generation and its record's expiry |
| RevocationCheck.QuietKeyIsOneInstant | src/revocation.rs:704-750 | if one of the two keys has no commit between the reads, the check is the one-instant check at one of them |
| RevocationCheck.CheckIsRightUnlessHandedOver | src/revocation.rs:704-750 | a revoked answer is the scan's at a read; a clear one is the scan's at some instant of the gap, unless a match moved onto the token key and later off the subject key in the gap |
| RevocationCheck.ClearIsWrongThroughoutExactlyWhen | src/revocation.rs:704-750 | a clear answer contradicts the scan at every instant of the gap exactly when the subject alone matched first, does not match last, and no commit in between left both keys without a match |
| RevocationCheck.CheckIsNotASnapshot | src/revocation.rs:704-750 | a legal history of three prepared requests, subject revoke, token revoke, subject lift, in which the check clears claims that are revoked throughout |
| RevocationCheck.CollisionFreeKeepsApart | src/revocation.rs:838-872 | a digest that does not collide on the preimages named gives the two targets two keys and the two actions two identities |
| RevocationCheck.SomeCodecKeepsApart | src/revocation.rs:838-872 | there is a digest under which that history exists |
| RevocationAuthority.RevocationStore.Revoke | src/revocation.rs:557-639 | rejected preparation changes nothing; otherwise the answer is the pass on the ledger current at one position, and a write is the commit there; the store is blamed exactly when a request went wrong, contention only under eight commits to the target |
| RevocationAuthority.RevocationStore.Lift | src/revocation.rs:641-702 | rejected preparation changes nothing; otherwise the answer is the pass on the ledger current at one position, and a write is the commit there; the store is blamed exactly when a request went wrong, contention only under eight commits to the target |
| RevocationAuthority.RevocationStore.CheckClaims | src/revocation.rs:704-750 | the answer is the check of what two reads saw at two positions of the log, the second not before the first; it fails for the store exactly when a read went wrong |
| RevocationReplay.RetriedRevokeIsReplayed | src/revocation.rs:557-619 | after its commit a revoke retried at any time is answered with the original snapshot exactly between the request's opening and its expiry, and fails with an invalid window from the expiry on |
| VerifierCache.StoringStaysBounded | src/cache.rs:163-182 | storing an answer keeps the cache within capacity and changes no entry but the key's and the victim's |
| VerifierCache.RevocationCache.Advance | src/cache.rs:131-140 | below the high-water mark nothing is decided and nothing changes; otherwise the mark becomes now |
| VerifierCache.RevocationCache.LookupKey | src/cache.rs:143-153 | a regressed clock yields no decision and no change; otherwise the answer is fresh exactly within the budget |
| VerifierCache.RevocationCache.RecordRefreshStart | src/cache.rs:157-159 | advances the mark, or refuses a regressed clock and changes nothing |
| VerifierCache.RevocationCache.FindOldest | src/cache.rs:184-193 | the minimum search finds an entry of the least observation time, or nothing in an empty cache |
| VerifierCache.RevocationCache.ApplyAuthoritative | src/cache.rs:163-182 | installs the answer at now, evicting an oldest entry exactly when a new key meets a full cache |
| RevocationGate.LocksStayShared | src/gate.rs:160-183 | every step of every call keeps: all calls between acquire and release of a key share the lock in the map, and each guard has one holder |
| RevocationGate.ReleaseRemovesExactlyWhenLast | src/gate.rs:245-251 | the reference-count test removes the lock exactly when no other call holds a reference to it |
| RevocationGate.SingleFlight | src/gate.rs:186-209 | two authority calls in flight for one key are the same call |
| RevocationGate.EvidenceStays | src/gate.rs:186-233 | every step keeps: each outcome and each cache entry is backed by an authority answer for its own key, and each refresh is overdue |
| GateLocks.EntryOutlivesItsCallsExactlyWhen | src/gate.rs:242-251 | in every state of every run, a key no call is using has a lock entry exactly when its last use was given up or released while another call still held a reference |
| GateLocks.AbandonedCallLeavesEntry | src/gate.rs:160-183 | a run of five steps, ending with a call given up while it waits, leaves an entry that nobody holds |
| GateLocks.TwoReleasersLeaveEntry | src/gate.rs:245-251 | two calls that release one key before either drops its reference leave an entry that nobody holds |
| GateRuns.SingleFlightInEveryRun | src/gate.rs:160-183 | in every state of every interleaving with timeouts, failures and abandonment there is at most one authority call per key |
| GateRuns.NextLockIsFree | src/gate.rs:235-240 | in every state of every run a lock about to be made is held by nobody |
| GateRuns.AnswersAreConcluded | src/gate.rs:186-209 | every recorded answer was concluded by an authority read of that key at that check time |
| GateRuns.AllowIsBoundedlyStale | src/gate.rs:160-209 | Allowed at now rests on a check of the same key that found neither target revoked, at a check time t with t <= now <= t + budget |
| GateRuns.RefreshesAreSpaced | src/cache.rs:143-182 | after an answer is applied at t1, the next authority call for that key has a time past t1 + budget unless the entry was evicted |
| GateRuns.EvictionIsOldest | src/cache.rs:163-193 | an entry leaves only for an applied answer, from a full cache, as one of the least observation time |
| GateObject.SharedGate.CacheLookup | src/gate.rs:211-217 | one look under the cache mutex: unavailable on a regressed clock, the decision when fresh, otherwise on to the authority |
| GateObject.SharedGate.AcquireKey | src/gate.rs:235-240 | the map section is an acquire step of the step system: the call now holds the lock stored for its key |
| GateObject.SharedGate.ReleaseKey | src/gate.rs:245-251 | the map section is a release step of the step system, removing by reference count |
| GateObject.ReadsAreTheCheck | src/gate.rs:52-71 | the two reads of a call, one after the other, come to the authority's check of what they saw |
| GateObject.NothingStoredAllows | src/revocation.rs:704-750 | with nothing stored for either key, valid claims are allowed and invalid ones make the refresh fail |
| GateObject.SharedGate.AskAuthority | src/gate.rs:186-209 | the outcome is what the reply comes to: failed on an error, timed out on a timeout, denied or allowed as the check of the two views says, or a regressed clock when the mark has meanwhile passed the call |
| GateObject.SharedGate.Authorize | src/gate.rs:160-209 | a whole call with any steps of others in every gap is a piece of a recorded run in which it stands finished; decisions are backed within the budget, an unavailable answer is the authority's own or a regressed clock, and undisturbed it answers the cache's fresh decision or else what the authority's reply comes to |
| EndToEnd.RevocationReachesEveryGate | src/gate.rs:160-209 | if a revoke commits at instant c and stays current, no gate answers Allowed for a covered token at any now with c + budget < now < expiry, over every interleaving |
| EndToEnd.CommitPutsInForce | src/revocation.rs:578-619 | a committed revoke puts its own record in force for its own target |
| EndToEnd.RevocationHoldsUntilNextCommit | src/gate.rs:160-209 | the bound in terms of what happens alone: a revoke commits and nothing more is committed to its target |
| EndToEnd.MoveKeepsSound | src/gate.rs:160-233 | every move of the composed system keeps the stored history legal and every gate sound and in time |
| EndToEnd.CollisionFreeKeysTellApart | src/gate.rs:103-116 | cache keys of identities whose preimages do not collide are equal only for equal identities |
| PermitCache.RevocationCache.LookupKey | src/revocation_cache.rs:168-189 | allow strictly before the freshness deadline of a not-revoked answer, otherwise the exact deny reason; a regressed clock changes nothing |
| PermitCache.RevocationCache.BeginRefresh | src/revocation_cache.rs:191-202 | hands out the next sequence number and supersedes the key's earlier permit |
| PermitCache.RevocationCache.ApplyAuthoritative | src/revocation_cache.rs:204-238 | accepts exactly the outstanding permit with a generation not below the installed one, and says which check failed otherwise |
| PermitCache.RevocationCache.InvalidateKey | src/revocation_cache.rs:240-249 | forgets the key's entry and its outstanding permit |
| PermitCache.EntryIsLastApplied | src/revocation_cache.rs:204-238 | over every run an entry is what the last application since the last invalidation installed |
| PermitCache.AllowIsFresh | src/revocation_cache.rs:168-189 | Allow at now means the last applied answer since invalidation was not revoked, at some a with a <= now < a + freshness |
| PermitCache.DecisionIsOfLastApplied | src/revocation_cache.rs:168-189 | over every run the decision is exactly that of the last answer applied since the last invalidation: allow while a not-revoked answer is fresh, otherwise deny with the reason |
| PermitCache.GenerationsNeverFall | src/revocation_cache.rs:204-238 | between invalidations the applied generations of a key never fall |
| PermitCache.AppliedPermitsIncrease | src/revocation_cache.rs:191-238 | until the counter saturates, applied permit sequences of a key strictly increase |
| PermitCache.OutstandingIsOpen | src/revocation_cache.rs:191-249 | over every run a key has an outstanding permit exactly when a refresh of it was begun and since then neither applied nor invalidated |
| PermitCache.OlderPermitAppliedExactlyWhen | src/revocation_cache.rs:191-238 | over every run, after a newer refresh of the key has begun, an older permit is applied exactly when the counter was at its maximum, a refresh is open, and clock and generation allow it |
| PermitCache.SaturatedCounterAppliesOlderPermit | src/revocation_cache.rs:191-238 | a run in which the counter reaches its maximum and an older permit is applied after a newer refresh has begun |
| RawKey.ParseInvertsFormat | src/keys.rs:519-534 | a string parses to given parts exactly when the parts are well formed and the string is their printing |
| RawKey.ConstantTimeEq | src/keys.rs:634-644 | the accumulating loop returns true exactly on equal byte strings |
| KeyLifecycle.RenderInjective | src/store.rs:22-28 | record paths and index paths are distinct store keys for distinct ids |
| KeyLifecycle.CommitAdvances | src/keys.rs:266-323 | a committed create starts at version 1 unrevoked; every later commit is one version up on an unrevoked key and leaves its identity alone |
| KeyLifecycle.LifecycleIsMonotone | src/keys.rs:215-323 | over every interleaving a key never disappears, revoked is final, the version never falls, and id, org, name, scopes and environment never change |
| KeyLifecycle.VersionCountsCommits | src/keys.rs:513-515 | the version is the number of commits: one create, one per rotate, one first revoke |
| KeyLifecycle.IndexOnlyGrows | src/keys.rs:447-467 | index additions, however concurrent, are never lost |
| KeyLifecycle.IndexIsSound | src/keys.rs:440-467 | an index always decodes, has no duplicates, and lists only keys whose record is stored for that organisation |
| KeyCredentials.CustomerScopes | src/keys.rs:554-569 | exactly the non-admin scopes survive |
| KeyCredentials.CustomerScopesInOrder | src/keys.rs:554-559 | the surviving scopes keep their order and repetitions |
| KeyCredentials.ListFollowsIndex | src/keys.rs:191-202 | a listing never fails on stored data and gives one entry per index entry in order, whatever is committed while it runs |
| KeyCredentials.ValidKeyIsListed | src/keys.rs:150-201 | wherever creates crashed, a key that introspection accepts appears exactly once in every later listing of its organisation |
| KeyCredentials.StoredHashIsLastSecrets | src/keys.rs:266-323 | the stored hash is that of the secret of the last committed create or rotate |
| KeyCredentials.OneAcceptedSecret | src/keys.rs:354-388 | in every reachable state introspection accepts a string exactly when it is the raw key of the last committed create or rotate of an unrevoked, indexed key |
| KeyCredentials.StoredSecretOpens | src/keys.rs:537-565 | the raw key whose hash is stored opens exactly that key, with its organisation and customer scopes |
| KeyCredentials.LatestRotationIsReplayed | src/keys.rs:290-298 | replaying the latest rotation returns the same raw key and writes nothing, even after a revoke |
| KeyCredentials.RetriedCreateMatches | src/keys.rs:502-511 | a retried create is recognised exactly while its own secret is the accepted one: always before any rotation |
| KeyCredentials.ChangedCreateConflicts | src/keys.rs:153-167 | a request that passes for a committed create agrees with it in org, name, scopes, environment and idempotency flag |
| KeyAnswers.RevokeDecides | src/keys.rs:215-249 | on any history a revoke writes exactly for an unrevoked key of the organisation, leaving it revoked one version up; true without a write exactly for a revoked one, false exactly when the key is not the organisation's |
| KeyAnswers.RotateDecides | src/keys.rs:283-312 | on any history a rotate writes exactly for an unrevoked key of the organisation whose last rotation was another, replays exactly its own last rotation, and answers nothing exactly for a foreign or revoked key |
| KeyAnswers.RotationHandsOutAcceptedKey | src/keys.rs:302-318 | a committed rotate answers with the very raw key that is accepted from then on, and with the record then stored |
| KeyAnswers.ReplayHandsOutAcceptedKey | src/keys.rs:290-298 | a replayed rotate answers with the accepted raw key and the record now stored |
| KeyAnswers.CreationHandsOutAcceptedKey | src/keys.rs:127-188 | right after its commit a create's raw key is the accepted one |
| KeyAnswers.CreateHandsOutAcceptedKey | src/keys.rs:153-167 | whenever the record found passes for the request's own, the raw key answered is the accepted one |
| KeyAnswers.ListShowsHistory | src/keys.rs:191-202 | every entry of a listing shows its key's history: the create's request and time, as many versions as commits, revoked exactly if a revoke was committed |
| KeyAnswers.RevokedExactlyIfCommitted | src/keys.rs:215-249 | a stored key is revoked exactly if a revoke of it was committed |
| KeyAnswers.DerivedValuesTellApart | src/keys.rs:469-479 | for text free of NUL and a non-colliding keyed digest, a derived id, secret or marker determines its purpose and all its parts |
| KeyAnswers.RotationsHaveTheirOwnSecrets | src/keys.rs:273-281 | for plain requests and non-colliding messages, two rotations share a secret exactly when they are one request, and a secret is never its marker |
| KeyAnswers.LegacyHashOpensExactlyWhen | src/keys.rs:617-632 | a plain hash opens for its own secret exactly while legacy hashes are accepted |
| KeyAnswers.CreatedKeyOpens | src/keys.rs:114-188 | after an undisturbed create for live or test, the raw key handed out opens the key with the requested organisation, customer scopes and flag |
| KeyOperations.KeyStore.Create | src/keys.rs:114-188 | success means that at a position after the call began the record is stored as this request's, and it is in the index; a conflict means that another record was there then; a record is never found missing after a mismatch |
| KeyOperations.KeyStore.IndexAdd | src/keys.rs:447-467 | on success the key is in the index |
| KeyOperations.KeyStore.List | src/keys.rs:191-202 | the listing of the index at one position from one later read per entry; only the store can make it fail |
| KeyOperations.KeyStore.Rotate | src/keys.rs:266-323 | the answer is the pass on the record current at one position, and a replacement is the commit there; the store is blamed exactly when a request went wrong, contention only under eight commits to the key |
| KeyOperations.KeyStore.Revoke | src/keys.rs:215-249 | the answer is the pass at one position; true means revoked from then on, false that the key was not the organisation's there; the store is blamed exactly when a request went wrong |
| KeyOperations.KeyStore.Introspect | src/keys.rs:354-388 | the answer is the introspection of two reads, record then index, of the durable store |
| Ceremony.BeginPreparesExactlyWhen | src/governance_ceremony/persistence.inc.rs:11-80 | a ceremony is prepared exactly on valid input, within the safety bounds of its lifetime, under an enabled configuration |
| Ceremony.ClaimWritesExactlyWhen | src/governance_ceremony/persistence.inc.rs:129-200 | a claim takes or takes over a ceremony exactly when a party asks within the lifetime of an unfinished one with a higher token |
| Ceremony.ClaimAnswersExactlyWhen | src/governance_ceremony/persistence.inc.rs:149-177 | a claim is replayed exactly to its own holder and token, is stale exactly under a lower token, taken exactly under the same token and another id, and answered with the completion exactly once completed |
| Ceremony.ClaimChecksMatchIntegrity | src/governance_ceremony/persistence.inc.rs:135-139 | within the lifetime a claim passes its request checks exactly when the record it leads to passes integrity validation |
| Ceremony.CompleteWritesExactlyWhen | src/governance_ceremony/persistence.inc.rs:202-274 | a completion commits exactly for the current claim id and token, this binding and challenge, another credential than the activated one, after the claim and before expiry |
| Ceremony.CompleteAnswersExactlyWhen | src/governance_ceremony/persistence.inc.rs:229-268 | why a completion is turned away, as an equivalence for each reason, when it is replayed, and what one that commits is answered |
| Ceremony.CompleteChecksMatchIntegrity | src/governance_ceremony/persistence.inc.rs:208-219 | a holder's completion in time passes its request checks exactly when the user was verified and the record it leads to passes integrity validation |
| Ceremony.CompletedStaysSound | src/governance_ceremony/integrity.inc.rs:144-207 | a completed candidate re-validates exactly when its credential and receipt are well formed and its time lies between claim and expiry |
| CeremonyHistory.StoredIsSound | src/governance_ceremony/integrity.inc.rs:237-268 | every record ever stored passes the whole integrity validation |
| CeremonyHistory.StoredTimesAreOrdered | src/governance_ceremony/integrity.inc.rs:35-207 | in every stored record created <= claimed <= completed < expires, and nobody approved a credential with itself |
| CeremonyHistory.HistoryFollows | src/governance_ceremony/persistence.inc.rs:289-366 | binding and hashes never change after begin, the token never falls, and a terminal record is final |
| CeremonyHistory.ClaimTokensIncrease | src/governance_ceremony/persistence.inc.rs:289-322 | committed claim tokens of a ceremony strictly increase |
| CeremonyHistory.StoredClaimIsLast | src/governance_ceremony/persistence.inc.rs:289-322 | the stored claim id, token and time are those of the last committed claim |
| CeremonyHistory.CompletionIsFenced | src/governance_ceremony/persistence.inc.rs:324-366 | a completion commits only for the claim id and token of the last committed claim |
| CeremonyHistory.OvertakenNeverCompletes | src/governance_ceremony/persistence.inc.rs:332-339 | once a claim has committed, no completion under a lower token or, at its token, another claim id ever commits |
| CeremonyHistory.TokenHasOneHolder | src/governance_ceremony/persistence.inc.rs:303-317 | two claims ever granted under one token carry one claim id |
| CeremonyHistory.LatestClaimIsReplayed | src/governance_ceremony/persistence.inc.rs:307-310 | the last committed claim, asked for again before expiry, is replayed until the ceremony is completed |
| CeremonyHistory.NothingFollowsCompletion | src/governance_ceremony/persistence.inc.rs:202-274 | a ceremony commits at most one terminal result, and nothing after it |
| CeremonyHistory.ConfirmationsAgree | src/governance_ceremony/persistence.inc.rs:230-268 | every successful completion response ever returned carries the one stored terminal result |
| CeremonyHistory.CompletionIsReplayed | src/governance_ceremony/persistence.inc.rs:230-243 | after a completion commits, the same receipt is answered with the committed result at any time and another receipt conflicts |
| CeremonyHistory.BeginReplaysExactlyWhen | src/governance_ceremony/persistence.inc.rs:97-125 | a retried begin is replayed exactly when it carries the first one's timestamp and the ceremony is not completed |
| CeremonyHistory.ResultHashPinsTerminal | src/governance_ceremony/integrity.inc.rs:194-234 | two sound completions with equal result hashes agree on the terminal result and on the decision it covers |
| CeremonyHistory.CeremonyIdsTellApart | src/governance_ceremony/routes.inc.rs:320-327 | under collision-freedom of the two preimages, two begins name one ceremony exactly when tenant, participant, proposal and idempotency key agree |
| CeremonyHistory.ChallengesTellApart | src/governance_ceremony/routes.inc.rs:333-346 | a challenge belongs to one ceremony and one binding, as far as the keyed digest and its encoding keep the two messages apart |
| CeremonyExample.CeremonyRunsThrough | src/governance_ceremony/persistence.inc.rs:11-274 | on plain input a begin, a claim and a completion make a legal history that ends with a terminal result |
| CeremonyOperations.FirstAnswerIsBound | src/governance_ceremony/persistence.inc.rs:87-96 | a first answer's challenge hashes to the stored record's challenge hash, and its binding hash, relying party, origin and expiry are the record's and the configuration's |
| CeremonyOperations.ReplayIsBound | src/governance_ceremony/persistence.inc.rs:115-124 | so do a replayed answer's |
| CeremonyOperations.CeremonyStore.Begin | src/governance_ceremony/persistence.inc.rs:11-127 | a first answer is backed by the commit of its record, any other is the replay decision on the record stored there; every success is bound to the stored ceremony; the store is blamed exactly when a request went wrong |
| CeremonyOperations.CeremonyStore.Claim | src/governance_ceremony/persistence.inc.rs:129-200 | the answer is the pass on the record current at one position, and a new claim is the commit there; the store is blamed exactly when a request went wrong, contention only under eight commits |
| CeremonyOperations.CeremonyStore.CompleteVerified | src/governance_ceremony/persistence.inc.rs:202-274 | every success carries the terminal result that is stored from then on |

## Left out

- HTTP transport, headers and JSON decoding of the key-value client; a value that does not decode appears only as a value of the wrong kind.
- Routes, CORS, status mapping, environment parsing and the choice of secrets.
- SHA-256, HMAC, base64, JSON serialisation, JWT signing and WebAuthn themselves: parameters, or not part of this model.
- Serialisation failures: serialising these plain records does not fail.
- The memory-map branches of the key store and the revocation store, reachable only in their tests.
- The key store's local map: production writes it and never decides from it.
- Token minting, and the supabase, synchronisation, surface-derivation and policy modules: network clients and small tables.
- Reasons carried by ceremony errors of one kind: the kind is modelled, the text is not.
- Validation of a permit cache's key text on construction (src/revocation_cache.rs:19-37).
- `last_used_ms` and other fields no modelled operation changes are carried but have no writer.
- Records written before this history began: the log starts from an empty store, so no record has a legacy hash; the legacy branch of the hash check is modelled and never taken on stored keys.
- Liveness under contention: a loop may run out of retries and a call may wait for a lock for ever; success is proved for undisturbed operations only. `Authorize` models an endless wait as giving up.
- The clocks of gates are natural numbers in the verifier cache and the end-to-end model; the width matters only for the saturating age, which cannot underflow there.
- Constant time: only the functional result of the comparison is modelled.
- A lock reference is dropped in one step; the order of drops inside a future that is abandoned is not modelled.
