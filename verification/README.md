# KyIdentity: verified models of its stateful protocols

A Dafny project that models the parts of KyIdentity whose correctness lies in interleavings,
histories and crashes, and proves what every run keeps. `dafny verify dfyconfig.toml` checks all of
it. Paths below are relative to the repository's root.

| File | Models |
|---|---|
| `KeyRegistry.dfy` | the push relay's key table and its migration, record by record, from KV |
| `TokenClaim.dfy`, `TokenOwnership.dfy` | who may push to a device token: the Durable Object's turns, and sends racing over them |
| `KeyCache.dfy` | the 30-second key cache in front of the registry |
| `DailyBudget.dfy` | the relay-wide daily counter and its refunds |
| `RelayRenewal.dfy` | a server's relay endpoint renewing its key, composed with the registry |
| `SignedMessages.dfy`, `PushDigits.dfy` | what a device signs, and the numbers it is shown |
| `MfaStore.dfy`, `LoginHandlers.dfy`, `LoginProtocol.dfy` | the second-factor tables, handlers, and the whole login protocol under interleaving |
| `RateLimiter.dfy` | the bounded token-bucket map |
| `SetupStage.dfy` | crash-safe credential preparation |
| `DeviceAssertion.dfy` | the device assertion grant |
| `AccessRequests.dfy` | the access-request lifecycle |
| `DatabaseParts.dfy` | splitting and joining a database snapshot |
| `Common.dfy` | Option and Result |

Most files have the same three layers: what an operation does as a function of the stored values; a
class whose methods change its fields as the source does, each proved equal to that function; and a
machine whose steps are those functions, interleaved freely, with the theorems about all its runs.
What decides an operation is stated a second time by the stored columns alone, naming none of those
functions: in the methods' contracts, and in lemmas about one request, send, lookup, run or exchange on
its own.
Fields and events called history are read by no step.

## What is assumed

- Each Durable Object method, each SQL statement and each store transaction is one atomic step; an
  error return rolls its transaction back. `keyfile.Store` is an atomic exclusive create; its own
  file is not part of this model.
- Where a module keeps one clock it does not run backwards. Times a caller passes in are arbitrary
  unless a lemma says otherwise.
- ECDSA verification is "this key signed this message"; a signature never verifies under a key
  that did not make it. Hashes and digests, where a lemma names it, have no collisions.
- Freshly minted keys, ids and challenge ids are new. An id names one key in the table and in KV
  together, and the KV index from ids to hashes is the inverse of the records.
- An access-request transaction's readings of app settings, current access and authority, the
  validity of a setup bundle's metadata, and the tables the assertion exchange consults are
  parameters.

## Where the code does less than its comments say

- `relay-coordinator.ts` describes the in-flight count as the sends still using the claim. It is, if
  and only if no displaced key takes the claim again while a send from before is out
  (`CounterExactUnlessComesBack`), which holds whenever keys are live as they take a claim;
  `EarlyReleaseRun` is a run outside that.
- The takeover grace is meant to protect every claim younger than a minute. One taken between a
  rival's claim turn and its swap is not protected (`GraceMissesIff`, `YoungClaimDisplacedRun`).
- A KV record is outdated by a later registration through a strict comparison of creation times, so
  a record of the same millisecond, or one with a later stamp, comes in active beside its
  replacement (`RegistrationAgreesIff`).
- An operator revokes a key by an UPDATE of its row. A key still only in KV has none, and is copied in
  unrevoked at its next use (`RevocationAgreesIff`, `MissedRevocation`).
- The budget counter takes whatever day a call carries. A draw that arrives late from before
  midnight empties the new day's count (`LateSpendOvershoots`). No worker calls the refund.
- `ConsumeDeviceSignOnJTI` notes that an expired row's assertion is refused by its `exp` anyway. The
  two clocks are read at different moments (`SecondTokenIff`, `StalledExchangeIssuesAgain`).
- `DecideAccessRequest` writes the expiry of a late request and then returns an error, which undoes
  it (`LateDecisionChangesNothing`).
- Preparation is described as resumable. On unchanged inputs it is, with two exceptions: a
  directory with no intent and sixteen or more stray temporary files, and a setup that owns other rows
  but has no receipt (`RerunOnUnchangedInputs`).

## Model

| member | source | states |
|---|---|---|
| `KeyRegistry.KeyTable.FindById` | push-relay-shared/relay-coordinator.ts:288-293 | the one row with an id, and none exactly when the id is not taken |
| `KeyRegistry.KeyTable.RegisterKey` | push-relay-shared/relay-coordinator.ts:299-320 | one transaction, row by row: every active key of the address becomes superseded and is reported, the new key is active, the rest stay; a taken hash or id rolls all of it back |
| `KeyRegistry.KeyTable.ImportKey` | push-relay-shared/relay-coordinator.ts:332-363 | a new row is the record's own id, name, address, creation time, expiry and source, marked as from KV; disabled it comes in revoked, and superseded if its address has registered since; an existing row wins, a taken id inserts nothing, and no other row moves |
| `KeyRegistry.LazySimulatesEager` | push-relay-shared/push-relay-common.ts:775-806 | for every interleaving of registrations that outdate KV, copy-on-use imports, and revocations that find their key, each presented key resolves to the same status as in a registry that imported all KV records first; the next two rows show both conditions exact |
| `KeyRegistry.RevocationAgreesIff` | push-relay-shared/relay-coordinator.ts:253-261 | one revocation keeps lazy and eager registry in agreement for every key if and only if the key has a row, or KV holds no enabled record of it |
| `KeyRegistry.RegistrationAgreesIff` | push-relay-shared/relay-coordinator.ts:341-347 | one registration keeps lazy and eager registry in agreement for every key if and only if no KV record of its address that would still come in active is as young as it (the guard is a strict comparison) |
| `KeyRegistry.ImportAllIsEagerStart` | push-relay-shared/relay-coordinator.ts:332-363 | importing all KV records in any order, with repeats, gives one and the same table: the one the simulation compares with |
| `KeyRegistry.OnFileStep` | push-relay-shared/relay-coordinator.ts:299-363 | what table and KV together answer for one key changes as if the table were complete, although records are copied only on use |
| `KeyRegistry.Unoutdated` | push-relay-shared/relay-coordinator.ts:341-347 | the record a registration failed to outdate: active in the lazy registry, superseded in the eager one |
| `KeyRegistry.MissedRevocation` | push-relay-shared/relay-coordinator.ts:332-363 | the revocation that misses a key still only in KV: the lazy registry answers as if nothing had happened, the eager one says revoked |
| `KeyRegistry.LookupUncached` | push-relay-shared/push-relay-common.ts:783-793 | asks the table and then KV, copying in: a row on file as it is, otherwise the record's own columns, and none exactly when KV has no record or its id is taken |
| `KeyRegistry.CopiesStayTrue` | push-relay-shared/relay-coordinator.ts:332-363 | over any run of fresh registrations, imports and revocations, every row whose hash KV knows still carries that record's id, name, address, creation time, source and expiry |
| `KeyRegistry.RegisterImportCommute` | push-relay-shared/relay-coordinator.ts:299-363 | copying a record in before or after a registration gives every key the same row up to its end time |
| `KeyRegistry.ReimportChangesNothing` | push-relay-shared/relay-coordinator.ts:335-338 | importing the same record again leaves the table as it is |
| `KeyRegistry.InactiveStaysInactive` | push-relay-shared/relay-coordinator.ts:253-261 | no operation makes an inactive key active, or moves a key's address, expiry or origin, whether the key is in the table or still in KV |
| `KeyRegistry.EndedIsFinal` | push-relay-shared/relay-coordinator.ts:253-261 | over any runs of fresh registrations, imports and revocations, a key that resolved as superseded or revoked never resolves as active again |
| `KeyRegistry.DeadOwnerStaysDead` | push-relay-shared/push-relay-common.ts:336-345 | the answer to "may this key hold a claim" is one-way: once no, no operation and no later clock turns it to yes |
| `KeyRegistry.LiveInTable` | push-relay-shared/push-relay-common.ts:336-345 | by the columns: an id on file may hold a claim exactly while its row is active and its expiry, if any, lies ahead |
| `KeyRegistry.LiveInKv` | push-relay-shared/push-relay-common.ts:336-345 | and one only in KV exactly while its record is enabled, unexpired, and no key of its address has registered after it |
| `KeyRegistry.LiveNowhere` | push-relay-shared/push-relay-common.ts:336-345 | and an id on no record never |
| `KeyRegistry.OneActiveOverRuns` | push-relay-shared/relay-coordinator.ts:295-298 | over whole runs a self-registered active key is the only active key of its address, counting those still only in KV |
| `TokenClaim.TokenInstance.CurrentOwner` | push-relay-shared/relay-coordinator.ts:118-134 | reads the owner, adopting the KV index's owner as confirmed and stamped exactly once |
| `TokenClaim.TokenInstance.ClaimedAt` | push-relay-shared/relay-coordinator.ts:153-161 | the claim's stamp, written on first sight and never computed again |
| `TokenClaim.TokenInstance.TakeClaim` | push-relay-shared/relay-coordinator.ts:164-176 | the whole per-claim record reset for the new owner: stamped now, unconfirmed, one send in flight |
| `TokenClaim.TokenInstance.ClaimToken` | push-relay-shared/relay-coordinator.ts:186-200 | one claim turn, field by field: take a free token, count into one's own, compare-and-swap from the named owner, or report who owns it |
| `TokenClaim.TokenInstance.SettleToken` | push-relay-shared/relay-coordinator.ts:227-251 | one settle turn, field by field: only the owner's settles count, a delivery confirms for good, an unconfirmed claim with nothing in flight is released |
| `TokenOwnership.OwnerChangesHandsSafely` | push-relay-shared/push-relay-common.ts:407-451 | over every interleaving: when key b is let through after a different key a was, a's claim was released by a settle in between, or a was displaced by compare-and-swap at a moment when its key was not live |
| `TokenOwnership.LosesOwnership` | push-relay-shared/relay-coordinator.ts:186-251 | a key stops owning a token in those two ways only, so a live key is never displaced |
| `TokenOwnership.OwnershipIsEarned` | push-relay-shared/relay-coordinator.ts:186-200 | apart from adopting the KV owner, a key comes to own a token only by a send of its own that is let through |
| `TokenOwnership.DeliveredOwnerIsOnlyDisplaced` | push-relay-shared/relay-coordinator.ts:214-218 | once a send of the owner delivered, another key gets through only by displacing it while its key is not live |
| `TokenOwnership.ConfirmedSurvivesSettles` | push-relay-shared/relay-coordinator.ts:233-247 | no settle releases a confirmed claim, with no side condition |
| `TokenOwnership.LegacyOwnerAdoptedOnce` | push-relay-shared/relay-coordinator.ts:118-134 | the KV owner is adopted at most once in a run, so a released token never falls back to it |
| `TokenOwnership.CounterExactUnlessComesBack` | push-relay-shared/relay-coordinator.ts:164-252 | the in-flight counter equals the owner's unsettled sends throughout a run if and only if no key that was displaced takes the claim again while a send it was let through before is still out |
| `TokenOwnership.DisplacedForGood` | push-relay-shared/relay-coordinator.ts:164-176 | so it is enough that a displaced key never takes the claim again |
| `TokenOwnership.LiveTakersNeverComeBack` | push-relay-shared/push-relay-common.ts:407-451 | and enough that every key is live when it takes a claim: a displaced key is dead for good, so a key that is live was never displaced |
| `TokenOwnership.ReleasedExactlyAtTheLastSettle` | push-relay-shared/relay-coordinator.ts:202-252 | where nobody comes back early, a settle releases the claim exactly when the claim was taken here, this is its last unsettled send, and nothing under it delivered, whatever the order of the settles |
| `TokenOwnership.EarlyReleaseRun` | push-relay-shared/relay-coordinator.ts:227-251 | a complete run in which a displaced key does come back early: its old send settling late releases its newer claim while that one's send is still out |
| `TokenOwnership.UnconfirmedClaimIsInUse` | push-relay-shared/relay-coordinator.ts:227-251 | with no side condition, an unconfirmed claim always has an unsettled send of its owner |
| `TokenOwnership.GraceMissesIff` | push-relay-shared/push-relay-common.ts:437-449 | the claim a swap displaces is the one its send looked at if and only if no claim was taken in between, and is younger than the grace if and only if one was taken in between less than the grace before the swap |
| `TokenOwnership.YoungClaimDisplacedRun` | push-relay-shared/push-relay-common.ts:443-449 | a complete run in which that happens: a claim of age zero is displaced, since the swap compares owners, not claims |
| `TokenOwnership.StampNeverSlides` | push-relay-shared/relay-coordinator.ts:136-161 | a claim's stamp is set when it is taken, adopted or first seen, and never moves afterwards |
| `TokenOwnership.LoneSendAllowedIff` | push-relay-shared/push-relay-common.ts:407-451 | with nothing in between, a send is let through exactly when the token is free, is its key's own, or is held by a key that is not live under a claim that has outlived the grace |
| `TokenOwnership.LoneSendByTheTables` | push-relay-shared/push-relay-common.ts:407-451 | the same told by the columns of the tables: against another key's claim of at least a minute a send is let through exactly when the owner's row is not active or has expired, or its KV record is disabled, outdated or expired, or there is neither; against a younger one never |
| `TokenOwnership.LoneSendOnFreshToken` | push-relay-shared/relay-coordinator.ts:118-200 | a token nobody owns lets any key through, and one only the KV index knows an owner for exactly that key |
| `KeyCache.KeyCacheMap.Lookup` | push-relay-shared/push-relay-common.ts:775-780 | a hit only while unexpired and within its time; a miss drops the entry |
| `KeyCache.KeyCacheMap.Keep` | push-relay-shared/push-relay-common.ts:801-804 | remembers an answer for 30 seconds from the lookup's start, evicting the oldest entry of a full cache |
| `KeyCache.KeptIsWellFormed` | push-relay-shared/push-relay-common.ts:801-804 | keeping an answer never grows the cache past its limit and costs at most the oldest entry |
| `KeyCache.ServedAnswersAreRecent` | push-relay-shared/push-relay-common.ts:775-806 | in every interleaving of lookups, registrations and cache drops, a served key is one the registry itself answered as active at a turn less than 30 seconds before the lookup began, and its expiry lies after that beginning |
| `KeyCache.RefusalsAreTrue` | push-relay-shared/push-relay-common.ts:775-806 | and no key is turned away for nothing: whatever a lookup is refused with, the registry itself said at a turn after it began that the key is superseded or revoked, expired by then, or unknown |
| `KeyCache.ExpiredRecordsAreRefused` | push-relay-shared/push-relay-common.ts:783-800 | a key KV recorded with an expiry is served to no lookup that begins at that moment or later, in any run and however it was copied in |
| `KeyCache.LoneLookup` | push-relay-shared/push-relay-common.ts:775-806 | on its own, a lookup the cache cannot answer serves a row on file exactly while it is active and unexpired, names the status of an ended one, and remembers only what it serves |
| `KeyCache.LoneFirstLookup` | push-relay-shared/push-relay-common.ts:783-806 | on its own, the first lookup of a key only in KV copies the record in and serves it exactly when it is enabled, not outdated by a registration, and unexpired |
| `KeyCache.EndedKeysAreRefused` | push-relay-shared/push-relay-common.ts:723-727 | a key superseded or revoked at some turn is refused to every lookup that begins 30 seconds later |
| `KeyCache.ForgottenKeysAreAsked` | push-relay-shared/push-relay-common.ts:1110-1113 | and to the very next lookup where the isolate forgot it |
| `KeyCache.CacheIsBounded` | push-relay-shared/push-relay-common.ts:727-729 | the cache never holds more than 1024 entries, however lookups overlap |
| `DailyBudget.BudgetInstance.SpendDailyBudget` | push-relay-shared/relay-coordinator.ts:403-421 | one draw: refused exactly at the limit of the calendar day the call's clock shows, counted otherwise, the count starting over on a new day |
| `DailyBudget.BudgetInstance.RefundDailyBudget` | push-relay-shared/relay-coordinator.ts:440-447 | gives a draw back only to the day the counter is at, never below zero |
| `DailyBudget.BudgetIsConserved` | push-relay-shared/relay-coordinator.ts:403-447 | over every orderly run the live count is that day's allowed draws minus its refunds, and no day has more than the limit outstanding |
| `DailyBudget.BudgetFromUnused` | push-relay-shared/relay-coordinator.ts:403-447 | the same from an unused budget: the stored count is the outstanding draws of its day and never passes the limit |
| `DailyBudget.SpendAllowedIff` | push-relay-shared/relay-coordinator.ts:403-421 | after any orderly run, a spend that does not go back a day is allowed exactly while that day's outstanding draws are fewer than the limit, and the counter then is their number |
| `DailyBudget.SpendKeepsExactIff` | push-relay-shared/relay-coordinator.ts:403-421 | one spend keeps the count exact if and only if its day is not behind the counter's, or nothing outstanding lies in the days it would forget |
| `DailyBudget.RefundKeepsExactIff` | push-relay-shared/relay-coordinator.ts:434-447 | one refund keeps the count exact if and only if it carries the counter's day just when its draw was counted on it, or the counter is at zero |
| `DailyBudget.OrderlyRefundNeverClamps` | push-relay-shared/relay-coordinator.ts:440-447 | an orderly refund on the live day always finds a draw to take off |
| `DailyBudget.RefusedAndLateCallsChangeNothing` | push-relay-shared/relay-coordinator.ts:408-447 | refused draws on the live day and refunds for closed days leave the counter as it was |
| `DailyBudget.LateSpendOvershoots` | push-relay-shared/relay-coordinator.ts:403-421 | a spend that arrives late from before midnight empties the new day's count: with a limit of one, two draws get through |
| `DailyBudget.RetryLandsOnNextDay` | push-relay-shared/push-relay-common.ts:551-565 | the advertised wait ends in the next UTC day and one second less does not |
| `SignedMessages.PushResponseInjective` | internal/mfa/mfa.go:557-577 | equal push-response messages state the same origin, user, device, challenge, purpose, expiry, verdict and digits |
| `SignedMessages.PushResponseSpelledOut` | internal/mfa/mfa.go:557-577 | a response message is refused exactly for an unknown purpose, an empty field or a bar in one, and is otherwise this concatenation: tag, origin, user, device, challenge, purpose, expiry, verdict, digits |
| `SignedMessages.PushTokenRefreshSpelledOut` | internal/mfa/mfa.go:657-672 | likewise for a push-target message, with the hash of the push token in it |
| `SignedMessages.PushTokenRefreshInjective` | internal/mfa/mfa.go:657-672 | equal push-target messages state the same fields, given a collision-free hash |
| `SignedMessages.MessagesAreSeparated` | internal/mfa/mfa.go:557-672 | no message of one kind is ever one of the other |
| `SignedMessages.JoinInjective` | internal/mfa/mfa.go:574-577 | fields without a bar are recovered from their join |
| `SignedMessages.FormatIntInjective` | internal/mfa/mfa.go:576-576 | two integers with the same decimal form are equal, negative ones included |
| `MfaStore.Store.CreateLoginPushChallenge` | internal/store/store.go:1951-1962 | inserts only while the user has no live login push, and says which |
| `MfaStore.Store.TransitionMFAChallengeStatus` | internal/store/store.go:1993-2008 | a compare-and-set on the status; approval stamps the time, any other move clears it |
| `MfaStore.Store.GetValidMFAToken` | internal/store/store.go:2044-2061 | the token only while unused, unexpired and with attempts left |
| `MfaStore.Store.ReserveMFAAttempt` | internal/store/store.go:2066-2075 | takes one attempt of a valid token and returns the new total, or zero and no change |
| `MfaStore.Store.ConsumeMFAToken` | internal/store/store.go:2078-2088 | marks an unused token used, true for exactly one caller |
| `MfaStore.SweepsSpareTheLiving` | internal/store/store.go:2010-2094 | the two sweeps take nothing still in use: live login pushes, approvals that could finish a login and valid tokens are the same before and after, then and later |
| `PushDigits.Decoys` | internal/mfa/mfa.go:445-464 | three decoys, all different from each other and from the number shown, or a refusal exactly when 201 draws offer fewer |
| `PushDigits.FreshIsDistinct` | internal/mfa/mfa.go:447-464 | what the draws offer has no repeats, never the number shown, and misses nothing drawn |
| `LoginHandlers.FinishPushLogin` | internal/api/auth_handlers.go:616-650 | uninterrupted, by the columns: a session for the token's own user exactly when token and challenge are there, the token is unused, unexpired, within its attempts and bound to the named challenge, and that is approved, stamped, unexpired and the same user's; the token is spent exactly then |
| `LoginHandlers.VerifyCode` | internal/api/auth_handlers.go:506-574 | uninterrupted, by the columns: a code costs an attempt before it is looked at, and only a right one spends the token |
| `LoginHandlers.RespondPushChallenge` | internal/mfa/mfa.go:712-752 | an answer approves exactly a pending, timely challenge with a verified signature and the matching number; every branch's effect on the row, its stamp included |
| `LoginHandlers.LoginPush` | internal/api/auth_handlers.go:448-468 | a login push goes out exactly when the user has no live one and is within the allowance |
| `LoginHandlers.PollPushChallenge` | internal/api/auth_handlers.go:583-609 | with the challenge's own valid token: its status as it stands, a late pending one moved to expired; nothing otherwise |
| `LoginHandlers.PushFinishIsTheHandler` | internal/api/auth_handlers.go:616-650 | the protocol's push-finish steps taken in a row open the one session, and spend the token, under exactly the columns FinishPushLogin asks for |
| `LoginHandlers.CodeFinishIsTheHandler` | internal/api/auth_handlers.go:506-574 | the protocol's code-finish steps taken in a row do to the token what VerifyCode does, and open one session exactly for a right code |
| `LoginHandlers.AnswerIsTheHandler` | internal/mfa/mfa.go:712-752 | the protocol's answer steps taken in a row move the challenge as RespondPushChallenge does, the signature being that of a paired approver device of the user over exactly this message |
| `LoginHandlers.PollAndSweepsAreTheHandlers` | internal/store/store.go:2010-2095 | the protocol's poll and sweep steps touch exactly the rows the poll handler and the store's sweeps touch |
| `LoginHandlers.GenuinePushLoginSucceeds` | internal/api/auth_handlers.go:616-650 | the positive law, from any state of the tables: password, push, an answer by the deadline signed by an approver device over the number shown, a finish before it, and exactly one session opens, for that user and by that challenge |
| `LoginHandlers.DeviceEditsTakeEffect` | internal/mfa/mfa.go:676-710 | an unpaired device's answers decide nothing from then on, a newly paired approver's do, and no other device is affected |
| `LoginHandlers.FiveGuesses` | internal/mfa/mfa.go:809-823 | a fresh token takes exactly five wrong codes; the sixth is refused unread while the token is still unspent |
| `LoginProtocol.OneApprovalOneLogin` | internal/api/auth_handlers.go:616-650 | over every interleaving, two push sessions have different challenges, each a login challenge of its own user approved by that user's approver device, by different signed messages, at different steps of the run |
| `LoginProtocol.ApprovedOnlyByDecision` | internal/mfa/mfa.go:712-752 | a challenge becomes approved only from pending, by a request that read it before its deadline and whose signature by a paired approver device covers this binding, the verdict and the matching digits |
| `LoginProtocol.ApprovalHappened` | internal/mfa/mfa.go:743-752 | behind every approval on record lies the step of the run that made it |
| `LoginProtocol.AnsweredOnce` | internal/mfa/mfa.go:719-725 | an answered or expired challenge never changes again |
| `LoginProtocol.OneSessionPerToken` | internal/api/auth_handlers.go:491-503 | a token opens at most one session over code, recovery, passkey and push finishes racing on it, and only for the user it was issued to |
| `LoginProtocol.AttemptsAreBounded` | internal/api/auth_handlers.go:418-429 | at most five codes, recovery codes and passkey proofs of a token are ever checked, however many finishes run in parallel |
| `LoginProtocol.OneLiveLoginPush` | internal/mfa/mfa.go:429-436 | a user never has two login pushes that could still be answered |
| `LoginProtocol.PushSessionsDiffer` | internal/api/auth_handlers.go:252-254 | each login challenge is held by one login, one token and one session |
| `LoginProtocol.CredentialChangeEndsPending` | internal/store/store.go:2935-2942 | over every interleaving: after a credential change spends a user's pending sign-ins, a session by one of those tokens opens only for a request that had spent it before; other users' tokens are untouched |
| `LoginProtocol.AbandonedGoesNoFurther` | internal/api/auth_handlers.go:235-263 | a request that was given up takes no further step |
| `LoginProtocol.RunInv` | internal/api/auth_handlers.go:235-263 | everything the steps establish holds in every state of every run: bindings, evidence, spent tokens, attempts |
| `RateLimiter.RateLimiter.IsRefilled` | internal/api/middleware.go:177-181 | whether the bucket is back to full |
| `RateLimiter.RateLimiter.Take` | internal/api/middleware.go:281-292 | refills to at most the allowance, stamps the time, and takes a token if a whole one is there |
| `RateLimiter.Middleware.SweepLimiters` | internal/api/middleware.go:187-199 | drops exactly the buckets idle for more than a minute that have refilled |
| `RateLimiter.Middleware.FindRefilled` | internal/api/middleware.go:217-229 | a refilled bucket, or 64 (or all) buckets none of which has refilled |
| `RateLimiter.Middleware.AllowRateLimit` | internal/api/middleware.go:266-292 | one request on the real objects: refused for room, denied or allowed, and the whole new map |
| `RateLimiter.NoRoomMeansNoRoom` | internal/api/middleware.go:266-280 | a request is refused for room only when its key has no bucket, the map is at its limit, and 64 probed buckets, or all, have not refilled; a bucket dropped to make room had |
| `RateLimiter.ServedByTheNumbers` | internal/api/middleware.go:281-292 | one served request by the numbers: refill, cap, at least one token or denied, one taken, and no other bucket moves but the one dropped |
| `RateLimiter.SweptByTheNumbers` | internal/api/middleware.go:187-199 | a sweep drops exactly the buckets untouched for over sixty seconds whose tokens plus refill reach the burst |
| `RateLimiter.BoundedDecidesLikeUnbounded` | internal/api/middleware.go:174-181 | for any requests, sweeps and evictions, every decision not refused for room is that of a limiter that never drops a bucket |
| `RateLimiter.MapIsBounded` | internal/api/middleware.go:266-280 | the map never holds more than its limit of buckets |
| `RateLimiter.StepLevels` | internal/api/middleware.go:187-292 | a step lowers the level of an allowed key by one and changes no other level, whatever it drops |
| `RateLimiter.DroppingRefilledChangesNoLevel` | internal/api/middleware.go:174-176 | dropping refilled buckets changes no key's level, then or later |
| `RateLimiter.AllowedIsRateBounded` | internal/api/middleware.go:187-292 | in any window a key gets at most its burst plus what the window refills, across sweeps, evictions and re-creations |
| `RateLimiter.AllowedPerWindow` | internal/api/middleware.go:252-255 | the same in numbers: maxTokens + window * refillRate |
| `RateLimiter.TokensInRange` | internal/api/middleware.go:281-292 | in every state of a run, stored tokens are between zero and the allowance |
| `RateLimiter.RatesAreSane` | internal/api/middleware.go:253-255 | a burst and a rate, neither negative, make a refill that adds up over intervals |
| `SetupStage.Preparation.StageSetup` | cmd/kyidentity/setup_stage.go:252-375 | the run as written ends in exactly the state and result of the step machine left alone |
| `SetupStage.Preparation.Claim` | cmd/kyidentity/setup_stage.go:263-300 | claims an unclaimed directory holding at most fifteen stray files, or insists on the same intent |
| `SetupStage.Preparation.CollectCredentials` | cmd/kyidentity/setup_stage.go:312-336 | finds, or where allowed mints, every generated credential and reads each back |
| `SetupStage.Preparation.SealAndPublish` | cmd/kyidentity/setup_stage.go:337-375 | receipt, record and bundle in that order, each created or found identical |
| `SetupStage.ChainOverRuns` | cmd/kyidentity/setup_stage.go:252-375 | however runs crash and overlap: bundle only with record, record only with the receipt it digests, receipt only with all credentials, all only with the intent |
| `SetupStage.FilesNeverChange` | cmd/kyidentity/setup_stage.go:103-115 | no published file is ever changed by any run |
| `SetupStage.DifferentBundleIsRefused` | cmd/kyidentity/setup_stage.go:295-300 | once an intent exists no run for another bundle gets past it |
| `SetupStage.RerunOnUnchangedInputs` | cmd/kyidentity/setup_stage.go:252-375 | wherever runs on the same bundle and secrets have crashed or overlapped, one uninterrupted rerun succeeds if and only if there is an intent or fewer than sixteen stray files, and a setup applied by other means has its receipt; it keeps every earlier file, and a check that follows reports present |
| `SetupStage.RerunSucceedsIff` | cmd/kyidentity/setup_stage.go:252-375 | on any disk whose chain holds, whatever inputs made it, one uninterrupted run succeeds if and only if the intent is this bundle's (or none, with fewer than sixteen stray files) the external secrets match the receipt, and a setup applied by other means has its receipt; it keeps every earlier file and completes the chain |
| `SetupStage.RerunThenCheck` | cmd/kyidentity/setup_stage.go:252-375 | on any disk whose chain holds: a run that meets that condition, then a check; the earlier files are kept and the check reports present without writing |
| `SetupStage.CheckAfterSuccess` | cmd/kyidentity/setup_stage.go:359-365 | a check run after a successful one reports present and changes nothing |
| `SetupStage.CheckWritesNothing` | cmd/kyidentity/setup_stage.go:252-375 | a check run leaves disk and database as they were, whatever it finds |
| `SetupStage.NoSilentReplacement` | internal/store/installer_setup.go:97-128 | even if preparation files are deleted at any time, every run that succeeds saw the same bundle, credentials and external secrets as the first record, and no other bundle is ever published |
| `SetupStage.StageOnAnyDisk` | cmd/kyidentity/setup_stage.go:252-375 | on any disk, files deleted or damaged included: one uninterrupted run succeeds if and only if the intent is this bundle's, or nothing but fewer than sixteen strays is there and nothing is recorded; a missing receipt goes with nothing recorded or published; every credential found is well formed, none is missing where none may be minted; receipt, record and bundle are absent or what these credentials seal to; a check also needs record and bundle. What a success leaves is told file by file |
| `SetupStage.ReplacementRefused` | cmd/kyidentity/setup_stage.go:318-320 | on any disk, an uninterrupted run that is a check, or finds a receipt, a record or other rows of its own, leaves the credentials exactly as they were, and fails if one of the bundle's is missing |
| `SetupStage.RecordedSetupNeverMints` | cmd/kyidentity/setup_stage.go:318-320 | over all runs, crashes and deletions: a run launched on a recorded setup never writes a credential |
| `SetupStage.MintingAlone` | cmd/kyidentity/setup_stage.go:312-336 | on any disk, the collecting ends with every credential, those found and new ones for the rest, exactly when all found are well formed and the missing may be minted; otherwise it fails |
| `DeviceAssertion.SignOn.ConsumeJti` | internal/store/store.go:2955-2966 | sweeps expired ids, then inserts unless the id is still kept |
| `DeviceAssertion.SignOn.Exchange` | internal/oauth/device_assertion.go:196-327 | succeeds exactly when admissible, first of its id, grantable, and nothing it rested on has changed; the first failing check names the refusal; the id is spent, until expiry plus a minute, exactly when the earlier checks pass |
| `DeviceAssertion.SignOn.Issue` | internal/oauth/device_assertion.go:248-327 | past the spending: the first failing check names the refusal; a token carries a push factor only for an attested device and ends at the first of the four ends |
| `DeviceAssertion.SucceedsByTheColumns` | internal/oauth/device_assertion.go:196-327 | an exchange returns a token if and only if these columns hold, clock, window, client, origin, device, user, scope, policy and access each said by itself; an attested device meets no passkey policy, another only one that reuses a sign-in and asks for a password |
| `DeviceAssertion.TokenUnlessStillKept` | internal/oauth/device_assertion.go:241-247 | over any sequence of exchanges, one that would be granted returns a token exactly when no earlier exchange spent its id and still keeps it |
| `DeviceAssertion.SecondTokenIff` | internal/oauth/device_assertion.go:241-247 | replay-once with its exact condition: after an exchange spent an assertion's id, a later one that would be granted returns another token if and only if it reaches the table after expiry plus skew, although it began before that |
| `DeviceAssertion.TwoTokensMeanExpiry` | internal/store/store.go:2952-2966 | two tokens for one id, even of different assertions, mean the later exchange reached the table after the first one's expiry plus skew |
| `DeviceAssertion.StalledExchangeIssuesAgain` | internal/oauth/device_assertion.go:241-247 | any exchange that gets a token gets a second one if repeated and stalled past that moment: two exchanges, both returning tokens |
| `DeviceAssertion.RememberedAtMostSevenMinutes` | internal/oauth/device_assertion.go:151-154 | an accepted id is kept at most 420 seconds past its insertion |
| `DeviceAssertion.TokenStaysWithinBounds` | internal/oauth/device_assertion.go:263-295 | a token ends after now, by each of its own life, the end of access and the policy deadline, at one of them; its evidence is never in the future and satisfies the policy for the token's whole life |
| `DeviceAssertion.GoodUntilDeadline` | internal/store/app_authentication.go:51-90 | evidence that satisfies the policy now satisfies it later exactly through the computed deadline |
| `DeviceAssertion.SignedExpiryLiesAhead` | internal/oauth/device_assertion.go:276-330 | the signed exp, cut to whole seconds, always lies ahead of now: every end a token can have is a whole second or whole seconds after now |
| `AccessRequests.Store.CreateAccessRequest` | internal/store/access_requests.go:123-169 | files the request with its 14-day deadline, or refuses it for the first reason that applies, changing nothing; grants are never touched |
| `AccessRequests.Store.CancelAccessRequest` | internal/store/access_requests.go:172-183 | withdraws only the user's own pending request |
| `AccessRequests.Store.DecideAccessRequest` | internal/store/access_requests.go:252-328 | decides a pending, unexpired request with authority, or refuses for the first reason that applies and rolls everything back; an approval grants the longer life, a denial leaves every grant as it was |
| `AccessRequests.Store.ExpireAccessRequests` | internal/store/access_requests.go:331-334 | marks exactly the overdue pending requests expired |
| `AccessRequests.RequestsStayWithinRules` | internal/store/access_requests.go:119-183 | in every reachable state: at most five pending requests per user, one per app, and none decided by its requester, without authority, or late |
| `AccessRequests.TerminalIsFinal` | internal/store/access_requests.go:252-334 | approved, denied, cancelled and expired requests never change again |
| `AccessRequests.ApprovalGrantsTheLonger` | internal/store/access_requests.go:290-314 | an approval leaves the later of the existing and the requested end (none is infinity), touches no other grant, and later requests never shorten it |
| `AccessRequests.ApprovalsNeverShorten` | internal/store/access_requests.go:303-313 | no sequence of requests and decisions makes anyone's access end sooner |
| `AccessRequests.GrantsMoveOnlyByApproval` | internal/store/access_requests.go:252-328 | over all runs: an assignment appears, disappears or changes its end only at an administrator's edit of it, or at a timely, authorised approval of a pending request of that user for that app |
| `AccessRequests.LateDecisionChangesNothing` | internal/store/access_requests.go:271-276 | a late decision leaves even the request as it was: the expiry it writes is rolled back with the error |
| `RelayRenewal.RelayEndpoint.Renew` | internal/mfa/push_relay.go:173-191 | a key already replaced is not replaced again; otherwise one registration, which may miss the relay, be refused, lose its answer after taking effect there, or give the endpoint its new key |
| `RelayRenewal.RenewAloneIsRenew` | internal/mfa/push_relay.go:173-191 | the machine's lock, registration and delivery steps in a row do what Renew does, for each fate of the request |
| `RelayRenewal.LonePush` | internal/mfa/push_relay.go:296-305 | one push whose key the relay calls superseded or unknown: a renewable endpoint registers once and sends again with what is now its address's one active key; another gives up and keeps its key |
| `RelayRenewal.FixedKeyIsKept` | internal/mfa/push_relay.go:299-301 | over all runs: an endpoint that may not renew keeps its key, registers nothing and sends each push once |
| `RelayRenewal.EachKeyIsReplacedOnce` | internal/mfa/push_relay.go:171-191 | over any number of concurrent sends each key value is replaced at most once and never comes back |
| `RelayRenewal.EachPushIsBounded` | internal/mfa/push_relay.go:296-305 | one push does at most two sends and one registration |
| `RelayRenewal.RenewalSettles` | internal/mfa/push_relay.go:171-191 | composed with the registry: with fresh keys, no lost answer and nobody else on the address, at most one registration succeeds and from then on the endpoint's key is its address's one active native key |
| `RelayRenewal.ActiveStaysActive` | internal/mfa/push_relay.go:171-191 | and from a start where the endpoint's key is already that one active key, it stays so through every such run and nothing is ever registered |
| `RelayRenewal.SettledRegistersNothing` | internal/mfa/push_relay.go:173-180 | an endpoint whose key is active registers nothing more, even with senders still renewing an older key |
| `RelayRenewal.LostAnswerLeavesStaleKey` | internal/mfa/push_relay.go:181-184 | a registration whose answer is lost leaves the endpoint with a key its address no longer answers with |
| `DatabaseParts.DbMembers` | internal/backup/payload.go:83-94 | the snapshot as one member, or its numbered slices in order |
| `DatabaseParts.SlicesAreExact` | internal/backup/payload.go:83-94 | slices are nonempty, within the limit, all but the last full, exactly as many as the length divided by the limit, rounded up, and together the snapshot |
| `DatabaseParts.PartNames` | internal/backup/payload.go:78-90 | part names never coincide, past a thousand parts too, and differ from the database's own |
| `DatabaseParts.PartSpelledOut` | internal/backup/payload.go:78-90 | a part's name is the database's, ".part", and its number in decimal, filled up to three digits |
| `DatabaseParts.Directory.TakeParts` | internal/backup/payload.go:108-123 | reads and removes the consecutive parts and returns their concatenation |
| `DatabaseParts.Directory.JoinDatabaseParts` | internal/backup/payload.go:99-131 | nothing without a first part, refused over an existing database, otherwise the joined database and an error exactly when a part is left over |
| `DatabaseParts.JoinUndoesSplit` | internal/backup/payload.go:83-131 | for every snapshot and limit, restoring the members and joining gives the directory with exactly the snapshot in it and no part left |
| `DatabaseParts.GapMakesJoinFail` | internal/backup/payload.go:124-126 | a part beyond a gap makes the join fail; where the files with the prefix are numbered parts, only that does |

## Left out

- HTTP, JSON, cookies, headers, audit rows, mail and pages: nothing of theirs survives abstraction.
- Registry availability: a missing binding makes `lookupKey` answer unavailable and `keyIsActive`
  answer active; both bindings are taken to be there.
- `keyIsActive` is one step here; its table lookup, KV read and import are separate awaits in the
  source. `lookupKey`, whose bound depends on them, is cut into its turns.
- TokenClaim.TokenInstance.CurrentOwner: does not trim the KV owner; the owner handed over is taken as
  already trimmed, and none when that leaves nothing.
- Provider delivery, minute limits and the unmetered case of an unset daily budget.
- Days outside four-digit years, where the ISO date is not a fixed-length prefix.
- TOTP, recovery-code and passkey checking: one step that accepts or rejects; the one-time use of
  recovery codes and of passkey challenges is not modelled.
- In the login protocol `loginPush`'s hourly allowance and early pending check are one choice: a login
  may skip its push at any time. The insert's own check is what the proofs use.
- Password verification, lockout and what `createSessionAndRespond` may still refuse: requests may
  be abandoned at any step, which covers every refusal.
- LoginHandlers.RespondPushChallenge: the signature's verdict is a parameter there; AnswerIsTheHandler
  has it checked against the devices and the messages signed.
- The limiter's two locks: a request is one step, so a sweep between finding a bucket and locking it
  is not modelled. Floating-point rounding: tokens and seconds are reals.
- RateLimiter.AllowedIsRateBounded: stated for any refill that adds up over intervals; the source's
  rate times seconds is the instance in AllowedPerWindow.
- Directories, ownership, symbolic links and size limits in preparation, the parent of an amendment,
  and I/O errors: a run may end at any step, which covers a failure.
- The check for a file's presence and its exclusive create are one step in preparation: the create
  decides. Temporary files may appear and vanish at any moment.
- Origins, redirect URIs, JWT parsing and attestation levels in the assertion grant; session rows and
  token signing after the decision; the two statements of `ConsumeDeviceSignOnJTI` are one step.
- Provisioning and revocation that follow an assignment; deletion of users and apps with their
  requests.
- A push through UnifiedPush or Ubuntu Touch, payload sealing, and the key file on disk: the renewal
  model keeps the key in memory. Expired keys count there as refused, not renewable.
- I/O errors while joining parts, and syncing.
- Attestation graders, WebAuthn ceremonies, SCIM, step-up routes, `ipBucket`, permission tables and
  configuration: straight-line checks, or state kept elsewhere.
