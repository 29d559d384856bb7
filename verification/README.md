# asterism-proxy: a model of its protocols, and proofs about them

asterism-proxy is an OAuth 2.1 authorization server for resource servers that speak MCP. Most
of its state lives in small protocols on which several requests interleave. This project models
those protocols in Dafny and proves, for every input, every run and every interleaving, what the
comments and documents of the program promise of them. Where a promise fails, a lemma gives the
input, and another one says exactly when it holds.

`dafny verify dfyconfig.toml` checks everything.

## How it is built

The grant and token protocol:

- `Basics`, `ResourceRegistry`, `Tables`: list filters, registry look-ups and minting, the
  database rows and the effect of each transaction.
- `Database`: the same transactions statement by statement on a mutable store, with roll-back.
- `World`, `TokenEndpoint`, `Consent`, `Protocol`: the server as a transition system. A handler
  is cut at every `await`: what it has read so far is a *flight*, and each flight's next step is
  taken whenever the run says so. Any number may be under way. Registry reloads, pruning and
  whatever else revokes grants (a user, a denylist entry, the removal of a server, the
  deactivation of a user in `packages/proxy/src/cli/local-user.ts:90-115`) are steps as well.
- `TokenChains`, `ProtocolChains`, `ProtocolTrace`, `ProtocolOnce`, `ProtocolTheorems`,
  `ProtocolResponses`, `ProtocolRevokedGrants`, `ProtocolApprovals`, `ProtocolConsent`: what holds
  in every reachable state, and over whole runs. `ProtocolRequests`, `ConsentOutcomes`: exactly
  when a request that nothing interrupts succeeds, and what it leaves; `Revocations`: what users,
  operators and pruning revoke or remove. `ProtocolWitnesses`: runs that reach the cases in which a
  claim fails.

  What a check means is written out in the fields of rows and registry entries there, without
  the functions by which the handlers make it.

Resource servers and their registry: `Metadata` (the order on documents and its meet),
`Fingerprint`, `PendingMetadata` (a row under refreshes and accepts), `PendingReview` (how long a
review holds), `RegistryJoin`,
`RegistryLoad` (overlapping loads), `RegistryListener` (LISTEN/NOTIFY), `RegistryRecovery` (its way
back from every state), `MetadataDocument`, `MetadataAccepted` and `MetadataBuilder` (validator and
builder in two packages).

Timed stores: `JwksCache`, `RateLimiter`, `IpRateLimitKey`, `UpstreamRecheck`, `UpstreamOutcomes`,
`LoginThrottle`, `JtiStore`, `SigningKeys`; and `TrustPolicy` (domain matching).

Objects that the program updates in place are classes, its loops are loops; each method is proved
against a function on snapshots, and runs are built from those functions.

## Assumptions

- Time is a number of milliseconds that never goes back; a real number only where the program
  meets one (`exp` of an assertion).
- Random values never repeat: the protocol names a value by the position at which it was drawn.
  Digests are injective, the truncated fingerprint included. User codes do not repeat either.
- A database statement together with the code up to the next `await` is one step, and a
  transaction is one step: isolation is serializable. A statement's condition is evaluated at
  that step; values the handler computed earlier are as old as they are in the program.
- A grant is named by its unique key; the program never deletes grant rows.
- Client resolution and authentication, an active user with a passed upstream check, and the
  success of a transaction are one nondeterministic answer per step; cookies and CSRF tokens are
  part of whether a step may happen at all.
- The history fields (`via` on rows, `hist` on the world, and those so described elsewhere) are
  read by no guard.
- An assertion's expiry check by the library and the bookkeeping after it are one step.

## Where a plausible claim fails

- A code exchange checks the grant before its transaction. One that has passed the check when the
  user revokes the grant leaves a live refresh token behind, exactly when its code is not consumed
  and offline access was asked for (`ProtocolTheorems.StraddlingExchange`). Redeeming it is refused
  while the grant stays revoked, but completing any approval for the same user, client and
  resource revives it (`ReapprovalRevivesStraddler`). `ProtocolWitnesses.StraddlingIsReached` is a run from
  an empty server through all of this. Nothing else gets through a revoked grant
  (`ProtocolRevokedGrants.RevokedGrantYieldsOnlyOldExchanges`).
- Losing a rotation is not always reuse. `packages/proxy/src/cleanup.ts:8-11` says that pruning
  never removes what a concurrent request still considers valid, but a rotation that its token's
  expiry and pruning overtake revokes the whole family
  (`ProtocolTheorems.PrunedRotationRevokesFamily`, reached in
  `ProtocolWitnesses.PrunedRotationIsReached`; the exact cases are in `LostRotation`).
- Losing a code is not always a replay, as `packages/proxy/src/oauth/token.ts:247-250` has it: the
  row may be gone because another request presented the code with a wrong redirect URI
  (`ProtocolWitnesses.BurntCodeIsReached`; the exact cases are in `ProtocolTheorems.LostExchange`).
- The registry can go back to older contents, because generations order the starts of loads and
  not their reads (`RegistryLoad.RegistryCanGoBack`): exactly when a load overtakes the one the
  registry was built from (`WhenTheRegistryGoesBack`), and never where loads start one after
  another's read (`SerialLoadsNeverGoBack`).
- An accept quotes the fingerprint of a document, not of the list of changes reviewed. When the
  server withdrew a scope in between and then published the first document again, the accept
  restores a scope the list did not name (`PendingMetadata.ReviewCanGoStale`). The accept makes
  exactly the changes reviewed if and only if no document fetched in between withdrew a scope then
  in force or added a flag to it (`PendingReview.WhenReviewStaysCurrent`).
- Merging can leave a step-up scope in `scopesSupported` (`Metadata.MergeCanExposeStepUp`, exact
  condition in `MergeHidesStepUp`).
- A caller that joins a running upstream re-check can be let through on a confirmation that is
  24 hours or more older than its call (`UpstreamRecheck.JoinersMayBeLate`): exactly when nothing
  younger is confirmed at the call and the check it joins can still allow, in one of three phases
  (`WhenAJoinerIsLate`). The bound always holds from the start of the check
  (`AllowedMeansConfirmed`).
- A re-check overwrites a sign-in that landed in it exactly when the sign-in left the token and the
  check time as the check had read them (`UpstreamRecheck.UpdateHitsSignIn`); a run in which it
  does is `SignInCanBeOverwritten`.
- An assertion whose `exp` has a fraction can be accepted twice once its entry has been swept
  (`JtiStore.ReplayOtherwise`); `WhenReplayable` and `WhenEntryOutlives` give the exact assertions.
- The login limit holds per 15 minutes less the time an attempt may take to be decided
  (`LoginThrottle.AttemptsAreThrottled`) and for no longer stretch (`WhenTheLimitHolds`), so per
  full 15 minutes only when that time is zero (`FullWindowTakesNoDelay`).
- A token signed more than 6300 seconds after its key's retirement can outlive the key's
  publication (`SigningKeys.TokensStayVerifiable`); a run does so for every signature from 6301
  seconds on (`LateSignatureIsReached`).
- A rotation for a compromise removes all the keys it listed, unless another rotation has put a new
  key in use before it commits: then it rolls back and they stay published
  (`SigningKeys.CompromiseRemovesAll`).
- An IPv4-mapped address shares the budget of its IPv4 address only in the spelling
  ::ffff:a.b.c.d (`IpRateLimitKey.OnlyOneMappedSpelling`).

## Model

| member | source | states |
|---|---|---|
| ResourceRegistry.Mint | packages/proxy/src/crypto/access-token.ts:53-85 | a token has exactly the asked scopes the server declares, exactly the claims released, consented and present, and lives 300 s exactly when one of its scopes is short-lived, else 900 s |
| ResourceRegistry.RefreshableScopes | packages/proxy/src/crypto/refresh-token.ts:24-32 | of a registered resource keeps exactly the scopes that are not short-lived and that the server declares, offline_access excepted; of another one all |
| ResourceRegistry.PermittedScopes | packages/proxy/src/crypto/refresh-token.ts:38-46 | keeps exactly the scopes whose group gates the user passes, whatever the server declares under that name |
| ResourceRegistry.FirstForbidden | packages/proxy/src/oauth/consent.ts:227-233 | names a requested scope whose group gate fails, and none exactly when every gate passes |
| ResourceRegistry.ConsentedClaimNames | packages/proxy/src/identity/released-claims.ts:27-29 | exactly the claims both released now and consented to |
| Tables.ApprovalIssuesCode | packages/proxy/src/oauth/consent.ts:173-199 | the first completion of a request leaves one unused code for what was approved, ten minutes long and under a live grant; a later one changes nothing |
| Database.Store.ExchangeCode | packages/proxy/src/oauth/token.ts:225-245 | claims the code once and issues its refresh token, or, when that fails, leaves the whole database as it was |
| Database.Store.RedeemDevice | packages/proxy/src/oauth/token.ts:554-574 | the same for a device code, with the grant checked inside the transaction |
| Database.Store.Rotate | packages/proxy/src/oauth/token.ts:392-413 | succeeds exactly for a token neither rotated nor revoked, and creates its one successor or rolls back |
| Database.Store.RevokeDescendants | packages/proxy/src/oauth/token.ts:88-97 | stamps exactly the live refresh tokens of the grant and counts them |
| Database.Store.IssueRefreshToken | packages/proxy/src/crypto/refresh-token.ts:59-79 | adds one token of a new chain, or nothing |
| Database.Store.MarkConsumed | packages/proxy/src/oauth/token.ts:226-230 | counts one exactly for a code not consumed before |
| Database.Store.Consume | packages/proxy/src/oauth/consent.ts:123-126 | only the first completion of a request is told so |
| Database.Store.UpsertGrant | packages/proxy/src/oauth/consent.ts:439-461 | the grant is live afterwards, without short-lived scopes and with no claim beyond its old ones and those shown and still released; no other grant is touched |
| Database.Store.IssueCode | packages/proxy/src/oauth/consent.ts:181-199 | consumption, grant and code happen together or not at all |
| Database.Store.CompleteFlow | packages/proxy/src/oauth/consent.ts:130-171 | a device code is approved only while pending, unexpired and of the same client; a stale one leaves no grant |
| Database.Store.RevokeGrant | packages/proxy/src/oauth/grants.ts:171-174 | stamps the grant and all its live refresh tokens |
| Database.Store.PruneExpired | packages/proxy/src/cleanup.ts:12-24 | removes exactly the expired rows of four tables; what is not expired, and every grant, stays as it is |
| Database.ApprovalAccumulates | packages/proxy/src/oauth/consent.ts:435-461 | after an approval the grant is live and has exactly the scopes of both sides that are not short-lived, and exactly its old claims plus those shown and still released |
| TokenChains.RunKeepsChains | packages/proxy/src/oauth/token.ts:390-413 | in every reachable table a successor exists, is newer, agrees on user, client, resource, grant and expiry, has no more scopes, and has one predecessor |
| TokenChains.Tail | packages/proxy/src/oauth/token.ts:390-413 | every token leads to an un-rotated one |
| TokenChains.OneTail | packages/proxy/src/oauth/token.ts:390-413 | ... and to only one |
| TokenChains.ChainMembersAgree | packages/proxy/src/oauth/token.ts:399-411 | all members of a chain share user, client, resource, grant and expiry; scopes only shrink along it |
| TokenChains.ChainsAreLinear | packages/proxy/src/oauth/token.ts:392-413 | chains never merge |
| TokenChains.PruneTakesWholeChains | packages/proxy/src/cleanup.ts:8-19 | pruning removes a chain wholly or not at all |
| TokenChains.RevokedNeverRedeemed | packages/proxy/src/oauth/token.ts:88-97 | a token that a revocation selected is never redeemed later, whatever operations follow |
| TokenChains.LiveTokensAreNewlyIssued | packages/proxy/src/oauth/token.ts:88-97 | after a family was revoked, each live token of the grant descends from one issued since |
| Protocol.TokenStepDb | packages/proxy/src/oauth/token.ts:99-594 | what any step of a token or revocation request does to the tables |
| ProtocolChains.StepIsOp | packages/proxy/src/oauth/token.ts:225-413 | every step of the whole server is one operation on the refresh-token table |
| ProtocolChains.RunKeepsSnapshots | packages/proxy/src/oauth/token.ts:269-413 | the chain invariant holds in every reachable state, and every row a request holds still agrees with the database in all that does not change |
| ProtocolChains.RevokedTokenNeverRedeemed | packages/proxy/src/oauth/token.ts:83-97 | no token response after a revocation redeems a token it revoked, in any interleaving |
| ProtocolChains.LiveTokensDescendFromLaterClaims | packages/proxy/src/oauth/token.ts:184-253 | after a code replay, reuse or other revocation of a family, every live token of the grant goes back to a code or device-code claim committed after it |
| ProtocolTrace.RunKeepsTrace | packages/proxy/src/oauth/consent.ts:354-461 | every code, device code, refresh token, grant claim and flight is backed by an approval of the same user, client and resource |
| ProtocolResponses.EveryAccessTokenTraces | packages/proxy/src/crypto/access-token.ts:57-70 | each access token stems from one approved request and was minted from the registry entry in force at a moment before its response: its scopes were asked for and that entry declares them, its claims that entry releases and the page of an approved request of the same three listed, its lifetime is 300 s exactly when a scope is short-lived there, and at a refresh the user was in a group of every gated scope kept |
| ProtocolResponses.EveryCodeResponseIsEarned | packages/proxy/src/oauth/token.ts:99-267 | at each step of its exchange the state of that moment passed the check made there: code in time, unused and proved, client authenticated, grant live, user active, code still unused; the response says what these states determine |
| ProtocolResponses.EveryRefreshIsEarned | packages/proxy/src/oauth/token.ts:269-430 | the same for a refresh: token in time, unrotated and unrevoked, resource registered, grant live, user active, row still unclaimed; its scopes are exactly those of the redeemed row that were declared, not short-lived and open to the user's groups when the user was checked |
| ProtocolResponses.EveryDeviceResponseIsEarned | packages/proxy/src/oauth/token.ts:432-594 | the same for a poll of an approved device code |
| ProtocolRequests.WhenAnExchangeSucceeds | packages/proxy/src/oauth/token.ts:99-267 | in every reachable state an exchange on its own succeeds exactly under these conditions; otherwise an expired code, or an unused one with a wrong client or redirect URI, is deleted, a proved replay revokes the family, and anything else changes nothing |
| ProtocolRequests.WhenARefreshSucceeds | packages/proxy/src/oauth/token.ts:269-430 | the same for a refresh; reuse revokes the family, another refused refresh changes nothing |
| ProtocolRequests.WhenAPollSucceeds | packages/proxy/src/oauth/token.ts:432-594 | the same for a poll: expired and denied codes are deleted, a pending one is marked and slowed down by 5 s when polled too fast, an approved one is redeemed, or used up without a live grant |
| ProtocolRequests.WhenARevocationRevokes | packages/proxy/src/oauth/grants.ts:184-247 | a revocation request on its own revokes the token's family exactly when the token's client asks and authenticates, and otherwise changes nothing |
| ProtocolTheorems.SingleUse | packages/proxy/src/oauth/consent.ts:118-126 | no request completes or is approved twice, and no code, device code or refresh token is behind two token responses |
| ProtocolOnce.RunKeepsOnce | packages/proxy/src/oauth/token.ts:225-256 | what was redeemed stays spent, and what is spent was redeemed |
| ProtocolResponses.EveryCodeResponseWasProved | packages/proxy/src/oauth/token.ts:131-182 | the request that redeems a code presented it before it expired, with the approved client, redirect URI and PKCE verifier, and authenticated in between |
| ProtocolTheorems.ReplayedCodeRevokesFamily | packages/proxy/src/oauth/token.ts:184-190 | for the arrival and first two steps of one request, taken in a row: presenting a redeemed code with all proofs revokes every refresh token of its grant, presenting a fresh one has revoked none by then (with other requests in between: LiveTokensDescendFromLaterClaims) |
| ProtocolTheorems.ReusedTokenRevokesFamily | packages/proxy/src/oauth/token.ts:313-319 | the same three steps in a row for a refresh token: a rotated one revokes the family, another one has revoked none by then |
| ProtocolTheorems.LostRotation | packages/proxy/src/oauth/token.ts:392-418 | a rotation turns into a revocation of the family exactly when the token was redeemed, revoked, or its row is gone |
| ProtocolTheorems.LostExchange | packages/proxy/src/oauth/token.ts:246-254 | an exchange turns into a revocation of the family exactly when the code was redeemed or its row is gone |
| ProtocolTheorems.PrunedRotationRevokesFamily | packages/proxy/src/cleanup.ts:8-19 | so pruning in the middle of a rotation revokes the family's other tokens |
| ProtocolTheorems.StraddlingExchange | packages/proxy/src/oauth/token.ts:192-245 | an exchange past its grant check leaves a live refresh token under a grant revoked meanwhile exactly when its code is not consumed and offline access was asked for |
| ProtocolTheorems.ReapprovalRevivesStraddler | packages/proxy/src/oauth/consent.ts:455-459 | a refresh with such a token fails the grant check, and passes it right after a later approval, OAuth or device flow, exactly when that approval completes |
| ProtocolWitnesses.StraddlingIsReached | packages/proxy/src/oauth/token.ts:192-245 | a run from an empty server to a straddling exchange, and on to a second approval that meets a refresh with its token under the revoked grant |
| ProtocolWitnesses.PrunedRotationIsReached | packages/proxy/src/cleanup.ts:8-19 | a run from an empty server to a rotation that pruning overtakes, with another token of the grant |
| ProtocolWitnesses.BurntCodeIsReached | packages/proxy/src/oauth/token.ts:136-144 | a run from an empty server to an exchange whose code another request burnt, never redeemed |
| ProtocolTheorems.FailedIssueLeavesCredential | packages/proxy/src/oauth/token.ts:218-224 | a failed issuing transaction changes nothing, so the credential can be presented again |
| ProtocolTheorems.ScopeFieldAgrees | packages/proxy/src/oauth/token.ts:260-266 | the response's scope field equals the token's scope claim exactly when all the credential's scopes were declared and offline_access is not among them |
| ProtocolRevokedGrants.RevokedGrantYieldsOnlyOldExchanges | packages/proxy/src/oauth/token.ts:192-198 | while a grant stays revoked, and its tokens were revoked with it, each token response for it is the last step of a code exchange that was past its grant check when the grant was revoked |
| ProtocolApprovals.OneInitialResponsePerApproval | packages/proxy/src/oauth/consent.ts:143-199 | of all token responses that stem from one approval, at most one is not a rotation |
| ProtocolConsent.EveryApprovalPassedItsGates | packages/proxy/src/oauth/consent.ts:387-433 | every approval goes back to one submission by the signed-in user of that very request, after which group gates and the fresh sign-in were checked against the registry entry acted on |
| ConsentOutcomes.WhenConsentIsGranted | packages/proxy/src/oauth/consent.ts:280-472 | in every reachable state a visit or approving submission on its own is granted exactly for the signed-in user of an open request whose gates pass; it leaves the code or approved device row and the grant that accumulates; a failed gate ends the request; a view pins its claims |
| ConsentOutcomes.WhatADenialEnds | packages/proxy/src/oauth/consent.ts:130-219 | a denial consumes the request and denies its pending device code, and nothing else |
| ConsentOutcomes.WhatAuthorizeStores | packages/proxy/src/oauth/authorize.ts:158-203 | an authorization request is stored as it came, for a registered resource and declared scopes only, with a fresh sign-in demanded where a scope needs one |
| ConsentOutcomes.WhatADeviceCodeStarts | packages/proxy/src/oauth/device.ts:155-205 | a device code starts pending for 15 minutes, for a registered resource and declared scopes only |
| ConsentOutcomes.WhatAnEnteredCodeOpens | packages/proxy/src/oauth/device.ts:267-293 | entering a pending device's code opens a request for what the device asked for, as long as its code lasts |
| Revocations.WhatAUserRevokes | packages/proxy/src/oauth/grants.ts:171-174 | the user's own revocation stamps the grant and its live tokens, and nothing else |
| Revocations.WhatADenialRevokes | packages/proxy/src/clients/denylist.ts:128-140 | a denial stamps the live grants of the clients and their live tokens; the clients have no live grant then |
| Revocations.WhatARemovalRevokes | packages/proxy/src/resource-servers/service.ts:495-505 | removing a server leaves no live grant or token for it |
| Revocations.WhatADeactivationRevokes | packages/proxy/src/cli/local-user.ts:90-115 | deactivating a user leaves no live grant or token of theirs |
| Metadata.PendingChanges | packages/proxy/src/resource-servers/metadata-changes.ts:62-77 | computes the list of changes, in order |
| Metadata.WhatIsListed | packages/proxy/src/resource-servers/metadata-changes.ts:46-82 | the list names exactly the new scopes, the flags that scopes lose and the descriptions that differ |
| Metadata.NoChangesIsNoWider | packages/proxy/src/resource-servers/metadata-changes.ts:60-82 | the list is empty exactly when every scope of the candidate is within an approved one |
| Metadata.MergeMetadata | packages/proxy/src/resource-servers/metadata-changes.ts:88-104 | computes the merged document |
| Metadata.MergedInFields | packages/proxy/src/resource-servers/metadata-changes.ts:84-104 | the merge has the scopes of both documents, each with its approved text and the flags of both, and keeps everything else of the approved one |
| Metadata.MergeIsMeet | packages/proxy/src/resource-servers/metadata-changes.ts:84-104 | the merge is the greatest document that is no wider than the approved one and honours the candidate's withdrawals and flags |
| Metadata.MergeTwice | packages/proxy/src/resource-servers/metadata-changes.ts:88-104 | merging the same candidate again changes nothing |
| Metadata.MergeKeepsChanges | packages/proxy/src/resource-servers/metadata-changes.ts:60-104 | the candidate widens the merge by exactly the list by which it widens the approved document |
| Metadata.NarrowingIsTakenWhole | packages/proxy/src/resource-servers/service.ts:429-430 | for a candidate that widens nothing, storing it and merging it come to the same scopes |
| Metadata.MergeIsWellFormed | packages/proxy/src/resource-servers/metadata-changes.ts:88-104 | merging keeps names unique, flags nested and the list of advertised scopes declared |
| Metadata.MergeHidesStepUp | packages/proxy/src/resource-servers/metadata-changes.ts:97-102 | the merge advertises no step-up scope exactly when the candidate makes none step-up that the approved document advertises |
| Metadata.MergeCanExposeStepUp | packages/proxy/src/resource-servers/metadata-changes.ts:97-102 | two valid documents for which it does |
| Fingerprint.SortPermutes | packages/proxy/src/resource-servers/metadata-changes.ts:41-44 | the canonical order loses and adds nothing |
| Fingerprint.FingerprintsAgree | packages/proxy/src/resource-servers/metadata-changes.ts:41-58 | fingerprints agree exactly when the names and the sets of scopes do |
| Fingerprint.SameFingerprintSameWidening | packages/proxy/src/resource-servers/metadata-changes.ts:52-58 | equal fingerprints widen a document alike |
| PendingMetadata.ServerRow.constructor | packages/proxy/src/resource-servers/service.ts:263-274 | the first document is in force, with nothing pending |
| PendingMetadata.ServerRow.StoreFetched | packages/proxy/src/resource-servers/service.ts:421-445 | the row afterwards, and that a new pending document is reported exactly when the operator would see a new fingerprint |
| PendingMetadata.ServerRow.RecordFailure | packages/proxy/src/resource-servers/service.ts:412-417 | a failed fetch changes only the error and the attempt time |
| PendingMetadata.ServerRow.AcceptPending | packages/proxy/src/resource-servers/service.ts:461-480 | installs a document with the quoted fingerprint exactly when that one is pending; otherwise changes nothing |
| PendingMetadata.PendingIsShown | packages/proxy/src/resource-servers/service.ts:83-88 | in every run a pending document is shown exactly when one is stored, with a clock and its changes; right after a fetch they are the changes over the document in force before |
| PendingMetadata.PendingSinceIsStretchStart | packages/proxy/src/resource-servers/service.ts:431-439 | pendingSince is the time of the fetch that began the current unbroken stretch of equal fingerprints |
| PendingMetadata.StretchHasStart | packages/proxy/src/resource-servers/service.ts:431-439 | every pending document has such a stretch |
| PendingMetadata.ReviewStaysCurrent | packages/proxy/src/resource-servers/service.ts:431-439 | within a stretch of equal fingerprints the document in force stays the same |
| PendingMetadata.ReviewCanGoStale | packages/proxy/src/resource-servers/service.ts:458-471 | across a break an equal fingerprint can come with more changes than were reviewed |
| PendingReview.ListStaysExactlyWhenScopesStay | packages/proxy/src/resource-servers/metadata-changes.ts:60-104 | over two documents in force, the later no wider, the candidate makes the same changes exactly when no scope was lost or tightened |
| PendingReview.WhenReviewStaysCurrent | packages/proxy/src/resource-servers/service.ts:458-480 | over any run without an accept that ends with the reviewed fingerprint pending, an accept makes exactly the changes reviewed if and only if no document fetched in between withdrew or tightened a scope then in force |
| PendingReview.StretchKeepsReview | packages/proxy/src/resource-servers/service.ts:431-439 | in particular within one stretch of equal fingerprints |
| PendingMetadata.RefreshesOnlyNarrow | packages/proxy/src/resource-servers/service.ts:395-400 | without an accept, no sequence of documents and fetches ever widens what is in force |
| PendingMetadata.RefreshesOnlyTighten | packages/proxy/src/resource-registry.ts:56-81 | so under a fixed policy the registry entry only tightens |
| PendingMetadata.OnlyAcceptWidens | packages/proxy/src/resource-servers/service.ts:458-480 | whatever is wider than an earlier document came with an accept that quoted a fingerprint at least as wide |
| RegistryJoin.JoinResourceServer | packages/proxy/src/resource-registry.ts:56-81 | computes the join that the next two rows characterise |
| RegistryJoin.EntryOfRow | packages/proxy/src/resource-registry.ts:56-81 | a row is registered exactly when it is enabled and has a readable snapshot, under its own identifier, name and claims, with each declared name once |
| RegistryJoin.PolicyTakesEffect | packages/proxy/src/resource-registry.ts:62-79 | the first declaration of a name is found under the last policy of it: gated by the policy's groups, with the flags of both and the policy's text; without a policy just as declared |
| RegistryJoin.PolicyOnlyTightens | packages/proxy/src/resource-registry.ts:51-55 | policy never relaxes a flag the server declares |
| RegistryJoin.NarrowerJoinsTighter | packages/proxy/src/resource-registry.ts:51-81 | a narrower document joins to an entry with no gate relaxed |
| RegistryJoin.TighterIssuesLess | packages/proxy/src/crypto/refresh-token.ts:24-46 | and a refresh keeps no scope under it that it would not have kept before (offline_access being reserved) |
| RegistryLoad.RegistryStore.FinishLoad | packages/proxy/src/resource-registry.ts:105-112 | swaps in the joined rows unless a later load was applied |
| RegistryLoad.WhatARegistryHolds | packages/proxy/src/resource-registry.ts:100-112 | a registry built from rows holds exactly the entries of the rows that have one |
| RegistryLoad.FreshnessBound | packages/proxy/src/resource-registry.ts:90-113 | once a load that started at a database version has finished, the registry is that of that version or a later one for ever |
| RegistryLoad.RegistryCanGoBack | packages/proxy/src/resource-registry.ts:90-113 | a run in which the contents go back to the older version |
| RegistryLoad.WhenTheRegistryGoesBack | packages/proxy/src/resource-registry.ts:90-113 | a success goes back exactly when its load overtakes the registry's own: started no earlier, read an older version; the two then overlap |
| RegistryLoad.SerialLoadsNeverGoBack | packages/proxy/src/resource-registry.ts:90-113 | where no load starts before the earlier ones have read, the contents never go back |
| RegistryListener.ListenerState.RequestReload | packages/proxy/src/resource-servers/registry-listener.ts:58-68 | joins a running reload by queueing one more, or starts one |
| RegistryListener.ListenerState.EndLoad | packages/proxy/src/resource-servers/registry-listener.ts:69-84 | the follow-up, the retry sleep or the end of a reload |
| RegistryListener.ListenerState.Wake | packages/proxy/src/resource-servers/registry-listener.ts:75-78 | a retry, unless stopped |
| RegistryListener.ListenerState.ConnectionLost | packages/proxy/src/resource-servers/registry-listener.ts:93-104 | schedules one reconnect and doubles the back-off |
| RegistryListener.QuiescentMeansCurrent | packages/proxy/src/resource-servers/registry-listener.ts:51-128 | no lost wakeup: while listening with no reload under way, the last load started after the last notification; with none outstanding the registry is the current table |
| RegistryListener.BurstCoalesces | packages/proxy/src/resource-servers/registry-listener.ts:51-62 | any number of notifications during a load queue one further load |
| RegistryListener.BackoffGrows | packages/proxy/src/resource-servers/registry-listener.ts:118-138 | until a connection proves stable no later reconnect waits less |
| RegistryRecovery.RegistryCatchesUp | packages/proxy/src/resource-servers/registry-listener.ts:51-138 | from every reachable state of a running listener there is a way to one that listens at rest with the registry current |
| RegistryRecovery.AlwaysReconnects | packages/proxy/src/resource-servers/registry-listener.ts:91-128 | a running listener always has a connection, is making one or has a timer for one; a stopped one has neither |
| RegistryRecovery.ReconnectsAfter | packages/proxy/src/resource-servers/registry-listener.ts:130-138 | the wait after a lost connection is 1, 2, 4, ... s, at most 60 s, counted from the last start or stable connection |
| RegistryRecovery.WhatEndsALoad | packages/proxy/src/resource-servers/registry-listener.ts:64-84 | success ends the reload or starts the queued one, a failure is retried after its delay unless stopped |
| RegistryRecovery.WhatAWakeDoes | packages/proxy/src/resource-servers/registry-listener.ts:75-79 | a retry doubles the delay up to a minute |
| MetadataDocument.ParseScopesSupported | packages/proxy/src/resource-servers/metadata.ts:136-153 | computes the list or the first error |
| MetadataDocument.ParseDeclaredScopes | packages/proxy/src/resource-servers/metadata.ts:155-183 | computes the declared scopes or the first error |
| MetadataDocument.ValidIsWellFormed | packages/proxy/src/resource-servers/metadata.ts:186-238 | an accepted document has unique names, nested flags, advertises only what it declares and no step-up scope, and is about its identifier and this issuer |
| MetadataAccepted.WhatIsAccepted | packages/proxy/src/resource-servers/metadata.ts:136-238 | an accepted document is read as what its members say, in every field |
| MetadataAccepted.WhenADocumentIsAccepted | packages/proxy/src/resource-servers/metadata.ts:136-238 | a document is accepted exactly when it says something acceptable: resource and issuer, names, descriptions, flags, counts, advertisement |
| MetadataBuilder.WhenOptionsAreAccepted | packages/asterism-verify/src/express.ts:178-212 | options are accepted exactly when name and descriptions are fit for display, scopes come in one form, and there are at most 50 usable and different ones |
| MetadataBuilder.WhatIsAdvertised | packages/asterism-verify/src/express.ts:213-220 | the document lists offline_access exactly when asked for, and of declared scopes those without step-up and fresh sign-in |
| MetadataBuilder.ValidateScopes | packages/asterism-verify/src/express.ts:197-210 | finds the first scope the builder refuses |
| MetadataBuilder.BuiltDocumentsValidate | packages/asterism-verify/src/express.ts:178-230 | a built document is accepted exactly when the server has a scope of its own and at most 50 entries are advertised, and parses back to the same name and scopes in order with the implications applied |
| JwksCache.Cache.GetKey | packages/asterism-verify/src/jwks-cache.ts:175-194 | the answer or the fetch joined or started |
| JwksCache.Cache.Settle | packages/asterism-verify/src/jwks-cache.ts:224-236 | the new key set, or the back-off |
| JwksCache.Cache.Resume | packages/asterism-verify/src/jwks-cache.ts:196-207 | the answer after the fetch |
| JwksCache.Cache.NoteMiss | packages/asterism-verify/src/jwks-cache.ts:215-221 | remembers the miss and, when full, forgets exactly the old ones first |
| JwksCache.FetchesArePaced | packages/asterism-verify/src/jwks-cache.ts:181-194 | one fetch at most in flight, starts a second apart and five after a failed one, at most 1000 misses remembered |
| JwksCache.WindowBound | packages/asterism-verify/src/jwks-cache.ts:3-7 | a window of w ms holds at most w/1000 + 1 fetch starts |
| JwksCache.ReturnedKeysAreCurrent | packages/asterism-verify/src/jwks-cache.ts:168-213 | a key handed out is the first of the id asked for in the last set fetched, which was fetched by the call's own fetch or a later one, or was at most maxStaleMs old when the call decided |
| JwksCache.RefusalsAreReal | packages/asterism-verify/src/jwks-cache.ts:184-206 | unavailable means never fetched, stale means too old (and, after a fetch, that it failed), and unknown means not in the last set |
| JwksCache.WhenACallFetches | packages/asterism-verify/src/jwks-cache.ts:175-194 | a fresh key is answered at once; otherwise a call joins the fetch in flight or starts one exactly when its key was not missed within 5 s and the last start is 1 s, or 5 s if it failed, ago |
| JwksCache.FetchedSetIsLast | packages/asterism-verify/src/jwks-cache.ts:223-236 | a fetched set replaces the last one, fresh for its time to live but at most maxStaleMs; a failed fetch leaves it |
| JwksCache.MissesAreReal | packages/asterism-verify/src/jwks-cache.ts:206-221 | what is remembered as missed was missed at that time in the last set |
| JwksCache.MissIsRemembered | packages/asterism-verify/src/jwks-cache.ts:215-221 | a miss is remembered until another set comes or 1000 are |
| JwksCache.ManyMisses | packages/asterism-verify/src/jwks-cache.ts:215-221 | when full, the misses older than 5 s go, and all only when there are 1000 younger ones |
| RateLimiter.IpRateLimiter.Hit | packages/proxy/src/rate-limit.ts:60-76 | the windows and the answer after a hit |
| RateLimiter.IpRateLimiter.Sweep | packages/proxy/src/rate-limit.ts:52-57 | removes the expired windows |
| RateLimiter.EventKeepsOrdered | packages/proxy/src/rate-limit.ts:64-72 | insertion order is the order of window starts, and the size stays within the bound |
| RateLimiter.SweepingIsInvisible | packages/proxy/src/rate-limit.ts:49-83 | sweeps at any times change no answer |
| RateLimiter.SizeIsBounded | packages/proxy/src/rate-limit.ts:68-71 | the map never holds more than maxEntries addresses |
| RateLimiter.TwiceTheLimit | packages/proxy/src/rate-limit.ts:22-34 | in any stretch shorter than a window, an address whose running window is not evicted is served at most twice its limit |
| RateLimiter.RefusedOnlyAtTheLimit | packages/proxy/src/rate-limit.ts:60-76 | behind every refusal are as many served hits of the address, within less than a window, as the limit allows |
| RateLimiter.WaitIsEnough | packages/proxy/src/rate-limit.ts:73-75 | an address that waits as told is served next time, whatever the others do meanwhile |
| RateLimiter.WaitIsTight | packages/proxy/src/rate-limit.ts:73-73 | and is told less than a second more than needed |
| IpRateLimitKey.KeysAgree | packages/proxy/src/rate-limit.ts:7-20 | two addresses share a key exactly when both are, or map in the form ::ffff:a.b.c.d, the same IPv4 address, or both are other IPv6 addresses whose first 64 bits agree, however spelled |
| IpRateLimitKey.OnlyOneMappedSpelling | packages/proxy/src/rate-limit.ts:9-10 | a mapped address in another spelling is counted apart from its IPv4 address |
| UpstreamOutcomes.OutcomeDecides | packages/proxy/src/identity/upstream-refresh.ts:65-157 | what a provider's outcome does to row and verdict over a run: a disowned user loses the token, a confirmed one is stamped, nothing else changes, and every caller waiting is told accordingly |
| UpstreamOutcomes.DisownedUntilSignIn | packages/proxy/src/identity/upstream-refresh.ts:79-84 | after a rejection or a foreign subject every check refuses until a sign-in is stored |
| UpstreamOutcomes.WhenTheProviderIsAsked | packages/proxy/src/identity/upstream-refresh.ts:46-108 | the provider is asked exactly for a user of the configured issuer with a token, not checked within 5 minutes, unless it was out of reach within the last minute; how the other checks decide |
| UpstreamRecheck.Rechecks.Recheck | packages/proxy/src/identity/upstream-refresh.ts:32-38 | callers share the one check of a user |
| UpstreamRecheck.Rechecks.Conclude | packages/proxy/src/identity/upstream-refresh.ts:65-157 | verdict, write and back-off after the provider's answer, for this user only |
| UpstreamRecheck.Rechecks.Finish | packages/proxy/src/identity/upstream-refresh.ts:35-35 | the next call starts a new check |
| UpstreamRecheck.AllowedMeansConfirmed | packages/proxy/src/identity/upstream-refresh.ts:46-182 | an ok answer means the provider confirmed that subject less than 24 hours before the check began, or between then and the answer |
| UpstreamRecheck.JoinersMayBeLate | packages/proxy/src/identity/upstream-refresh.ts:32-38 | a run in which a joining caller's confirmation is older than 24 hours |
| UpstreamRecheck.WhenAJoinerIsLate | packages/proxy/src/identity/upstream-refresh.ts:32-38 | in every reachable state, a call can be let through on nothing younger than 24 hours exactly when nothing younger is confirmed and the check it joins asks the provider and may fail open, or has an allowing verdict on its way |
| UpstreamRecheck.LatePhasesAreReached | packages/proxy/src/identity/upstream-refresh.ts:66-73 | runs to such a state in each of the three phases |
| UpstreamRecheck.RejectionLasts | packages/proxy/src/identity/upstream-refresh.ts:79-84 | after a clear that took effect every re-check refuses until a sign-in is stored |
| UpstreamRecheck.SignInWins | packages/proxy/src/identity/upstream-refresh.ts:161-174 | a re-check overwrites a sign-in stored during it exactly when that left token and check time as read |
| UpstreamRecheck.UpdateHitsSignIn | packages/proxy/src/identity/upstream-refresh.ts:161-174 | over runs, the update of a check takes effect on a sign-in that landed in it, before or after the provider answered, exactly when the sign-in left token and check time as read |
| UpstreamRecheck.LaterSignInSurvives | packages/proxy/src/identity/upstream-refresh.ts:161-174 | a sign-in with another stamp is never overwritten by the check it landed in, also when the update was already on its way |
| UpstreamRecheck.SignInCanBeOverwritten | packages/proxy/src/identity/upstream-refresh.ts:161-174 | a run in which a sign-in of the same millisecond and without a new token is |
| LoginThrottle.FailureTable.Reserve | packages/proxy/src/identity/local-accounts.ts:85-104 | records the attempt exactly when both counts allow it |
| LoginThrottle.FailureTable.EndAttempt | packages/proxy/src/identity/local-accounts.ts:135-143 | a success removes its row and its key's rows, a failure nothing |
| LoginThrottle.WhenAnAttemptIsAdmitted | packages/proxy/src/identity/local-accounts.ts:70-104 | an attempt is admitted exactly when its address has fewer than 5 rows and its key fewer than 10, or 5, of the last 15 minutes; then it leaves one |
| LoginThrottle.SuccessForgives | packages/proxy/src/identity/local-accounts.ts:135-143 | after a success no row of its kind and key is left, and every other row is |
| LoginThrottle.OpenAttemptsCount | packages/proxy/src/identity/local-accounts.ts:135-147 | in every reachable state the rows of a key within 15 minutes are exactly the attempts admitted since its last success |
| LoginThrottle.AttemptsAreThrottled | packages/proxy/src/identity/local-accounts.ts:70-147 | under any overlap and pruning, a stretch of 15 minutes less the decision delay without a success admits at most the key's limit, and never do more than five rows of an address lie in the last 15 minutes |
| LoginThrottle.WhenTheLimitHolds | packages/proxy/src/identity/local-accounts.ts:70-104 | every stretch of L ms without a success is within the limit, in every run, exactly when L plus the decision delay is at most 15 minutes |
| LoginThrottle.LongerStretchOverflows | packages/proxy/src/identity/local-accounts.ts:71-71 | a run that exceeds the limit within any longer stretch |
| LoginThrottle.FullWindowTakesNoDelay | packages/proxy/src/identity/local-accounts.ts:71-71 | the limit holds for every full 15 minutes exactly when attempts are decided without delay |
| LoginThrottle.LocksAscend | packages/proxy/src/identity/local-accounts.ts:79-83 | lock names are taken in strictly ascending order |
| LoginThrottle.LocksMatchCounts | packages/proxy/src/identity/local-accounts.ts:76-89 | two attempts take a common lock exactly when they count for one address or have the same kind and key |
| LoginThrottle.NoDeadlock | packages/proxy/src/identity/local-accounts.ts:79-89 | so attempts never wait for each other in a circle |
| JtiStore.Store.Sweep | packages/proxy/src/oauth/client-assertion.ts:138-142 | removes exactly the expired entries |
| JtiStore.Store.Present | packages/proxy/src/oauth/client-assertion.ts:188-240 | the store and the answer after an assertion |
| JtiStore.WhenAccepted | packages/proxy/src/oauth/client-assertion.ts:188-240 | an assertion is accepted exactly within its window, dated at most a minute ahead, unseen, and with fewer than 50000 live entries; no live entry is ever dropped |
| JtiStore.WhenEntryOutlives | packages/proxy/src/oauth/client-assertion.ts:237-240 | an entry lives as long as its assertion verifies exactly when exp is a whole second or less than a millisecond below one |
| JtiStore.WholeSecondsOutlive | packages/proxy/src/oauth/client-assertion.ts:237-240 | in particular for whole seconds |
| JtiStore.NoReplay | packages/proxy/src/oauth/client-assertion.ts:222-240 | no such assertion is accepted twice in any run |
| JtiStore.ReplayOtherwise | packages/proxy/src/oauth/client-assertion.ts:237-240 | any other one that is not dated beyond its window is, in the run given |
| JtiStore.WhenReplayable | packages/proxy/src/oauth/client-assertion.ts:211-240 | some run accepts an assertion twice exactly when its entry does not outlive its window and its time of issue lies no later than a minute after that window's last second |
| JtiStore.StoreIsBounded | packages/proxy/src/oauth/client-assertion.ts:230-236 | the store never exceeds 50000 entries |
| JtiStore.EntriesExpireSoon | packages/proxy/src/oauth/client-assertion.ts:211-240 | an entry expires at most 420 seconds after it was made |
| SigningKeys.KeyTable.Insert | packages/proxy/src/crypto/signing-keys.ts:44-54 | a new active key is inserted exactly when there is none |
| SigningKeys.KeyTable.Rotate | packages/proxy/src/crypto/signing-keys.ts:107-121 | the rotation's transaction, or nothing |
| SigningKeys.OneActiveKey | packages/proxy/src/crypto/signing-keys.ts:34-37 | under any races at most one key is active, and once one was created one always is |
| SigningKeys.RotationRetires | packages/proxy/src/crypto/signing-keys.ts:100-126 | a rotation retires the key that was active when it began, unless it is gone or another has become active; then nothing changes |
| SigningKeys.CompromiseRemovesAll | packages/proxy/src/crypto/signing-keys.ts:100-126 | a rotation for a compromise removes every key listed, unless one made since is active; then nothing changes |
| SigningKeys.EveryTokenWasAsked | packages/proxy/src/crypto/signing-keys.ts:83-90 | each token has the lifetime its request asked for, and its key was active at some moment of that request |
| SigningKeys.WhenSigningGivesUp | packages/proxy/src/crypto/signing-keys.ts:38-66 | a request to sign gives up exactly when it found no active key after losing the race for a new one the third time |
| SigningKeys.TokensStayVerifiable | packages/proxy/src/crypto/signing-keys.ts:92-137 | without a compromised rotation since, an unexpired token's key is published as long as it was signed at most 6300 s after the key's retirement |
| SigningKeys.PublishedForLife | packages/proxy/src/crypto/signing-keys.ts:11-16 | a retired key is published for a token's whole life exactly when the token expires within two hours of the retirement |
| SigningKeys.LateSignatureIsReached | packages/proxy/src/crypto/signing-keys.ts:11-16 | a run from an empty table, without a purge, to an unexpired token whose key is no longer published, for every signature from 6301 s after the retirement on |
| TrustPolicy.SplitThenJoin | packages/proxy/src/clients/trust-policy.ts:100-103 | splitting a host into labels loses nothing |
| TrustPolicy.LookupAgreesWithScan | packages/proxy/src/clients/trust-policy.ts:77-103 | for all strings a domain is among a host and its parents exactly when the host is it or ends with a dot and it |
| TrustPolicy.RefusedExactlyWhenRevoked | packages/proxy/src/clients/denylist.ts:79-83 | the clients a denylist refuses are exactly those whose grants adding its entries revokes |

## Left out

- HTTP, routing, pages, cookies, CSRF, sessions, audit rows, metrics and logging: a request is its checked fields and a response is a value.
- Client metadata fetching (CIMD), DNS and redirect checks: resolving a client is a nondeterministic answer.
- Signatures, password hashing, PKCE digests and JWT encoding: a proof holds or not, and the verifier stands for its digest.
- Postgres isolation below serializable, foreign keys and cascades: the schema is not part of this model.
- The registry's rows and policies read by a load come from one snapshot, as in a single query.
- Key sets with entries that are not objects, and malformed stored snapshots other than an empty scope name.
- Splitting the text of an address into groups and zones, upper case, and the key of a missing address.
- The failed-entry limit of the device page and the key cache of client assertions: the same patterns as the limiter and the stores modelled.
- classifyUpstreamError: its three classes are the outcomes a provider's answer can have; which error falls into which is not stated.
- The contents of stored upstream claims: a claim is present or not, and groups are a set.
- Whether a user is active, and the upstream check of a refresh, are one answer in the protocol (what a deactivation revokes is a step of its own); UpstreamRecheck describes that check on its own.
- UpstreamRecheck.AllowedMeansConfirmed: counts from the start of the check rather than of the call, because the stronger claim is false (exactly in the cases of WhenAJoinerIsLate).
- LoginThrottle.AttemptsAreThrottled: allows for the decision delay, because the claim for anything longer is false (WhenTheLimitHolds).
- JtiStore.NoReplay: needs an entry that outlives its window, because the claim without that is false (WhenReplayable).
- RegistryLoad.FreshnessBound: bounds freshness from below only, because contents can go back (RegistryCanGoBack).
- CLIs, the admin pages and configuration, but for what they revoke.
