# Verified models of the VS Agent SDK

A Dafny 4.11 model of the state-keeping code of the VS Agent SDK (`packages/agent-sdk`), with proofs of
what that code promises over whole runs. `dafny verify dfyconfig.toml` checks everything.

Code that changes state between awaits is a state machine: one step is the code between two awaits, so
steps interleave wherever the event loop can interleave them, and an external call may fail, be late or
be interrupted. The same code appears as a class whose methods update fields in place; each method is
proved to take a step of the machine, or to compute the specification function. Pure code is functions.

Most main results end in "exactly when": where the code does not keep its promise in every environment,
the environment is a parameter, a lemma gives a concrete run that breaks the promise, and the main
result names the condition for all runs.

| area | files | what is proved |
|---|---|---|
| indexer synchronisation | IndexerSync, VeranaHelpers, RestCatchUp, CatchUpOrder, PromiseChain, IndexerProtocol, IndexerSafety, IndexerInvariant, IndexerGapFreedom, IndexerExactness, IndexerRecovery, IndexerService | commits at most once and in block order; the stored height is truthful exactly with an acknowledged subscription and blocks that fit a page; a lost session always has its reconnect coming, and a failed event is recovered; paging covers what one pass covers, and keeps its order exactly when no page ends inside a swap |
| single-use invitations | KeyedQueue, ParentConnection, ParentConnectionRepository, Election, Acceptances | one owner exactly if no record is saved twice; the election is confluent exactly if at most one connection is tagged; every acceptance is recorded, none is lost or doubled; all are reported exactly if no landed write is given up |
| AnonCreds trust decision | AnonCredsTrust, AnonCredsMemo, TrustDecision | two loops, grouping, deduplication and memo maps pass exactly the proofs whose every group comes from an accredited issuer of its own CredentialSchema; answers stay exactly if calls do not overlap |
| published material | JsonText, CanonicalJson, SortKeys, Fingerprints, PublicationTrigger, LinkedVpStore, SelfIssuedCredential | canonical texts determine values up to key order; every change is signalled and its document served exactly if updates neither overlap nor throw; services and entries stay in step; what an attached publication announces |
| recovery and caching | EcsBootstrap, EcsBootstrapRuns, EcsBootstrapService, AuthorizationCache | one entry per schema and role over interrupted boots, and the next boot completes it; a refresh covers its block even when skipped |
| DID location | DidLocation | base URL to DID and back |

Options and Strings hold the shared wrappers, the string order and decimal numerals.

## Assumptions about the surroundings

- Indexer: the log is append-only and ordered by block. A page holds the first `limit` log events above
  the cursor. Live messages arrive whole and in order. The hash in an event key contains no colon.
  Applying an event has an abstract effect that may fail; only the checkpoint is modelled.
- A `connect` call whose generation is stale, or whose service is stopped, returns at its next
  resumption and is not represented further. The agent has a public DID.
- The reads behind one link of a VTJSC count as one; different links and different calls may see
  different worlds.
- Storage reads answer copies. Ids of records and connections are never reused. A storage write lands
  while its await is open or never; the await of one that landed may still throw (a parameter where it
  matters).
- A transaction has one index in its block: only the exact order of the catch-up needs it.
- The indexer that the bootstrap reads is truthful about the chain at that moment; entries of the agent
  may be degraded at any time, but nobody else makes an unusable one usable again.
- JavaScript strings are sequences of Unicode scalar values. Where the source compares UTF-16 code
  units the order of characters beyond U+FFFF may differ; no result depends on it. `localeCompare` is a
  parameter, because whether it tells every two strings apart depends on the platform.
- Signatures, digests and the results of network reads are parameters.

## Promises that need a condition

- The indexer warns about a timed-out acknowledgement and about a block that fills a page. Both really
  lose events (`IndexerExactness.TimedOutSessionLosesEvent`, `IndexerExactness.OversizeBlockLosesEvent`).
- `tagAndSave` sets the tags on the record in memory before it stores it. A record whose save failed
  keeps them and can become a second owner (`ParentConnection.ResavedRecordClaimsTwice`).
- The pages of the catch-up are sorted one by one. Where a page ends inside a block, events of that block
  can be applied in another order than one sorted pass would (`CatchUpOrder.PageEndSwapsEvents`).
- `recordAcceptance` reports after its update has returned. If the update throws although storage took it,
  or the process restarts before it returns, the acceptance is stored and never reported, and the next
  report of the invitation is its first one and names `accepted` as the previous state
  (`Acceptances.GivenUpWriteIsNotReported`).
- `deriveCredentialSchema` reads its memo maps before its awaits and sets them after. Overlapping calls can
  answer differently and leave a derivation that contradicts the kept link
  (`AnonCredsMemo.OverlapContradicts`).
- `updateDidRecord` stores the record before it publishes the document. If publishing throws, or the write
  throws although storage took it, the change is neither published nor signalled; overlapping updates of
  one DID can do the same (`PublicationTrigger.EveryChangeIsSignalledIff`,
  `PublicationTrigger.DocumentIsServedIff`).
- `publicationFingerprint` hides the order of the services only if no two linked presentations share an id
  (`Fingerprints.SharedIdShowsOrder`).
- `sortKeysDeep` drops a key `__proto__` (`SortKeys.SortKeepsValueIff`).
- `saveMetadataEntry` with a credential that has no id can replace an unrelated entry without ids
  (`LinkedVpStore.SaveReplacesOnlyIff`).
- The fragment of a self-issued credential is not announced when a service of another kind holds its id.
  Nor is it announced again after its service was removed: a call with nothing to sign returns before it
  looks at the services (`SelfIssuedCredential.RemovedServiceStaysRemoved`).
- A boot that reads the chain while the transaction of an interrupted boot is still on its way starts a
  second entry.
- The documentation of `getDidWebHttpsBaseUrl` calls it the reverse of `derivePublicDidLocation`; with a
  character in host or path that is no letter, digit, dot, hyphen or underscore it is not.

## Model

| member | source | states |
|---|---|---|
| IndexerSync.EventKeyIdentifies | packages/agent-sdk/src/blockchain/indexerSync.ts:3-5 | two events have one key exactly when transaction, message index and type agree, for hashes without a colon |
| IndexerSync.SortIsStableSort | packages/agent-sdk/src/blockchain/indexerSync.ts:11-17 | the sort orders by block, transaction and message position, is a permutation, and keeps the order of equal positions |
| IndexerSync.SortOfSorted | packages/agent-sdk/src/blockchain/indexerSync.ts:11-17 | an ordered list is left as it is |
| IndexerSync.SortMembers | packages/agent-sdk/src/blockchain/indexerSync.ts:11-17 | sorting adds and drops no event |
| IndexerSync.CursorProgress | packages/agent-sdk/src/blockchain/indexerSync.ts:27-37 | after a full page above the cursor the next cursor is strictly greater, stays within the page, leaves the last block to be read again, and is flagged exactly when one block fills the page |
| VeranaHelpers.SyncStateStore.Save | packages/agent-sdk/src/blockchain/VeranaHelpers.ts:15-29 | a saved checkpoint is what the next load answers, whether the record existed or not |
| VeranaHelpers.CommitCovers | packages/agent-sdk/src/blockchain/IndexerWebSocketService.ts:275-292 | committing an uncovered event covers that event, what was covered, and beyond those exactly the events of lower blocks |
| VeranaHelpers.ApplyAllCovers | packages/agent-sdk/src/blockchain/IndexerWebSocketService.ts:270-293 | a pass covers its events and uncovers none |
| VeranaHelpers.PassCoverage | packages/agent-sdk/src/blockchain/IndexerWebSocketService.ts:270-293 | after a block-ordered pass an event is covered exactly when it was before, or the list holds an uncovered event that is the same or of a higher block: the order inside blocks does not matter |
| VeranaHelpers.PassAppliesNewEvents | packages/agent-sdk/src/blockchain/IndexerWebSocketService.ts:270-293 | a pass over a block-ordered list applies exactly the uncovered events, in order, repeats once |
| RestCatchUp.ApplyPage | packages/agent-sdk/src/blockchain/IndexerWebSocketService.ts:229-232 | the loop over a page leaves the checkpoint and the applied events of one pass over its list |
| RestCatchUp.SyncRest | packages/agent-sdk/src/blockchain/IndexerWebSocketService.ts:220-243 | the paging loop terminates and does what one pass over all page events does |
| RestCatchUp.CatchUpIsCompleteIff | packages/agent-sdk/src/blockchain/IndexerWebSocketService.ts:226-242 | the pages hold every event above the start exactly when no block above it has more events than a page |
| RestCatchUp.PagesRefineRest | packages/agent-sdk/src/blockchain/IndexerWebSocketService.ts:226-242 | from any cursor of a block-ordered log, the rewinding pages, each in log order, have the effect of one pass over the unread rest |
| RestCatchUp.CatchUpRefinesSinglePass | packages/agent-sdk/src/blockchain/IndexerWebSocketService.ts:220-243 | on a block-ordered log without oversize blocks the catch-up covers what one unpaged pass covers; it applies the processable events that the checkpoint does not cover, misses none, none twice, in block order |
| RestCatchUp.CatchUpMembers | packages/agent-sdk/src/blockchain/IndexerWebSocketService.ts:226-242 | the pages hand over exactly the processable events above the start |
| CatchUpOrder.CatchUpKeepsOrderIff | packages/agent-sdk/src/blockchain/IndexerWebSocketService.ts:228-241 | the catch-up applies the same events in the same order as one sorted pass, with the same checkpoint, exactly when no page ends between two new events of a block that the sort would swap |
| CatchUpOrder.PageEndSwapsEvents | packages/agent-sdk/src/blockchain/IndexerWebSocketService.ts:228-241 | a page that ends between two such events: the catch-up applies them in the other order |
| CatchUpOrder.SortedLogKeepsOrder | packages/agent-sdk/src/blockchain/IndexerWebSocketService.ts:228-241 | a log in position order is applied like one sorted pass, repeated events included |
| CatchUpOrder.RestInOrderIff | packages/agent-sdk/src/blockchain/IndexerWebSocketService.ts:228-241 | the same from any cursor on, for the position order of the applied events |
| IndexerSafety.StepKeepsInv | packages/agent-sdk/src/blockchain/IndexerWebSocketService.ts:93-293 | every step, of the client or its surroundings, keeps the safety invariant |
| IndexerSafety.CommitsAreSafe | packages/agent-sdk/src/blockchain/IndexerWebSocketService.ts:270-293 | in every run, whatever the acknowledgement and the block sizes: each (block, key) is committed at most once, committed blocks never decrease, and a generation with a failed live event commits no more |
| IndexerGapFreedom.StepKeepsInv | packages/agent-sdk/src/blockchain/IndexerWebSocketService.ts:93-293 | with a cooperative indexer every step keeps gap-freedom's invariant |
| IndexerGapFreedom.StoredHeightIsTruthful | packages/agent-sdk/src/blockchain/IndexerWebSocketService.ts:284-292 | every processable log event above the start and at or below the stored height has been committed, and no commit jumps over an uncommitted event of a lower block |
| IndexerGapFreedom.LiveSessionsLoseNothing | packages/agent-sdk/src/blockchain/IndexerWebSocketService.ts:118-131 | when a catch-up goes live every event in the log at its last read is committed or covered by the start, and once the queue is worked off so is every event the session was sent |
| IndexerGapFreedom.OnlyEventsCommit | packages/agent-sdk/src/blockchain/indexerSync.ts:7-9 | in every run each commit is that of an indexer event of the log with a positive block and a sender; nothing else is ever committed |
| IndexerExactness.TimedOutSessionLosesEvent | packages/agent-sdk/src/blockchain/IndexerWebSocketService.ts:104-114 | a catch-up that starts without the acknowledgement can miss an event for good |
| IndexerExactness.OversizeBlockLosesEvent | packages/agent-sdk/src/blockchain/IndexerWebSocketService.ts:234-241 | a block with more events than a page can lose one for good |
| IndexerExactness.HeightIsTruthfulIff | packages/agent-sdk/src/blockchain/IndexerWebSocketService.ts:93-293 | gap-freedom holds in every run exactly when the acknowledgement never times out and no block exceeds a page |
| IndexerRecovery.LostSocketHasTimer | packages/agent-sdk/src/blockchain/IndexerWebSocketService.ts:400-424 | in every reachable state, for any indexer, a client that was started, is not stopped and has no open socket has a reconnect timer pending |
| IndexerRecovery.StatusIsTrue | packages/agent-sdk/src/blockchain/IndexerWebSocketService.ts:72-76 | while the socket is open the status is synced exactly when the catch-up has finished, and catching up exactly while it is on its way |
| IndexerRecovery.LossIsReported | packages/agent-sdk/src/blockchain/IndexerWebSocketService.ts:400-424 | any step in which a running client loses its socket leaves the status disconnected, or never synced if it never was |
| IndexerRecovery.PagesCatchUp | packages/agent-sdk/src/blockchain/IndexerWebSocketService.ts:220-243 | from any cursor the pages and their tasks lead to the end of the log |
| IndexerRecovery.LostSocketRecovers | packages/agent-sdk/src/blockchain/IndexerWebSocketService.ts:93-131 | from every reachable state without a socket, steps of timer, connect, acknowledgement, pages and tasks alone lead to a state in which every event of the log with a block and a sender is committed or was covered from the start |
| IndexerRecovery.SilentSessionRecovers | packages/agent-sdk/src/blockchain/IndexerWebSocketService.ts:387-391 | the same for a session that still has its socket, once its watchdog has fired |
| IndexerRecovery.FailedEventIsRecovered | packages/agent-sdk/src/blockchain/IndexerWebSocketService.ts:252-258 | the second half of failure containment: a failed live event gives the socket up, and whatever follows, while the client serves some continuation of such steps deals with that event: commits it, unless the first checkpoint covered it |
| IndexerService.IndexerWebSocketService.ForceReconnect | packages/agent-sdk/src/blockchain/IndexerWebSocketService.ts:400-413 | gives the session up, invalidates the generation and schedules a reconnect |
| IndexerService.IndexerWebSocketService.OnBlock | packages/agent-sdk/src/blockchain/IndexerWebSocketService.ts:206-217 | the loop over a block message queues, buffers or overflows as the protocol says |
| IndexerService.IndexerWebSocketService.DrainSyncBuffer | packages/agent-sdk/src/blockchain/IndexerWebSocketService.ts:245-250 | the loop queues the buffer in position order |
| IndexerService.IndexerWebSocketService.TurnPage | packages/agent-sdk/src/blockchain/IndexerWebSocketService.ts:234-241 | moves the cursor, or goes live |
| IndexerService.IndexerWebSocketService.OnStateLoaded | packages/agent-sdk/src/blockchain/IndexerWebSocketService.ts:275-278 | the two early returns on the loaded checkpoint |
| IndexerService.IndexerWebSocketService.OnActivityFetched | packages/agent-sdk/src/blockchain/IndexerWebSocketService.ts:280-281 | a stale task applies nothing |
| IndexerService.IndexerWebSocketService.OnChangesApplied | packages/agent-sdk/src/blockchain/IndexerWebSocketService.ts:284-292 | saves the checkpoint that the commit rule gives |
| IndexerService.IndexerWebSocketService.Reject | packages/agent-sdk/src/blockchain/IndexerWebSocketService.ts:252-258 | a failed live task of the current generation forces a reconnect |
| PromiseChain.StartedTaskFollowsHandlers | packages/agent-sdk/src/blockchain/IndexerWebSocketService.ts:252-268 | a task starts only after every earlier one settled and every earlier live rejection was handled |
| PromiseChain.OneTaskAtATime | packages/agent-sdk/src/blockchain/IndexerWebSocketService.ts:261-268 | no two tasks run at the same time |
| PromiseChain.RejectionDoesNotPoison | packages/agent-sdk/src/blockchain/IndexerWebSocketService.ts:261-268 | when nothing runs and no microtask is left, all tasks have settled, whatever was rejected |
| KeyedQueue.StepKeepsInv | packages/agent-sdk/src/connections/ParentConnectionModule.ts:36-44 | the map of latest runs and the chains behind them stay consistent |
| KeyedQueue.OneRunPerKey | packages/agent-sdk/src/connections/ParentConnectionModule.ts:36-44 | runs of one key never overlap and run in the order of entry |
| KeyedQueue.EntryIffBusy | packages/agent-sdk/src/connections/ParentConnectionModule.ts:39-44 | a key has an entry exactly while its latest run is not left; without one all its runs have settled, and when all are left there is none |
| KeyedQueue.WaitingRunMakesProgress | packages/agent-sdk/src/events/InvitationEvents.ts:68-77 | while a run of a key waits, one of that key runs or can begin |
| ParentConnection.StepKeepsInv | packages/agent-sdk/src/connections/ParentConnectionModule.ts:31-77 | every step keeps: saves in turn, tags of the own invitation only, one claim per single-use invitation |
| ParentConnection.ResavedRecordClaimsTwice | packages/agent-sdk/src/connections/ParentConnectionModule.ts:53-60 | a record that keeps its tag from a failed save is stored as a second owner when it is saved again |
| ParentConnection.SingleOwnerIff | packages/agent-sdk/src/connections/ParentConnectionModule.ts:31-77 | with any failures and interleavings, writes that throw although storage took them included, no single-use invitation has two stored owners: in every run exactly when no record is saved twice |
| ParentConnection.SavesTakeTurns | packages/agent-sdk/src/connections/ParentConnectionModule.ts:35-39 | in every run, resaves included, no save of an invitation begins its check before all earlier ones of it settled |
| ParentConnection.IdleInvitationHasNoEntry | packages/agent-sdk/src/connections/ParentConnectionModule.ts:36-44 | in every run the map has an entry for an invitation exactly while its latest save is not left, and none it lacks is still needed |
| ParentConnection.FirstSaveClaims | packages/agent-sdk/src/connections/ParentConnectionModule.ts:52-76 | without failures and deletions a returned save means exactly one owner, with both tags, and all other connections of the invitation untagged |
| ParentConnection.OpenSaveTags | packages/agent-sdk/src/connections/ParentConnectionModule.ts:52-68 | without failures and deletions a returned save of a reusable invitation, or of a record that is no invitation, has stored its parent id, and the invitation id exactly when the record is one |
| ParentConnection.DoneInvitationRefuses | packages/agent-sdk/src/connections/ParentConnectionModule.ts:52-69 | a single-use invitation that is done, or gone, tags nothing; an open one is asked for other claims first |
| ParentConnection.ClaimRefusedIff | packages/agent-sdk/src/connections/ParentConnectionModule.ts:53-71 | then the connection gets both tags exactly when no other stored connection carries the id of the invitation |
| ParentConnectionRepositories.ParentConnectionRepository.SaveRecord | packages/agent-sdk/src/connections/ParentConnectionModule.ts:31-39 | enters the queue of its invitation, or stores a record without one at once; keeps the invariant |
| ParentConnectionRepositories.ParentConnectionRepository.Finally | packages/agent-sdk/src/connections/ParentConnectionModule.ts:42-44 | drops the entry exactly when it is still the own one |
| ParentConnectionRepositories.ParentConnectionRepository.OnFound | packages/agent-sdk/src/connections/ParentConnectionModule.ts:52-57 | the first tests of the check, and the tags of a record that is open to all; keeps the invariant |
| ParentConnectionRepositories.ParentConnectionRepository.OnQueried | packages/agent-sdk/src/connections/ParentConnectionModule.ts:70-76 | a claim by another connection refuses, anything else tags; keeps the invariant |
| ParentConnectionRepositories.ParentConnectionRepository.OnStored | packages/agent-sdk/src/connections/ParentConnectionModule.ts:60 | stores the record as it is in memory, also when the write then throws; keeps the invariant |
| ParentConnectionRepositories.ParentConnectionRepository.OnFailed | packages/agent-sdk/src/connections/ParentConnectionModule.ts:36-41 | rejects and leaves the tags on the record |
| Election.OldestIsOldest | packages/agent-sdk/src/events/ConnectionEvents.ts:51-56 | the fold finds the connection that is older than all others, by creation time and id, in any list order |
| Election.ViewElectsWinner | packages/agent-sdk/src/events/ConnectionEvents.ts:48-56 | every view that still holds the winner elects it |
| Election.ElectionIsConfluent | packages/agent-sdk/src/events/ConnectionEvents.ts:45-68 | with at most one tagged connection: in every run the winner stays, examined others go, and once all are examined exactly the winner is left |
| Election.CommonSurvivorIff | packages/agent-sdk/src/events/ConnectionEvents.ts:48-57 | some connection survives every run exactly when at most one is tagged; each view lists each stored sibling once |
| Election.OwnerWins | packages/agent-sdk/src/events/ConnectionEvents.ts:48-50 | the owner of a single-use invitation wins every election among the stored connections, so an acceptance in its name names a survivor |
| Election.RemovedIffExtra | packages/agent-sdk/src/events/ConnectionEvents.ts:31-69 | over any run of examinations a connection is gone exactly when one of them found it to be of version 2, of a single-use invitation without a public DID, with a sibling, and another one accepted |
| Election.AcceptedIs | packages/agent-sdk/src/events/ConnectionEvents.ts:48-56 | what is accepted carries the invitation id if any sibling does, and is otherwise older than all others |
| Election.ConnectionEvents.DiscardExtraConnection | packages/agent-sdk/src/events/ConnectionEvents.ts:31-69 | removes the connection exactly when the election applies and another one wins; a winner is never removed |
| Acceptances.AcceptancesAreKept | packages/agent-sdk/src/events/InvitationEvents.ts:24-56 | in every run, restarts and late throws included: a stored record is accepted exactly when it holds an acceptance, holds one at most when single-use, and no connection twice without reuse; its reports tell of acceptances it holds, each of one and in order, and name created exactly for its first one |
| Acceptances.AcceptancesOnlyGrow | packages/agent-sdk/src/events/InvitationEvents.ts:46-49 | at any two moments of a run the earlier list is a prefix of the later one, and a deleted record does not come back |
| Acceptances.AcceptsTakeTurns | packages/agent-sdk/src/events/InvitationEvents.ts:62-78 | no accept of a record reads it before all earlier ones finished |
| Acceptances.IdleInvitationHasNoEntry | packages/agent-sdk/src/events/InvitationEvents.ts:68-77 | in every run the map has an entry for an invitation exactly while its latest accept is not left, and none it lacks is still needed |
| Acceptances.GivenUpWriteIsNotReported | packages/agent-sdk/src/events/InvitationEvents.ts:49-55 | an acceptance whose update throws late or is cut off by a restart is stored and never reported; the next report of the invitation is its first one and names accepted |
| Acceptances.EveryAcceptanceIsReportedIff | packages/agent-sdk/src/events/InvitationEvents.ts:46-55 | a record holds precisely the reported acceptances, but for an update that has not returned, and the first report and no other names created: in every run exactly when an update that storage took neither throws nor is cut off |
| Acceptances.ReadLeadsToWrite | packages/agent-sdk/src/events/InvitationEvents.ts:38-49 | a read of a record that is reusable or still created, and holds no acceptance of the connection that is no reuse, leads to a write of the record, accepted and with the acceptance appended; any other read ends the accept and changes nothing |
| Acceptances.EveryAcceptIsRecorded | packages/agent-sdk/src/events/InvitationEvents.ts:32-49 | in runs without failures and deletions every finished accept is in the list of its record, or the record is single-use and holds one other acceptance |
| Acceptances.InvitationEvents.AcceptInvitation | packages/agent-sdk/src/events/InvitationEvents.ts:68-75 | chains behind the run the map holds; keeps the invariant |
| Acceptances.InvitationEvents.OnSettled | packages/agent-sdk/src/events/InvitationEvents.ts:76-77 | drops the entry exactly when it is still the own one; keeps the invariant |
| Acceptances.InvitationEvents.OnRead | packages/agent-sdk/src/events/InvitationEvents.ts:32-48 | the checks on the record that was read, and the record to write; keeps the invariant |
| Acceptances.InvitationEvents.TakeUpdate | packages/agent-sdk/src/events/InvitationEvents.ts:49 | storage replaces the record, and nothing is reported yet; keeps the invariant |
| Acceptances.InvitationEvents.OnWritten | packages/agent-sdk/src/events/InvitationEvents.ts:51-55 | once the update has returned the acceptance is reported; keeps the invariant |
| AnonCredsTrust.KeyIsInjective | packages/agent-sdk/src/blockchain/AnonCredsTrustService.ts:140-143 | two references share a memo key only if they are the same |
| AnonCredsTrust.LinkIffBinds | packages/agent-sdk/src/blockchain/AnonCredsTrustService.ts:315-378 | a link is found exactly when a proven document names a CredentialSchema of this chain and is issued by its Ecosystem; unavailable says exactly that a read failed before anything had settled the answer |
| AnonCredsTrust.ObjectIffNamed | packages/agent-sdk/src/blockchain/AnonCredsTrustService.ts:244-308 | an object is answered exactly when the own record relates to a VTJSC, or else the object of the registry does; it cannot be read exactly when one of these reads fails |
| AnonCredsTrust.DerivedIffBinds | packages/agent-sdk/src/blockchain/AnonCredsTrustService.ts:139-161 | a derivation is answered exactly when it is kept, or the object is named and its VTJSC binds; it cannot be checked exactly when a needed read failed |
| AnonCredsTrust.AuthorizedIffAccredited | packages/agent-sdk/src/blockchain/AnonCredsTrustService.ts:163-197 | a DID is authorized exactly when the indexer lists an active entry of it in that role for that CredentialSchema, and unchecked exactly when the indexer does not answer |
| AnonCredsTrust.DeriveIsTransparent | packages/agent-sdk/src/blockchain/AnonCredsTrustService.ts:139-161 | in an unchanged world a call changes the answer of no other call |
| AnonCredsMemo.AloneIsDerive | packages/agent-sdk/src/blockchain/AnonCredsTrustService.ts:139-161 | the steps of a call that nothing interleaves with give the answer and the memo maps of the whole call |
| AnonCredsMemo.KeptLinksWereRead | packages/agent-sdk/src/blockchain/AnonCredsTrustService.ts:316-377 | however calls overlap, every kept link was read in some step |
| AnonCredsMemo.OverlapContradicts | packages/agent-sdk/src/blockchain/AnonCredsTrustService.ts:145-160 | overlapping calls can give one object two answers, and leave a derivation that contradicts the kept link |
| AnonCredsMemo.AnswersStayIff | packages/agent-sdk/src/blockchain/AnonCredsTrustService.ts:139-161 | across any changes of the world, calls for one object that find it answer the same, and every kept derivation names the kept link of its VTJSC: in every run exactly when calls do not overlap |
| AnonCredsTrust.AnonCredsTrustService.ResolveCredentialSchemaLink | packages/agent-sdk/src/blockchain/AnonCredsTrustService.ts:315-378 | answers from the memo map first and keeps only successes |
| AnonCredsTrust.AnonCredsTrustService.DeriveCredentialSchema | packages/agent-sdk/src/blockchain/AnonCredsTrustService.ts:139-161 | the answer and the memo maps of the specification |
| AnonCredsTrust.AnonCredsTrustService.FindUnaccreditedDids | packages/agent-sdk/src/blockchain/AnonCredsTrustService.ts:223-242 | lists exactly the DIDs without an active entry, and exactly those that could not be read, each once |
| TrustDecision.ScreenGroup | packages/agent-sdk/src/events/BaseMessageEvents.ts:320-355 | what one group comes to before its issuer is checked, caching invisible |
| TrustDecision.CollectIssuers | packages/agent-sdk/src/events/BaseMessageEvents.ts:316-356 | the first loop collects findings and issuers group by group |
| TrustDecision.CheckIssuers | packages/agent-sdk/src/events/BaseMessageEvents.ts:358-377 | the second loop reports exactly the failing issuers of every CredentialSchema |
| TrustDecision.VerdictIsSatisfaction | packages/agent-sdk/src/events/BaseMessageEvents.ts:307-377 | in fields of proof and world: a group holds exactly when the last map that names it gives an index whose credential definition derives to the requested CredentialSchema with an issuer that is accredited for it; it is unknown exactly when that derivation or those entries cannot be read |
| TrustDecision.VerdictsAreFindings | packages/agent-sdk/src/events/BaseMessageEvents.ts:316-377 | the findings of both loops are the failing verdicts of the groups and nothing else |
| TrustDecision.Decide | packages/agent-sdk/src/events/BaseMessageEvents.ts:276-390 | passes exactly when every recorded group is answered with its own CredentialSchema by an accredited issuer; issuer-not-authorized exactly when some group is neither satisfied nor uncheckable; no recorded group abandons unchecked |
| TrustDecision.Exchange.AbandonPresentation | packages/agent-sdk/src/events/BaseMessageEvents.ts:392-432 | marks the record unverified with the code, and throws before the state changes when no protocol serves it |
| TrustDecision.Exchange.OnPresentation | packages/agent-sdk/src/events/BaseMessageEvents.ts:226-274 | a verifier acknowledges a presentation it may accept automatically exactly when all recorded groups are satisfied; one that fails or cannot be read ends abandoned without a reply |
| JsonText.QuoteIsPrefixCode | packages/agent-sdk/src/utils/publishedDidRecord.ts:47 | quoted strings are a prefix code: text and what follows are determined |
| JsonText.RenderIsPrefixCode | packages/agent-sdk/src/utils/publishedDidRecord.ts:41-50 | no value's text is the beginning of another's before a delimiter |
| JsonText.RenderIsInjective | packages/agent-sdk/src/utils/publishedDidRecord.ts:41-50 | the text of a value determines it, key order included |
| CanonicalJson.SortedIsUnique | packages/agent-sdk/src/utils/publishedDidRecord.ts:44-46 | with a strict comparison a set of entries has one sorted list |
| CanonicalJson.StableTextOfCanon | packages/agent-sdk/src/utils/publishedDidRecord.ts:41-50 | the serialiser writes the plain text of the value with all keys sorted |
| CanonicalJson.CanonIsSame | packages/agent-sdk/src/utils/publishedDidRecord.ts:43-48 | sorting keys keeps the value |
| CanonicalJson.StableTextDetermines | packages/agent-sdk/src/utils/publishedDidRecord.ts:41-50 | under any comparison, equal texts are values equal up to key order |
| CanonicalJson.StableTextIffSame | packages/agent-sdk/src/utils/publishedDidRecord.ts:41-50 | with a comparison that tells keys apart, equal texts are exactly the values equal up to key order |
| CanonicalJson.TiedKeysKeepTheirOrder | packages/agent-sdk/src/utils/publishedDidRecord.ts:46 | two keys that compare equal make the text depend on their order |
| CanonicalJson.OrderFreeIffStrict | packages/agent-sdk/src/utils/publishedDidRecord.ts:41-50 | the text is free of key order exactly when the comparison tells every two keys apart |
| SortKeys.EnumerationIsStrict | packages/agent-sdk/src/utils/setupSelfTr.ts:55-66 | integer keys first and the rest lexically is a strict total order |
| SortKeys.PutAllSorts | packages/agent-sdk/src/utils/setupSelfTr.ts:58-63 | keys inserted in lexical order are enumerated in that order |
| SortKeys.SortKeepsValueIff | packages/agent-sdk/src/utils/setupSelfTr.ts:55-66 | the sort keeps the value exactly when no object in it has the key __proto__ |
| SortKeys.SortIsIdempotent | packages/agent-sdk/src/utils/setupSelfTr.ts:55-66 | sorting twice is sorting once |
| SortKeys.SortedTextIffSame | packages/agent-sdk/src/utils/setupSelfTr.ts:55-66 | equal output, and equal hashed text, exactly for values equal up to key order |
| Fingerprints.PublicationFingerprintIff | packages/agent-sdk/src/utils/publishedDidRecord.ts:67-82 | equal publication fingerprints are exactly equal announcements, under each service id in the same order, and equal presentations; the order of ids, entries and object keys does not show |
| Fingerprints.ServiceOrderIsHidden | packages/agent-sdk/src/utils/publishedDidRecord.ts:69-72 | with distinct service ids the order of the services does not show |
| Fingerprints.SharedIdShowsOrder | packages/agent-sdk/src/utils/publishedDidRecord.ts:69-72 | two linked presentations under one id: exchanging them changes the fingerprint |
| Fingerprints.DocumentFingerprintIff | packages/agent-sdk/src/utils/publishedDidRecord.ts:58-61 | equal document fingerprints are exactly equal documents, or none on both sides |
| PublicationTrigger.StepKeepsInv | packages/agent-sdk/src/utils/publishedDidRecord.ts:14-28 | every step keeps: a change not covered by a started trigger has a signal to come |
| PublicationTrigger.FailedPublicationIsSilent | packages/agent-sdk/src/utils/publishedDidRecord.ts:21-27 | a stored change whose publication throws is never signalled |
| PublicationTrigger.LateThrowIsSilent | packages/agent-sdk/src/utils/publishedDidRecord.ts:21-27 | so is a change that storage took although the write throws |
| PublicationTrigger.OverlappingUpdatesAreSilent | packages/agent-sdk/src/utils/publishedDidRecord.ts:17-27 | overlapping updates of one DID can leave a change unsignalled |
| PublicationTrigger.EveryChangeIsSignalledIff | packages/agent-sdk/src/utils/publishedDidRecord.ts:14-28 | whenever the publication changed since the last trigger start a send is pending, held by a flush or about to be scheduled: in every run exactly when publishing never throws, no write that storage took throws, and updates of a DID do not overlap |
| PublicationTrigger.SchedulesIff | packages/agent-sdk/src/utils/publishedDidRecord.ts:25-27 | a step schedules a send exactly when it ends an update whose publication fingerprint differs from the one it read, or that read none |
| PublicationTrigger.DocumentIsServedIff | packages/agent-sdk/src/utils/publishedDidRecord.ts:21-24 | the stored document of every DID is the one published last or about to be published: in every run exactly when publishing never throws, no write that storage took throws, and updates of a DID do not overlap |
| PublicationTrigger.OverlappingUpdateIsNotServed | packages/agent-sdk/src/utils/publishedDidRecord.ts:17-24 | overlapping updates can leave a stored document that is not the published one |
| PublicationTrigger.ThrownUpdateIsNotServed | packages/agent-sdk/src/utils/publishedDidRecord.ts:21-24 | so can a publication that throws, or a write that storage took and that throws |
| PublicationTrigger.BurstsCoalesce | packages/agent-sdk/src/blockchain/triggerResolver.ts:83-95 | until a flush, one timer at most runs for a DID, for the send scheduled last |
| PublicationTrigger.PendingIsLatest | packages/agent-sdk/src/blockchain/triggerResolver.ts:83-95 | a pending send has a running timer and is the last one scheduled |
| PublicationTrigger.FlushTakesOver | packages/agent-sdk/src/blockchain/triggerResolver.ts:102-109 | in every run a send that a flush holds is not pending any more, and is held once |
| PublicationTrigger.FlushDropsNothing | packages/agent-sdk/src/blockchain/triggerResolver.ts:102-109 | what a flush holds it still holds later or has started |
| PublicationTrigger.TriggerResolvers.ScheduleTrigger | packages/agent-sdk/src/blockchain/triggerResolver.ts:83-95 | replaces the pending send and its timer |
| PublicationTrigger.TriggerResolvers.SendNow | packages/agent-sdk/src/blockchain/triggerResolver.ts:87-90 | empties the pending entry of the DID and starts the trigger |
| PublicationTrigger.TriggerResolvers.FlushPendingTriggers | packages/agent-sdk/src/blockchain/triggerResolver.ts:102-109 | the loop starts every pending send in order and leaves none |
| PublicationTrigger.TriggerResolvers.UpdateDidRecord | packages/agent-sdk/src/utils/publishedDidRecord.ts:21-28 | stores the record and schedules exactly when the publication fingerprint differs from what was read |
| AuthorizationCache.ContentIsLastRecord | packages/agent-sdk/src/blockchain/AuthorizationService.ts:68-79 | the cache of a snapshot holds the last record in scope of each participant |
| AuthorizationCache.CachedHasRecord | packages/agent-sdk/src/blockchain/AuthorizationService.ts:68-79 | nothing else is cached |
| AuthorizationCache.ContentIff | packages/agent-sdk/src/blockchain/AuthorizationService.ts:68-79 | in the fields of the rows: a participant is cached exactly when some record in the scope of the corporation names it, and then with the last such record |
| AuthorizationCache.RewindUncovers | packages/agent-sdk/src/blockchain/AuthorizationService.ts:60-67 | after the checkpoint went back a refresh for a covered block is skipped on an older snapshot |
| AuthorizationCache.OverlapUncovers | packages/agent-sdk/src/blockchain/AuthorizationService.ts:60-67 | overlapping refreshes do the same |
| AuthorizationCache.CacheCoversIff | packages/agent-sdk/src/blockchain/AuthorizationService.ts:59-81 | every refresh that returns, skipped or not, leaves the projection at or above its block minus later invalidations: in every run exactly when nothing is skipped, or checkpoints never go back and refreshes do not overlap |
| AuthorizationCache.WaitIsBounded | packages/agent-sdk/src/blockchain/VeranaIndexerService.ts:222-235 | a refresh waits at most its timeout: it returns exactly when its page is at or above its block, gives up with nothing changed when the page is older and the deadline has passed, and polls again before |
| AuthorizationCache.AuthorizationService.DelegationPage | packages/agent-sdk/src/blockchain/VeranaIndexerService.ts:222-235 | the answer is the first page at or above the block, if all polls before it were pages that were too old and in time; otherwise there is none |
| AuthorizationCache.AuthorizationService.BuildCache | packages/agent-sdk/src/blockchain/AuthorizationService.ts:68-78 | the nested loops build the specified cache |
| AuthorizationCache.AuthorizationService.RefreshForOperator | packages/agent-sdk/src/blockchain/AuthorizationService.ts:59-81 | a skip changes nothing; otherwise the first poll that ends the wait decides: an error changes nothing, a page leaves the fields of a completed refresh |
| AuthorizationCache.AuthorizationService.InvalidateParticipant | packages/agent-sdk/src/blockchain/AuthorizationService.ts:83-87 | removes the participant and nothing else |
| AuthorizationCache.AuthorizationService.SignersAreAuthorized | packages/agent-sdk/src/blockchain/AuthorizationService.ts:89-92 | after a refresh that covers a block a participant can sign exactly when its last record in scope of that snapshot lists the message type, its entry is in force, and it was not invalidated since |
| EcsBootstrap.LateTransactionDoublesEntry | packages/agent-sdk/src/bootstrap/EcsBootstrapService.ts:276-299 | a transaction of an interrupted boot that arrives after the next boot has read makes a second entry |
| EcsBootstrap.RacingOperatorDoublesEntry | packages/agent-sdk/src/bootstrap/EcsBootstrapService.ts:276-299 | so does an entry provisioned between the read and the start |
| EcsBootstrap.OneEntryIff | packages/agent-sdk/src/bootstrap/EcsBootstrapService.ts:257-443 | however boots are interrupted, one usable entry at most per schema and role: in every run exactly when boots wait for earlier transactions and the operator provisions only between boots |
| EcsBootstrap.SubmitsOnlyWhatIsMissing | packages/agent-sdk/src/bootstrap/EcsBootstrapService.ts:271-414 | a start or self-create is submitted only while no usable entry exists and none is on its way |
| EcsBootstrap.BootListsPending | packages/agent-sdk/src/bootstrap/EcsBootstrapService.ts:152-157 | a boot that can read its entries sets out to resume exactly the own entries that are pending and neither revoked nor slashed |
| EcsBootstrap.InterruptedEntryIsValidated | packages/agent-sdk/src/bootstrap/EcsBootstrapService.ts:152-211 | after the resume loop every listed self-validated entry is validated and not pending, unless its flow had ended or a call failed |
| EcsBootstrapRuns.ReadDecides | packages/agent-sdk/src/bootstrap/EcsBootstrapService.ts:435-443 | a boot submits for its goal exactly when no own entry of its schema and role is in force, to come or pending, and neither revoked nor slashed |
| EcsBootstrapRuns.SubmitsForGoal | packages/agent-sdk/src/bootstrap/EcsBootstrapService.ts:257-427 | the transaction creates an entry of the schema in the role of the goal, under the validator that the goal names or that is in force and fits |
| EcsBootstrapRuns.DelegatedBootLeaves | packages/agent-sdk/src/bootstrap/EcsBootstrapService.ts:499-507 | a delegated boot leaves a pending HOLDER entry under the parent, and ends |
| EcsBootstrapRuns.SelfIssuerBootLeaves | packages/agent-sdk/src/bootstrap/EcsBootstrapService.ts:338-347 | a boot that controls the root leaves an ISSUER entry under it that is validated, in force and not pending |
| EcsBootstrapRuns.LoopGoesOn | packages/agent-sdk/src/bootstrap/EcsBootstrapService.ts:156-165 | nothing but an interruption ends the resume loop before every listed entry was taken up; a failed validation leads on to the next one |
| EcsBootstrapRuns.WaitingEntryCompletes | packages/agent-sdk/src/bootstrap/EcsBootstrapService.ts:152-192 | an own waiting entry under an own validator, not degraded since, is validated and not pending once the next boot that could read its entries leaves the loop, unless its flow had ended or a call failed |
| EcsBootstrapRuns.NextBootCompletes | packages/agent-sdk/src/bootstrap/EcsBootstrapService.ts:318-351 | so is the entry of a boot that was interrupted between the start and its validation |
| EcsBootstrapRuns.NoSecondCreate | packages/agent-sdk/src/bootstrap/EcsBootstrapService.ts:257-351 | and in runs under the conditions of OneEntryIff no second start for its schema and role is ever on its way, nor does a second entry serve |
| EcsBootstrapServices.EcsBootstrapService.ResumePendingOnboardings | packages/agent-sdk/src/bootstrap/EcsBootstrapService.ts:152-166 | the loop validates exactly the own pending entries, neither revoked nor slashed, with a validator of the agent, that neither ended nor throw, and changes no other |
| EcsBootstrapServices.EcsBootstrapService.ResumeOnboarding | packages/agent-sdk/src/bootstrap/EcsBootstrapService.ts:168-192 | validates the entry only when its validator is the agent's own |
| EcsBootstrapServices.EcsBootstrapService.EnsureSelfIssuedParticipant | packages/agent-sdk/src/bootstrap/EcsBootstrapService.ts:318-351 | starts and validates one entry, or nothing when one is usable; a failed validation leaves the pending entry |
| EcsBootstrapServices.EcsBootstrapService.EnsureHolderParticipant | packages/agent-sdk/src/bootstrap/EcsBootstrapService.ts:257-299 | pays at most once and for one entry, nothing when an entry is usable, and a normal return means one is |
| EcsBootstrapServices.EcsBootstrapService.EnsureServiceIssuer | packages/agent-sdk/src/bootstrap/EcsBootstrapService.ts:353-414 | self-creates on an open schema, starts on another, throws without paying otherwise, and a normal return means an entry is usable |
| EcsBootstrapServices.EcsBootstrapService.RunStandalone | packages/agent-sdk/src/bootstrap/EcsBootstrapService.ts:61-75 | a normal return leaves both entries usable; each deposit is one entry more; a provisioned agent pays nothing, any other at most twice |
| LinkedVpStore.FindFinds | packages/agent-sdk/src/utils/trustCredentialStore.ts:143-169 | an entry is found exactly when one has the reference or matches the id; the reference wins, then an announced match |
| LinkedVpStore.SaveReplacesOnlyIff | packages/agent-sdk/src/utils/trustCredentialStore.ts:187-205 | a save leaves the other entries alone exactly when its reference is known or no entry matches the credential id |
| LinkedVpStore.SaveLeaves | packages/agent-sdk/src/utils/trustCredentialStore.ts:171-215 | a save leaves its entry and its announcement; the entry it found is gone with its service, its text stays under the same reference, everything else stays |
| LinkedVpStore.RemoveLeaves | packages/agent-sdk/src/utils/trustCredentialStore.ts:326-338 | a removal takes out the entry it finds and its service, and nothing else |
| LinkedVpStore.ApplyKeepsInv | packages/agent-sdk/src/utils/trustCredentialStore.ts:171-507 | every operation keeps: distinct service ids, one entry per service, a service under an entry's id announces that entry |
| LinkedVpStore.OperationsKeepInv | packages/agent-sdk/src/utils/trustCredentialStore.ts:171-507 | the same over any sequence of operations with fresh ids |
| LinkedVpStore.DetachThenReattachIff | packages/agent-sdk/src/utils/trustCredentialStore.ts:431-480 | for any list of references: attaching the detached ones again, in any order, restores the services exactly when each of those services was its entry's announcement |
| LinkedVpStore.DetachThenReattach | packages/agent-sdk/src/utils/trustCredentialStore.ts:431-480 | under the invariant it always does, for any list |
| LinkedVpStore.DetachTakesOut | packages/agent-sdk/src/utils/trustCredentialStore.ts:443-449 | detaching a list takes out exactly the services of the references it reports |
| LinkedVpStore.TextNeverChanges | packages/agent-sdk/src/utils/trustCredentialStore.ts:486-507 | over any run the stored text of a reference stays the same while its entry exists |
| LinkedVpStore.MigrateKeepsIdsIff | packages/agent-sdk/src/utils/trustCredentialStore.ts:409-417 | service ids stay distinct exactly when no renamed service meets another one under its new id |
| LinkedVpStore.MigratedEntry | packages/agent-sdk/src/utils/trustCredentialStore.ts:409-415 | an entry whose service id ends with the old suffix gets the id with the new one; no other entry changes |
| LinkedVpStore.MigratedAnnouncement | packages/agent-sdk/src/utils/trustCredentialStore.ts:413-414 | the service under such an id follows when an entry names it; no other service changes |
| LinkedVpStore.MigrateIsIdempotent | packages/agent-sdk/src/utils/trustCredentialStore.ts:401-423 | a second migration changes nothing |
| LinkedVpStore.TrustCredentialStore.SaveMetadataEntry | packages/agent-sdk/src/utils/trustCredentialStore.ts:171-215 | replaces what it finds, keeps the text of the same reference, adds entry and service, and refuses a missing reference |
| LinkedVpStore.TrustCredentialStore.RemoveTrustCredential | packages/agent-sdk/src/utils/trustCredentialStore.ts:326-338 | removes the found entry and its service, or changes nothing |
| LinkedVpStore.TrustCredentialStore.DetachVtjscPublications | packages/agent-sdk/src/utils/trustCredentialStore.ts:431-454 | the loop takes the announced services out, reports exactly those references, keeps the entries, and publishes once if any went |
| LinkedVpStore.TrustCredentialStore.ReattachVtjscPublication | packages/agent-sdk/src/utils/trustCredentialStore.ts:462-480 | true exactly when the services changed |
| LinkedVpStore.TrustCredentialStore.MigrateVtjscServiceIds | packages/agent-sdk/src/utils/trustCredentialStore.ts:401-423 | the loop renames entries and services alike and publishes exactly when some id was renamed |
| LinkedVpStore.TrustCredentialStore.SaveVtjscTypeMetadata | packages/agent-sdk/src/utils/trustCredentialStore.ts:491-507 | stores the text once and never publishes |
| SelfIssuedCredential.PublishedStaysPublished | packages/agent-sdk/src/utils/selfIssuedEcsCredential.ts:105-221 | after a call that returned, and then any calls with the same arguments or for other schemas, one more call signs and writes nothing and returns the same presentation unless its check fails |
| SelfIssuedCredential.FailureLeavesNothing | packages/agent-sdk/src/utils/selfIssuedEcsCredential.ts:152-168 | a call that throws changes neither services nor metadata |
| SelfIssuedCredential.SignsIff | packages/agent-sdk/src/utils/selfIssuedEcsCredential.ts:30-65 | a call signs exactly when no credential of the agent for this id, schema, expiry and content is stored that is proven by assertion keys of today, and the agent holds its first assertion key; without both it throws and changes nothing |
| SelfIssuedCredential.RotatedKeySignsAnew | packages/agent-sdk/src/utils/selfIssuedEcsCredential.ts:59-64 | after a rotation of the assertion key the credential is signed anew, by the new key |
| SelfIssuedCredential.AttachesIff | packages/agent-sdk/src/utils/selfIssuedEcsCredential.ts:132-140 | a call that signs stores its entry as attached exactly when the entry was not detached and no other attached entry serves a presentation at its URL; otherwise it leaves the services alone and the step before publication does not count |
| SelfIssuedCredential.ChangedContentIsSigned | packages/agent-sdk/src/utils/selfIssuedEcsCredential.ts:18-20 | with a digest that tells the texts apart, changed content is signed anew and changed key order is not |
| SelfIssuedCredential.AnnouncesIff | packages/agent-sdk/src/utils/selfIssuedEcsCredential.ts:141-194 | after an attached call that returned, the document announces the fragment at the right URL exactly when: it signed anew and a linked presentation was rewritten or no foreign service holds the id; or it had nothing to sign and the document announced it before |
| SelfIssuedCredential.RemovedServiceStaysRemoved | packages/agent-sdk/src/utils/selfIssuedEcsCredential.ts:141-155 | a service taken out after its publication is not put back: the next call returns the attached presentation and nothing announces it |
| SelfIssuedCredential.AnnouncedOnceIff | packages/agent-sdk/src/utils/selfIssuedEcsCredential.ts:141-194 | after such a call exactly one service has the fragment's id, exactly when at most one was rewritten onto it or held it, or, with nothing to sign, exactly one had it before |
| SelfIssuedCredential.WhoisIsAnnounced | packages/agent-sdk/src/utils/selfIssuedEcsCredential.ts:141-206 | for the Service schema the whois service points to the presentation exactly when the call signed or it did before |
| SelfIssuedCredential.OtherServicesStay | packages/agent-sdk/src/utils/selfIssuedEcsCredential.ts:173-206 | every service keeps its place; a linked presentation with the fragment's id or file gets id and URL, and services of other kinds, ids and files stay as they are |
| SelfIssuedCredential.SelfIssuedRecord.RewriteServices | packages/agent-sdk/src/utils/selfIssuedEcsCredential.ts:173-206 | the three changes to the services of the document |
| SelfIssuedCredential.SelfIssuedRecord.PublishSelfIssuedEcsPresentation | packages/agent-sdk/src/utils/selfIssuedEcsCredential.ts:105-221 | the outcome and the record of the specification, failing checks included |
| DidLocation.PathIsTranslation | packages/agent-sdk/src/utils/typeMetadata.ts:24-25 | splitting, decoding and joining is one pass over the characters |
| DidLocation.MappingIff | packages/agent-sdk/src/utils/typeMetadata.ts:24-25 | the mapping alone gives back the base URL exactly when host and segments contain neither a colon nor a percent sign |
| DidLocation.RoundTripIff | packages/agent-sdk/src/utils/typeMetadata.ts:21-77 | the DID gives back the base URL exactly when host and segments consist of letters, digits, dots, hyphens and underscores |
| DidLocation.ScidDoesNotMatter | packages/agent-sdk/src/did/legacyDidWeb.ts:9-16 | the did:webvh of a location maps to the same URL as its did:web, for any SCID |

## Left out

- VeranaHelpers.SyncStateStore.Save: the registries beside the checkpoint are not modelled, because `applyStateMutation` only changes content that the synchronisation never reads.
- The backoff of `scheduleReconnect` is not modelled; only whether the timer is set.
- `IndexerWebSocketService`: its methods without a row are one update each. All of them compute the client functions of IndexerProtocol, about which the invariants are proved.
- IndexerService.IndexerWebSocketService.OnClose: `synced` does not imply an open socket, because a close during the catch-up does not change the generation; the results about the status concern open sockets and the moment of the loss.
- IndexerSafety.CommitsAreSafe: speaks of saved commits; a handler may run again after a crash before the save.
- IndexerRecovery.FailedEventIsRecovered: says that a continuation exists, not that it happens; close listeners of old sockets may settle a newer wait of the WebSocket handshake.
- The branch of `applyChanges` without a state: it has no visible caller.
- Timers, backoff delays, JSON parsing, logging and the texts of messages.
- ParentConnection.OpenSaveTags: about runs without failures and deletions; a refused read of the out-of-band record rejects the save.
- ParentConnection.SingleOwnerIff: the process does not restart in this machine; after a restart no record in memory is left to be saved.
- Election.ElectionIsConfluent: over a fixed set of siblings; `OwnerWins` covers siblings that come and go, for invitation records.
- Acceptances.InvitationEvents.OnRead: the time of an acceptance is not stored; nor does this machine cover a write that lands after its await threw.
- TrustDecision.Decide: the order of findings in the description, which follows the order of insertion of the source's maps, is not stated.
- TrustDecision.Exchange.OnPresentation: the problem report that is sent to the peer is not modelled.
- AnonCredsTrust.LinkIffBinds: the proof of a VTJSC is one of four outcomes of an opaque check.
- `assertOwnAuthorization`: a wrapper of the modelled check.
- CanonicalJson.StableTextIffSame: values after `asJson`, so members without a value and special numbers do not occur.
- PublicationTrigger.EveryChangeIsSignalledIff: a signal is the start of a trigger; what a started trigger sends, its own failures, and a restart of the process, which forgets pending sends, are not modelled.
- AuthorizationCache.AuthorizationService.DelegationPage: an unparsable date of a Participant entry is not modelled.
- `agentHoldsOperatorGrant` and `callerHoldsOperatorGrant`: a filter without state.
- EcsBootstrap.OneEntryIff: the pending offers of `acceptPendingOffers` and the DIDComm side of an onboarding submit no transaction and are left out; `discoverEcsSchemas` answers any two different schemas.
- EcsBootstrapServices.EcsBootstrapService.RunStandalone: one uninterrupted run; interruptions are the subject of EcsBootstrap. The delegated mode is modelled there only.
- LinkedVpStore.OperationsKeepInv: needs fresh service ids for new entries and free ids for renamed ones; the source derives ids from names and does not check.
- LinkedVpStore.TrustCredentialStore.SaveMetadataEntry: signing the presentation, and the removal of received credentials from the wallet, are not modelled.
- `rebindEcsCredentialSchema` and `withdrawSelfIssuedEcsCredentials`: sequences of modelled operations.
- SelfIssuedCredential.PublishedStaysPublished: the claims and the check that a schema requires an expiry are inputs.
- DidLocation.RoundTripIff: the URL parser is not part of this model; escapes of non-ASCII characters count as malformed, and an id with DID parameters counts as refused by `parseDid`, whose source is not part of this repository.
- The vt-flow state machine, fee checks, admin authentication, configuration and the user interface: they would only add easy members, or their source is not part of this repository's core.
