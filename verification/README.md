# Semprec protocols, verified

A Dafny model of the parts of Semprec's backend that have to stay right under concurrency, failing database
calls and reconnects, with proofs of what each promises. Postgres, sockets, timers and model calls are an
environment that takes atomic steps: a call may return, throw, or throw after its write took effect; a timer
may fire; a socket may drop. JavaScript between two `await`s is one atomic step.

Each protocol has the same shape. A specification module holds the process's own state as values, one function
per stretch of code between two awaits, a `Step` for everything that can happen next, and `Exec` for a whole
run; a step that is not enabled changes nothing, so a theorem over every `seq<Step>` is a theorem over every
interleaving. An invariant is carried through every step, and the theorems are read off it. A class beside it
holds the source's mutable fields; its methods are the source's own loops and assignments, and each is proved
to do exactly what the specification function for that stretch says.

| files | what they model |
|---|---|
| `Ordering` | optional values, rising id sequences, ascending enumeration |
| `AgentRunWatchSpec`, `AgentEventDelivery`, `AgentWatcherProofs`, `AgentDeliveryProofs`, `AgentDeliveryTheorems`, `AgentRunWatch` | durable agent events from commit to a reconnecting client: publish tail, server tail, watch registry, dying sockets, resuming client |
| `SyncClient` | which connection of the reconnecting client counts, the invalidation gate, the resume frames |
| `DelegationSpec`, `DelegationProofs`, `DelegationRegistry` | delegated sessions with busy flags and TTL timers |
| `SempSpec`, `SempProofs`, `SempTheorems`, `SempRows`, `SempConversation` | Semp's conversation per tenant: wakes, turns, pauses, drops, retries |
| `ThrottleSpec`, `ThrottleProofs`, `ThrottleTheorems`, `ClientIpThrottle`, `Ipv6` | the sliding-window limiter against a log of its grants, and the key an address is limited under |
| `BudgetSpec`, `BudgetProofs`, `BudgetHistory`, `AiGateway` | budget reservations under one lock, settled later by any number of calls |
| `JsonText`, `CanonicalJson`, `CanonicalJsonProofs`, `GuidanceDrift` | canonical JSON and the text a drift fingerprint hashes |
| `ToolProtocol`, `Reconstruction` | the tool-call validator, startup repair, and rebuilding a conversation from its log |
| `InvalidationCoalescer` | the per-socket queue of item invalidations |
| `AgentRunClosing` | one run's row and its status events under duplicate jobs |
| `ApprovalReplay` | exactly-once replay of an approved destructive operation |
| `Pagination` | keyset pagination while rows come and go |
| `Deactivation` | jobs and sockets of a tenant that is being deactivated |

Where the code and what is written about it disagree, the model follows the code and a lemma shows the case:

- `compareByCodePoint` orders by UTF-16 code unit. Its comment says this agrees with code-point order; it does
  not across surrogates (`JsonText.OrdersDiffer`), and `JsonText.OrdersAgree` says exactly when it does. The
  canonical text is canonical and injective either way.
- The approval replay promises that the resource it mutates is the one approved. The check reads the resource
  without locking it, so an edit that commits between the check and the mutation is mutated all the same
  (`ApprovalReplay.EditCanSlipIn`); `ApprovalReplay.MutatesWhatWasApprovedIff` says exactly when that happens. An
  executor that finds the resource gone may return normally, as the deletions of items and relations do, and the
  row then becomes `succeeded` with nothing mutated (`ApprovalReplay.RemovalCanSlipIn`), exactly when
  `ApprovalReplay.SucceedsWithoutMutatingIff` says.
- `connect()` of the sync client is meant to get a stopped client going again. The variable that holds the
  reconnect timer is cleared only by `close()`, so a client whose session was revoked after it had reconnected
  once stays down (`SyncClient.RevokedAfterReconnectStaysDown`); `SyncClient.ConnectTriesIff` says exactly when
  `connect()` works.
- A pause of Semp whose status push fails keeps the idle entry of a run that is already `done`, and the next
  message continues it (`SempTheorems.FailedPushReusesDoneRun`); `SempRows.TurnsStartOnRunningRowsIff` says
  exactly when. The delegation registry was built to avoid this, and does, unless a close commits although its
  call throws (`DelegationProofs.LostConfirmationReusesClosedRun`, and exactly when in
  `DelegationProofs.TurnsStartOnRunningRowsIff`).
- The watch protocol accepts any number as a cursor. A watch whose cursor names no committed event can withhold
  events from the watch that replaces it (`AgentDeliveryTheorems.UnnamedCursorWithholds`);
  `AgentDeliveryTheorems.PromotionPassesOverIff` says exactly which, and with cursors that are 0 or name an event
  there are none (`AgentDeliveryTheorems.NamedCursorsLoseNothing`).

## Model

| member | source | states |
|---|---|---|
| AgentDeliveryTheorems.ClientMissesNothing | backend/packages/realtime-client/src/syncClient.ts:124-230 | over every run with one watch per connection, whatever the first cursor, the ids a client received rise strictly, and no committed event between its first cursor and its last received id is missing unless its announcement or its row fetch failed |
| AgentDeliveryTheorems.WatcherMissesNothing | backend/packages/realtime/src/agentRunWatch.ts:127-205 | every watcher delivered each event between its start and its cursor exactly once, in id order, except exactly what its promotion passed over, and that is nothing unless a watch of its socket named no event |
| AgentDeliveryTheorems.LiveWatcherIsCaughtUp | backend/packages/realtime/src/agentRunWatch.ts:226-244 | once live with nothing in flight, a watcher has delivered every reference that has been handed to the registry, except exactly what its promotion passed over |
| AgentDeliveryTheorems.PromotionPassesOverIff | backend/packages/realtime/src/agentRunWatch.ts:94-205 | a promotion passes over exactly the undelivered events up to the cursor the active watcher was opened with, so some id is passed over exactly when that cursor is ahead of all the candidate delivered, and then it named no event; the candidate is not behind the active watcher and covers the reference that one was waiting for |
| AgentDeliveryTheorems.UnwatchIsFinal | backend/packages/realtime/src/agentRunWatch.ts:118-125 | an unwatch is never overtaken by an older watch still awaiting authorisation |
| AgentDeliveryTheorems.ClosedSocketIsForgotten | backend/packages/realtime/src/agentRunWatch.ts:215-224 | a closed socket is subscribed by nothing afterwards, an older watch still awaiting authorisation included |
| AgentDeliveryTheorems.NewestWatchWins | backend/packages/realtime/src/agentRunWatch.ts:107-174 | of several watches a socket has called, authorising the newest leaves its candidate opened at its own cursor, and authorising any other registers nothing, whatever happens in between short of another watch, an unwatch or a close |
| AgentDeliveryTheorems.ReplayProgresses | backend/packages/realtime/src/agentRunWatch.ts:177-200 | a reply delivers all its rows, after which the candidate is the active watcher if nothing queued lies beyond them and waits for the least such reference otherwise |
| AgentDeliveryTheorems.FailedReplayIsForgotten | backend/packages/realtime/src/agentRunWatch.ts:201-204 | a replay that throws forgets its candidate only; the active watcher and every other watch stay |
| AgentDeliveryTheorems.NothingSkipped | backend/packages/realtime/src/agentRunWatch.ts:241-243 | an event is excused as skipped only when announcing it or fetching its row failed in the run |
| AgentDeliveryTheorems.UnnamedCursorWithholds | backend/packages/realtime/src/agentRunWatch.ts:194-200 | a run in which an event that is committed, announced and fetched never reaches a live watcher that was opened at 0, because an earlier watch of its socket named no event |
| AgentDeliveryTheorems.NamedCursorsLoseNothing | backend/packages/realtime/src/agentRunWatch.ts:194-200 | when every cursor of a run is 0 or names a committed event, no promotion passes anything over |
| AgentDeliveryProofs.StepKeeps | backend/packages/realtime/src/syncServer.ts:310-326 | every step of publisher, per-run tail, registry, sockets and client keeps the delivery invariant |
| AgentDeliveryProofs.LogsCompose | backend/packages/realtime-client/src/syncClient.ts:161-185 | a gap-free log continued by a gap-free log from its last id is gap-free, so resuming from one's own cursor loses nothing |
| AgentWatcherProofs.ReplayDeliversRows | backend/packages/realtime/src/agentRunWatch.ts:177-179 | replaying a gap-free query result to a fresh watcher delivers exactly its rows |
| AgentWatcherProofs.PublishKeepsStream | backend/packages/realtime/src/wireHooks.ts:22-34 | the per-run publish tail hands references on in commit order, or skips them for good |
| AgentRunWatch.AgentRunWatchRegistry.Send | backend/packages/realtime/src/backpressure.ts:19-26 | a socket that is open afterwards was open with room and has got the frame; one that is not keeps the wire it had |
| AgentRunWatch.AgentRunWatchRegistry.DeliverTo | backend/packages/realtime/src/agentRunWatch.ts:127-131 | a watcher's log grows by the event exactly when the watcher is current and the event beyond its cursor; the frame is then on the wire of a socket still open |
| AgentRunWatch.AgentRunWatchRegistry.Watch | backend/packages/realtime/src/agentRunWatch.ts:107-116 | the new watch is the one its socket waits for, under a fresh token and its own cursor; no watcher is touched |
| AgentRunWatch.AgentRunWatchRegistry.Authorise | backend/packages/realtime/src/agentRunWatch.ts:151-174 | a candidate is registered exactly when its watch is still wanted, is authorised and its socket open; no live watcher is touched |
| AgentRunWatch.AgentRunWatchRegistry.Replay | backend/packages/realtime/src/agentRunWatch.ts:177-200 | the replay query's rows are delivered and the queue drained, exactly as specified |
| AgentRunWatch.AgentRunWatchRegistry.DrainLoop | backend/packages/realtime/src/agentRunWatch.ts:183-193 | the drain loop runs until it needs a row or nothing is queued |
| AgentRunWatch.AgentRunWatchRegistry.PromoteReplacement | backend/packages/realtime/src/agentRunWatch.ts:194-200 | the candidate is active and no candidate any more, the watcher it replaces is gone, and its cursor is the further of the two |
| AgentRunWatch.AgentRunWatchRegistry.Unsubscribe | backend/packages/realtime/src/agentRunWatch.ts:207-213 | nothing names the socket any more, and the watchers of other sockets stay |
| AgentRunWatch.AgentRunWatchRegistry.HandleSocketClosed | backend/packages/realtime/src/agentRunWatch.ts:215-224 | the socket is closed and nothing names it any more; the watchers of other sockets stay |
| AgentRunWatch.AgentRunWatchRegistry.ForwardEvent | backend/packages/realtime/src/agentRunWatch.ts:226-238 | a reference is queued with every replaying watcher, and the live ones are remembered for the fetched row |
| AgentRunWatch.AgentRunWatchRegistry.DeliverFetched | backend/packages/realtime/src/agentRunWatch.ts:241-243 | the fetched row goes to the remembered watchers that are still current |
| SyncClient.OneCurrentConnection | backend/packages/realtime-client/src/syncClient.ts:187-202 | at most one connection attempt counts, and no reconnect waits beside it |
| SyncClient.StaleConnectionIsIgnored | backend/packages/realtime-client/src/syncClient.ts:195-230 | once a connection is superseded, whatever happens later, its events change nothing the client keeps, sends or shows |
| SyncClient.InvalidationsWaitForRefetch | backend/packages/realtime-client/src/syncClient.ts:112-120 | an invalidation reaches the application only from the current open connection with no refetch in flight |
| SyncClient.SettledRefetchOpensGate | backend/packages/realtime-client/src/syncClient.ts:170-185 | once the current connection's refetch has settled, even by failing, every invalidation passes |
| SyncClient.ReconnectResumesFromCursors | backend/packages/realtime-client/src/syncClient.ts:161-165 | a reconnect resumes exactly the watched runs, each from its own last event |
| SyncClient.ConnectTriesIff | backend/packages/realtime-client/src/syncClient.ts:232-236 | after any run, `connect()` has the client on its way to a connection exactly when it already was or no reconnect timer has fired since the last `close()` |
| SyncClient.CloseIsFinal | backend/packages/realtime-client/src/syncClient.ts:238-247 | after `close()` and until the next `connect()`, whatever still answers, the client has no socket, no waiting reconnect, makes no attempt and sends nothing |
| SyncClient.CursorIsLastEvent | backend/packages/realtime-client/src/syncClient.ts:124-129 | a watched run's cursor is the last event it received on a connection that counted then, or where its watch began; an unwatched run has none |
| SyncClient.ServerWatchesWhatClientWatches | backend/packages/realtime-client/src/syncClient.ts:161-270 | in every run the last frame about a run on the current open connection is a watch exactly for the runs the client watches |
| SyncClient.WatchIsTold | backend/packages/realtime-client/src/syncClient.ts:263-266 | a watch keeps its run at its cursor, and is told to the server with that cursor exactly when the current connection is open |
| SyncClient.RevokedAfterReconnectStaysDown | backend/packages/realtime-client/src/syncClient.ts:187-236 | a run after which `connect()` has been called and no attempt will ever be made |
| SyncClient.ReconnectingClient.OnOpen | backend/packages/realtime-client/src/syncClient.ts:161-204 | sends the resume frames of the current connection and closes the gate |
| SyncClient.ReconnectingClient.OnClose | backend/packages/realtime-client/src/syncClient.ts:215-229 | a stale close changes nothing, a current one frees the socket and schedules a reconnect unless the session was revoked or the client closed, and then no timer is touched |
| DelegationProofs.OneClaimPerKey | backend/packages/agent-runtime/src/delegationRegistry.ts:138-183 | at most one session is being created, continued or expired per key, in every interleaving |
| DelegationProofs.DelegationIsTaken | backend/packages/agent-runtime/src/delegationRegistry.ts:147-183 | in every run a delegation is refused exactly while its key is claimed or being created; otherwise it takes the next turn on the entry's run or reserves the key |
| DelegationProofs.IdleEntryHasTimer | backend/packages/agent-runtime/src/delegationRegistry.ts:263-278 | every entry is claimed by a call in flight or has a pending timer of its own key |
| DelegationProofs.EveryTimerIsAnEntrys | backend/packages/agent-runtime/src/delegationRegistry.ts:263-278 | every pending timer is the current timer of its key's entry, and the key has no other, so no entry expires on an earlier cadence |
| DelegationProofs.BrokenTurnIsClosed | backend/packages/agent-runtime/src/delegationRegistry.ts:162-175 | a continued turn that fails leaves no entry of its run and no timer of that entry before its run is closed |
| DelegationProofs.FailedRunEndsInError | backend/packages/agent-runtime/src/delegationRegistry.ts:93-101 | a failed turn whose close takes effect leaves its run `error` unless it had ended before, and one whose close fails leaves the rows alone |
| DelegationProofs.ExpiredRunEndsDone | backend/packages/agent-runtime/src/delegationRegistry.ts:306-330 | an expiry whose close returns leaves a `running` row `done` and its entry forgotten; a row another writer closed is left alone and read back |
| DelegationProofs.ReadBackForgets | backend/packages/agent-runtime/src/delegationRegistry.ts:321-341 | that read back forgets the entry whether it succeeds or fails |
| DelegationProofs.NoTurnOnKnownRun | backend/packages/agent-runtime/src/delegationRegistry.ts:280-331 | no turn starts on a run the registry closed or saw terminal |
| DelegationProofs.TurnsStartOnRunningRowsIff | backend/packages/agent-runtime/src/delegationRegistry.ts:157-181 | in every run a turn starts on a `running` row exactly when no other writer closed the row and no expiry closed it by a call that threw |
| DelegationProofs.TurnsStartOnRunningRows | backend/packages/agent-runtime/src/delegationRegistry.ts:157-181 | every turn starts on a `running` row when no other writer closes rows and no expiry's close takes effect although it throws |
| DelegationProofs.LateFailureTouchesNothing | backend/packages/agent-runtime/src/delegationRegistry.ts:332-357 | in every run, an expiry that fails late leaves every entry and timer alone; no entry is the expired one any more |
| DelegationProofs.LostConfirmationReusesClosedRun | backend/packages/agent-runtime/src/delegationRegistry.ts:338-341 | a close that commits although its call throws lets the next delegation continue a `done` run |
| DelegationProofs.StepKeeps | backend/packages/agent-runtime/src/delegationRegistry.ts:138-358 | every step keeps the registry invariant |
| DelegationRegistry.DelegationRegistry.Delegate | backend/packages/agent-runtime/src/delegationRegistry.ts:147-183 | refuses a busy or reserved key, claims an idle entry, or reserves a new key, in one synchronous stretch |
| DelegationRegistry.DelegationRegistry.TurnSucceeded | backend/packages/agent-runtime/src/delegationRegistry.ts:176-180 | the entry is idle, its old timer is cleared and a new timer of its own key is pending; no other entry changes |
| DelegationRegistry.DelegationRegistry.Drop | backend/packages/agent-runtime/src/delegationRegistry.ts:171-172 | the key has no entry any more and the entry's timer is not pending; every other entry and timer stays |
| DelegationRegistry.DelegationRegistry.FirstTurnSucceeded | backend/packages/agent-runtime/src/delegationRegistry.ts:248-259 | the key is released and holds the new run idle, with a fresh timer of its own |
| DelegationRegistry.DelegationRegistry.Expire | backend/packages/agent-runtime/src/delegationRegistry.ts:306-309 | a firing timer is spent and claims its key's entry unless it is gone or busy |
| DelegationRegistry.DelegationRegistry.ExpireThrew | backend/packages/agent-runtime/src/delegationRegistry.ts:332-357 | only an entry identical to the expired one is rescheduled or dropped |
| SempTheorems.MapHoldsLiveConversations | backend/packages/agent-runtime/src/sempConversation.ts:238-354 | at every await each conversation in the map is waking or holds an entry, and an entry is held by a call or has its tenant's pending timer |
| SempTheorems.OneTurnPerTenant | backend/packages/agent-runtime/src/sempConversation.ts:252-299 | at most one call per tenant wakes, continues, pauses or closes its conversation |
| SempTheorems.MessageIsTaken | backend/packages/agent-runtime/src/sempConversation.ts:252-299 | in every run a message is refused exactly while its conversation is waking, dropped or busy; otherwise it continues the idle entry or wakes a new conversation |
| SempTheorems.BrokenTurnIsForgotten | backend/packages/agent-runtime/src/sempConversation.ts:274-284 | a continued turn that fails forgets the conversation and its timer before its run is closed |
| SempTheorems.FailedTurnEndsInError | backend/packages/agent-runtime/src/sempConversation.ts:274-333 | a failed turn, first or continued, whose close takes effect leaves its run `error` unless it had ended before |
| SempTheorems.PausedRunEndsDone | backend/packages/agent-runtime/src/sempConversation.ts:393-408 | a pause's commit leaves its run `done` unless it had ended before, and recording it forgets the conversation |
| SempTheorems.DroppedStartsNoTurn | backend/packages/agent-runtime/src/sempConversation.ts:186-194 | a dropped conversation stays dropped and refuses every message; any turn still in flight on it was in flight when it was dropped |
| SempTheorems.WokenRunIsTracked | backend/packages/agent-runtime/src/sempConversation.ts:196-236 | a run whose first turn completed is terminal, tracked by a busy entry or a pending timer, being closed by a failed turn, or lost to that best-effort close failing |
| SempTheorems.SeenDropRollsBack | backend/packages/agent-runtime/src/sempConversation.ts:399-417 | a drop seen by the pause's check leaves every row as it was and turns the pause into a close |
| SempTheorems.DoomedRunNeverDone | backend/packages/agent-runtime/src/sempConversation.ts:393-421 | a run dropped before any pause of it passed its check never becomes `done` by Semp's hand |
| SempTheorems.SuccessfulDropRecordsError | backend/packages/agent-runtime/src/sempConversation.ts:205-216 | a close of a dropped run that succeeds leaves it `error` unless it had ended before, and forgets the conversation |
| SempTheorems.FailedPushReusesDoneRun | backend/packages/agent-runtime/src/sempConversation.ts:406-419 | a run in which a pause whose status push fails lets the next message continue a `done` run |
| SempRows.TurnsStartOnRunningRowsIff | backend/packages/agent-runtime/src/sempConversation.ts:252-354 | in every run a turn starts on a row that is no longer `running` exactly when a pause had closed it and then failed, or another writer closed it |
| SempRows.TurnsStartOnRunningRows | backend/packages/agent-runtime/src/sempConversation.ts:393-421 | every turn starts on a `running` row when no status push fails, no pause commits although it throws and no other writer closes rows |
| SempProofs.StepKeeps | backend/packages/agent-runtime/src/sempConversation.ts:186-421 | every step of sends, pauses, drops, retries and failing calls keeps the invariant |
| SempConversation.SempConversation.Send | backend/packages/agent-runtime/src/sempConversation.ts:252-299 | refuses, claims the idle entry or begins a wake, before the first await |
| SempConversation.SempConversation.DropTenant | backend/packages/agent-runtime/src/sempConversation.ts:186-194 | marks the conversation, clears its timer, and claims an idle entry for closing |
| SempConversation.SempConversation.CloseSettled | backend/packages/agent-runtime/src/sempConversation.ts:205-234 | after a close that succeeded the conversation holds no entry and leaves the map unless a wake is ending; after one that failed the entry stays, idle, with its own retry pending |
| SempConversation.SempConversation.TurnFailed | backend/packages/agent-runtime/src/sempConversation.ts:274-283 | the conversation holds no entry, the entry's timer is cleared, and the conversation leaves the map unless it is waking |
| SempConversation.SempConversation.FirstTurnSucceeded | backend/packages/agent-runtime/src/sempConversation.ts:335-353 | the conversation holds the new run: idle with its pause pending and the wake over, or busy without a timer when the tenant was dropped |
| SempConversation.SempConversation.BeginPause | backend/packages/agent-runtime/src/sempConversation.ts:393-397 | a pause claims the entry unless it is gone or busy |
| SempConversation.SempConversation.PauseThrew | backend/packages/agent-runtime/src/sempConversation.ts:409-420 | a dropped conversation's entry stays busy for its close and no timer is set; any other is idle again with its pause pending |
| ThrottleTheorems.VerdictIsTheLogs | backend/services/semprec-api/src/clientIpThrottle.ts:175-185 | the stored arrays answer, refusal and wait alike, exactly as the log of unreleased grants would |
| ThrottleTheorems.WindowHoldsAtMostMax | backend/services/semprec-api/src/clientIpThrottle.ts:188-223 | of one slot's never-released grants since it was last evicted while live, at most `maxEvents` fall into any stretch as long as the window |
| ThrottleTheorems.StoreIsBounded | backend/services/semprec-api/src/clientIpThrottle.ts:118-147 | arrays are non-empty, sorted and bounded, and the slot count is right and never above `maxKeys` |
| ThrottleTheorems.NewestSuffice | backend/services/semprec-api/src/clientIpThrottle.ts:201-205 | forgetting all but the newest `maxEvents` events never changes a verdict or a wait |
| ThrottleTheorems.ReleaseIsExact | backend/services/semprec-api/src/clientIpThrottle.ts:225-239 | `release` changes the arrays exactly when its own event is still counted, and then removes exactly that event; other slots never change, and releasing again does nothing |
| ThrottleTheorems.WaitIsExact | backend/services/semprec-api/src/clientIpThrottle.ts:180-184 | after the returned seconds with no new event the slot is under its limit, and up to one second earlier it is still refused |
| ThrottleProofs.StepKeeps | backend/services/semprec-api/src/clientIpThrottle.ts:136-242 | every acquire, release and question keeps the arrays equal to the live end of the log |
| ClientIpThrottle.ClientIpThrottle.Prune | backend/services/semprec-api/src/clientIpThrottle.ts:136-147 | the loop drops exactly the expired prefix, and the slot when nothing is left |
| ClientIpThrottle.ClientIpThrottle.MakeRoom | backend/services/semprec-api/src/clientIpThrottle.ts:149-173 | a live slot is evicted only when no expired one is left, and then one whose newest event is the oldest |
| ClientIpThrottle.ClientIpThrottle.RecordEvent | backend/services/semprec-api/src/clientIpThrottle.ts:188-208 | counts one event on the slot's own array, or on a fresh one after room was made |
| ClientIpThrottle.ClientIpThrottle.TryAcquire | backend/services/semprec-api/src/clientIpThrottle.ts:217-225 | checks and counts in one step, and hands out a reservation for the array that holds the event |
| ClientIpThrottle.ClientIpThrottle.Release | backend/services/semprec-api/src/clientIpThrottle.ts:225-239 | uncounts once, and only on the array identical to the one recorded |
| Ipv6.SpellingParses | backend/services/semprec-api/src/clientIpThrottle.ts:25-55 | every spelling section 2.2 of RFC 4291 allows, zone included, parses back to its eight groups |
| Ipv6.SpellingsShareKey | backend/services/semprec-api/src/clientIpThrottle.ts:57-73 | two addresses share a key exactly when both are mapped from one IPv4 address, or neither is mapped and they share a /64 |
| Ipv6.MappedSharesWithIpv4 | backend/services/semprec-api/src/clientIpThrottle.ts:66-68 | a mapped address is limited together with its IPv4 address as an IPv4 client writes it |
| Ipv6.KeysAgree | backend/services/semprec-api/src/clientIpThrottle.ts:62-73 | the key text determines the mapped address or the /64, and nothing more |
| Ipv6.ParseGroups | backend/services/semprec-api/src/clientIpThrottle.ts:39-47 | the loop over a part's groups computes the specified parse |
| BudgetProofs.SpendStaysNearCap | backend/packages/ai-gateway/src/gateway.ts:38-86 | in every reachable state a capped window has spent nothing, or less than its cap plus its last row's estimate plus what that row and the rows still `reserved` when it was admitted cost beyond their estimates |
| BudgetProofs.HonestEstimatesBoundSpend | backend/packages/ai-gateway/src/gateway.ts:46-58 | when costs never exceed estimates, spend is 0 or below the cap plus the largest estimate |
| BudgetProofs.AdmittedBelowCaps | backend/packages/ai-gateway/src/gateway.ts:72-86 | at the moment of every insert each of the row's four windows has spent, real costs included, less than its cap plus only the overruns settled since this call's check of it; less than its cap when no cost exceeds its estimate |
| BudgetProofs.OneCallChecks | backend/packages/ai-gateway/src/gateway.ts:60-74 | the advisory lock lets one call check and insert at a time |
| BudgetProofs.RowsSettleOnce | backend/packages/data/src/aiGateway/aiGatewayCallsStore.ts:201-248 | a row leaves `reserved` at most once and never changes again |
| BudgetHistory.SettledAtReturnedCost | backend/packages/ai-gateway/src/gateway.ts:128-202 | in every run each row is its call's reservation; it is settled only at the cost that call's provider returned, and failed, at cost 0, only after the provider rejected |
| BudgetHistory.ReturnedSettleStoresCost | backend/packages/data/src/aiGateway/aiGatewayCallsStore.ts:201-216 | a settle that answers leaves a reserved row settled at that cost and every other row alone |
| BudgetHistory.UndisturbedReservation | backend/packages/ai-gateway/src/gateway.ts:60-86 | after any run, a call that takes the lock and is undisturbed reserves its estimate exactly when its tenant is active and its budget allows it, leaves no row otherwise, and frees the lock |
| BudgetHistory.ThrownSettleIsRetried | backend/packages/ai-gateway/src/gateway.ts:128-167 | a settle that throws without effect is tried again at the same cost until its third attempt |
| BudgetHistory.RejectedCallFails | backend/packages/ai-gateway/src/gateway.ts:88-112 | a rejected call whose failure is recorded turns its own row, if still reserved, failed at cost 0, and no other |
| BudgetProofs.TenantSpendIsCounted | backend/packages/data/src/aiGateway/aiGatewayCallsStore.ts:255-278 | what the database adds up for a tenant is at least what its calendar windows have spent, in whatever order rows were inserted |
| BudgetProofs.PassesExactlyBelowCaps | backend/packages/ai-gateway/src/gateway.ts:38-58 | when no row is later than the clock, the checks pass exactly when a budget exists and each capped window's spend is below its cap, so no call is refused too early |
| AiGateway.AiGateway.AssertWithinBudget | backend/packages/ai-gateway/src/gateway.ts:46-58 | refuses exactly when a budget is missing or a cap is reached, tenant caps first |
| AiGateway.AiGateway.SettleWithRetry | backend/packages/ai-gateway/src/gateway.ts:114-167 | at most three attempts; a reserved row is settled at the given cost exactly when an attempt made took effect, and else keeps counting at its estimate; no other row changes |
| AiGateway.AiGateway.FailGatewayCall | backend/packages/data/src/aiGateway/aiGatewayCallsStore.ts:235-248 | a reserved row fails at cost 0, any other is left alone and the call throws; no other row changes |
| CanonicalJsonProofs.SameTextIffEquivalent | backend/packages/shared/src/canonicalJson.ts:8-22 | two values have the same canonical text exactly when they are equal up to object key order |
| CanonicalJsonProofs.CanonicalTextReadsBack | backend/packages/shared/src/canonicalJson.ts:8-22 | parsing the canonical text gives the value back, up to key order |
| CanonicalJsonProofs.CanonicalTextIsPaired | backend/packages/shared/src/guidanceDrift.ts:104-105 | canonical text holds no half surrogate pair, so encoding it as UTF-8 for the hash loses nothing |
| JsonText.StringReadsBack | backend/packages/shared/src/canonicalJson.ts:14 | every string literal reads back as its string, lone surrogates included |
| JsonText.OrdersAgree | backend/packages/shared/src/canonicalJson.ts:24-29 | the code-unit order is the code-point order exactly when the first difference does not cross the surrogates |
| JsonText.OrdersDiffer | backend/packages/shared/src/canonicalJson.ts:24-29 | two keys the two orders sort differently |
| GuidanceDrift.SameFingerprintTextIff | backend/packages/shared/src/guidanceDrift.ts:97-106 | two contradictions hash the same text exactly when their fields agree and their facts are the same multiset |
| ToolProtocol.AcceptedIffPaired | backend/packages/agent-runtime/src/conversationReconstruction.ts:78-103 | the validator accepts exactly the histories where result number i follows and matches call number i and the counts agree |
| ToolProtocol.ValidateProtocolInvariants | backend/packages/agent-runtime/src/conversationReconstruction.ts:78-103 | the loop decides exactly that |
| ToolProtocol.SegmentsConcatenate | backend/packages/agent-runtime/src/conversationReconstruction.ts:70-77 | runs that each obey the protocol make up a history that does |
| ToolProtocol.RepairedIsPairedIff | backend/packages/agent-runtime/src/startupRepair.ts:63-78 | repair leaves a valid log exactly when the log was valid or had one call with a string id open at its very end |
| ToolProtocol.RunStore.RepairCurrentTenant | backend/packages/agent-runtime/src/startupRepair.ts:59-85 | closes every orphaned run as `error`, answering exactly a call at the very end of its log, which makes the log valid if that could; every other run is unchanged; a write that throws leaves all as they were |
| Reconstruction.TailIsEnough | backend/packages/data/src/agentRuns/agentRunEventsStore.ts:154-184 | walking from the last checkpoint equals walking the whole log once every row behind the checkpoint has a larger id |
| Reconstruction.SequentialTailIsEnough | backend/packages/agent-runtime/src/conversationReconstruction.ts:105-117 | strictly sequential wakes make the tail enough |
| Reconstruction.StoredChain | backend/packages/agent-runtime/src/conversationReconstruction.ts:120-145 | if checkpoints are linked chains, the entries are one linked chain with consecutive numbers |
| Reconstruction.WalkThrowsIff | backend/packages/agent-runtime/src/conversationReconstruction.ts:120-145 | the walk throws exactly when one of its rows is malformed |
| Reconstruction.CheckpointIsContinued | backend/packages/agent-runtime/src/conversationReconstruction.ts:120-145 | a checkpoint's entries come first, unchanged; each message row behind it becomes one entry naming the row, its time and its message, and continues the chain |
| Reconstruction.PlainLogIsRead | backend/packages/agent-runtime/src/conversationReconstruction.ts:105-145 | without a checkpoint the message rows become the entries, linked from the root on |
| Reconstruction.PersistedComesBack | backend/packages/agent-runtime/src/conversationReconstruction.ts:161-191 | reconstructing right after persisting valid entries returns exactly them, unless they are none or still too large |
| Reconstruction.ReconstructedIsPaired | backend/packages/agent-runtime/src/conversationReconstruction.ts:166-181 | whatever is handed on obeys the tool protocol, and is compacted exactly when the stored history was too large |
| Reconstruction.RepairedHistoryIsAccepted | backend/packages/agent-runtime/src/startupRepair.ts:30-35 | a valid checkpoint followed by repaired runs reconstructs to a history the validator accepts |
| Reconstruction.WalkStoredEntries | backend/packages/agent-runtime/src/conversationReconstruction.ts:116-146 | the loop over the rows computes the specified walk |
| Reconstruction.ReconstructConversationHistory | backend/packages/agent-runtime/src/conversationReconstruction.ts:161-181 | nothing for an empty history, a throw exactly for a malformed row, an invalid history or a compaction that rejects or breaks the protocol, and otherwise the stored entries, or exactly what compaction made of a too large history |
| InvalidationCoalescer.CoalescingKeepsMeaning | backend/packages/realtime/src/invalidationCoalescer.ts:47-75 | while the socket is open, sent and pending frames leave a last-writer-wins client where all frames would; one pending frame per item, and then a poller |
| InvalidationCoalescer.DrainedPollCatchesUp | backend/packages/realtime/src/invalidationCoalescer.ts:31-37 | after a drained poll the frames sent alone do |
| InvalidationCoalescer.QueueTakes | backend/packages/realtime/src/invalidationCoalescer.ts:59-61 | replacing a pending frame means the same as taking the new frame last |
| InvalidationCoalescer.QueueKeepsPlaces | backend/packages/realtime/src/invalidationCoalescer.ts:59-61 | a queued frame replaces its item's pending frame in place or goes to the end; no other frame moves |
| InvalidationCoalescer.Coalescer.Enqueue | backend/packages/realtime/src/invalidationCoalescer.ts:48-75 | sends at once on a drained idle socket, else queues and polls, for this socket only |
| InvalidationCoalescer.Coalescer.Poll | backend/packages/realtime/src/invalidationCoalescer.ts:63-72 | a tick on a drained open socket stops the poller and sends the pending frames in order; on a closed one it only stops; otherwise it waits |
| AgentRunClosing.OneTerminalEvent | backend/packages/agent-runtime/src/lifecycleAdapter.ts:254-275 | at most one terminal event commits, it is the row's status, and nothing follows it, over every run of duplicate jobs, failed commits and repair |
| AgentRunClosing.ClosedStaysClosed | backend/services/semprec-agents/src/agentRunTasks.ts:82-95 | once the row has left `running`, neither its status nor its events ever change |
| AgentRunClosing.CloseIsAllOrNothing | backend/packages/agent-runtime/src/lifecycleAdapter.ts:225-261 | a close that returns wrote status and event together, or found the row closed and wrote nothing |
| AgentRunClosing.ClaimIsAllOrNothing | backend/services/semprec-agents/src/agentRunTasks.ts:82-95 | a claim that returns stored its `running` event and starts the session, or found the row closed and wrote nothing |
| AgentRunClosing.UndisturbedDelivery | backend/services/semprec-agents/src/agentRunTasks.ts:66-131 | after any run, an undisturbed delivery of a `running` row announces it and starts its session, or closes it as `error` when none can be composed; one of a closed row does nothing |
| AgentRunClosing.StatusHasACause | backend/packages/agent-runtime/src/lifecycleAdapter.ts:247-282 | a row is `done` only after a session that succeeded, and `error` only after a failure or startup repair |
| AgentRunClosing.RowAndEventAgree | backend/packages/agent-runtime/src/lifecycleAdapter.ts:255-257 | without startup repair the row is closed exactly when its terminal event is stored |
| AgentRunClosing.AgentRunRow.EndSession | backend/packages/agent-runtime/src/lifecycleAdapter.ts:247-282 | a session ends `done`, or `error` when it or its first close failed, or stays `running` when both closes fail |
| AgentRunClosing.AgentRunRow.ClaimRunningRun | backend/services/semprec-agents/src/agentRunTasks.ts:82-95 | a `running` event is written exactly when the row is still `running` under its lock |
| ApprovalReplay.MutatesExactlyOnce | backend/packages/application/src/genericOperationGateway.ts:344-425 | over every redelivery, rollback and edit at most one mutation commits; with an all-or-nothing executor one does exactly when the row becomes `succeeded` and the last edit between check and execution did not remove the resource |
| ApprovalReplay.SucceedsWithoutMutatingIff | backend/packages/data/src/chokePoint/itemTrash.ts:30-44 | the row becomes `succeeded` without a mutation exactly when the last edit between check and execution removed the resource |
| ApprovalReplay.MutatesWhatWasApprovedIff | backend/packages/application/src/genericOperationGateway.ts:395-414 | a committed mutation ran on the approved version exactly when no edit slipped in after its check or the last one wrote that version back |
| ApprovalReplay.EditCanSlipIn | backend/packages/application/src/genericOperationGateway.ts:395-414 | a run that mutates a version other than the approved one |
| ApprovalReplay.RemovalCanSlipIn | backend/packages/data/src/chokePoint/relationOps.ts:205-223 | a run that ends `succeeded` and has mutated nothing |
| ApprovalReplay.TerminalIsFinal | backend/packages/application/src/genericOperationGateway.ts:354-360 | after any run that made the row terminal, no delivery changes its outcome or mutates, and each reports the stored outcome unless its own calls fail before it has read it |
| ApprovalReplay.UndisturbedReplay | backend/packages/application/src/genericOperationGateway.ts:354-425 | after any run, a delivery that takes the row's lock and is then undisturbed executes exactly the approved, unchanged operation once and stores its result, stores a domain error, a changed resource or a refusal as a conflict, and leaves a broken one queued |
| ApprovalReplay.ApprovedOperationExecutor.Replay | backend/packages/application/src/genericOperationGateway.ts:344-425 | one undisturbed delivery: the stored answer of a terminal row; a rejection exactly when the row is not approved and queued, the transaction does not commit or the executor broke; otherwise the result with one mutation, or a conflict with its reason |
| Pagination.PresentRowsReturnedOnce | backend/packages/application/src/genericApplicationService.ts:43-50 | in a walk that ends, every row present throughout is returned exactly once while others come and go |
| Pagination.NothingTwice | backend/packages/application/src/genericApplicationService.ts:43-50 | no id is returned twice; later pages hold only larger ids |
| Pagination.PagesConcatenate | backend/packages/application/src/genericApplicationService.ts:43-50 | over a fixed set, following cursors ends and concatenates to the sorted rows |
| Pagination.PageCovers | backend/packages/application/src/genericApplicationService.ts:44-49 | a page is the rows just beyond its cursor, none skipped |
| Deactivation.DeactivatedJobsAreAborted | backend/services/semprec-agents/src/agentRunTasks.ts:32-59 | once a deactivation has committed and its abort has run, every job of the tenant past its status read has an aborted signal |
| Deactivation.OnlyOwnJobsAreAborted | backend/services/semprec-agents/src/inFlightAgentRuns.ts:27-32 | a job is aborted only in a run in which its own tenant was deactivated or aborted |
| Deactivation.NoSocketOutlivesItsTenant | backend/packages/realtime/src/syncServer.ts:495-533 | no open socket's tenant was closed after the socket's upgrade began |
| Deactivation.FreshUpgradeStaysOpen | backend/packages/realtime/src/syncServer.ts:511-518 | a socket is closed on attach exactly when its tenant was closed since its upgrade began |
| Deactivation.OthersStayOpen | backend/packages/realtime/src/syncServer.ts:495-533 | an attached socket stays as it is until its own tenant, itself or the server is closed |
| Deactivation.InFlightAgentRuns.AbortTenant | backend/services/semprec-agents/src/inFlightAgentRuns.ts:27-32 | aborts every controller registered for the tenant and counts them |
| Deactivation.InFlightAgentRuns.Unregister | backend/services/semprec-agents/src/inFlightAgentRuns.ts:20-25 | the tenant loses exactly that controller, no other tenant loses any, and no empty set is kept |
| Deactivation.SyncServer.CloseTenant | backend/packages/realtime/src/syncServer.ts:525-533 | records the close, closes every open socket of the tenant and leaves every other socket as it was |
| Deactivation.SyncServer.FinishUpgrade | backend/packages/realtime/src/syncServer.ts:496-524 | rejects without an identity or on a closed server and attaches nothing, else attaches and closes at once a socket that came too late; no other socket changes |

## Left out

- Agent delivery covers one run of one tenant. Runs do not interact; a reference of another tenant is only filtered out. Typing deltas are not modelled, nor a lost LISTEN connection, which closes every socket.
- Watcher, timer, entry and array objects are identified by numbers in maps instead of by reference. Nothing in the source aliases them in another way.
- The delivery theorems excuse events whose announcement or live row fetch failed. The source logs and drops those until the client resumes.
- `clear()` of both registries, the UUID format check of `delegate`, and the tenant-scope check of `send` are not modelled.
- SempTheorems.WokenRunIsTracked: a run whose row was created but whose first turn never completed is not covered; such rows are left to startup repair.
- SempTheorems.DroppedStartsNoTurn: a wake that was already under way when its tenant was dropped still reaches its first turn, because the source does not abort it.
- ThrottleTheorems.ReleaseIsExact: stated for runs without bare `record` calls, as in the only caller; a `record` past the limit truncates an array and may drop another caller's event.
- The limiter's four per-action maps are one map keyed by (action, key). Which of several equally old live slots is evicted is left open, where the source takes the first in iteration order.
- `isIPv6` is node's and a parameter of the key function; `isIPv4` is modelled as four decimal octets without leading zeros.
- ThrottleTheorems.WindowHoldsAtMostMax: events of a slot evicted while live are forgotten, as in the source, so the bound restarts there.
- Budget: amounts are exact and not negative, caps and calendars fixed while a run lasts, and rows are written by the gateway only. Which row columns carry tokens or seconds is not modelled.
- BudgetProofs.AdmittedBelowCaps: overruns that settle between a call's check and its insert are not refused by the source, so they are added to the cap.
- Canonical JSON: a finite number is given by the text `JSON.stringify` writes for it; SHA-256 is not modelled, only the text it is given.
- Reconstruction: payloads are stored and read back unchanged; token estimation and compaction are parameters.
- Reconstruction.PersistedComesBack: entries that are still too large are compacted again, as in the source.
- ToolProtocol.RepairedIsPairedIff: a row's kind is its message's kind, as every writer of the repository stores it.
- InvalidationCoalescer.CoalescingKeepsMeaning: says nothing about a socket that was closed; its client refetches when it reconnects.
- `createRunAgentForHeartbeats` and `failRun` write their status events apart from the row and are outside the one-terminal-event claim.
- ApprovalReplay.MutatesExactlyOnce: an executor that mutates and then refuses with a domain error would commit its mutation with a `conflict`; the equivalence is stated for executors that do not.
- ApprovalReplay: which of the five operations return normally on a missing resource is not told apart; any may.
- Pagination compares ids only, so they are numbers; distinct ids are assumed, as for primary keys.
- Row-level security, SQL text, graphile-worker, Yjs document sync, HTTP handlers, logging and the web and mobile clients are not modelled.
- The codecs of binary frames and of agent deltas are not modelled: they would only add easy members.
