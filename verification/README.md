# Verification of the matchmaking backend

A Dafny model of a random video-chat backend: who is queued, who is matched with
whom, what each browser is told, and the small stateful pieces next to it (the
distributed lock, coins and purchases, rate limiters, chat redaction, opening
hours, call rewards). `dafny verify dfyconfig.toml` checks everything.

## How the model is built

- **Matcher.** `MatchModel.dfy` says what each locked section of
  `MatchService` does, as a function from state to state. `MatchService.dfy` is
  the service itself, a class that updates its fields and the store step by
  step; every handler is proved to reach exactly the state its function gives
  and to keep the invariant. `MemoryStore.dfy` is the store class with its
  in-place queue, its index of pending rooms and its pruned blocks.
  `MatchInvariant.dfy` and `MatchSteps.dfy` prove the invariant over every run.
  `Greedy.dfy` and `PassTheory.dfy` say what a match pass computes.
  `MatchComplete.dfy` proves that the incremental matcher loses nobody.
  `MatchTrace.dfy` proves the order of lifecycle events, `MatchClients.dfy` that
  the browser's reducer (`Signaling.dfy`) agrees with the stored session,
  `MatchEffects.dfy` and `MatchRooms.dfy` state what the handlers do without
  naming their bodies. `MatchFocus.dfy` says when an incremental pass comes out
  like a whole one, `MatchSearch.dfy` when a search a browser shows is a real
  one, and `MatchRuns.dfy` has the runs in which they do not. What events and
  rules come to is said over plain fields: who may meet and whom a pass puts
  together (`MatchRules.dfy`), what a match offers (`MatchOffers.dfy`), whom a
  hello admits (`MatchHellos.dfy`), how long a pair stays apart
  (`MatchBlocks.dfy`), who is told what else (`MatchNews.dfy`), which browser
  calls (`MatchRoles.dfy`) and what a browser shows (`ClientView.dfy`).
- **Time and the outside.** One event is one locked section. It comes with an
  `Env`: the clock and the answers of the services around the matcher (bans,
  low-priority devices, filter unlocks, hourly caps, flags). `startCall` is a task
  that takes the lock later. The trace records what was sent to each socket, and
  what its user did, in order.
- **Lock.** `LeaseLock.dfy` is a transition system over the callers of several
  processes with their local queues, renewal timers that fire a period apart or
  later, one key with a token and an expiry, and commands that, until they are
  answered, may execute late, again or never. `LockProgress.dfy` proves that it
  moves on: leaving frees the key and lets the next caller in.
- **Coins.** `Billing.dfy` is a transition system whose steps are single store
  calls of interleaved tasks, each of which may succeed, fail, fail after taking
  effect, or take effect and be sent again; which of these the calls may do, and
  how long a request may take, is part of the configuration. `WalletStore.dfy` is
  the in-process wallet store as a class, and `BillingService.dfy` the billing
  service on it, each of whose methods is proved to take a step of `Billing.dfy`.
  `Payments.dfy` traces every credit back to the payment of its order.
- **Rates, text, hours, rewards.** `RateLimit.dfy`, `Redact.dfy`,
  `OpeningHours.dfy`, `Rewards.dfy`, and `MatchRewards.dfy`, which ties the
  rewards to runs of the matcher.

## Where the code does less than its comments or callers may expect

- **Same pairs as a full pass.** The pass's comment says the incremental pass
  gives the same pairs, but across a lapsed block, because the other waiters were
  already unmatchable. Their ladder steps may have risen since: a hello then
  leaves two matchable waiters in the queue where a full pass would have created
  a room (`MatchRuns.QuietPairIsMissed`). In every legal run the claim holds for
  every sweep that reads its clock once (`MatchFocus.SweepPassIsWhole`), and for
  every event at which no step has risen and no wake time has come since the last
  sweep (`MatchFocus.EventPassIsWhole`). For any two passes the pairs are the same
  exactly when every pair of the full pass has a member in focus
  (`PassTheory.FocusedPassEqualsWholePass`), and an event's pass finds nobody
  where a full one would exactly when two waiters are matchable and no two of
  whom one is dirty (`MatchFocus.PassMatchesIff`).
- **A hung section cannot hold the cluster.** No comment says for how long. One
  hold limit and one lease is not enough: a renewal already on its way is not
  recalled, so that bound holds in every interleaving exactly when no command
  executes 2 ms or more after it was sent, or sections are cut off, or leases
  over, before the first renewal (`LeaseLock.HoldAndTtlNeedPromptCommands`); the
  bound that always holds adds the delay (`LeaseLock.HungSectionLosesLease`).
- **Renewal keeps a slow section's lock.** For every configuration and pace:
  punctual runs never have two callers in the section exactly when a late tick,
  with the answer before it and its own, fits in a lease, or a lease outlasts a
  section (`LeaseLock.OneInsideIffKeepsUp`). At any slower pace some punctual run
  has two callers inside, and neither is told (`LeaseLock.SlowHolderIsJoined`).
- **Client and server agree on the room.** A refused hello clears the client's
  room whatever the server still holds. The agreement breaks exactly there
  (`MatchClients.StepAgreesUnlessDisrupted`, with the run in
  `MatchRuns.RefusedHelloStaysQueued`); a browser that says hello only on connect
  or from idle never gets there.
- **A search shown is a search run.** A client told that its room ended shows a
  search. An event keeps every shown search a real one exactly when it strands
  nobody: it frees no member that is capped or banned for another reason than the
  member's own silence, and takes no device that shows a search out of the queue
  or a room (`MatchSearch.SearchAgreesUnlessStranded`); so do runs
  (`MatchSearch.SearchAgreesInEveryRun`). `MatchRuns.CappedClientSearchesOn` and
  `MatchRuns.RestrictedClientSearchesOn` are runs in which a client searches in
  vain.
- **Credited exactly once per order.** No run credits twice exactly when four
  things hold: claims outlast every request that read the order unpaid, a
  balance update that failed has moved nothing, none is executed again after a
  lost reply, and no claim is given back twice
  (`Billing.CreditedOnceIffClaimsGuard`, with the run for each). The comment of
  `credit()` says a claim never expires; it expires after two years.
- **A claim is given back when nothing was credited.** Not the claim of a call
  that failed after taking it, or that was sent again and found its own claim,
  or whose release fails: no claim stays behind exactly when none of these
  happens (`Billing.NothingStrandedIffAnswered`), and the coins of an order with
  such a claim never move (`Billing.StrandedForGood`).
- **The ledger explains the balance, and balances stay non-negative.** Once
  everything moved is on record the first holds in every run exactly when no
  balance update and no ledger entry is executed again
  (`Billing.LedgerExplainsIffNothingRepeats`); once no debit holds anything the
  second does exactly when no balance update is
  (`Billing.SolventIffNothingRepeats`). What is executed again is a term of its
  own in the conservation law (`Billing.CoinsAreConserved`).
- **A replay answers ok.** Also while the attempt it repeats has yet to move the
  coins. That ok means credited is true in every run exactly when claims guard and
  are answered for, and no balance update fails either
  (`Billing.OkIsExactIffNothingFails`); otherwise it holds once nothing fails from
  some quiet moment on (`Billing.OkMeansCredited`).
- **Nothing taken when the balance is too low.** A refused unlock holds its cost
  until it is put back, so another one the device could afford may be refused
  (`Billing.UnlockIsGranted`, `Billing.AffordableIsRefused`).
- **An unpaid order is kept for a day.** Not when paid orders fill the store:
  then every new order is dropped as it is stored, although `createOrder`
  answers ok (`WalletStore.MemoryWalletStore.PutOrder`), and its payment is never
  credited (`BillingServer.BillingService.CreateOrder`). Once stored it is kept
  over any run of later puts within its day exactly when at each of them the paid
  orders, it, and the unexpired ones put after it fit
  (`WalletStore.KeptForItsDay`).
- **Staffed hours.** "24:00-00:00" passes the parser and never opens; it is the
  only window that does (`OpeningHours.ReopensAtIsLeast`).
- **Bucket maps bounded at `maxKeys`.** With `maxKeys` 0 the map holds one bucket
  (`RateLimit.IpBuckets.Allow`).

## Model

| member | source | states |
|---|---|---|
| Compatibility.RelaxStep | backend/src/match/relax.ts:31-37 | the ladder step lies between held and the top |
| Compatibility.FitsIsSymmetric | backend/src/match/compatibility.ts:21-38 | hard and soft rules together do not depend on who is asked first |
| Compatibility.WaitingNeverPartsPair | backend/src/match/relax.ts:31-52 | two waiters who may be matched may be matched at any later time, whatever the ladder and whoever is low priority |
| Compatibility.LadderEndsAtHardRules | backend/src/match/relax.ts:12-18 | once both waited out the ladder only the hard rules decide: nobody is excluded for good |
| Compatibility.FitsIff | backend/src/match/compatibility.ts:17-38 | two users fit exactly when their devices differ, each one's gender filter is all or the other's gender, each one's language filter is any, the other's language or shares its primary part, neither is held back, and they share what the longer wait of the two still asks for |
| MatchRules.MatchableIff | backend/src/match/MatchService.ts:1168-1190 | two sessions are matchable exactly when both wait, they may meet by those rules, neither is banned and no block between them is in force |
| MatchRules.PassFollowsRules | backend/src/match/MatchService.ts:1168-1196 | every room a pass makes joins two such sessions and carries their devices |
| MatchRules.EveryRoomFollowsRules | backend/src/match/MatchService.ts:284-1197 | in every run, so does every room that any event brings |
| Greedy.GreedyIsUnique | backend/src/match/MatchService.ts:1114-1115 | there is only one lexicographically greedy matching |
| Greedy.FullPassIsGreedy | backend/src/match/MatchService.ts:1168-1196 | oldest-first with the oldest partner is that matching, rows ascending |
| Greedy.IncrementalPassIsFullPass | backend/src/match/MatchService.ts:1117-1122 | for any relation and focus: the focused pass equals the full pass iff every pair of the full pass touches the focus |
| Greedy.QuietOutsideFocusSuffices | backend/src/match/MatchService.ts:1120-1122 | it is enough that no two waiters outside the focus may be paired |
| PassTheory.ScanIsPass | backend/src/match/MatchService.ts:1167-1196 | the pass with its held rows, wake times and blocks creates the pairs of the plain greedy pass |
| PassTheory.PassYieldsGreedyMatching | backend/src/match/MatchService.ts:1128-1196 | a set of pairs is the greedy matching of what may be tried iff it is what the pass creates |
| PassTheory.FocusedPassEqualsWholePass | backend/src/match/MatchService.ts:1117-1126 | dirty or recheck pass equals the whole pass, in order, iff every pair of the whole pass has a member in focus |
| PassTheory.QuietRestMakesPassesEqual | backend/src/match/MatchService.ts:1120-1122 | in particular when no two waiters outside the focus may be paired |
| PassTheory.ScanSettles | backend/src/match/MatchService.ts:1168-1196 | two waiters a pass tried and left apart are unmatchable, or blocked with a wake time no later than the block's end; no wake time moves back |
| MatchFocus.PassIsWhole | backend/src/match/MatchService.ts:1117-1126 | with the bookkeeping sound and recorded steps and wake times up to date, a pass in any mode comes out as the whole pass |
| MatchFocus.SweepPassIsWhole | backend/src/match/MatchService.ts:744-756 | in every legal run the pass of a sweep that reads its clock once comes out as the whole pass |
| MatchFocus.EventPassIsWhole | backend/src/match/MatchService.ts:1117-1122 | in every legal run so does the pass of an event that meets no risen step and no wake time that has come |
| MatchFocus.PassMatchesIff | backend/src/match/MatchService.ts:1117-1122 | while matching is open a whole pass creates a room iff two waiters are matchable, an event's pass iff two of whom one is dirty |
| MatchRuns.QuietPairIsMissed | backend/src/match/MatchService.ts:1117-1122 | the run in which two unmarked waiters stay matchable after an event's pass and a whole pass would have created a room |
| WaitingQueue.Position | backend/src/store/MemoryStore.ts:101-108 | the first index whose key is greater |
| WaitingQueue.AddRepresents | backend/src/store/MemoryStore.ts:99-112 | adding or re-scoring keeps the queue sorted, one entry a socket, and changes one key |
| WaitingQueue.WithoutRepresents | backend/src/store/MemoryStore.ts:117-136 | removing keeps it sorted and drops one key |
| WaitingQueue.AddKeepsArrivalOrder | backend/src/store/MemoryStore.ts:101 | a newcomer goes behind every entry that is not younger and in front of the rest |
| WaitingQueue.QueueHistory | backend/src/store/MemoryStore.ts:99-143 | after any adds, re-scores and removes the queue is sorted and holds exactly the latest keys |
| MemoryStore.FirstAfter | backend/src/store/MemoryStore.ts:101-108 | the insertion search finds that index |
| MemoryStore.IndexOf | backend/src/store/MemoryStore.ts:121-135 | the search and the equal-run scan find the entry of the socket |
| MemoryStore.MemoryStore.AddWaiting | backend/src/store/MemoryStore.ts:99-112 | array and key map become the queue with the entry added or moved |
| MemoryStore.MemoryStore.RemoveFromQueue | backend/src/store/MemoryStore.ts:117-136 | array and key map lose the socket, and nothing else |
| MemoryStore.MemoryStore.PutRoom | backend/src/store/MemoryStore.ts:150-154 | the index of pending rooms stays exactly the pending rooms |
| MemoryStore.MemoryStore.DeleteRoom | backend/src/store/MemoryStore.ts:156-159 | the same after a delete |
| MemoryStore.MemoryStore.ListExpiredPendingRooms | backend/src/store/MemoryStore.ts:162-166 | exactly the pending rooms past the cutoff, once each, earliest deadline first |
| MemoryStore.MemoryStore.GetBlock | backend/src/store/MemoryStore.ts:186-195 | answers as if no block had ever been dropped |
| MemoryStore.MemoryStore.SetBlock | backend/src/store/MemoryStore.ts:197-205 | one pair's block changes, whatever is pruned |
| MemoryStore.MemoryStore.ClearDeviceSocket | backend/src/store/MemoryStore.ts:95-97 | only the bound socket unbinds a device |
| MatchInvariant.EnqueueKeeps | backend/src/match/MatchService.ts:963-978 | queueing keeps sessions, rooms, queue and bindings telling one story |
| MatchInvariant.EndRoomKeeps | backend/src/match/MatchService.ts:1022-1051 | ending a room does, up to the members that are leaving |
| MatchInvariant.RemoveSessionKeeps | backend/src/match/MatchService.ts:1069-1082 | removing a session does, and frees its device |
| MatchInvariant.CreateRoomKeeps | backend/src/match/MatchService.ts:1222-1257 | creating a room of two waiting sessions does |
| MatchInvariant.ActivateKeeps | backend/src/match/MatchService.ts:908-919 | both accepting does |
| MatchInvariant.MatchPassKeeps | backend/src/match/MatchService.ts:1128-1197 | a pass in any mode does, and loses no session |
| MatchSteps.HelloKeeps | backend/src/match/MatchService.ts:257-359 | a hello keeps the invariant, whoever it replaces |
| MatchSteps.RestrictKeeps | backend/src/match/MatchService.ts:560-587 | a restriction keeps it |
| MatchSteps.SweepKeeps | backend/src/match/MatchService.ts:722-756 | a sweep keeps it |
| MatchSteps.StepKeeps | backend/src/match/MatchService.ts:284-756 | every locked section keeps it |
| MatchSteps.EveryRunIsConsistent | backend/src/match/MatchService.ts:284-1257 | in every run the queue is exactly the waiting sessions by key, a session is pending or active iff its room exists in that state and lists it, room members point back with their devices, bindings point at their session, and active means both accepted |
| MatchSteps.OneSessionPerDevice | backend/src/match/MatchService.ts:317-334 | in every run a device has at most one session |
| MatchTrace.StepOrderly | backend/src/match/MatchService.ts:389-946 | every event keeps the phase of each room, as each member sees it, in step with the stored room |
| MatchTrace.LifecycleInOrder | backend/src/match/MatchService.ts:389-411 | in any run a member hears found, partner accepted, call start, ended of a room in that order, each at most once |
| MatchTrace.NothingBeforeFound | backend/src/match/MatchService.ts:1249-1253 | nothing about a room is heard before match:found |
| MatchTrace.CallStartNeedsBothAccepts | backend/src/match/MatchService.ts:933-946 | in every run call:start goes out only for an active room both accepted, to its two members, one of them the initiator, once |
| MatchRoles.InCallRole | new-frontend/src/hooks/useSignaling.ts:262-272 | in every run a client in the call of a stored room is its initiator exactly if it is the older waiter |
| MatchRoles.OneInitiatorInEveryCall | new-frontend/src/hooks/useSignaling.ts:262-272 | in every polite run, when both members of a room are in a call it is that room's, and the older waiter's browser initiates and the other one does not |
| ClientView.HearsFieldByField | new-frontend/src/hooks/useSignaling.ts:194-352 | each part of what a browser shows moves by what concerns it and by nothing else |
| ClientView.ActEffect | new-frontend/src/hooks/useSignaling.ts:255-305 | what the user's own acts change |
| ClientView.ChatIsOfItsRoom | new-frontend/src/hooks/useSignaling.ts:280-305 | whatever is heard and done, a browser outside a room shows no messages, and in one only those that came for it or were typed in it |
| MatchOffers.OfferCountsDownLocally | new-frontend/src/hooks/useSignaling.ts:242-252 | a found match shows the whole accept timeout on the browser's own clock |
| MatchClients.StepAgreesUnlessDisrupted | new-frontend/src/hooks/useSignaling.ts:194-309 | one event keeps every client's room equal to its session's, in-call only while active, iff it is not a refused hello on a socket with a room (or a ban on a queued one) |
| MatchClients.ClientsAgreeInEveryRun | new-frontend/src/hooks/useSignaling.ts:561-620 | in every run of such browsers each client names its session's room |
| MatchClients.StartCallAgrees | new-frontend/src/hooks/useSignaling.ts:574-586 | a call:start that is sent puts both clients in the call |
| MatchClients.PoliteHelloDisruptsNothing | new-frontend/src/hooks/useSignaling.ts:529-564 | a hello on connect or from idle never meets a session that is queued or has a room |
| MatchSearch.StepStrays | backend/src/match/MatchService.ts:1036-1050 | after each event the sessions left idle while their clients show a search are exactly those it strands: capped or banned members freed for another reason than silence, and restricted devices that showed or now show a search |
| MatchSearch.SearchAgreesUnlessStranded | new-frontend/src/hooks/useSignaling.ts:274-278 | one event keeps every client that shows a search queued iff it strands nobody |
| MatchSearch.SearchAgreesInEveryRun | new-frontend/src/hooks/useSignaling.ts:561-597 | in every polite run every client that shows a search is queued at every moment iff no event of the run strands anybody |
| MatchRuns.RestrictedClientSearchesOn | backend/src/match/MatchService.ts:560-587 | the run in which a device restricted while it waits goes on showing a search |
| MatchRuns.CappedClientSearchesOn | backend/src/match/MatchService.ts:1039-1047 | the run in which a member who skips at its cap goes on showing a search |
| MatchRuns.RefusedHelloStaysQueued | backend/src/match/MatchService.ts:257-283 | the run in which a refused hello makes a client leave while its session stays queued |
| MatchComplete.BlockNeverShortens | backend/src/match/MatchService.ts:1099-1111 | a block never shortens, even when its record had been forgotten |
| MatchComplete.MatchPassDiligent | backend/src/match/MatchService.ts:1128-1197 | after a pass in any mode every pair without a dirty member is unmatchable at its recorded steps, banned, or blocked with a wake time |
| MatchComplete.RelaxTickCatchesUp | backend/src/match/MatchService.ts:990-1014 | walking the ladder brings every recorded step up to the clock |
| MatchComplete.RelaxTickDiligent | backend/src/match/MatchService.ts:990-1014 | every step that rises is marked in the same walk |
| MatchComplete.WakeLapsedDiligent | backend/src/match/MatchService.ts:745-750 | every lapsed wake time becomes a mark |
| MatchComplete.SweepLosesNobody | backend/src/match/MatchService.ts:744-755 | after a sweep no two waiting sessions could be matched at its clock |
| MatchComplete.StepDiligent | backend/src/match/MatchService.ts:284-756 | every event keeps the bookkeeping this rests on |
| MatchComplete.NobodyIsLost | backend/src/match/MatchService.ts:744-755 | the same after any run of one instance with a fixed low-priority set and bans that only grow |
| MatchEffects.EndRoomEffect | backend/src/match/MatchService.ts:1022-1051 | each member with a reason hears it and is idle iff it let the match expire, is capped or is banned, else queued now and marked; a leaving one hears nothing; nobody else changes |
| MatchNews.MemberHears | backend/src/match/MatchService.ts:1022-1051 | a member hears that its room ended and why, and then only that it is capped, that its filter lapsed, or that it is queued |
| MatchNews.LeaverTellsPartner | backend/src/match/MatchService.ts:1069-1082 | when one member leaves, the other hears that the room ended and why |
| MatchNews.DisconnectTellsPartner | backend/src/match/MatchService.ts:691-703 | after a disconnect that reason is that the partner left |
| MatchNews.GhostTellsPartner | backend/src/match/MatchService.ts:795-802 | after a socket is found gone by a sweep, the same |
| MatchNews.RetiredTellsPartner | backend/src/match/MatchService.ts:1091-1097 | after a replaced or shut down socket, that it is unavailable |
| MatchEffects.PassCreatesOnlyMatched | backend/src/match/MatchService.ts:1172-1194 | every new room joins two waiting sessions in queue order that fit at their steps, unbanned and unblocked, accepted by the server for instant sides |
| MatchOffers.PassOffers | backend/src/match/MatchService.ts:1222-1257 | every room a pass makes lasts the accept timeout from now, is accepted for members who play instantly, starts if both do, and is told to both with its deadline, the clock and their mode, and the other one's acceptance |
| MatchOffers.EveryRoomIsOffered | backend/src/match/MatchService.ts:1222-1257 | in every run, so is every room an event brings |
| MatchEffects.CreateRoomsOneEach | backend/src/match/MatchService.ts:1222-1257 | a pass creates exactly one room for each of its pairs |
| MatchEffects.PartedPairStaysApart | backend/src/match/MatchService.ts:413-469 | parting blocks the pair, tells each side its own reason, and the pass in the same section cannot rejoin them |
| MatchEffects.DeclineEffect | backend/src/match/MatchService.ts:413-427 | a decline parts a pending pair or changes nothing |
| MatchEffects.SkipEffect | backend/src/match/MatchService.ts:449-469 | a skip of the room the sender is in parts the pair or changes nothing |
| MatchEffects.ReportEffect | backend/src/match/MatchService.ts:493-508 | a report of a live room parts the pair; the reported side hears only that the partner moved on |
| MatchEffects.LateReportEffect | backend/src/match/MatchService.ts:495-498 | a late report only blocks the pair |
| MatchEffects.CallFailedEffect | backend/src/match/MatchService.ts:640-653 | a failed call parts an active pair alike or changes nothing |
| MatchEffects.AcceptDecides | backend/src/match/MatchService.ts:389-411 | an accept starts the call iff it is the second and in time; it counts iff in time |
| MatchOffers.AcceptEffect | backend/src/match/MatchService.ts:389-411 | an accept too late is told so, a repeated one changes nothing, any other sets its sender's flag and either tells the partner or starts the call now with one task |
| MatchEffects.SkipsEscalate | backend/src/match/MatchService.ts:1099-1111 | the n-th skip in a row keeps a pair apart n times as long, whichever side skips |
| MatchBlocks.KeyIsThePair | backend/src/store/MemoryStore.ts:186-205 | a pair has one record whichever way round it is named, and no other pair has it |
| MatchBlocks.DeclineBlocks | backend/src/match/MatchService.ts:413-427 | a decline and a failed call block exactly the pair, for the decline time or longer if it was, remembered for a day after |
| MatchBlocks.SkipBlocks | backend/src/match/MatchService.ts:449-469 | a skip blocks it for as many times the skip time as the two have skipped each other |
| MatchBlocks.ReportBlocks | backend/src/match/MatchService.ts:493-508 | a report of a live room blocks it for the report time |
| MatchBlocks.LateReportBlocks | backend/src/match/MatchService.ts:493-508 | a late report blocks the pair it names as long |
| MatchBlocks.ExpiryBlocks | backend/src/match/MatchService.ts:731-743 | an offer nobody took in time blocks it for the decline time |
| MatchEffects.ExpireRoomEffect | backend/src/match/MatchService.ts:731-743 | of an expired room, who accepted hears timeout and who did not goes idle |
| MatchEffects.SweepLeavesNoDueRoom | backend/src/match/MatchService.ts:730-743 | after a sweep no pending room is past its deadline and grace |
| MatchNews.RisenStepIsTold | backend/src/match/MatchService.ts:990-1014 | a waiter whose ladder step rises is marked, recorded at it and told it |
| MatchNews.SweepTimers | backend/src/match/MatchService.ts:722-752 | reaping and rechecks note when they ran and run no more often than configured |
| MatchNews.CallStartsIff | backend/src/match/MatchService.ts:933-946 | a call task is done once, and sends call:start to its two sockets exactly if its call is still the one it was left for and could be prepared |
| MatchEffects.HelloTakesOver | backend/src/match/MatchService.ts:284-359 | an admitted hello makes its socket the device's only one; nobody else gains or loses a session; a waiting session keeps its place |
| MatchHellos.RefusedHelloOnlyTells | backend/src/match/MatchService.ts:257-315 | whoever is banned, not on a live socket of its own device, or does not pass the gate, is told why in that order, and nothing else changes |
| MatchHellos.BannedDeviceIsTurnedAway | backend/src/match/MatchService.ts:260-265 | a banned device gets no session, no place in the queue, and the answer banned |
| MatchHellos.AdmittedHelloQueues | backend/src/match/MatchService.ts:317-358 | an admitted hello queues the session with what the client sent, its filter off if it is locked, since now or since it already waits, marked, answered, and with the device's former socket told |
| MatchHellos.RoomedHelloRefreshes | backend/src/match/MatchService.ts:335-358 | an admitted hello of a member of a room only refreshes its profile, preferences and mode |
| MatchHellos.PreferencesEffect | backend/src/match/MatchService.ts:367-387 | preferences change exactly when they are not locked and differ; then the client hears so and a waiter is marked |
| MatchEffects.SessionsAreConserved | backend/src/match/MatchService.ts:367-653 | other events neither add nor remove sessions |
| MatchEffects.RestrictSidelines | backend/src/match/MatchService.ts:560-587 | a restricted device ends idle and in no room |
| MatchNews.RestrictedIsTold | backend/src/match/MatchService.ts:560-587 | a restricted device with a session is told, blocking or not |
| MatchNews.WarningOnlyTells | backend/src/match/MatchService.ts:560-587 | a warning changes nothing else up to the pass |
| MatchNews.ShutdownDropsItsOwn | backend/src/match/MatchService.ts:218-242 | a shutdown drops exactly the instance's own sessions and sockets |
| MatchNews.RestrictedTellsBoth | backend/src/match/MatchService.ts:567-572 | out of a room it hears that it is restricted, and its partner that it was skipped |
| MatchRooms.RoomsOnlyMoveForward | backend/src/match/MatchService.ts:389-445 | no event takes back a room's members, deadline, acceptances, connections or times, or reuses an ended room, and none but a report touches its connection |
| MatchRooms.RoomsOverARun | backend/src/match/MatchService.ts:433-445 | the same over any stretch of a run, and a connection made in between was made by the latest time the stretch read |
| MatchRooms.ConnectedEffect | backend/src/match/MatchService.ts:433-445 | a report by a member of an active room connects its side, the second sets the connection time to its own clock, and no other report changes anything |
| MatchRooms.ConnectedFromSecondReport | backend/src/match/MatchService.ts:433-445 | in every run a stored room's connection time is the clock of the event by which the second of its members first reported, and it has none before |
| MatchServer.CreateRoomsIgnoreWakes | backend/src/match/MatchService.ts:1183-1193 | creating rooms during the scan or after it is the same |
| MatchServer.SkipToFocus | backend/src/match/MatchService.ts:1171-1176 | a row outside the focus may skip straight to the next focused column |
| MatchServer.MatchService.BlockPairLocked | backend/src/match/MatchService.ts:1103-1111 | the store's block becomes the specified one |
| MatchServer.MatchService.EnqueueLocked | backend/src/match/MatchService.ts:963-978 | session, queue, mark, ladder and news become those of the specification |
| MatchServer.MatchService.EndRoomLocked | backend/src/match/MatchService.ts:1022-1051 | the room is gone and both members are told and freed as specified, although both sessions are read first |
| MatchServer.MatchService.RemoveSessionLocked | backend/src/match/MatchService.ts:1069-1082 | the session leaves as specified |
| MatchServer.MatchService.ReplaceLocked | backend/src/match/MatchService.ts:1091-1097 | the old socket is retired as specified |
| MatchServer.MatchService.ActivateRoomLocked | backend/src/match/MatchService.ts:908-926 | room and sessions turn active and one call task is left |
| MatchServer.MatchService.CreateRoomLocked | backend/src/match/MatchService.ts:1222-1257 | the room is stored and announced as specified |
| MatchServer.MatchService.LoadQueue | backend/src/match/MatchService.ts:1134-1142 | reads the waiting sessions in order and drops exactly the stale entries |
| MatchServer.MatchService.AddRecheckSlice | backend/src/match/MatchService.ts:1204-1214 | adds exactly the next slice and moves the cursor |
| MatchServer.MatchService.FindPartner | backend/src/match/MatchService.ts:1168-1194 | the focused walk finds the partner, and leaves the wake times, of the plain row |
| MatchServer.MatchService.MatchPassLocked | backend/src/match/MatchService.ts:1128-1197 | nested loops over a growing taken set reach the state of the specified pass |
| MatchServer.MatchService.Hello | backend/src/match/MatchService.ts:257-359 | reaches the specified state and keeps the invariant |
| MatchServer.MatchService.UpdatePreferences | backend/src/match/MatchService.ts:367-387 | the same |
| MatchServer.MatchService.Accept | backend/src/match/MatchService.ts:389-411 | the same |
| MatchServer.MatchService.Decline | backend/src/match/MatchService.ts:413-427 | the same |
| MatchServer.MatchService.Connected | backend/src/match/MatchService.ts:433-445 | the same; what the state then is, MatchRooms.ConnectedEffect says |
| MatchServer.MatchService.Skip | backend/src/match/MatchService.ts:449-469 | the same |
| MatchServer.MatchService.Report | backend/src/match/MatchService.ts:493-508 | the same, for the locked part |
| MatchServer.MatchService.RestrictionApplied | backend/src/match/MatchService.ts:560-587 | the same |
| MatchServer.MatchService.CallFailed | backend/src/match/MatchService.ts:640-653 | the same |
| MatchServer.MatchService.Disconnect | backend/src/match/MatchService.ts:691-703 | the same |
| MatchServer.MatchService.StartCall | backend/src/match/MatchService.ts:933-946 | the same |
| MatchServer.MatchService.RelaxTickLocked | backend/src/match/MatchService.ts:990-1014 | finding all risen steps first and then raising them is the entry-by-entry walk |
| MatchServer.MatchService.RunSweep | backend/src/match/MatchService.ts:722-756 | reaches the specified state, walks the whole ladder and ends exactly the due rooms |
| MatchServer.MatchService.Shutdown | backend/src/match/MatchService.ts:218-242 | removes the instance's sessions and matches their partners |
| Recheck.SliceIsBounded | backend/src/match/MatchService.ts:1204-1214 | a slice costs at most the larger of the budget and one row |
| Recheck.EveryoneIsRechecked | backend/src/match/MatchService.ts:1199-1214 | while the queue stays, slices that add up to it recheck every waiter from any cursor |
| Recheck.EveryoneWithinRounds | backend/src/match/MatchService.ts:1199-1214 | the queue length over the slice size, rounded up, is enough sweeps to recheck everyone |
| LeaseLock.EveryInterleavingIsSafe | backend/src/store/RedisStore.ts:221-335 | every interleaving of callers, timers and late, repeated and lost commands keeps the lock's invariant |
| LeaseLock.AtMostOneHolder | backend/src/store/RedisStore.ts:248-262 | at most one caller inside has an unexpired lease, counted from the SET NX that got it or the last renewal, and it owns the stored token, also if a GET told it so |
| LeaseLock.LeaseIsOnesOwn | backend/src/store/RedisStore.ts:94-106 | in every run a live lease ends only by its expiry or by a release its own holder sent after leaving |
| LeaseLock.HungSectionLosesLease | backend/src/store/RedisStore.ts:264-314 | a hung section's lease is gone once the last renewal it may have sent has executed and one lease has passed |
| LockProgress.LeavingFreesTheLock | backend/src/store/RedisStore.ts:240-241 | in every run a caller in the section with a live lease that leaves frees the key as soon as its release executes, and whoever waits still does |
| LockProgress.NextCallerGetsTheLock | backend/src/store/RedisStore.ts:252-253 | in every run, while nobody holds the lock, the next SET NX that executes is granted and brings its caller into the section |
| LockProgress.LeavingLetsTheNextIn | backend/src/store/RedisStore.ts:221-262 | so a holder that leaves lets any waiting caller in |
| LockProgress.GrantedCallerFindsItsToken | backend/src/store/RedisStore.ts:254-256 | in every run a caller whose SET NX took the key but was answered no finds its token with a GET and enters |
| LockProgress.RefusedCallerAsksAgain | backend/src/store/RedisStore.ts:251-261 | in every run a caller that found the key taken asks again, and gets it once nobody holds it |
| LockProgress.TimerRenewsTheLease | backend/src/store/RedisStore.ts:284-306 | in every run a timer that fires within the hold limit gives its holder a full lease again |
| LockProgress.RefusedRenewalIsReported | backend/src/store/RedisStore.ts:289-300 | a holder whose renewal is answered no knows that it lost the lease |
| LockProgress.LoserReleasesNothing | backend/src/store/RedisStore.ts:316-318 | and then sends no release |
| LockProgress.NextInLineIsServed | backend/src/store/RedisStore.ts:221-246 | in every run, once a caller is done, the one behind it in its process asks for the key, or passes on if it timed out |
| LeaseLock.HoldAndTtlNeedPromptCommands | backend/src/store/RedisStore.ts:270-308 | without the delay the bound holds in every run iff commands execute within 1 ms, or sections are cut off, or leases over, before the first renewal |
| LeaseLock.AtMostOneInside | backend/src/store/RedisStore.ts:264-271 | in a punctual run at a pace that keeps up at most one caller is in the section, it holds the key and is never told otherwise |
| LeaseLock.SlowHolderIsJoined | backend/src/store/RedisStore.ts:266-314 | at every pace that does not keep up, in every configuration, some punctual run has two callers in the section and neither has been told |
| LeaseLock.OneInsideIffKeepsUp | backend/src/store/RedisStore.ts:264-314 | at most one caller is ever in the section of a punctual run iff period, timer delay and two answers are less than the lease, or an answer and the hold limit at most the lease, or the hold limit is 0 |
| LeaseLock.OneAtATimeInOrder | backend/src/store/RedisStore.ts:221-246 | of the callers of one process only one polls, runs or releases, those in front are done and those behind still wait, also past one that timed out |
| Billing.CoinsAreConserved | backend/src/billing/BillingService.ts:178-203 | in every interleaving, whatever fails or is executed again, balance = initial + coins in - coins spent - coins refused debits hold + coins moved again, and = initial + ledger - entries written again + what is not on record + coins moved again |
| Billing.LedgerExplainsBalance | backend/src/billing/BillingService.ts:356-358 | with nothing of a device in flight and no write lost the ledger explains its balance, up to what was executed again, and exactly if nothing may be |
| Billing.LedgerExplainsIffNothingRepeats | backend/src/store/RedisStore.ts:475-481 | in every run the ledger explains every settled balance iff no balance update and no ledger entry is executed again |
| Billing.NobodyOverspends | backend/src/billing/BillingService.ts:348-354 | in every interleaving without negative adjustments what debits took from balances that covered them never exceeds what the device started with, brought in and gained from repeated updates |
| Billing.SettledBalancesAreNotNegative | backend/src/billing/BillingService.ts:348-354 | once no debit of a device holds anything its balance is negative by no more than what repeated updates took, so not at all if none is repeated |
| Billing.SolventIffNothingRepeats | backend/src/store/RedisStore.ts:475-481 | in every run without negative adjustments settled balances are not negative iff no balance update is executed again |
| Billing.UnlockIsGranted | backend/src/billing/BillingService.ts:191-203 | in every interleaving an unlock is granted iff the device's worth covers its cost and what refused debits hold; it is refused although affordable iff what they hold makes the difference |
| Billing.AffordableIsRefused | backend/src/billing/BillingService.ts:349-354 | the run in which that happens, for every configuration |
| Billing.AttemptCredits | backend/src/billing/BillingService.ts:316-346 | an attempt nobody interrupts moves exactly its coins iff no live claim stands |
| Payments.NoCreditWithoutItsPayment | backend/src/billing/BillingService.ts:316-323 | in every interleaving an order is credited only if a payment of the amount it was created with came for it after that |
| Payments.MismatchedPaymentsCreditNothing | backend/src/billing/BillingService.ts:320-323 | so an order for which only other amounts came is never credited |
| Payments.AttemptsAreAsOrdered | backend/src/billing/BillingService.ts:301-346 | every attempt works with the device, coins and amount the order was created with |
| Payments.CreditIsRecorded | backend/src/billing/BillingService.ts:336-345 | a credit whose coins moved, and whose last calls go well, is marked paid and on the ledger once |
| Payments.UnlockIsRecorded | backend/src/billing/BillingService.ts:191-203 | a covered unlock whose last calls go well is granted and on the ledger once |
| Billing.FailureLeavesOrderCreditable | backend/src/billing/BillingService.ts:328-335 | after a failure before coins moved the next attempt moves them iff the claim was given back |
| Billing.QuietOrderIsSettled | backend/src/billing/BillingService.ts:308-346 | whatever interleaved and failed, once no attempt for an order is in flight it was credited at most once, is claimed iff it was, and otherwise the next attempt credits it |
| Billing.OkMeansCredited | backend/src/billing/BillingService.ts:308-346 | exactly once: from a quiet moment on, with no balance update for the order failing, an attempt that answered ok means its coins moved exactly once |
| Billing.OkIsExactIffNothingFails | backend/src/billing/BillingService.ts:324-327 | ok means credited exactly once, in every run, iff claims guard (no update executed again among it), are answered for, and no balance update fails |
| Billing.CreditedOnceIffClaimsGuard | backend/src/billing/BillingService.ts:308-335 | no run credits an order twice iff claims outlast requests, failed balance updates moved nothing, none is executed again and no claim is released twice |
| Billing.ExpiredClaimCreditsTwice | backend/src/billing/WalletStore.ts:47-53 | the run for a claim that expires before a slow request |
| Billing.LostReplyCreditsTwice | backend/src/billing/BillingService.ts:328-335 | the run for a balance update that failed after moving the coins |
| Billing.ResentReleaseCreditsTwice | backend/src/billing/WalletStore.ts:304-306 | the run for a release that is executed again |
| Billing.ResentUpdateCreditsTwice | backend/src/store/RedisStore.ts:475-481 | the run for a balance update that is executed again within one attempt |
| Billing.NothingStrandedIffAnswered | backend/src/billing/WalletStore.ts:299-306 | no run leaves a live claim with nothing to come of it iff no claim call fails or repeats after taking it and no release fails |
| Billing.StrandedForGood | backend/src/billing/BillingService.ts:326-327 | while claims outlast requests, the coins of an order so stranded never move, however the run goes on |
| Billing.ForgottenForGood | backend/src/billing/WalletStore.ts:220-228 | an order evicted before an attempt is never credited |
| BillingServer.BillingService.BeginCredit | backend/src/billing/BillingService.ts:259-301 | reads the order and begins an attempt as the model does; what an attempt needs, Payments.NoCreditWithoutItsPayment says |
| BillingServer.BillingService.CreateOrder | backend/src/billing/BillingService.ts:209-243 | stores the order as the model does; it is lost at once, for good, iff paid orders alone fill the store |
| BillingServer.BillingService.ClaimOrder | backend/src/billing/BillingService.ts:324-327 | is the model's claim call |
| BillingServer.BillingService.MoveCoins | backend/src/billing/BillingService.ts:330 | is the model's balance update |
| BillingServer.BillingService.ReleaseClaim | backend/src/billing/BillingService.ts:333 | is the model's release |
| BillingServer.BillingService.MarkPaid | backend/src/billing/BillingService.ts:337 | is the model's marking, and an eviction of unpaid orders |
| BillingServer.BillingService.TakeCoins | backend/src/billing/BillingService.ts:349-351 | is the model's debit |
| BillingServer.BillingService.UndoDebit | backend/src/billing/BillingService.ts:352 | is the model's undo |
| BillingServer.BillingService.OkMeansCreditedOnce | backend/src/billing/BillingService.ts:308-346 | on the in-process store, with requests served in time, an ok answer means the coins moved exactly once |
| WalletStore.MemoryWalletStore.ClaimOnce | backend/src/billing/WalletStore.ts:191-197 | first exactly when unclaimed, then claimed for the lifetime; sweeping touches no live claim |
| WalletStore.MemoryWalletStore.ReleaseClaim | backend/src/billing/WalletStore.ts:199-201 | gives back that claim alone |
| WalletStore.MemoryWalletStore.GetOrder | backend/src/billing/WalletStore.ts:210-218 | an unpaid order is seen until its record expires, a paid one always; reading changes what no later reader sees |
| WalletStore.MemoryWalletStore.PutOrder | backend/src/billing/WalletStore.ts:203-228 | the order is there afterwards, for as long as its record lasts, iff it is paid or fewer than the cap of others are paid; within the cap nothing else changes; over it unpaid orders go, expired first, then oldest, no more than needed; paid ones never |
| WalletStore.PutKeepsIff | backend/src/billing/WalletStore.ts:220-228 | a put leaves an unexpired unpaid order there iff the paid orders, it and the unexpired ones put after it fit |
| WalletStore.KeptForItsDay | backend/src/billing/WalletStore.ts:203-228 | over any run of puts of other orders within its day an unpaid order is there at the end iff at each put it fitted so |
| WalletStore.MemoryWalletStore.ExtendUnlock | backend/src/billing/WalletStore.ts:157-173 | the expiry is as if no record had ever been dropped |
| RateLimit.TokenBucket.Take | backend/src/rateLimit.ts:63-70 | grants iff the refilled bucket holds the cost; tokens stay within bounds |
| RateLimit.BucketBound | backend/src/rateLimit.ts:50-82 | between any two takes at most the capacity and the refill in between is granted |
| RateLimit.GrantedIffWithinRate | backend/src/rateLimit.ts:50-70 | a request is granted exactly when, however far back one begins to count, a full bucket and the refill since cover it and all that was granted since |
| RateLimit.ChooseVictim | backend/src/rateLimit.ts:97-110 | among the oldest inspected the first full one, else the first of the fullest |
| RateLimit.IpBuckets.Allow | backend/src/http/public.ts:39-51 | answers like a map without a bound as long as every eviction finds a full bucket; size stays bounded |
| RateLimit.ConnectionGate.Prune | backend/src/realtime/socket.ts:111-115 | pruning full buckets cannot be observed |
| RateLimit.ConnectionGate.Admit | backend/src/realtime/socket.ts:98-126 | refused for connections iff a cap is reached, for rate iff a bucket, as if none had been pruned, is empty |
| RateLimit.ConnectionGate.Opened | backend/src/realtime/socket.ts:128-132 | counts equal the open connections |
| RateLimit.ConnectionGate.Closed | backend/src/realtime/socket.ts:134-149 | also after closes, counted or not |
| Redact.Redact | backend/src/safety/guard.ts:174-195 | sorting and merging gives the position-by-position meaning, for spans in any order |
| Redact.EveryPositionHasItsPlace | backend/src/safety/guard.ts:173-195 | uncovered characters stay in order, a maximal covered run becomes one marker, nothing covered survives |
| Redact.SameSpansSameMask | backend/src/safety/guard.ts:175 | the order in which spans were found does not matter |
| Redact.GuardChat | backend/src/safety/guard.ts:211-218 | text changes only in the guarded part and iff something was found |
| OpeningHours.ComputeStatus | backend/src/flags/flags.ts:159-178 | the minute search computes the status |
| OpeningHours.ReopensAtIsLeast | backend/src/flags/flags.ts:168-177 | the reopening time is the least later open instant; missing iff the window is 24:00-00:00 |
| OpeningHours.OpenIffSwitchedOnInHours | backend/src/flags/flags.ts:155-166 | matching is open exactly when the switch is on and there are no hours or the local minute is one they cover; while it is off the banner or a default says so and no reopening is promised |
| OpeningHours.EmptyWindow | backend/src/flags/flags.ts:126-157 | that window alone contains no minute |
| OpeningHours.FlagsReader.Status | backend/src/flags/flags.ts:205-212 | the memo always gives the status of the current flags |
| OpeningHours.FlagsReader.Refresh | backend/src/flags/flags.ts:220-228 | the flags object changes iff their contents do |
| Rewards.RewardTicker.Award | backend/src/match/MatchService.ts:816-876 | one sweep's tick for one socket |
| Rewards.RewardsTelescope | backend/src/match/MatchService.ts:844-876 | whatever the schedule, a call has paid exactly the whole intervals since both sides connected |
| Rewards.FriendsOnce | backend/src/match/MatchService.ts:871-876 | the members of a room are made friends once, by the first sweep that finds them connected long enough |
| Rewards.DroppedAfterTwoMisses | backend/src/match/MatchService.ts:826-842 | a socket is given up exactly when two sweeps in a row found no session for it |
| MatchRewards.SightsArePossible | backend/src/match/MatchService.ts:811-820 | what a run of the matcher shows the reward ticks of a socket is a schedule rewards telescope over: connection times lie in the past and stay, and a session seen in a room twice was in it in between |
| MatchRewards.CallsPayWholeIntervals | backend/src/match/MatchService.ts:816-876 | in every run, however its sweeps fall, a call the last tick sees has paid its socket exactly the whole intervals since the event by which the second member reported connected |

## Left out

- Random ids are fresh numbers; two calls never draw the same one.
- Order of JavaScript map iteration: passed in (the sweep's ladder walk and the sockets it finds gone).
- Several instances: dirty marks, wake times and ladder entries of other instances, dead-instance reaping and heartbeats. The completeness theorems are for one instance, with the low-priority set fixed and bans that only grow.
- Ban lapses while waiting: the code covers them only through the recheck slice.
- Photos, names, room telemetry, nudges, metrics, enforcement records, TURN credentials and the acknowledgements of commands other than hello and preferences.
- The partner profile, ICE servers and call media that the browser's reducer only stores.
- Socket drops in the browser: a socket id stands for one connection, so its client starts from the initial state.
- A store that fails in the middle of a locked section; failures are modelled for billing only.
- MatchServer.MatchService.Shutdown: reads each session when its turn comes instead of all at once; the sessions' rooms are ended by then either way.
- LeaseLock.EveryInterleavingIsSafe: the poll's waiting times and the caller's deadline are not modelled; a caller may time out at any moment while it queues and give up at any moment while it polls.
- LeaseLock.OneInsideIffKeepsUp: in punctual runs no renewal fails without an answer; the lock's other theorems allow it.
- MatchRewards.CallsPayWholeIntervals: a tick reads the session and its room at one moment of the run.
- Billing.NothingStrandedIffAnswered: a process that dies between its claim and its balance update leaves the claim as well; in the model such an attempt stays in flight.
- Payments.NoCreditWithoutItsPayment: an amount stands for the amount and its currency.
- BillingServer.BillingService.Note: which feature an unlock extends, the ledger list, signature checks, packs, the gateway and the wallet view are not part of this model.
- WalletStore.MemoryWalletStore.GetOrder: the ledger list is not part of this model, and of the Redis wallet store only what may go wrong with its calls (in module Billing).
- RateLimit.IpBuckets.Allow: buckets are values in the map, not shared objects; which address belongs to which key is not part of this model.
- OpeningHours.ComputeStatus: time zones are fixed offsets in whole minutes; parsing of the flag text is not part of this model.
- Redact.Redact: which spans are found (links, phone numbers, handles) is not part of this model.
- Relays (rtc signals, chat, typing, captions) appear only as events that change neither queue nor rooms.
- Admin API, retention, takedowns, appeals and evidence.
