# Verified models of the Paseo SLP plugin server

Dafny models of the parts of the plugin server that carry guarantees over whole
runs, with proofs of those guarantees. `dafny verify dfyconfig.toml` checks the
whole project.

- **Bridge framer and lifecycle lock** (`BridgeFramer`, `LifecycleLock`). The framer
  is the imperative loop over carry, start and dropping, proved against splitting
  the received bytes at newlines. The lock is a step machine over the lock file, the
  `recover.lock` file, processes and pid reuse; a crash is a death between two steps.
- **Durable operations and seat formation** (`Operation`, `Formation`). Callers run
  one file step at a time over a shared file map and may crash between any two,
  leaving torn files; a write may also throw when its bytes are already whole.
  `execute` is arbitrary in `Operation`; in `Formation` it is the
  seat-create body, stepping under arbitrary host, planner and guard answers.
- **Desk ledger** (`Streams`, `DeskLedger`, `DeskRules`, `DeskCommand`, the five
  command modules, `DeskStore`, and the theorems in `DeskInvariants`, `DeskHistory`,
  `DeskAdmission`, `DeskCustody`, `DeskRecords`, `DeskClosure`, `DeskEvidence`,
  `DeskPromotion`, `DeskConvergence`, `DeskPaging`, `DeskProgress`, `DeskWitness`,
  `DeskRace`). Each decide function reads the
  tables and returns the write it makes; the store makes it atomic and idempotent. A
  run interleaves commands with commits of other commands, which change memberships
  and scopes arbitrarily. `DeskRules.Legal` says what holds when a write commits; the
  decisions are shown to satisfy it, the invariants to follow from it, and
  `DeskAdmission` says exactly when the main commands commit. `DeskProgress` promotes
  any rollout that nothing opposes, and `DeskWitness` reaches one from nothing.
- **Config transaction** (`ConfigDocument`, `ConfigSlots`, `ConfigEndpoint`,
  `ConfigPlan`, `ConfigRecovery`, `ConfigLifecycle`, `ConfigReactivation`). Documents
  are JSON values with ordered arrays. The host persists a patch by replacing providers
  by key, deleting `removeProviders`, replacing `agentProfiles`, setting
  `injectIntoAgents` and keeping everything else.

Assumptions are parameters, named where they are used. Identifier derivation and the
brief, decision and cohort digests are injective (`Injective`, `InjectiveBriefs`,
`InjectiveDecisions`, `InjectiveCohorts`). Record digests of operations and the
profile-array and unrelated-view digests of config plans are represented by the value
they cover. The rollout edge table and the standing review approval are arbitrary;
`ShippedEdge` is the table as shipped. The pinned config schema accepts only documents
whose touched containers have their shapes (`Pinned`).

Three guarantees hold under a condition only.

- Planning the same activation twice changes nothing the second time only when every
  explicitly preferred profile family has a binary: a fresh activation without a routing
  does not check such a preference, and the next activation reports drift.
  `UnavailablePreferenceDrifts` gives the input and `ReactivationIsAFixedPoint` the exact
  condition.
- An operation receipt shows completed phases only when the first write that did not
  complete left no whole file. A phase write that throws on its sync leaves one; the
  receipt then shows that phase too (`UnsyncedPhaseIsShown`; `ShowsCompletedExactly` is
  the exact condition), and another phase written next makes it unreadable (`Unlinked`). A result is still shown with exactly the completed phases.
- A measured check run is answered with its own row only when no other actor committed a
  row under the same request id first, because the lookup after the commit is not by
  actor. `RunCheckRun` has the exact condition, `AnotherLeadsRowIsFound` a run in which a
  lead whose check passed is answered with another lead's failed one.

Many theorems quantify over a ledger `l` with `Inv(d, l)`; `DeskInvariants.ReachableInv`
gives it for every reachable ledger.

## Model

| member | source | states |
|---|---|---|
| `BridgeFramer.Connection.Data` | plugin/server/desk-bridge.ts:2024-2070 | One data event of any size: the emissions so far, the carry and the dropping flag are those of the split-by-newline specification of everything received, and the carry never exceeds the cap. |
| `BridgeFramer.Connection.Feed` | plugin/server/desk-bridge.ts:2024-2070 | Any sequence of data events emits exactly what the specification says of the concatenated bytes. |
| `BridgeFramer.SameBytesSameState` | plugin/server/desk-bridge.ts:2024-2070 | Two chunkings of the same bytes leave the same frames, errors, carry and dropping state. |
| `BridgeFramer.CutAnywhere` | plugin/server/desk-bridge.ts:2024-2055 | Judging a byte string is judging its complete lines before any cut and then the unfinished line continued by what follows the cut. |
| `BridgeFramer.JoinedLinesAreJudgedOnce` | plugin/server/desk-bridge.ts:2041-2055 | Newline-terminated lines yield one verdict each, in order: a frame, or exactly one over-cap error, and nothing else. |
| `LifecycleLock.MutualExclusion` | plugin/server/desk-bridge.ts:768-832 | Over every interleaving of acquire, adopt, release, process death, pid reuse and dead-holder recovery, two live instances that believe they hold the lock are one, and the lock file carries its record. |
| `LifecycleLock.LiveHolderKeepsItsLock` | plugin/server/desk-bridge.ts:841-867 | The record of a live instance is removed or replaced by its own release only, never by another release or a recovery. |
| `LifecycleLock.DeadHolderIsReplaced` | plugin/server/runtime/desk-recovery.ts:80-365 | From any reachable state with a dead holder and no other recovery under way, an idle live instance can take the lock over by steps that are all possible. |
| `LifecycleLock.ReachableInv` | plugin/server/desk-bridge.ts:768-867 | What the lock file and recover.lock say about every instance holds after every run, failed acquisitions that left a whole record included. |
| `LifecycleLock.OwnRecordIsAdopted` | plugin/server/desk-bridge.ts:776-816 | After an acquisition that failed on the sync of a whole record, through any run of all the others, the record stays and nobody else comes to hold the lock while its instance lives, and the next acquisition of the instance adopts it. |
| `Operation.AtMostOnce` | plugin/server/desk-operation.ts:120-161 | Of all calls with one native identity, in any order, with any bodies and epochs and a crash or a failed sync at any file step, execute starts for at most one, and only under a published intent that carries exactly its identity and body. |
| `Operation.LegacyReceiptBlocksExecution` | plugin/server/desk-operation.ts:61-89 | A native identity that has a retained receipt of the older format is never executed again. |
| `Operation.ReceiptIsTruthful` | plugin/server/desk-operation.ts:52-115 | Whoever inspects a published operation sees the phases its one executor completed before its first incomplete write, then at most the one phase whose write was whole when it threw, or is refused; with a result it sees exactly the completed phases; an operation that never started shows nothing; another epoch or body gets no view. |
| `Operation.UnopposedCallExecutes` | plugin/server/desk-operation.ts:120-156 | From any reachable state a new call whose identity has no receipt, with a readable namespace, does reach execute. |
| `Operation.WalkPhases` | plugin/server/desk-operation.ts:101-109 | The record loop follows previous links upward from 0.json and stops or fails exactly as the recursive reading of the chain. |
| `Operation.ScanNamespace` | plugin/server/desk-operation.ts:70-88 | The namespace loop finds the one directory of an identity, none, or refuses: unreadable intents and ambiguity prove nothing absent. |
| `Operation.ShowsCompletedExactly` | plugin/server/desk-operation.ts:52-115 | A receipt that can be read shows exactly the phases completed before the first failure if and only if that failure left no whole file behind. |
| `Operation.UnsyncedPhaseIsShown` | plugin/server/desk-operation.ts:52-60 | A phase write that throws when its file is whole is shown by the receipt although the executor never completed it, from every state in which it is the next write. |
| `Operation.TipNamesPhases` | plugin/server/desk-operation.ts:146-150 | The tip that the writer links to names exactly the phases completed so far, in order: attempts that tore, were skipped or went unacknowledged leave no mark on it. |
| `Operation.LegacyMatchStaysVisible` | plugin/server/desk-operation.ts:61-89 | As long as the retained receipts of the older format are unchanged on disk, the namespace scan still finds every one of them for its identity. |
| `Formation.WriteAheadEffects` | plugin/server/desk-formation.ts:314-497 | In every run, with crashes, torn and unsynced writes and arbitrary host, planner and guard answers, an identity opens, creates and sends at most once each; every effect has its issued phase in the part of the receipt a reader sees; a create used the pin prepared and planned again; a send was under host delivery, after the seat verified, with the latest plan since equal to the pin. |
| `Formation.StepKeepsFacts` | plugin/server/desk-formation.ts:396-480 | Each step of the body moves forward only, and performs an effect only where its issued phase and its justification are already established. |
| `Formation.ProtocolRun` | plugin/server/desk-formation.ts:314-316 | Every run of formation is a run of the durable operation protocol, so all that holds of the protocol holds of formation. |
| `Formation.FailureKeepsSeat` | plugin/server/desk-operation.ts:152-160 | A phase write that fails, tears or throws after its file was whole puts the body at its end, with everything established about its past effects kept. |
| `Formation.SmoothSeatIsDelivered` | plugin/server/desk-formation.ts:314-497 | From any reachable state where nothing stands against it, a run of the whole protocol carries an admitted request to its end: the prompt sent under host delivery with its issued phase in the receipt its caller reads, the handed-off prompt in that receipt otherwise. |
| `DeskStore.DecisionsAreLegal` | plugin/server/desk-store.ts:3634-3676 | Whatever any command decides to write meets the conditions of its row at the moment of commit. |
| `DeskLedger.ResolveOwner` | plugin/server/desk-store.ts:1246-1259 | The loop over the sorted accepts follows the contiguous succession chain and stops at a gap. |
| `DeskCommand.OwnerGate` | plugin/server/desk-command.ts:56-74 | Authority is granted only to the live effective owner of a registered, open assignment under both agent and membership, and to a lead where a lead is needed. |
| `DeskInvariants.NextKeepsInv` | plugin/server/desk-store.ts:3552-3867 | Every commit, of modelled commands and of others that change memberships and scopes arbitrarily, keeps the ledger invariant. |
| `DeskInvariants.ReachableInv` | plugin/server/desk-store.ts:3552-3867 | The ledger invariant holds after every run from the empty ledger, without the store's own refinement pass. |
| `DeskHistory.HistoryIsKept` | plugin/server/desk-store.ts:3676-3780 | No later run rewrites or removes a committed row; seats only grow, closed assignments keep everything, claims are fixed, and an observation leaves pending at most once. |
| `DeskHistory.RowsAreCommitted` | plugin/server/desk-store.ts:3634-3780 | Every row of every table was committed by a step whose decision wrote exactly that row. |
| `DeskCustody.CustodyLineage` | plugin/server/desk-store.ts:1246-1272 | An assignment's accepts are numbered 1..n, each leaves the owner its predecessor installed, and the effective owner is what the last installed. |
| `DeskCustody.RowsAreOwnerAuthored` | plugin/server/desk-command.ts:44-74 | Every offer, brief, decision, definition, run, declaration and transition was appended when its author was the live effective owner of the then open assignment. |
| `DeskCustody.StaleOfferIsDead` | plugin/server/desk-ownership.ts:185-203 | Once custody has moved past the revision an offer pins, no later command can accept it and no acceptance of it is recorded that was not already. |
| `DeskCustody.StaleOffersConferNothing` | plugin/server/desk-ownership.ts:76-101 | An offer that custody has moved past is unusable in every later ledger and confers no part there: every caller is to every assignment what it would be had the offer never been made. |
| `DeskCustody.NomineesHoldTheOwnersOffer` | plugin/server/desk-ownership.ts:76-101 | Nominee access rests on an offer made by the tuple that still holds custody, under the custody still in force, that nobody has accepted. |
| `DeskCustody.AcceptFollowsOffer` | plugin/server/desk-ownership.ts:216-236 | An accept takes its assignment, tuples and revision from the one offer it names. |
| `DeskAdmission.AcceptCommitsExactly` | plugin/server/desk-ownership.ts:185-214 | An acceptance commits exactly if its caller is a live lead on an open assignment holding a usable offer with every pin current; the already-accepted check never decides. |
| `DeskRecords.BriefTipDeterminesHistory` | plugin/server/desk-assignment.ts:105-126 | Two reachable ledgers whose latest briefs carry one digest agree on the whole brief history. |
| `DeskRecords.DecisionTipDeterminesHistory` | plugin/server/desk-assignment.ts:146-164 | Two reachable ledgers whose latest decisions carry one digest agree on the whole decision history. |
| `DeskRecords.DecisionsNameTheOperativeBrief` | plugin/server/desk-assignment.ts:140-142 | Every decision names the brief revision that was operative when it was appended, and that brief is still in its place. |
| `DeskPaging.WalkSection` | plugin/server/desk-assignment.ts:400-447 | Following the continuations from the first page ends, and yields every item once, in order. |
| `DeskPaging.ChangeEndsTheWalk` | plugin/server/desk-assignment.ts:320-333 | After any committed change, continuing a walk begun before it is a revision conflict. |
| `DeskClosure.ClosedIsAbsorbing` | plugin/server/desk-handback.ts:283-308 | After an assignment closes no later run adds an offer, accept, brief, decision, seat, definition, run, declaration, transition or handback to it; only a handback already pending can still become observed. |
| `DeskEvidence.RetryStreams` | plugin/server/desk-check-runner.ts:384-442 | Attempts of a check on a candidate run 1..k, each naming the run it retries, under one definition revision, within its retry budget, and only the last can have passed. |
| `DeskEvidence.FrozenForever` | plugin/server/desk-check-runner.ts:416-442 | Amending a check's definition, or passing it, freezes its non-empty stream in all later ledgers. |
| `DeskEvidence.MeasuredPinsHold` | plugin/server/desk-check-runner.ts:715-826 | A run measured under a preflight and committed at any later ledger was not overtaken: the declaration and definition streams are unchanged between, checks were running at both ends, and the row carries exactly the preflight's pins. |
| `DeskEvidence.OvertakenRunIsRefused` | plugin/server/desk-check-runner.ts:360-412 | If the declaration or the definition moved meanwhile the measured outcome is refused and nothing is appended. |
| `DeskEvidence.OneQualifies` | plugin/server/desk-rollout.ts:201-213 | At most one run qualifies for a required check: the latest-passed selection has no choice. |
| `DeskEvidence.GateStaysOpen` | plugin/server/desk-rollout.ts:190-217 | Once the check gate is satisfiable for a declaration it stays so, with the same discharges, in every later ledger. |
| `DeskEvidence.GatesAgree` | plugin/server/desk-rollout.ts:464-492 | Check-gated rows of one rollout record identical discharges whenever their declarations pin the same candidate and required checks. |
| `DeskConvergence.RunCheckRun` | plugin/server/desk-check-runner.ts:637-826 | Preflight, execute, commit and read back, with other callers between the steps: a replay returns its own row without executing, a refused preflight changes nothing, an outcome is sent only under the preflight's pins, and a success always finds a row, the caller's own one exactly if no other actor's row has the request id first. |
| `DeskRace.AnotherLeadsRowIsFound` | plugin/server/desk-check-runner.ts:806-816 | A run from the empty ledger in which custody moves away and back while a lead measures, its passed outcome commits, and the lookup finds the other lead's failed row. |
| `DeskRollout.FindPinnedCohort` | plugin/server/desk-rollout.ts:182-188 | The loop keeps the cohort of the latest start-canary row and finds none exactly if no such row carries one. |
| `DeskRollout.ResolveCheckDischarges` | plugin/server/desk-rollout.ts:195-217 | The loop discharges every required check in order, and fails exactly if one of them has no qualifying run. |
| `DeskPromotion.StreamsAreLegalPaths` | plugin/server/desk-rollout.ts:376-405 | For any edge table, every transition stream is a contiguous legal path that starts at declared. |
| `DeskPromotion.CohortHolds` | plugin/server/desk-rollout.ts:551-572 | A canary-passed or promote row rests on the latest start-canary before it: the step that appended that start-canary pinned the roster it found, the step that appended the gated row found the same, and in every ledger from the one to the other the custody and the roster are the same. |
| `DeskPromotion.PromotionHasEvidence` | plugin/server/desk-rollout.ts:464-492 | Every promote row names a declaration of an observed candidate, each of whose distinct required checks is discharged by a passed run on that candidate and digest. |
| `DeskPromotion.PromotionTakesEveryGate` | plugin/shared/enforcement.ts:1340-1364 | With the shipped edge table a rollout is promoted by one sequence of moves only: no check, canary or gate is skipped, repeated or reordered. |
| `DeskPromotion.EqualPinsMeanSameRoster` | plugin/server/desk-rollout.ts:168-180 | Equal roster pins of an open assignment at two points leave no room for a succession or an attached seat between them. |
| `DeskProgress.ChecksAreMade` | plugin/server/desk-check-runner.ts:285-330 | For any list of defined required checks that were not run yet, the live owning lead can run them one after the other until each is discharged. |
| `DeskProgress.UnopposedRolloutIsPromoted` | plugin/server/desk-rollout.ts:376-592 | From any ledger, with any list of required checks, a declared rollout is promoted when its owner is a live lead, its checks are defined as required, its roster fits a cohort and its review stands. |
| `DeskWitness.PromotionIsReachable` | plugin/server/desk-rollout.ts:376-592 | The hypotheses of the promotion theorems are met together: on a desk with injective derivations and digests and the shipped edges, a run from the empty ledger promotes a rollout that requires a check. |
| `DeskConvergence.HandbackConverges` | plugin/server/desk-handback.ts:757-846 | After a submit commits, every later ledger has exactly one row for it with the claim as submitted, and submitting again replays and changes nothing. |
| `DeskConvergence.CandidatesMatchHandbacks` | plugin/server/desk-handback.ts:388-461 | Candidates are in bijection with captured handbacks, matching in assignment, seat and repository, and the revisions of one seat run 1..n. |
| `DeskConvergence.RunHandbackSubmit` | plugin/server/desk-handback.ts:757-846 | The two-commit submit, with other callers between its steps: an accepted answer describes the one row of the claim, with its candidate if it has one, and an accepted claim is always found. |
| `ConfigDocument.CollectSlots` | plugin/server/config-view.ts:223-243 | The scan records each owned profile once at its place, and fails exactly on a duplicate or a malformed one. |
| `ConfigDocument.ViewKeepsForeignProfiles` | plugin/server/config-view.ts:267-300 | The unrelated view remembers the foreign profiles and their order. |
| `ConfigSlots.SpliceOwnedSlots` | plugin/server/config-transaction.ts:738-747 | The splice loop places the slots in index order over the foreign profiles. |
| `ConfigSlots.ChooseSlots` | plugin/server/config-transaction.ts:754-767 | The counting loop keeps the place of an existing profile and appends an absent one after the full array. |
| `ConfigSlots.SlotsLandInPlace` | plugin/server/config-transaction.ts:738-747 | Well-placed slots are found again at exactly their recorded places, and the foreign profiles keep their order. |
| `ConfigSlots.SlotsRestore` | plugin/server/config-transaction.ts:738-747 | Re-applying the slots of an array to any array with the same foreign profiles rebuilds it exactly. |
| `ConfigSlots.ChosenSlotsArePlaced` | plugin/server/config-transaction.ts:754-767 | Chosen slots are well placed whenever no owned profile is duplicated. |
| `ConfigEndpoint.PatchLeavesTheRest` | plugin/server/config-view.ts:267-300 | No patch that writes only owned providers and slots shows in the unrelated view, containers it creates or empties included. |
| `ConfigEndpoint.PatchReaches` | plugin/server/config-transaction.ts:944-967 | For an endpoint recorded in any of the three vocabularies: from any owned state of document and live configuration with the recorded unrelated view, its patch makes both match it. |
| `ConfigRecovery.RecoveryReaches` | plugin/server/config-transaction.ts:908-967 | For every sound plan of any of the three vocabularies, from any owned state a crash can leave, the forward patch classifies as after and the inverse as before, or as both at once; slots sit at their recorded places and the rest is unchanged. |
| `ConfigRecovery.ActivationRecovers` | plugin/server/config-transaction.ts:1134-1432 | An activation or rebind is carried forward from its start and taken back from its end, to the original profile array and injection value. |
| `ConfigRecovery.DeactivationRecovers` | plugin/server/config-transaction.ts:1442-1549 | A deactivation is carried forward from its start and taken back from its end, to the original profile array and injection value. |
| `ConfigRecovery.DeactivationPatchArrives` | plugin/server/config-transaction.ts:1507-1537 | The patch a deactivation itself plans, which for a binding of an older vocabulary writes less than its forward patch, leaves document and live configuration classified as after. |
| `ConfigRecovery.DeactivationWritesForward` | plugin/server/config-transaction.ts:1507-1537 | The document that the planned deactivation patch leaves is the one its forward patch leaves. |
| `ConfigRecovery.FreshIsEdited` | plugin/server/config-transaction.ts:619-706 | The profile of a fresh binding is the rebind edit of the bare profile: both edit paths agree, the thinking rule included. |
| `ConfigLifecycle.DeactivationRestores` | plugin/server/config-transaction.ts:1442-1549 | Deactivation sets injection to the remembered value, removes exactly the providers of the binding's own vocabulary and both owned profiles, and leaves every other provider and profile. |
| `ConfigLifecycle.InjectionIsRemembered` | plugin/server/config-transaction.ts:1378-1394 | However often it is rebound, and whatever is edited in between, a binding remembers the injection value before the first activation. |
| `ConfigLifecycle.LifecycleRestores` | plugin/server/config-transaction.ts:1361-1549 | One activation, any number of rebinds and a deactivation, with arbitrary edits between, end with the injection value before the first activation and nothing owned left. |
| `ConfigLifecycle.ActivationStrandsNothing` | plugin/server/config-transaction.ts:982-1011 | After an activation or rebind patch no profile, the plugin's own included, and no metadata entry names a provider the patch removed. |
| `ConfigLifecycle.DeactivationStrandsNothing` | plugin/server/config-transaction.ts:1507-1532 | After a deactivation patch no profile and no metadata entry names a provider the patch removed. |
| `ConfigReactivation.RebindTwice` | plugin/server/config-transaction.ts:668-706 | Applying a routing and preferences to their own result changes nothing. |
| `ConfigReactivation.ReactivationIsAFixedPoint` | plugin/server/config-transaction.ts:1175-1376 | Planning again with the same inputs from the recorded binding finds nothing to patch if and only if every explicitly preferred family has a binary; otherwise the second plan reports drift. |
| `ConfigReactivation.UnavailablePreferenceDrifts` | plugin/server/config-transaction.ts:1295-1298 | A concrete fresh activation without a routing that accepts a preference for a family without a binary, after which the same request conflicts with its own result. |
| `ConfigReactivation.AdoptionIsAFixedPoint` | plugin/server/config-transaction.ts:1257-1331 | Planning again with the binding lost and identical entries adopted finds nothing to patch. |
| `ConfigReactivation.ActivationCanBeUndone` | plugin/server/config-transaction.ts:1442-1549 | Right after an activation a deactivation is planned, unless a foreign reference or metadata divergence stands against it, and it brings back the foreign profiles. |
| `ConfigReactivation.ActivePatchIsForward` | plugin/server/config-transaction.ts:944-967 | The planned patch is the forward patch of the plan it comes with. |

## Left out

- The order of replies on a bridge connection: frames and over-cap errors are in the order of receipt, while the code writes an over-cap error at once and queues frames.
- React surfaces, form shaping, the tool catalog, JSON-RPC dispatch, the MCP graft and the unbound handshake of the bridge: plumbing and display.
- Loss of bytes that were written but not synced when the machine itself fails: a file that was whole stays whole.
- Real files, sockets, child processes, SDK calls, clocks and timers: steps or arbitrary answers here.
- The seat-create polling loop and its backoff: its outcome is one arbitrary answer (found at once, found after waiting, not found).
- Choice discovery before admission in the two progress theorems of operations: they are about calls without a preflight.
- A plan whose two endpoints are in different vocabularies: both endpoints of a plan are recorded by one version.
- The seat-create guards, placement verification and evidence-size check: each is one arbitrary pass or refuse before the step it protects.
- Acquire's bounded wait and retry in the bridge lock: an instance may simply try again; manual removal of `recover.lock` by an operator is not modelled.
- The event log and its hash chain, schema migration, the store's byte, capacity-reserve and refinement passes: a refused commit is a step that changes nothing.
- Scopes, reviews, tasks, settlements and episodes: memberships and scopes change arbitrarily, and the review gate reads an arbitrary approval.
- Assignments and request records are maps by their keys: registration refuses a present id, and the store looks a request up by its key.
- Zod schemas and wire limits: shapes that matter are predicates, and table caps are arbitrary numbers except the retry bound, the page bounds and the phase budget.
- Gap lists of handbacks are not capped, and the warnings of a report are an arbitrary list.
- A cohort's sorted member list is a set; digests of equal sets are equal as they are of equal sorted lists.
- Config conflicts carry a code but no path or message, and when several conflicts are present at once the model may name another of them than the first one met.
- Object key order, provider entry contents and executable resolution: a generator and a set of available families.
- The problem lists of the endpoint matchers: only whether they are empty.
- Deletion of keys in a clone in the unrelated view is modelled on values: the view is built from its parts, which loses nothing but update in place.
- Desk decisions return new tables and are modelled on values; the store and its two procedures are a class with methods.
