# Verified models of subconscious

This project models the parts of the subconscious repository that carry its
hardest promises, and proves those promises for all inputs, all runs and all
interleavings. Every file is Dafny 4.11; `dafny verify dfyconfig.toml` checks
the whole project.

The components, and the modules that hold them:

- **Release machine** (`Declaration`, `ReleasePlan`, `Admission`,
  `ReleaseMachine`, `ReleaseSafety`, `ReleaseProgress`, `ReleaseRun`,
  `ReleaseJournal`, `DurableStream`, `JsonValues`, `RebindDiff`). A declaration is
  validated, planned, approved and executed phase by phase. The execution is a step
  machine over one append-only history that any number of release processes,
  rebinds, abandonments and pins share. Every durable write, every read that a
  decision rests on, every provider call and every lease is a step of its own, so
  that other processes and crashes can fall between any two. The provider, the local
  phases and the operator answer arbitrarily. Left alone, the machine is the
  sequential release.
- **Multiplexing client** (`RequestLane`, `RequestWindow`, `InFlight`,
  `ManagedCall`). Promises are events: a lane can grant a place long before its
  caller resumes, replies can come after timeouts, routes can close in between.
- **Provider** (`Provider`). Drops, reconnect cycles and route binds of the
  serving side, with every awaited call as a separate event.
- **Byte stream and frame codec** (`Bytes`, `Framing`, `Envelope`, `Socket`). A
  queue of chunks with parked reads refines a flat byte stream.
- **Log line** (`LogText`, `LogSequences`, `LogTokens`, `LogMessages`, `LogLine`,
  `LogRoundTrip`, `LogHeader`). Printer and parser over UTF-16 code units, with all the
  scanners.
- **Federation subscriptions** (`FedFrames`, `FedSession`). The incremental
  parser and the per-id session automaton.
- **Pairing** (`Noise`, `NoisePattern`, `NoiseTranscript`, `QrCode`). The
  hand-written Noise handshake over abstract primitives, proved to be the token
  interpreter of the Noise Protocol Framework (sections 5.2, 5.3, 7.5, 9.2 and 9.4 of
  revision 34) run on IK and IKpsk1, and the canonical QR payload (base64url of
  section 5 of RFC 4648).

## What holds, and what does not

Some expected properties are false of the code. The models follow the code; each
such property comes with an input on which it fails and with the exact condition
under which it holds:

- A subscription parser fed in chunks gives the same verdict for every cutting,
  but the records completed inside the chunk that raises are lost. All come back
  exactly when some boundary lies at or behind the end of the last good record and
  ahead of the octets that decide the fault: `FedFrames.ChunkingLaw`,
  `FedFrames.ChunkingIndependence`, `FedFrames.CuttingWitness`.
- A managed call can run a request twice when a module itself answers with a code
  reserved for the daemon, because the dead-route and drain codes are not checked
  for their origin. Surroundings are safe exactly when they hold no such answer that
  is resent: `ManagedCall.RunsExactly`, `ManagedCall.SafeIff`,
  `ManagedCall.ForgedRefusalRunsTwice`.
- A write failure is looked up by key alone, so one that surfaces after a
  reconnect can reject a newer request: `InFlight.WriteFailureHits`,
  `InFlight.StaleWriteFailureHitsAnother`.
- The rebind diff displays the path `/` both for the whole value and for the
  member with the empty key. Read as pointers, the entries give the replacement
  exactly when the two values are equal, both objects or both arrays. A rebind
  compares parsed declarations, which are objects
  (cortexkit-release/src/declaration/mod.rs:241-250), so there they suffice:
  `RebindDiff.PointersReconstructIff`, `RebindDiff.DeclarationsReconstruct`,
  `RebindDiff.RootPathIsAmbiguous`.
- A reader recovers a torn stream by a read and a truncation without the lease that
  appends run under. If it reads in the middle of an append, its truncation can erase
  an acknowledged record, such as an intent ahead of its executor call:
  `DurableStream.CutKeepsIff`, `DurableStream.UnleasedCutLoses`,
  `DurableStream.LeasedKeepsAll`. The at-most-once results of `ReleaseSafety` take
  durable writes as atomic, that is, they are about runs without such a truncation.
- A log message that leaves a `key="` open, ends in a word that is a field, or closes
  an unbound line like a bracket of fields is not read back. `LogRoundTrip.RoundTripIff`
  is exact for every printable record; a message without `=` meets all three
  (`LogRoundTrip.NoEqualsSettles`), and so does any closed text that ends in a plain
  word, as far as the first two go (`LogRoundTrip.PlainWordSettles`). Of the
  characters of a key only the two terminal introducers U+001B and U+009B matter, and
  of trailing whitespace only the kind that escaping leaves alone.
- The end of a goodbye removes whatever its channel then holds and reports the handle
  it was taken up for, so a goodbye in hand across a drop can take down a newer route
  in silence, and a route displaced or removed by another goodbye meanwhile is
  reported gone again:
  `Provider.GoodbyeHits`, `Provider.ReportedAgainIff`,
  `Provider.StaleGoodbyeHitsAnother`, `Provider.GoneTwice`. A drop falls between the
  two halves of a goodbye only when the provider's correlation numbers run out
  (clients/subc-client/src/provider.ts:1505-1512).

## Model

| member | source | states |
|---|---|---|
| `ReleaseSafety.CalledAtMostOnce` | cortexkit-release/src/orchestrator/mod.rs:393-472 | over every interleaving of release processes, reruns, rebinds, abandonments and crashes, two executor calls for one effect key (train, phase, artifact, operation, commit) of a repository are the same call |
| `ReleaseSafety.EveryCallIsVetted` | cortexkit-release/src/orchestrator/mod.rs:286-345 | every executor call follows an intent of the same process for that key, an approval file holding exactly the plan's subject, a later check that the train was active and bound to the plan's digest, the admission of that effect, and the recorded completion, by the same process, of every phase of the plan that may refuse |
| `ReleaseSafety.CompletionsAreTruthful` | cortexkit-release/src/orchestrator/mod.rs:411-470 | every completion record answers an effect of its writer's plan with the identity that plan expects |
| `ReleaseSafety.DoneIsTruthful` | cortexkit-release/src/orchestrator/mod.rs:354-381 | a `PhaseDone` of an irreversible phase carries matching evidence for each of its effects in order, and at that moment no intent for any of them lacks its completion |
| `ReleaseSafety.OneTreeMutation` | cortexkit-release/src/lease/mod.rs:150-223 | two processes are never inside tree-mutating phases of one repository at once |
| `ReleaseSafety.LeasesKept` | cortexkit-release/src/lease/mod.rs:93-105 | every step of every process, and every crash, keeps each running process the sole holder of its train lease and of the repository lease its phase needs |
| `ReleaseSafety.SameEffectSameRun` | cortexkit-release/src/orchestrator/mod.rs:597-606 | two processes working on the same effect of the same journal are one process |
| `ReleaseSafety.RunAttemptMove` | cortexkit-release/src/orchestrator/mod.rs:393-472 | what any single step of a release process may do to intents and calls: an intent only where none was found, a call only behind the intent just written, and what the process then knows; that the step does act is `ReleaseRun.EffectRuns` |
| `ReleaseSafety.RunProgress` | cortexkit-release/src/orchestrator/mod.rs:331-345 | every step keeps the outcomes collected so far truthful: expected identity shown and nothing left pending, except for the very key whose call is under way |
| `ReleaseSafety.RunTrack` | cortexkit-release/src/orchestrator/mod.rs:286-385 | every step keeps the facts behind a call: plan ordered, refusing phases done, approval and binding seen, effect admitted |
| `ReleaseSafety.InvKept` | cortexkit-release/src/orchestrator/mod.rs:232-385 | the whole invariant survives every launch, step, ceremony and crash |
| `ReleaseSafety.AlwaysInv` | cortexkit-release/src/orchestrator/mod.rs:232-385 | the invariant holds after every finite run |
| `ReleaseSafety.PendingIsListed` | cortexkit-release/src/state/mod.rs:390-415 | the pending list holds every unanswered intent of the key, and only intents of that key |
| `ReleaseSafety.DoneIsEarned` | cortexkit-release/src/orchestrator/mod.rs:354-374 | recording a phase writes `PhaseDone` only when no effect awaits its probe, and then with one piece of evidence per effect |
| `ReleaseSafety.WithdrawalIsFinal` | cortexkit-release/src/approval/mod.rs:216-244 | whatever approval is current after a removal was confirmed after it |
| `ReleaseSafety.RebindLeavesNoApproval` | cortexkit-release/src/ceremony/mod.rs:222-266 | a call whose approval was checked after a withdrawal, whether or not the rebind behind it ever finished, rests on a confirmation of its own plan's subject made after that withdrawal |
| `ReleaseSafety.RebindWithdrawsFirst` | cortexkit-release/src/ceremony/mod.rs:258-261 | every recorded rebinding is preceded by its own removal of the approval |
| `ReleaseSafety.BoundIsLatest` | cortexkit-release/src/state/mod.rs:175-198 | a train is bound to what the latest pin or rebinding in its journal says, and to nothing exactly when there is none |
| `ReleaseSafety.CallsFollowTheBinding` | cortexkit-release/src/orchestrator/mod.rs:495-513 | behind every call, the latest pin or rebinding at the recheck carries the digest of the caller's plan, and nothing had ended the train |
| `ReleaseProgress.UntouchedEffectRuns` | cortexkit-release/src/state/mod.rs:350-377 | an approved, admitted effect without any attempt that the provider reports absent is written ahead, called and completed, in that order and with exactly those three records, when the process is left alone |
| `ReleaseProgress.DecidesToWrite` | cortexkit-release/src/orchestrator/mod.rs:404-458 | the checks before the intent leave no record |
| `ReleaseProgress.PresentEffectReconciles` | cortexkit-release/src/orchestrator/mod.rs:411-424 | an effect the provider shows is never attempted: with the machine left alone, every intent still pending for it is completed with what was found, oldest first, and the effect counts as reconciled |
| `ReleaseProgress.CompletesEach` | cortexkit-release/src/orchestrator/mod.rs:416-422 | the loop over the pending intents writes one completion each, in order, and nothing else |
| `ReleaseRun.MachineRunsTheRelease` | cortexkit-release/src/orchestrator/mod.rs:232-385 | for every plan, history and answers of provider, executor and local phases: the step machine, left alone, ends with exactly the history of the sequential release, halted and with every lease given back |
| `ReleaseRun.PhaseRuns` | cortexkit-release/src/orchestrator/mod.rs:270-382 | one phase of the machine is one phase of the sequential release: entered, gated, carried out, recorded done unless an effect awaits its probe, and refused or given up where that is |
| `ReleaseRun.EffectsRun` | cortexkit-release/src/orchestrator/mod.rs:331-345 | the effects of a phase are taken in order, each behind a fresh look at the approval, up to the first that is refused |
| `ReleaseRun.EffectRuns` | cortexkit-release/src/orchestrator/mod.rs:393-472 | one effect: refused without current approval, binding, identity or admission or after an earlier attempt, awaiting an undecided probe, reconciled when present, and otherwise written ahead, called and completed |
| `ReleaseRun.GateRuns` | cortexkit-release/src/orchestrator/mod.rs:313-330 | the gate keeps a matching approval, and otherwise removes another one and persists the confirmed subject |
| `ReleaseJournal.IntentsAreNumbered` | cortexkit-release/src/state/mod.rs:321-348 | over every run the sequence numbers of a train's intents in its journal rise with their order, even where another train shares the file |
| `ReleaseJournal.IntentsAreDistinct` | cortexkit-release/src/state/mod.rs:519-523 | no two intents of a journal are equal, so a completion resolves one of them and no other |
| `ReleaseJournal.ApprovalIsLatest` | cortexkit-release/src/approval/mod.rs:178-244 | the approval file holds the subject of the latest confirmation unless a removal came later |
| `ReleaseJournal.OffenderIsFirst` | cortexkit-release/src/orchestrator/mod.rs:58-84 | the refusal of an unordered plan names its first offending phase |
| `ReleaseJournal.FailedStepStops` | cortexkit-release/src/orchestrator/mod.rs:232-385 | a step that fails records nothing but the executor call itself, takes no lease, and ends the phase or the process |
| `ReleaseJournal.CrashWritesNothing` | cortexkit-release/src/lease/mod.rs:93-105 | neither a crash nor the next move of a crashed process records anything |
| `ReleaseJournal.FirstMoveIsSilent` | cortexkit-release/src/orchestrator/mod.rs:250-252 | a process that was just launched records nothing with its first move |
| `ReleaseJournal.CompletionsAnswerIntents` | cortexkit-release/src/state/mod.rs:364-377 | over every run each completion answers an intent written into the same journal before it, and whatever a process is about to complete was written ahead |
| `ReleaseJournal.CompletedWasAttempted` | cortexkit-release/src/orchestrator/mod.rs:566-595 | an effect with a recorded completion is always found attempted as well |
| `ReleaseJournal.RebindRuns` | cortexkit-release/src/ceremony/mod.rs:227-266 | a rebinding left alone removes the approval and records the replacement exactly when the train is active and bound to what was reviewed, and not for an equal digest |
| `ReleaseJournal.PinRuns` | cortexkit-release/src/state/mod.rs:200-224 | a pin binds a train exactly when it is neither bound nor ended |
| `ReleaseJournal.AbandonRuns` | cortexkit-release/src/state/mod.rs:263-276 | an abandonment ends a train exactly when it is bound and not ended |
| `DurableStream.TornWhereWholeEnds` | cortexkit-release/src/state/mod.rs:652-706 | an append cut short anywhere costs that record and nothing else: the stream reads as the records before it or as torn exactly where they end |
| `DurableStream.CutIsClean` | cortexkit-release/src/state/mod.rs:652-706 | wherever a stream of any octets is torn, what is left of it there is whole records |
| `DurableStream.RecoveredIsWhole` | cortexkit-release/src/state/mod.rs:627-650 | recovery of any octets ends in a stream that is not torn, and a second recovery changes nothing |
| `DurableStream.RecoveredKeeps` | cortexkit-release/src/state/mod.rs:627-650 | behind whole records and any part of one more, recovery leaves exactly those records |
| `DurableStream.DecodeRecords` | cortexkit-release/src/state/mod.rs:652-706 | the loop over lines computes the decoding, with each refusal and its offset |
| `DurableStream.StreamFile.Append` | cortexkit-release/src/state/mod.rs:577-599 | an append adds the line of its record |
| `DurableStream.StreamFile.Recover` | cortexkit-release/src/state/mod.rs:627-650 | recovery truncates at the torn offset, if any, and returns what the rest holds |
| `DurableStream.HarmlessKeepsAll` | cortexkit-release/src/state/mod.rs:73-90 | over every interleaving of one writer in pieces, crashes and unleased readers, every record whose append returned stays in the file as long as no truncation is harmful |
| `DurableStream.CutKeepsIff` | cortexkit-release/src/state/mod.rs:627-650 | the next truncation keeps every record acknowledged or about to be if and only if no append returned since its reader read and none is partly in the file |
| `DurableStream.LeasedKeepsAll` | cortexkit-release/src/state/mod.rs:73-90 | where recovery runs under the writer's lease nothing acknowledged is ever lost |
| `DurableStream.UnleasedCutLoses` | cortexkit-release/src/state/mod.rs:627-650 | for every record: read in the middle of its append and truncated behind it, its append returns and the file is empty |
| `Declaration.AcceptedIffSound` | cortexkit-release/src/declaration/mod.rs:309-504 | the rules accept exactly the sound trains: distinct ids, known types, good parameters, no artifact published twice, nothing that may refuse behind a public phase, a gated and identifiable first trigger, tags where needed |
| `Declaration.ValidateTrain` | cortexkit-release/src/declaration/mod.rs:309-504 | the validator reports the first broken rule in order, and nothing exactly for sound trains |
| `Declaration.ValidatePhases` | cortexkit-release/src/declaration/mod.rs:387-446 | the phase loop with its growing id set, owner map and first-irreversible variable reports the first broken phase rule and finds the first trigger |
| `Declaration.Claim` | cortexkit-release/src/declaration/mod.rs:414-430 | the owner map refuses a phase exactly when some artifact is already published by an earlier one |
| `Declaration.ValidateArtifacts` | cortexkit-release/src/declaration/mod.rs:345-385 | the artifact loop reports the first broken artifact rule |
| `Declaration.ValidateGates` | cortexkit-release/src/declaration/mod.rs:330-343 | the gate loop refuses unknown and repeated gates |
| `Declaration.ValidatePublicationTargets` | cortexkit-release/src/declaration/mod.rs:572-596 | accepts exactly absent lists and non-empty lists of distinct declared ids |
| `ReleasePlan.IndexArtifacts` | cortexkit-release/src/plan/mod.rs:193-225 | refuses undeclared, repeated and blank material in that order, and otherwise maps each id to its first supplied material |
| `ReleasePlan.ResolvedInOrder` | cortexkit-release/src/plan/mod.rs:227-253 | every resolved artifact, in declaration order, carries the declared id and identity channel and the identity and digest of the finalized material |
| `ReleasePlan.ValidatePlan` | cortexkit-release/src/orchestrator/mod.rs:58-84 | the registry accepts exactly the plans whose phases are all registered and ordered, and otherwise returns the place of the first phase that breaks this, with the reason that fits it |
| `ReleasePlan.ClassesAgree` | cortexkit-release/src/orchestrator/mod.rs:38-56 | the registry's classes and the declaration's predicates agree on every phase type |
| `ReleasePlan.SoundTrainIsOrdered` | cortexkit-release/src/orchestrator/mod.rs:58-84 | no plan of a sound train is refused by the registry |
| `ReleasePlan.EffectsTargetOnce` | cortexkit-release/src/plan/mod.rs:269-301 | no artifact appears in two publication effects of a plan |
| `ReleasePlan.EffectsAre` | cortexkit-release/src/plan/mod.rs:269-301 | the effects are exactly those of the (phase, artifact) pairs that earn one and of the tags, each once, phase by phase and within a phase in the order of the artifacts |
| `Admission.PlansAreExecutable` | cortexkit-release/src/approval/mod.rs:86-115 | a plan of a sound train is ordered, publishes each artifact at most once, and has an approval subject whenever it has an irreversible phase |
| `Admission.PlansAreAdmitted` | cortexkit-release/src/executor/mod.rs:141-176 | every effect of such a plan is admitted under the plan's own subject and has an expected identity |
| `Admission.PublicationIsBound` | cortexkit-release/src/executor/mod.rs:104-131 | an accepted publication carries bytes whose digest and identity are the only binding of that artifact in the subject, for a listed phase and operation, and anchored material matches the approved release |
| `Admission.AdmittedIsApproved` | cortexkit-release/src/executor/mod.rs:141-205 | an admitted effect is listed in its subject, publishes exactly when it names an artifact, passes the recheck, and its material is the only binding |
| `Admission.SingleBinding` | cortexkit-release/src/executor/mod.rs:407-441 | a single matching entry is the unique binding of its artifact |
| `RebindDiff.CollectDifferences` | cortexkit-release/src/ceremony/mod.rs:303-342 | the recursive collector pushes exactly the differences, in order, behind what was already collected |
| `RebindDiff.EmptyIffEqual` | cortexkit-release/src/ceremony/mod.rs:303-342 | a diff is empty exactly when the two values are equal |
| `RebindDiff.PathsAreDistinct` | cortexkit-release/src/ceremony/mod.rs:303-346 | no two entries of a diff share a path |
| `RebindDiff.EntriesReconstruct` | cortexkit-release/src/ceremony/mod.rs:303-342 | applying the entries in order to the pinned value yields the replacement, with the path `/` read by the recorded old value |
| `RebindDiff.PointersReconstructIff` | cortexkit-release/src/ceremony/mod.rs:303-346 | applying the entries at the places their displayed pointers name (section 4 of RFC 6901) yields the replacement if and only if the two values are equal, both objects or both arrays |
| `RebindDiff.DeclarationsReconstruct` | cortexkit-release/src/ceremony/mod.rs:204-210 | for the two declarations a rebind compares, which are objects, the displayed pointers alone are enough |
| `RebindDiff.EscapeLemma` | cortexkit-release/src/ceremony/mod.rs:344-346 | an escaped segment holds no slash and unescapes to itself (section 3 of RFC 6901) |
| `RebindDiff.RootPathIsAmbiguous` | cortexkit-release/src/ceremony/mod.rs:332-340 | every change of a whole value displays the very entry that the same change of an object's member with the empty key displays |
| `RequestLane.LaneIsFair` | clients/subc-client/src/request-gate.ts:2-59 | over every run the counter equals the outstanding grants and stays within the limit, waiters exist only while the lane is full, places are granted in strict order of arrival, and nobody waits on a closed lane, which is exactly one that was shut |
| `RequestLane.ClosedForGood` | clients/subc-client/src/request-gate.ts:44-47 | once closed, a lane stays closed and nobody ever waits on it again |
| `RequestLane.AcquireKeeps` | clients/subc-client/src/request-gate.ts:9-17 | acquiring keeps the lane valid, and adds exactly the caller to the grants or to the queue |
| `RequestLane.AcquireDecides` | clients/subc-client/src/request-gate.ts:9-17 | acquiring rejects exactly on a closed lane or for an expired caller, and grants at once exactly while there is room |
| `RequestLane.ReleaseKeeps` | clients/subc-client/src/request-gate.ts:49-58 | releasing hands the place to the first waiter or frees it, and a second release changes nothing |
| `RequestLane.LaneObject.constructor` | clients/subc-client/src/request-gate.ts:3-7 | a new lane is open and empty |
| `RequestLane.LaneObject.AcquirePlace` | clients/subc-client/src/request-gate.ts:9-42 | the object acquires as the lane specification does, failure, abort and deadline first |
| `RequestLane.LaneObject.ReleasePlace` | clients/subc-client/src/request-gate.ts:49-58 | the object releases as the specification does |
| `RequestLane.LaneObject.WithdrawWaiter` | clients/subc-client/src/request-gate.ts:27-41 | a withdrawn waiter leaves the queue and is failed exactly if it was still queued |
| `RequestLane.LaneObject.CloseLane` | clients/subc-client/src/request-gate.ts:44-47 | closing fails every waiter, in order |
| `RequestWindow.WindowsHold` | clients/subc-client/src/client.ts:1327-1371 | on every reachable state the requests written and unanswered on a route stay within its request window, and those of the watch lane within the watch window, through timeouts, late terminals, busy retries, cancellations and closes |
| `RequestWindow.WatchesAreThoseEntered` | clients/subc-client/src/request-gate.ts:80-82 | a caller goes through the watch lane exactly when it entered as a watch and the route has a watch window |
| `RequestWindow.WatchWindowHolds` | clients/subc-client/src/request-gate.ts:80-82 | the callers that entered as watches and are unanswered never exceed the watch window, over every run |
| `RequestWindow.RoomIsUsed` | clients/subc-client/src/request-gate.ts:80-98 | a caller that finds room in its windows is granted its places, and its write is on the wire |
| `RequestWindow.GrantedIsWritten` | clients/subc-client/src/client.ts:1476-1479 | a granted caller that resumes and writes is unanswered on the wire |
| `RequestWindow.PlaceIsHandedOver` | clients/subc-client/src/request-gate.ts:49-58 | a freed place of either lane goes to the caller that has waited longest |
| `RequestWindow.LeavingFrees` | clients/subc-client/src/client.ts:1364-1371 | a caller that throws, cannot write, times out in a queue or fails behind its watch place keeps and awaits nothing |
| `RequestWindow.ExpiredWatchLeaves` | clients/subc-client/src/request-gate.ts:99-102 | a watch that times out behind the total window gives its watch place back |
| `RequestWindow.BusyIsRetried` | clients/subc-client/src/client.ts:1346-1362 | a busy refusal leaves the caller free to write again under the same place |
| `RequestWindow.GivenUpIsFreed` | clients/subc-client/src/client.ts:2122-2133 | any answer to a request whose caller gave up frees its places |
| `RequestWindow.FlagsComeFromEvents` | clients/subc-client/src/request-gate.ts:105-110 | a route is closed exactly when it was closed, and a caller counts as given up only after it gave up |
| `RequestWindow.NothingLeaks` | clients/subc-client/src/request-gate.ts:80-106 | once every caller is out, both lanes are empty again |
| `RequestWindow.AnswersFree` | clients/subc-client/src/client.ts:2122-2133 | an answer, however late, frees its caller's places at once, except that a busy refusal keeps them exactly while the caller still waits |
| `RequestWindow.ClosedHoldsNothing` | clients/subc-client/src/client.ts:2405-2435 | a closed route holds places of either window only for callers that have not resumed, keeps nobody waiting in either lane, and no step adds an unanswered request |
| `RequestWindow.FreeSlotTracks` | clients/subc-client/src/request-gate.ts:88-96 | releasing a slot gives back the total and the watch place, each to the next waiter, and both lanes keep matching the callers' stages |
| `InFlight.SettledAtMostOnce` | clients/subc-client/src/client.ts:2223-2234 | over every run no wait is settled twice, and no settled wait is still held |
| `InFlight.NewKeysAreFree` | clients/subc-client/src/client.ts:2488-2500 | a new registration only extends the book, although correlations restart at 1 after a reconnect |
| `InFlight.ReplySettlesItsWait` | clients/subc-client/src/client.ts:2122-2177 | a reply, a guarded event or a failed write settles exactly the wait under its key, and everybody else stays |
| `InFlight.StrayChangesNothing` | clients/subc-client/src/client.ts:2122-2177 | an answer under a key nobody holds, or a guarded event for a wait no longer held, changes nothing |
| `InFlight.HeldOrSettled` | clients/subc-client/src/client.ts:2223-2234 | over every run each request ever registered is either still held or settled, never both and never neither |
| `InFlight.GuardedHitsItself` | clients/subc-client/src/client.ts:1504-1530 | timeout arbitration and other guarded events settle no wait but their own |
| `InFlight.NobodyIsForgotten` | clients/subc-client/src/client.ts:2405-2435 | loss and replacement settle everybody in registration order; a route close settles exactly those on the route, in that order, and leaves exactly the others |
| `InFlight.WriteFailureHits` | clients/subc-client/src/client.ts:1481-1487 | a write failure hits a foreign wait exactly when its key is held again on a later connection |
| `InFlight.StaleWriteFailureHitsAnother` | clients/subc-client/src/client.ts:1633-1636 | send, reconnect and send again: the first write's failure rejects the second request |
| `InFlight.StepKeeps` | clients/subc-client/src/client.ts:1975-1989 | every event keeps keys distinct, correlations rising within a connection, and settled waits settled |
| `InFlight.Client.constructor` | clients/subc-client/src/client.ts:714-727 | a client starts with an empty book and correlation 1 |
| `InFlight.Client.SettleWait` | clients/subc-client/src/client.ts:2223-2230 | settles exactly the wait the map still holds, and tells whether it did |
| `InFlight.Client.Dispatch` | clients/subc-client/src/client.ts:2135-2177 | a terminal settles exactly the wait under its key and leaves all others, and changes nothing when nobody holds the key |
| `InFlight.Client.FailHandle` | clients/subc-client/src/client.ts:2405-2414 | settles every wait of a route in registration order |
| `InFlight.Client.FailAll` | clients/subc-client/src/client.ts:2416-2435 | closes and settles every wait in registration order |
| `InFlight.Client.ReplaceConnection` | clients/subc-client/src/client.ts:1975-1989 | settles all old waits, then starts a new generation at correlation 1 |
| `InFlight.Client.Send` | clients/subc-client/src/client.ts:1427-1479 | registers and returns a request under the next correlation, refuses when closed, and fails everything when correlations run out |
| `ManagedCall.OnlyRefusalsAreResent` | clients/subc-client/src/client.ts:955-1038 | every attempt but the last was not queued or was answered by a refusal, and at most one of them was a dead-route or drain refusal |
| `ManagedCall.RunsExactly` | clients/subc-client/src/client.ts:955-1038 | the number of times a module runs the request is one for an executed last attempt plus one per forged refusal before it, of which there is at most one |
| `ManagedCall.AtMostOnce` | clients/subc-client/src/client.ts:955-1038 | when only the daemon uses the reserved codes, a module runs the request at most once |
| `ManagedCall.ForgedRefusalRunsTwice` | clients/subc-client/src/client.ts:2658-2684 | a refusal forged by a module that ran the request, when it is resent, makes the request run twice if the next attempt runs |
| `ManagedCall.SafeIff` | clients/subc-client/src/client.ts:955-1038 | in given surroundings every script of attempts, of any length, runs the request at most once if and only if they hold no forged refusal that meets the guard of a resending branch |
| `ManagedCall.Call` | clients/subc-client/src/client.ts:955-1038 | the retry loop makes exactly the attempts of the decision rule; it returns a reply exactly when its last attempt was replied to, is unfinished exactly when every attempt carries it on, and otherwise blames the last attempt as not sent, terminal or of unknown outcome |
| `ManagedCall.GoesOnExactly` | clients/subc-client/src/client.ts:955-1038 | for every behaviour of the surroundings the attempts made are those up to the first that does not carry the call on: neither free to repeat nor the first on which the one resend can be spent |
| `ManagedCall.RefusalsAreRetried` | clients/subc-client/src/client.ts:1346-1362 | a call goes on through every busy refusal within its time, every unsent attempt whose connection came back, and the first dead-route or drain refusal |
| `ManagedCall.NotSentMeansNotRun` | clients/subc-client/src/client.ts:315-331 | a request reported as not sent was run by no module, except through a forged refusal before |
| `Provider.EpochCountsReplacements` | clients/subc-client/src/provider.ts:1413-1427 | the connection epoch is one plus the number of replacements, each by the current cycle, by rising cycles, never twice by one and never while closing; what begins closing is `Provider.ClosingIff` |
| `Provider.OnlyCurrentReplaces` | clients/subc-client/src/provider.ts:1352-1402 | socket and epoch change only when the current cycle opens a connection and closing has not begun |
| `Provider.ClosingIff` | clients/subc-client/src/provider.ts:1517-1531 | a provider is closing exactly when its close has started or its current cycle has failed for good |
| `Provider.CloseIsFinal` | clients/subc-client/src/provider.ts:1352-1376 | from then on, whatever happens, the connection is never replaced and no route is live |
| `Provider.DropIsReplaced` | clients/subc-client/src/provider.ts:1308-1402 | the drop of the current connection retires its reader, its routes and every earlier cycle, and the one cycle it starts replaces the connection when it opens one |
| `Provider.SocketsAreOpenings` | clients/subc-client/src/provider.ts:1352-1376 | every opened connection has a socket of its own |
| `Provider.InstallsAreSafe` | clients/subc-client/src/provider.ts:743-1129 | an install never overwrites a live route, and a live route goes away by exactly seven kinds of event, the provider's own close among them; a bind takes it down only with a strictly higher epoch |
| `Provider.BindIsDecided` | clients/subc-client/src/provider.ts:1029-1129 | a bind is refused exactly for an installed channel whose epoch it does not exceed, and otherwise installed exactly when the callback agrees, the answer is written and its connection is still the current one of a provider that is not closing |
| `Provider.GoodbyeRemoves` | clients/subc-client/src/provider.ts:884-890 | a goodbye heard for the live route takes it down and reports it gone; for another channel or epoch it changes nothing |
| `Provider.EveryBindIsDecided` | clients/subc-client/src/provider.ts:1050-1129 | what the callbacks are told of a bind, in order and with multiplicity: nothing while in hand or refused, gone once if never installed, and otherwise bound, then gone once per displacement or goodbye; a live bind was not yet reported gone |
| `Provider.ReportedAgainIff` | clients/subc-client/src/provider.ts:884-890 | once an install was displaced by a higher epoch or removed by a goodbye, an event has it reported gone again exactly when it ends another goodbye in hand for it |
| `Provider.GoneAtMostOnce` | clients/subc-client/src/provider.ts:884-890 | where readers of retired connections take up nothing new, no install is reported gone twice |
| `Provider.GoneTwice` | clients/subc-client/src/provider.ts:884-890 | a goodbye taken up by a retired reader for a route that is then displaced has it reported gone twice |
| `Provider.GoodbyeHits` | clients/subc-client/src/provider.ts:884-890 | the end of a goodbye removes another route than its own only when its reader is retired, and, where retired readers take up nothing new, exactly then |
| `Provider.StaleGoodbyeHitsAnother` | clients/subc-client/src/provider.ts:884-890 | a goodbye that outlives its connection takes down the next connection's route on the channel, and that route is never reported gone |
| `Provider.DecisionsStay` | clients/subc-client/src/provider.ts:1061-1129 | the decision on a bind is final |
| `Provider.BindsKept` | clients/subc-client/src/provider.ts:1034-1129 | every event keeps live routes installed by the current reader, binds serial per reader, and the channel of a bind in hand free |
| `Provider.ReconnectsKept` | clients/subc-client/src/provider.ts:1308-1350 | every event keeps cycles superseded, replaced or current |
| `Envelope.WriterAgreesWithReader` | clients/subc-client/src/envelope.ts:145-260 | reading the octets of any header gives the fault the write-side check names, or the header cut to wire widths |
| `Envelope.CheckedMeansLegal` | clients/subc-client/src/envelope.ts:145-197 | the ordered checks accept exactly the legal wire headers |
| `Envelope.ReaderIsCanonical` | clients/subc-client/src/envelope.ts:200-260 | an accepted header is legal and has only those octets |
| `Envelope.BuiltFramesEncode` | clients/subc-client/src/envelope.ts:263-322 | a built frame is never refused at encoding, and its header reads back |
| `Envelope.BuildsExactlyEncodable` | clients/subc-client/src/envelope.ts:263-322 | a frame is built exactly when it can be encoded |
| `Envelope.CutHeaders` | clients/subc-client/src/envelope.ts:145-260 | a header cut short is too short for its prefix, or is judged by its version and then too short for the rest |
| `Envelope.EncodeAcceptsExactlyReadable` | clients/subc-client/src/envelope.ts:303-322 | encoding accepts exactly the frames whose length matches a bounded body and whose header is legal |
| `Envelope.FillHeader` | clients/subc-client/src/envelope.ts:110-121 | filling the buffer field by field gives the octets of the header |
| `Socket.FramesAreDelimited` | clients/subc-client/src/socket.ts:187-209 | frames are self-delimiting: octets behind a complete frame or a fault never change it |
| `Socket.EncodedFramesReadBack` | clients/subc-client/src/socket.ts:187-209 | the stream of any accepted frames parses to those frames with nothing left |
| `Socket.FrameReader.constructor` | clients/subc-client/src/socket.ts:187-192 | a new reader has delivered nothing and waits for a prefix |
| `Socket.FrameReader.Take` | clients/subc-client/src/socket.ts:436-454 | takes exactly the first octets of the queue, splitting the last chunk touched |
| `Socket.FrameReader.Resume` | clients/subc-client/src/socket.ts:187-209 | one served read keeps the reader consistent with the flat stream and consumes octets |
| `Socket.FrameReader.OnData` | clients/subc-client/src/socket.ts:417-434 | a data event from any state, with a caller that always reads again, ends idle with all that arrived accounted for |
| `Socket.FrameReader.Arrive` | clients/subc-client/src/socket.ts:417-434 | octets queue up whether or not a read is parked, and the reader stays on course |
| `Socket.FrameReader.Serve` | clients/subc-client/src/socket.ts:417-427 | a read is served when enough octets are queued, and changes nothing otherwise |
| `Socket.ReadInterleaved` | clients/subc-client/src/socket.ts:417-454 | in every interleaving of data and reads the frames handed out are the beginning of the flat stream's, a fault is its fault, and once the reads have caught up nothing is missing |
| `Socket.ReadChunks` | clients/subc-client/src/socket.ts:417-454 | however a stream is cut, frames and fault are those of the flat stream |
| `Socket.ReadWrittenFrames` | clients/subc-client/src/socket.ts:187-209 | frames written by a peer arrive whole and in order, however the stream is cut |
| `LogRoundTrip.RoundTripIff` | clients/log/src/index.ts:423-525 | for every printable record, parsing the line returns the record with stripped values if and only if no key holds a terminal introducer, nothing unbound passes for a bracket, a bound session has an issuer, the message does not end in surviving whitespace, leaves no quote open and does not end in a word that is a field, and does not close an unbound line like a bracket of fields |
| `LogRoundTrip.LineReadsBack` | clients/log/src/index.ts:423-525 | a quiet line that does not open like a bracket is refused for its session, refused for its trailing bracket, parses to the stripped record less trailing whitespace, or, behind an unsettled message, parses to other fields if at all |
| `LogHeader.AcceptedIff` | clients/log/src/index.ts:423-525 | a line is accepted exactly when it is a clean printer header for an existing instant with a body behind it that is accepted, and gives that header and what the body gives |
| `LogHeader.LevelOrReason` | clients/log/src/index.ts:434-446 | a level is read exactly when it fills its column; one that only begins there is told apart from none |
| `LogHeader.SessionIff` | clients/log/src/index.ts:408-421 | bound context is refused exactly for a first session without an issuer before and an id behind its last colon |
| `LogHeader.LastOpenIs` | clients/log/src/index.ts:485-492 | the trailing bracket starts at the last space with an opening bracket behind it |
| `LogRoundTrip.BracketIsNotReadBack` | clients/log/src/index.ts:461-483 | a record with nothing bound that opens with a bracket is never read back as written, whatever its message |
| `LogRoundTrip.LoudKeysAreForbidden` | clients/log/src/index.ts:424-425 | a terminal introducer inside a key makes the line forbidden |
| `LogRoundTrip.EqualsIsAmbiguous` | clients/log/src/index.ts:498-506 | every field with a bare literal text prints the same line as a message of that text, whatever follows |
| `LogRoundTrip.NoEqualsSettles` | clients/log/src/index.ts:485-511 | a message without `=` meets both conditions on messages |
| `LogRoundTrip.PlainWordSettles` | clients/log/src/index.ts:485-511 | text whose quotes are closed is settled by a last word without `=` and quotes, whatever stands before it |
| `LogRoundTrip.UnsettledIsLost` | clients/log/src/index.ts:495-510 | behind a message that leaves a quote open or ends in a field, the fields read are never the fields written |
| `LogMessages.ScanShifted` | clients/log/src/index.ts:308-349 | fields scanned behind an open quote leave it open, or the first of them go into words whose last is not the last of those fields and the others are read as fields |
| `LogMessages.Swallow` | clients/log/src/index.ts:317-346 | one printed field inside an open quote leaves the quote open or leaves in hand a word that is no field or one with a longer value |
| `LogMessages.DecodeBehind` | clients/log/src/index.ts:351-371 | decoding text in front of a `="` and an escaped value yields more than that value |
| `LogRoundTrip.MessageReadsBack` | clients/log/src/index.ts:495-512 | a settled message and the fields behind it are told apart and read back |
| `LogRoundTrip.BracketReadsBack` | clients/log/src/index.ts:461-483 | a printed bracket gives back its stripped pairs, whatever the values and the message contain |
| `LogRoundTrip.TrimEscape` | clients/log/src/index.ts:511 | trimming the escaped message removes exactly the trailing whitespace that escaping leaves alone |
| `LogText.StripCompleteSequences` | clients/log/src/index.ts:169-217 | the scanner returns the text without its complete sequences and their number, which is zero exactly when nothing was removed |
| `LogSequences.SequenceIff` | clients/log/src/index.ts:169-224 | the scanner finds exactly the complete sequences of the grammar: control sequences of parameters and a final byte, and commands up to their first terminator |
| `LogSequences.SequenceDisappears` | clients/log/src/index.ts:169-224 | behind text without an introducer a complete sequence disappears, and nothing else with it |
| `LogSequences.CsiDisappears` | clients/log/src/index.ts:178-194 | for both introducers, any parameters 0x20-0x3F and any final byte 0x40-0x7E |
| `LogText.FindEnd` | clients/log/src/index.ts:181-207 | the two inner loops find the end of a CSI or OSC sequence if it ends inside the field |
| `LogText.EscapeCons` | clients/log/src/index.ts:226-247 | the passes of the escapers act on each unit by itself |
| `LogText.DecodeEscape` | clients/log/src/index.ts:351-371 | decoding undoes both escapers, on every text |
| `LogText.DecodeEscapedText` | clients/log/src/index.ts:351-371 | the index loop computes the decoder |
| `LogTokens.TokenizeLoop` | clients/log/src/index.ts:308-349 | the character loop computes the tokens of the specification |
| `LogTokens.ScanField` | clients/log/src/index.ts:250-263 | a printed field is one token, whatever its value contains |
| `LogTokens.ScanMessage` | clients/log/src/index.ts:326-332 | text without `=` never opens a quote, and none of its tokens holds a `=` |
| `LogTokens.FieldDecodes` | clients/log/src/index.ts:373-384 | a printed field decodes to its key and its stripped value |
| `LogTokens.FindBracketClose` | clients/log/src/index.ts:389-406 | the loop returns the first closing bracket outside a quoted value |
| `LogTokens.CloseJoin` | clients/log/src/index.ts:386-406 | the bracket around printed fields closes where the printer closed it |
| `LogTokens.JoinDecodes` | clients/log/src/index.ts:467-473 | printed fields joined by spaces decode to the stripped pairs |
| `FedFrames.RecordsAreDelimited` | vectors/fed-subscriptions-v1/generate.py:128-146 | records are self-delimiting |
| `FedFrames.Incremental.constructor` | vectors/fed-subscriptions-v1/generate.py:123-126 | a new parser holds nothing |
| `FedFrames.Incremental.Feed` | vectors/fed-subscriptions-v1/generate.py:128-146 | feeding returns the records of everything held plus the chunk and keeps what the whole reading of all octets ever fed leaves, or raises the first fault |
| `FedFrames.Incremental.Finish` | vectors/fed-subscriptions-v1/generate.py:148-157 | finishing reports nothing exactly when all octets ever fed are a concatenation of complete records, and reports a record cut short by the part the cut falls in |
| `FedFrames.CutIsReported` | vectors/fed-subscriptions-v1/generate.py:148-157 | for complete records and the first octets of one more, what is left names the part of that record in which the stream stops |
| `Framing.EndsCleanIff` | vectors/fed-subscriptions-v1/generate.py:128-157 | a stream leaves nothing over exactly when it is a concatenation of complete records, and then it has no fault |
| `FedFrames.FeedEach` | vectors/fed-subscriptions-v1/generate.py:122-157 | a parser object fed in turn until it raises is the chunked reading |
| `FedFrames.ChunkingLaw` | vectors/fed-subscriptions-v1/generate.py:128-157 | for every stream and cutting the verdict is that of the whole stream, and the records returned plus those lost in the raising chunk are its records |
| `FedFrames.ChunkingIndependence` | vectors/fed-subscriptions-v1/generate.py:128-157 | two cuttings agree on acceptance, fault and truncation, and a cutting returns all records exactly when one of its boundaries lies at or behind the end of the last good record and ahead of the octets that decide the fault |
| `FedFrames.ReturnsAllIff` | vectors/fed-subscriptions-v1/generate.py:128-146 | the same exact condition from any undecided held octets on |
| `FedFrames.FaultIsSticky` | vectors/fed-subscriptions-v1/generate.py:128-146 | after a fault every later chunk raises the same reason |
| `FedFrames.RecordsDependOnCutting` | vectors/fed-subscriptions-v1/generate.py:128-146 | for every record and fault, one chunk loses the record and two chunks return it |
| `FedFrames.CuttingWitness` | vectors/fed-subscriptions-v1/generate.py:128-146 | for every codec and every record it can write: with an oversized length prefix behind it in one chunk the record is lost, in two chunks it is returned |
| `FedFrames.Decode` | vectors/fed-subscriptions-v1/generate.py:114-119 | decoding accepts exactly one record with nothing around it |
| `FedFrames.EncodedRecordReadsBack` | vectors/fed-subscriptions-v1/generate.py:103-119 | an encoded record parses back alone, given an invertible header codec |
| `FedFrames.ReadRecordsEncode` | vectors/fed-subscriptions-v1/generate.py:103-119 | whatever record a reader takes a writer can write, unless its compact header outgrows the limit |
| `FedSession.EveryRunSpeaksTheLanguage` | vectors/fed-subscriptions-v1/generate.py:427-480 | in every run each id's accepted events are a word of one language and its phase is where that word leaves it |
| `FedSession.AcceptanceIsLegality` | vectors/fed-subscriptions-v1/generate.py:436-475 | a valid frame is accepted exactly when it extends its id's word within the language |
| `FedSession.ValidIff` | vectors/fed-subscriptions-v1/generate.py:160-190 | the schema admits a subscription frame exactly when its size, keys, direction, id, names, codes, reasons and body are right for its kind |
| `FedSession.AcceptedIsDelivered` | vectors/fed-subscriptions-v1/generate.py:436-475 | an accepted frame is delivered as an event of its own kind with its id, text and body, and a cancel reaches the module exactly while the subscription is unfinished |
| `FedSession.TransitionIsLanguage` | vectors/fed-subscriptions-v1/generate.py:436-475 | the transition table takes a letter exactly when the longer word is legal |
| `FedSession.RejectionChangesNothing` | vectors/fed-subscriptions-v1/generate.py:436-475 | a rejected frame leaves the state unchanged |
| `FedSession.ClosedForGood` | vectors/fed-subscriptions-v1/generate.py:436-480 | a closed session accepts nothing more |
| `FedSession.CloseReportsTheUnfinished` | vectors/fed-subscriptions-v1/generate.py:477-480 | close reports exactly the ids whose words saw neither a refusal nor an end |
| `FedSession.Session.constructor` | vectors/fed-subscriptions-v1/generate.py:430-434 | a session starts open, without subscriptions and with no words |
| `FedSession.Session.Offer` | vectors/fed-subscriptions-v1/generate.py:436-475 | a refused frame changes nothing, an accepted one adds its letter to its id's word, and an open, negotiated session accepts a valid subscription frame exactly when the longer word is legal |
| `FedSession.Session.Admit` | vectors/fed-subscriptions-v1/generate.py:436-445 | the ordered checks and the transition leave the object where the acceptance function says, with its verdict |
| `FedSession.Session.Take` | vectors/fed-subscriptions-v1/generate.py:445-475 | the branches of the transition, in place on the map of states |
| `FedSession.Session.Close` | vectors/fed-subscriptions-v1/generate.py:477-480 | closing returns, in rising order, exactly the ids whose words saw neither a refusal nor an end |
| `FedSession.SortedUnfinished` | vectors/fed-subscriptions-v1/generate.py:477-480 | the unfinished ids of a map of states, each once, in rising order |
| `NoisePattern.HandshakeAgrees` | vectors/fed-pairing-v1/generate.py:229-241 | for all keys, with or without a pre-shared key, both peers hold one hash, chaining key, cipher key and nonce after each message, learn each other's keys, and split to the same transport keys |
| `NoisePattern.Message1Agrees` | vectors/fed-pairing-v1/generate.py:153-182 | the responder reads the first message and stands where the initiator stands |
| `NoisePattern.Message2Agrees` | vectors/fed-pairing-v1/generate.py:185-204 | the initiator reads the second message and stands where the responder stands |
| `NoisePattern.PatternAgrees` | vectors/fed-pairing-v1/generate.py:153-204 | for every token sequence whose exchanges both ends can make, what one end writes the other reads back, with one state and the sender's keys learned |
| `NoisePattern.FirstIsWritten` | vectors/fed-pairing-v1/generate.py:153-165 | the first message is the IK pattern, or IKpsk1, played token by token, failures and operation order included |
| `NoisePattern.FirstIsRead` | vectors/fed-pairing-v1/generate.py:168-182 | reading any 96 octets is reading the pattern: same keys learned, same state, same failure |
| `NoisePattern.SecondIsWritten` | vectors/fed-pairing-v1/generate.py:185-192 | the answer is the pattern's second message, from any state |
| `NoisePattern.SecondIsRead` | vectors/fed-pairing-v1/generate.py:195-204 | reading any 48 octets is reading the pattern's second message |
| `NoisePattern.TokenAgrees` | vectors/fed-pairing-v1/generate.py:102-145 | one token sent and received keeps hash, keys and nonce equal at both ends and consumes exactly the octets sent |
| `NoiseTranscript.FirstMessageIs` | vectors/fed-pairing-v1/generate.py:153-165 | the first message in closed form: which exchanges, chaining keys, nonces and transcript hashes stand behind each ciphertext; it fails exactly when an exchange does |
| `NoiseTranscript.SecondMessageIs` | vectors/fed-pairing-v1/generate.py:185-192 | the answer in closed form, behind any past |
| `NoiseTranscript.TranscriptIsComplete` | vectors/fed-pairing-v1/generate.py:86-104 | the hash behind the first message chains protocol, prologue, responder key and every octet sent, and one item for a pre-shared key |
| `Noise.ExchangesAgree` | vectors/fed-pairing-v1/generate.py:123-125 | the two ends of an exchange succeed together and stay in agreement |
| `Noise.SealThenOpenAgree` | vectors/fed-pairing-v1/generate.py:127-145 | what one end seals the other opens, and both stay in agreement |
| `Noise.SecretComesLast` | vectors/fed-pairing-v1/generate.py:168-182 | a pairing trial uses its secret only behind every other step |
| `Noise.TrialsDoEqualWork` | vectors/fed-pairing-v1/generate.py:298-304 | for any message a trial performs the same operations in the same order under any two secrets |
| `Noise.Hkdf` | vectors/fed-pairing-v1/generate.py:51-63 | the loop derives each output from the one before it |
| `Noise.SymmetricState.constructor` | vectors/fed-pairing-v1/generate.py:86-96 | the initial hash and chaining key bind protocol, prologue and responder key |
| `Noise.SymmetricState.Hash` | vectors/fed-pairing-v1/generate.py:102-104 | mixing data moves the object as the specification does |
| `Noise.SymmetricState.Key` | vectors/fed-pairing-v1/generate.py:106-110 | mixing key material moves the object as the specification does |
| `Noise.SymmetricState.KeyAndHash` | vectors/fed-pairing-v1/generate.py:112-121 | mixing a secret moves the object as the specification does |
| `Noise.SymmetricState.Exchange` | vectors/fed-pairing-v1/generate.py:123-125 | an exchange mixes the shared secret or fails |
| `Noise.SymmetricState.Encrypt` | vectors/fed-pairing-v1/generate.py:127-135 | encrypting binds the ciphertext and steps the nonce |
| `Noise.SymmetricState.Decrypt` | vectors/fed-pairing-v1/generate.py:137-145 | decrypting opens and binds the ciphertext or fails |
| `Noise.WriteFirst` | vectors/fed-pairing-v1/generate.py:153-165 | the first message written through the object, with state and failures as specified |
| `Noise.ReadFirst` | vectors/fed-pairing-v1/generate.py:168-182 | the first message read through the object, with keys, state and failures as specified |
| `Noise.WriteSecond` | vectors/fed-pairing-v1/generate.py:185-192 | the answer written through the object |
| `Noise.ReadSecond` | vectors/fed-pairing-v1/generate.py:195-204 | the answer read through the object |
| `QrCode.ScanIsCanonical` | vectors/fed-pairing-v1/generate.py:440-507 | a scan yields given fields exactly when they are well formed, unexpired, and the text is their one encoding |
| `QrCode.ScanCapIsPayloadCap` | vectors/fed-pairing-v1/generate.py:432-443 | a text is within 221 characters exactly when its payload is within 159 octets |
| `QrCode.OversizeUnreachable` | vectors/fed-pairing-v1/generate.py:440-459 | no scan is refused for its decoded size |
| `QrCode.PayloadParsesBack` | vectors/fed-pairing-v1/generate.py:425-507 | every publishable field set fits the payload bound and parses back |
| `QrCode.ParsedPayloadIsCanonical` | vectors/fed-pairing-v1/generate.py:456-507 | an accepted payload is the encoding of its well-formed fields |
| `QrCode.HintIff` | vectors/fed-pairing-v1/generate.py:486-502 | a hint is accepted exactly for a nonzero port and an address outside of 127.0.0.0/8 and 224.0.0.0/4 and other than the first and the last |
| `QrCode.Encode64Inverts` | vectors/fed-pairing-v1/generate.py:432-452 | base64url without padding stays in its alphabet, has its exact length, and decodes back |
| `QrCode.ReadPayload` | vectors/fed-pairing-v1/generate.py:456-507 | the cursor reader computes the payload grammar with the refusals in their order |
| `QrCode.Reader.constructor` | vectors/fed-pairing-v1/generate.py:456-460 | the cursor starts at zero |
| `QrCode.Reader.Take` | vectors/fed-pairing-v1/generate.py:462-468 | takes the next octets, or refuses and stays |
| `QrCode.Reader.TakeHints` | vectors/fed-pairing-v1/generate.py:486-502 | the hint loop reads as many hints as announced, with each refusal in order |
| `QrCode.Reader.TakeName` | vectors/fed-pairing-v1/generate.py:477-507 | reads name, hints and end of payload |

## Left out

- `ReleaseMachine`, `RequestWindow` and `Provider` are step functions on values, because their subject is interleaving; they do not capture aliasing or update in place. The lane and the book of waits are objects as well.
- `ReleaseRun` follows one process whose every step succeeds; interleavings and failing steps are `ReleaseSafety` and `ReleaseJournal`.
- Directory syncs and lock I/O of the release state. In `ReleaseMachine` a durable write is one atomic step and a lock is a map entry; any step may fail. `DurableStream` takes the streams apart into octets, with the record codec (JSON framing, version, checksum) as a parameter, and is not composed with the step machine.
- `ReleaseMachine` takes a stale approval's comparison and removal as one step, and reads the approval file without modelling a corrupt record beyond failure.
- The normalised declaration a rebind preview is compared with is opaque text in `ReleaseMachine`; its diff is modelled in `RebindDiff`.
- JSONC parsing, key sorting, source locations and train-id uniqueness of a declaration; the parameter rules of prechecks and local commands are a parameter of `Declaration`.
- Planned probes, lease requirements and placement text of a plan, and the staging executors: they decide nothing in execution.
- Local phases (gates, CI watch, prechecks, builds) answer arbitrarily.
- Real time: deadlines, backoff, jitter and grace periods are choices of the environment, in `Socket` as in the client and the provider; no latency is claimed.
- Socket closing, read timeouts and oversized-write handling in `Socket`.
- `RequestWindow` covers one route generation; the retry delays and the wire order of cancels are not modelled.
- `InFlight` does not model progress frames, late-response handlers, frame acceptance filters, or liveness of route handles.
- `ManagedCall` does not model the route cache; opening a route is outside an attempt.
- `Provider` models a provider that reconnects after a drop; one that does not simply closes. Permit pools, state notifications and data requests are not modelled; draining hooks are the pause between the two halves of a goodbye. A callback is recorded where it is invoked, not where it returns. A goodbye on channel zero is a close.
- `LogLine` takes values as strings, timestamps as text with the ISO shape plus a predicate for instants that exist, and does not return the derived module id and session. Redaction, filters and segment files are not modelled.
- `FedSession`: hello, call-frame and module-error schemas are parameters; the subscription cap is stored but never enforced by the code, so nothing is claimed of it.
- `Noise` keeps hash, exchange and cipher abstract, with only the laws that exchanges commute, opening undoes sealing, and lengths are fixed. The confirmation words and the responder's windows are not modelled.
- `JsonValues` compares non-integral numbers by their digits; the source takes 0.0 and -0.0 as equal.
- `QrCode`: UTF-8 validity of a name is a parameter, and the display name derived from it is not modelled.
- The Windows addon, connection files, fleet scripts, Swift packaging, the synthetic provider, the CLI and vector generation.
