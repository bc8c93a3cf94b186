# Kestrel SDK: verified models

This project models the parts of the Kestrel SDK whose correctness depends on many
functions at once, and proves what those parts promise over every input, every run and every
interleaving. `dafny verify dfyconfig.toml` checks all of it.

Protocols are labelled transition systems. One event is the code between two suspension
points of one coroutine, one section under a lock, or one system call. The rest of the world
is an adversary: it may settle tasks late or never, ignore cancellations, let timeouts expire
at any moment, end processes, crash hosts. `Run` folds events; the main theorems are about
every state a run can reach. The sections the source runs on an object's fields without
suspending (under its lock, or in one synchronous stretch) are methods of a class with the same
fields, proved to do exactly what the transition system says. The coroutines around them (start,
stop and retirement of the subprocess client, the writer's loop) suspend between such sections;
they are functions from one state to the next, and have no class of their own.

## Parts

- **Subprocess lifecycle** (`RetirementRecord`, `RetirementInvariant`, `WrapperState`,
  `Lifecycle*`, `SubprocessClient`). `RetirementRecord` is the retire coroutine of one child;
  `WrapperState` the locked sections; `Lifecycle` puts start, stop, retirement, operations and
  the outside world together. `LifecycleInvariant` is the one inductive invariant, the files
  after it show that every event keeps it, `LifecycleSafety`, `LifecycleCleanSlate`,
  `LifecycleStopResult` and `LifecycleStopExact` draw the conclusions.
- **Configuration handshake** (`ConfigHandshake`, `ConfigAgreement`, `ConfigEndpoints`).
- **Passphrase salt** (`Ciphers`, `CipherMeaning`, `SaltProtocol`, `SaltSafety`, `SaltFiles`).
- **Setup ordering** (`SetupOrder` says what an order means, `SetupDeterminism` that it is
  unique, `SetupOrdering` is Kahn's algorithm with a heap over mutable tables).
- **Deep freeze** (`JsonValues`, `FreezeSpec`, `FreezeMeaning`, `FreezeTheorems`, and the
  recursive object `FreezeWalk`). Values are graphs of heap objects; `Denotes` relates a value
  to the finite tree it unfolds to.
- **Exception graphs** (`ExceptionGraphs`): the two worklists.
- **Stdio writer** (`StdioWriter`, `StdioSafety`, `StdioThread`).
- **Request table** (`RpcTable`, `RpcSafety`, `RpcClient`) and **event delivery**
  (`EventDelivery`, `EventSafety`, `EventPort`) of the inner client.
- **Frame codec** (`JsonText`, `JsonRoundTrip`, `JsonNumbers`, `JsonDocuments`,
  `JsonFidelity`, `RpcMessages`, `RpcCodec`): a JSON printer and parser on code points, and
  the messages on top.
- **Acquisition checkpoint** (`Acquisition`, `AcquisitionRuns`) and **artifact paths**
  (`ArtifactPath`).

## Where the code does less than its documentation

- **Requests and an unstarted read task.** A read task cancelled before its first step runs
  none of its code, so it fails no pending request. `HangsOnlyIfLoopNeverRan` and
  `UnstartedLoopStrands` say that this is the only case.
- **Surrogates on the wire.** A text in which a high surrogate directly precedes a low one is
  written as two escapes and read back as one character. The round trip holds exactly for
  messages without such a text.
- **Messages the decoder refuses.** An empty method or error message can be encoded but not
  decoded, and a response with both a result and an error loses the result.

## Where the scheduler of the model is stronger than asyncio

A start that was cancelled after its slot had been released claims its pair once more. The model
may delay that claim until a stop attempt has reaped and removed the pair and passed its child
check; the claim then lists a new record for a process that is gone, and stop() still returns
success. No schedule of asyncio that does so is shown here: its ready queue is FIFO, and the claim
needs fewer turns of it than retiring the record does. So this is a limit of the model's
adversarial scheduler, not a fault shown in the code.

The absence of records is therefore characterised exactly for that scheduler.
`OnlyTheTailClaimLists`: once nothing is left to retire, that claim is the only step that lists a
record, and it always does. `StopCanLeaveARecordExactly`: at the child check the attempt can
still end with a record left if and only if a start is running that has not claimed its pair,
which is the guard of the claim (`not retirement_claimed`). `StopReturnsClean` says what that
means for a whole run, and that on a timely run (the claim always finds its pair public or
listed) no record is left. `LifecycleLateClaim` is a whole run in which one is. All other parts
of the guarantee of stop() hold on every run.

## Assumptions

- POSIX files: a hard link is atomic and never replaces, a synced directory entry survives a
  crash, an unsynced one may be lost, a linked file whose data was not synced may come back
  torn. Nobody deletes the salt file and no explicit salt is configured.
- Key derivation is injective and the AEAD ideal; digests are injective.
- A settled wait with a return code means the process has exited.
- The service's replies arrive as sent or not at all: when a success reply cannot be written
  the stream is dead.
- The keys of one mapping object are distinct, as in every dict. A float is identified by its
  shortest decimal form.
- `heapq` pops a least entry.

## Model

| member | source | states |
|---|---|---|
| `LifecycleSafety.StepKeeps` | kestrel_sdk/isolated_feature/client.py:1190-1398 | each of the 40 atomic steps of start, stop, retirement, operations and the outside world keeps the one ownership, cancellation, start-slot, operation and stop invariant |
| `LifecycleSafety.RunKeeps` | kestrel_sdk/isolated_feature/client.py:1139-2293 | that invariant holds in every state any sequence of enabled steps reaches |
| `LifecycleSafety.EveryChildIsOwned` | kestrel_sdk/isolated_feature/client.py:1208-1298 | every unsettled spawn and every created process not proved exited is held by the spawn slot, the published pair, the start in flight or a listed retirement record; only exited processes are ever counted reaped |
| `LifecycleSafety.NeverTwoChildren` | kestrel_sdk/isolated_feature/client.py:1208-1245 | two children that are not reaped never coexist, however late spawns finish and whatever ignores cancellation |
| `LifecycleSafety.AdmissionIsExclusive` | kestrel_sdk/isolated_feature/client.py:1208-1245 | a start is admitted only when no child exists, no record is listed, nothing is published, no spawn is held and no operation is being retired |
| `LifecycleSafety.RetirementActsOnce` | kestrel_sdk/isolated_feature/client.py:2085-2235 | over all retries a record starts at most one shutdown, close and wait, sends TERM and KILL at most once, and KILL only after TERM |
| `LifecycleSafety.RemovedMeansReaped` | kestrel_sdk/isolated_feature/client.py:1848-1859 | a record leaves the list only with every spawn and startup task it ever held settled, its process and every process those spawn tasks delivered reaped, and a begun close successfully done |
| `LifecycleSafety.TasksAreCancelledOnce` | kestrel_sdk/isolated_feature/client.py:2444-2500 | across the handoff from live to retired ownership every spawn and startup task, and every operation, is cancelled at most once |
| `RetirementInvariant.RetireKeepsRecord` | kestrel_sdk/isolated_feature/client.py:2085-2235 | every section of one retire coroutine keeps its record invariant: the log, the owned pair and the coroutine locals agree |
| `LifecycleClaims.ClaimHolds` | kestrel_sdk/isolated_feature/client.py:1878-1957 | a claim keeps every holder and makes a listed record hold the spawn and process offered |
| `LifecycleClaims.ClaimKeepsCancel` | kestrel_sdk/isolated_feature/client.py:1878-1957 | a claim moves cancel marks with the tasks, so nothing is left cancelled but unmarked, and no task gets two holders |
| `LifecycleStopResult.StopReturnsClean` | kestrel_sdk/isolated_feature/client.py:1608-1743 | after stop() returned normally nothing is published, no start is unsettled, no child lives and every cancelled operation has ended; a record is listed if and only if a start claimed its pair between the child check of that attempt and its return and the record this made has not been retired yet; on timely runs there is none |
| `LifecycleStopExact.StopCanLeaveARecordExactly` | kestrel_sdk/isolated_feature/client.py:1365-1391 | past the child check of a stop attempt, with no record listed, the attempt can still end in success with a record left if and only if a start is running that has not claimed its pair |
| `LifecycleStopExact.ListedExactlyByATailClaim` | kestrel_sdk/isolated_feature/client.py:1756-1810 | along every continuation without an admission a record is listed again if and only if the continuation contains the last claim of a start |
| `LifecycleCleanSlate.OnlyTheTailClaimLists` | kestrel_sdk/isolated_feature/client.py:1365-1391 | when nothing is left to retire, a step other than an admission lists a record if and only if it is the last claim of a start; every other step leaves nothing to retire |
| `LifecycleCleanSlate.CheckFindsNothing` | kestrel_sdk/isolated_feature/client.py:1756-1810 | when the child check of a stop attempt passes, no child, pair, spawn or record is left |
| `LifecycleLateClaim.StopCanSucceedWithARecordLeft` | kestrel_sdk/isolated_feature/client.py:1608-1743 | a concrete run of the adversarial scheduler, from the first start on, in which the last claim of a start is delayed past the child check: stop() succeeds and a record is listed for a process long reaped |
| `LifecycleStopResult.CachedStopStaysTrue` | kestrel_sdk/isolated_feature/client.py:1231-1234 | no step but an admission disturbs a stopped wrapper, and an admission forgets the cached result |
| `LifecycleStopResult.CachedResultIsSound` | kestrel_sdk/isolated_feature/client.py:1608-1638 | over every continuation without an admission the cached successful stop result stays true |
| `SubprocessClient.SubprocessIsolatedFeatureClient.ClaimRetirementLocked` | kestrel_sdk/isolated_feature/client.py:1878-1957 | searching and adopting on the mutable fields is the specified claim |
| `SubprocessClient.SubprocessIsolatedFeatureClient.ClearSettledStartUncertaintyLocked` | kestrel_sdk/isolated_feature/client.py:1841-1846 | forgets an uncertain generation exactly when that start has settled |
| `SubprocessClient.SubprocessIsolatedFeatureClient.AdmitStart` | kestrel_sdk/isolated_feature/client.py:1208-1245 | admits exactly under the admission test; a refusal changes nothing but settled uncertainty |
| `SubprocessClient.SubprocessIsolatedFeatureClient.FinalizeStart` | kestrel_sdk/isolated_feature/client.py:1861-1876 | releases the start slot of its own generation only |
| `SubprocessClient.SubprocessIsolatedFeatureClient.RetireStartupChild` | kestrel_sdk/isolated_feature/client.py:2012-2054 | unpublishes exactly its own pair, takes its own spawn slot with the cancel mark, and claims both |
| `SubprocessClient.SubprocessIsolatedFeatureClient.DetachTerminalChild` | kestrel_sdk/isolated_feature/client.py:1959-1995 | withdraws the published pair and claims it |
| `SubprocessClient.SubprocessIsolatedFeatureClient.DetachForStop` | kestrel_sdk/isolated_feature/client.py:1649-1706 | the stop attempt detaches the pair, an unsettled spawn and the operations, and claims them |
| `SubprocessClient.SubprocessIsolatedFeatureClient.RerunRetirements` | kestrel_sdk/isolated_feature/client.py:1759-1779 | runs again exactly the listed records whose finished run left something behind |
| `SubprocessClient.SubprocessIsolatedFeatureClient.RemoveRetired` | kestrel_sdk/isolated_feature/client.py:1800-1808 | drops exactly the complete records that retain no task |
| `SubprocessClient.SubprocessIsolatedFeatureClient.RegisterOperation` | kestrel_sdk/isolated_feature/client.py:2673-2692 | prunes, then registers exactly when nothing is stopping, retiring, listed or uncertain |
| `SubprocessClient.SubprocessIsolatedFeatureClient.UnregisterOperation` | kestrel_sdk/isolated_feature/client.py:2694-2703 | removes the operation and keeps a retiring one marked |
| `SubprocessClient.SubprocessIsolatedFeatureClient.PruneCompletedOperationsLocked` | kestrel_sdk/isolated_feature/client.py:2740-2753 | removes exactly the ended operations from all three sets |
| `ConfigAgreement.IdleChildAgreesOrIsFenced` | kestrel_sdk/isolated_feature/client.py:458-536 | over all interleavings an idle published child is fenced, with the fencing transition's configuration retained, or runs exactly the wrapper's configuration under a service not awaiting restart |
| `ConfigAgreement.FencedChildNeverReady` | kestrel_sdk/isolated_feature/client.py:881-885 | over any run with the same child a fenced client is never ready again, whatever replies still arrive |
| `ConfigAgreement.FenceIsForever` | kestrel_sdk/isolated_feature/client.py:518-536 | every single step keeps a fence |
| `ConfigAgreement.StopKeepsRequestedConfig` | kestrel_sdk/isolated_feature/client.py:1649-1654 | stop leaves the configuration a pending or fencing transition asked for |
| `ConfigAgreement.ReplacementRunsFencingConfig` | kestrel_sdk/isolated_feature/client.py:1535-1579 | replacing a fenced child brings up an unfenced service on the configuration of the fencing transition |
| `ConfigAgreement.StepKeeps` | kestrel_sdk/isolated_feature/service.py:889-917 | every step of wrapper, client, service and stream keeps the agreement invariant |
| `ConfigEndpoints.IsolatedFeatureService.DispatchConfigTransition` | kestrel_sdk/isolated_feature/service.py:892-917 | the reply and the new service state for every outcome of the transition hook, the configuration changing only on an advertised apply |
| `ConfigEndpoints.IsolatedFeatureService.OnInitializeConfig` | kestrel_sdk/isolated_feature/service.py:607-642 | initialize changes the configuration only if one is sent, and answers with the transition capability of that moment |
| `ConfigEndpoints.IsolatedFeatureClient.ReceiveTransition` | kestrel_sdk/isolated_feature/client.py:458-516 | the client fences on everything but a refusal on an open stream and an advertised apply |
| `ConfigEndpoints.IsolatedFeatureClient.ReceiveHealth` | kestrel_sdk/isolated_feature/client.py:518-536 | a health reply never revives a fenced client |
| `ConfigEndpoints.ConfigOwner.FinishTransition` | kestrel_sdk/isolated_feature/client.py:2807-2822 | settles the wrapper's configuration for its own pending transition only |
| `ConfigEndpoints.ConfigOwner.TakeOverTransition` | kestrel_sdk/isolated_feature/client.py:1649-1654 | a stop keeps the next configuration of the transition it takes over |
| `SaltSafety.WritersUseDurableSalts` | kestrel_sdk/security/encryption.py:239-336 | in every run of any number of crashing processes a process may write under a salt only once its directory entry is durable |
| `SaltSafety.UsedSaltStaysForever` | kestrel_sdk/security/encryption.py:270-295 | once a ciphertext exists under a salt every continuation, host crashes included, keeps that very salt visible and durable |
| `SaltSafety.EveryTokenOpensLater` | kestrel_sdk/security/encryption.py:393-417 | whatever was ever sealed opens with the read keys of every later state |
| `SaltSafety.WritersConverge` | kestrel_sdk/security/encryption.py:297-318 | all processes of all boots that may write use one key |
| `SaltProtocol.StepKeeps` | kestrel_sdk/security/encryption.py:225-336 | every system call, crash and restart keeps the durability invariant |
| `SaltFiles.SaltDirectory.PublishSaltFile` | kestrel_sdk/security/encryption.py:297-318 | whatever another process publishes before the link: links its own synced file exactly when none is there by then, reports that one exists otherwise, and never replaces an entry |
| `SaltFiles.SaltUser.LoadOrCreateKeyFileSalt` | kestrel_sdk/security/encryption.py:239-295 | the salt found, else the one a rival published after the look, else the generated one; it is returned exactly when it can be read and is or becomes durable, an unreadable file is told apart from an unavailable salt, and a refusal changes neither the durable entry nor the process's belief |
| `Ciphers.TryEachCipher` | kestrel_sdk/security/encryption.py:489-504 | opens a token exactly when one of the keys does |
| `CipherMeaning.CipherMeansItsKeys` | kestrel_sdk/security/encryption.py:507-535 | whichever representation is chosen, a cipher reads with all read keys and writes with the write key or refuses |
| `CipherMeaning.DerivationKeepsReading` | kestrel_sdk/security/encryption.py:470-476 | a derived key set opens exactly the derived forms of what the key set opens |
| `SetupOrdering.OrderSetupStepRegistrations` | kestrel_sdk/features/contributions.py:363-412 | ordering succeeds if and only if names are unique, references known and the constraint graph acyclic; the result is the greedy order; each error is raised in exactly its case |
| `SetupOrdering.IndexByName` | kestrel_sdk/features/contributions.py:373-379 | indexes every step, or reports a repeated name |
| `SetupOrdering.BuildTables` | kestrel_sdk/features/contributions.py:381-393 | successor sets and predecessor counts describe exactly the constraint edges, or an unknown reference is reported |
| `SetupOrdering.Drain` | kestrel_sdk/features/contributions.py:402-409 | pops, outputs and releases in greedy order until nothing is ready |
| `SetupOrdering.ReleaseSuccessors` | kestrel_sdk/features/contributions.py:405-409 | lowers every successor's count and queues exactly those that became ready |
| `SetupOrdering.QueueEmpty` | kestrel_sdk/features/contributions.py:410-412 | an empty queue means a complete greedy order or a cycle |
| `SetupOrder.GreedyRespectsConstraints` | kestrel_sdk/features/contributions.py:291-299 | a greedy order satisfies every before and after constraint |
| `SetupOrder.StuckMeansCyclic` | kestrel_sdk/features/contributions.py:410-412 | a non-empty set of steps that all wait for each other contains a cycle |
| `SetupOrder.OrderableIsAcyclic` | kestrel_sdk/features/contributions.py:363-412 | steps that can be ordered contain no cycle |
| `SetupDeterminism.GreedyOrderIsUnique` | kestrel_sdk/features/contributions.py:395-412 | the order depends only on which steps are registered, not on how they were listed |
| `FreezeTheorems.FreezeAcceptsExactly` | kestrel_sdk/_frozen_json.py:156-258 | a freeze succeeds if and only if the value unfolds to a finite JSON tree within all limits |
| `FreezeTheorems.MeasuredSizeIsExact` | kestrel_sdk/_frozen_json.py:107-225 | under a byte budget the measured size is the length of the canonical encoding of the result and within budget |
| `FreezeTheorems.CycleErrorsAreReal` | kestrel_sdk/_frozen_json.py:190-194 | a cycle is reported only with a chain of containers from the root that revisits one of them |
| `FreezeTheorems.CyclicValuesAreRejected` | kestrel_sdk/_frozen_json.py:190-225 | a value below which a container is its own ancestor is never accepted |
| `FreezeTheorems.FreezeUndoesThaw` | kestrel_sdk/_frozen_json.py:261-268 | freezing a thawed tree gives that tree |
| `FreezeTheorems.ThawUndoesFreeze` | kestrel_sdk/_frozen_json.py:261-268 | thawing a frozen value gives the original up to lists for tuples, in fresh objects, touching nothing |
| `FreezeMeaning.FreezeIsSound` | kestrel_sdk/_frozen_json.py:156-225 | what a freeze returns is the value's unfolding, with exact totals, within all limits |
| `FreezeMeaning.FreezeIsComplete` | kestrel_sdk/_frozen_json.py:156-225 | a value whose unfolding fits is frozen to it, shared sub-objects included |
| `FreezeWalk.Walk.Freeze` | kestrel_sdk/_frozen_json.py:156-188 | the recursive walk over mutable counters follows the specification and restores the ancestors on every exit, with no depth limit needed to terminate |
| `FreezeWalk.Walk.FreezeMapping` | kestrel_sdk/_frozen_json.py:196-210 | one mapping, its entries in order, ancestors restored on success and failure |
| `FreezeWalk.Walk.FreezeSequence` | kestrel_sdk/_frozen_json.py:212-225 | one list or tuple, ancestors restored on success and failure |
| `FreezeWalk.Walk.AddBytes` | kestrel_sdk/_frozen_json.py:107-117 | accumulates under a budget and fails on passing it |
| `FreezeWalk.Walk.AddScalar` | kestrel_sdk/_frozen_json.py:133-154 | measures one scalar, or reports unpaired surrogates and unencodable numbers |
| `FreezeWalk.FreezeValue` | kestrel_sdk/_frozen_json.py:228-258 | the whole call: the frozen value with its size, or the first failure |
| `ExceptionGraphs.ObservedOutcomeUnknown` | kestrel_sdk/resources.py:78-100 | returns exactly the unknown outcomes reachable over causes and groups, each once, on any possibly cyclic graph |
| `ExceptionGraphs.DiscardExceptionTraceback` | kestrel_sdk/isolated_feature/client.py:174-253 | on everything reachable over readable links in the graph as it was on entry each attribute that can be cleared is cleared, although scrubbing cuts those links; each attribute that refuses keeps its value, and nothing unreachable changes |
| `ExceptionGraphs.ScrubOne` | kestrel_sdk/isolated_feature/client.py:205-243 | follows every link that can be read, read before it is cleared, and clears every attribute that can be cleared, one refusal affecting no other |
| `StdioSafety.StreamIsOrdered` | kestrel_sdk/isolated_feature/service.py:200-318 | over all interleavings the wire is a prefix of the enqueued frames in enqueue order, and so of the accepted bytes |
| `StdioSafety.SuccessMeansFlushed` | kestrel_sdk/isolated_feature/service.py:246-276 | a drain succeeds only after its frame and all earlier ones are on the wire and flushed |
| `StdioSafety.VerdictsAreFinal` | kestrel_sdk/isolated_feature/service.py:208-227 | a drain that took bytes is resolved at most once |
| `StdioSafety.GoneMeansResolved` | kestrel_sdk/isolated_feature/service.py:246-290 | when the worker is gone every such drain has been resolved, successfully after an orderly close |
| `StdioSafety.OrderlyCloseLosesNothing` | kestrel_sdk/isolated_feature/service.py:229-244 | an orderly close writes and flushes every accepted byte |
| `StdioSafety.SilentAfterFailure` | kestrel_sdk/isolated_feature/service.py:292-307 | after a failed write nothing more reaches the wire, after the latch nothing is accepted |
| `StdioSafety.UnflushedDrainsFail` | kestrel_sdk/isolated_feature/service.py:254-271 | a drain whose bytes were not flushed fails, and only under the terminal latch |
| `StdioWriter.StepKeeps` | kestrel_sdk/isolated_feature/service.py:200-318 | every step of senders and worker keeps queue, stream, drains and verdicts consistent |
| `StdioThread.ThreadedStdioWriter.Write` | kestrel_sdk/isolated_feature/service.py:200-206 | appends, or refuses as terminal or closed |
| `StdioThread.ThreadedStdioWriter.Drain` | kestrel_sdk/isolated_feature/service.py:208-222 | takes the pending bytes into one job with a completion, or refuses |
| `StdioThread.ThreadedStdioWriter.Close` | kestrel_sdk/isolated_feature/service.py:229-244 | queues what is pending and the close mark, once |
| `StdioThread.ThreadedStdioWriter.LatchTerminalFailure` | kestrel_sdk/isolated_feature/service.py:292-307 | fences everything in one section and returns the drains that must fail |
| `StdioThread.WriteAndFlush` | kestrel_sdk/isolated_feature/service.py:309-318 | success puts all bytes on the wire and flushes, failure leaves a prefix of them |
| `RpcSafety.IdsAreFresh` | kestrel_sdk/isolated_feature/client.py:777-785 | a request takes an id nobody had |
| `RpcSafety.CompletedOnce` | kestrel_sdk/isolated_feature/client.py:813-835 | a future is completed at most once |
| `RpcSafety.LateRepliesAreDiscarded` | kestrel_sdk/isolated_feature/client.py:822-825 | a reply nobody waits for changes nothing |
| `RpcSafety.NobodyWaitsAfterTheLoop` | kestrel_sdk/isolated_feature/client.py:843-879 | from the end of a read loop that ran on, no request waits on an open future and every request fails at once |
| `RpcSafety.HangsOnlyIfLoopNeverRan` | kestrel_sdk/isolated_feature/client.py:656-708 | after a finished close a request can hang only if the read task was cancelled before its first step |
| `RpcSafety.UnstartedLoopStrands` | kestrel_sdk/isolated_feature/client.py:813-820 | in that case nothing but its caller's cancellation ever completes a request |
| `RpcSafety.ClosingBeforeTheFirstStepStrands` | kestrel_sdk/isolated_feature/client.py:656-671 | a concrete run in which that happens |
| `RpcClient.IsolatedFeatureClient.Register` | kestrel_sdk/isolated_feature/client.py:777-791 | registers a fresh future under a fresh id, or fails fast on a dead stream |
| `RpcClient.IsolatedFeatureClient.OnResponse` | kestrel_sdk/isolated_feature/client.py:822-831 | pops the addressed request and completes it if it is still open |
| `RpcClient.IsolatedFeatureClient.Forget` | kestrel_sdk/isolated_feature/client.py:802-811 | removes the caller's own entry |
| `RpcClient.IsolatedFeatureClient.EndReadLoop` | kestrel_sdk/isolated_feature/client.py:843-879 | every open pending request gets the terminal error, done ones keep their result, and the table is emptied |
| `EventSafety.HandlersSeeStreamOrder` | kestrel_sdk/isolated_feature/client.py:255-298 | every handler is called in stream order and never twice with one event, whatever fails or is cancelled |
| `EventSafety.FirstHandlerMissesNothing` | kestrel_sdk/isolated_feature/client.py:919-932 | without failures the first handler gets the last 256 earlier events and all later ones, in order and without loss |
| `EventDelivery.StepKeeps` | kestrel_sdk/isolated_feature/client.py:133-142 | every interleaving of reading, registering, draining, delivering and failing keeps each handler's line ordered and complete |
| `EventPort.EventPort.OnEvent` | kestrel_sdk/isolated_feature/client.py:133-142 | registers, and starts a drain exactly for the first handler with a non-empty buffer |
| `EventPort.EventPort.HandleNotification` | kestrel_sdk/isolated_feature/client.py:919-932 | buffers without handlers, and otherwise delivers what was buffered before the new event |
| `EventPort.EventPort.FlushBuffer` | kestrel_sdk/isolated_feature/client.py:259-271 | hands over the buffer and installs an empty one |
| `RpcCodec.DecodeUndoesEncode` | kestrel_sdk/isolated_feature/protocol.py:679-728 | decoding an encoded message gives that message if and only if its method or error message is non-empty, it has at most one of result and error, and no text holds a high surrogate directly before a low one |
| `RpcCodec.FrameIsOneLine` | kestrel_sdk/isolated_feature/protocol.py:679-683 | the only newline of a frame is its last character, all else is printable ASCII |
| `RpcCodec.FramesSplit` | kestrel_sdk/isolated_feature/protocol.py:679-728 | splitting concatenated frames at newlines and decoding them recovers the messages in order |
| `RpcCodec.SurrogatePairsMerge` | kestrel_sdk/isolated_feature/protocol.py:679-728 | a concrete message, with a pair written as two characters, that is decoded to a different one |
| `JsonDocuments.LoadsPrinted` | kestrel_sdk/isolated_feature/protocol.py:683-692 | reading a printed value gives the value with surrogate pairs merged and repeated keys overwritten |
| `JsonFidelity.DecodedIsSame` | kestrel_sdk/isolated_feature/protocol.py:683-692 | a value is read back unchanged exactly when no text in it, key or value, holds such a pair |
| `JsonRoundTrip.MergeKeepsUnpaired` | kestrel_sdk/isolated_feature/protocol.py:683-692 | reading back one text gives that text exactly when it holds no such pair |
| `AcquisitionRuns.AtMostOneDispatch` | kestrel_sdk/computer_use/acquisition.py:206-217 | over all compare-and-set runs at most one dispatch ever wins, and the row is past preparation exactly when one has |
| `AcquisitionRuns.CustodyIsForever` | kestrel_sdk/computer_use/acquisition.py:111-249 | between any two moments of any run the original facts, the preparation digest, the lease id and expiry and a known native resource never change or disappear, and the sequence rises with every change |
| `AcquisitionRuns.SequenceIdentifiesTheRow` | kestrel_sdk/computer_use/acquisition.py:198-217 | comparing sequence numbers is as good as comparing whole rows |
| `AcquisitionRuns.OnlyTheOriginalIsAccepted` | kestrel_sdk/computer_use/acquisition.py:173-188 | the original check accepts exactly the request and quote the attempt was allocated for |
| `AcquisitionRuns.CandidateSucceeds` | kestrel_sdk/computer_use/acquisition.py:190-249 | every transition, also those that skip the validator, keeps the validator's invariant and all custody facts |
| `ArtifactPath.ValidatePercentEncoding` | kestrel_sdk/operator/runs.py:743-759 | passes exactly when every percent sign begins an escape for an allowed character, and names the kind of the offence |
| `ArtifactPath.OnePassIsEnough` | kestrel_sdk/operator/runs.py:696-703 | on a scanned path one decoding pass reaches a fixpoint |
| `ArtifactPath.UnquoteRemovesPercent` | kestrel_sdk/operator/runs.py:743-759 | one decoding pass leaves no percent sign |
| `ArtifactPath.SegmentsCorrespond` | kestrel_sdk/operator/runs.py:704-706 | raw and decoded path segments correspond one to one |
| `ArtifactPath.DotSegmentsAreVisible` | kestrel_sdk/operator/runs.py:704-706 | a decoded segment is a dot segment exactly when the raw one already was |
| `ArtifactPath.DecodePath` | kestrel_sdk/operator/runs.py:694-703 | scan and decoding loop together: the excessive-encoding exit is never taken |

## Left out

- Liveness and wall-clock bounds: a bounded wait has settled or not; a late spawn is reaped only by a later stop.
- Scheduler order: the models allow every order of enabled steps, so FIFO guarantees appear only as the condition `Timely`.
- Process identity across records: signals are counted per retirement record, as the code does.
- LifecycleStopResult.StopReturnsClean: does not promise that no retirement record is left on every run of the adversarial scheduler, because it can fail there; it says exactly when one is left.
- RpcSafety.NobodyWaitsAfterTheLoop: is about read loops that took their first step, because it is false otherwise.
- Domain validators that map two keys to one: the freeze theorems use the default key rule; string and number validators are parameters.
- FreezeTheorems.FreezeUndoesThaw: is stated for trees with finite numbers and distinct keys, which are all that a freeze without domain validators returns.
- Interpreter limits: recursion depth of the freeze, and the digit limit when messages are encoded.
- `hashable_json`: equality of Python numbers across types is not modelled.
- UTF-8 decoding of incoming frames: frames are code points; what the encoder writes is ASCII.
- Float conversion: parsing keeps the decimal form it reads instead of rounding it.
- Dictionary keys that are not strings in outgoing messages.
- `__suppress_context__` on scrubbed exceptions, and exception objects whose reads are hooked rather than refused.
- `EnvironmentAcquisitionStorage`: a round trip through base64 and pydantic parsing; its checkpoint and preparation records are modelled.
- URL splitting, host names and the decoding of non-ASCII escapes, which the scan has refused before decoding begins.
- Setup step ownership, classification and the validation of a single registration: single-record checks.
- The stdio reader, fd duplication, real pipes, sockets, fsync and Windows file rules.
- Tool calls, host ingress and their validators: finite tables over single messages.
- A closed event loop: reporting a drain's result to it is a step like any other here.
- Cancelling a request while it is drained and while it awaits its reply end in the same table entry; their exceptions are not told apart.
- Key and value caches of the ciphers other than the set of durable salts.
- EventSafety.FirstHandlerMissesNothing: is about runs before close(), which drops handlers and buffered events.
- SetupOrdering.HeapPop: the heap is a multiset with a least-entry pop; the binary heap itself belongs to the standard library.
