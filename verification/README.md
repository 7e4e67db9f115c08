# Verified core of the assistant engine

A Dafny 4.11 model of the parts of the engine whose correctness spans several functions or a
whole state machine, with machine-checked proofs about them. `dafny verify dfyconfig.toml`
checks everything.

| file | models |
|---|---|
| `ChainRef.dfy`, `ProviderManager.dfy` | the provider manager: configuration tree, primary and fallback chain, adapter cache and live dispatcher |
| `Cooldown.dfy`, `Routing.dfy`, `Failover.dfy` | the failover dispatcher: health records with 64-bit cooldown arithmetic, routing, and a call with other calls interleaved |
| `Conversation.dfy`, `Compaction.dfy`, `Turns.dfy` | session history, compaction and the turn loop |
| `Wire.dfy`, `Conversion.dfy`, `Pipeline.dfy` | conversion to provider messages, the tool-sequence sanitiser, and the pipeline end to end |
| `Stream.dfy` | consumption of a provider stream |
| `Awaits.dfy`, `Dispatch.dfy` | pending awaits and tool dispatch |
| `Plans.dfy`, `PlanQueue.dfy` | the plan document and its serialising writer |
| `Prompts.dfy` | human-in-the-loop prompts with durable waits and crashes |
| `Persist.dfy` | the debounced persistence worker |
| `Budget.dfy`, `Stats.dfy` | prompt budget allocation and session statistics |
| `Common.dfy` | optional values, outcomes, integer division as Go has it |

Sequential code that updates objects is a class, and each method is proved against a contract
or a function of the old state. Code that runs concurrently is a machine of atomic steps: a
step is a section under a lock, or one channel, timer, disk or network event. Theorems about
such machines hold for every list of enabled steps. What lies outside is a parameter: whether
the n-th adapter build succeeds, what the model, the tools, the summariser, the clock and the
disk answer, and which argument strings are valid JSON (only that `{}` is).

Where the code and its own comments differ, the code is followed:

- The sanitiser's comment promises that reasoning stays on an assistant stripped of its calls,
  and that a tool message directly follows its assistant. The code clears the whole assistant
  part, and works on sets of ids, so position is guaranteed only for histories that were paired
  (`Conversion.SoundRequestIsStrict`).
- The comment on the debounce loop says that a continuous stream of changes is still flushed
  within the window. The code re-arms the timer at every signal, so no latency is guaranteed.
- The comment on `Apply` says that an enqueued edit will execute. A call can be stranded
  (`PlanQueue.ApplyCanStrand`, and exactly when: `PlanQueue.EnqueueSafeUnlessGone`).
- The comment on `Flush` says that it guarantees the state on disk. It is acknowledged even
  when its write failed (`Persist.AckedFlushCovers`), and what is archived then is lost.
- `forgetWait` speaks of a time to live of 24 hours; the default expiry is 15 days.

Properties that the code does not have as promised, each with its exact condition:

- The cooldown's overflow guard is complete exactly for factors up to 3.
- Deleting an endpoint is all-or-nothing exactly when the chain does not name it in the dotted
  legacy form; changing one, exactly when no nameless endpoint gets promoted.
- Reading a chain back gives what was written exactly for duplicate-free chains.
- A turn keeps tool pairing exactly when no result but the last of its batch brings messages.
- Sanitising leaves a paired history whole exactly when no call id is empty.
- A session has at most one plan consumer exactly when no writer is asked for, and none
  registered, while `StopAll` waits for one that still handles edits.
- An enqueued plan edit can get its reply exactly as long as the goroutine has not left or
  `StopAll` is waiting for it.
- A prompt reply is routed a second time by one process exactly when the deletion of its wait
  fails; a reply that could not be handed over can be repeated exactly when it took the
  recovery path or that deletion failed.
- At rest the store has the session exactly when one of the writes of its last version
  succeeded; a failed write is repeated exactly when a further change or flush asks for it.
- With demands over the budget everybody gets the minimum exactly when the minimums add up to
  less than the budget, or fill it evenly in guaranteed tiers; an exact fit is not enough.

## Model

| member | source | states |
|---|---|---|
| `ProviderManager.Manager.Run` | internal/provider/manager/manager.go:527-1158 | over any list of requests that write references as provider:endpoint, tree, chain, cache and dispatcher stay coherent, and an adapter that was in the cache before or after any of the requests is shut down exactly when it has left the cache |
| `ProviderManager.DispatcherServesChain` | internal/provider/manager/manager.go:1099-1158 | no dispatcher exactly when the chain is empty; otherwise its names are the chain, each adapter is open and built from the present credentials, endpoint and tuning field by field, and is skipped exactly when provider or endpoint is disabled |
| `ProviderManager.Manager.Step` | internal/provider/manager/manager.go:527-1088 | every single request keeps the invariant and the canonical form of the chain; one that fails leaves tree, agent and dispatcher as they were |
| `ProviderManager.Manager.New` | internal/provider/manager/manager.go:167-197 | a manager that comes up is valid; it fails to come up only for an unresolvable entry or a failed build |
| `ProviderManager.Manager.Rebuild` | internal/provider/manager/manager.go:1099-1158 | with every chain entry resolvable and cached it cannot fail and builds nothing; a failure keeps the old dispatcher and only ever adds coherent cache entries |
| `ProviderManager.Manager.UpdateProviderCreds` | internal/provider/manager/manager.go:527-624 | all-or-nothing; the provider and its adapters change exactly as the patch says; being disabled takes exactly its entries out of the chain, the rest keeping their order, and any other patch leaves a chain that is not empty alone and fills an empty one with an enabled endpoint of the provider; the replaced adapters, and only they, are shut down |
| `ProviderManager.Manager.AddProvider` | internal/provider/manager/manager.go:636-675 | the exact error for each refused input; on success only the tree grows |
| `ProviderManager.Manager.AddEndpoint` | internal/provider/manager/manager.go:709-753 | the exact error for each refused input; on success the tree has this one endpoint more, its adapter is in the cache, and exactly an empty chain becomes the reference; nothing on failure |
| `ProviderManager.Manager.UpdateEndpoint` | internal/provider/manager/manager.go:757-841 | the exact outcome; on success only this endpoint has changed, being disabled takes exactly the entries that name it out of the chain, and an empty chain is filled with it when it is usable; all-or-nothing except when an enabled endpoint with an empty name is promoted into an empty chain, and then the invariant is lost |
| `ProviderManager.Manager.DeleteEndpoint` | internal/provider/manager/manager.go:847-891 | the exact outcome; on success the tree lacks exactly this endpoint and the chain exactly its colon-form entry; the invariant survives exactly when no chain entry names the endpoint in the legacy dotted form, and then the only adapter shut down is the one removed |
| `ProviderManager.Manager.UpdateAgent` | internal/provider/manager/manager.go:934-1055 | the exact validation error; a change of tuning replaces every adapter and any failure restores everything |
| `ProviderManager.Manager.ReplaceChain` | internal/provider/manager/manager.go:1078-1088 | what is read back is the list without its duplicates, so exactly a duplicate-free list without an empty head is read back as given |
| `ProviderManager.Manager.Retire` | internal/provider/manager/manager.go:527-624 | shutting down replaced adapters touches none that is still cached |
| `ProviderManager.Manager.AutoFillEmptyChain` | internal/provider/manager/manager.go:1232-1241 | an empty chain is filled with the reference exactly when that endpoint is usable |
| `ProviderManager.Manager.FirstEnabled` | internal/provider/manager/manager.go:1245-1261 | the alphabetically first enabled endpoint, if any |
| `ProviderManager.Manager.ValidateAgent` | internal/provider/manager/manager.go:934-1072 | the error of the first chain entry that does not resolve or repeats the primary, else the limit that is out of range |
| `ProviderManager.DeleteStep` | internal/provider/manager/manager.go:847-891 | removal keeps the cache coherent, and keeps the chain routable exactly when no legacy reference is left |
| `ProviderManager.CredsChainHolds` | internal/provider/manager/manager.go:577-600 | disabling a provider leaves of the chain exactly the entries that do not parse to a reference under it, in order; any other patch changes no chain but an empty one |
| `ProviderManager.EndpointChainHolds` | internal/provider/manager/manager.go:757-841 | disabling an endpoint leaves of the chain exactly the entries that do not parse to its reference, in order; an empty chain is filled with the endpoint exactly when it is usable |
| `ProviderManager.DeletedChainHolds` | internal/provider/manager/manager.go:847-891 | deletion leaves exactly the entries that are not written provider:endpoint, in order |
| `ProviderManager.CredsStep` | internal/provider/manager/manager.go:527-624 | merging rebuilt adapters and dropping the disabled provider keeps tree, chain and cache consistent |
| `ProviderManager.FillRoutableUnlessNameless` | internal/provider/manager/manager.go:1232-1241 | promotion keeps the chain routable exactly when the endpoint has a name |
| `ProviderManager.AcceptedResolves` | internal/provider/manager/manager.go:934-1072 | a patch that validation accepts has a chain all of whose entries resolve |
| `ProviderManager.AcceptedExactly` | internal/provider/manager/manager.go:934-1072 | a patch is accepted exactly when every entry of the patched chain names an endpoint, no fallback repeats the primary, and the limits it sets are in range |
| `ProviderManager.LegacyEntryExample` | internal/provider/manager/manager.go:847-891 | a dotted entry is the concrete input that deletion leaves behind |
| `ChainRef.ParseFormat` | internal/config/config.go:601-625 | parsing a formatted reference gives it back exactly for provider names without a colon and non-empty parts |
| `ChainRef.CanonicalIffColon` | internal/config/config.go:601-625 | a parsed entry is its own canonical form exactly when it is written with a colon |
| `ChainRef.FormatInjective` | internal/config/config.go:623-625 | different references never share a cache key |
| `ChainRef.WriteThenReadChain` | internal/provider/manager/manager.go:86-164 | writing a chain and reading it back is the identity exactly on duplicate-free chains without an empty head |
| `ChainRef.EffectiveReads` | internal/provider/manager/manager.go:86-101 | the chain holds each named entry once: a primary first, the rest in the order of first mention |
| `ChainRef.ComputeEffective` | internal/provider/manager/manager.go:86-101 | the loop with its seen set yields primary and fallbacks without repeats, in order |
| `ChainRef.FilterEntry` | internal/provider/manager/manager.go:1267-1286 | exactly the entries that parse to the reference go, in either spelling; unparseable ones stay |
| `ChainRef.FilterProvider` | internal/provider/manager/manager.go:1290-1306 | exactly the entries under the provider go, and their number is returned |
| `ChainRef.WithoutInOrder` | internal/provider/manager/manager.go:1267-1306 | what filtering leaves is in the order it was in |
| `FailoverDispatch.Failover.Chat` | internal/provider/failover/failover.go:193-254 | each attempt follows the routing rule on the health it saw, the call ends as the last reply dictates, and health ends as the log of all interleaved events says |
| `FailoverDispatch.Failover.PickNext` | internal/provider/failover/failover.go:293-349 | the lowest-index untried enabled provider that is healthy or past its cooldown, else the one whose cooldown ends first, with the matching retry budget |
| `Routing.EachProviderAtMostOnce` | internal/provider/failover/failover.go:193-254 | under any interference a call tries no provider twice and none that is disabled, and ends within as many attempts as there are providers |
| `Routing.ExhaustedExactly` | internal/provider/failover/failover.go:193-254 | the exhausted error is returned exactly when every enabled provider was tried and failed in a way worth failing over |
| `Routing.OnlyWorthyFailuresTrip` | internal/provider/failover/failover.go:193-254 | a call alone changes the health of exactly the providers that failed in a way worth failing over |
| `Routing.LapsedPrimaryFirst` | internal/provider/failover/failover.go:293-349 | a primary past its cooldown is probed before any healthy fallback |
| `Routing.WorthyExactly` | internal/provider/failover/classifier.go:24-58 | an error is worth failing over exactly when no layer is a cancellation or deadline and it holds an exhausted retry or its outermost API error is one of the seven another provider may not have |
| `Routing.EventReads` | internal/provider/failover/failover.go:355-373 | a health event touches the addressed record alone: success makes it fresh, failure adds one and sets the end of its cooldown |
| `Routing.TapReads` | internal/provider/failover/stream.go:28-52 | a stream that ends well recovers its provider, one that fails in a way worth failing over trips it, any other end leaves health alone |
| `FailoverDispatch.Failover.RecordSuccess` | internal/provider/failover/failover.go:355-366 | recovers exactly the addressed record |
| `FailoverDispatch.Failover.RecordFailure` | internal/provider/failover/failover.go:369-373 | trips exactly the addressed record |
| `FailoverDispatch.WrappedStream.Err` | internal/provider/failover/stream.go:28-52 | the health callback fires on the first Err only, and the inner error is passed on |
| `FailoverDispatch.WrappedStream.ErrRepeatedly` | internal/provider/failover/stream.go:28-52 | any number of Err calls on one stream change health exactly as the log of the calls says |
| `Routing.StreamReportsOnce` | internal/provider/failover/stream.go:28-52 | the log of any Err calls on one stream holds at most one health event, and the first terminal error decides it |
| `Cooldown.AppliedIsIdeal` | internal/provider/failover/state.go:71-91 | for factors 1 to 3 and all positive 64-bit durations the wrapping loop yields the smaller of maximum and base times factor to the power of consecutive trips less one |
| `Cooldown.GuardIsExactUpToThree` | internal/provider/failover/state.go:71-91 | the overflow guard catches every wrap-around exactly for factors up to 3 |
| `Cooldown.GuardMissesOverflow` | internal/provider/failover/state.go:71-91 | for any larger factor a concrete cooldown escapes the guard |
| `Cooldown.CooldownMonotone` | internal/provider/failover/state.go:71-91 | further trips never shorten the cooldown, and the first is the smaller of base and maximum |
| `Cooldown.TrippedReads` | internal/provider/failover/state.go:71-91 | a tripped provider is unhealthy and may be probed exactly from the end of its cooldown on |
| `Cooldown.ProviderState.Trip` | internal/provider/failover/state.go:71-91 | one more consecutive failure and the cooldown of that count from now |
| `Cooldown.ProviderState.Recover` | internal/provider/failover/state.go:96-100 | back to a fresh record |
| `Wire.SanitizeToolSequence` | internal/provider/bifrost/adapter.go:1152-1297 | what comes out, stated of the request itself: exactly tool messages nobody asked for and textless deserted assistants are gone; an earlier assistant loses its whole part exactly when none of its calls was answered, otherwise keeps its reasoning and exactly the answered calls; invalid arguments become the empty object; everything else is as it was, in order; this agrees with the reference definition |
| `Wire.SanitizedExactly` | internal/provider/bifrost/adapter.go:1152-1297 | the reference definition has exactly these survivors, and each of them the part described for it |
| `Wire.PassesAgree` | internal/provider/bifrost/adapter.go:1152-1297 | dropping, stripping and repairing one after the other, with the last assistant found after dropping, treats each message as the reference does with whole-request facts |
| `Wire.FilterInPlace` | internal/provider/bifrost/adapter.go:1215-1224 | filtering calls into their own backing store yields the kept calls in order |
| `Wire.SanitizedIsClosed` | internal/provider/bifrost/adapter.go:1152-1297 | in the result every tool message has its call, every call of an earlier assistant has its answer, and every non-empty argument string is valid |
| `Wire.OnlyOrphansAndEmptiedGo` | internal/provider/bifrost/adapter.go:1152-1297 | survivors keep order, role, content and call identities; exactly orphan tool messages and textless assistants without an answered call are removed |
| `Wire.SanitizeIdempotent` | internal/provider/bifrost/adapter.go:1152-1297 | sanitising twice is sanitising once |
| `Wire.FixedIffClosed` | internal/provider/bifrost/adapter.go:1152-1297 | exactly the closed requests pass unchanged |
| `Wire.CapCacheBreakpoints` | internal/provider/bifrost/adapter.go:1314-1338 | nothing but cache marks changes, and exactly the last four marks stay |
| `Wire.NewestMarksStay` | internal/provider/bifrost/adapter.go:1305-1338 | every mark that stays comes later in the request than every mark that goes |
| `Conversation.TurnKeepsPairingIff` | internal/engine/loop/loop.go:421-464 | recording an assistant turn with its results keeps a history paired exactly when no result but the last brings messages of its own |
| `Conversation.PairedCut` | internal/engine/compact/compactor.go:207-218 | cutting in front of a message that is no tool result leaves both halves paired |
| `Conversation.PairedJoin` | internal/engine/loop/loop.go:160-238 | paired histories can be appended |
| `Conversation.BrokenBatch` | internal/engine/loop/loop.go:448-464 | a message between two results leaves the later one outside the block of its assistant |
| `Conversation.Session.AddMessage` | internal/engine/session/session.go:77-88 | one more message, and its tokens on the total |
| `Conversation.Session.SetMessages` | internal/engine/session/session.go:91-101 | the history is replaced, the token total is not |
| `Conversation.Session.AppendToolResults` | internal/engine/loop/loop.go:448-464 | one result per call in call order, each followed by its own messages |
| `Conversation.BatchReads` | internal/engine/loop/loop.go:448-464 | each call has one result message with its id, name and output, directly followed by the messages that result brought |
| `Compaction.AdvancePast` | internal/engine/compact/compactor.go:207-218 | the first message from the given index on that is no tool result |
| `Compaction.LLMCompactor.ShouldCompact` | internal/engine/compact/compactor.go:43-79 | due exactly when the breaker is closed and the summed tokens exceed their share of the window |
| `Compaction.LLMCompactor.Compact` | internal/engine/compact/compactor.go:82-162 | the history as is, head and recent half, or summary and recent third, by size and summary; the failure count moves with it |
| `Compaction.CompactedShape` | internal/engine/compact/compactor.go:82-205 | a successful compaction is one head message and a proper tail that does not begin with a tool result; the head is the original first message or a non-blank synthetic user message |
| `Compaction.CompactedExactly` | internal/engine/compact/compactor.go:82-205 | no change below four messages; the opening message and the recent half below ten or without a usable summary; otherwise the summary and the recent third; the tail starts at the first message from there on that is no tool result |
| `Compaction.CompactionShortens` | internal/engine/compact/compactor.go:82-205 | any history of four or more messages gets strictly shorter |
| `Compaction.CompactionKeepsSound` | internal/engine/compact/compactor.go:82-218 | a paired, user-first history stays so |
| `Compaction.CompactionTerminates` | internal/engine/compact/compactor.go:82-162 | a chain of compactions is no longer than the messages it started from, and stays sound |
| `Compaction.BreakerCountsRow` | internal/engine/compact/compactor.go:111-146 | the failure count is the number of useless summaries in a row, short histories not interrupting it |
| `Turns.Engine.Run` | internal/engine/loop/loop.go:30-246 | session, compactor, requests and result end as the turns of the script take them, with an error exactly when a collaborator is missing |
| `Turns.RunTakesTurns` | internal/engine/loop/loop.go:54-245 | each turn of a run that has not ended sends exactly one request unless it is cancelled: the history, or when compaction is due and succeeds its compaction; a broken reply leaves that as the history, and a reply is appended to what was sent as one assistant message with its results and injections |
| `Turns.RunEnds` | internal/engine/loop/loop.go:230-246 | a run that used up its turns without ending ends as MaxTurns, and nothing else about it changes |
| `Turns.BuildAssistantMessage` | internal/engine/loop/loop.go:421-446 | text first, then one tool-use block per call, tokens and reasoning as reported |
| `Turns.AssistantRequests` | internal/engine/loop/loop.go:421-446 | the recorded message opens exactly the ids the model asked for |
| `Turns.RunStays` | internal/engine/loop/loop.go:54-245 | after a terminal, or out of turns, nothing changes any more |
| `Turns.PairingHoldsThroughout` | internal/engine/loop/loop.go:30-246 | at every turn boundary of every run the history, and every request sent, is paired and opens with a user message |
| `Conversion.ConvertSingle` | internal/provider/bifrost/adapter.go:1340-1509 | the wire form of one message, the first tool result taking precedence over everything else |
| `Conversion.WireReads` | internal/provider/bifrost/adapter.go:1340-1509 | a message with a result is the tool message of its first one; any other keeps its role, sends one text plainly and more as blocks, and has an assistant part exactly when it calls a tool or its reasoning is echoed |
| `Conversion.BlockReads` | internal/provider/bifrost/adapter.go:1340-1509 | empty texts are not sent; a model without vision gets no image but a note on its type and saved path; one with vision gets the image by url or inline data, and the path; a file needs data or a url |
| `Conversion.PartsInOrder` | internal/provider/bifrost/adapter.go:1340-1509 | content parts come in the order of the blocks |
| `Conversion.ConvertedReads` | internal/provider/bifrost/adapter.go:1086-1132 | the prompt first, when there is one, then the wire form of every message that is not a system message, in order |
| `Conversion.ConvertMessages` | internal/provider/bifrost/adapter.go:1086-1132 | system messages are skipped, the rest converted in order behind the prompt and sanitised; after that only cache marks change, of which exactly the four newest stay |
| `Conversion.Preflight` | internal/engine/loop/loop.go:266-357 | reports exactly the four kinds of malformed message |
| `Conversion.PreflightOnSound` | internal/engine/loop/loop.go:266-357 | a sound history never trips the first-message rule, and trips the orphan rule exactly when some call has an empty id |
| `Conversion.SanitizeKeepsPairedWhole` | internal/provider/bifrost/adapter.go:1086-1297 | sanitising a converted paired history drops no message and strips no call exactly when no call id is empty |
| `Conversion.SoundRequestIsStrict` | internal/provider/bifrost/adapter.go:1086-1297 | what is sent for a paired history is complete, has valid arguments, and every tool message is in the block right behind the assistant that made its call |
| `Pipeline.EveryRequestIsStrict` | internal/engine/loop/loop.go:30-246 | over whole runs of turns, compactions and tool batches every request reaches the provider complete, strictly paired and user-first |
| `Awaits.ChannelsUsedOnce` | internal/engine/session/awaits.go:79-270 | in every interleaving a channel gets at most one send and one close, and nothing after the close |
| `Awaits.SendNeverBlocks` | internal/engine/session/awaits.go:95-108 | a resolve about to send finds the channel open and the slot free |
| `Awaits.NoCloseAfterClose` | internal/engine/session/awaits.go:95-108 | a resolve about to close finds a channel on which only its own payload was sent |
| `Awaits.OwnedStep` | internal/engine/session/awaits.go:79-270 | every push, resolve part, forget and abort keeps each channel with at most one owner |
| `Awaits.Registry.Push` | internal/engine/session/awaits.go:79-90 | a new channel under the key |
| `Awaits.Registry.Resolve` | internal/engine/session/awaits.go:95-108 | found exactly when registered; the entry goes, the payload and the close are on its channel, nothing else moves |
| `Awaits.Registry.Forget` | internal/engine/session/awaits.go:114-118 | the entry goes, its channel stays as it is |
| `Awaits.Registry.AbortAll` | internal/engine/session/awaits.go:251-270 | closing entry by entry amounts to closing exactly the registered channels and emptying the registry |
| `Dispatch.ClientBridge.Execute` | internal/engine/loop/dispatch.go:81-142 | each call waits on a channel of its own; on every path none of these stays registered, an id of the batch is registered only if somebody else did so meanwhile, and each result is the payload sent on its channel, or cancelled only when the context was or the channel was closed empty |
| `Dispatch.ClientBridge.Poll` | internal/engine/loop/dispatch.go:124-139 | a wait yields the payload when one was sent, cancelled when the context is or the channel was closed empty, and otherwise goes on |
| `Dispatch.PayloadReads` | internal/engine/loop/dispatch.go:144-163 | a client result is an error exactly when it is missing or its status is not success, with output and error message where the status calls for them |
| `Dispatch.DispatchTools` | internal/engine/loop/dispatch.go:28-58 | results line up with calls, and the log is that of maximal equally routed segments, each run on its own executor |
| `Dispatch.EachReportedOnce` | internal/engine/loop/dispatch.go:45-51 | the result hook fires once per call, in call order, with the result stored for that call |
| `Dispatch.SegmentsInOrder` | internal/engine/loop/dispatch.go:31-55 | when a segment starts, all earlier calls and no later ones were reported, and its own reports follow |
| `Plans.PlanFile.Handle` | internal/workspace/plan_writer.go:213-241 | succeeds exactly when the file is readable, the edit agrees, the transition is allowed and the disk takes it, and then exactly the edited plan, stamped now, is on disk; anything else leaves the file alone |
| `Plans.HandledExactly` | internal/workspace/plan.go:59-104 | success exactly for an applicable edit and a write that goes through; then the plan on disk is the edited one field by field, is valid and keeps every frozen task |
| `Plans.AuditEditsAccepted` | internal/workspace/scope.go:71-155 | on a valid plan no edit of the post-spawn audit can be rejected or touch a frozen or foreign task |
| `Plans.AuditReads` | internal/workspace/scope.go:71-155 | after the audit its task is done with a reference to its meta.json, or failed with the reference it had, and ended now; a frozen task and every other task are as they were |
| `Plans.ReconcileSpawnReturn` | internal/workspace/scope.go:71-155 | the verdict for each way meta.json can be missing, broken or good, and on disk the task status, reference and end time that go with it, stated outright |
| `PlanQueue.Serialised` | internal/workspace/plan_writer.go:73-285 | in every interleaving in which no writer is asked for while StopAll waits for one that still handles edits, the disk is the fold of the successful edits over the first plan in enqueue order, each of them applicable when its turn came; at most one consumer is live, and no call is answered twice |
| `PlanQueue.OneConsumerIff` | internal/workspace/plan_writer.go:73-115 | at most one consumer is live throughout a run if and only if no request for a writer during StopAll finds none registered while the old consumer still handles edits |
| `PlanQueue.FailedCallsHaveNoEffect` | internal/workspace/plan_writer.go:255-272 | a finished call was written exactly when it returned success, and is pending nowhere |
| `PlanQueue.VersionsValidAndFrozen` | internal/workspace/plan.go:59-104 | every version written is valid, and a task once frozen is present and frozen in all later ones |
| `PlanQueue.OwnedStep` | internal/workspace/plan_writer.go:73-198 | idle reclaim, lazy restart, the identity-checked callback and careful restarts during StopAll keep at most one consumer live |
| `PlanQueue.InvStep` | internal/workspace/plan_writer.go:151-285 | every atomic step keeps queues, tickets, replies, snapshots and disk consistent |
| `PlanQueue.RestartDuringStopAll` | internal/workspace/plan_writer.go:96-115 | a request for a writer makes a second consumer exactly when StopAll waits for one that still handles edits and none is registered |
| `PlanQueue.UpdateLostAcrossStopAll` | internal/workspace/plan_writer.go:96-115 | such a restart can lose an edit that was answered with success |
| `PlanQueue.ApplyCanStrand` | internal/workspace/plan_writer.go:255-272 | a caller that enqueues behind the last drain gets no reply in any continuation |
| `PlanQueue.StrandedForever` | internal/workspace/plan_writer.go:164-211 | a call at any place in the queue of a writer that has left for good stays there unanswered through every continuation |
| `PlanQueue.ReplyComesUnlessGone` | internal/workspace/plan_writer.go:151-272 | in every reachable state a waiting call can still be answered if and only if the goroutine of its writer has not left or StopAll is waiting for it |
| `PlanQueue.EnqueueSafeUnlessGone` | internal/workspace/plan_writer.go:255-272 | an enqueued edit can be answered exactly when at that moment the goroutine has not left or StopAll still waits for it |
| `PlanQueue.CanAnswer` | internal/workspace/plan_writer.go:96-211 | from any state the consumer, the idle path, the drains or StopAll lead to an answer for a call in the hands of a writer that is not gone |
| `Prompts.PromptsSurviveCrashes` | internal/channel/websocket/translator.go:1610-1630 | over emissions, replies, crashes, reconnects and sweeps each shown prompt that is unexpired, and no reply to which was handed over or dropped, has a durable wait |
| `Prompts.ReplyIsRouted` | internal/channel/websocket/conn.go:468-600 | a reply to such a prompt reaches the live waiter or the recovery path and is never rejected |
| `Prompts.RejectedExactly` | internal/channel/websocket/conn.go:468-600 | a reply is rejected exactly when no map knows it and the store cannot help |
| `Prompts.FailedResumeKeepsWait` | internal/channel/websocket/conn.go:584-597 | a failed resume changes nothing durable, and unless the wait has expired meanwhile the same reply leads back to the same attempt |
| `Prompts.AnswerableAfterFailure` | internal/channel/websocket/conn.go:487-613 | a prompt whose reply did not reach the engine can be answered again if and only if its row is there and the reply took the recovery path or the deletion of the row failed |
| `Prompts.RoutedOnce` | internal/channel/websocket/conn.go:468-613 | as long as the deletions of its own row succeed one process routes a request id at most once |
| `Prompts.RoutedAgainIff` | internal/channel/websocket/conn.go:578-613 | after a reply was routed, some continuation routes the id again if and only if its row is there and the deletion of the row fails |
| `Prompts.SecondReplyRejectedIff` | internal/channel/websocket/conn.go:578-613 | the same reply again is rejected if and only if the row was deleted or was not there |
| `Prompts.FailedDeleteAllowsSecondRouting` | internal/channel/websocket/conn.go:602-613 | an ignored deletion failure lets the same reply through a second time |
| `Prompts.ReplyEffectIsRun` | internal/channel/websocket/conn.go:468-613 | the uninterrupted handler has the effect of the machine taken through one reply |
| `Prompts.Channel.HandlePromptResponse` | internal/channel/websocket/conn.go:468-600 | the first map that knows the id, in the order question, step decision, plan review, permission, decides the kind, and the engine id it holds is what is published; the entry and the wait are gone even when the publication fails; recovery only when nobody knows the id |
| `Prompts.Channel.PromptAndReply` | internal/channel/websocket/conn.go:468-600 | a reply to an emitted prompt reaches the engine under the kind and engine id of that prompt, whatever other prompts and replies come between |
| `Prompts.ReplyEffectReads` | internal/channel/websocket/conn.go:468-613 | every outcome of a reply with the exact maps, store row and published id that belong to it |
| `Prompts.Channel.EmitPrompt` | internal/channel/websocket/translator.go:596-606 | no prompt is sent or remembered unless its wait was saved |
| `Prompts.Channel.ResolveAskQuestion` | internal/channel/websocket/translator.go:1662-1672 | hands out and removes exactly a usable entry of its own map |
| `Prompts.Channel.ResolveStepDecision` | internal/channel/websocket/translator.go:1720-1730 | hands out and removes exactly a usable entry of its own map |
| `Prompts.Channel.ResolvePlanReview` | internal/channel/websocket/translator.go:1701-1711 | hands out and removes exactly a usable entry of its own map |
| `Prompts.Channel.ResolvePermission` | internal/channel/websocket/translator.go:1679-1689 | hands out and removes exactly a usable entry of its own map |
| `Prompts.Channel.ForgetWait` | internal/channel/websocket/conn.go:608-613 | a no-op without a prompter, and no more than this one row otherwise |
| `Prompts.Prompter.IssueWait` | internal/humanloop/prompter.go:122-133 | saves the wait with its defaults, or nothing |
| `Prompts.StampedReads` | internal/persistence/sqlite/waits.go:54-89 | a missing creation time is now, a missing expiry 15 days after the creation, and nothing else changes |
| `Prompts.Prompter.Issue` | internal/humanloop/prompter.go:83-96 | registers a live channel only when the row is saved |
| `Prompts.Prompter.Deliver` | internal/humanloop/live.go:53-65 | delivered exactly when a waiter is registered; a second answer is dropped, not queued |
| `Prompts.Prompter.Unregister` | internal/humanloop/live.go:38-42 | removes the waiter of this request |
| `Prompts.Prompter.SweepExpired` | internal/humanloop/prompter.go:152-154 | exactly the waits past their expiry go, and they are counted |
| `Prompts.WaitStore.Save` | internal/persistence/sqlite/waits.go:54-89 | incomplete rows are refused; saving replaces the row of the same id and fills in a missing creation time |
| `Prompts.WaitStore.Delete` | internal/persistence/sqlite/waits.go:108-115 | removes at most the named row |
| `Prompts.WaitStore.DeleteExpired` | internal/persistence/sqlite/waits.go:141-150 | removes exactly the rows that expire and have expired, and counts them |
| `Persist.NoLostUpdate` | internal/engine/session/persist.go:70-180 | whatever the store answers: while the last attempted write lags, a dirty token is queued, the timer is armed, a mutator has yet to notify or a flush is under way; at rest the last attempt was at the present version, and the store has it if and only if an attempt at it succeeded |
| `Persist.AckedFlushCovers` | internal/engine/session/persist.go:80-95 | an acknowledged flush has had a write attempted that covers every mutation before the call, and the store covers them for good if and only if such a write succeeded |
| `Persist.CanSettle` | internal/engine/session/persist.go:112-167 | from every state in which it waits, the worker can come to rest by itself, with everything stored if anything was pending |
| `Persist.RetriedExactlyOnDemand` | internal/engine/session/persist.go:112-180 | a waiting worker can bring the store up to date without a further change or flush call if and only if it is up to date or a signal, a timer or a queued flush is pending |
| `Persist.AckedButNotStored` | internal/engine/session/persist.go:80-180 | a flush can be acknowledged although its write failed, and the worker then rests with the store behind |
| `Persist.SuccessfulWritesSuffice` | internal/engine/session/persist.go:70-180 | when all writes succeed, store and session agree at rest and every acknowledged flush is covered |
| `Persist.StopLoses` | internal/engine/session/persist.go:97-133 | once the loop has left the store stays as it is, and lacks exactly what no successful write carried |
| `Persist.StopLosesLateChange` | internal/engine/session/persist.go:97-133 | a change between the acknowledgement of the final flush and the end of the loop is lost |
| `Persist.InvStep` | internal/engine/session/persist.go:112-180 | every step, failed writes included, hands the responsibility for an unattempted version on, or a write takes it, and the store never goes back |
| `Budget.Allocate` | internal/engine/prompt/budget.go:122-140 | no path allocates more than the budget, and each path has the properties of its strategy |
| `Budget.AllocateDynamic` | internal/engine/prompt/budget.go:152-246 | proportional when the demands fit; otherwise trimmed when the minimums leave something of the budget, and the emergency allocation when they do not, even if they fit exactly; within the budget always |
| `Budget.OverBudgetServesAllIff` | internal/engine/prompt/budget.go:190-246 | when the demands exceed the budget, everybody gets the minimum if and only if the minimums add up to less than the budget, or all sections are guaranteed with equal minimums that fill it |
| `Budget.ExactFitStarves` | internal/engine/prompt/budget.go:200-203 | a section whose minimum is the whole budget gets nothing of it |
| `Budget.Trim` | internal/engine/prompt/budget.go:207-246 | the whole budget is used, every section is between minimum and ideal, and nobody is above the minimum while a more important section is short |
| `Budget.GrantProportional` | internal/engine/prompt/budget.go:184-198 | everybody gets the ideal and a rounded-down part of the surplus; rounding loses at most one token a section |
| `Budget.IdealReads` | internal/engine/prompt/budget.go:163-180 | a section wants what it declares, else its tier percentage of the budget rounded down, and never less than its minimum |
| `Budget.ProportionalTotal` | internal/engine/prompt/budget.go:184-198 | rounded-down proportional parts never exceed the surplus |
| `Budget.SortByPriority` | internal/engine/prompt/budget.go:222-229 | the exchange sort orders by priority and permutes |
| `Budget.Greedy` | internal/engine/prompt/budget.go:231-243 | up to the stopping section everybody has the ideal, behind it the minimum |
| `Budget.AllocateStatic` | internal/engine/prompt/budget.go:258-297 | each tier has its percentage of the budget as far as it is left, and its sections get exactly the within-tier allocation of that; nothing once the budget is used up, nothing outside the tiers |
| `Budget.StaticExactly` | internal/engine/prompt/budget.go:258-297 | with a positive budget the cap on what is left never bites: each tier is served by itself on its percentage, whatever is in the others |
| `Budget.AllocateWithinTier` | internal/engine/prompt/budget.go:328-368 | when the minimums fit, everybody gets the minimum and an equal part of the rest; otherwise in order exactly those whose minimum fits into what is left get it |
| `Budget.GrantWhatFits` | internal/engine/prompt/budget.go:341-350 | first fit: a section gets its minimum exactly when it fits into what the earlier ones leave |
| `Budget.AllocateEmergency` | internal/engine/prompt/budget.go:301-325 | an equal share for exactly the guaranteed sections it is enough for |
| `Budget.FindTierIndex` | internal/engine/prompt/budget.go:371-378 | the first tier holding the priority, or -1 |
| `Stream.ConsumeStream` | internal/provider/bifrost/adapter.go:803-1075 | the events and the error of the chunks up to the one that stops the stream |
| `Stream.OutputShape` | internal/provider/bifrost/adapter.go:803-1075 | text first, then tool calls, then at most one MessageEnd, which is last; an error ends the output without one |
| `Stream.OutputReads` | internal/provider/bifrost/adapter.go:803-1075 | a failure is followed by its error alone; otherwise a stream that gave a finish reason or a piece of a call ends with all its calls and one MessageEnd with stop reason, usage, model and reasoning, and any other with its text |
| `Stream.CallsInFirstSeenOrder` | internal/provider/bifrost/adapter.go:1668-1690 | one tool call per index in the order the indices first appear, with the first id and name and all argument pieces in order |
| `Stream.SaidInOrder` | internal/provider/bifrost/adapter.go:955-1065 | texts, reasoning and pieces of calls come out in the order of the chunks |
| `Stream.UsageReads` | internal/provider/bifrost/adapter.go:950-986 | the usage is the first one reported |
| `Stream.FinishReads` | internal/provider/bifrost/adapter.go:1043-1065 | the finish reason is the last one given |
| `Stream.ModelReads` | internal/provider/bifrost/adapter.go:945-948 | the model is the first one named |
| `Stream.StopReasonReads` | internal/provider/bifrost/adapter.go:1631-1642 | the stop reason for each finish reason, and for none |
| `Stream.Accumulate` | internal/provider/bifrost/adapter.go:1668-1690 | a piece is appended to the call of its index, or opens a new one |
| `Stream.FinishUsageSwap` | internal/provider/bifrost/adapter.go:815-830 | swapping the first finish chunk and the usage-only chunk next to it, of the same model, changes nothing |
| `Stream.StopsAfterPair` | internal/provider/bifrost/adapter.go:955-1065 | the stream is read exactly up to the second of finish and usage |
| `Stream.ReadOnce` | internal/provider/bifrost/adapter.go:922-1075 | how much is read is determined by the stream |
| `Stats.Tracker.RecordLLMCall` | internal/metric/sessionstats/tracker.go:63-129 | the totals gain one call, its latency and each token count in its own field; model row and sub-agent row move by the same amount, so totals stay the sum of the models plus the nameless calls, and of the sub-agents plus the rest |
| `Stats.CallReads` | internal/metric/sessionstats/tracker.go:63-129 | one call adds one to the calls and each reported token count to its own counter, nothing else |
| `Stats.LabelReads` | internal/metric/sessionstats/tracker.go:97-129 | a sub-agent is labelled with its first named model, and as mixed from the first other one on |
| `Stats.Tracker.StartSubAgent` | internal/metric/sessionstats/tracker.go:166-186 | a new row at the end, exactly for a new non-empty run id |
| `Stats.Tracker.FinishSubAgent` | internal/metric/sessionstats/tracker.go:191-205 | status and duration of a known row, nothing else |
| `Stats.Tracker.TakeSnapshot` | internal/metric/sessionstats/tracker.go:139-154 | shows every counter and row, each model once, sub-agents in order of start |
| `Stats.Tracker.RestoreFrom` | internal/metric/sessionstats/tracker.go:238-259 | a tracker that has recorded anything is left alone; a fresh one takes the whole snapshot over under its own id |
| `Stats.RoundTrip` | internal/metric/sessionstats/tracker.go:133-259 | snapshot, restore, snapshot gives the same data up to the order of the models |
| `Stats.Reload` | internal/metric/sessionstats/tracker.go:133-259 | a reloaded tracker has the same rows, totals, nameless and unattributed calls, so sub-agents stay within the totals exactly if they did before |
| `Stats.PartOfTotalMeans` | internal/metric/sessionstats/tracker.go:63-129 | the sub-agents together stay within the totals exactly when what is attributed to none of them is not negative |
| `Stats.ListsPermute` | internal/metric/sessionstats/tracker.go:139-154 | two listings of the same models are permutations of each other |
| `Stats.SumGrow` | internal/metric/sessionstats/tracker.go:97-111 | adding to one row, old or new, adds as much to the sum of all rows |

## Left out

- Transport, SQL, YAML, file system and the provider SDK: foreign code and input/output; the model has abstract stores, writes that succeed or fail, and a builder.
- Integer width: 64-bit wrap-around is modelled for the cooldown arithmetic only; token counts, statistics and counters are unbounded.
- Floating point: tier weights are whole percents with rounding down, the compaction threshold is a real number, and cache hit rate and thinking share are not modelled.
- Adapters built by an operation that then fails: the code drops them without a shutdown, and the model says nothing about them.
- Manager read-only views, context-window capping and image endpoints: easy members.
- Provider names that are empty or contain a colon in the initial configuration: the manager creates none, so the model starts from a tree without them.
- Failover budgets, hooks, token counting and the health snapshot: no effect on routing; the retry budget is modelled as a label.
- Plan tasks stored as JSON null, and time stamps other than the ones the code writes: not part of this model.
- Registry of plan writers: one session at a time; sessions share no file and no queue.
- Prompt replies that arrive over another session's connection, and orphan watchdogs, cards and hints: only the prompt maps of one session are modelled.
- Expiry comparison: times are numbers; the store compares them as text, which can differ within a second.
- Debounce latency, idle time and call timeouts: a timer may fire at any time once it is armed.
- Permission checks, tool pools, server-side tool execution: an executor that returns one result per call.
- Turns.PairingHoldsThroughout: assumes that new messages and injected messages carry no tool traffic, and that only the last result of a batch brings any.
- Prompts.RoutedOnce: assumes that the deletions of this id succeed; `Prompts.RoutedAgainIff` shows that this is exactly what is needed.
- PlanQueue.Serialised: assumes careful requests for a writer during StopAll, exactly what one consumer needs (`PlanQueue.OneConsumerIff`); `PlanQueue.UpdateLostAcrossStopAll` shows what is lost otherwise.
- Stats.Tracker.RestoreFrom: a snapshot with repeated models or sub-agents is taken over, but the tables are then not claimed to be consistent.
