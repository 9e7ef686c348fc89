# TinkerFin: verified models of its protocols

TinkerFin runs deep agents behind a web studio and a desktop companion. This project models the parts of it
where correctness depends on several operations together, and proves what they promise over every input and
every run. It is written for Dafny 4.11; `dafny verify dfyconfig.toml` checks everything.

## The components

**Event stream of an agent run** (`AguiTypes`, `AguiStream`, `AguiTrace`, `AguiBalance`, `AguiRuns`, `AguiLoss`,
`AguiInStep`, `AguiScope`, `AguiIsolation`, `AguiContent`, `AguiSplit`, `AguiFrames`, `AguiReplay`, `AguiAdapter`). The adapter turns interleaved model, tool and
subagent frames into AG-UI lifecycle events. `AguiStream` states what each frame does to the adapter's
dictionaries and which events it sends; `AguiAdapter.Adapter` is the object with those dictionaries as
fields, proved equal to it branch by branch. `AguiTrace` defines, independently of the adapter, which traces a client
accepts: brackets, one life cycle for each tool call, text and reasoning never open together. Whole runs are
proved balanced against that checker, exactly as long as no frame of one recognisable kind arrives, the namespaces of a run are proved not to interfere, and the content a
client assembles is proved to be what was sent, however a message was cut into fragments. `AguiFrames` says what a frame shows
and leaves open, `AguiReplay` what a checkpoint and a result settle for the rest of the run.

**State patches** (`Json`, `KeyOrder`, `JsonPointer`, `JsonPatch`, `JsonMinimal`, `StateChannel`). The difference of two JSON values as add,
remove and replace operations, an interpreter for them after RFC 6902 (sections 3 and 4.1 to 4.3), pointers
after RFC 6901 (sections 3 and 4), the patch as it is determined by the two values, and a client that follows the root state over every run.

**Interrupts of subagents** (`Interrupts`, `InterruptRuns`, `InterruptFinish`, `InterruptCalls`, `InterruptBuffer`). Native requests are projected
to public ones, frames are staged and then taken in or refused as a whole; the three tables of the buffer stay inverse to
each other over every run, each request keeps the tool call that was found for it, and it is proved which frames are accepted
and which runs can still finish.

**Device identity and application update** (`Courses`, `DeviceState`, `DeviceSafety`, `DeviceOperations`, `DeviceCompanion`,
`UpdateFiles`, `UpdateFileSafety`, `UpdateFileRuns`, `UpdateFileLeaks`, `UpdateInstall`, `UpdateWorkspace`). Every operation is a course of durable writes, and a crash or an error may
come after any of them. The first half follows the accounts through settings, keychain, `credentials.json` and
`pending.json` over both application versions; the second half follows the files: cleanup journals, `adjacent.json`,
the exchange of the application, over every history of operations from an empty workspace. The classes perform the writes one by one against a budget that says where they stop.

**Dependency closures** (`LockGraph`, `LockScope`, `ProjectPaths`, `LockMeaning`). Two work lists over the lockfile, one for each request of a
package with a tuple of extras, one for each package and single extra, both proved to end and to compute
the reachable part of one graph, which is the least choice of packages and extras that the records of the lockfile allow.

**Archives, digests and skills** (`Archive`, `Extraction`, `ArchiveRoundTrip`, `ByteFormats`, `TreeDigest`, `SkillPublish`,
`SkillDecode`, `SkillSafety`, `SkillReuse`, `AcceptedNames`). Writing an application tree as an archive and rebuilding it in a directory of its own;
the texts that are hashed, proved injective; decoding a downloaded skill, writing it to a volume that may ignore case, and
checking it there again; and where accepted names can lead.

**Ownership protocols** (`Maintenance`, `MaintenanceSides`, `BrowserProvider`, `BrowserManager`, `BrowserJoins`,
`BrowserSweep`, `BrowserCalls`). Client and host that prepare, cancel and
commit a maintenance gate over two FIFO pipes; one browser preparation shared by cancellable callers; the table of
browser sessions. Every stretch between two awaits is one step, and the steps interleave in every order.

## Where the code does not meet its promise

Each of these is proved with a concrete run or input, and with the condition under which it happens.

- A late tool fragment. Validation looks a fragment without an ID up among all calls its slot ever had, processing
  only among the open ones. A nameless fragment for a call that has ended therefore passes validation and then raises in
  the middle of the frame: the frame's events are lost while its changes stay. `AguiLoss.ChunkLostIffLate` says exactly when.
  Client and dictionaries stay in step through a run exactly as long as every such frame starts and ends
  nothing (`AguiInStep.InStepIffNoHarm`), which can be read off the frame and the dictionaries before it
  (`AguiInStep.LostFrameKeepsViewIff`); `AguiLoss.LateFragmentUnbalancesTheTrace` is a run whose trace becomes unbalanced.
- A repeated message that is refused. Middleware may emit messages of a checkpoint again, and they must not be appended again. They
  are ignored, but only until a result of one of their calls is published: after that the validation refuses the repetition,
  because the call counts as ended in this run. `AguiReplay.SnapshotMessageComesAgainIff` and `AguiReplay.PriorIffNoResult` say exactly when;
  `AguiReplay.RepetitionAfterResultIsRefused` is a run.
- A contradicted interrupt. A new request of a root frame may project to a public ID that a buffered child request has: a request
  named `x#0` beside a review `x` of two actions. The frame is accepted, and from then on `finish` can never succeed.
  A root frame contradicts the buffer exactly when two such IDs coincide (`InterruptFinish.RootKeepsAgreementIff`), a run can still
  finish exactly when no frame of it did (`InterruptFinish.RunsFinishIff`), and `InterruptFinish.RunThatCannotFinish` is a run.
- Cancelling after the exchange. When the exchange has happened, but an error hides it and the following identity check
  fails too, the update is treated as not installed and cancelled, and the only account that the
  installed application can read is deleted. The secret stays usable through a run exactly when that does not happen
  (`DeviceSafety.UpdatesKeepTheIdentity`); `DeviceSafety.IdentityCanBeLost` is a run.
- A record left behind. A crash between writing `credentials.json` and `pending.json` leaves a record that nothing ever
  removes: `DeviceSafety.OrphanedIff`, `DeviceSafety.OrphansStay`; `DeviceSafety.RecordCanBeLeftBehind` is a run.
- A copy left behind. A crash between making the directory beside the application and recording it leaves
  that directory for ever and blocks every later attempt to install this update. Over every history it is there exactly
  when some installation of the update, a first one or a retry, stopped just there: `UpdateFileLeaks.HistoryLeaksIff`,
  `UpdateFileLeaks.CopyLeftBehindIff`, `UpdateFileRuns.LeakStays`; `UpdateFileRuns.CopyCanBeLeftBehind` is a run.
- Archives that cannot be extracted. The digest accepts trees that the extractor of their own archive refuses, because only the
  extractor counts and checks the root, measures names with the root in front and bounds link targets:
  `ArchiveRoundTrip.CreatedIsExtractableIff` gives the difference; `ArchiveRoundTrip.SpecialRootIsRefused` and
  `ArchiveRoundTrip.LongLinkIsRefused` are trees.
- A browser session whose close failed keeps its place for ever (`BrowserManager.FailedCloseIsForever`), and with a full table it
  turns a request for a new session into an error, even when all other sessions are gone. A call that finds the table full
  gets a session exactly when something can be retired and all of it closes (`BrowserSweep.FullTableGivesSessionIff`);
  `BrowserSweep.RequestIsRefused` is a run from the empty table.
- A skill that is refused the second time. Two files may spell a directory in ways that differ in case only. On a volume that ignores case
  both are written into one directory, but it is listed under the first spelling, so the check of a directory left
  by an earlier run refuses it: exactly when some directory is spelled twice (`SkillReuse.AcceptedAgainIff`);
  `SkillReuse.PublishedSkillIsRefused` is such a skill.

## Where two parts differ

The incremental closure of the wheel build stops at registry packages, the reference closure of the checks does not, and neither
promises to agree with the other. The selected paths are always among those of the reference closure; they are all of them
exactly when nothing new lies behind the edges that only the reference closure follows and no overridden record has a
path of its own (`ProjectPaths.BothClosuresAgree`). `ProjectPaths.ClosuresDifferBehindARegistryPackage` is a lockfile on which they
differ.

## How to read the model

- A scoped ID is a free value made of namespace, kind and provider ID, so the encoding of IDs is injective by construction.
- Strings of paths, archives and digests are their UTF-8 bytes; names are lists of components. Unicode normalisation,
  and normalisation with case folding, are arbitrary functions on one component or one link target.
- The tool calls that answer the actions of a review are looked up in the history of the run; what the lookup finds, or that it
  finds nothing, is part of the frame.
- Digests are arbitrary injective functions into hexadecimal text. JSON numbers are integers or reals, told apart by type.
- In `DeviceState` and `UpdateFiles` an operation is the list of states it writes one after the other. `Followed` in the classes
  says that the object went through exactly the
  first writes of that list that its budget allowed, and succeeded exactly when it came to the end; the table calls this
  following its course.
- Slots, tasks and callers of the browser modules are named by numbers, so identity checks compare names.

## Model

| member | source | states |
|---|---|---|
| Json.ValuesEqualIsEquality | packages/tinkerfin-agui-adapter/src/tinkerfin_agui_adapter/reasoning.py:15-29 | the recursive comparison holds exactly for structurally equal values, booleans and number kinds kept apart |
| JsonPointer.UnescapeEscape | packages/tinkerfin-agui-adapter/src/tinkerfin_agui_adapter/_adapter_messages.py:147-148 | reading an escaped key back, "~1" before "~0" as RFC 6901 section 4 orders it, gives the key, for every key |
| JsonPointer.TokensOfPath | packages/tinkerfin-agui-adapter/src/tinkerfin_agui_adapter/_adapter_messages.py:147-186 | every list of keys, empty and slash-bearing ones included, survives being written as a pointer and parsed |
| JsonPatch.PatchTransformsPreviousIntoCurrent | packages/tinkerfin-agui-adapter/src/tinkerfin_agui_adapter/_adapter_messages.py:151-186 | for all JSON values, applying the patch in order never misses a target and yields the current value |
| JsonPatch.PatchIsEmptyIffEqual | packages/tinkerfin-agui-adapter/src/tinkerfin_agui_adapter/_adapter_messages.py:151-186 | the patch is empty exactly when the two values are equal |
| StateChannel.RootState.constructor | packages/tinkerfin-agui-adapter/src/tinkerfin_agui_adapter/_adapter_tasks.py:627-727 | a new adapter has sent no state |
| StateChannel.RootState.Emit | packages/tinkerfin-agui-adapter/src/tinkerfin_agui_adapter/_adapter_tasks.py:673-727 | one root frame sends a snapshot, a patch or nothing, and moves the baseline, as the specification says |
| StateChannel.ReplicaFollowsEveryRun | packages/tinkerfin-agui-adapter/src/tinkerfin_agui_adapter/_adapter_tasks.py:627-727 | over every run a client that applies snapshots and patches holds exactly the last state, and holds nothing only while every frame was blank; so does the baseline |
| StateChannel.RepeatedStateSendsNothing | packages/tinkerfin-agui-adapter/src/tinkerfin_agui_adapter/_adapter_tasks.py:706-727 | against a known state nothing is sent exactly when the state is the same |
| JsonMinimal.PatchIsExactly | packages/tinkerfin-agui-adapter/src/tinkerfin_agui_adapter/_adapter_messages.py:151-186 | the patch removes exactly the members only the previous value has in an object both have, adds exactly those only the current one has, with their values, and replaces exactly the places where different values meet that are not both objects, at every depth |
| JsonMinimal.EqualMembersUntouched | packages/tinkerfin-agui-adapter/src/tinkerfin_agui_adapter/_adapter_messages.py:160-186 | no operation reaches a place that both values hold equally |
| JsonMinimal.PathsAreRead | packages/tinkerfin-agui-adapter/src/tinkerfin_agui_adapter/_adapter_messages.py:160-186 | every path of a patch is a pointer, to the place its operation stands for |
| JsonMinimal.PatchIsOrdered | packages/tinkerfin-agui-adapter/src/tinkerfin_agui_adapter/_adapter_messages.py:164-184 | removals come before additions and these before changes of shared members, each by key, at every object |
| JsonMinimal.PrecedesIsStrict | packages/tinkerfin-agui-adapter/src/tinkerfin_agui_adapter/_adapter_messages.py:164-184 | that order is strict, so no operation is listed twice and the two values determine the patch |
| StateChannel.EveryRunSends | packages/tinkerfin-agui-adapter/src/tinkerfin_agui_adapter/_adapter_tasks.py:673-727 | after every run an interrupted frame sends the whole state, the first frame with anything to show too, and every later one nothing but the patch from the last state |
| AguiTrace.ToolEventsInOrder | packages/tinkerfin-agui-adapter/src/tinkerfin_agui_adapter/_adapter_messages.py:488-672 | in every accepted trace two events of one call never go backwards: one start, arguments, one end, at most one result |
| AguiTrace.TextOnlyInside | packages/tinkerfin-agui-adapter/src/tinkerfin_agui_adapter/_adapter_messages.py:795-803 | in every accepted trace text, attachments and ends of a message lie after a start of it with no end in between |
| AguiTrace.TextAndReasoningExclude | packages/tinkerfin-agui-adapter/src/tinkerfin_agui_adapter/_adapter_messages.py:699-768 | at every point of an accepted trace no namespace has text and reasoning open together |
| AguiBalance.ToolFragmentKeeps | packages/tinkerfin-agui-adapter/src/tinkerfin_agui_adapter/_adapter_messages.py:488-572 | a fragment keeps the slot table the exact inverse of the open calls and started calls the disjoint union of open and ended ones, and its events move a checking client from the old dictionaries to the new ones |
| AguiBalance.ToolFragmentsKeeps | packages/tinkerfin-agui-adapter/src/tinkerfin_agui_adapter/_adapter_messages.py:488-572 | the same for a list of fragments, even one that cannot be completed |
| AguiBalance.ThinkKeeps | packages/tinkerfin-agui-adapter/src/tinkerfin_agui_adapter/_adapter_messages.py:699-768 | a reasoning delta opens its bracket once and is accepted whenever no text is open in the namespace |
| AguiBalance.ShowKeeps | packages/tinkerfin-agui-adapter/src/tinkerfin_agui_adapter/_adapter_messages.py:380-485 | before text is sent the namespace shows exactly that message, with reasoning and every other message closed |
| AguiBalance.CloseToolsKeeps | packages/tinkerfin-agui-adapter/src/tinkerfin_agui_adapter/_adapter_messages.py:827-836 | closing the calls of a namespace sends one end for each open call and leaves none open |
| AguiBalance.ProcessAiKeeps | packages/tinkerfin-agui-adapter/src/tinkerfin_agui_adapter/_adapter_messages.py:367-485 | an assistant fragment, completed or not, keeps the dictionaries in step with the events; a last fragment leaves its namespace idle |
| AguiBalance.CloseAllKeeps | packages/tinkerfin-agui-adapter/src/tinkerfin_agui_adapter/_adapter_messages.py:839-878 | closing everything is accepted by a client and leaves nothing open in any namespace |
| AguiRuns.RememberBaselineLearns | packages/tinkerfin-agui-adapter/src/tinkerfin_agui_adapter/_adapter_messages.py:103-143 | remembering checkpointed messages sends nothing, and makes exactly their calls known without a start |
| AguiRuns.PublishResultKeeps | packages/tinkerfin-agui-adapter/src/tinkerfin_agui_adapter/_adapter_messages.py:575-672 | publishing a result starts and ends its call where needed and never sends a second result |
| AguiLoss.ChunkLostIffLate | packages/tinkerfin-agui-adapter/src/tinkerfin_agui_adapter/_adapter_messages.py:488-520 | an accepted assistant fragment fails midway exactly when it continues a call of its slot that has ended |
| AguiLoss.CompleteMessagesAreNeverLost | packages/tinkerfin-agui-adapter/src/tinkerfin_agui_adapter/_adapter_messages.py:268-290 | a complete message never fails midway |
| AguiLoss.CallsKeepOneSlot | packages/tinkerfin-agui-adapter/src/tinkerfin_agui_adapter/adapter.py:407-487 | validation keeps every call in one slot, so looking a call up by its slot is unambiguous |
| AguiLoss.FramesKeepOneSlot | packages/tinkerfin-agui-adapter/src/tinkerfin_agui_adapter/adapter.py:332-380 | the same over every frame |
| AguiLoss.LateFragmentUnbalancesTheTrace | packages/tinkerfin-agui-adapter/src/tinkerfin_agui_adapter/_adapter_messages.py:488-520 | a concrete run in which a late fragment is accepted, its frame is lost and the trace ends with an end that never started |
| AguiInStep.NoneLostIffNoLate | packages/tinkerfin-agui-adapter/src/tinkerfin_agui_adapter/_adapter_messages.py:488-520 | a run loses no frame exactly when none continues a call that has ended; both can be read off each frame before it is processed |
| AguiInStep.LostFrameKeepsViewIff | packages/tinkerfin-agui-adapter/src/tinkerfin_agui_adapter/_adapter_messages.py:367-520 | a lost frame leaves what a client should see unchanged exactly when its text stays, no reasoning was open and no call starts before its late fragment |
| AguiInStep.DiscardedEventsMissing | packages/tinkerfin-agui-adapter/src/tinkerfin_agui_adapter/_adapter_messages.py:488-520 | the discarded events are just what would have brought the client to the new dictionaries |
| AguiInStep.MatchesIff | packages/tinkerfin-agui-adapter/src/tinkerfin_agui_adapter/_adapter_messages.py:367-878 | a frame of any kind brings client and dictionaries to the same state exactly when it does no such harm |
| AguiInStep.EveryRunIsBalanced | packages/tinkerfin-agui-adapter/src/tinkerfin_agui_adapter/_adapter_messages.py:367-878 | over every run without a harmful late frame the whole trace is accepted, and the brackets it leaves open are exactly the open entries of the dictionaries |
| AguiInStep.FinishedRunLeavesNothingOpen | packages/tinkerfin-agui-adapter/src/tinkerfin_agui_adapter/adapter.py:489-512 | such a run, closed by finish or abort, leaves no message, no reasoning and no running call |
| AguiInStep.InStepIffNoHarm | packages/tinkerfin-agui-adapter/src/tinkerfin_agui_adapter/_adapter_messages.py:367-878 | client and dictionaries agree after every frame of a run exactly when no late frame of it starts or ends anything |
| AguiIsolation.NamespacesDoNotInterfere | packages/tinkerfin-agui-adapter/src/tinkerfin_agui_adapter/_adapter_messages.py:367-836 | for every interleaving the events of one namespace are those of the run that keeps only the frames reaching it |
| AguiIsolation.InterleavingDoesNotMatter | packages/tinkerfin-agui-adapter/src/tinkerfin_agui_adapter/_adapter_messages.py:367-836 | the same for the whole run of a new adapter |
| AguiContent.ToolFragmentsHeard | packages/tinkerfin-agui-adapter/src/tinkerfin_agui_adapter/_adapter_messages.py:488-572 | a client hears for each call exactly the arguments routed to it while open, each once and in order, and nothing else changes hands |
| AguiContent.FrameHeard | packages/tinkerfin-agui-adapter/src/tinkerfin_agui_adapter/_adapter_messages.py:293-485 | what a client hears in one frame is what the frame brings unless it is refused, repeated or lost |
| AguiContent.EveryRunIsHeard | packages/tinkerfin-agui-adapter/src/tinkerfin_agui_adapter/_adapter_messages.py:293-672 | over every run a client assembles, for each channel and ID, the concatenation of what was sent |
| AguiSplit.GoesIff | packages/tinkerfin-agui-adapter/src/tinkerfin_agui_adapter/adapter.py:439-487 | fragments are accepted one by one, over any number of frames, exactly when all together every given ID finds room, every fragment without one comes after one with it, and no call is given both with and without a position |
| AguiSplit.CuttingUpDoesNotMatter | packages/tinkerfin-agui-adapter/src/tinkerfin_agui_adapter/_adapter_messages.py:268-572 | a message cut into any fragments, with positions, without or mixed, goes through exactly when they fit together so; then every channel is heard as from the complete message, and the namespace ends idle either way |
| AguiSplit.WithoutPositions | packages/tinkerfin-agui-adapter/src/tinkerfin_agui_adapter/_adapter_messages.py:488-572 | without positions that means that no named call has had a slot of another kind |
| AguiSplit.WithPositions | packages/tinkerfin-agui-adapter/src/tinkerfin_agui_adapter/_adapter_messages.py:488-572 | with positions only it means that every fragment without an ID comes after one that gave it, for a call that is not over |
| AguiReplay.EvidenceIsTheSnapshot | packages/tinkerfin-agui-adapter/src/tinkerfin_agui_adapter/_adapter_messages.py:112-128 | after every run what is remembered of a namespace is exactly its first snapshot, the last entry of each ID |
| AguiReplay.RepeatedMessageIsSilentIff | packages/tinkerfin-agui-adapter/src/tinkerfin_agui_adapter/_adapter_messages.py:309-361 | over every run a complete message that passes validation is answered with nothing exactly when it is the last entry of its ID in the first snapshot, and otherwise published like one last fragment |
| AguiReplay.RepeatedResultIsSilent | packages/tinkerfin-agui-adapter/src/tinkerfin_agui_adapter/_adapter_messages.py:309-320 | a result that is the last entry of its ID in the first snapshot is answered with nothing, in every later run |
| AguiReplay.SnapshotMessageComesAgainIff | packages/tinkerfin-agui-adapter/src/tinkerfin_agui_adapter/adapter.py:407-487 | from every consistent state, a message of the first snapshot that comes again is ignored exactly until a result of one of its calls is published or another call takes one of its positions, and refused after that |
| AguiReplay.PriorIffNoResult | packages/tinkerfin-agui-adapter/src/tinkerfin_agui_adapter/_adapter_messages.py:657-657 | over every run a checkpointed call counts as such exactly as long as no result of it is published |
| AguiReplay.RepetitionAfterResultIsRefused | packages/tinkerfin-agui-adapter/src/tinkerfin_agui_adapter/adapter.py:465-469 | a concrete run: a snapshot, the result of its call, and then its message again, which is refused |
| AguiReplay.ProposalsKeepMessageAndName | packages/tinkerfin-agui-adapter/src/tinkerfin_agui_adapter/adapter.py:428-487 | over every run after the first snapshot an accepted fragment of one of its calls belongs to the message that proposed the call first and has the name from there |
| AguiReplay.FirstResultIsPublished | packages/tinkerfin-agui-adapter/src/tinkerfin_agui_adapter/_adapter_messages.py:575-672 | the first result of a call is sent exactly once, as the last event, with its content, attachments and message |
| AguiReplay.SettledCallIsSilent | packages/tinkerfin-agui-adapter/src/tinkerfin_agui_adapter/_adapter_messages.py:618-626 | once a call has a result, in every later run no other one is sent and no such frame changes anything |
| AguiReplay.PublishedResultIsFinal | packages/tinkerfin-agui-adapter/src/tinkerfin_agui_adapter/_adapter_messages.py:601-626 | the published result is ignored when it comes again in any later run, and one with other content, attachments, status or message is refused |
| AguiFrames.FragmentShows | packages/tinkerfin-agui-adapter/src/tinkerfin_agui_adapter/_adapter_messages.py:367-480 | a fragment shows its reasoning, then its text, then its attachments, each once and under its own IDs, and then its calls |
| AguiFrames.FrameStartsCalls | packages/tinkerfin-agui-adapter/src/tinkerfin_agui_adapter/_adapter_messages.py:488-572 | a fragment that goes through starts exactly the calls it names that were not known, with its message as parent and a name that it gives |
| AguiFrames.NewMessageIsPublished | packages/tinkerfin-agui-adapter/src/tinkerfin_agui_adapter/_adapter_messages.py:268-485 | a complete message that is new to the stream is accepted and published, with a start for each of its calls |
| AguiFrames.NothingEndsEarly | packages/tinkerfin-agui-adapter/src/tinkerfin_agui_adapter/_adapter_messages.py:367-485 | a fragment that is not the last one ends no call and leaves its text, or its reasoning alone, open; an empty one changes nothing |
| AguiFrames.LastFragmentEndsAll | packages/tinkerfin-agui-adapter/src/tinkerfin_agui_adapter/_adapter_messages.py:481-484 | a last fragment leaves nothing of its namespace open |
| AguiFrames.CompleteMessageEndsAll | packages/tinkerfin-agui-adapter/src/tinkerfin_agui_adapter/_adapter_messages.py:268-290 | so does a complete message, unless it is a repetition that sends nothing |
| AguiFrames.ResultEndsText | packages/tinkerfin-agui-adapter/src/tinkerfin_agui_adapter/_adapter_messages.py:627-631 | a published result ends text and reasoning of its namespace |
| AguiFrames.ValuesEndAll | packages/tinkerfin-agui-adapter/src/tinkerfin_agui_adapter/_adapter_tasks.py:650-691 | root values end everything everywhere, and those of another namespace send no lifecycle event and end nothing |
| AguiFrames.AllEndInOrder | packages/tinkerfin-agui-adapter/src/tinkerfin_agui_adapter/adapter.py:489-512 | closing everything ends reasoning before text and text before calls |
| AguiFrames.ScopeEndsInOrder | packages/tinkerfin-agui-adapter/src/tinkerfin_agui_adapter/_adapter_messages.py:481-484 | a boundary of one namespace ends calls before reasoning and reasoning before text |
| AguiAdapter.Adapter.constructor | packages/tinkerfin-agui-adapter/src/tinkerfin_agui_adapter/adapter.py:161-264 | a new adapter knows only the calls of earlier runs, as started and ended |
| AguiAdapter.Adapter.CloseMessage | packages/tinkerfin-agui-adapter/src/tinkerfin_agui_adapter/_adapter_messages.py:795-803 | ends the open message of a namespace, if any, and forgets exactly it |
| AguiAdapter.Adapter.CloseReasoning | packages/tinkerfin-agui-adapter/src/tinkerfin_agui_adapter/_adapter_messages.py:770-792 | ends every reasoning of a namespace in the order it was opened |
| AguiAdapter.Adapter.CloseActiveTool | packages/tinkerfin-agui-adapter/src/tinkerfin_agui_adapter/_adapter_messages.py:806-824 | ends an open call once, frees its slot and records it as ended |
| AguiAdapter.Adapter.CloseScopeTools | packages/tinkerfin-agui-adapter/src/tinkerfin_agui_adapter/_adapter_messages.py:827-836 | ends the open calls of one namespace and leaves those of others |
| AguiAdapter.Adapter.CloseAllReasoning | packages/tinkerfin-agui-adapter/src/tinkerfin_agui_adapter/_adapter_messages.py:839-852 | ends all reasoning, namespace by namespace |
| AguiAdapter.Adapter.CloseAllMessages | packages/tinkerfin-agui-adapter/src/tinkerfin_agui_adapter/_adapter_messages.py:855-865 | ends all messages in the order they were opened |
| AguiAdapter.Adapter.CloseAllTools | packages/tinkerfin-agui-adapter/src/tinkerfin_agui_adapter/_adapter_messages.py:868-878 | ends all calls in the order they were opened |
| AguiAdapter.Adapter.CloseEverything | packages/tinkerfin-agui-adapter/src/tinkerfin_agui_adapter/adapter.py:489-512 | reasoning first, then messages, then calls |
| AguiAdapter.Adapter.ConvertReasoningEvents | packages/tinkerfin-agui-adapter/src/tinkerfin_agui_adapter/_adapter_messages.py:674-696 | sends something exactly when reasoning is exposed and present |
| AguiAdapter.Adapter.EmitReasoning | packages/tinkerfin-agui-adapter/src/tinkerfin_agui_adapter/_adapter_messages.py:699-768 | ends the text of the namespace first, then opens or continues the reasoning of the message |
| AguiAdapter.Adapter.CloseStaleMessage | packages/tinkerfin-agui-adapter/src/tinkerfin_agui_adapter/_adapter_messages.py:402-408 | a new message ends the message of another one in its namespace |
| AguiAdapter.Adapter.EmitText | packages/tinkerfin-agui-adapter/src/tinkerfin_agui_adapter/_adapter_messages.py:412-442 | opens the message when it is not the one shown, then sends the text |
| AguiAdapter.Adapter.EmitAttachments | packages/tinkerfin-agui-adapter/src/tinkerfin_agui_adapter/_adapter_messages.py:444-468 | attachments are sent inside the message that carries them |
| AguiAdapter.Adapter.ProcessToolChunk | packages/tinkerfin-agui-adapter/src/tinkerfin_agui_adapter/_adapter_messages.py:488-572 | starts, continues or fails to find a call; a failure leaves what was changed before it |
| AguiAdapter.Adapter.ProcessToolChunks | packages/tinkerfin-agui-adapter/src/tinkerfin_agui_adapter/_adapter_messages.py:472-480 | the fragments in order, up to the first failure |
| AguiAdapter.Adapter.CloseBoundary | packages/tinkerfin-agui-adapter/src/tinkerfin_agui_adapter/_adapter_messages.py:481-484 | a hard boundary ends the calls, the reasoning and the message of one namespace, in this order |
| AguiAdapter.Adapter.EmitTools | packages/tinkerfin-agui-adapter/src/tinkerfin_agui_adapter/_adapter_messages.py:470-480 | reasoning ends before the first tool fragment |
| AguiAdapter.Adapter.CloseIfLast | packages/tinkerfin-agui-adapter/src/tinkerfin_agui_adapter/_adapter_messages.py:481-484 | the last fragment of a message closes its namespace |
| AguiAdapter.Adapter.ProcessAiChunk | packages/tinkerfin-agui-adapter/src/tinkerfin_agui_adapter/_adapter_messages.py:367-485 | reasoning, text, attachments, calls, closing: the order of the source, with the state it leaves when a fragment fails |
| AguiAdapter.Adapter.ValidateParents | packages/tinkerfin-agui-adapter/src/tinkerfin_agui_adapter/adapter.py:428-438 | every call of a fragment keeps the parent it was checkpointed with |
| AguiAdapter.Adapter.ValidateFragments | packages/tinkerfin-agui-adapter/src/tinkerfin_agui_adapter/adapter.py:439-487 | the fragments are checked as if applied, without applying them |
| AguiAdapter.Adapter.ValidateMessage | packages/tinkerfin-agui-adapter/src/tinkerfin_agui_adapter/adapter.py:407-487 | a frame is accepted exactly when its message, its calls and their parents are |
| AguiAdapter.Adapter.Introduce | packages/tinkerfin-agui-adapter/src/tinkerfin_agui_adapter/_adapter_messages.py:632-643 | a result of an unknown call starts it first |
| AguiAdapter.Adapter.End | packages/tinkerfin-agui-adapter/src/tinkerfin_agui_adapter/_adapter_messages.py:644-655 | a result ends its call first when it is still open |
| AguiAdapter.Adapter.Settle | packages/tinkerfin-agui-adapter/src/tinkerfin_agui_adapter/_adapter_messages.py:632-670 | a result is sent once, after its call has started and ended |
| AguiAdapter.Adapter.Publish | packages/tinkerfin-agui-adapter/src/tinkerfin_agui_adapter/_adapter_messages.py:627-671 | reasoning and text of the namespace end before a result |
| AguiAdapter.Adapter.RememberProposal | packages/tinkerfin-agui-adapter/src/tinkerfin_agui_adapter/_adapter_messages.py:130-144 | a checkpointed call becomes known with its parent, unless it has started already |
| AguiAdapter.Adapter.RememberProposals | packages/tinkerfin-agui-adapter/src/tinkerfin_agui_adapter/_adapter_messages.py:129-144 | the calls of one checkpointed message |
| AguiAdapter.Adapter.RememberMessageBaseline | packages/tinkerfin-agui-adapter/src/tinkerfin_agui_adapter/_adapter_messages.py:103-143 | only the first values frame of a namespace is remembered |
| AguiAdapter.Adapter.Repeats | packages/tinkerfin-agui-adapter/src/tinkerfin_agui_adapter/_adapter_messages.py:309-320 | a message equal to the checkpointed one of its ID is recognised |
| AguiAdapter.Adapter.ProcessToolResult | packages/tinkerfin-agui-adapter/src/tinkerfin_agui_adapter/_adapter_messages.py:575-672 | a repeated result is ignored, a different second result is refused, a new one is published |
| AguiAdapter.Adapter.ProcessAccepted | packages/tinkerfin-agui-adapter/src/tinkerfin_agui_adapter/_adapter_messages.py:355-361 | an accepted fragment is processed, and fails midway as specified |
| AguiAdapter.Adapter.ProcessComplete | packages/tinkerfin-agui-adapter/src/tinkerfin_agui_adapter/_adapter_messages.py:309-361 | a complete message is skipped when checkpointed, else processed as one last fragment |
| AguiAdapter.Adapter.CompleteToChunk | packages/tinkerfin-agui-adapter/src/tinkerfin_agui_adapter/_adapter_messages.py:268-290 | the calls of a complete message are numbered and named |
| AguiAdapter.Adapter.ProcessPart | packages/tinkerfin-agui-adapter/src/tinkerfin_agui_adapter/adapter.py:332-380 | over every kind of frame the object answers as specified and its dictionaries stay consistent |
| InterruptRuns.GroupingPartitions | packages/tinkerfin-agui-adapter/src/tinkerfin_agui_adapter/_adapter_contracts.py:280-303 | grouping succeeds exactly when the action counts add up, and then cuts the list in order without losing anything |
| InterruptRuns.GroupingRestores | packages/tinkerfin-agui-adapter/src/tinkerfin_agui_adapter/_adapter_contracts.py:280-303 | groups of the right sizes survive being flattened and grouped again |
| InterruptRuns.EveryRunKeepsOk | packages/tinkerfin-agui-adapter/src/tinkerfin_agui_adapter/_adapter_contracts.py:305-420 | over every run: namespaces of a buffered request contain one another, the rows are their exact inverse, public IDs are unique in the buffer |
| InterruptRuns.EmptyIsOk | packages/tinkerfin-agui-adapter/src/tinkerfin_agui_adapter/adapter.py:161-264 | the empty buffer satisfies the invariant of every run |
| InterruptRuns.RowsAreFirstSeen | packages/tinkerfin-agui-adapter/src/tinkerfin_agui_adapter/_adapter_contracts.py:412-415 | the row of a namespace lists the IDs seen there in the order of their first appearance, over every run |
| InterruptRuns.RequestsNeverChange | packages/tinkerfin-agui-adapter/src/tinkerfin_agui_adapter/_adapter_contracts.py:354-370 | what was prepared for a buffered request and what was reported never changes later |
| InterruptRuns.PendingProposalsStay | packages/tinkerfin-agui-adapter/src/tinkerfin_agui_adapter/_adapter_contracts.py:381-410 | the call behind a pending decision is the same in every later snapshot |
| InterruptRuns.FinishedRunReportedEverything | packages/tinkerfin-agui-adapter/src/tinkerfin_agui_adapter/adapter.py:489-501 | a run may finish only when every buffered request was reported, once and unchanged |
| InterruptFinish.EveryRunKeepsFaithful | packages/tinkerfin-agui-adapter/src/tinkerfin_agui_adapter/interrupt_projection.py:19-150 | over every run each buffered request is prepared as its own projection: one public request for each action, numbered when there are several |
| InterruptFinish.RootKeepsAgreementIff | packages/tinkerfin-agui-adapter/src/tinkerfin_agui_adapter/_adapter_contracts.py:423-497 | an accepted root frame keeps reports and buffer in agreement exactly when no public ID of its new requests, computed from name and number of actions, is one of a buffered request |
| InterruptFinish.ChildAgrees | packages/tinkerfin-agui-adapter/src/tinkerfin_agui_adapter/_adapter_contracts.py:305-420 | an accepted child frame always leaves them in agreement |
| InterruptFinish.EveryRunAgreesIff | packages/tinkerfin-agui-adapter/src/tinkerfin_agui_adapter/_adapter_contracts.py:305-497 | over every run they agree at the end exactly when no accepted root frame collided |
| InterruptFinish.ContradictionBlocksFinish | packages/tinkerfin-agui-adapter/src/tinkerfin_agui_adapter/_adapter_contracts.py:423-497 | a contradicted request stays unresolved in every later run, so the run never finishes |
| InterruptFinish.RepeatingResolves | packages/tinkerfin-agui-adapter/src/tinkerfin_agui_adapter/_adapter_contracts.py:423-484 | in agreement, a root frame that repeats every buffered request is accepted and lets the run finish |
| InterruptFinish.FinishableIff | packages/tinkerfin-agui-adapter/src/tinkerfin_agui_adapter/adapter.py:489-501 | some continuation of the run can finish exactly when nothing is contradicted |
| InterruptFinish.RunsFinishIff | packages/tinkerfin-agui-adapter/src/tinkerfin_agui_adapter/adapter.py:489-501 | a run of a new adapter can still finish exactly when no accepted root frame of it collided |
| InterruptFinish.RunThatCannotFinish | packages/tinkerfin-agui-adapter/src/tinkerfin_agui_adapter/interrupt_projection.py:60-140 | a concrete run: a review of two actions, then a root request named like its first action; both are accepted and nothing can finish it |
| InterruptCalls.ProjectionSucceedsIff | packages/tinkerfin-agui-adapter/src/tinkerfin_agui_adapter/_adapter_contracts.py:499-569 | new requests can be projected exactly when none is broken, reviews stand without questions of the runtime, and each review has as many calls as actions, none twice |
| InterruptCalls.ProjectionShowsItsCalls | packages/tinkerfin-agui-adapter/src/tinkerfin_agui_adapter/_adapter_contracts.py:554-569 | then action k of the j-th review has call k of the j-th group, and no other request has a call |
| InterruptCalls.ChildFrameBuffers | packages/tinkerfin-agui-adapter/src/tinkerfin_agui_adapter/_adapter_contracts.py:305-420 | an accepted child frame buffers each new request in its namespace, with the calls of its own number among the new reviews |
| InterruptCalls.BufferedForGood | packages/tinkerfin-agui-adapter/src/tinkerfin_agui_adapter/_adapter_contracts.py:354-370 | and that stays so in every later run |
| InterruptCalls.RootFrameReports | packages/tinkerfin-agui-adapter/src/tinkerfin_agui_adapter/_adapter_contracts.py:423-497 | an accepted root frame reports, in the order of its requests, buffered ones as they were prepared and each new one with its own calls; what is new is added to the report in this order |
| InterruptCalls.ReportedForGood | packages/tinkerfin-agui-adapter/src/tinkerfin_agui_adapter/_adapter_contracts.py:486-497 | what was reported stays recorded and reported in every later run |
| InterruptCalls.EveryRunShowsItsCalls | packages/tinkerfin-agui-adapter/src/tinkerfin_agui_adapter/_adapter_contracts.py:499-569 | over every run whatever is buffered or reported was brought by an accepted frame, with the call that this frame found for its action |
| InterruptCalls.ChildIsAcceptedIff | packages/tinkerfin-agui-adapter/src/tinkerfin_agui_adapter/_adapter_contracts.py:305-420 | when a child frame is accepted: IDs, values and namespaces fit, the new requests can be projected, no public ID is taken twice or contradicts a report, and no call with a pending decision has another proposal |
| InterruptCalls.RootIsAcceptedIff | packages/tinkerfin-agui-adapter/src/tinkerfin_agui_adapter/_adapter_contracts.py:423-497 | when a root frame is accepted: the same for its own requests and for everything it reports |
| InterruptBuffer.Buffer.constructor | packages/tinkerfin-agui-adapter/src/tinkerfin_agui_adapter/adapter.py:161-264 | an empty buffer |
| InterruptBuffer.Buffer.GroupPrepared | packages/tinkerfin-agui-adapter/src/tinkerfin_agui_adapter/_adapter_contracts.py:280-303 | computes the grouping, or fails exactly when it does not exist |
| InterruptBuffer.Buffer.ValidatePrepared | packages/tinkerfin-agui-adapter/src/tinkerfin_agui_adapter/_adapter_contracts.py:572-600 | accepts exactly the reports whose IDs are distinct and agree with what was reported |
| InterruptBuffer.Buffer.CheckChild | packages/tinkerfin-agui-adapter/src/tinkerfin_agui_adapter/_adapter_contracts.py:313-337 | accepts exactly the frames with distinct IDs whose known requests have their value and a related namespace, and lists the new ones |
| InterruptBuffer.Buffer.CheckKnown | packages/tinkerfin-agui-adapter/src/tinkerfin_agui_adapter/_adapter_contracts.py:313-337 | a known request has its value and comes from a related namespace |
| InterruptBuffer.Buffer.ProjectInterrupt | packages/tinkerfin-agui-adapter/src/tinkerfin_agui_adapter/interrupt_projection.py:19-150 | one public request for each action, in order, numbered when there are several |
| InterruptBuffer.Buffer.PrepareInterrupts | packages/tinkerfin-agui-adapter/src/tinkerfin_agui_adapter/_adapter_contracts.py:499-569 | all new requests are projected, or none: an unreadable one, a review beside a question of the runtime or a missing tool call refuses the frame |
| InterruptBuffer.Buffer.StageAll | packages/tinkerfin-agui-adapter/src/tinkerfin_agui_adapter/_adapter_contracts.py:354-370 | new requests are added and known ones placed in one more namespace, on a copy of the buffer |
| InterruptBuffer.Buffer.AllPrepared | packages/tinkerfin-agui-adapter/src/tinkerfin_agui_adapter/_adapter_contracts.py:372-378 | all prepared requests of the buffer in order |
| InterruptBuffer.Buffer.PendingCalls | packages/tinkerfin-agui-adapter/src/tinkerfin_agui_adapter/_adapter_contracts.py:398-403 | the calls behind the requests a namespace has shown so far |
| InterruptBuffer.Buffer.ProposalsUnchanged | packages/tinkerfin-agui-adapter/src/tinkerfin_agui_adapter/_adapter_contracts.py:381-410 | holds exactly when no pending call has another proposal |
| InterruptBuffer.Buffer.MergeIds | packages/tinkerfin-agui-adapter/src/tinkerfin_agui_adapter/_adapter_contracts.py:412-415 | adds new IDs behind the known ones, each once |
| InterruptBuffer.Buffer.BufferChildInterrupts | packages/tinkerfin-agui-adapter/src/tinkerfin_agui_adapter/_adapter_contracts.py:305-420 | either the three tables take the whole frame in or none of them changes |
| InterruptBuffer.Buffer.CheckRoot | packages/tinkerfin-agui-adapter/src/tinkerfin_agui_adapter/_adapter_contracts.py:431-452 | accepts exactly the frames with distinct IDs whose buffered requests have their value, and lists the others |
| InterruptBuffer.Buffer.PrepareRootInterrupts | packages/tinkerfin-agui-adapter/src/tinkerfin_agui_adapter/_adapter_contracts.py:423-484 | the report of a root frame, and which buffered requests it propagates |
| InterruptBuffer.Buffer.AssembleReport | packages/tinkerfin-agui-adapter/src/tinkerfin_agui_adapter/_adapter_contracts.py:466-474 | buffered groups are reported as they were prepared, the others as projected |
| InterruptBuffer.Buffer.RecordInterrupts | packages/tinkerfin-agui-adapter/src/tinkerfin_agui_adapter/_adapter_contracts.py:486-497 | reports are recorded once, in order |
| InterruptBuffer.Buffer.AcceptRootFrame | packages/tinkerfin-agui-adapter/src/tinkerfin_agui_adapter/_adapter_tasks.py:660-703 | a refused root frame changes nothing |
| InterruptBuffer.Buffer.AcceptFrame | packages/tinkerfin-agui-adapter/src/tinkerfin_agui_adapter/_adapter_tasks.py:627-703 | every frame keeps the tables in order, and is the next state of the run |
| InterruptBuffer.Buffer.Finish | packages/tinkerfin-agui-adapter/src/tinkerfin_agui_adapter/adapter.py:489-501 | finishing is allowed exactly when no buffered request is unresolved |
| DeviceSafety.EveryRunIsSound | apps/desktop/native/DesktopUpdateController.swift:117-264 | over every run of both versions, with a crash or error after any write: the account in use is readable, every keychain entry is written down, retired accounts are not in use, and recovery is possible, all along, exactly when no update is given up after its exchange |
| DeviceSafety.InitialIsSound | apps/desktop/native/CompanionModel.swift:50-75 | a client that was never connected satisfies the invariant of every run |
| DeviceSafety.RecoveryCompletes | apps/desktop/native/DesktopUpdateController.swift:215-264 | from every state a crash can leave, starting the application again succeeds, keeps the secret usable after every single write, and ends without record and with exactly one account after an update |
| DeviceSafety.UpdatesKeepTheIdentity | apps/desktop/native/UpdateCredentials.swift:75-192 | over every run without operations of the user the usable secret never changes, exactly when no update is given up after its exchange |
| DeviceSafety.CleanKeeps | apps/desktop/native/CompanionModel.swift:318-328 | after any write of a cleanup the settings stay sound, only retired entries go, and at the end none is retired |
| DeviceSafety.CancelKeeps | apps/desktop/native/UpdateCredentials.swift:95-119 | cancelling before the exchange deletes exactly the account of the candidate |
| DeviceSafety.FinishKeeps | apps/desktop/native/UpdateCredentials.swift:104-119 | finishing deletes exactly the account of the old application |
| DeviceSafety.CancelIsSafeIff | apps/desktop/native/DesktopUpdateController.swift:199-213 | giving an update up leaves a recoverable client exactly when the old application is still installed |
| DeviceSafety.MistakenCancelLosesIdentity | apps/desktop/native/DesktopUpdateController.swift:117-188 | cancelling after the exchange leaves the installed application without a usable secret, from every such state |
| DeviceSafety.IdentityCanBeLost | apps/desktop/native/DesktopUpdateController.swift:117-213 | a concrete run that loses the identity |
| DeviceSafety.OrphanedIff | apps/desktop/native/UpdateCredentials.swift:75-93 | recovery leaves a record behind exactly when the crash fell between the record and the pointer to it; the account it names was never created |
| DeviceSafety.OrphansStay | apps/desktop/native/DesktopUpdateController.swift:199-264 | no run ever removes a record left behind |
| DeviceSafety.RecordCanBeLeftBehind | apps/desktop/native/UpdateCredentials.swift:75-93 | a concrete run that leaves a record behind |
| DeviceOperations.CleanEnds | apps/desktop/native/CompanionModel.swift:318-328 | a completed cleanup leaves exactly the entries in use |
| DeviceOperations.DiscardEnds | apps/desktop/native/CompanionModel.swift:312-317 | giving an authorization up deletes its account and leaves only the current one |
| DeviceOperations.StartEnds | apps/desktop/native/CompanionModel.swift:189-212 | a started authorization is the one that waits, or a new account with a readable secret of its own, after what was left of an earlier attempt is deleted; the current account stays |
| DeviceOperations.AcceptEnds | apps/desktop/native/CompanionModel.swift:273-301 | an accepted authorization makes its account the current one, with its secret usable, and every other entry is deleted |
| DeviceOperations.RevokeEnds | apps/desktop/native/CompanionModel.swift:346-391 | a revocation completes exactly for a client with an account, and leaves no account, no pending authorization, nothing retired, an empty keychain and no usable secret |
| DeviceOperations.StoppedRevocationIsFinished | apps/desktop/native/CompanionModel.swift:318-391 | wherever it stops after the account was given up, the next cleanup finishes it |
| DeviceOperations.PrepareEnds | apps/desktop/native/UpdateCredentials.swift:75-93 | a preparation completes for every client with an account: the current secret is sealed in the record and held by an account of the candidate, and nothing else is left |
| DeviceOperations.PrepareContinues | apps/desktop/native/UpdateCredentials.swift:75-93 | a preparation that was stopped is continued with the record and the account it names |
| DeviceOperations.UpdateSucceeds | apps/desktop/native/DesktopUpdateController.swift:117-264 | an update whose steps complete, and a start of the new application, end with that application, the account made for it and only that one, the secret unchanged and nothing of the update left |
| DeviceCompanion.Companion.constructor | apps/desktop/native/CompanionModel.swift:50-75 | a client that was never connected |
| DeviceCompanion.Companion.RemoveRetired | apps/desktop/native/CompanionModel.swift:318-328 | follows its course: one deletion for each retired account |
| DeviceCompanion.Companion.CleanRetiredAccounts | apps/desktop/native/CompanionModel.swift:318-328 | follows its course: nothing when an account in use is among them, else the deletions and then the forgetting |
| DeviceCompanion.Companion.DiscardPending | apps/desktop/native/CompanionModel.swift:312-317 | follows its course: the pending account is retired before it is deleted |
| DeviceCompanion.Companion.RequestAuthorization | apps/desktop/native/CompanionModel.swift:189-212 | follows its course: the new account is written down before its entry is created |
| DeviceCompanion.Companion.StartAuthorization | apps/desktop/native/CompanionModel.swift:189-212 | follows its course: an earlier attempt is discarded first |
| DeviceCompanion.Companion.FinishAuthorization | apps/desktop/native/CompanionModel.swift:273-301 | follows its course: the new account becomes current and the old one retired in one write |
| DeviceCompanion.Companion.Readable | apps/desktop/native/KeychainStore.swift:65-75 | an entry can be read exactly by the version that created it |
| DeviceCompanion.Companion.RevokeIdentity | apps/desktop/native/CompanionModel.swift:346-370 | follows its course: the current account is retired before it is deleted |
| DeviceCompanion.Companion.RevokeAuthorization | apps/desktop/native/CompanionModel.swift:346-391 | follows its course: pending and current account both end |
| DeviceCompanion.Companion.HandOver | apps/desktop/native/UpdateCredentials.swift:75-93 | follows its course: record, pointer, then the candidate creates its entry |
| DeviceCompanion.Companion.HandCurrentSecret | apps/desktop/native/UpdateCredentials.swift:75-93 | follows its course: refused when the current secret cannot be read |
| DeviceCompanion.Companion.PrepareUpdateCredential | apps/desktop/native/CompanionModel.swift:422-430 | follows its course: a record of this update is continued, none is made without an account |
| DeviceCompanion.Companion.CancelUpdateCredential | apps/desktop/native/UpdateCredentials.swift:95-119 | follows its course: the account of the candidate goes before the record |
| DeviceCompanion.Companion.AdoptUpdateCredential | apps/desktop/native/CompanionModel.swift:432-445 | follows its course: the settings name the new account |
| DeviceCompanion.Companion.FinishUpdateCredential | apps/desktop/native/UpdateCredentials.swift:104-119 | follows its course: the old account goes before the record |
| DeviceCompanion.Companion.RemoveUpdate | apps/desktop/native/DesktopUpdateController.swift:199-205 | follows its course: the directory and the pointer to it go |
| DeviceCompanion.Companion.RestoreHandoff | apps/desktop/native/DesktopUpdateController.swift:215-264 | follows its course: which branch runs depends on the installed version alone |
| DeviceCompanion.Companion.CancelAndRemove | apps/desktop/native/DesktopUpdateController.swift:199-213 | follows its course: cancelling before removing |
| DeviceCompanion.Companion.AdoptAndFinish | apps/desktop/native/DesktopUpdateController.swift:215-264 | follows its course: adopting before finishing |
| DeviceCompanion.Companion.AdoptAndRemove | apps/desktop/native/DesktopUpdateController.swift:215-264 | follows its course: adopting, finishing, removing |
| UpdateFileSafety.CrashedCleanupIsFinished | apps/desktop/native/UpdateHandoff.swift:154-196 | after a crash at any point and in any order of the journals, a second run removes exactly the journalled directories, their pointer and the journals |
| UpdateFileSafety.CleanupIsIdempotent | apps/desktop/native/UpdateHandoff.swift:154-196 | a further run changes nothing |
| UpdateFileSafety.ForeignDirectoryStopsCleanup | apps/desktop/native/UpdateHandoff.swift:183-196 | a directory with another inode under a journalled name stops the cleanup before any write |
| UpdateFileSafety.CrashedRemovalIsFinished | apps/desktop/native/UpdateHandoff.swift:131-196 | after a crash at any point of a removal either the cleanup or a second removal finishes it with the same result |
| UpdateFileSafety.RemoveWorks | apps/desktop/native/UpdateHandoff.swift:131-151 | a removal deletes exactly its directory, the copy it recorded and a pointer naming it |
| UpdateFileSafety.OthersStayInTheEnd | apps/desktop/native/UpdateHandoff.swift:131-196 | a completed removal or cleanup leaves directory, copy and pointer of another update as they were |
| UpdateFileSafety.ResumeNeverDangles | apps/desktop/native/UpdateHandoff.swift:154-196 | no write of a cleanup leaves the pointer naming a directory that neither exists nor is journalled |
| UpdateFileSafety.RemoveNeverDangles | apps/desktop/native/UpdateHandoff.swift:131-196 | nor does any write of a removal |
| UpdateFileSafety.InstallIsAtomic | apps/desktop/native/UpdateHandoff.swift:263-301 | at every crash point the target is the whole old application, or the whole new one with the old one kept; success means the new one |
| UpdateFileSafety.FailedInstallLeavesNothing | apps/desktop/native/UpdateHandoff.swift:263-301 | a copy that fails its check leaves the files as they were |
| UpdateFileSafety.CredentialsProtectTheOldApplication | apps/desktop/native/UpdateHandoff.swift:131-151 | while an update has credentials its removal is refused, and cleaning others keeps the credentials and the old application after every write |
| UpdateFileRuns.EmptyIsFine | apps/desktop/native/UpdateHandoff.swift:98-103 | an empty workspace satisfies the invariant of every history |
| UpdateFileRuns.EveryRunKeepsInv | apps/desktop/native/UpdateHandoff.swift:98-301 | over every history of all updates, stopped after any write: a journal describes its own directory and never one with credentials, a recorded copy is the one made, and an exchanged update keeps its credentials and the application it replaced |
| UpdateFileRuns.OldApplicationSurvives | apps/desktop/native/UpdateHandoff.swift:131-301 | from the exchange of an update until its credentials are cleared the old application is kept, whatever is created, installed, removed or cleaned meanwhile and wherever it stops |
| UpdateFileRuns.ReachableCleanupIsFinished | apps/desktop/native/UpdateHandoff.swift:154-196 | in every state of a history an interrupted cleanup is finished by the next one |
| UpdateFileRuns.ReachableRemovalWorks | apps/desktop/native/UpdateHandoff.swift:131-196 | in every state of a history a settled update can be removed, and no write of that touches another update |
| UpdateFileRuns.OtherUpdatesUntouched | apps/desktop/native/UpdateHandoff.swift:131-301 | no single write of any removal, installation or cleanup touches directory, copy, journal or pointer of another update |
| UpdateFileRuns.LeakStays | apps/desktop/native/UpdateHandoff.swift:234-301 | a copy that no update records stays in every later history, and no installation of its update writes anything |
| UpdateFileRuns.ExchangeIsReached | apps/desktop/native/UpdateHandoff.swift:263-301 | a concrete history that exchanges the application and keeps the old one |
| UpdateFileRuns.CopyCanBeLeftBehind | apps/desktop/native/UpdateHandoff.swift:263-301 | a concrete history that leaves a copy behind |
| UpdateFileLeaks.InstallLeaksIff | apps/desktop/native/UpdateHandoff.swift:263-301 | whatever candidate and copy turn out to be, and whether or not an earlier copy is cleaned away first, an installation leaves an unrecorded copy exactly when it stops after making the directory and before recording it |
| UpdateFileLeaks.HistoryLeaksIff | apps/desktop/native/UpdateHandoff.swift:98-301 | over every history from an empty workspace an unrecorded copy is there exactly when some installation of its update stopped there |
| UpdateFileLeaks.CopyLeftBehindIff | apps/desktop/native/UpdateHandoff.swift:234-301 | however an installation stops, once credentials are cleared the directory beside the application outlives the removal of its update exactly in that case |
| UpdateFileLeaks.CopyLeftBehindBlocksInstall | apps/desktop/native/UpdateHandoff.swift:263-301 | and then no attempt of this update gets anywhere, before its credentials are cleared or after |
| UpdateInstall.InstallSucceedsIff | apps/desktop/native/UpdateHandoff.swift:263-301 | an installation succeeds exactly when it can start and the copy is the release; the files it leaves are given for success, for a damaged copy and for a refusal |
| UpdateInstall.ReachableInstallSucceedsIff | apps/desktop/native/UpdateHandoff.swift:263-301 | in every history: success exactly when the version it starts from is installed, candidate and copy are the release and no unrecorded copy is there; then the new application is installed and the old one retained, else the installed one stays, and no other update is touched |
| UpdateInstall.RemoveSucceedsIff | apps/desktop/native/UpdateHandoff.swift:131-196 | in every sound state a removal succeeds exactly for an update without credentials that is there or being removed, and leaves nothing of it; otherwise nothing changes |
| UpdateWorkspace.Workspace.constructor | apps/desktop/native/UpdateHandoff.swift:98-103 | the files as they are |
| UpdateWorkspace.Workspace.RemoveDirectory | apps/desktop/native/UpdateHandoff.swift:183-196 | follows its course: only the owner with the journalled inode is removed |
| UpdateWorkspace.Workspace.RemovePending | apps/desktop/native/UpdateHandoff.swift:183-196 | follows its course: only a pointer naming this update goes |
| UpdateWorkspace.Workspace.RemoveJournal | apps/desktop/native/UpdateHandoff.swift:183-196 | follows its course: the journal |
| UpdateWorkspace.Workspace.FinishOwned | apps/desktop/native/UpdateHandoff.swift:183-196 | follows its course: directory, pointer, journal |
| UpdateWorkspace.Workspace.ResumeCleanup | apps/desktop/native/UpdateHandoff.swift:154-164 | follows its course: one journal after the other, up to the first failure |
| UpdateWorkspace.Workspace.RemoveNeighbour | apps/desktop/native/UpdateHandoff.swift:234-247 | follows its course: the directory beside the application |
| UpdateWorkspace.Workspace.ForgetAdjacent | apps/desktop/native/UpdateHandoff.swift:234-247 | follows its course: the record of it |
| UpdateWorkspace.Workspace.RemoveCopy | apps/desktop/native/UpdateHandoff.swift:234-247 | follows its course: copy before record |
| UpdateWorkspace.Workspace.CleanRecordedCopy | apps/desktop/native/UpdateHandoff.swift:234-247 | follows its course: nothing without a record, a failure when the directory is not the recorded one |
| UpdateWorkspace.Workspace.WriteJournalAndFinish | apps/desktop/native/UpdateHandoff.swift:131-151 | follows its course: the journal before the first deletion |
| UpdateWorkspace.Workspace.RemoveUpdate | apps/desktop/native/UpdateHandoff.swift:131-151 | follows its course: refused while credentials exist |
| UpdateWorkspace.Workspace.StageCopy | apps/desktop/native/UpdateHandoff.swift:263-301 | follows its course: directory, record, copy |
| UpdateWorkspace.Workspace.InstallCopy | apps/desktop/native/UpdateHandoff.swift:263-301 | follows its course: a copy that fails its check is cleaned up again |
| UpdateWorkspace.Workspace.InstallUpdate | apps/desktop/native/UpdateHandoff.swift:263-301 | follows its course: a target or candidate of another version is refused before the first write |
| LockGraph.ReachedIsLeast | scripts/build_wheels.py:79-93 | what paths reach lies in every closed set of packages and extras that holds the start: it is the least one |
| LockScope.Expand | scripts/ci_changes.py:47-53 | the edges of one request: dependencies of every matching record, and of each of its extras |
| LockScope.StartWithRoots | scripts/ci_changes.py:27-27 | the requested packages without extras |
| LockScope.StartWithGroups | scripts/ci_changes.py:28-35 | the development groups of the harness package |
| LockScope.Select | scripts/ci_changes.py:22-54 | the work list ends and selects all records of exactly the reachable packages |
| LockScope.ScopeChangesIff | scripts/ci_changes.py:22-97 | two lockfiles, each asked with the groups it lists itself, have one scope exactly when every package installed by either is installed by both with the same records; without groups or with an unchanged harness, exactly when they agree on every reached package |
| LockScope.RequestsChangeScopeIff | scripts/ci_changes.py:22-97 | while no reached record changes, other requests change the scope exactly when they reach other packages |
| ProjectPaths.Projects | scripts/build_wheels.py:69-73 | of several editable records of a name the last one counts |
| ProjectPaths.CollectEdges | scripts/build_wheels.py:87-90 | own edges for a new package and the edges of each new extra, in any order of the extras |
| ProjectPaths.ProjectPathsFor | scripts/build_wheels.py:52-94 | the search ends; it fails exactly for an unknown package or a reachable unsupported path, and else gives exactly the needed paths in build order |
| ProjectPaths.BothClosuresAgree | scripts/ci_changes.py:22-64 | for every lockfile the selected paths are among the workspace paths of the reference closure, and are all of them exactly when what the incremental closure reaches from the skipped edges, and the paths of overridden records, are needed anyway |
| ProjectPaths.ClosedWorkspacesAgree | scripts/build_wheels.py:52-94 | in particular they agree with unique names and no way from a reached registry package into the workspace |
| ProjectPaths.ClosuresDifferBehindARegistryPackage | scripts/build_wheels.py:81-83 | a concrete lockfile on which the closures differ |
| LockMeaning.ReachedIsRequired | scripts/ci_changes.py:22-54 | what is reached is exactly what no choice of packages and extras can do without that holds the requests and, with a package or extra, everything its records ask for |
| LockMeaning.ScopeIsRequired | scripts/ci_changes.py:22-54 | the scope holds exactly the required packages that are listed, each with all its records in their order |
| LockMeaning.NeedsIsRequired | scripts/build_wheels.py:52-94 | the needed paths are those of the required packages, by the last editable record of each name |
| LockMeaning.ChosenPicks | scripts/build_wheels.py:94-94 | they are given in the fixed order of the build, without gaps or other paths |
| Archive.CreateArchive | apps/desktop/scripts/update_archive.py:86-112 | the items are the root and then the entries in listing order |
| Extraction.MakeDirectory | apps/desktop/scripts/update_archive.py:170-171 | a safe step: something new, below directories made here |
| Extraction.WriteNew | apps/desktop/scripts/update_archive.py:174-190 | a safe step: a file or link where nothing is, below directories made here |
| Extraction.CloseDirectory | apps/desktop/scripts/update_archive.py:191-192 | a safe step: new permissions for a directory made here |
| Extraction.NothingThroughLinks | apps/desktop/scripts/update_archive.py:159-192 | whatever the archive holds, in every tree an extraction passes through each entry lies in real directories, so nothing is written through a link |
| Extraction.NothingIsReplaced | apps/desktop/scripts/update_archive.py:170-192 | whatever the archive holds, a file or link once written is never replaced or removed |
| Extraction.SumSizes | apps/desktop/scripts/update_archive.py:130-136 | the declared sizes are added up |
| Extraction.ReadNames | apps/desktop/scripts/update_archive.py:137-158 | succeeds exactly when every entry is valid and no two names coincide when folded |
| Extraction.CheckParents | apps/desktop/scripts/update_archive.py:159-165 | succeeds exactly when every parent is a directory of the archive |
| Extraction.DirectoriesByDepth | apps/desktop/scripts/update_archive.py:166-169 | every directory once, parents first |
| Extraction.MakeDirectories | apps/desktop/scripts/update_archive.py:170-171 | all directories and nothing else, private to the owner |
| Extraction.WriteFiles | apps/desktop/scripts/update_archive.py:172-190 | succeeds exactly when every content is as declared and every link is allowed |
| Extraction.CloseDirectories | apps/desktop/scripts/update_archive.py:191-192 | afterwards the tree is exactly what the archive describes, permissions included |
| Extraction.ExtractTree | apps/desktop/scripts/update_archive.py:114-194 | succeeds exactly for valid archives, and then the tree holds exactly the archived names, kinds, permissions and contents; until it succeeds or stops it passes through safe steps only |
| ArchiveRoundTrip.CreatedIsExtractableIff | apps/desktop/scripts/update_archive.py:86-194 | for every tree the digest accepts, the archive is extractable exactly within the limits only the extractor has |
| ArchiveRoundTrip.ExtractionRestoresTheTree | apps/desktop/scripts/update_archive.py:86-194 | whatever is extracted from the archive of a tree is that tree under the application directory |
| ArchiveRoundTrip.SpecialRootIsRefused | apps/desktop/scripts/update_archive.py:86-158 | a concrete case: an empty application whose directory has the setgid bit is accepted and not extractable |
| ArchiveRoundTrip.LongLinkIsRefused | apps/desktop/scripts/update_archive.py:86-183 | a concrete case: a link target of 4097 bytes |
| ArchiveRoundTrip.FullTreeIsRefused | apps/desktop/scripts/update_archive.py:86-136 | an accepted tree with the greatest number of entries is never extractable |
| TreeDigest.DigestTree | apps/desktop/scripts/update_archive.py:39-83 | succeeds exactly when every check passes, and returns the text of the tree |
| TreeDigest.DigestibleIsAccepted | apps/desktop/scripts/update_archive.py:39-83 | a tree that passes the checks entry by entry is an accepted tree: valid names, no special entries, no two names that coincide when folded |
| TreeDigest.FieldsInjective | apps/desktop/scripts/update_archive.py:39-83 | one line can be read back field by field |
| TreeDigest.SameTextIffSameTree | apps/desktop/scripts/update_archive.py:39-83 | two accepted trees have one text exactly when they are the same tree up to normalisation of names and link targets |
| TreeDigest.NormalTrees | apps/desktop/scripts/update_archive.py:39-83 | for trees in normal form that is equality |
| TreeDigest.ComparisonPassesIff | apps/desktop/scripts/update_archive.py:193-195 | what is extracted from the archive of a tree passes the comparison with a signed digest exactly when that tree is the signed one up to normalisation |
| ByteFormats.PrefixedInjective | apps/desktop/src/tinkerfin_desktop/assets.py:104-108 | a length in front says where a text ends, whatever follows |
| ByteFormats.SkillTextInjective | apps/desktop/src/tinkerfin_desktop/assets.py:102-109 | two lists of skill files with one text are the same list |
| AcceptedNames.ArchivedPartIff | apps/desktop/scripts/update_archive.py:26-36 | a part of an archived name is accepted exactly when it leads one step down, as a file system follows it, and holds no separator, NUL or line break |
| AcceptedNames.ExtractedIsContained | apps/desktop/scripts/update_archive.py:114-194 | whatever is extracted from a valid archive lies inside the application directory, in directories, and is a plain directory, file or relative link |
| AcceptedNames.DigestibleIff | apps/desktop/scripts/update_archive.py:39-83 | a listed tree passes the checks of the digest exactly when it is accepted and its files together fit |
| AcceptedNames.SameLinesIff | apps/desktop/scripts/update_archive.py:39-83 | two trees have the same lines exactly when each entry of one is in the other, up to normalisation of names and link targets |
| SkillDecode.ByPathSorts | apps/desktop/src/tinkerfin_desktop/assets.py:76-76 | sorting by path keeps the files and orders them |
| AcceptedNames.SkillPartIff | apps/desktop/src/tinkerfin_desktop/assets.py:77-86 | a part of a skill path is accepted exactly when it leads one step down and holds no backslash, colon or control character |
| AcceptedNames.DecodedIsContained | apps/desktop/src/tinkerfin_desktop/assets.py:57-111 | every file of a decoded skill lies below whatever directory the skill is written to, within its size, and one is the manual |
| SkillDecode.ReadFiles | apps/desktop/src/tinkerfin_desktop/assets.py:73-93 | succeeds exactly for permitted paths that stay distinct when folded, within the limits |
| SkillDecode.FindConflict | apps/desktop/src/tinkerfin_desktop/assets.py:94-97 | finds whether some folded file is a directory of another one |
| SkillDecode.DigestText | apps/desktop/src/tinkerfin_desktop/assets.py:102-108 | the bytes that are hashed |
| SkillDecode.Decode | apps/desktop/src/tinkerfin_desktop/assets.py:57-111 | succeeds exactly for accepted packages, and gives the files sorted by path |
| SkillSafety.OneDigestOneContent | apps/desktop/src/tinkerfin_desktop/assets.py:102-110 | two accepted packages with one digest hold the same files |
| SkillSafety.OrderDoesNotMatter | apps/desktop/src/tinkerfin_desktop/assets.py:76-111 | the order in which a package lists its files changes neither acceptance nor the result |
| SkillSafety.AcceptedSkillsPublish | apps/desktop/src/tinkerfin_desktop/assets.py:77-97 | accepted skills with distinct folded names never collide when written together, on every volume that confuses no more names than the check |
| SkillPublish.MakeFolders | apps/desktop/src/tinkerfin_desktop/assets.py:170-171 | the directories above a file are made unless a file is in their place |
| SkillPublish.Publish | apps/desktop/src/tinkerfin_desktop/assets.py:167-180 | writing works exactly when no name stands in another one's way, and leaves the files, their directories and nothing else, each spelled as some file spells it |
| SkillPublish.Verify | apps/desktop/src/tinkerfin_desktop/assets.py:139-166 | a directory that was there before is accepted exactly when it holds the files and their directories under their own spelling, and nothing else |
| SkillReuse.AcceptedAgainIff | apps/desktop/src/tinkerfin_desktop/assets.py:134-180 | a directory that publishing left on a volume is accepted again exactly when no two files spell a common directory differently |
| SkillReuse.PublishedSkillIsRefused | apps/desktop/src/tinkerfin_desktop/assets.py:134-180 | a concrete skill that is accepted, is written without error and is refused by the next check |
| Maintenance.EveryRunKeepsInv | apps/desktop/src/tinkerfin_desktop/maintenance.py:36-94 | over every interleaving, late receipts, crashes and failures included, gate, receipts and requests stay consistent |
| Maintenance.GrantedWasCommitted | apps/desktop/native/BackendProcess.swift:235-244 | a commit returns normally only for a request that the host committed |
| Maintenance.GateOutlivesTheHost | apps/desktop/src/tinkerfin_desktop/__main__.py:93-97 | after a commit the gate is held until the host has closed or died, and it never serves again |
| Maintenance.PreparedMeansHeld | apps/desktop/native/BackendProcess.swift:200-223 | while the client believes its update prepared, a serving host holds the gate for that very request |
| Maintenance.CommitSucceeds | apps/desktop/src/tinkerfin_desktop/maintenance.py:77-83 | a commit that reaches a serving host is never refused |
| Maintenance.NoGateIsForgotten | apps/desktop/src/tinkerfin_desktop/maintenance.py:48-94 | without an update and with nothing on its way, a serving host neither holds nor awaits the gate |
| Maintenance.EveryRunAnswers | apps/desktop/src/tinkerfin_desktop/maintenance.py:36-94 | over every run, while the host serves, the request the client waits for is on its way, being worked on, or answered |
| Maintenance.IdleHostPrepares | apps/desktop/src/tinkerfin_desktop/maintenance.py:36-60 | a preparation of an idle host is taken up: it acquires the gate for it, and the client learns that it is prepared |
| Maintenance.UpdatesGoThrough | apps/desktop/native/BackendProcess.swift:200-244 | from every idle moment of every run an update can be prepared and committed, with the gate held |
| Maintenance.PreparedUpdateCancels | apps/desktop/native/BackendProcess.swift:246-254 | a prepared update that is cancelled gives the gate back, and the host serves on |
| MaintenanceSides.MaintenanceControl.constructor | apps/desktop/src/tinkerfin_desktop/maintenance.py:21-31 | no request |
| MaintenanceSides.MaintenanceControl.Report | apps/desktop/src/tinkerfin_desktop/maintenance.py:33-34 | a receipt is sent after those before it |
| MaintenanceSides.MaintenanceControl.Close | apps/desktop/src/tinkerfin_desktop/maintenance.py:85-94 | cancelling the task gives the gate back |
| MaintenanceSides.MaintenanceControl.ReceiveCommand | apps/desktop/src/tinkerfin_desktop/maintenance.py:48-83 | state, receipts and permission to exit are as specified for every command; only a commit of the ready request exits |
| MaintenanceSides.MaintenanceControl.TaskSettles | apps/desktop/src/tinkerfin_desktop/maintenance.py:36-46 | the task reports that it has the gate, or could not get it |
| MaintenanceSides.BackendProcess.constructor | apps/desktop/native/BackendProcess.swift:64-67 | no update |
| MaintenanceSides.BackendProcess.PrepareForUpdate | apps/desktop/native/BackendProcess.swift:200-223 | one request at a time, with a new name |
| MaintenanceSides.BackendProcess.RequestCancellation | apps/desktop/native/BackendProcess.swift:246-254 | a cancellation is sent once and never after a commit |
| MaintenanceSides.BackendProcess.CommitPreparation | apps/desktop/native/BackendProcess.swift:235-244 | only a prepared update is committed |
| MaintenanceSides.BackendProcess.ReceiveReceipt | apps/desktop/native/BackendProcess.swift:256-280 | receipts of other requests change nothing; which call returns is as specified |
| BrowserProvider.EveryRunShares | apps/desktop/src/tinkerfin_desktop/browser_install.py:223-265 | over every run of cancellable callers at most one preparation is alive, the counter counts its waiters, and only a deserted one is stopped |
| BrowserProvider.EveryRunKeepsInv | apps/desktop/src/tinkerfin_desktop/browser_install.py:223-265 | the same from every consistent state, with the closing phase owned by exactly one caller |
| BrowserProvider.NewTaskAfterAllEnded | apps/desktop/src/tinkerfin_desktop/browser_install.py:229-238 | a new preparation starts only when every earlier one has ended |
| BrowserProvider.WaiterIsCounted | apps/desktop/src/tinkerfin_desktop/browser_install.py:233-249 | whoever waits waits for the shared task and is counted |
| BrowserProvider.EveryRunStopsDeserted | apps/desktop/src/tinkerfin_desktop/browser_install.py:246-254 | over every run a preparation that has not ended is being stopped exactly when nobody waits for it |
| BrowserProvider.EnteringWaits | apps/desktop/src/tinkerfin_desktop/browser_install.py:229-238 | who enters waits for the preparation that others wait for, or for a new one, unless one is being closed |
| BrowserProvider.LeavingStops | apps/desktop/src/tinkerfin_desktop/browser_install.py:246-254 | who leaves while others wait changes nothing for them; the last one stops the preparation |
| BrowserProvider.ClosingEnds | apps/desktop/src/tinkerfin_desktop/browser_install.py:255-265 | when the stopped preparation has ended the next caller starts a new one |
| BrowserProvider.Provider.constructor | apps/desktop/src/tinkerfin_desktop/browser_install.py:201-210 | no preparation |
| BrowserProvider.Provider.EnterOnce | apps/desktop/src/tinkerfin_desktop/browser_install.py:229-238 | joins or starts the shared task, and waits instead exactly during a closing phase |
| BrowserProvider.Provider.LeaveOnce | apps/desktop/src/tinkerfin_desktop/browser_install.py:246-254 | the last one to leave stops the task and begins the closing phase |
| BrowserProvider.Provider.FinishClosing | apps/desktop/src/tinkerfin_desktop/browser_install.py:255-265 | the closing phase ends once the task has ended |
| BrowserManager.OneSessionPerKey | apps/desktop/src/tinkerfin_desktop/browser.py:316-369 | over every run a key has at most one live session, it is in its place, and there are at most eight places |
| BrowserManager.EveryRunKeepsInv | apps/desktop/src/tinkerfin_desktop/browser.py:258-429 | from every consistent state: slots keep their place until closed, closing only goes forward, callers and shutdown hold what they think they hold |
| BrowserManager.OnlyClosedSlotsLeave | apps/desktop/src/tinkerfin_desktop/browser.py:407-410 | what leaves the table in a step has been closed successfully, so no retiring caller removes a replacement |
| BrowserManager.NoneAddedAfterClosing | apps/desktop/src/tinkerfin_desktop/browser.py:329-331 | once the manager closes no slot is added |
| BrowserManager.AnswersAreCurrent | apps/desktop/src/tinkerfin_desktop/browser.py:366-369 | a caller is answered with the session that holds its key, started with the access it asks for |
| BrowserManager.FailedCloseIsForever | apps/desktop/src/tinkerfin_desktop/browser.py:278-288 | a slot whose close failed keeps its place in every later run |
| BrowserManager.FailedCloseStopsTheSweep | apps/desktop/src/tinkerfin_desktop/browser.py:350-358 | a sweep with such a slot before it never gives a session |
| BrowserSweep.FullTableGivesSessionIff | apps/desktop/src/tinkerfin_desktop/browser.py:329-366 | a call that finds the table full ends with a session exactly when some slot can be retired and every slot that can be retired closes; both are properties of the slots before the call |
| BrowserSweep.CallCanEnd | apps/desktop/src/tinkerfin_desktop/browser.py:329-366 | every such call can come to its end |
| BrowserSweep.RequestIsRefused | apps/desktop/src/tinkerfin_desktop/browser.py:278-366 | a concrete run from the empty table: eight sessions, one failed close, and a ninth request that ends without a session |
| BrowserCalls.CallsEndForAReason | apps/desktop/src/tinkerfin_desktop/browser.py:316-369 | in every interleaving a call that has ended had a session to wait for, or looked when the manager was closing, when its key was in use for another access or when nothing of a full table could be retired, or a slot it retired had failed to close |
| BrowserManager.ClosedMeansNothingLives | apps/desktop/src/tinkerfin_desktop/browser.py:412-429 | closing ends without failure exactly when no place is left, and then nothing lives |
| BrowserJoins.LiveSessionIsJoined | apps/desktop/src/tinkerfin_desktop/browser.py:329-366 | a caller that finds a live session of its key joins it when it asks for the same access and goes away otherwise; nothing changes |
| BrowserJoins.RoomGivesSession | apps/desktop/src/tinkerfin_desktop/browser.py:359-366 | with no session and a free place it gets a new one with the access it asks for; the others stay as they are |
| BrowserJoins.DeadSessionIsRetired | apps/desktop/src/tinkerfin_desktop/browser.py:332-342 | a session that is closing, failed or gone is closed and its place waited for |
| BrowserJoins.RetiredGivesPlace | apps/desktop/src/tinkerfin_desktop/browser.py:407-410 | its place is given up exactly when the close succeeded, and the caller goes on |
| BrowserJoins.StopCloses | apps/desktop/src/tinkerfin_desktop/browser.py:400-405 | a stop has the session of its key closed |
| BrowserJoins.LiveUntilStopped | apps/desktop/src/tinkerfin_desktop/browser.py:316-429 | over every run a live session stays open and in its place until it fails, dies or is stopped |
| BrowserJoins.EveryoneJoins | apps/desktop/src/tinkerfin_desktop/browser.py:329-369 | so whoever asks for it with the same access at any time in between joins it |
| BrowserManager.Manager.constructor | apps/desktop/src/tinkerfin_desktop/browser.py:294-314 | an empty table |
| BrowserManager.Manager.LookOnce | apps/desktop/src/tinkerfin_desktop/browser.py:329-366 | one pass of the loop: refuse, retire, join, sweep or add, as specified |
| BrowserManager.Manager.Close | apps/desktop/src/tinkerfin_desktop/browser.py:278-281 | one closing task for each slot |
| BrowserManager.Manager.Retire | apps/desktop/src/tinkerfin_desktop/browser.py:407-410 | the place is given up only when the close succeeded and the slot still has it |
| BrowserManager.Manager.SweepNext | apps/desktop/src/tinkerfin_desktop/browser.py:352-355 | slots that are closing or gone are retired, others left |

## Left out

- In the histories of the update files a handoff is written and an installation begun only after a cleanup, and the handoff is for the installed version, as the controller does; the accounts are followed in `DeviceSafety`.
- An error, rather than a crash, while `adjacent.json` is written: the program removes the empty directory again.
- BrowserSweep.FullTableGivesSessionIff: follows a call while no other caller and no session moves, because others may take the place it frees; `BrowserCalls.CallsEndForAReason` holds in every interleaving.
- UpdateFileSafety.CrashedCleanupIsFinished: stated for journals that describe their own directories; `UpdateFileRuns.ReachableCleanupIsFinished` needs no such assumption, and the foreign directory is the separate lemma.
- Event payloads of the adapter: raw events, provenance, agent names and timestamps do not influence the lifecycle.
- Which namespaces and events are internal, and the filtering of them, is not part of this model; all events are visible.
- Matching of actions to tool calls of the history: which calls it finds is a parameter of every frame. The parts of a public request other than its ID and tool call stand for the native value they are made from.
- Message fingerprints: a message stands for its own fingerprint.
- Sanitising of public data, private state keys, task and checkpoint frames, message snapshots.
- The encoding of scoped IDs as text.
- Non-finite numbers and negative zero in JSON.
- User interface rules of the updater: user operations are enabled only while no update is in progress, as the presentation enforces.
- Waiting for the server before an account is retired, links to the browser, the cloud's answer: each is an outcome of the operation.
- Freshness of generated account names and request names is an enabling condition.
- The keychain cache, the lock between processes, code signatures, sealed secrets and the authentication of records: a record that is read is the one that was written.
- Writing the settings file is one step, as is each rename, deletion of a directory tree and exchange of two applications.
- The bound on the number of retired accounts, which is checked only when settings are restored.
- Zip and property list parsing, time stamps and ownership of files; where links lead is a parameter of the digest.
- The permissions of the application directory itself are not part of the digest, so a round trip takes them as given. The archive itself is modelled on names as they are; only the digest normalises them.
- The checks of the property list and of the executable after an extraction.
- Timeouts, broken pipes and the size of receipts in the maintenance protocol: the host may die at any step instead.
- `SkillInputs.prepare` and `_release`: borrowing a published directory is a reference count under a lock that would add nothing to the browser provider's.
- Volumes that change the spelling of a name when they store it.
- The processes, sockets and profile directories of a browser session: starting and closing are outcomes.
- `select_checks`, network clients, HTTP and WebSocket transport, user interface, build and signing scripts.
