# Folder summary, modelled in Dafny

The mail-summaries extension shows a summary page for a mail folder. A
`FolderSummary` object walks the folder's newest thousand messages and hands
each one to five registered widgets ("analyzers"):

- a sparkline of recent activity;
- top correspondents;
- top threads;
- top messages;
- tag dots.

Each widget keeps an incremental summary of what it has seen. Once the pass
is over, the summary keeps the widgets up to date as messages are added,
deleted, re-flagged or re-tagged.

This project models that engine and the widgets' non-rendering state, and
proves what they promise.

- `mail.dfy`: the message and folder records and the flag bits the summary
  tests.
- `dispatch.dfy`: how the summary calls its analyzers.
  - An analyzer is described by the optional hooks it implements.
  - Every call into an analyzer is appended to a call log.
  - A hook's boolean answer ("a full reprocess is needed") comes from a
    `Reply` oracle, which sees the calls made before it.
  - The module covers the hook loops (each stops at the first true answer),
    the per-message dispatch of `_processMessage`, and the run of a batch
    pass over a list of messages.
- `modes.dfy`: the three prioritised view modes (loading, empty, content)
  and which one is shown.
- `ordering.dfy` and `batch.dfy`: sorting newest first, keeping the first
  thousand, and where the worker yields (before every hundredth message).
- `engine.dfy`: the summary as a state machine, with one pure transition per
  operation.
  - The state holds the folder, the analyzers, the modes and the call log.
  - It holds the batch pass: `loading`, `minDate`, the batch, a resumable
    cursor, the pending batch timer, and the count of scheduled
    `processFolder(true)` timers.
  - It holds the listener registrations.
  - The state invariant `Inv` holds across every transition.
- `engine_props.dfy`: what a whole batch pass, `processFolder`, a deferred
  reprocess, `summarize`, `_onUnload`, `_updateAnalyzers`, `observe` and
  `onHdrFlagsChanged` do, stated as lemmas over the transitions.
- `folder_summary.dfy`: the `FolderSummary` class.
  - It holds the same state as fields.
  - Its methods run the source's loops step by step: the mode walk, the
    broadcast loops, the hook loops, and the worker's message loop with its
    yield test.
  - Each method is proved to leave the object in the state its pure
    transition computes.
- `suite.dfy`: the page's own wiring. It registers the five widgets in order
  and shows what their hooks mean for dispatch.
- `sparkline.dfy`, `correspondents.dfy`, `threads.dfy`, `top_messages.dfy`,
  `tag_dots.dfy`: the five widgets as classes.
  - Their `init`, `uninit`, hooks, `render` and `update` update fields in
    place.
  - Their bookkeeping is specified by pure functions, with lemmas for the
    round trips and invariants.
- `ranking.dfy`: the message score and the message and thread comparators.
- `keywords.dfy`: the keyword-string parsing.

## Model

| member | source | states |
|---|---|---|
| Engine.InitialInv | src/content/folderSummary.js:47-59 | the summary as constructed (no analyzer, no folder, all three modes off in the fixed order) satisfies the state invariant |
| Engine.RegisterAnalyzer | src/content/folderSummary.js:91-94 | the analyzer is appended and its `onregistered` is the one call made, at its position |
| Engine.SetMode | src/content/folderSummary.js:68-84 | only the mode flags change, to `Enable(modes, name, en)`; the invariant is kept |
| Engine.NotifyAll | src/content/folderSummary.js:228-230 | exactly the broadcast calls are appended to the log and nothing else changes |
| Engine.CancelProcessing | src/content/folderSummary.js:172-175 | the batch timer is cleared and nothing else changes |
| Engine.UpdateMessageCounts | src/content/folderSummary.js:295-310 | the empty mode is on exactly when the folder's total is zero; loading and content are untouched |
| Engine.ProcessMessage | src/content/folderSummary.js:255-289 | the result is the dispatch's reprocess signal, and one `processFolder(true)` timer is scheduled exactly when it is true |
| Engine.Chunk | src/content/folderSummary.js:195-246 | one `defer` run (the worker up to its next yield, reprocess or end) keeps the state invariant |
| Engine.Yield | src/content/folderSummary.js:201-205 | a yield reschedules the worker (switching the loading mode on at the first run) and keeps the invariant |
| Engine.Finish | src/content/folderSummary.js:239-245 | the worker's epilogue keeps the invariant |
| Engine.ProcessMessages | src/content/folderSummary.js:184-230 | starting a batch pass keeps the invariant (the batch has at most 1000 messages) |
| Engine.MessagesLoaded | src/content/folderSummary.js:609-626 | processing a loaded view keeps the invariant |
| Engine.ProcessFolder | src/content/folderSummary.js:125-167 | `processFolder` keeps the invariant |
| Engine.Tick | src/content/folderSummary.js:204 | a firing batch timer resumes the worker and keeps the invariant |
| Engine.RunDeferred | src/content/folderSummary.js:285-288 | a firing reprocess timer runs `processFolder(true)` and keeps the invariant |
| Engine.OnUnload | src/content/folderSummary.js:359-373 | teardown keeps the invariant |
| Engine.Summarize | src/content/folderSummary.js:317-353 | `summarize` keeps the invariant |
| Engine.Switch | src/content/folderSummary.js:317-348 | the teardown, the new folder, its counts and the listeners keep the invariant |
| Engine.UpdateAnalyzers | src/content/folderSummary.js:379-386 | `_updateAnalyzers` keeps the invariant |
| Engine.OnHdrAdded | src/content/folderSummary.js:503-511 | `onHdrAdded` keeps the invariant |
| Engine.OnHdrDeleted | src/content/folderSummary.js:485-493 | `onHdrDeleted` keeps the invariant |
| Engine.OfferOrUpdate | src/content/folderSummary.js:462-470 | a flags or tags hook loop followed by a reprocess or an update keeps the invariant |
| Engine.OnHdrFlagsChanged | src/content/folderSummary.js:450-475 | `onHdrFlagsChanged` keeps the invariant |
| Engine.OnItemPropertyFlagChanged | src/content/folderSummary.js:579-598 | `OnItemPropertyFlagChanged` keeps the invariant |
| Engine.Observe | src/content/folderSummary.js:422-438 | the mark-all-read notifications keep the invariant |
| Engine.OnItemIntPropertyChanged | src/content/folderSummary.js:562-568 | a count change on the current folder keeps the invariant |
| Engine.OnItemAdded | src/content/folderSummary.js:529-536 | a message added to the current folder keeps the invariant |
| Engine.OnItemRemoved | src/content/folderSummary.js:545-552 | a message removed from the current folder keeps the invariant |
| EngineProperties.Drain | src/content/folderSummary.js:195-206 | firing the batch timer while one is pending keeps the invariant |
| EngineProperties.ChunkThenDrain | src/content/folderSummary.js:195-246 | a pass resumed at its cursor and left to run, tick after tick, dispatches the rest of the batch exactly as one uninterrupted run would; it stops for good at the first reprocess, and otherwise renders every analyzer, clears `loading` and shows content unless the folder is empty |
| EngineProperties.DrainAfterReprocess | src/content/folderSummary.js:235-236 | a run that stops for a reprocess ends the pass with `loading` still on |
| EngineProperties.DrainAfterFinish | src/content/folderSummary.js:239-245 | a run that reaches the end without a reprocess ends the pass as described |
| EngineProperties.DrainAfterYield | src/content/folderSummary.js:201-205 | a run that yields and is resumed ends the pass as described |
| EngineProperties.ResumedPass | src/content/folderSummary.js:232-237 | the chunk before a yield followed by the rest of the pass is the pass from where the chunk began |
| EngineProperties.BatchPass | src/content/folderSummary.js:184-246 | a whole pass keeps the newest 1000 messages and sets `minDate` thirty days back; every analyzer gets `init` before any message. Messages are dispatched in order. On a reprocess the pass stops there with `loading` on and one more reprocess timer; otherwise every analyzer is rendered, `loading` is cleared and content (or empty) is shown |
| EngineProperties.InitsPrecedeDispatch | src/content/folderSummary.js:228-230 | `init` reaches every analyzer once, in registration order, right after the calls made before the pass |
| EngineProperties.CancelledPassNeverResumes | src/content/folderSummary.js:172-175 | after `cancelProcessing` no batch timer fires and `loading` is unchanged |
| EngineProperties.SummarizeSameFolder | src/content/folderSummary.js:317-319 | summarizing the folder already summarized changes nothing |
| EngineProperties.SummarizeSwitches | src/content/folderSummary.js:317-352 | summarizing another folder first uninits every analyzer (if a folder was open), then takes the folder, registers listeners and observers, sets the empty mode iff the total is 0, and for a regular folder starts a pass on its newest messages |
| EngineProperties.ProcessFolderFrame | src/content/folderSummary.js:125-167 | `processFolder` leaves the analyzers, the folder, the empty mode and the listeners alone; the calls made before stay first, followed by one `uninit` per analyzer when asked |
| EngineProperties.ProcessFolderWaits | src/content/folderSummary.js:127-139 | with no folder open only the optional `uninit` calls happen; a virtual folder whose view is still searching waits for the display listener with the loading notice shown, the log only the `uninit` calls and the pass untouched |
| EngineProperties.ProcessFolderStarts | src/content/folderSummary.js:127-167 | a regular folder, or a virtual one whose view is ready, starts a pass on its newest thousand messages, with `minDate` from the clock and one `init` per analyzer after the optional `uninit` calls |
| EngineProperties.RunDeferredRestarts | src/content/folderSummary.js:285-288 | a deferred `processFolder(true)` on a regular folder uses up one request, uninits and inits every analyzer, and its pass either renders every analyzer or stops at the first reprocess request, leaving one request pending again |
| EngineProperties.ObserveTopics | src/content/folderSummary.js:422-438 | a notification not naming the folder, or another topic, changes nothing; mark-all-read starting is the old state with the batch timer cleared and the listeners dropped, and nothing else changed; finishing registers them again, reprocesses the folder (`uninit` calls first, then for a regular folder a new pass with `init` calls) and sets the empty mode iff the total is 0 |
| EngineProperties.ProcessMessagesStarts | src/content/folderSummary.js:184-230 | `_processMessages` keeps the first 1000 messages, sets `minDate` from the clock, and calls `init` on every analyzer before anything else |
| EngineProperties.ChunkFrame | src/content/folderSummary.js:195-246 | one worker run only appends calls and leaves the analyzers, folder, `minDate`, batch and empty mode alone |
| EngineProperties.UnloadTearsDown | src/content/folderSummary.js:359-373 | `_onUnload` clears the batch timer, uninits every analyzer once in registration order, drops the listeners and observers, and forgets the folder |
| EngineProperties.UpdateOnlyWhenIdle | src/content/folderSummary.js:379-386 | `_updateAnalyzers` does nothing while loading; otherwise it calls `update` on exactly the analyzers that have it, in registration order, and appends nothing else |
| EngineProperties.UpdateReachesUpdaters | src/content/folderSummary.js:381-384 | the `update` broadcast calls exactly the analyzers with `update`, each once, in increasing position |
| EngineProperties.ReprocessRequestsAccumulate | src/content/folderSummary.js:285-288 | two added messages that each ask for a reprocess leave two `processFolder(true)` timers: requests are not coalesced |
| EngineProperties.IgnoredClearedIsAdd | src/content/folderSummary.js:455-457 | clearing the Ignored bit is handled exactly as `onHdrAdded` |
| EngineProperties.IgnoredSetIsDelete | src/content/folderSummary.js:458-460 | setting the Ignored bit is handled exactly as `onHdrDeleted` |
| Dispatch.ReceiversExactly | src/content/folderSummary.js:381-384 | the receivers of a lifecycle call are exactly the analyzers that implement it, in increasing position |
| Dispatch.Broadcast | src/content/folderSummary.js:228-230 | one call per receiving analyzer, in registration order |
| Dispatch.BroadcastAll | src/content/folderSummary.js:242-243 | `init`, `uninit` and `render` reach every analyzer once, in registration order |
| Dispatch.Offer | src/content/folderSummary.js:268-283 | a hook loop that asks for a reprocess has made at least one call (the one that answered true) |
| Dispatch.MinDate | src/content/folderSummary.js:222-225 | `minDate` is thirty days, in microseconds, before the clock |
| Dispatch.IsRecent | src/content/folderSummary.js:267 | a message is recent iff `minDate` is set and the message is newer; before the first pass nothing is |
| Dispatch.Handlers | src/content/folderSummary.js:268-271 | the analyzers implementing a hook, exactly and in increasing position |
| Dispatch.OfferVisitsHandlersInOrder | src/content/folderSummary.js:277-283 | a hook loop calls the implementing analyzers in registration order, each at most once, and skips some only after a reprocess request |
| Dispatch.OfferStopsAtFirstTrue | src/content/folderSummary.js:277-283 | every hook call but the last answered false; the loop reports a reprocess iff the last answered true |
| Dispatch.OfferReprocessIffSomeTrue | src/content/folderSummary.js:268-274 | a hook loop reports a reprocess iff some call it made answered true |
| Dispatch.DispatchMessage | src/content/folderSummary.js:262-263 | a killed message that is not being deleted reaches no analyzer and returns false |
| Dispatch.DispatchRecentThenProcess | src/content/folderSummary.js:267-283 | dispatch makes only `processRecentMessage` calls (only for a message newer than `minDate`) followed by `processMessage` calls, all with the message and the deletion flag |
| Dispatch.DispatchAlwaysOffersProcess | src/content/folderSummary.js:265-283 | the `processMessage` loop runs even after a recent hook asked for a reprocess |
| Dispatch.DispatchReprocessIffSomeHookTrue | src/content/folderSummary.js:265-289 | `_processMessage` returns true iff some hook it called answered true |
| Dispatch.Run | src/content/folderSummary.js:233-237 | a run processes at most all its messages, and processes all of them unless it stopped for a reprocess |
| Dispatch.DispatchRun | src/content/folderSummary.js:233-237 | the worker's message loop processes every message unless a reprocess stopped it, and that message was processed |
| Dispatch.DispatchStep | src/content/folderSummary.js:235 | one loop step is `_processMessage(message, false)` |
| Dispatch.RunStopsAtFirstReprocess | src/content/folderSummary.js:233-237 | a run that stops for a reprocess is the messages before the culprit, none of which asked, then the culprit, which did |
| Dispatch.RunAppend | src/content/folderSummary.js:233-237 | running two pieces in turn is running them at once when the first ran to its end |
| Dispatch.RunStopsEarly | src/content/folderSummary.js:235-236 | nothing after a reprocess request is dispatched |
| Dispatch.DispatchRunStopsEarly | src/content/folderSummary.js:235-236 | a pass that stops for a reprocess never reaches the later messages |
| Dispatch.DispatchRunStopsAtFirstReprocess | src/content/folderSummary.js:233-237 | a pass that stops for a reprocess dispatched every earlier message without one, and the culprit asked |
| Dispatch.DispatchRunAppend | src/content/folderSummary.js:232-237 | dispatching a run in chunks is dispatching it at once |
| Batch.BatchOf | src/content/folderSummary.js:187-189 | the batch has at most 1000 messages |
| Batch.BatchShape | src/content/folderSummary.js:164-189 | the batch is sorted newest first and holds min(n, 1000) of the folder's messages |
| Batch.BatchKeepsNewest | src/content/folderSummary.js:164-189 | no message left out of the batch is newer than one kept |
| Batch.YieldsEveryChunk | src/content/folderSummary.js:232-234 | the worker yields once every hundred messages, never before the hundredth |
| Batch.NextYield | src/content/folderSummary.js:232-234 | a chunk ends at the next message whose one-based position is a multiple of 100, or at the end of the batch, and no yield falls inside it |
| Ordering.InsertBy | src/content/folderSummary.js:164 | insertion keeps the sequence sorted by descending key and adds exactly the element |
| Ordering.SortBy | src/content/folderSummary.js:164 | `sort((a, b) => key(b) - key(a))` yields a descending permutation |
| Ordering.Take | src/content/folderSummary.js:188-189 | truncation keeps the first min(n, length) elements |
| Ordering.TopShape | src/content/folderSummary.js:164-189 | sorting then truncating gives a sorted sub-multiset of size min(n, length) |
| Ordering.TopKeepsLargest | src/content/folderSummary.js:164-189 | no element dropped has a larger key than one kept |
| Modes.Visibility | src/content/folderSummary.js:73-82 | a visible mode is enabled, and at most one mode is visible |
| Modes.Shown | src/content/folderSummary.js:75-77 | an enabled first mode is shown, and nothing is shown when no mode is enabled |
| Modes.Enable | src/content/folderSummary.js:70-72 | only the named mode's flag changes, to the given value; names and order are kept |
| Modes.ShownIsAMode | src/content/folderSummary.js:75-77 | the shown mode is an enabled mode of the list |
| Modes.VisibleIffShown | src/content/folderSummary.js:68-84 | a mode's elements are visible iff it is the first enabled mode; at most one is visible |
| Modes.NoneShownIffNoneEnabled | src/content/folderSummary.js:68-84 | nothing is shown iff no mode is enabled |
| Modes.ShownOfThree | src/content/folderSummary.js:55-59 | on the fixed list, the shown mode is loading, else empty, else content, whichever is enabled first |
| Modes.EnableShows | src/content/folderSummary.js:68-84 | enabling a mode shows it unless a higher-priority mode is enabled |
| Modes.EnableWellFormed | src/content/folderSummary.js:55-72 | the mode list keeps its three names in order |
| Summary.WalkModes | src/content/folderSummary.js:68-84 | the loop sets the named flag and computes each mode's visibility as the first-enabled rule says |
| Summary.ShownFlags | src/content/folderSummary.js:73-82 | the three shown flags are the visibility of the mode list |
| Summary.FolderSummary.constructor | src/content/folderSummary.js:47-59 | the object starts in the initial state |
| Summary.FolderSummary.SetMode | src/content/folderSummary.js:68-84 | the object's state becomes `Engine.SetMode` of the old one, and the shown elements follow |
| Summary.FolderSummary.NotifyAll | src/content/folderSummary.js:228-230 | the loop appends exactly the broadcast calls |
| Summary.FolderSummary.CallHooks | src/content/folderSummary.js:277-283 | the hook loop appends exactly the calls of `Offer` and returns its reprocess signal |
| Summary.FolderSummary.RegisterAnalyzer | src/content/folderSummary.js:91-94 | the state becomes `Engine.RegisterAnalyzer` of the old one |
| Summary.FolderSummary.CancelProcessing | src/content/folderSummary.js:172-175 | the state becomes `Engine.CancelProcessing` of the old one |
| Summary.FolderSummary.ProcessMessage | src/content/folderSummary.js:255-289 | the two hook loops append exactly `DispatchMessage`'s calls, return its signal and schedule one reprocess timer when it is true |
| Summary.FolderSummary.Advance | src/content/folderSummary.js:235-236 | one worker step dispatches the message at the cursor; the rest of the chunk is left to run from the grown log unless it asked for a reprocess |
| Summary.FolderSummary.Work | src/content/folderSummary.js:232-237 | the worker's loop, with its yield test, makes exactly the calls of `DispatchRun` up to the next yield point and stops where that run stops |
| Summary.FolderSummary.Defer | src/content/folderSummary.js:195-206 | the state becomes `Engine.Chunk` of the old one |
| Summary.FolderSummary.ProcessMessages | src/content/folderSummary.js:184-230 | the state becomes `Engine.ProcessMessages` of the old one |
| Summary.FolderSummary.OnMessagesLoaded | src/content/folderSummary.js:609-626 | the state becomes `Engine.MessagesLoaded` of the old one |
| Summary.FolderSummary.ProcessFolder | src/content/folderSummary.js:125-167 | the state becomes `Engine.ProcessFolder` of the old one |
| Summary.FolderSummary.Tick | src/content/folderSummary.js:204 | the state becomes `Engine.Tick` of the old one |
| Summary.FolderSummary.RunDeferred | src/content/folderSummary.js:287 | the state becomes `Engine.RunDeferred` of the old one |
| Summary.FolderSummary.UpdateMessageCounts | src/content/folderSummary.js:295-310 | the state becomes `Engine.UpdateMessageCounts` of the old one |
| Summary.FolderSummary.OnUnload | src/content/folderSummary.js:359-373 | the state becomes `Engine.OnUnload` of the old one |
| Summary.FolderSummary.Summarize | src/content/folderSummary.js:317-353 | the state becomes `Engine.Summarize` of the old one |
| Summary.FolderSummary.UpdateAnalyzers | src/content/folderSummary.js:379-386 | the state becomes `Engine.UpdateAnalyzers` of the old one |
| Summary.FolderSummary.OnHdrAdded | src/content/folderSummary.js:503-511 | the state becomes `Engine.OnHdrAdded` of the old one |
| Summary.FolderSummary.OnHdrDeleted | src/content/folderSummary.js:485-493 | the state becomes `Engine.OnHdrDeleted` of the old one |
| Summary.FolderSummary.HooksThenUpdate | src/content/folderSummary.js:462-470 | the state becomes `Engine.OfferOrUpdate` of the old one |
| Summary.FolderSummary.OnHdrFlagsChanged | src/content/folderSummary.js:450-475 | the state becomes `Engine.OnHdrFlagsChanged` of the old one |
| Summary.FolderSummary.OnItemPropertyFlagChanged | src/content/folderSummary.js:579-598 | the state becomes `Engine.OnItemPropertyFlagChanged` of the old one |
| Summary.FolderSummary.Observe | src/content/folderSummary.js:422-438 | the state becomes `Engine.Observe` of the old one |
| Summary.FolderSummary.OnItemIntPropertyChanged | src/content/folderSummary.js:562-568 | the state becomes `Engine.OnItemIntPropertyChanged` of the old one |
| Summary.FolderSummary.OnItemAdded | src/content/folderSummary.js:529-536 | the state becomes `Engine.OnItemAdded` of the old one |
| Summary.FolderSummary.OnItemRemoved | src/content/folderSummary.js:545-552 | the state becomes `Engine.OnItemRemoved` of the old one |
| Suite.RegisterAll | src/content/folderSummary.js:1884-1899 | registering analyzers leaves the folder, modes, pass and listeners alone and adds one analyzer per registration |
| Suite.RegisterAllAppends | src/content/folderSummary.js:91-94 | registering analyzers appends them in order, each told its position once |
| Suite.PageRegistersWidgets | src/content/folderSummary.js:1884-1899 | the page registers sparkline, correspondents, threads, messages and tag dots at positions 0 to 4 |
| Suite.FlagChangeReachesTopMessages | src/content/folderSummary.js:450-470 | with the five widgets, a flag change that leaves Ignored alone reaches only the top-messages widget, then the analyzers are updated |
| Suite.KeywordChangeReachesTagDots | src/content/folderSummary.js:579-588 | with the five widgets, a keyword change reaches only the tag-dots widget, then the analyzers are updated |
| Suite.AddedMessageRound | src/content/folderSummary.js:255-289 | with the five widgets, a new message goes to the sparkline when recent, then to the other four in order, and only the top-threads widget can cut the round short |
| Sparkline.Record | src/content/folderSummary.js:675-681 | adding puts one more copy of the date in the histogram; removing takes one out if present; other dates are untouched |
| Sparkline.RecordRoundTrip | src/content/folderSummary.js:675-681 | recording a message and then its deletion restores the histogram |
| Sparkline.RecordSize | src/content/folderSummary.js:675-681 | the histogram's total grows by one on an add and shrinks by one on the delete of a recorded date |
| Sparkline.SparklineWidget.constructor | src/content/folderSummary.js:639-641 | a widget not yet initialised |
| Sparkline.SparklineWidget.Init | src/content/folderSummary.js:656-660 | an empty histogram, stale, chart hidden |
| Sparkline.SparklineWidget.Uninit | src/content/folderSummary.js:665-667 | the histogram is dropped |
| Sparkline.SparklineWidget.ProcessRecentMessage | src/content/folderSummary.js:675-681 | the histogram becomes `Record` of the old one, the chart is stale, and no reprocess is asked |
| Sparkline.SparklineWidget.Render | src/content/folderSummary.js:688-734 | a zero peak hides the chart and leaves it stale; otherwise the chart is shown, drawn and fresh |
| Sparkline.SparklineWidget.Update | src/content/folderSummary.js:739-742 | only a stale chart is rendered |
| Correspondents.Key | src/content/folderSummary.js:843 | an address is keyed by its email, or by its name when it has no email |
| Correspondents.HeaderAddresses | src/content/folderSummary.js:833-839 | an outgoing folder counts the parsed To addresses when the decoded To string is non-empty, and the recipients otherwise; any other folder counts the author |
| Correspondents.EmptyGroupCountsNobody | src/content/folderSummary.js:833-839 | an outgoing message whose To string is non-empty but names no mailbox counts nobody, even when its recipients header names someone |
| Correspondents.EntryFor | src/content/folderSummary.js:843-857 | the entry an added address is counted in carries the key's current count and dates |
| Correspondents.AddOne | src/content/folderSummary.js:842-860 | the key has an entry afterwards and every entry still counts at least one message |
| Correspondents.RemoveOne | src/content/folderSummary.js:863-871 | every entry still counts at least one message |
| Correspondents.AddOneAt | src/content/folderSummary.js:842-860 | one added address raises its key's count by one and adds the date; other keys are untouched |
| Correspondents.RemoveOneAt | src/content/folderSummary.js:863-871 | one deleted address lowers a present key's count by one and removes the date, dropping the key at zero; other keys are untouched |
| Correspondents.AddAll | src/content/folderSummary.js:841-861 | adding a message keeps every entry positive |
| Correspondents.RemoveAll | src/content/folderSummary.js:862-872 | deleting a message keeps every entry positive |
| Correspondents.AddAllCounts | src/content/folderSummary.js:841-861 | a key's count grows by the number of the message's addresses with that key, and it has an entry iff it had one or occurs |
| Correspondents.AddAllDates | src/content/folderSummary.js:841-861 | a key's histogram gains one copy of the date per address with that key |
| Correspondents.RemoveAllCounts | src/content/folderSummary.js:862-872 | a key's count drops by the number of the message's addresses with that key, to no less than zero |
| Correspondents.RemoveAllDates | src/content/folderSummary.js:862-872 | a key's histogram loses one copy of the date per address with that key, and goes with the key at zero |
| Correspondents.AddRemoveRoundTrip | src/content/folderSummary.js:830-873 | adding then deleting a message restores the key set, counts and histograms |
| Correspondents.TopRows | src/content/folderSummary.js:881-885 | the rows are min(n, 7) entries in descending count |
| Correspondents.TopRowsRanked | src/content/folderSummary.js:879-893 | render lists min(n, 7) entries by descending count, and none left out counts more than one listed |
| Correspondents.Entries | src/content/folderSummary.js:881-883 | the entries gathered are those of the enumerated keys, in order |
| Correspondents.TopCorrespondentsWidget.constructor | src/content/folderSummary.js:768-776 | a widget not yet initialised |
| Correspondents.TopCorrespondentsWidget.Init | src/content/folderSummary.js:796-814 | an empty count map, stale |
| Correspondents.TopCorrespondentsWidget.Uninit | src/content/folderSummary.js:819-822 | the list is cleared and the count map dropped |
| Correspondents.TopCorrespondentsWidget.ProcessMessage | src/content/folderSummary.js:830-873 | the count map becomes `AddAll` or `RemoveAll` of the header's addresses, and no reprocess is asked |
| Correspondents.TopCorrespondentsWidget.AddAddresses | src/content/folderSummary.js:841-861 | the adding loop computes `AddAll` |
| Correspondents.TopCorrespondentsWidget.RemoveAddresses | src/content/folderSummary.js:862-872 | the deleting loop computes `RemoveAll` |
| Correspondents.TopCorrespondentsWidget.Render | src/content/folderSummary.js:879-893 | the top rows (at most 7, by count) are appended and the list is fresh |
| Correspondents.TopCorrespondentsWidget.Update | src/content/folderSummary.js:898-903 | a stale list is replaced by the top rows; a fresh one is kept |
| Ranking.MessageScore | src/content/folderSummary.js:1434-1443 | the score is the date plus thirty days per unread and per flagged: exactly the date iff read and unflagged, and at most sixty days more |
| Ranking.MessageCompare | src/content/folderSummary.js:1452-1454 | negative iff the first ranks before the second (higher score, then higher key) |
| Ranking.MessageEquals | src/content/folderSummary.js:1463-1465 | entries the comparator ties are equal |
| Ranking.ThreadCompare | src/content/folderSummary.js:1190-1192 | negative iff the first ranks before the second (more messages, then newer, then higher key) |
| Ranking.ThreadEquals | src/content/folderSummary.js:1201-1203 | threads the comparator ties are equal |
| Ranking.MessageCompareAntisymmetric | src/content/folderSummary.js:1452-1454 | swapping the arguments negates the comparison |
| Ranking.MessageCompareTransitive | src/content/folderSummary.js:1452-1454 | the message order is transitive |
| Ranking.ThreadCompareAntisymmetric | src/content/folderSummary.js:1190-1192 | swapping the arguments negates the comparison |
| Ranking.ThreadCompareTransitive | src/content/folderSummary.js:1190-1192 | the thread order is transitive |
| Ranking.ThreadEqualsCoarserThanCompare | src/content/folderSummary.js:1190-1203 | the same thread with another count is equal but not tied |
| Ranking.UnreadOutranksRecentRead | src/content/folderSummary.js:1434-1454 | an unread message outranks a read, unflagged one less than thirty days newer |
| Threads.RequestFor | src/content/folderSummary.js:1125-1146 | a live thread is refreshed on an add and looked up on a delete; an empty thread is removed |
| Threads.EditsFor | src/content/folderSummary.js:1134-1145 | the date is added to the histogram of a refreshed thread the cache kept, and removed from that of a looked-up thread it holds, each found by its thread key |
| Threads.OtherThreadsUntouched | src/content/folderSummary.js:1126-1146 | a message of one thread leaves every other thread's histogram alone |
| Threads.AddThenDeleteCancels | src/content/folderSummary.js:1126-1146 | adding a message to a live thread and deleting it, while the cache keeps the thread at whatever positions, leaves every thread's histogram as it was |
| Threads.TopThreadsWidget.constructor | src/content/folderSummary.js:1060-1068 | a widget not yet initialised |
| Threads.TopThreadsWidget.Init | src/content/folderSummary.js:1093-1098 | a fresh cache, stale |
| Threads.TopThreadsWidget.Uninit | src/content/folderSummary.js:1103-1106 | the list is cleared and the cache dropped |
| Threads.TopThreadsWidget.ProcessMessage | src/content/folderSummary.js:1114-1148 | exactly one cache request and the matching histogram edit; a reprocess is asked iff an empty thread was removed and the cache said so |
| Threads.TopThreadsWidget.Render | src/content/folderSummary.js:1154-1161 | the cached threads are listed and the list stays stale |
| Threads.TopThreadsWidget.Update | src/content/folderSummary.js:1166-1171 | a stale list is replaced by the cached threads |
| TopMessages.InfoOf | src/content/folderSummary.js:1365 | the cache entry carries the message and its score |
| TopMessages.FlagRequests | src/content/folderSummary.js:1382-1393 | a refresh is sent iff the Read or the Marked bit changed |
| TopMessages.SkippedRefreshKeepsScore | src/content/folderSummary.js:1387-1389 | when neither bit changed, the score under the old flags equals that under the new |
| TopMessages.RefreshedScoreDiffers | src/content/folderSummary.js:1387-1392 | a refresh for one changed bit moves the score by thirty days |
| TopMessages.TopMessagesWidget.constructor | src/content/folderSummary.js:1309-1316 | a widget not yet initialised |
| TopMessages.TopMessagesWidget.Init | src/content/folderSummary.js:1341-1346 | a fresh cache, stale |
| TopMessages.TopMessagesWidget.Uninit | src/content/folderSummary.js:1351-1355 | the list is cleared and the cache dropped |
| TopMessages.TopMessagesWidget.ProcessMessage | src/content/folderSummary.js:1363-1373 | an add or remove request with the scored message; a reprocess is asked iff a deletion's removal said so |
| TopMessages.TopMessagesWidget.UpdateMessageFlags | src/content/folderSummary.js:1382-1393 | the list is stale and the cache is refreshed only on a Read or Marked change |
| TopMessages.TopMessagesWidget.Render | src/content/folderSummary.js:1398-1406 | the cached messages are listed and the list is fresh |
| TopMessages.TopMessagesWidget.Update | src/content/folderSummary.js:1411-1416 | a stale list is replaced by the cached messages |
| TagDots.Add | src/content/folderSummary.js:1653-1662 | the counts keep their tags, the dots keep theirs, and one dot is added iff some known tag matches |
| TagDots.Delete | src/content/folderSummary.js:1663-1675 | the counts keep their tags and the message's first dot, if any, is dropped |
| TagDots.RetagAsWritten | src/content/folderSummary.js:1683-1713 | as written: for a message with a dot, the dot goes only when the keywords string is empty |
| TagDots.Retag | src/content/folderSummary.js:1683-1713 | as intended: for a message with a dot, the dot goes iff no known tag matches |
| TagDots.Matched | src/content/folderSummary.js:1654-1660 | the matched tags are exactly the known tags whose keys are among the keywords |
| TagDots.Recount | src/content/folderSummary.js:1700-1707 | every tag is recounted in place, keeping order and keys |
| TagDots.RecountTags | src/content/folderSummary.js:1700-1707 | the loop computes `Recount` and collects the matched tags in order |
| TagDots.FirstDot | src/content/folderSummary.js:1686-1689 | the position of the first dot of the message, or none |
| TagDots.RemoveAt | src/content/folderSummary.js:1671 | `splice(i, 1)` shortens the dots by one |
| TagDots.AddKeepsConsistent | src/content/folderSummary.js:1653-1662 | adding a message keeps every count equal to the number of dots listing the tag and makes no empty dot |
| TagDots.DeleteKeepsConsistent | src/content/folderSummary.js:1663-1675 | deleting a message whose dot matches its keywords keeps the counts in step |
| TagDots.RetagKeepsConsistent | src/content/folderSummary.js:1683-1713 | retagging, corrected, keeps the counts in step and leaves no empty dot |
| TagDots.AddThenDeleteRestores | src/content/folderSummary.js:1649-1676 | adding then deleting a message with unchanged keywords restores counts and dots |
| TagDots.AddMatches | src/content/folderSummary.js:1653-1662 | the dot an add makes matches the message's keywords |
| TagDots.RetagAgreesUnlessUntagged | src/content/folderSummary.js:1708-1711 | as written and corrected, retagging agree unless keywords remain but no known tag does |
| TagDots.RetagAsWrittenLeavesEmptyDot | src/content/folderSummary.js:1694-1712 | a concrete retag after which the source keeps a dot with no tags, breaking the count invariant, while the corrected version drops it |
| TagDots.TagDotsWidget.constructor | src/content/folderSummary.js:1603-1605 | a widget not yet initialised |
| TagDots.TagDotsWidget.Init | src/content/folderSummary.js:1622-1633 | every known tag counted zero, no dots, hidden and stale, and consistent |
| TagDots.TagDotsWidget.Uninit | src/content/folderSummary.js:1638-1641 | the tags and dots are dropped |
| TagDots.TagDotsWidget.IndexOfDot | src/content/folderSummary.js:1685-1689 | the search finds `FirstDot` |
| TagDots.TagDotsWidget.ProcessMessage | src/content/folderSummary.js:1649-1676 | the state becomes `Add` or `Delete` of the old one, and no reprocess is asked |
| TagDots.TagDotsWidget.UpdateMessageTags | src/content/folderSummary.js:1683-1713 | the state becomes the corrected `Retag` of the old one (see Findings), and no reprocess is asked |
| TagDots.TagDotsWidget.Render | src/content/folderSummary.js:1721-1751 | the chart is hidden iff there are no dots, and is fresh |
| TagDots.TagDotsWidget.Update | src/content/folderSummary.js:1756-1759 | only a stale chart is rendered |
| Keywords.Split | src/content/folderSummary.js:1865 | `split(" ")` gives at least one piece, none containing a space |
| Keywords.GetKeywords | src/content/folderSummary.js:1859-1868 | no keywords iff the string is empty; otherwise the space-free pieces |
| Keywords.JoinSplit | src/content/folderSummary.js:1865 | joining the pieces with spaces gives the string back |
| Keywords.SplitJoin | src/content/folderSummary.js:1865 | splitting joined space-free pieces gives them back |
| Keywords.KeywordsOfJoin | src/content/folderSummary.js:1859-1868 | the keywords of a joined list of tag keys are exactly those keys |

## Left out

- Rendering:
  - every DOM and canvas operation, including the `render` bodies, the `_make*Item` builders and `TagDotsWidget._render`;
  - the sparkline's scale, a floating-point `Math.max` division (`Render` takes the tallest bar as a parameter);
  - `subsetData` and the context-menu, compose, clipboard and filter handlers;
  - the message-count text and the vertical-layout class in `summarize`.
- `TagDotsWidget._tagComparator`: it sums tag objects and returns a boolean.
- `TagDots.TagDotsWidget.Render`, `TagDots.TagDotsWidget.Update`: when the chart is drawn, `_render` sorts `this.dots` in place with `_tagComparator` (line 1798). The model keeps the dots in their order. The later first-dot searches (1669-1670, 1686-1689) see that sorted order in the source, which the model does not capture.
- `TagDots.TagDotsWidget.UpdateMessageTags`: it follows the corrected `Retag`, which drops a dot once no known tag is left, while lines 1710-1711 keep it until the keywords string is empty. `RetagAsWritten` models the code as written (see Findings).
- Host services are inputs rather than calls.
  - The folder's messages (`listAllKeys`, `GetMsgHdrForKey`, the view's rows), whether the view's search is done, the clock and the folder's total all come in a `Host` value.
  - The thread of a message (`GetThreadContainingMsgHdr`) is a `Thread` parameter.
  - Parsed address lists are message fields; `makeMailboxObject("", email)` is an address with an empty name. Whether the decoded To string is empty is the field `hasTo`, since a To string can be non-empty and still parse to no address.
  - Whether a notification's folder list holds the folder (the `nsIArray` test in `observe`) is a boolean.
  - Whether a message is in the virtual view (`findIndexOfMsgHdr`) is a boolean.
  - Listener and observer registration, and the folder display listener, are flags.
- Timers.
  - The batch timer is a pending flag; `Tick` is its firing.
  - Each `processFolder(true)` timer is counted, without coalescing; `RunDeferred` is one of them firing.
  - The order in which the host fires pending timers is not modelled.
  - The timing log is left out.
- `Stats.AccumulatingHistogram` and `bin_by_day` are not part of this model: a histogram is the multiset of its dates, and day binning is not modelled.
- `Stats.MRUArray` is not part of this model.
  - A thread's histogram is found by its thread key. The source keeps it on the cache entry, so an entry the cache evicts loses its histogram; the model does not capture eviction.
  - The widgets record the requests they send it.
  - They take its answers (an index, the result of `remove`, the rows it lists) as parameters.
- `for (let key in ...)` enumeration order is a parameter of `Render`.
- JavaScript object identity of message headers is the message key.
- Exceptions.
  - The `try`/`catch` blocks of the change handlers and the `isKilled` getter are not modelled.
  - Neither is a `QueryInterface` failure on a non-message item.
  - Calling a widget hook after `uninit`, which throws in the source, is excluded by `requires ready`.
- Numbers are unbounded integers, so JavaScript double rounding of dates and comparator differences is not modelled.
- The maps and sets keyed by strings do not model the inherited properties of plain JavaScript objects. Keys are assumed not to collide with `Object.prototype` properties. An address keyed `constructor` or `__proto__` would find a truthy entry at 844-845 and throw at 851. A tag keyed `constructor` would be `in` every keyword object at 1656, 1665 and 1703.
- `Ordering.SortBy`: it states the order by key and the permutation, not the order of ties. `Array.prototype.sort` is stable, so which of several equally dated messages survive the cut to 1000 is left open.
- The widgets are not run as the engine's analyzers. The engine sees an analyzer as the set of hooks it implements plus the `Reply` oracle; `Suite` ties those descriptions to the five widgets.
- `EngineProperties.Drain`: a pass is drained with a fuel bound. A bound of the batch length suffices, so nothing is lost.
- Localisation (`formatString`), `debugLog` and the whole of `src/api/mailsummaries.js`: these are window and extension glue around host services.
- The source sets `minDate`, `loading` and calls `init` in the worker's first step, not in `_processMessages` itself. That first step runs synchronously inside `_processMessages`, so the model does it there.
- `Engine.*` transitions: their own contracts state only that they preserve the invariant. What they do is stated by the `EngineProperties` and `Suite` lemmas and by the `Summary.FolderSummary` methods built against them. For a virtual folder whose view is ready, a deferred `processFolder(true)` is stated only as far as `ProcessFolderStarts` goes, not run to its end as in `RunDeferredRestarts`.

## Findings

| source | as written | input that shows it | evidently intended | confidence | as-written member | corrected member |
|---|---|---|---|---|---|---|
| src/content/folderSummary.js:1708-1711 | `updateMessageTags` drops a message's dot only when its keyword string is empty | message 7 has a dot with tag `$label1` (count 1), and its keywords change to `nonjunk`, which names no known tag: the dot stays with no tags, while `$label1` counts 0 | drop the dot when no known tag is left, as `processMessage` (1661-1662) never makes a dot without tags | not executed | TagDots.RetagAsWrittenLeavesEmptyDot | TagDots.RetagKeepsConsistent |
