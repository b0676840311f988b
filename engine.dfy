/**
 * The folder summary as a state machine: the current folder, the registered
 * analyzers, the loading flag, the view modes, the resumable batch pass, the
 * pending timers and the listener registrations, with one transition per
 * operation. Everything the host answers (the folder's messages, whether the
 * view's search is done, the clock, the message count) comes in as a `Host`
 * value; what the analyzers answer comes from the `Reply` oracle, and every
 * call into them is appended to `log`.
 */
module Engine {
  import opened Mail
  import opened Modes
  import opened Dispatch
  import Batch
  import Ordering

  /** What the host reports when the summary asks. */
  datatype Host = Host(
    messages: seq<Message>,   // the folder's (or the view's) message headers, in any order
    viewReady: bool,          // `gFolderDisplay.view.dbView && !gFolderDisplay.view.searching`
    nowMs: int,               // `Date.now()`
    total: int)               // `folder.getTotalMessages(false)`

  /** The observer topics the summary subscribes to. */
  datatype Topic = MarkAllReadStarted | MarkAllReadFinished | OtherTopic

  /** The message properties `OnItemPropertyFlagChanged` distinguishes. */
  datatype Property = Keywords | Status | OtherProperty

  /** The folder properties `OnItemIntPropertyChanged` distinguishes. */
  datatype IntProperty = TotalMessages | TotalUnreadMessages | OtherIntProperty

  /** The batch pass: the worker's progress, its timer, and the reprocess timers it left behind. */
  datatype Pass = Pass(
    loading: bool,             // `loading`
    minDate: Option<int>,      // `minDate`, unset until the first batch pass
    batch: seq<Message>,       // the messages the worker goes through
    cursor: nat,               // where the worker resumes
    tickPending: bool,         // a `defer` timer is scheduled and not cleared
    deferred: nat)             // scheduled `processFolder(true)` timers

  /** What the summary has registered with the host. */
  datatype Wiring = Wiring(
    listening: bool,           // folder and database listeners
    observing: bool,           // mark-all-read observers
    awaitingLoad: bool)        // the folder display listener

  datatype EngineState = EngineState(
    analyzers: seq<Analyzer>,  // `_analyzers`, in registration order
    folder: Option<Folder>,    // `folder`
    modes: seq<Mode>,          // `_modes`
    pass: Pass,
    wiring: Wiring,
    log: seq<Call>)            // every call made into an analyzer, oldest first

  /** The summary as constructed: no analyzer, no folder, all modes off. */
  const Initial: EngineState :=
    EngineState([], None, InitialModes, Pass(false, None, [], 0, false, 0), Wiring(false, false, false), [])

  /** What every reachable state satisfies. */
  predicate Inv(st: EngineState) {
    && WellFormed(st.modes)
    && st.pass.cursor <= |st.pass.batch| <= Batch.MaxMessages
    && (st.pass.tickPending ==> st.pass.cursor < |st.pass.batch|)
  }

  lemma InitialInv()
    ensures Inv(Initial)
  {
  }

  /** `registerAnalyzer`: appends the analyzer and calls its `onregistered`. */
  function RegisterAnalyzer(st: EngineState, an: Analyzer): (r: EngineState)
    ensures r.analyzers == st.analyzers + [an]
    ensures r.log == st.log + [Registered(|st.analyzers|)]
    ensures Inv(st) ==> Inv(r)
  {
    st.(analyzers := st.analyzers + [an], log := st.log + [Registered(|st.analyzers|)])
  }

  /**
   * `_setMode`: sets the named mode's flag (which mode is then shown,
   * `Shown`, follows from the flags alone).
   */
  function SetMode(st: EngineState, name: ModeName, en: bool): (r: EngineState)
    ensures r.modes == Enable(st.modes, name, en)
    ensures r == st.(modes := r.modes)
    ensures Inv(st) ==> Inv(r)
  {
    var modes := Enable(st.modes, name, en);
    if WellFormed(st.modes) then
      EnableWellFormed(st.modes, name, en);
      st.(modes := modes)
    else st.(modes := modes)
  }

  /** One lifecycle call (`init`, `uninit`, `render` or `update`) to every analyzer that has it. */
  function NotifyAll(st: EngineState, n: Notice): (r: EngineState)
    ensures r == st.(log := st.log + Broadcast(st.analyzers, n))
    ensures Inv(st) ==> Inv(r)
  {
    st.(log := st.log + Broadcast(st.analyzers, n))
  }

  /** `cancelProcessing`: clears the batch timer (the generator is abandoned). */
  function CancelProcessing(st: EngineState): (r: EngineState)
    ensures !r.pass.tickPending && r == st.(pass := st.pass.(tickPending := false))
    ensures Inv(st) ==> Inv(r)
  {
    st.(pass := st.pass.(tickPending := false))
  }

  /** The mode logic of `updateMessageCounts`: the empty mode is on exactly when the folder has no messages. */
  function UpdateMessageCounts(st: EngineState, total: int): (r: EngineState)
    ensures Inv(st) ==> Inv(r) && r.modes[1].enabled == (total == 0)
    ensures Inv(st) ==> r.modes[0] == st.modes[0] && r.modes[2] == st.modes[2]
  {
    SetMode(st, Empty, total == 0)
  }

  /**
   * `_processMessage`: dispatches the message to the analyzers; a reprocess
   * request schedules one more `processFolder(true)`.
   */
  function ProcessMessage(reply: Reply, st: EngineState, m: Message, deleted: bool): (r: (EngineState, bool))
    ensures r.1 == DispatchMessage(reply, st.log, st.analyzers, st.pass.minDate, m, deleted).reprocess
    ensures r.0.pass.deferred == st.pass.deferred + if r.1 then 1 else 0
    ensures Inv(st) ==> Inv(r.0)
  {
    var o := DispatchMessage(reply, st.log, st.analyzers, st.pass.minDate, m, deleted);
    (st.(log := st.log + o.calls, pass := st.pass.(deferred := st.pass.deferred + if o.reprocess then 1 else 0)), o.reprocess)
  }

  /**
   * One run of the batch worker from `cursor`: it dispatches the messages up
   * to the next yield point and then either stops after a message that asked
   * for a reprocess (leaving `loading` on), yields (scheduling the next run
   * and, on the first run only, switching the loading mode on), or finishes
   * (loading mode off, content mode on, every analyzer rendered, `loading`
   * off).
   */
  function Chunk(reply: Reply, st: EngineState, first: bool): (r: EngineState)
    requires st.pass.cursor <= |st.pass.batch|
    ensures Inv(st) ==> Inv(r)
  {
    var p := st.pass;
    var end := Batch.NextYield(p.cursor, |p.batch|);
    var run := DispatchRun(reply, st.log, st.analyzers, p.minDate, p.batch[p.cursor..end]);
    var st1 := st.(log := st.log + run.calls);
    if run.reprocess then st1.(pass := p.(deferred := p.deferred + 1, tickPending := false))
    else if end < |p.batch| then Yield(st1, end, first)
    else Finish(st1)
  }

  /** The worker yields before message `end`: the next run is scheduled. */
  function Yield(st: EngineState, end: nat, first: bool): (r: EngineState)
    requires end < |st.pass.batch|
    ensures Inv(st) ==> Inv(r)
  {
    var st1 := if first then SetMode(st, Loading, true) else st;
    st1.(pass := st.pass.(cursor := end, tickPending := true))
  }

  /** The worker's epilogue: loading mode off, content mode on, every analyzer rendered, `loading` off. */
  function Finish(st: EngineState): (r: EngineState)
    ensures Inv(st) ==> Inv(r)
  {
    var st1 := SetMode(SetMode(st, Loading, false), Content, true);
    NotifyAll(st1, RenderN).(pass := st.pass.(loading := false, tickPending := false))
  }

  /**
   * `_processMessages` on messages sorted newest first: keeps the first
   * thousand, cancels the previous batch, and starts the worker, which sets
   * `minDate` and `loading` and calls `init` on every analyzer before its
   * first run.
   */
  function ProcessMessages(reply: Reply, st: EngineState, sorted: seq<Message>, nowMs: int): (r: EngineState)
    ensures Inv(st) ==> Inv(r)
  {
    var batch := Ordering.Take(sorted, Batch.MaxMessages);
    var p := Pass(true, Some(MinDate(nowMs)), batch, 0, false, st.pass.deferred);
    Chunk(reply, NotifyAll(st.(pass := p), InitN), true)
  }

  /** `onMessagesLoaded`: unregisters from the display listener and processes the view's messages, newest first. */
  function MessagesLoaded(reply: Reply, st: EngineState, host: Host): (r: EngineState)
    ensures Inv(st) ==> Inv(r)
  {
    ProcessMessages(reply, st.(wiring := st.wiring.(awaitingLoad := false)), Ordering.SortBy(Batch.DateOf, host.messages), host.nowMs)
  }

  /**
   * `processFolder`: optionally uninits every analyzer; then a virtual
   * folder whose view is ready is processed at once, one whose view is not
   * waits for the display listener with the loading mode on, and a regular
   * folder's messages are processed newest first. With no folder the
   * virtual-folder test throws, after the uninit calls.
   */
  function ProcessFolder(reply: Reply, st: EngineState, uninit: bool, host: Host): (r: EngineState)
    ensures Inv(st) ==> Inv(r)
  {
    var st1 := if uninit then NotifyAll(st, UninitN) else st;
    match st1.folder
    case None => st1
    case Some(f) =>
      if f.isVirtual then
        if host.viewReady then MessagesLoaded(reply, st1, host)
        else SetMode(st1.(wiring := st1.wiring.(awaitingLoad := true)), Loading, true)
      else
        ProcessMessages(reply, st1, Ordering.SortBy(Batch.DateOf, host.messages), host.nowMs)
  }

  /** The batch timer fires: the worker resumes where it yielded. */
  function Tick(reply: Reply, st: EngineState): (r: EngineState)
    requires Inv(st) && st.pass.tickPending
    ensures Inv(r)
  {
    Chunk(reply, CancelProcessing(st), false)
  }

  /** A deferred `processFolder(true)` timer fires. */
  function RunDeferred(reply: Reply, st: EngineState, host: Host): (r: EngineState)
    requires st.pass.deferred > 0
    ensures Inv(st) ==> Inv(r)
  {
    ProcessFolder(reply, st.(pass := st.pass.(deferred := st.pass.deferred - 1)), true, host)
  }

  /** `_onUnload`: cancels the batch, uninits every analyzer, unregisters, forgets the folder. */
  function OnUnload(st: EngineState): (r: EngineState)
    requires st.folder.Some?
    ensures Inv(st) ==> Inv(r)
  {
    NotifyAll(CancelProcessing(st), UninitN).(folder := None, wiring := st.wiring.(listening := false, observing := false))
  }

  /**
   * `summarize`: nothing for the folder already summarized; otherwise tears
   * down the previous folder if any, takes the new one, updates the counts,
   * registers the listeners, processes the folder and adds the observers.
   */
  function Summarize(reply: Reply, st: EngineState, f: Folder, host: Host): (r: EngineState)
    ensures Inv(st) ==> Inv(r)
  {
    if st.folder == Some(f) then st
    else
      var r := ProcessFolder(reply, Switch(st, f, host.total), false, host);
      r.(wiring := r.wiring.(observing := true))
  }

  /** The part of `summarize` before the folder is processed: teardown, the new folder, its counts, the listeners. */
  function Switch(st: EngineState, f: Folder, total: int): (r: EngineState)
    ensures Inv(st) ==> Inv(r)
  {
    var st1 := if st.folder.Some? then OnUnload(st) else st;
    var st2 := UpdateMessageCounts(st1.(folder := Some(f)), total);
    st2.(wiring := st2.wiring.(listening := true))
  }

  /** `_updateAnalyzers`: `update` on every analyzer that has it, unless a batch is loading. */
  function UpdateAnalyzers(st: EngineState): (r: EngineState)
    ensures Inv(st) ==> Inv(r)
  {
    if st.pass.loading then st else NotifyAll(st, UpdateN)
  }

  /** `onHdrAdded`: dispatch as an addition, then update unless a reprocess was requested. */
  function OnHdrAdded(reply: Reply, st: EngineState, m: Message): (r: EngineState)
    ensures Inv(st) ==> Inv(r)
  {
    var (st1, reprocess) := ProcessMessage(reply, st, m, false);
    if reprocess then st1 else UpdateAnalyzers(st1)
  }

  /** `onHdrDeleted`: dispatch as a deletion, then update unless a reprocess was requested. */
  function OnHdrDeleted(reply: Reply, st: EngineState, m: Message): (r: EngineState)
    ensures Inv(st) ==> Inv(r)
  {
    var (st1, reprocess) := ProcessMessage(reply, st, m, true);
    if reprocess then st1 else UpdateAnalyzers(st1)
  }

  /**
   * A hook loop outside the batch (`updateMessageFlags` or
   * `updateMessageTags`): the first true answer reprocesses the folder at
   * once; otherwise the analyzers are updated.
   */
  function OfferOrUpdate(reply: Reply, st: EngineState, ev: Event, host: Host): (r: EngineState)
    ensures Inv(st) ==> Inv(r)
  {
    var o := Offer(reply, st.log, st.analyzers, ev, 0);
    var st1 := st.(log := st.log + o.calls);
    if o.reprocess then ProcessFolder(reply, st1, true, host) else UpdateAnalyzers(st1)
  }

  /**
   * `onHdrFlagsChanged`: clearing the Ignored bit adds the message, setting
   * it deletes the message, and any other change goes to `updateMessageFlags`.
   */
  function OnHdrFlagsChanged(reply: Reply, st: EngineState, m: Message, oldFlags: Flags, newFlags: Flags, host: Host): (r: EngineState)
    ensures Inv(st) ==> Inv(r)
  {
    if HasFlag(oldFlags, IGNORED) && !HasFlag(newFlags, IGNORED) then OnHdrAdded(reply, st, m)
    else if !HasFlag(oldFlags, IGNORED) && HasFlag(newFlags, IGNORED) then OnHdrDeleted(reply, st, m)
    else OfferOrUpdate(reply, st, FlagsEv(m, oldFlags, newFlags), host)
  }

  /**
   * `OnItemPropertyFlagChanged`: a keywords change goes to
   * `updateMessageTags`; a status change in a virtual folder is handled as a
   * flags change when the message is in the view (`inView`).
   */
  function OnItemPropertyFlagChanged(reply: Reply, st: EngineState, m: Message, property: Property,
                                     oldFlags: Flags, newFlags: Flags, inView: bool, host: Host): (r: EngineState)
    ensures Inv(st) ==> Inv(r)
  {
    match property
    case Keywords => OfferOrUpdate(reply, st, TagsEv(m), host)
    case Status =>
      if st.folder.Some? && st.folder.value.isVirtual && inView then OnHdrFlagsChanged(reply, st, m, oldFlags, newFlags, host)
      else st
    case OtherProperty => st
  }

  /**
   * `observe`, for a notification whose folder list does (`inSubject`) or
   * does not include the current folder: mark-all-read starting cancels the
   * batch and unregisters; finishing registers again, reprocesses and
   * updates the counts.
   */
  function Observe(reply: Reply, st: EngineState, inSubject: bool, topic: Topic, host: Host): (r: EngineState)
    ensures Inv(st) ==> Inv(r)
  {
    if !inSubject then st
    else match topic
      case MarkAllReadStarted => CancelProcessing(st).(wiring := st.wiring.(listening := false))
      case MarkAllReadFinished =>
        UpdateMessageCounts(ProcessFolder(reply, st.(wiring := st.wiring.(listening := true)), true, host), host.total)
      case OtherTopic => st
  }

  /** `OnItemIntPropertyChanged`: a change of the current folder's message counts updates them. */
  function OnItemIntPropertyChanged(st: EngineState, item: Folder, property: IntProperty, total: int): (r: EngineState)
    ensures Inv(st) ==> Inv(r)
  {
    if st.folder == Some(item) && property != OtherIntProperty then UpdateMessageCounts(st, total) else st
  }

  /** `OnItemAdded`: a message added to the current folder. */
  function OnItemAdded(reply: Reply, st: EngineState, parent: Folder, m: Message): (r: EngineState)
    ensures Inv(st) ==> Inv(r)
  {
    if st.folder == Some(parent) then OnHdrAdded(reply, st, m) else st
  }

  /** `OnItemRemoved`: a message removed from the current folder. */
  function OnItemRemoved(reply: Reply, st: EngineState, parent: Folder, m: Message): (r: EngineState)
    ensures Inv(st) ==> Inv(r)
  {
    if st.folder == Some(parent) then OnHdrDeleted(reply, st, m) else st
  }
}
