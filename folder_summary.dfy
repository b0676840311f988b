/**
 * The `FolderSummary` object itself: the fields the page's script updates in
 * place and one method per operation, each written as the source's loops
 * and branches and proved to take the object from `State()` to the state the
 * `Engine` transition of the same name computes. The properties of those
 * transitions are proved in `EngineProperties` and `Suite`.
 */
module Summary {
  import opened Mail
  import opened Modes
  import opened Dispatch
  import Batch
  import Ordering
  import Engine

  /** The lifecycle calls `n` makes, one per position in `rs`. */
  function Notices(rs: seq<nat>, n: Notice): (r: seq<Call>)
    ensures |r| == |rs|
  {
    seq(|rs|, k requires 0 <= k < |rs| => Notify(rs[k], n))
  }

  /** The broadcast is the notices of every receiver. */
  lemma NoticesOfAll(analyzers: seq<Analyzer>, n: Notice)
    ensures Notices(Receivers(analyzers, n, 0), n) == Broadcast(analyzers, n)
  {
  }

  /** Peeling the analyzer at position `i` off the receivers from `i` on. */
  lemma NoticesStep(analyzers: seq<Analyzer>, n: Notice, i: nat)
    requires i < |analyzers|
    ensures Notices(Receivers(analyzers, n, i), n)
            == (if Receives(analyzers[i], n) then [Notify(i, n)] else []) + Notices(Receivers(analyzers, n, i + 1), n)
  {
    var rest := Receivers(analyzers, n, i + 1);
    if Receives(analyzers[i], n) {
      assert Receivers(analyzers, n, i) == [i] + rest;
      assert Notices([i] + rest, n) == [Notify(i, n)] + Notices(rest, n);
    } else {
      assert Receivers(analyzers, n, i) == rest;
    }
  }

  /** The rest of a batch pass from message `k`: that message's dispatch, then the rest unless it asked for a reprocess. */
  lemma RunStep(reply: Reply, log: seq<Call>, analyzers: seq<Analyzer>, minDate: Option<int>,
                batch: seq<Message>, k: nat, end: nat)
    requires k < end <= |batch|
    ensures var o := DispatchMessage(reply, log, analyzers, minDate, batch[k], false);
            var r := DispatchRun(reply, log, analyzers, minDate, batch[k..end]);
            var rest := DispatchRun(reply, log + o.calls, analyzers, minDate, batch[k + 1..end]);
            if o.reprocess then r.calls == o.calls && r.reprocess
            else r.calls == o.calls + rest.calls && r.reprocess == rest.reprocess
  {
    assert batch[k..end] == [batch[k]] + batch[k + 1..end];
    var o := DispatchMessage(reply, log, analyzers, minDate, batch[k], false);
    if !o.reprocess {
      RunCons(DispatchStep(reply, analyzers, minDate), log, batch[k], batch[k + 1..end]);
    }
  }

  /** Nothing is left of a batch pass that reached the end of its chunk. */
  lemma RunEmpty(reply: Reply, log: seq<Call>, analyzers: seq<Analyzer>, minDate: Option<int>,
                 batch: seq<Message>, k: nat, end: nat)
    requires k == end <= |batch|
    ensures DispatchRun(reply, log, analyzers, minDate, batch[k..end]) == RunOutcome([], 0, false)
  {
    assert batch[k..end] == [];
  }

  /** Until it reaches a yield point, the generator stays within the current chunk. */
  lemma WithinChunk(start: nat, k: nat, n: nat)
    requires start <= k < n && k <= Batch.NextYield(start, n)
    requires !(k > start && Batch.YieldsBefore(k))
    ensures k + 1 <= Batch.NextYield(start, n)
  {
  }

  /** The generator yields exactly at the end of the current chunk. */
  lemma YieldEndsChunk(start: nat, k: nat, n: nat)
    requires start < k < n && k <= Batch.NextYield(start, n)
    requires Batch.YieldsBefore(k)
    ensures k == Batch.NextYield(start, n)
  {
  }

  /** No mode before position `i` is enabled. */
  predicate NoneEnabledBefore(ms: seq<Mode>, i: nat)
    requires i <= |ms|
  {
    forall k :: 0 <= k < i ==> !ms[k].enabled
  }

  /** A mode after `_setMode(name, en)` has looked at it. */
  function Renamed(m: Mode, name: ModeName, en: bool): Mode {
    if m.name == name then m.(enabled := en) else m
  }

  /** Setting the flag mode by mode is `Enable`. */
  lemma EnableOf(modes: seq<Mode>, ms: seq<Mode>, name: ModeName, en: bool)
    requires |ms| == |modes|
    requires forall j :: 0 <= j < |ms| ==> ms[j] == Renamed(modes[j], name, en)
    ensures ms == Enable(modes, name, en)
  {
  }

  /** Elements shown exactly for the first enabled mode are `Visibility`. */
  lemma VisibilityOf(ms: seq<Mode>, shown: seq<bool>)
    requires |shown| == |ms|
    requires forall j :: 0 <= j < |ms| ==> shown[j] == (ms[j].enabled && NoneEnabledBefore(ms, j))
    ensures shown == Visibility(ms)
  {
  }

  /**
   * The loop of `_setMode`: sets the flag of the named mode and un-hides the
   * elements of the first enabled mode, hiding all others.
   */
  method WalkModes(modes: seq<Mode>, visible: seq<bool>, name: ModeName, en: bool) returns (ms: seq<Mode>, shown: seq<bool>)
    requires |visible| == |modes|
    ensures ms == Enable(modes, name, en) && shown == Visibility(ms)
  {
    ms := modes;
    shown := visible;
    var foundActive := false;
    var i := 0;
    while i < |ms|
      invariant 0 <= i <= |ms| == |modes| == |shown|
      invariant forall j :: 0 <= j < i ==> ms[j] == Renamed(modes[j], name, en)
      invariant forall j :: i <= j < |ms| ==> ms[j] == modes[j]
      invariant !foundActive <==> NoneEnabledBefore(ms, i)
      invariant forall j :: 0 <= j < i ==> shown[j] == (ms[j].enabled && NoneEnabledBefore(ms, j))
    {
      if ms[i].name == name {
        ms := ms[i := ms[i].(enabled := en)];
      }
      if !foundActive && ms[i].enabled {
        foundActive := true;
        shown := shown[i := true];
      } else {
        shown := shown[i := false];
      }
      i := i + 1;
    }
    VisibilityOf(ms, shown);
    EnableOf(modes, ms, name, en);
  }

  /** For the three modes, whether each one's elements are shown: only the first enabled one's are. */
  function ShownFlags(ms: seq<Mode>): (v: seq<bool>)
    requires |ms| == 3
    ensures v == Visibility(ms)
  {
    [ms[0].enabled, !ms[0].enabled && ms[1].enabled, !ms[0].enabled && !ms[1].enabled && ms[2].enabled]
  }

  class FolderSummary {
    /** What the registered analyzers' hooks answer. */
    const reply: Reply

    /** `_analyzers`, in registration order. */
    var analyzers: seq<Analyzer>
    /** `folder`. */
    var folder: Option<Folder>
    /** `_modes`. */
    var modes: seq<Mode>
    /** For each mode, whether its `mode_<name>` elements are not hidden. */
    var visible: seq<bool>
    /**
     * `loading`, `minDate`, the batch generator's messages and position,
     * whether `_timeoutId` names a live timer, and the scheduled
     * `processFolder(true)` timers.
     */
    var pass: Engine.Pass
    /** The listener and observer registrations. */
    var wiring: Engine.Wiring
    /** Every call made into an analyzer, oldest first. */
    var log: seq<Call>

    /** The object's fields as an `Engine` state. */
    function State(): Engine.EngineState
      reads this
    {
      Engine.EngineState(analyzers, folder, modes,
pass, wiring, log)
    }

    /** The state invariant, and the shown elements agree with the mode flags. */
    predicate Valid()
      reads this
    {
      Engine.Inv(State()) && visible == ShownFlags(modes)
    }

    /** `new FolderSummary()`: no analyzer, no folder, every mode off. */
    constructor(reply: Reply)
      ensures Valid() && State() == Engine.Initial && this.reply == reply
    {
      this.reply := reply;
      analyzers := [];
      folder := None;
      modes := InitialModes;
      visible := [false, false, false];
      pass := Engine.Pass(false, None, [], 0, false, 0);
      wiring := Engine.Wiring(false, false, false);
      log := [];
      new;
      assert Visibility(modes) == [false, false, false];
    }

    /**
     * `_setMode`: walks the modes in priority order, setting the flag of the
     * named one, and shows the elements of the first enabled mode only.
     */
    method SetMode(name: ModeName, en: bool)
      requires Valid()
      modifies this
      ensures Valid() && State() == Engine.SetMode(old(State()), name, en)
    {
      modes, visible := WalkModes(modes, visible, name, en);
    }

    /** `for (let analyzer of this._analyzers) analyzer.<n>()`, skipping analyzers without an optional `update`. */
    method NotifyAll(n: Notice)
      requires Valid()
      modifies this
      ensures Valid() && State() == Engine.NotifyAll(old(State()), n)
    {
      ghost var s0 := State();
      NoticesOfAll(analyzers, n);
      for i := 0 to |analyzers|
        invariant State() == s0.(log := log) && visible == old(visible)
        invariant log + Notices(Receivers(analyzers, n, i), n) == s0.log + Broadcast(analyzers, n)
      {
        NoticesStep(analyzers, n, i);
        if Receives(analyzers[i], n) {
          log := log + [Notify(i, n)];
        }
      }
      assert log + [] == log;
    }

    /**
     * One hook loop: calls the hook of `ev` on every analyzer that has it, in
     * order, and stops at the first that answers true.
     */
    method CallHooks(ev: Event) returns (reprocess: bool)
      requires Valid()
      modifies this
      ensures var o := Offer(reply, old(log), analyzers, ev, 0);
              Valid() && State() == old(State()).(log := old(log) + o.calls) && reprocess == o.reprocess
    {
      ghost var s0 := State();
      ghost var o := Offer(reply, log, analyzers, ev, 0);
      var i := 0;
      while i < |analyzers|
        invariant i <= |analyzers|
        invariant State() == s0.(log := log) && visible == old(visible)
        invariant s0.log + o.calls == log + Offer(reply, log, analyzers, ev, i).calls
        invariant o.reprocess == Offer(reply, log, analyzers, ev, i).reprocess
      {
        if Handles(analyzers[i], ev) {
          var answer := reply(log, Hook(i, ev));
          ghost var rest := Offer(reply, log + [Hook(i, ev)], analyzers, ev, i + 1);
          log := log + [Hook(i, ev)];
          if answer {
            return true;
          }
          assert s0.log + o.calls == log + rest.calls;
        }
        i := i + 1;
      }
      assert log + [] == log;
      return false;
    }

    /** `registerAnalyzer`: appends the analyzer and calls its `onregistered`. */
    method RegisterAnalyzer(an: Analyzer)
      requires Valid()
      modifies this
      ensures Valid() && State() == Engine.RegisterAnalyzer(old(State()), an)
    {
      log := log + [Registered(|analyzers|)];
      analyzers := analyzers + [an];
    }

    /** `cancelProcessing`: clears the batch timer. */
    method CancelProcessing()
      requires Valid()
      modifies this
      ensures Valid() && State() == Engine.CancelProcessing(old(State()))
    {
      pass := pass.(tickPending := false);
    }

    /**
     * `_processMessage`: skips a killed message unless it is being deleted;
     * offers a recent message to `processRecentMessage`, then every message to
     * `processMessage`, and schedules a reprocess when either loop asked.
     */
    method ProcessMessage(m: Message, deleted: bool) returns (reprocess: bool)
      requires Valid()
      modifies this
      ensures Valid()
      ensures var o := DispatchMessage(reply, old(log), analyzers, pass.minDate, m, deleted);
              && reprocess == o.reprocess
              && State() == old(State()).(log := old(log) + o.calls, pass := old(State()).pass.(deferred := pass.deferred))
              && pass.deferred == old(pass.deferred) + (if reprocess then 1 else 0)
    {
      if m.isKilled && !deleted {
        assert log + [] == log;
        return false;
      }
      ghost var log0 := log;
      reprocess := false;
      if IsRecent(m, pass.minDate) {
        reprocess := CallHooks(RecentEv(m, deleted));
      } else {
        assert log0 + [] == log0;
      }
      ghost var log1 := log;
      var processed := CallHooks(ProcessEv(m, deleted));
      assert log == log0 + ((log1[|log0|..]) + log[|log1|..]);
      reprocess := reprocess || processed;
      if reprocess {
        pass := pass.(deferred := pass.deferred + 1);
      }
    }

    /**
     * One turn of the batch generator: `_processMessage(message, false)` on
     * the message at `k`, which leaves the rest of the chunk to run from the
     * grown log unless it asked for a reprocess.
     */
    method Advance(k: nat, ghost end: nat) returns (reprocess: bool)
      requires Valid() && k < end <= |pass.batch|
      modifies this
      ensures Valid()
      ensures State() == old(State()).(log := log, pass := old(State()).pass.(deferred := pass.deferred))
      ensures pass.deferred == old(pass.deferred) + (if reprocess then 1 else 0)
      ensures var r := DispatchRun(reply, old(log), analyzers, pass.minDate, pass.batch[k..end]);
              var rest := DispatchRun(reply, log, analyzers, pass.minDate, pass.batch[k + 1..end]);
              && (reprocess ==> r.reprocess && log == old(log) + r.calls)
              && (!reprocess ==> r.reprocess == rest.reprocess && old(log) + r.calls == log + rest.calls)
    {
      RunStep(reply, log, analyzers, pass.minDate, pass.batch, k, end);
      reprocess := ProcessMessage(pass.batch[k], false);
    }

    /**
     * The batch generator's run from where it stands: before each message
     * after the first it checks whether the generator yields there, and it stops right
     * after a message that asked for a reprocess. Returns where it stopped.
     */
    method Work() returns (k: nat, reprocess: bool)
      requires Valid()
      modifies this
      ensures Valid()
      ensures var end := Batch.NextYield(pass.cursor, |pass.batch|);
              var run := DispatchRun(reply, old(log), analyzers, pass.minDate, pass.batch[pass.cursor..end]);
              && reprocess == run.reprocess && log == old(log) + run.calls
              && (!reprocess ==> k == end)
              && State() == old(State()).(log := log, pass := old(State()).pass.(deferred := pass.deferred))
              && pass.deferred == old(pass.deferred) + (if reprocess then 1 else 0)
    {
      ghost var s0 := State();
      var start := pass.cursor;
      ghost var end := Batch.NextYield(start, |pass.batch|);
      ghost var whole := DispatchRun(reply, s0.log, analyzers, pass.minDate, pass.batch[start..end]);
      k := start;
      reprocess := false;
      assert log + [] == log;
      while k < |pass.batch|
        invariant start <= k <= end && Valid()
        invariant State() == s0.(log := log)
        invariant var rest := DispatchRun(reply, log, analyzers, pass.minDate, pass.batch[k..end]);
                  s0.log + whole.calls == log + rest.calls && whole.reprocess == rest.reprocess
      {
        if k > start && Batch.YieldsBefore(k) {
          YieldEndsChunk(start, k, |pass.batch|);
          break;
        }
        WithinChunk(start, k, |pass.batch|);
        reprocess := Advance(k, end);
        k := k + 1;
        if reprocess {
          return;
        }
      }
      RunEmpty(reply, log, analyzers, pass.minDate, pass.batch, k, end);
    }

    /**
     * `defer(first)`: runs the batch generator. One that stopped for a
     * reprocess is dropped; one that yielded is scheduled again (and on the
     * first run switches the loading mode on); one that reached the end hides
     * the loading mode, shows the content, renders every analyzer and clears
     * `loading`.
     */
    method Defer(first: bool)
      requires Valid()
      modifies this
      ensures Valid() && State() == Engine.Chunk(reply, old(State()), first)
    {
      var end, reprocess := Work();
      if reprocess {
        pass := pass.(tickPending := false);
      } else if end < |pass.batch| {
        if first {
          SetMode(Loading, true);
        }
        pass := pass.(cursor := end, tickPending := true);
      } else {
        SetMode(Loading, false);
        SetMode(Content, true);
        NotifyAll(RenderN);
        pass := pass.(loading := false, tickPending := false);
      }
    }

    /**
     * `_processMessages` on messages sorted newest first: keeps the first
     * thousand, cancels the running batch, and starts the generator, which
     * sets `minDate` and `loading` and calls `init` on every analyzer before
     * its first run.
     */
    method ProcessMessages(sorted: seq<Message>, nowMs: int)
      requires Valid()
      modifies this
      ensures Valid() && State() == Engine.ProcessMessages(reply, old(State()), sorted, nowMs)
    {
      var messages := sorted;
      if |messages| > Batch.MaxMessages {
        messages := messages[..Batch.MaxMessages];
      }
      CancelProcessing();
      pass := pass.(minDate := Some(MinDate(nowMs)), loading := true, batch := messages, cursor := 0);
      NotifyAll(InitN);
      Defer(true);
    }

    /** `onMessagesLoaded`: unregisters from the display listener and processes the view's messages, newest first. */
    method OnMessagesLoaded(host: Engine.Host)
      requires Valid()
      modifies this
      ensures Valid() && State() == Engine.MessagesLoaded(reply, old(State()), host)
    {
      wiring := wiring.(awaitingLoad := false);
      ProcessMessages(Ordering.SortBy(Batch.DateOf, host.messages), host.nowMs);
    }

    /**
     * `processFolder`: optionally uninits every analyzer, then processes a
     * virtual folder at once if its view is ready and otherwise waits for it
     * with the loading mode on, and processes a regular folder's messages
     * newest first. With no folder it stops after the uninit calls.
     */
    method ProcessFolder(uninit: bool, host: Engine.Host)
      requires Valid()
      modifies this
      ensures Valid() && State() == Engine.ProcessFolder(reply, old(State()), uninit, host)
    {
      if uninit {
        NotifyAll(UninitN);
      }
      if folder.None? {
        return;
      }
      if folder.value.isVirtual {
        if host.viewReady {
          OnMessagesLoaded(host);
        } else {
          wiring := wiring.(awaitingLoad := true);
          SetMode(Loading, true);
        }
      } else {
        ProcessMessages(Ordering.SortBy(Batch.DateOf, host.messages), host.nowMs);
      }
    }

    /** The batch timer fires: the generator resumes where it yielded. */
    method Tick()
      requires Valid() && pass.tickPending
      modifies this
      ensures Valid() && State() == Engine.Tick(reply, old(State()))
    {
      pass := pass.(tickPending := false);
      Defer(false);
    }

    /** A scheduled `processFolder(true)` timer fires. */
    method RunDeferred(host: Engine.Host)
      requires Valid() && pass.deferred > 0
      modifies this
      ensures Valid() && State() == Engine.RunDeferred(reply, old(State()), host)
    {
      pass := pass.(deferred := pass.deferred - 1);
      ProcessFolder(true, host);
    }

    /** `updateMessageCounts`: the empty mode is on exactly when the folder has no messages. */
    method UpdateMessageCounts(total: int)
      requires Valid()
      modifies this
      ensures Valid() && State() == Engine.UpdateMessageCounts(old(State()), total)
    {
      SetMode(Empty, total == 0);
    }

    /** `_onUnload`: cancels the batch, uninits every analyzer, unregisters, forgets the folder. */
    method OnUnload()
      requires Valid() && folder.Some?
      modifies this
      ensures Valid() && State() == Engine.OnUnload(old(State()))
    {
      CancelProcessing();
      NotifyAll(UninitN);
      wiring := wiring.(listening := false);
      folder := None;
      wiring := wiring.(observing := false);
    }

    /**
     * `summarize`: nothing for the folder already summarized; otherwise tears
     * down the previous folder, takes the new one, updates the counts,
     * registers the listeners, processes the folder and adds the observers.
     */
    method Summarize(f: Folder, host: Engine.Host)
      requires Valid()
      modifies this
      ensures Valid() && State() == Engine.Summarize(reply, old(State()), f, host)
    {
      if folder == Some(f) {
        return;
      }
      ghost var s0 := State();
      if folder.Some? {
        OnUnload();
      }
      folder := Some(f);
      UpdateMessageCounts(host.total);
      wiring := wiring.(listening := true);
      ghost var s1 := State();
      assert s1 == Engine.Switch(s0, f, host.total);
      ProcessFolder(false, host);
      assert State() == Engine.ProcessFolder(reply, s1, false, host);
      wiring := wiring.(observing := true);
    }

    /** `_updateAnalyzers`: `update` on every analyzer that has it, unless a batch is loading. */
    method UpdateAnalyzers()
      requires Valid()
      modifies this
      ensures Valid() && State() == Engine.UpdateAnalyzers(old(State()))
    {
      if !pass.loading {
        NotifyAll(UpdateN);
      }
    }

    /** `onHdrAdded`: dispatches the message as an addition, then updates unless a reprocess was requested. */
    method OnHdrAdded(m: Message)
      requires Valid()
      modifies this
      ensures Valid() && State() == Engine.OnHdrAdded(reply, old(State()), m)
    {
      var reprocess := ProcessMessage(m, false);
      if !reprocess {
        UpdateAnalyzers();
      }
    }

    /** `onHdrDeleted`: dispatches the message as a deletion, then updates unless a reprocess was requested. */
    method OnHdrDeleted(m: Message)
      requires Valid()
      modifies this
      ensures Valid() && State() == Engine.OnHdrDeleted(reply, old(State()), m)
    {
      var reprocess := ProcessMessage(m, true);
      if !reprocess {
        UpdateAnalyzers();
      }
    }

    /** The `updateMessageFlags` or `updateMessageTags` loop: a true answer reprocesses at once, otherwise the analyzers update. */
    method HooksThenUpdate(ev: Event, host: Engine.Host)
      requires Valid()
      modifies this
      ensures Valid() && State() == Engine.OfferOrUpdate(reply, old(State()), ev, host)
    {
      var reprocess := CallHooks(ev);
      if reprocess {
        ProcessFolder(true, host);
      } else {
        UpdateAnalyzers();
      }
    }

    /** `onHdrFlagsChanged`: clearing Ignored adds the message, setting it deletes it, anything else updates flags. */
    method OnHdrFlagsChanged(m: Message, oldFlags: Flags, newFlags: Flags, host: Engine.Host)
      requires Valid()
      modifies this
      ensures Valid() && State() == Engine.OnHdrFlagsChanged(reply, old(State()), m, oldFlags, newFlags, host)
    {
      if HasFlag(oldFlags, IGNORED) && !HasFlag(newFlags, IGNORED) {
        OnHdrAdded(m);
      } else if !HasFlag(oldFlags, IGNORED) && HasFlag(newFlags, IGNORED) {
        OnHdrDeleted(m);
      } else {
        HooksThenUpdate(FlagsEv(m, oldFlags, newFlags), host);
      }
    }

    /**
     * `OnItemPropertyFlagChanged`: a keywords change runs the
     * `updateMessageTags` loop; a status change in a virtual folder is a flags
     * change when the message is in the view (`inView`).
     */
    method OnItemPropertyFlagChanged(m: Message, property: Engine.Property, oldFlags: Flags, newFlags: Flags,
                                     inView: bool, host: Engine.Host)
      requires Valid()
      modifies this
      ensures Valid()
      ensures State() == Engine.OnItemPropertyFlagChanged(reply, old(State()), m, property, oldFlags, newFlags, inView, host)
    {
      if property == Engine.Keywords {
        HooksThenUpdate(TagsEv(m), host);
      } else if property == Engine.Status && folder.Some? && folder.value.isVirtual && inView {
        OnHdrFlagsChanged(m, oldFlags, newFlags, host);
      }
    }

    /**
     * `observe`, for a notification whose folder list does (`inSubject`) or
     * does not include the current folder.
     */
    method Observe(inSubject: bool, topic: Engine.Topic, host: Engine.Host)
      requires Valid()
      modifies this
      ensures Valid() && State() == Engine.Observe(reply, old(State()), inSubject, topic, host)
    {
      if !inSubject {
        return;
      }
      if topic == Engine.MarkAllReadStarted {
        CancelProcessing();
        wiring := wiring.(listening := false);
      } else if topic == Engine.MarkAllReadFinished {
        wiring := wiring.(listening := true);
        ProcessFolder(true, host);
        UpdateMessageCounts(host.total);
      }
    }

    /** `OnItemIntPropertyChanged`: a change of the current folder's message counts updates them. */
    method OnItemIntPropertyChanged(item: Folder, property: Engine.IntProperty, total: int)
      requires Valid()
      modifies this
      ensures Valid() && State() == Engine.OnItemIntPropertyChanged(old(State()), item, property, total)
    {
      if folder == Some(item) && property != Engine.OtherIntProperty {
        UpdateMessageCounts(total);
      }
    }

    /** `OnItemAdded`: a message added to the current folder. */
    method OnItemAdded(parent: Folder, m: Message)
      requires Valid()
      modifies this
      ensures Valid() && State() == Engine.OnItemAdded(reply, old(State()), parent, m)
    {
      if folder == Some(parent) {
        OnHdrAdded(m);
      }
    }

    /** `OnItemRemoved`: a message removed from the current folder. */
    method OnItemRemoved(parent: Folder, m: Message)
      requires Valid()
      modifies this
      ensures Valid() && State() == Engine.OnItemRemoved(reply, old(State()), parent, m)
    {
      if folder == Some(parent) {
        OnHdrDeleted(m);
      }
    }
  }
}
