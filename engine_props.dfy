/**
 * Properties of the folder summary's state machine: how a batch pass runs to
 * its end over several timer ticks, what switching folders and tearing down
 * do, when the analyzers are updated, and how reprocess requests pile up.
 */
module EngineProperties {
  import opened Mail
  import opened Modes
  import opened Dispatch
  import Batch
  import Ordering
  import opened Engine

  /** The host fires the batch timer while one is pending, at most `fuel` times. */
  function Drain(reply: Reply, st: EngineState, fuel: nat): (r: EngineState)
    requires Inv(st)
    ensures Inv(r)
    decreases fuel
  {
    if fuel == 0 || !st.pass.tickPending then st else Drain(reply, Tick(reply, st), fuel - 1)
  }

  /**
   * How a batch pass resumed in `st` ends up in `r`: it has dispatched the
   * rest of the batch in order exactly as one uninterrupted run would, and
   * stopped for good at the first reprocess request. When no message asks
   * for one it has rendered every analyzer, with `loading` off, the loading
   * mode off and the content mode on; when one does, `loading` is as it was
   * and one more `processFolder(true)` is pending.
   */
  predicate DrainedAs(reply: Reply, st: EngineState, r: EngineState)
    requires st.pass.cursor <= |st.pass.batch| && |st.modes| == 3 == |r.modes|
  {
    var run := DispatchRun(reply, st.log, st.analyzers, st.pass.minDate, st.pass.batch[st.pass.cursor..]);
    && !r.pass.tickPending
    && r.analyzers == st.analyzers && r.folder == st.folder && r.pass.minDate == st.pass.minDate
    && r.modes[1] == st.modes[1]
    && (run.reprocess ==> r.log == st.log + run.calls && r.pass.deferred == st.pass.deferred + 1 && r.pass.loading == st.pass.loading)
    && (!run.reprocess ==> r.log == st.log + run.calls + Broadcast(st.analyzers, RenderN)
                           && r.pass.deferred == st.pass.deferred && !r.pass.loading
                           && !r.modes[0].enabled && r.modes[2].enabled)
  }

  /** The dispatch part of one worker run: the messages up to the next yield point. */
  function Head(reply: Reply, st: EngineState): RunOutcome
    requires st.pass.cursor <= |st.pass.batch|
  {
    DispatchRun(reply, st.log, st.analyzers, st.pass.minDate,
                st.pass.batch[st.pass.cursor..Batch.NextYield(st.pass.cursor, |st.pass.batch|)])
  }

  /**
   * A batch pass resumed at `cursor` and then left to run, timer tick after
   * timer tick, ends as `DrainedAs` describes.
   */
  lemma {:induction false} ChunkThenDrain(reply: Reply, st: EngineState, first: bool, fuel: nat)
    requires Inv(st)
    requires fuel >= |st.pass.batch| - st.pass.cursor
    decreases |st.pass.batch| - st.pass.cursor, 1
    ensures DrainedAs(reply, st, Drain(reply, Chunk(reply, st, first), fuel))
  {
    var end := Batch.NextYield(st.pass.cursor, |st.pass.batch|);
    if Head(reply, st).reprocess {
      DrainAfterReprocess(reply, st, first, fuel);
    } else if end < |st.pass.batch| {
      DrainAfterYield(reply, st, first, fuel);
    } else {
      DrainAfterFinish(reply, st, first, fuel);
    }
  }

  lemma DrainAfterReprocess(reply: Reply, st: EngineState, first: bool, fuel: nat)
    requires Inv(st) && Head(reply, st).reprocess
    ensures DrainedAs(reply, st, Drain(reply, Chunk(reply, st, first), fuel))
  {
    var p := st.pass;
    var end := Batch.NextYield(p.cursor, |p.batch|);
    var head := p.batch[p.cursor..end];
    var run1 := Head(reply, st);
    var c := st.(log := st.log + run1.calls, pass := p.(deferred := p.deferred + 1, tickPending := false));
    assert Chunk(reply, st, first) == c;
    assert p.batch[p.cursor..] == head + p.batch[end..];
    DispatchRunStopsEarly(reply, st.log, st.analyzers, p.minDate, head, p.batch[end..]);
  }

  lemma DrainAfterFinish(reply: Reply, st: EngineState, first: bool, fuel: nat)
    requires Inv(st) && !Head(reply, st).reprocess
    requires Batch.NextYield(st.pass.cursor, |st.pass.batch|) == |st.pass.batch|
    ensures DrainedAs(reply, st, Drain(reply, Chunk(reply, st, first), fuel))
  {
    var p := st.pass;
    var run1 := Head(reply, st);
    var c := Finish(st.(log := st.log + run1.calls));
    assert Chunk(reply, st, first) == c;
    assert p.batch[p.cursor..|p.batch|] == p.batch[p.cursor..];
  }

  lemma {:induction false} DrainAfterYield(reply: Reply, st: EngineState, first: bool, fuel: nat)
    requires Inv(st) && !Head(reply, st).reprocess
    requires Batch.NextYield(st.pass.cursor, |st.pass.batch|) < |st.pass.batch|
    requires fuel >= |st.pass.batch| - st.pass.cursor
    decreases |st.pass.batch| - st.pass.cursor, 0
    ensures DrainedAs(reply, st, Drain(reply, Chunk(reply, st, first), fuel))
  {
    var p := st.pass;
    var end := Batch.NextYield(p.cursor, |p.batch|);
    var c := Yield(st.(log := st.log + Head(reply, st).calls), end, first);
    assert Chunk(reply, st, first) == c;
    var st1 := CancelProcessing(c);
    assert Drain(reply, c, fuel) == Drain(reply, Chunk(reply, st1, false), fuel - 1);
    ChunkThenDrain(reply, st1, false, fuel - 1);
    ResumedPass(reply, st, st1, Drain(reply, c, fuel));
  }

  /** The rest of a pass after a yield, added to the chunk before it, is the pass from where the chunk began. */
  lemma ResumedPass(reply: Reply, st: EngineState, st1: EngineState, r: EngineState)
    requires st.pass.cursor <= |st.pass.batch| && WellFormed(st.modes) && WellFormed(st1.modes) && WellFormed(r.modes)
    requires !Head(reply, st).reprocess
    requires Batch.NextYield(st.pass.cursor, |st.pass.batch|) < |st.pass.batch|
    requires st1.pass == st.pass.(cursor := Batch.NextYield(st.pass.cursor, |st.pass.batch|), tickPending := false)
    requires st1.log == st.log + Head(reply, st).calls
    requires st1.analyzers == st.analyzers && st1.folder == st.folder && st1.modes[1] == st.modes[1]
    requires DrainedAs(reply, st1, r)
    ensures DrainedAs(reply, st, r)
  {
    var p := st.pass;
    var end := Batch.NextYield(p.cursor, |p.batch|);
    var head := p.batch[p.cursor..end];
    var run1 := Head(reply, st);
    assert p.batch[p.cursor..] == head + p.batch[end..];
    DispatchRunAppend(reply, st.log, st.analyzers, p.minDate, head, p.batch[end..]);
    var run2 := DispatchRun(reply, st1.log, st.analyzers, p.minDate, p.batch[end..]);
    assert st1.log + run2.calls == st.log + (run1.calls + run2.calls);
  }

  /**
   * A whole batch pass (`_processMessages` followed by its timer ticks): every
   * analyzer is initialised before any message reaches one; then the first
   * thousand messages are dispatched in order, newest first, with
   * `minDate` thirty days before the start; the pass renders every analyzer
   * when no message asks for a reprocess, and otherwise stops at the first
   * that does, with `loading` still on and one `processFolder(true)` pending.
   * A pass that completes shows the content, or the empty notice when the
   * folder has no messages.
   */
  lemma BatchPass(reply: Reply, st: EngineState, sorted: seq<Message>, nowMs: int)
    requires Inv(st)
    ensures var batch := Ordering.Take(sorted, Batch.MaxMessages);
            var minDate := Some(MinDate(nowMs));
            var inits := st.log + Broadcast(st.analyzers, InitN);
            var run := DispatchRun(reply, inits, st.analyzers, minDate, batch);
            var r := Drain(reply, ProcessMessages(reply, st, sorted, nowMs), |batch|);
            && !r.pass.tickPending && r.pass.minDate == minDate && r.analyzers == st.analyzers && r.folder == st.folder
            && (run.reprocess ==> r.log == inits + run.calls && r.pass.loading && r.pass.deferred == st.pass.deferred + 1)
            && (!run.reprocess ==> r.log == inits + run.calls + Broadcast(st.analyzers, RenderN)
                                   && !r.pass.loading && r.pass.deferred == st.pass.deferred
                                   && Shown(r.modes) == if st.modes[1].enabled then Some(Empty) else Some(Content))
  {
    var batch := Ordering.Take(sorted, Batch.MaxMessages);
    var st2 := NotifyAll(st.(pass := Pass(true, Some(MinDate(nowMs)), batch, 0, false, st.pass.deferred)), InitN);
    assert st2.pass.batch[0..] == batch;
    ChunkThenDrain(reply, st2, true, |batch|);
    ShownOfThree(Drain(reply, ProcessMessages(reply, st, sorted, nowMs), |batch|).modes);
  }

  /** In a pass, `init` reaches every analyzer, in registration order, right after the calls made before the pass. */
  lemma InitsPrecedeDispatch(st: EngineState)
    ensures var inits := st.log + Broadcast(st.analyzers, InitN);
            && |inits| == |st.log| + |st.analyzers|
            && forall k :: 0 <= k < |st.analyzers| ==> inits[|st.log| + k] == Notify(k, InitN)
  {
    BroadcastAll(st.analyzers, InitN);
  }

  /** A batch pass cancelled by `cancelProcessing` never resumes: no timer fires, and `loading` stays as it was. */
  lemma CancelledPassNeverResumes(reply: Reply, st: EngineState, fuel: nat)
    requires Inv(st)
    ensures Drain(reply, CancelProcessing(st), fuel) == CancelProcessing(st)
    ensures CancelProcessing(st).pass.loading == st.pass.loading
  {
  }

  /**
   * Summarizing the folder already summarized does nothing; summarizing
   * another one tears the previous folder down first (one `uninit` per
   * analyzer), takes the new folder, registers listeners and observers,
   * sets the empty mode exactly when the new folder has no messages, and
   * starts processing it; a regular folder's pass starts with one `init` per
   * analyzer and works on its thousand newest messages.
   */
  lemma SummarizeSameFolder(reply: Reply, st: EngineState, f: Folder, host: Host)
    requires st.folder == Some(f)
    ensures Summarize(reply, st, f, host) == st
  {
  }

  lemma SummarizeSwitches(reply: Reply, st: EngineState, f: Folder, host: Host)
    requires Inv(st) && st.folder != Some(f)
    ensures var r := Summarize(reply, st, f, host);
            var teardown := st.log + if st.folder.Some? then Broadcast(st.analyzers, UninitN) else [];
            && r.folder == Some(f) && r.wiring.listening && r.wiring.observing && r.analyzers == st.analyzers
            && r.modes[1].enabled == (host.total == 0)
            && teardown <= r.log
            && (!f.isVirtual ==> teardown + Broadcast(st.analyzers, InitN) <= r.log
                                 && r.pass.batch == Batch.BatchOf(host.messages)
                                 && r.pass.minDate == Some(MinDate(host.nowMs)))
  {
    var sw := Switch(st, f, host.total);
    var teardown := st.log + if st.folder.Some? then Broadcast(st.analyzers, UninitN) else [];
    assert sw.log == teardown && sw.analyzers == st.analyzers;
    ProcessFolderFrame(reply, sw, false, host);
    if !f.isVirtual {
      var sorted := Ordering.SortBy(Batch.DateOf, host.messages);
      ProcessMessagesStarts(reply, sw, sorted, host.nowMs);
    }
  }

  /**
   * What `processFolder` leaves alone: the analyzers, the folder, the empty
   * mode and the listeners; the calls already made stay first, followed by
   * one `uninit` per analyzer when asked.
   */
  lemma ProcessFolderFrame(reply: Reply, st: EngineState, uninit: bool, host: Host)
    requires Inv(st)
    ensures var r := ProcessFolder(reply, st, uninit, host);
            && r.analyzers == st.analyzers && r.folder == st.folder && r.modes[1] == st.modes[1]
            && r.wiring.listening == st.wiring.listening && r.wiring.observing == st.wiring.observing
            && st.log + (if uninit then Broadcast(st.analyzers, UninitN) else []) <= r.log
  {
    var st1 := if uninit then NotifyAll(st, UninitN) else st;
    assert st1.log == st.log + (if uninit then Broadcast(st.analyzers, UninitN) else []);
    if st1.folder.Some? && !st1.folder.value.isVirtual {
      ProcessMessagesStarts(reply, st1, Ordering.SortBy(Batch.DateOf, host.messages), host.nowMs);
    } else if st1.folder.Some? && host.viewReady {
      ProcessMessagesStarts(reply, st1.(wiring := st1.wiring.(awaitingLoad := false)), Ordering.SortBy(Batch.DateOf, host.messages), host.nowMs);
    }
  }

  /**
   * `processFolder` after the optional `uninit` calls, when a folder is open:
   * a virtual folder whose view is still searching registers for the
   * display listener and shows the loading notice, with the pass untouched.
   * (With no folder open, nothing follows the `uninit` calls.)
   */
  lemma ProcessFolderWaits(reply: Reply, st: EngineState, uninit: bool, host: Host)
    requires Inv(st) && (st.folder.Some? ==> st.folder.value.isVirtual && !host.viewReady)
    ensures var r := ProcessFolder(reply, st, uninit, host);
            var teardown := st.log + if uninit then Broadcast(st.analyzers, UninitN) else [];
            && r.log == teardown && r.pass == st.pass
            && (st.folder.None? ==> r == st.(log := teardown))
            && (st.folder.Some? ==> r.wiring.awaitingLoad && Shown(r.modes) == Some(Loading))
  {
    if st.folder.Some? {
      ShownOfThree(ProcessFolder(reply, st, uninit, host).modes);
    }
  }

  /**
   * `processFolder` on a regular folder, or a virtual one whose view is
   * ready: after the optional `uninit` calls a pass starts on the newest
   * thousand messages with one `init` per analyzer first.
   */
  lemma ProcessFolderStarts(reply: Reply, st: EngineState, uninit: bool, host: Host)
    requires Inv(st) && st.folder.Some? && (!st.folder.value.isVirtual || host.viewReady)
    ensures var r := ProcessFolder(reply, st, uninit, host);
            var teardown := st.log + if uninit then Broadcast(st.analyzers, UninitN) else [];
            && teardown + Broadcast(st.analyzers, InitN) <= r.log
            && r.pass.batch == Batch.BatchOf(host.messages)
            && r.pass.minDate == Some(MinDate(host.nowMs))
            && (st.folder.value.isVirtual ==> !r.wiring.awaitingLoad)
  {
    var st1 := if uninit then NotifyAll(st, UninitN) else st;
    var sorted := Ordering.SortBy(Batch.DateOf, host.messages);
    var st2 := if st.folder.value.isVirtual then st1.(wiring := st1.wiring.(awaitingLoad := false)) else st1;
    var r := ProcessFolder(reply, st, uninit, host);
    assert r == ProcessMessages(reply, st2, sorted, host.nowMs);
    ProcessMessagesStarts(reply, st2, sorted, host.nowMs);
    assert st2.log == st.log + (if uninit then Broadcast(st.analyzers, UninitN) else []);
    assert st2.analyzers == st.analyzers;
    assert st2.log + Broadcast(st2.analyzers, InitN) <= r.log;
  }

  /**
   * A deferred `processFolder(true)` firing on a regular folder: one request
   * is used up, every analyzer is uninitialised and initialised again, and
   * the new pass over the newest thousand messages, left to run, either
   * renders every analyzer or stops at the first reprocess request, which
   * leaves one request pending again.
   */
  lemma RunDeferredRestarts(reply: Reply, st: EngineState, host: Host)
    requires Inv(st) && st.pass.deferred > 0 && st.folder.Some? && !st.folder.value.isVirtual
    ensures var batch := Batch.BatchOf(host.messages);
            var inits := st.log + Broadcast(st.analyzers, UninitN) + Broadcast(st.analyzers, InitN);
            var run := DispatchRun(reply, inits, st.analyzers, Some(MinDate(host.nowMs)), batch);
            var r := Drain(reply, RunDeferred(reply, st, host), |batch|);
            && r.log == inits + run.calls + (if run.reprocess then [] else Broadcast(st.analyzers, RenderN))
            && r.pass.deferred == st.pass.deferred - 1 + (if run.reprocess then 1 else 0)
            && r.pass.loading == run.reprocess
            && r.folder == st.folder && r.analyzers == st.analyzers
  {
    var s1 := NotifyAll(st.(pass := st.pass.(deferred := st.pass.deferred - 1)), UninitN);
    BatchPass(reply, s1, Ordering.SortBy(Batch.DateOf, host.messages), host.nowMs);
  }

  /**
   * `observe`: a notification that does not name the current folder, or has
   * another topic, changes nothing. Mark-all-read starting cancels the batch
   * timer and drops the listeners and nothing else. Finishing registers the
   * listeners again, reprocesses the folder (one `uninit` per analyzer
   * first; a regular folder's pass then starts with one `init` per analyzer
   * on its newest thousand messages) and sets the empty mode from the count.
   */
  lemma ObserveTopics(reply: Reply, st: EngineState, inSubject: bool, topic: Topic, host: Host)
    requires Inv(st)
    ensures var r := Observe(reply, st, inSubject, topic, host);
            var teardown := st.log + Broadcast(st.analyzers, UninitN);
            && (!inSubject || topic.OtherTopic? ==> r == st)
            && (inSubject && topic.MarkAllReadStarted? ==>
                  r == st.(pass := st.pass.(tickPending := false), wiring := st.wiring.(listening := false)))
            && (inSubject && topic.MarkAllReadFinished? ==>
                  && r.wiring.listening && r.folder == st.folder && r.analyzers == st.analyzers
                  && r.modes[1].enabled == (host.total == 0)
                  && teardown <= r.log
                  && (st.folder.Some? && !st.folder.value.isVirtual ==>
                        && teardown + Broadcast(st.analyzers, InitN) <= r.log
                        && r.pass.batch == Batch.BatchOf(host.messages)))
  {
    if inSubject && topic.MarkAllReadFinished? {
      var s1 := st.(wiring := st.wiring.(listening := true));
      ProcessFolderFrame(reply, s1, true, host);
      if st.folder.Some? && !st.folder.value.isVirtual {
        ProcessFolderStarts(reply, s1, true, host);
      }
    }
  }

  /** How `_processMessages` starts: the capped batch, the new `minDate`, `init` for every analyzer before anything else. */
  lemma ProcessMessagesStarts(reply: Reply, st: EngineState, sorted: seq<Message>, nowMs: int)
    requires Inv(st)
    ensures var r := ProcessMessages(reply, st, sorted, nowMs);
            && r.pass.batch == Ordering.Take(sorted, Batch.MaxMessages)
            && r.pass.minDate == Some(MinDate(nowMs))
            && r.analyzers == st.analyzers && r.folder == st.folder && r.modes[1] == st.modes[1]
            && r.wiring == st.wiring
            && st.log + Broadcast(st.analyzers, InitN) <= r.log
  {
    var batch := Ordering.Take(sorted, Batch.MaxMessages);
    var st2 := NotifyAll(st.(pass := Pass(true, Some(MinDate(nowMs)), batch, 0, false, st.pass.deferred)), InitN);
    ChunkFrame(reply, st2, true);
  }

  /** One run of the worker only appends calls and leaves the analyzers, folder, `minDate`, batch and empty mode alone. */
  lemma ChunkFrame(reply: Reply, st: EngineState, first: bool)
    requires Inv(st)
    ensures var r := Chunk(reply, st, first);
            && r.analyzers == st.analyzers && r.folder == st.folder && r.pass.minDate == st.pass.minDate
            && r.pass.batch == st.pass.batch && r.modes[1] == st.modes[1]
            && r.wiring == st.wiring
            && st.log <= r.log
  {
    var end := Batch.NextYield(st.pass.cursor, |st.pass.batch|);
    var run := DispatchRun(reply, st.log, st.analyzers, st.pass.minDate, st.pass.batch[st.pass.cursor..end]);
    assert st.log <= st.log + run.calls;
    assert st.log <= st.log + run.calls + Broadcast(st.analyzers, RenderN);
  }

  /**
   * `_onUnload`: the batch timer is cleared, every analyzer gets one
   * `uninit` in registration order, the listeners and observers are gone
   * and the folder is forgotten.
   */
  lemma UnloadTearsDown(st: EngineState)
    requires st.folder.Some?
    ensures var r := OnUnload(st);
            && r.folder == None && !r.pass.tickPending && !r.wiring.listening && !r.wiring.observing
            && |r.log| == |st.log| + |st.analyzers|
            && r.log[..|st.log|] == st.log
            && forall k :: 0 <= k < |st.analyzers| ==> r.log[|st.log| + k] == Notify(k, UninitN)
  {
    BroadcastAll(st.analyzers, UninitN);
  }

  /**
   * `_updateAnalyzers` does nothing while a batch pass is loading; otherwise
   * it calls `update` on exactly the analyzers that have it, in registration
   * order.
   */
  lemma UpdateOnlyWhenIdle(st: EngineState)
    ensures st.pass.loading ==> UpdateAnalyzers(st) == st
    ensures !st.pass.loading ==>
              var added := UpdateAnalyzers(st).log[|st.log|..];
              && UpdateAnalyzers(st).log == st.log + added
              && (forall k :: 0 <= k < |added| ==>
                    added[k].Notify? && added[k].n == UpdateN && added[k].a < |st.analyzers| && st.analyzers[added[k].a].hasUpdate)
              && (forall a :: 0 <= a < |st.analyzers| && st.analyzers[a].hasUpdate ==> Notify(a, UpdateN) in added)
              && (forall p, q :: 0 <= p < q < |added| ==> added[p].a < added[q].a)
  {
    if !st.pass.loading {
      UpdateReachesUpdaters(st.analyzers);
      assert UpdateAnalyzers(st).log[|st.log|..] == Broadcast(st.analyzers, UpdateN);
    }
  }

  /** The `update` broadcast calls exactly the analyzers that have `update`, each once, in order. */
  lemma UpdateReachesUpdaters(analyzers: seq<Analyzer>)
    ensures var added := Broadcast(analyzers, UpdateN);
            && (forall k :: 0 <= k < |added| ==>
                  added[k].Notify? && added[k].n == UpdateN && added[k].a < |analyzers| && analyzers[added[k].a].hasUpdate)
            && (forall a :: 0 <= a < |analyzers| && analyzers[a].hasUpdate ==> Notify(a, UpdateN) in added)
            && (forall p, q :: 0 <= p < q < |added| ==> added[p].a < added[q].a)
  {
    var added := Broadcast(analyzers, UpdateN);
    var rs := Receivers(analyzers, UpdateN, 0);
    ReceiversExactly(analyzers, UpdateN, 0);
    forall a | 0 <= a < |analyzers| && analyzers[a].hasUpdate
      ensures Notify(a, UpdateN) in added
    {
      assert a in rs;
      var k :| 0 <= k < |rs| && rs[k] == a;
      assert added[k] == Notify(a, UpdateN);
    }
    forall k | 0 <= k < |added|
      ensures added[k].a < |analyzers| && analyzers[added[k].a].hasUpdate
    {
      assert rs[k] in rs;
    }
  }

  /**
   * Reprocess requests are not coalesced: two messages added one after the
   * other, each asking for a reprocess, leave two `processFolder(true)`
   * timers pending.
   */
  lemma ReprocessRequestsAccumulate(reply: Reply, st: EngineState, m1: Message, m2: Message)
    requires ProcessMessage(reply, st, m1, false).1
    requires ProcessMessage(reply, OnHdrAdded(reply, st, m1), m2, false).1
    ensures OnHdrAdded(reply, OnHdrAdded(reply, st, m1), m2).pass.deferred == st.pass.deferred + 2
  {
  }

  /** Clearing a message's Ignored bit is handled exactly as the message being added. */
  lemma IgnoredClearedIsAdd(reply: Reply, st: EngineState, m: Message, oldFlags: Flags, newFlags: Flags, host: Host)
    requires HasFlag(oldFlags, IGNORED) && !HasFlag(newFlags, IGNORED)
    ensures OnHdrFlagsChanged(reply, st, m, oldFlags, newFlags, host) == OnHdrAdded(reply, st, m)
  {
  }

  /** Setting a message's Ignored bit is handled exactly as the message being deleted. */
  lemma IgnoredSetIsDelete(reply: Reply, st: EngineState, m: Message, oldFlags: Flags, newFlags: Flags, host: Host)
    requires !HasFlag(oldFlags, IGNORED) && HasFlag(newFlags, IGNORED)
    ensures OnHdrFlagsChanged(reply, st, m, oldFlags, newFlags, host) == OnHdrDeleted(reply, st, m)
  {
  }
}
