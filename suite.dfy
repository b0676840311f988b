/**
 * The page's own wiring: the five widgets registered with the summary, in
 * order, and what their hooks imply for the summary's dispatch.
 */
module Suite {
  import opened Mail
  import opened Dispatch
  import opened Engine

  /**
   * The widgets' hooks, in registration order: the sparkline (recent
   * messages only), top correspondents, top threads, top messages (also flag
   * changes) and tag dots (also keyword changes); every one has `update`.
   */
  const Widgets: seq<Analyzer> := [
    Analyzer(hasRecent := true, hasProcess := false, hasFlags := false, hasTags := false, hasUpdate := true),
    Analyzer(hasRecent := false, hasProcess := true, hasFlags := false, hasTags := false, hasUpdate := true),
    Analyzer(hasRecent := false, hasProcess := true, hasFlags := false, hasTags := false, hasUpdate := true),
    Analyzer(hasRecent := false, hasProcess := true, hasFlags := true, hasTags := false, hasUpdate := true),
    Analyzer(hasRecent := false, hasProcess := true, hasFlags := false, hasTags := true, hasUpdate := true)]

  /** `registerAnalyzer` for each analyzer in turn. */
  function RegisterAll(st: EngineState, ans: seq<Analyzer>): (r: EngineState)
    decreases |ans|
    ensures r.folder == st.folder && r.modes == st.modes && r.pass == st.pass && r.wiring == st.wiring
    ensures |r.analyzers| == |st.analyzers| + |ans|
  {
    if ans == [] then st else RegisterAll(RegisterAnalyzer(st, ans[0]), ans[1..])
  }

  /** Registering analyzers appends them in order, each one told its position once. */
  lemma {:induction false} RegisterAllAppends(st: EngineState, ans: seq<Analyzer>)
    decreases |ans|
    ensures RegisterAll(st, ans).analyzers == st.analyzers + ans
    ensures RegisterAll(st, ans).log == st.log + seq(|ans|, k requires 0 <= k < |ans| => Registered(|st.analyzers| + k))
  {
    if ans == [] {
      assert st.analyzers + ans == st.analyzers;
      assert st.log + [] == st.log;
    } else {
      var st1 := RegisterAnalyzer(st, ans[0]);
      RegisterAllAppends(st1, ans[1..]);
      assert st.analyzers + ans == st1.analyzers + ans[1..];
      var tail := seq(|ans| - 1, k requires 0 <= k < |ans| - 1 => Registered(|st1.analyzers| + k));
      assert seq(|ans|, k requires 0 <= k < |ans| => Registered(|st.analyzers| + k)) == [Registered(|st.analyzers|)] + tail;
    }
  }

  /** The page registers the five widgets in order: afterwards they are the analyzers, at positions 0 to 4. */
  lemma PageRegistersWidgets()
    ensures RegisterAll(Initial, Widgets).analyzers == Widgets
    ensures RegisterAll(Initial, Widgets).log == [Registered(0), Registered(1), Registered(2), Registered(3), Registered(4)]
  {
    RegisterAllAppends(Initial, Widgets);
  }

  /**
   * Answers the widgets can give: only the top-threads widget's
   * `processMessage` (position 2) and, for a deletion, the top-messages
   * widget's (position 3) can ask for a reprocess.
   */
  ghost predicate WidgetReply(reply: Reply) {
    forall log, a, ev :: reply(log, Hook(a, ev)) ==> ev.ProcessEv? && (a == 2 || (a == 3 && ev.deleted))
  }

  /**
   * With the widgets registered, a flag change that leaves the Ignored bit
   * alone reaches the top-messages widget alone and never reprocesses: the
   * analyzers are updated next.
   */
  lemma FlagChangeReachesTopMessages(reply: Reply, st: EngineState, m: Message, oldFlags: Flags, newFlags: Flags, host: Host)
    requires WidgetReply(reply) && st.analyzers == Widgets
    requires HasFlag(oldFlags, IGNORED) == HasFlag(newFlags, IGNORED)
    ensures OnHdrFlagsChanged(reply, st, m, oldFlags, newFlags, host)
            == UpdateAnalyzers(st.(log := st.log + [Hook(3, FlagsEv(m, oldFlags, newFlags))]))
  {
    var ev := FlagsEv(m, oldFlags, newFlags);
    var log1 := st.log + [Hook(3, ev)];
    assert Offer(reply, log1, Widgets, ev, 4) == Outcome([], false);
    assert Offer(reply, st.log, Widgets, ev, 0) == Offer(reply, st.log, Widgets, ev, 3);
    assert !reply(st.log, Hook(3, ev));
    assert Offer(reply, st.log, Widgets, ev, 0) == Outcome([Hook(3, ev)], false);
  }

  /**
   * With the widgets registered, a keyword change reaches the tag-dots
   * widget alone and never reprocesses: the analyzers are updated next.
   */
  lemma KeywordChangeReachesTagDots(reply: Reply, st: EngineState, m: Message, oldFlags: Flags, newFlags: Flags,
                                    inView: bool, host: Host)
    requires WidgetReply(reply) && st.analyzers == Widgets
    ensures OnItemPropertyFlagChanged(reply, st, m, Keywords, oldFlags, newFlags, inView, host)
            == UpdateAnalyzers(st.(log := st.log + [Hook(4, TagsEv(m))]))
  {
    var ev := TagsEv(m);
    assert Offer(reply, st.log + [Hook(4, ev)], Widgets, ev, 5) == Outcome([], false);
    assert Offer(reply, st.log, Widgets, ev, 0) == Offer(reply, st.log, Widgets, ev, 4);
    assert !reply(st.log, Hook(4, ev));
    assert Offer(reply, st.log, Widgets, ev, 0) == Outcome([Hook(4, ev)], false);
  }

  /**
   * With the widgets registered, a new message that is not killed goes to
   * the sparkline when it is recent, then to the other four widgets in
   * order, and only the top-threads widget can cut the round short and ask
   * for a reprocess.
   */
  lemma AddedMessageRound(reply: Reply, st: EngineState, m: Message)
    requires WidgetReply(reply) && st.analyzers == Widgets && !m.isKilled
    ensures var ev := ProcessEv(m, false);
            var pre := if IsRecent(m, st.pass.minDate) then [Hook(0, RecentEv(m, false))] else [];
            var (r, reprocess) := ProcessMessage(reply, st, m, false);
            && reprocess == reply(st.log + pre + [Hook(1, ev)], Hook(2, ev))
            && r.log == st.log + pre + (if reprocess then [Hook(1, ev), Hook(2, ev)]
                                        else [Hook(1, ev), Hook(2, ev), Hook(3, ev), Hook(4, ev)])
  {
    var ev := ProcessEv(m, false);
    var pre := if IsRecent(m, st.pass.minDate) then [Hook(0, RecentEv(m, false))] else [];
    if IsRecent(m, st.pass.minDate) {
      var rev := RecentEv(m, false);
      assert Offer(reply, st.log + [Hook(0, rev)], Widgets, rev, 1) == Outcome([], false);
      assert !reply(st.log, Hook(0, rev));
      assert Offer(reply, st.log, Widgets, rev, 0) == Outcome(pre, false);
    }
    var log0 := st.log + pre;
    var log1 := log0 + [Hook(1, ev)];
    var log2 := log1 + [Hook(2, ev)];
    var log3 := log2 + [Hook(3, ev)];
    var log4 := log3 + [Hook(4, ev)];
    assert Offer(reply, log4, Widgets, ev, 5) == Outcome([], false);
    assert !reply(log3, Hook(4, ev));
    assert Offer(reply, log3, Widgets, ev, 4) == Outcome([Hook(4, ev)], false);
    assert !reply(log2, Hook(3, ev));
    assert Offer(reply, log2, Widgets, ev, 3) == Outcome([Hook(3, ev), Hook(4, ev)], false);
    assert !reply(log0, Hook(1, ev));
    assert Offer(reply, log0, Widgets, ev, 0) == Offer(reply, log0, Widgets, ev, 1);
  }
}
