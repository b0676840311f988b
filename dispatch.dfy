/**
 * How the folder summary drives its analyzers. An analyzer is known by the
 * optional hooks it implements; every call the summary makes into an
 * analyzer is recorded as a `Call`, and what a hook answers is given by a
 * `Reply` oracle: the answer to a call, given every call made before it.
 * Any deterministic analyzer fits this description, since its state is a
 * function of the calls it has received.
 */
module Dispatch {
  import opened Mail

  /** The optional hooks an analyzer implements (init, uninit and render are mandatory). */
  datatype Analyzer = Analyzer(hasRecent: bool, hasProcess: bool, hasFlags: bool, hasTags: bool, hasUpdate: bool)

  /** A per-message hook invocation, with its arguments. */
  datatype Event =
    | RecentEv(m: Message, deleted: bool)
    | ProcessEv(m: Message, deleted: bool)
    | FlagsEv(m: Message, oldFlags: Flags, newFlags: Flags)
    | TagsEv(m: Message)

  /** The lifecycle calls that return nothing. */
  datatype Notice = InitN | UninitN | RenderN | UpdateN

  /** A call into the analyzer registered at position `a`. */
  datatype Call =
    | Registered(a: nat)
    | Notify(a: nat, n: Notice)
    | Hook(a: nat, ev: Event)

  /** What a hook call answers ("a full reprocess is needed"), given the calls made before it. */
  type Reply = (seq<Call>, Call) -> bool

  /** Whether the analyzer implements the hook that `ev` invokes. */
  predicate Handles(an: Analyzer, ev: Event) {
    match ev
    case RecentEv(_, _) => an.hasRecent
    case ProcessEv(_, _) => an.hasProcess
    case FlagsEv(_, _, _) => an.hasFlags
    case TagsEv(_) => an.hasTags
  }

  /** Whether the analyzer receives `n`: `update` is optional, the others are not. */
  predicate Receives(an: Analyzer, n: Notice) {
    n != UpdateN || an.hasUpdate
  }

  /** The positions, from `i` on, of the analyzers that receive `n`. */
  function Receivers(analyzers: seq<Analyzer>, n: Notice, i: nat): seq<nat>
    decreases |analyzers| - i
  {
    if i >= |analyzers| then []
    else (if Receives(analyzers[i], n) then [i] else []) + Receivers(analyzers, n, i + 1)
  }

  /** The receivers are exactly the analyzers that receive `n`, in increasing position. */
  lemma {:induction false} ReceiversExactly(analyzers: seq<Analyzer>, n: Notice, i: nat)
    decreases |analyzers| - i
    ensures forall j :: j in Receivers(analyzers, n, i) <==> i <= j < |analyzers| && Receives(analyzers[j], n)
    ensures forall p, q :: 0 <= p < q < |Receivers(analyzers, n, i)| ==> Receivers(analyzers, n, i)[p] < Receivers(analyzers, n, i)[q]
  {
    if i < |analyzers| {
      ReceiversExactly(analyzers, n, i + 1);
      var rest := Receivers(analyzers, n, i + 1);
      var head: seq<nat> := if Receives(analyzers[i], n) then [i] else [];
      var rs := Receivers(analyzers, n, i);
      assert rs == head + rest;
      forall q | 0 <= q < |rest|
        ensures rest[q] > i
      {
        assert rest[q] in rest;
      }
      forall j
        ensures j in rs <==> i <= j < |analyzers| && Receives(analyzers[j], n)
      {
        assert j in rs <==> j in head || j in rest;
      }
      forall p, q | 0 <= p < q < |rs|
        ensures rs[p] < rs[q]
      {
        assert rs[q] == rest[q - |head|];
        if p >= |head| {
          assert rs[p] == rest[p - |head|];
        }
      }
    }
  }

  /**
   * `for (let analyzer of this._analyzers) analyzer.<n>()`: one call per
   * analyzer that receives `n`, in registration order.
   */
  function Broadcast(analyzers: seq<Analyzer>, n: Notice): (r: seq<Call>)
    ensures |r| == |Receivers(analyzers, n, 0)|
    ensures forall k :: 0 <= k < |r| ==> r[k] == Notify(Receivers(analyzers, n, 0)[k], n)
  {
    var rs := Receivers(analyzers, n, 0);
    seq(|rs|, k requires 0 <= k < |rs| => Notify(rs[k], n))
  }

  /** Every analyzer receives the mandatory calls. */
  lemma {:induction false} ReceiversAll(analyzers: seq<Analyzer>, n: Notice, i: nat)
    requires n != UpdateN && i <= |analyzers|
    decreases |analyzers| - i
    ensures |Receivers(analyzers, n, i)| == |analyzers| - i
    ensures forall k :: 0 <= k < |analyzers| - i ==> Receivers(analyzers, n, i)[k] == i + k
  {
    if i < |analyzers| {
      ReceiversAll(analyzers, n, i + 1);
      var rest := Receivers(analyzers, n, i + 1);
      var rs := Receivers(analyzers, n, i);
      assert rs == [i] + rest;
      forall k | 1 <= k < |analyzers| - i
        ensures rs[k] == i + k
      {
        assert rs[k] == rest[k - 1];
      }
    }
  }

  /** A mandatory lifecycle call reaches every analyzer, once each, in registration order. */
  lemma BroadcastAll(analyzers: seq<Analyzer>, n: Notice)
    requires n != UpdateN
    ensures |Broadcast(analyzers, n)| == |analyzers|
    ensures forall k :: 0 <= k < |analyzers| ==> Broadcast(analyzers, n)[k] == Notify(k, n)
  {
    ReceiversAll(analyzers, n, 0);
  }

  /** The positions, from `i` on, of the analyzers that implement the hook of `ev`. */
  function Handlers(analyzers: seq<Analyzer>, ev: Event, i: nat): (hs: seq<nat>)
    decreases |analyzers| - i
    ensures forall j :: j in hs <==> i <= j < |analyzers| && Handles(analyzers[j], ev)
    ensures forall p, q :: 0 <= p < q < |hs| ==> hs[p] < hs[q]
  {
    if i >= |analyzers| then []
    else
      var rest := Handlers(analyzers, ev, i + 1);
      var hs := (if Handles(analyzers[i], ev) then [i] else []) + rest;
      assert forall q :: 0 <= q < |rest| ==> rest[q] in rest && rest[q] > i;
      hs
  }

  /** The hook calls `ev` makes on the analyzers at positions `hs`, in that order. */
  function HookCalls(hs: seq<nat>, ev: Event): (r: seq<Call>)
    ensures |r| == |hs|
  {
    seq(|hs|, k requires 0 <= k < |hs| => Hook(hs[k], ev))
  }

  /** The calls a step made and whether a hook asked for a full reprocess. */
  datatype Outcome = Outcome(calls: seq<Call>, reprocess: bool)

  /**
   * One hook loop of the summary: offers `ev` to the analyzers from position
   * `i` on, in registration order, skipping those without the hook and
   * stopping at the first that answers true.
   */
  function Offer(reply: Reply, log: seq<Call>, analyzers: seq<Analyzer>, ev: Event, i: nat): (o: Outcome)
    decreases |analyzers| - i
    ensures o.reprocess ==> o.calls != []
  {
    if i >= |analyzers| then Outcome([], false)
    else if !Handles(analyzers[i], ev) then Offer(reply, log, analyzers, ev, i + 1)
    else if reply(log, Hook(i, ev)) then Outcome([Hook(i, ev)], true)
    else
      var rest := Offer(reply, log + [Hook(i, ev)], analyzers, ev, i + 1);
      Outcome([Hook(i, ev)] + rest.calls, rest.reprocess)
  }

  /**
   * A hook loop calls the analyzers that implement the hook, in registration
   * order, each at most once; it leaves some out only after one of them asked
   * for a reprocess.
   */
  lemma {:induction false} OfferVisitsHandlersInOrder(reply: Reply, log: seq<Call>, analyzers: seq<Analyzer>, ev: Event, i: nat)
    decreases |analyzers| - i
    ensures var o := Offer(reply, log, analyzers, ev, i);
            var hs := Handlers(analyzers, ev, i);
            && |o.calls| <= |hs|
            && o.calls == HookCalls(hs[..|o.calls|], ev)
            && (|o.calls| < |hs| ==> o.reprocess)
            && (o.reprocess ==> o.calls != [])
  {
    if i < |analyzers| {
      var hs' := Handlers(analyzers, ev, i + 1);
      if !Handles(analyzers[i], ev) {
        OfferVisitsHandlersInOrder(reply, log, analyzers, ev, i + 1);
        assert Handlers(analyzers, ev, i) == hs';
        assert Offer(reply, log, analyzers, ev, i) == Offer(reply, log, analyzers, ev, i + 1);
      } else {
        var c := Hook(i, ev);
        assert Handlers(analyzers, ev, i) == [i] + hs';
        if reply(log, c) {
          assert Offer(reply, log, analyzers, ev, i) == Outcome([c], true);
          assert ([i] + hs')[..1] == [i];
          assert HookCalls([i], ev) == [c];
        } else {
          var rest := Offer(reply, log + [c], analyzers, ev, i + 1);
          OfferVisitsHandlersInOrder(reply, log + [c], analyzers, ev, i + 1);
          var n := |rest.calls|;
          assert Offer(reply, log, analyzers, ev, i) == Outcome([c] + rest.calls, rest.reprocess);
          assert ([i] + hs')[..n + 1] == [i] + hs'[..n];
          HookCallsCons(i, hs'[..n], ev);
        }
      }
    }
  }

  lemma HookCallsCons(h: nat, hs: seq<nat>, ev: Event)
    ensures HookCalls([h] + hs, ev) == [Hook(h, ev)] + HookCalls(hs, ev)
  {
    assert forall k :: 0 <= k < |hs| ==> ([h] + hs)[k + 1] == hs[k];
  }

  /**
   * In a hook loop every call but the last answered false, and the loop
   * reports a reprocess exactly when the last call answered true.
   */
  lemma {:induction false} OfferStopsAtFirstTrue(reply: Reply, log: seq<Call>, analyzers: seq<Analyzer>, ev: Event, i: nat)
    decreases |analyzers| - i
    ensures var o := Offer(reply, log, analyzers, ev, i);
            && (forall k :: 0 <= k < |o.calls| - 1 ==> !reply(log + o.calls[..k], o.calls[k]))
            && (o.reprocess <==> o.calls != [] && reply(log + o.calls[..|o.calls| - 1], o.calls[|o.calls| - 1]))
  {
    if i < |analyzers| {
      var c := Hook(i, ev);
      if !Handles(analyzers[i], ev) {
        OfferStopsAtFirstTrue(reply, log, analyzers, ev, i + 1);
      } else if !reply(log, c) {
        var rest := Offer(reply, log + [c], analyzers, ev, i + 1);
        OfferStopsAtFirstTrue(reply, log + [c], analyzers, ev, i + 1);
        var o := Offer(reply, log, analyzers, ev, i);
        assert o.calls == [c] + rest.calls;
        assert log + o.calls[..0] == log;
        forall k | 1 <= k <= |o.calls| - 1
          ensures log + o.calls[..k] == (log + [c]) + rest.calls[..k - 1]
          ensures o.calls[k] == rest.calls[k - 1]
        {
          assert o.calls[..k] == [c] + rest.calls[..k - 1];
        }
        forall k | 0 <= k < |o.calls| - 1
          ensures !reply(log + o.calls[..k], o.calls[k])
        {
          if k > 0 {
            assert !reply((log + [c]) + rest.calls[..k - 1], rest.calls[k - 1]);
          }
        }
        if rest.calls != [] {
          var n := |rest.calls|;
          assert reply(log + o.calls[..n], o.calls[n]) == reply((log + [c]) + rest.calls[..n - 1], rest.calls[n - 1]);
        }
      } else {
        assert log + [c][..0] == log;
      }
    }
  }

  /** A hook loop reports a reprocess exactly when some hook it called answered true. */
  lemma OfferReprocessIffSomeTrue(reply: Reply, log: seq<Call>, analyzers: seq<Analyzer>, ev: Event, i: nat)
    ensures var o := Offer(reply, log, analyzers, ev, i);
            o.reprocess <==> exists k :: 0 <= k < |o.calls| && reply(log + o.calls[..k], o.calls[k])
  {
    OfferStopsAtFirstTrue(reply, log, analyzers, ev, i);
  }

  /** A day in microseconds, the unit of message dates. */
  const DayMicros: int := 24 * 60 * 60 * 1000000

  /** `minDate`: thirty days before `nowMs`, in microseconds. */
  function MinDate(nowMs: int): (r: int)
    ensures nowMs * 1000 - r == 30 * DayMicros
  {
    nowMs * 1000 - 30 * DayMicros
  }

  /**
   * Whether a message counts as recent. `minDate` is unset until the first
   * batch pass starts, and `date > undefined` is false.
   */
  predicate IsRecent(m: Message, minDate: Option<int>)
    ensures minDate.None? ==> !IsRecent(m, minDate)
    ensures minDate.Some? ==> (IsRecent(m, minDate) <==> m.date > minDate.value)
  {
    minDate.Some? && m.date > minDate.value
  }

  /**
   * `_processMessage(message, deleted)`: a killed message that is not being
   * deleted reaches no analyzer; otherwise a recent message is offered to
   * `processRecentMessage`, then every message to `processMessage`, each loop
   * stopping at its first true answer.
   */
  function DispatchMessage(reply: Reply, log: seq<Call>, analyzers: seq<Analyzer>, minDate: Option<int>,
                           m: Message, deleted: bool): (o: Outcome)
    ensures m.isKilled && !deleted ==> o == Outcome([], false)
  {
    if m.isKilled && !deleted then Outcome([], false)
    else
      var recent := if IsRecent(m, minDate) then Offer(reply, log, analyzers, RecentEv(m, deleted), 0)
                    else Outcome([], false);
      var process := Offer(reply, log + recent.calls, analyzers, ProcessEv(m, deleted), 0);
      Outcome(recent.calls + process.calls, recent.reprocess || process.reprocess)
  }

  /**
   * Dispatching a message makes hook calls only: first `processRecentMessage`
   * calls, and those only for a recent message, then `processMessage` calls,
   * all carrying the message and the deletion flag.
   */
  lemma DispatchRecentThenProcess(reply: Reply, log: seq<Call>, analyzers: seq<Analyzer>, minDate: Option<int>,
                                  m: Message, deleted: bool)
    ensures var o := DispatchMessage(reply, log, analyzers, minDate, m, deleted);
            && (forall k :: 0 <= k < |o.calls| ==>
                  o.calls[k].Hook? && o.calls[k].ev in {RecentEv(m, deleted), ProcessEv(m, deleted)})
            && (forall k :: 0 <= k < |o.calls| && o.calls[k].ev.RecentEv? ==> IsRecent(m, minDate))
            && (forall k, k' :: 0 <= k < k' < |o.calls| && o.calls[k'].ev.RecentEv? ==> o.calls[k].ev.RecentEv?)
  {
    var o := DispatchMessage(reply, log, analyzers, minDate, m, deleted);
    if !(m.isKilled && !deleted) {
      var rev := RecentEv(m, deleted);
      var pev := ProcessEv(m, deleted);
      var recent := if IsRecent(m, minDate) then Offer(reply, log, analyzers, rev, 0) else Outcome([], false);
      var process := Offer(reply, log + recent.calls, analyzers, pev, 0);
      if IsRecent(m, minDate) {
        OfferCallsCarry(reply, log, analyzers, rev, 0);
      }
      OfferCallsCarry(reply, log + recent.calls, analyzers, pev, 0);
      var p := |recent.calls|;
      assert o.calls == recent.calls + process.calls;
      assert forall k :: 0 <= k < p ==> o.calls[k] == recent.calls[k];
      assert forall k :: p <= k < |o.calls| ==> o.calls[k] == process.calls[k - p];
    } else {
      assert o.calls == [];
    }
  }

  /** Every call a hook loop makes is a call of that loop's hook. */
  lemma OfferCallsCarry(reply: Reply, log: seq<Call>, analyzers: seq<Analyzer>, ev: Event, i: nat)
    ensures forall k :: 0 <= k < |Offer(reply, log, analyzers, ev, i).calls| ==>
              Offer(reply, log, analyzers, ev, i).calls[k].Hook? && Offer(reply, log, analyzers, ev, i).calls[k].ev == ev
  {
    OfferVisitsHandlersInOrder(reply, log, analyzers, ev, i);
  }

  /**
   * The `processMessage` loop runs even when a `processRecentMessage` hook
   * asked for a reprocess: the first analyzer implementing `processMessage`
   * is always called for a message that is not skipped.
   */
  lemma DispatchAlwaysOffersProcess(reply: Reply, log: seq<Call>, analyzers: seq<Analyzer>, minDate: Option<int>,
                                    m: Message, deleted: bool)
    requires !(m.isKilled && !deleted)
    requires Handlers(analyzers, ProcessEv(m, deleted), 0) != []
    ensures Hook(Handlers(analyzers, ProcessEv(m, deleted), 0)[0], ProcessEv(m, deleted))
            in DispatchMessage(reply, log, analyzers, minDate, m, deleted).calls
  {
    var recent := if IsRecent(m, minDate) then Offer(reply, log, analyzers, RecentEv(m, deleted), 0)
                  else Outcome([], false);
    var process := Offer(reply, log + recent.calls, analyzers, ProcessEv(m, deleted), 0);
    OfferVisitsHandlersInOrder(reply, log + recent.calls, analyzers, ProcessEv(m, deleted), 0);
    assert process.calls != [];
    assert process.calls[0] in recent.calls + process.calls;
  }

  /** `_processMessage` returns true exactly when some hook it called answered true. */
  lemma DispatchReprocessIffSomeHookTrue(reply: Reply, log: seq<Call>, analyzers: seq<Analyzer>, minDate: Option<int>,
                                         m: Message, deleted: bool)
    ensures var o := DispatchMessage(reply, log, analyzers, minDate, m, deleted);
            o.reprocess <==> exists k :: 0 <= k < |o.calls| && reply(log + o.calls[..k], o.calls[k])
  {
    var o := DispatchMessage(reply, log, analyzers, minDate, m, deleted);
    if !(m.isKilled && !deleted) {
      var recent := if IsRecent(m, minDate) then Offer(reply, log, analyzers, RecentEv(m, deleted), 0)
                    else Outcome([], false);
      var log' := log + recent.calls;
      var process := Offer(reply, log', analyzers, ProcessEv(m, deleted), 0);
      if IsRecent(m, minDate) {
        OfferReprocessIffSomeTrue(reply, log, analyzers, RecentEv(m, deleted), 0);
      }
      OfferReprocessIffSomeTrue(reply, log', analyzers, ProcessEv(m, deleted), 0);
      assert o.calls == recent.calls + process.calls;
      var p := |recent.calls|;
      forall k | 0 <= k < p
        ensures o.calls[..k] == recent.calls[..k] && o.calls[k] == recent.calls[k]
      {
      }
      forall k | p <= k < |o.calls|
        ensures log + o.calls[..k] == log' + process.calls[..k - p] && o.calls[k] == process.calls[k - p]
      {
        assert o.calls[..k] == recent.calls + process.calls[..k - p];
      }
      if recent.reprocess {
        var k :| 0 <= k < |recent.calls| && reply(log + recent.calls[..k], recent.calls[k]);
        assert reply(log + o.calls[..k], o.calls[k]);
      }
      if process.reprocess {
        var k :| 0 <= k < |process.calls| && reply(log' + process.calls[..k], process.calls[k]);
        assert reply(log + o.calls[..k + p], o.calls[k + p]);
      }
    }
  }

  /** The calls made while dispatching a run of messages, how many were dispatched, and whether the run stopped for a reprocess. */
  datatype RunOutcome = RunOutcome(calls: seq<Call>, processed: nat, reprocess: bool)

  /** How one message is dispatched, given the calls made before it. */
  type Step = (seq<Call>, Message) -> Outcome

  /** Applies `step` to `msgs` in order and stops right after the first that asks for a reprocess. */
  function Run(step: Step, log: seq<Call>, msgs: seq<Message>): (r: RunOutcome)
    decreases |msgs|
    ensures r.processed <= |msgs|
    ensures r.reprocess || r.processed == |msgs|
    ensures r.reprocess ==> r.processed >= 1
  {
    if msgs == [] then RunOutcome([], 0, false)
    else
      var o := step(log, msgs[0]);
      if o.reprocess then RunOutcome(o.calls, 1, true)
      else
        var rest := Run(step, log + o.calls, msgs[1..]);
        RunOutcome(o.calls + rest.calls, 1 + rest.processed, rest.reprocess)
  }

  /**
   * The message loop of a batch pass: dispatches `msgs` in order (as
   * additions) and stops right after the first that asks for a reprocess.
   */
  function DispatchRun(reply: Reply, log: seq<Call>, analyzers: seq<Analyzer>, minDate: Option<int>,
                       msgs: seq<Message>): (r: RunOutcome)
    ensures r.processed <= |msgs|
    ensures r.reprocess || r.processed == |msgs|
    ensures r.reprocess ==> r.processed >= 1
  {
    Run(DispatchStep(reply, analyzers, minDate), log, msgs)
  }

  /** `_processMessage(message, false)` as a step of a run. */
  function DispatchStep(reply: Reply, analyzers: seq<Analyzer>, minDate: Option<int>): (step: Step)
    ensures forall log, m :: step(log, m) == DispatchMessage(reply, log, analyzers, minDate, m, false)
  {
    (log: seq<Call>, m: Message) => DispatchMessage(reply, log, analyzers, minDate, m, false)
  }

  /** A run whose first message does not ask for a reprocess goes on with the rest. */
  lemma RunCons(step: Step, log: seq<Call>, m: Message, tail: seq<Message>)
    requires !step(log, m).reprocess
    ensures var rest := Run(step, log + step(log, m).calls, tail);
            Run(step, log, [m] + tail) == RunOutcome(step(log, m).calls + rest.calls, 1 + rest.processed, rest.reprocess)
  {
    assert ([m] + tail)[1..] == tail;
  }

  /**
   * A run that stops for a reprocess is the run of the messages before the
   * culprit, which did not stop, followed by the culprit's step, which asked
   * for the reprocess.
   */
  lemma {:induction false} RunStopsAtFirstReprocess(step: Step, log: seq<Call>, msgs: seq<Message>)
    decreases |msgs|
    requires Run(step, log, msgs).reprocess
    ensures var r := Run(step, log, msgs);
            var pre := Run(step, log, msgs[..r.processed - 1]);
            var last := step(log + pre.calls, msgs[r.processed - 1]);
            && !pre.reprocess
            && last.reprocess
            && r.calls == pre.calls + last.calls
  {
    var r := Run(step, log, msgs);
    {
      var m := msgs[0];
      var tail := msgs[1..];
      assert msgs == [m] + tail;
      var o := step(log, m);
      if o.reprocess {
        assert msgs[..0] == [];
        assert log + [] == log;
      } else {
        RunCons(step, log, m, tail);
        var rest := Run(step, log + o.calls, tail);
        RunStopsAtFirstReprocess(step, log + o.calls, tail);
        var n := rest.processed - 1;
        assert msgs[..n + 1] == [m] + tail[..n];
        RunCons(step, log, m, tail[..n]);
        assert msgs[n + 1] == tail[n];
        var pre' := Run(step, log + o.calls, tail[..n]);
        assert log + (o.calls + pre'.calls) == log + o.calls + pre'.calls;
      }
    }
  }

  /**
   * Running two pieces one after the other makes the same calls as running
   * them at once, provided the first piece ran to its end.
   */
  lemma {:induction false} RunAppend(step: Step, log: seq<Call>, xs: seq<Message>, ys: seq<Message>)
    decreases |xs|
    requires !Run(step, log, xs).reprocess
    ensures var a := Run(step, log, xs);
            var b := Run(step, log + a.calls, ys);
            Run(step, log, xs + ys) == RunOutcome(a.calls + b.calls, |xs| + b.processed, b.reprocess)
  {
    if xs == [] {
      assert xs + ys == ys;
      assert log + [] == log;
    } else {
      var m := xs[0];
      var tail := xs[1..];
      assert xs == [m] + tail;
      assert xs + ys == [m] + (tail + ys);
      var o := step(log, m);
      RunCons(step, log, m, tail);
      RunCons(step, log, m, tail + ys);
      RunAppend(step, log + o.calls, tail, ys);
      var a' := Run(step, log + o.calls, tail);
      assert log + o.calls + a'.calls == log + (o.calls + a'.calls);
    }
  }

  /** Once a piece of a run stops for a reprocess, nothing after it is dispatched. */
  lemma {:induction false} RunStopsEarly(step: Step, log: seq<Call>, xs: seq<Message>, ys: seq<Message>)
    decreases |xs|
    requires Run(step, log, xs).reprocess
    ensures Run(step, log, xs + ys) == Run(step, log, xs)
  {
    assert xs != [];
    var m := xs[0];
    var tail := xs[1..];
    assert xs == [m] + tail;
    assert xs + ys == [m] + (tail + ys);
    var o := step(log, m);
    if !o.reprocess {
      RunCons(step, log, m, tail);
      RunCons(step, log, m, tail + ys);
      RunStopsEarly(step, log + o.calls, tail, ys);
    }
  }

  /** A batch pass that stops for a reprocess within `xs` never reaches `ys`. */
  lemma DispatchRunStopsEarly(reply: Reply, log: seq<Call>, analyzers: seq<Analyzer>,
                              minDate: Option<int>, xs: seq<Message>, ys: seq<Message>)
    requires DispatchRun(reply, log, analyzers, minDate, xs).reprocess
    ensures DispatchRun(reply, log, analyzers, minDate, xs + ys) == DispatchRun(reply, log, analyzers, minDate, xs)
  {
    RunStopsEarly(DispatchStep(reply, analyzers, minDate), log, xs, ys);
  }

  /**
   * A batch pass that stops for a reprocess has dispatched every message
   * before the culprit without a reprocess, and the culprit asked for one.
   */
  lemma DispatchRunStopsAtFirstReprocess(reply: Reply, log: seq<Call>, analyzers: seq<Analyzer>,
                                         minDate: Option<int>, msgs: seq<Message>)
    requires DispatchRun(reply, log, analyzers, minDate, msgs).reprocess
    ensures var r := DispatchRun(reply, log, analyzers, minDate, msgs);
            var pre := DispatchRun(reply, log, analyzers, minDate, msgs[..r.processed - 1]);
            var last := DispatchMessage(reply, log + pre.calls, analyzers, minDate, msgs[r.processed - 1], false);
            && !pre.reprocess
            && last.reprocess
            && r.calls == pre.calls + last.calls
  {
    RunStopsAtFirstReprocess(DispatchStep(reply, analyzers, minDate), log, msgs);
  }

  /** Dispatching a run in two pieces is dispatching it at once, when the first piece ran to its end. */
  lemma DispatchRunAppend(reply: Reply, log: seq<Call>, analyzers: seq<Analyzer>,
                          minDate: Option<int>, xs: seq<Message>, ys: seq<Message>)
    requires !DispatchRun(reply, log, analyzers, minDate, xs).reprocess
    ensures var a := DispatchRun(reply, log, analyzers, minDate, xs);
            var b := DispatchRun(reply, log + a.calls, analyzers, minDate, ys);
            DispatchRun(reply, log, analyzers, minDate, xs + ys) == RunOutcome(a.calls + b.calls, |xs| + b.processed, b.reprocess)
  {
    RunAppend(DispatchStep(reply, analyzers, minDate), log, xs, ys);
  }
}
