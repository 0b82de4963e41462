/** The guarantees of the command server, over every interleaving. */
module ServerTheorems {
  import opened Wrappers
  import D = Dispatch
  import DT = DispatchTheory
  import opened Server
  import opened ServerTheory

  // ---------- serial refinement ----------

  /** One request served alone. */
  datatype Job = Job(req: D.Request, run: D.Run)

  function JobState(job: Job): Option<D.State> {
    D.Exec(D.OpOf(job.req), job.run)
  }

  /** What a server that handles one request at a time writes to FE61. */
  function SerialTrace(jobs: seq<Job>): seq<D.Entry> {
    if jobs == [] then []
    else
      var last := JobState(jobs[|jobs| - 1]);
      SerialTrace(jobs[..|jobs| - 1]) + if last.Some? then last.value.wire else []
  }

  /** The dispatched requests, in the order of their dispatches. */
  function Survivors(g: Daemon): seq<Job> {
    JobsOf(g.handlers, g.dispatched)
  }

  function JobsOf(handlers: seq<Handler>, order: seq<nat>): seq<Job> {
    if order == [] then []
    else
      var last := order[|order| - 1];
      JobsOf(handlers, order[..|order| - 1])
      + if last < |handlers| then [Job(handlers[last].req, handlers[last].run)] else []
  }

  function Entries(wire: seq<Sent>): seq<D.Entry> {
    seq(|wire|, k requires 0 <= k < |wire| => wire[k].entry)
  }

  lemma EntriesConcat(a: seq<Sent>, b: seq<Sent>)
    ensures Entries(a + b) == Entries(a) + Entries(b)
  {
  }

  lemma EntriesTagged(i: nat, wire: seq<D.Entry>)
    ensures Entries(Tagged(i, wire)) == wire
  {
  }

  lemma {:induction false} JobsAre(handlers: seq<Handler>, order: seq<nat>)
    requires forall k :: 0 <= k < |order| ==> order[k] < |handlers|
    ensures |JobsOf(handlers, order)| == |order|
    ensures forall k :: 0 <= k < |order| ==>
              JobsOf(handlers, order)[k] == Job(handlers[order[k]].req, handlers[order[k]].run)
  {
    if order != [] {
      JobsAre(handlers, order[..|order| - 1]);
    }
  }

  lemma {:induction false} TranscriptsAreSerial(handlers: seq<Handler>, order: seq<nat>)
    requires forall k :: 0 <= k < |order| ==>
               && order[k] < |handlers|
               && JobState(Job(handlers[order[k]].req, handlers[order[k]].run)) == Some(handlers[order[k]].s)
    ensures SerialTrace(JobsOf(handlers, order)) == Entries(Transcripts(handlers, order))
  {
    hide JobState;
    if order != [] {
      var earlier, last := order[..|order| - 1], order[|order| - 1];
      TranscriptsAreSerial(handlers, earlier);
      var jobs := JobsOf(handlers, order);
      assert jobs[..|jobs| - 1] == JobsOf(handlers, earlier);
      EntriesConcat(Transcripts(handlers, earlier), TranscriptOf(handlers, last));
      EntriesTagged(last, handlers[last].s.wire);
    }
  }

  /** The concurrent server behaves like a serial one. With the keep-alive erased, the
      FE61 trace is the transcripts of the dispatches one after the other, never
      interleaved, in registration order; it is what a server that serves the
      surviving requests alone would write; and every dispatch but the one still
      running is complete and was answered with its own response. */
  lemma {:induction false} SerialRefinement(g: Daemon)
    requires Reachable(g)
    ensures Erase(g.wire) == Transcripts(g.handlers, g.dispatched)
    ensures Entries(Erase(g.wire)) == SerialTrace(Survivors(g))
    ensures |Survivors(g)| == |g.dispatched|
    ensures forall k :: 0 <= k < |g.dispatched| ==>
              && DispatchedAt(g, k)
              && JobState(Survivors(g)[k]) == Some(g.handlers[g.dispatched[k]].s)
    ensures OldestFirst(g)
  {
    hide D.Exec, Inv, HandlerInv, Erase, Transcripts, Entries, SerialTrace, JobState;
    InvReachable(g);
    InvOrder(g);
    forall k | 0 <= k < |g.dispatched|
      ensures g.dispatched[k] < |g.handlers|
      ensures JobState(Job(g.handlers[g.dispatched[k]].req, g.handlers[g.dispatched[k]].run))
           == Some(g.handlers[g.dispatched[k]].s)
      ensures DispatchedAt(g, k)
    {
      DispatchOf(g, k);
      ReachesIsJob(g.handlers[g.dispatched[k]]);
    }
    JobsAre(g.handlers, g.dispatched);
    TranscriptsAreSerial(g.handlers, g.dispatched);
  }

  lemma ReachesIsJob(h: Handler)
    ensures D.Reaches(OpFor(h), h.run, h.s) <==> JobState(Job(h.req, h.run)) == Some(h.s)
  {
    hide D.Exec;
  }

  ghost predicate DispatchedAt(g: Daemon, k: nat) {
    && k < |g.dispatched| && g.dispatched[k] < |g.handlers|
    && var h := g.handlers[g.dispatched[k]];
    && D.Reaches(OpFor(h), h.run, h.s)
    && if h.pc.Running? then k == |g.dispatched| - 1 && h.replies == [] else h.s.pc.Done? && h.replies == [h.s.pc.resp]
  }

  lemma DispatchOf(g: Daemon, k: nat)
    requires Inv(g) && k < |g.dispatched|
    ensures DispatchedAt(g, k)
  {
    hide D.Exec, LockInv, RegInv, ListenInv, WireInv, D.Reaches;
    var i := g.dispatched[k];
    assert HandlerInv(g.handlers[i]);
    if k < |g.dispatched| - 1 && g.handlers[i].pc.Running? {
      DispatchedDistinct(g, k, i);
    }
  }

  /** Registration numbers increase along the dispatches. */
  ghost predicate OldestFirst(g: Daemon) {
    forall j, k :: 0 <= j < k < |g.dispatched| ==>
      && g.dispatched[j] < |g.handlers| && g.dispatched[k] < |g.handlers|
      && g.handlers[g.dispatched[j]].reg < g.handlers[g.dispatched[k]].reg
  }

  lemma InvOrder(g: Daemon)
    requires Inv(g)
    ensures OldestFirst(g)
    ensures Erase(g.wire) == Transcripts(g.handlers, g.dispatched)
  {
    hide LockInv, RegInv, ListenInv, HandlersInv, RunsInv;
  }

  // ---------- motion safety ----------

  ghost predicate Idle(g: Daemon) {
    forall i :: 0 <= i < |g.handlers| ==> !g.handlers[i].pc.Running?
  }

  lemma {:induction false} KeepAliveMovesNothing(wire: seq<Sent>)
    requires forall k :: 0 <= k < |wire| && wire[k].writer.None? ==> wire[k].entry.command == D.HEIGHT_LIMITS
    ensures DT.Moving(Entries(wire)) == DT.Moving(Entries(Erase(wire)))
  {
    hide DT.Moving;
    if wire != [] {
      var before, last := wire[..|wire| - 1], wire[|wire| - 1];
      KeepAliveMovesNothing(before);
      assert wire == before + [last];
      EntriesConcat(before, [last]);
      EraseMore(before, last);
      EntriesConcat(Erase(before), [last]);
      assert Entries([last]) == [last.entry];
      DT.MovingMore(Entries(before), last.entry);
      DT.MovingMore(Entries(Erase(before)), last.entry);
    }
  }

  lemma KeepAliveStep(g: Daemon, a: Action)
    requires Enabled(g, a) && OnlyKeepAlive(g.wire)
    ensures OnlyKeepAlive(Do(g, a).wire)
  {
    hide D.Next, D.Step;
    WritesOne(g, a);
  }

  /** What nobody in particular wrote is the keep-alive. */
  ghost predicate OnlyKeepAlive(wire: seq<Sent>) {
    forall k :: 0 <= k < |wire| && wire[k].writer.None? ==> wire[k].entry.command == D.HEIGHT_LIMITS
  }

  lemma {:induction false} KeepAliveFollows(t: Trace, g: Daemon)
    requires Follow(BOOT, t) == Some(g)
    ensures OnlyKeepAlive(g.wire)
  {
    hide Do, Enabled;
    if t.More? {
      KeepAliveFollows(t.before, Follow(BOOT, t.before).value);
      KeepAliveStep(Follow(BOOT, t.before).value, t.action);
    }
  }

  lemma {:induction false} TranscriptsNotMoving(g: Daemon, order: seq<nat>)
    requires RunsInv(g)
    requires forall k :: 0 <= k < |order| ==>
               order[k] < |g.handlers| && g.handlers[order[k]].ran && g.handlers[order[k]].s.pc.Done?
    ensures !DT.Moving(Entries(Transcripts(g.handlers, order)))
  {
    hide D.Exec, DT.Moving;
    if order == [] {
      assert Entries([]) == [];
      DT.NoMotionNotMoving([]);
    } else {
      var earlier, last := order[..|order| - 1], g.handlers[order[|order| - 1]];
      TranscriptsNotMoving(g, earlier);
      EntriesConcat(Transcripts(g.handlers, earlier), TranscriptOf(g.handlers, order[|order| - 1]));
      EntriesTagged(order[|order| - 1], last.s.wire);
      DT.FinishedIsSettled(OpFor(last), last.run, last.s);
      DT.SettledIffNotMoving(last.s.wire);
      DT.MovingConcat(Entries(Transcripts(g.handlers, earlier)), last.s.wire);
    }
  }

  /** Whenever dispatchMu is free, or held by a handler that is not in dispatch, every
      motion write that succeeded is followed in the trace by a stop attempt, and no
      listener is registered. */
  lemma MotionSafety(g: Daemon)
    requires Reachable(g)
    requires g.dispatchMu.None? || Idle(g)
    ensures DT.Settled(Entries(g.wire))
    ensures g.listeners == [] && g.statsListeners == []
  {
    hide D.Exec, Erase, Transcripts, DT.Moving, DT.Settled, RegInv;
    InvReachable(g);
    var t :| Follow(BOOT, t) == Some(g);
    KeepAliveFollows(t, g);
    KeepAliveMovesNothing(g.wire);
    forall k | 0 <= k < |g.dispatched|
      ensures g.handlers[g.dispatched[k]].s.pc.Done?
    {
      assert HandlerInv(g.handlers[g.dispatched[k]]);
    }
    TranscriptsNotMoving(g, g.dispatched);
    DT.SettledIffNotMoving(Entries(g.wire));
  }

  /** At every moment each registry holds at most the running dispatch's listener. */
  lemma AtMostOneListener(g: Daemon)
    requires Reachable(g)
    ensures |g.listeners| + |g.statsListeners| <= 1
    ensures forall i :: i in g.listeners || i in g.statsListeners ==>
              i < |g.handlers| && g.handlers[i].pc.Running? && g.handlers[i].idx == 0
  {
    hide D.Exec, HandlersInv, RegInv, RanInv, OrderInv, RunsInv, WireInv, LockInv;
    InvReachable(g);
  }

  // ---------- answers ----------

  /** Each handler writes exactly one response, once it is through: the result of its
      dispatch, or, if it was not dispatched, that a newer request preempted it. */
  lemma OneResponse(g: Daemon, i: nat)
    requires Reachable(g) && i < |g.handlers|
    ensures var h := g.handlers[i];
            && |h.replies| == (if Answered(h.pc) then 1 else 0)
            && (Answered(h.pc) && h.ran ==>
                  D.Reaches(OpFor(h), h.run, h.s) && h.s.pc.Done? && h.replies[0] == h.s.pc.resp)
            && (Answered(h.pc) && !h.ran ==> h.replies[0] == D.Preempted && h.reg + 1 < |g.registered|)
  {
    hide D.Exec, LockInv, RanInv, OrderInv, ListenInv, WireInv;
    InvReachable(g);
    assert HandlerInv(g.handlers[i]) && RegHandlerInv(g, i, g.handlers[i]);
  }

  /** A handler that looks at its context is turned away exactly if a newer one has
      entered the registration section and cancelled it. */
  lemma PreemptedIffSuperseded(g: Daemon, i: nat)
    requires Reachable(g) && Enabled(g, CheckContext(i))
    ensures Do(g, CheckContext(i)).handlers[i].replies == [D.Preempted] <==> Superseded(g, g.handlers[i])
    ensures Superseded(g, g.handlers[i]) ==> g.handlers[i].reg + 1 < |g.registered|
  {
    hide D.Exec, D.Next, LockInv, RanInv, OrderInv, ListenInv, WireInv, Do;
    InvReachable(g);
    HandlerMoved(g, CheckContext(i), i);
    assert HandlerInv(g.handlers[i]) && RegHandlerInv(g, i, g.handlers[i]);
  }

  /** The last request to register is never turned away. */
  lemma LastCommandWins(g: Daemon)
    requires Reachable(g) && g.registered != []
    ensures var last := g.registered[|g.registered| - 1];
            last < |g.handlers| && (Answered(g.handlers[last].pc) ==> g.handlers[last].ran)
  {
    hide D.Exec, LockInv, RanInv, OrderInv, ListenInv, WireInv;
    InvReachable(g);
    var last := g.registered[|g.registered| - 1];
    assert RegHandlerInv(g, last, g.handlers[last]);
  }

  /** Registered, not yet through, and not cancelled. */
  predicate Live(h: Handler) {
    Entered(h.pc) && !HoldsCancel(h.pc) && !h.pc.Closed? && !h.cancelled
  }

  lemma LiveUnique(g: Daemon, i: nat, j: nat)
    requires Inv(g) && i < |g.handlers| && j < |g.handlers|
    requires Live(g.handlers[i]) && Live(g.handlers[j])
    ensures i == j
  {
    hide D.Exec, LockInv, HandlersInv, RanInv, OrderInv, ListenInv, WireInv, RunsInv;
    assert RegHandlerInv(g, i, g.handlers[i]) && RegHandlerInv(g, j, g.handlers[j]);
  }

  /** At most one unfinished context is ever uncancelled. */
  lemma AtMostOneLive(g: Daemon, i: nat, j: nat)
    requires Reachable(g) && i < |g.handlers| && j < |g.handlers|
    requires Live(g.handlers[i]) && Live(g.handlers[j])
    ensures i == j
  {
    hide Inv;
    InvReachable(g);
    LiveUnique(g, i, j);
  }

  // ---------- bounded bypass ----------

  /** Registered, waiting for its turn, and not cancelled. */
  predicate InLine(h: Handler) {
    (h.pc.Waiting? || h.pc.Locked?) && !h.cancelled
  }

  predicate PastRegister(pc: Pc) {
    Entered(pc) && !HoldsCancel(pc)
  }

  /** If handler i is in line after an action and had registered before it, it was in
      line before it; and no dispatch started. */
  lemma NobodyStarts(g: Daemon, a: Action, i: nat)
    requires Inv(g) && Enabled(g, a) && i < |g.handlers| && PastRegister(g.handlers[i].pc)
    requires InLine(Do(g, a).handlers[i])
    ensures InLine(g.handlers[i])
    ensures Do(g, a).dispatched == g.dispatched
  {
    hide D.Exec, D.Next, Do, HandlerAfter, Inv, Enabled;
    LocksMoved(g, a);
    HandlerMoved(g, a, i);
    InLineCancelled(g, a, i);
    if a.CheckContext? && !g.handlers[a.i].cancelled {
      LockedIsEntered(g, a.i);
      LiveUnique(g, i, a.i);
    }
  }

  lemma LockedIsEntered(g: Daemon, i: nat)
    requires i < |g.handlers| && g.handlers[i].pc.Locked?
    ensures Entered(g.handlers[i].pc) && !HoldsCancel(g.handlers[i].pc)
  {
  }

  lemma InLineCancelled(g: Daemon, a: Action, i: nat)
    requires Enabled(g, a) && i < |g.handlers| && PastRegister(g.handlers[i].pc) && InLine(Do(g, a).handlers[i])
    ensures InLine(g.handlers[i]) && Live(g.handlers[i])
  {
    hide D.Next, Do, HandlerAfter, Enabled;
    LocksMoved(g, a);
    HandlerMoved(g, a, i);
  }

  /** No dispatch starting, whoever is running was running, and only it writes. */
  lemma OnlyTheRunnerWrites(g: Daemon, a: Action)
    requires Enabled(g, a) && Do(g, a).dispatched == g.dispatched
    ensures forall k :: 0 <= k < |g.handlers| && Do(g, a).handlers[k].pc.Running? ==> g.handlers[k].pc.Running?
    ensures |Do(g, a).handlers| >= |g.handlers|
    ensures forall k :: |g.handlers| <= k < |Do(g, a).handlers| ==> !Do(g, a).handlers[k].pc.Running?
    ensures Do(g, a).wire == g.wire + Writes(g, a)
    ensures forall w :: w in Writes(g, a) && w.writer.Some? ==>
              w.writer.value < |g.handlers| && g.handlers[w.writer.value].pc.Running?
  {
    hide D.Next, Do, HandlerAfter;
    LocksMoved(g, a);
    WritesOne(g, a);
    forall k | 0 <= k < |g.handlers| && Do(g, a).handlers[k].pc.Running?
      ensures g.handlers[k].pc.Running?
    {
      HandlerMoved(g, a, k);
      if a == CheckContext(k) && !g.handlers[k].cancelled {
        assert |g.dispatched + [k]| == |g.dispatched| + 1;
      }
    }
  }

  predicate WasRunning(g: Daemon, k: nat) {
    k < |g.handlers| && g.handlers[k].pc.Running?
  }

  lemma {:induction false} BypassFollows(g: Daemon, t: Trace, g': Daemon, i: nat)
    requires Inv(g) && Follow(g, t) == Some(g')
    requires i < |g.handlers| && PastRegister(g.handlers[i].pc)
    ensures i < |g'.handlers| && PastRegister(g'.handlers[i].pc)
    ensures InLine(g'.handlers[i]) ==>
              && g'.dispatched == g.dispatched
              && g.wire <= g'.wire
              && (forall w :: w in g'.wire[|g.wire|..] && w.writer.Some? ==> WasRunning(g, w.writer.value))
              && (forall k :: 0 <= k < |g'.handlers| && g'.handlers[k].pc.Running? ==> WasRunning(g, k))
  {
    hide Inv, Do, Enabled, HandlerAfter, Writes;
    if t.More? {
      var mid := Follow(g, t.before).value;
      BypassFollows(g, t.before, mid, i);
      InvFollows(g, t.before, mid);
      PastRegisterStep(mid, t.action, i);
      if InLine(g'.handlers[i]) {
        NobodyStarts(mid, t.action, i);
        OnlyTheRunnerWrites(mid, t.action);
        assert g'.wire[|g.wire|..] == mid.wire[|g.wire|..] + Writes(mid, t.action);
      }
    }
  }

  lemma PastRegisterStep(g: Daemon, a: Action, i: nat)
    requires Enabled(g, a) && i < |g.handlers| && PastRegister(g.handlers[i].pc)
    ensures i < |Do(g, a).handlers| && PastRegister(Do(g, a).handlers[i].pc)
  {
    hide D.Next, Do, HandlerAfter, Enabled;
    LocksMoved(g, a);
    HandlerMoved(g, a, i);
  }

  /** From the moment a request has registered until it is dispatched or cancelled,
      no other dispatch starts: whatever is written meanwhile, by any number of older
      and newer handlers, is the keep-alive's or that of the one handler that was
      already in dispatch. */
  lemma BoundedBypass(g: Daemon, t: Trace, g': Daemon, i: nat)
    requires Reachable(g) && Follow(g, t) == Some(g')
    requires i < |g.handlers| && InLine(g.handlers[i])
    requires i < |g'.handlers| && InLine(g'.handlers[i])
    ensures g'.dispatched == g.dispatched
    ensures g.wire <= g'.wire
    ensures forall w, v :: w in g'.wire[|g.wire|..] && v in g'.wire[|g.wire|..] && w.writer.Some? && v.writer.Some? ==>
              w.writer == v.writer && WasRunning(g, w.writer.value)
  {
    hide Inv, Do, Enabled;
    InvReachable(g);
    BypassFollows(g, t, g', i);
    OneRunner(g);
  }

  lemma OneRunner(g: Daemon)
    requires Inv(g)
    ensures forall j, k :: WasRunning(g, j) && WasRunning(g, k) ==> j == k
  {
    hide HandlersInv, RegInv, RanInv, OrderInv, RunsInv, ListenInv, WireInv;
  }

  // ---------- progress ----------

  predicate Unfinished(h: Handler) {
    !h.pc.Closed? && !h.pc.Dropped?
  }

  /** What a handler outside dispatch does next. */
  function OwnAction(k: nat, pc: Pc): Action {
    match pc
    case Opened => Decode(k)
    case Decoded => LockCancel(k)
    case InCancel => CancelPrevious(k)
    case AfterCancel => Register(k)
    case Waiting => LockDispatch(k)
    case Locked => CheckContext(k)
    case Replied => Unlock(k)
    case _ => CancelOwn(k)
  }

  /** Whoever holds a mutex that others wait for, or else anyone unfinished. */
  function Foremost(g: Daemon, i: nat): nat {
    if g.dispatchMu.Some? then g.dispatchMu.value else if g.cancelMu.Some? then g.cancelMu.value else i
  }

  lemma ForemostCanAct(g: Daemon, i: nat)
    requires LockInv(g) && i < |g.handlers| && Unfinished(g.handlers[i])
    ensures Foremost(g, i) < |g.handlers|
    ensures var h := g.handlers[Foremost(g, i)];
            h.pc.Running? || Enabled(g, OwnAction(Foremost(g, i), h.pc))
  {
  }

  /** The daemon never deadlocks: while some handler is not through, some handler can
      take a step, without a new request, a notification or a cancellation. */
  lemma NoDeadlock(g: Daemon, i: nat) returns (a: Action)
    requires Reachable(g) && i < |g.handlers| && Unfinished(g.handlers[i])
    ensures Enabled(g, a) && ByHandler(a) && !(a.Proceed? && a.e.ev == D.CtxDone)
  {
    hide D.Exec, D.Next, LockInv, RegInv, RanInv, OrderInv, ListenInv, WireInv, Foremost;
    InvReachable(g);
    ForemostCanAct(g, i);
    var k := Foremost(g, i);
    var h := g.handlers[k];
    a := OwnAction(k, h.pc);
    if h.pc.Running? {
      assert HandlerInv(h);
      if h.s.pc.Done? {
        a := Reply(k);
      } else {
        var e := DT.NeverStuck(OpFor(h), h.run, h.s, g.now);
        a := Proceed(k, e);
      }
    }
  }
}
