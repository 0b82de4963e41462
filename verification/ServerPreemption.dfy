/** Preemption in the running daemon: when a dispatch can be cancelled, what follows, and
    what else the daemon's goroutines can and cannot do at any moment. */
module ServerPreemption {
  import opened Wrappers
  import D = Dispatch
  import DT = DispatchTheory
  import R = RequestTheory
  import TimingTheory
  import opened Server
  import opened ServerTheory
  import opened ServerTheorems

  // ---------- one clock ----------

  /** No handler is ahead of the daemon's clock. */
  predicate OnClock(g: Daemon) {
    forall i :: 0 <= i < |g.handlers| ==> g.handlers[i].s.now <= g.now
  }

  lemma ClockMoved(g: Daemon, a: Action)
    requires Enabled(g, a)
    ensures Do(g, a).now == if a.Proceed? then a.e.at else if a.KeepAlive? || a.Notify? then a.at else g.now
    ensures Do(g, a).now >= g.now
  {
    hide HandlersAfter, Writes, RegistryAfter, D.Next;
  }

  lemma NextNow(op: D.Op, s: D.State, e: D.TimedEvent)
    requires D.Next(op, s, e).Some?
    ensures D.Next(op, s, e).value.now == e.at
  {
  }

  lemma HandlerOnClock(g: Daemon, a: Action, k: nat)
    requires Enabled(g, a) && OnClock(g) && k < |g.handlers|
    ensures HandlerAfter(g, a, k).s.now <= Do(g, a).now
  {
    hide D.Next, Do;
    ClockMoved(g, a);
    var h := g.handlers[k];
    if a.Proceed? && a.i == k {
      NextNow(OpFor(h), h.s, a.e);
    } else if a.Notify? && k in Targets(g, a.ev) && D.Next(OpFor(h), h.s, D.At(a.ev, a.at)).Some? {
      NextNow(OpFor(h), h.s, D.At(a.ev, a.at));
    }
  }

  lemma ClockStep(g: Daemon, a: Action)
    requires Enabled(g, a) && OnClock(g)
    ensures OnClock(Do(g, a))
  {
    hide Do, Enabled, HandlerAfter;
    LocksMoved(g, a);
    ClockMoved(g, a);
    forall i | 0 <= i < |Do(g, a).handlers|
      ensures Do(g, a).handlers[i].s.now <= Do(g, a).now
    {
      if i < |g.handlers| {
        HandlerMoved(g, a, i);
        HandlerOnClock(g, a, i);
      }
    }
  }

  // ---------- who was cancelled, and who quit ----------

  /** A dispatch that was cancelled had been superseded by then. */
  ghost predicate CancelInv(g: Daemon) {
    forall i :: 0 <= i < |g.handlers| && !TimingTheory.Uncancelled(g.handlers[i].run) ==>
      Entered(g.handlers[i].pc) && !HoldsCancel(g.handlers[i].pc) && g.handlers[i].reg + 1 < |g.registered|
  }

  lemma CancelStepOf(g: Daemon, a: Action, i: nat)
    requires Inv(g) && Enabled(g, a) && CancelInv(g) && i < |g.handlers|
    requires !TimingTheory.Uncancelled(HandlerAfter(g, a, i).run)
    ensures var h' := HandlerAfter(g, a, i);
            Entered(h'.pc) && !HoldsCancel(h'.pc) && h'.reg + 1 < |Do(g, a).registered|
  {
    hide D.Next, D.Exec, Do, HandlerAfter, LockInv, RanInv, OrderInv, RunsInv, ListenInv, WireInv, HandlersInv;
    HandlerMoved(g, a, i);
    HandlerProgressed(g, a, i);
    LocksMoved(g, a);
    CancelNeedsSuperseded(g, a);
    if a.Proceed? && a.i == i && a.e.ev == D.CtxDone {
      SupersededMeans(g, g.handlers[i]);
    }
  }

  lemma CancelNeedsSuperseded(g: Daemon, a: Action)
    requires Inv(g) && Enabled(g, a)
    ensures a.Proceed? && a.e.ev == D.CtxDone ==> Superseded(g, g.handlers[a.i])
  {
    hide D.Next, D.Exec, LockInv, RanInv, OrderInv, RunsInv, ListenInv, WireInv, HandlersInv;
    if a.Proceed? {
      assert RegHandlerInv(g, a.i, g.handlers[a.i]);
    }
  }

  lemma CancelInvStep(g: Daemon, a: Action)
    requires Inv(g) && Enabled(g, a) && CancelInv(g)
    ensures CancelInv(Do(g, a))
  {
    hide Do, Enabled, HandlerAfter, Inv;
    LocksMoved(g, a);
    forall i | 0 <= i < |Do(g, a).handlers| && !TimingTheory.Uncancelled(Do(g, a).handlers[i].run)
      ensures var h := Do(g, a).handlers[i];
              Entered(h.pc) && !HoldsCancel(h.pc) && h.reg + 1 < |Do(g, a).registered|
    {
      if i < |g.handlers| {
        HandlerMoved(g, a, i);
        CancelStepOf(g, a, i);
      }
    }
  }

  predicate HasQuit(h: Handler) {
    Answered(h.pc) && h.ran && h.req.cmd.Quit?
  }

  ghost predicate QuitInv(g: Daemon) {
    && (g.listening <==> !g.quit)
    && (g.quit <==> exists i :: 0 <= i < |g.handlers| && HasQuit(g.handlers[i]))
  }

  lemma QuitMoved(g: Daemon, a: Action)
    requires Enabled(g, a)
    ensures var quits := a.Reply? && g.handlers[a.i].req.cmd.Quit?;
            Do(g, a).quit == (g.quit || quits) && Do(g, a).listening == (g.listening && !quits)
  {
    hide HandlersAfter, Writes, RegistryAfter, D.Next;
  }

  lemma QuitOf(g: Daemon, a: Action, i: nat)
    requires Inv(g) && Enabled(g, a) && i < |g.handlers|
    ensures HasQuit(HandlerAfter(g, a, i)) <==> HasQuit(g.handlers[i]) || (a == Reply(i) && g.handlers[i].req.cmd.Quit?)
  {
    hide D.Next, D.Exec, Do, HandlerAfter, LockInv, RegInv, RanInv, OrderInv, RunsInv, ListenInv, WireInv;
    HandlerMoved(g, a, i);
    assert HandlerInv(g.handlers[i]);
  }

  lemma QuitStep(g: Daemon, a: Action)
    requires Inv(g) && Enabled(g, a) && QuitInv(g)
    ensures QuitInv(Do(g, a))
  {
    hide Do, Enabled, HandlerAfter, Inv, HasQuit;
    LocksMoved(g, a);
    QuitMoved(g, a);
    var g' := Do(g, a);
    forall i | 0 <= i < |g.handlers|
      ensures HasQuit(g'.handlers[i]) <==> HasQuit(g.handlers[i]) || (a == Reply(i) && g.handlers[i].req.cmd.Quit?)
    {
      HandlerMoved(g, a, i);
      QuitOf(g, a, i);
    }
    if a.Accept? {
      NewcomerHasNotQuit(a.req);
    }
    if i :| 0 <= i < |g.handlers| && HasQuit(g.handlers[i]) {
      assert HasQuit(g'.handlers[i]);
    }
    if a.Reply? && g.handlers[a.i].req.cmd.Quit? {
      assert HasQuit(g'.handlers[a.i]);
    }
  }

  lemma NewcomerHasNotQuit(req: D.Request)
    ensures !HasQuit(NewHandler(req))
  {
  }

  // ---------- every run ----------

  lemma {:induction false} Follows(t: Trace, g: Daemon)
    requires Follow(BOOT, t) == Some(g)
    ensures Inv(g) && OnClock(g) && CancelInv(g) && QuitInv(g)
  {
    hide Do, Enabled, Inv, OnClock, CancelInv, QuitInv;
    if t.More? {
      var g0 := Follow(BOOT, t.before).value;
      Follows(t.before, g0);
      InvStep(g0, t.action);
      ClockStep(g0, t.action);
      CancelInvStep(g0, t.action);
      QuitStep(g0, t.action);
    } else {
      InvBoot();
      BootIsOnClock();
    }
  }

  lemma BootIsOnClock()
    ensures OnClock(BOOT) && CancelInv(BOOT) && QuitInv(BOOT)
  {
  }

  lemma Reached(g: Daemon)
    requires Reachable(g)
    ensures Inv(g) && OnClock(g) && CancelInv(g) && QuitInv(g)
  {
    hide Do, Enabled, Inv, OnClock, CancelInv, QuitInv;
    var t :| Follow(BOOT, t) == Some(g);
    Follows(t, g);
  }

  // ---------- preemption ----------

  /** A running dispatch can take exactly its operation's next steps, at any time from
      now on; its cancellation only once a newer handler has superseded it. */
  lemma DispatchSteps(g: Daemon, i: nat, e: D.TimedEvent)
    requires Reachable(g) && i < |g.handlers| && g.handlers[i].pc.Running?
    requires e.at >= g.now && !IsReport(e.ev)
    ensures Enabled(g, Proceed(i, e)) <==>
              && D.Next(OpFor(g.handlers[i]), g.handlers[i].s, e).Some?
              && (e.ev == D.CtxDone ==> Superseded(g, g.handlers[i]))
  {
    hide D.Next, D.Exec, LockInv, HandlersInv, RanInv, OrderInv, RunsInv, ListenInv, WireInv, CancelInv, QuitInv;
    Reached(g);
    assert RegHandlerInv(g, i, g.handlers[i]);
  }

  /** In the select of its loop a running dispatch can stop on its context if and only if
      a newer handler has superseded it. */
  lemma CancellableIffSuperseded(g: Daemon, i: nat, at: nat)
    requires Reachable(g) && i < |g.handlers| && g.handlers[i].pc.Running? && g.handlers[i].s.pc.Select?
    requires at >= g.now
    ensures Enabled(g, Proceed(i, D.At(D.CtxDone, at))) <==> Superseded(g, g.handlers[i])
  {
    hide Enabled, Superseded, D.Next, Inv, CancelInv, QuitInv;
    Reached(g);
    DispatchSteps(g, i, D.At(D.CtxDone, at));
    TimingTheory.OnlyTheLoopHeedsCancel(OpFor(g.handlers[i]), g.handlers[i].s, at);
  }

  lemma {:induction false} ExitOccurs(run: D.Run)
    requires R.Exit(run) == Some(D.CtxDone)
    ensures !TimingTheory.Uncancelled(run)
  {
    if run.event.ev != D.CtxDone {
      ExitOccurs(run.before);
    }
  }

  /** A dispatch takes its cancellation only if a newer request has registered, and only
      then does it answer that it was cancelled. */
  lemma {:induction false} CancelledOnlyIfSuperseded(g: Daemon, i: nat)
    requires Reachable(g) && i < |g.handlers|
    ensures !TimingTheory.Uncancelled(g.handlers[i].run) ==> g.handlers[i].reg + 1 < |g.registered|
    ensures D.Failed(D.Cancelled) in g.handlers[i].replies ==>
              R.Exit(g.handlers[i].run) == Some(D.CtxDone) && g.handlers[i].reg + 1 < |g.registered|
  {
    hide D.Exec, D.Next, LockInv, RegInv, RanInv, OrderInv, ListenInv, WireInv, OnClock, QuitInv;
    Reached(g);
    var h := g.handlers[i];
    assert HandlerInv(h);
    if D.Failed(D.Cancelled) in h.replies {
      assert h.ran && h.s.pc == D.Done(D.Failed(D.Cancelled));
      R.ResponseExplains(OpFor(h), h.run, h.s);
      OnlyCancelAnswersCancelled(OpFor(h), R.Exit(h.run), h.req);
      ExitOccurs(h.run);
    }
  }

  lemma OnlyCancelAnswersCancelled(op: D.Op, exit: Option<D.Event>, req: D.Request)
    requires op == D.OpOf(req) && R.Explains(op, exit, D.Failed(D.Cancelled))
    ensures exit == Some(D.CtxDone)
  {
  }

  // ---------- a superseded dispatch can stop at once ----------

  /** The trace is handler i's own: its cancellation, a write, its deferred calls, its
      answer. No report, no tick and no deadline comes to its help. */
  predicate StopsByItself(t: Trace, i: nat) {
    t.More? ==>
      && StopsByItself(t.before, i)
      && (t.action == Reply(i) ||
          (t.action.Proceed? && t.action.i == i &&
           (t.action.e.ev.CtxDone? || t.action.e.ev.Wrote? || t.action.e.ev.Removed?)))
  }

  /** Handler i's dispatch takes one event now. */
  lemma Advance(g: Daemon, t: Trace, g1: Daemon, i: nat, ev: D.Event) returns (t': Trace, g': Daemon)
    requires Follow(g, t) == Some(g1) && StopsByItself(t, i) && (ev.CtxDone? || ev.Wrote? || ev.Removed?)
    requires Enabled(g1, Proceed(i, D.At(ev, g1.now))) && g1.handlers[i].s.now <= g1.now
    ensures Follow(g, t') == Some(g') && StopsByItself(t', i)
    ensures g'.now == g1.now && i < |g'.handlers|
    ensures var h, h' := g1.handlers[i], g'.handlers[i];
            && h'.s == D.Step(OpFor(h), h.s.(now := g1.now), ev).value && h'.pc == Running
            && h'.req == h.req && h'.replies == h.replies && h'.cancelled == h.cancelled
            && h'.s.now == g1.now
            && g'.wire == g1.wire + if |h'.s.wire| > |h.s.wire| then [Sent(Some(i), h'.s.wire[|h.s.wire|])] else []
  {
    hide D.Step, Do, HandlersAfter;
    var a := Proceed(i, D.At(ev, g1.now));
    t', g' := More(t, a), Do(g1, a);
    HandlerMoved(g1, a, i);
    HandlerProgressed(g1, a, i);
    LocksMoved(g1, a);
    ClockMoved(g1, a);
    NextNow(OpFor(g1.handlers[i]), g1.handlers[i].s, a.e);
    WritesOne(g1, a);
  }

  lemma CanProceed(g: Daemon, i: nat, ev: D.Event)
    requires i < |g.handlers| && g.handlers[i].pc.Running? && g.handlers[i].s.now <= g.now && !g.handlers[i].s.pc.Done?
    requires !IsReport(ev) && (ev.CtxDone? ==> g.handlers[i].cancelled)
    requires D.Step(OpFor(g.handlers[i]), g.handlers[i].s.(now := g.now), ev).Some?
    ensures Enabled(g, Proceed(i, D.At(ev, g.now)))
  {
    hide D.Step;
  }

  lemma AnswerNow(g: Daemon, t: Trace, g1: Daemon, i: nat) returns (t': Trace, g': Daemon)
    requires Follow(g, t) == Some(g1) && StopsByItself(t, i)
    requires i < |g1.handlers| && g1.handlers[i].pc.Running? && g1.handlers[i].s.pc.Done?
    ensures Follow(g, t') == Some(g') && StopsByItself(t', i) && i < |g'.handlers|
    ensures g'.now == g1.now && g'.wire == g1.wire
    ensures g'.handlers[i].pc == Replied
    ensures g'.handlers[i].replies == g1.handlers[i].replies + [g1.handlers[i].s.pc.resp]
  {
    hide Do, HandlersAfter, D.Next;
    var a := Reply(i);
    t', g' := More(t, a), Do(g1, a);
    HandlerMoved(g1, a, i);
    LocksMoved(g1, a);
    ClockMoved(g1, a);
    WritesOne(g1, a);
    assert g1.wire + [] == g1.wire;
  }

  /** From the select of its loop, a superseded dispatch can write its one stop and answer
      without any time passing, whatever becomes of the write: a drive answers that all is
      well, a move or a preset that it was cancelled. */
  lemma SupersededStopsAtOnce(g: Daemon, i: nat, ok: bool) returns (t: Trace, g': Daemon)
    requires Reachable(g) && i < |g.handlers| && g.handlers[i].pc.Running? && g.handlers[i].s.pc.Select?
    requires Superseded(g, g.handlers[i])
    ensures Follow(g, t) == Some(g') && StopsByItself(t, i) && i < |g'.handlers|
    ensures g'.now == g.now && g'.handlers[i].pc == Replied
    ensures g'.wire == g.wire + [Sent(Some(i), D.Entry(D.Command(0x2B, []), ok, g.now))]
    ensures g'.handlers[i].replies ==
              [if OpFor(g.handlers[i]).Drive? then D.OK else D.Failed(D.Cancelled)]
  {
    hide D.Next, Enabled, Follow, Inv, CancelInv, QuitInv, Superseded, StopsByItself;
    Reached(g);
    CancellableIffSuperseded(g, i, g.now);
    SelectIsMotion(g, i);
    StartHere(g, i);
    t, g' := Advance(g, Start, g, i, D.CtxDone);
    CanProceed(g', i, D.Wrote(ok));
    t, g' := Advance(g, t, g', i, D.Wrote(ok));
    if g'.handlers[i].s.pc.Remove? {
      CanProceed(g', i, D.Removed);
      t, g' := Advance(g, t, g', i, D.Removed);
    }
    t, g' := AnswerNow(g, t, g', i);
  }

  lemma StartHere(g: Daemon, i: nat)
    ensures Follow(g, Start) == Some(g) && StopsByItself(Start, i)
  {
  }

  lemma SelectIsMotion(g: Daemon, i: nat)
    requires Inv(g) && i < |g.handlers| && g.handlers[i].pc.Running? && g.handlers[i].s.pc.Select?
    ensures D.Moves(OpFor(g.handlers[i])) && g.handlers[i].replies == []
  {
    hide D.Exec, LockInv, RegInv, RanInv, OrderInv, ListenInv, WireInv;
    assert HandlerInv(g.handlers[i]);
    DT.TranscriptReached(OpFor(g.handlers[i]), g.handlers[i].run, g.handlers[i].s);
  }

  // ---------- the other goroutines ----------

  /** Every report reaches the running dispatch if its listener is registered for that
      kind of report, and no other handler. */
  lemma ReportsReachTheListener(g: Daemon, ev: D.Event, at: nat, i: nat)
    requires Reachable(g) && i < |g.handlers| && IsReport(ev) && at >= g.now
    ensures Enabled(g, Notify(ev, at))
    ensures var h, h' := g.handlers[i], HandlerAfter(g, Notify(ev, at), i);
            if h.pc.Running? && h.s.ears.listening && (OpFor(h).ReadStats? <==> ev.StatsReport?)
            then h'.run == D.Then(h.run, D.At(ev, at)) && D.Next(OpFor(h), h.s, D.At(ev, at)) == Some(h'.s)
            else h'.run == h.run && h'.s == h.s
  {
    hide D.Exec, D.Next, HandlersInv, RegInv, RanInv, OrderInv, WireInv, CancelInv, QuitInv;
    Reached(g);
    var h := g.handlers[i];
    if h.pc.Running? && h.s.ears.listening {
      ListeningIsNotDone(g, i);
      ReportIsHeard(OpFor(h), h.s, ev, at);
      assert g.dispatchMu == Some(i);
    }
  }

  lemma ListeningIsNotDone(g: Daemon, i: nat)
    requires Inv(g) && i < |g.handlers| && g.handlers[i].pc.Running? && g.handlers[i].s.ears.listening
    ensures !g.handlers[i].s.pc.Done?
  {
    hide D.Exec, LockInv, RegInv, RanInv, OrderInv, ListenInv, WireInv;
    assert HandlerInv(g.handlers[i]);
    DT.ListenReached(OpFor(g.handlers[i]), g.handlers[i].run, g.handlers[i].s);
  }

  lemma ReportIsHeard(op: D.Op, s: D.State, ev: D.Event, at: nat)
    requires IsReport(ev) && at >= s.now && !s.pc.Done?
    ensures D.Next(op, s, D.At(ev, at)).Some?
  {
  }

  /** The keep-alive may write its 0x07 at any moment, whoever holds which mutex, and
      changes nothing but the trace and the clock. */
  lemma KeepAliveAnytime(g: Daemon, ok: bool, at: nat)
    ensures Enabled(g, KeepAlive(ok, at)) <==> at >= g.now
    ensures at >= g.now ==>
              Do(g, KeepAlive(ok, at)) ==
                g.(wire := g.wire + [Sent(None, D.Entry(D.Command(0x07, []), ok, at))], now := at)
  {
    assert g.registered + [] == g.registered && g.dispatched + [] == g.dispatched;
    if at >= g.now {
      assert HandlersAfter(g, KeepAlive(ok, at)) == g.handlers;
    }
  }

  /** Connections are accepted exactly until some handler has answered a quit. */
  lemma AcceptsUntilQuit(g: Daemon, req: D.Request)
    requires Reachable(g)
    ensures Enabled(g, Accept(req)) <==> !exists i :: 0 <= i < |g.handlers| && HasQuit(g.handlers[i])
  {
    hide Inv, OnClock, CancelInv, HasQuit;
    Reached(g);
  }

  /** And once that has happened, there is never another handler. */
  lemma {:induction false} NobodyAfterQuit(g: Daemon, t: Trace, g': Daemon)
    requires !g.listening && Follow(g, t) == Some(g')
    ensures !g'.listening && |g'.handlers| == |g.handlers|
  {
    hide Do;
    if t.More? {
      var g0 := Follow(g, t.before).value;
      NobodyAfterQuit(g, t.before, g0);
      QuitMoved(g0, t.action);
      LocksMoved(g0, t.action);
    }
  }

  // ---------- answers ----------

  /** The requests whose connections were accepted, oldest first. */
  function Accepted(t: Trace): seq<D.Request> {
    match t
    case Start => []
    case More(before, a) => Accepted(before) + if a.Accept? then [a.req] else []
  }

  /** Every accepted connection has its own handler, and that handler serves its own
      request to the end. */
  lemma {:induction false} EachServesItsOwn(t: Trace, g: Daemon)
    requires Follow(BOOT, t) == Some(g)
    ensures |g.handlers| == |Accepted(t)|
    ensures forall i :: 0 <= i < |g.handlers| ==> g.handlers[i].req == Accepted(t)[i]
  {
    hide Do, Enabled, HandlerAfter;
    if t.More? {
      var g0 := Follow(BOOT, t.before).value;
      EachServesItsOwn(t.before, g0);
      LocksMoved(g0, t.action);
      forall i | 0 <= i < |g0.handlers|
        ensures g.handlers[i].req == g0.handlers[i].req
      {
        HandlerMoved(g0, t.action, i);
      }
    }
  }

  /** Every dispatch that was answered has written what its request calls for. */
  lemma DispatchedSays(g: Daemon, i: nat)
    requires Reachable(g) && i < |g.handlers| && g.handlers[i].ran && Answered(g.handlers[i].pc)
    ensures |g.handlers[i].replies| == 1 && R.Says(g.handlers[i].req, g.handlers[i].s.wire, g.handlers[i].replies[0])
  {
    hide D.Exec, R.Says, Reachable;
    OneResponse(g, i);
    R.FinishedSays(g.handlers[i].req, g.handlers[i].run, g.handlers[i].s);
  }

  /** Erasing the keep-alive erases nothing else. */
  lemma {:induction false} OnlyKeepAliveIsErased(wire: seq<Sent>, w: Sent)
    ensures w in Erase(wire) <==> w in wire && w.writer.Some?
    ensures multiset(Erase(wire))[w] == if w.writer.Some? then multiset(wire)[w] else 0
  {
    if wire != [] {
      var before, last := wire[..|wire| - 1], wire[|wire| - 1];
      OnlyKeepAliveIsErased(before, w);
      assert wire == before + [last];
    }
  }
}
