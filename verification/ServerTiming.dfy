/** The firmware under the whole daemon's FE61 trace: dispatches one after the other,
    with the keep-alive in between. */
module ServerTiming {
  import opened Wrappers
  import D = Dispatch
  import DT = DispatchTheory
  import opened TimingTheory
  import opened Server
  import opened ServerTheory
  import ServerTheorems

  /** Handler h is in a dispatch that moves the desk. */
  predicate Drives(h: Handler) {
    h.pc.Running? && D.Moves(OpFor(h))
  }

  /** When the daemon's clock moves on, it does not leave a motion loop behind. */
  predicate Timely(g: Daemon, a: Action, setup: nat, latency: nat) {
    forall i :: 0 <= i < |g.handlers| && Drives(g.handlers[i]) ==>
      match a
      case Proceed(k, e) => k == i ==> OnTime(g.handlers[i].s, e, setup, latency)
      case KeepAlive(_, at) => OnTime(g.handlers[i].s, D.At(D.TimerFires, at), setup, latency)
      case Notify(ev, at) => OnTime(g.handlers[i].s, D.At(ev, at), setup, latency)
      case _ => true
  }

  predicate PunctualTrace(t: Trace, setup: nat, latency: nat) {
    t.More? ==>
      && PunctualTrace(t.before, setup, latency)
      && Follow(BOOT, t.before).Some?
      && Timely(Follow(BOOT, t.before).value, t.action, setup, latency)
  }

  /** Punctuality asks nothing of a daemon at rest; and of one whose dispatch waits in its
      select with its writes working, only that the clock stays within the latency of the
      next tick. */
  lemma TimelyWithinPeriod(g: Daemon, setup: nat, latency: nat, at: nat)
    requires forall i :: 0 <= i < |g.handlers| && Drives(g.handlers[i]) ==>
      var h := g.handlers[i];
      && h.s.pc.Select? && h.s.clock.tickerAt <= h.s.clock.lastTick
      && at <= LastDue(h.s.clock) + 200 + latency
    ensures forall ok :: Timely(g, KeepAlive(ok, at), setup, latency)
    ensures forall ev: D.Event :: !ev.Wrote? ==> Timely(g, Notify(ev, at), setup, latency)
    ensures forall k, ev: D.Event :: !ev.Wrote? ==> Timely(g, Proceed(k, D.At(ev, at)), setup, latency)
  {
  }

  lemma PunctualSoFar(t: Trace, g: Daemon, a: Action, setup: nat, latency: nat)
    requires Follow(BOOT, t) == Some(g)
    ensures PunctualTrace(Start, setup, latency)
    ensures PunctualTrace(More(t, a), setup, latency) <==>
              PunctualTrace(t, setup, latency) && Timely(g, a, setup, latency)
  {
    hide Timely, Follow;
  }

  // ---------- the invariant ----------

  /** A motion dispatch is on time so far, and the firmware is where it should be. */
  predicate OnCourse(h: Handler, now: nat, f: Firmware, before: Firmware, setup: nat, latency: nat) {
    && Punctual(OpFor(h), h.run, setup, latency)
    && h.s.now <= now
    && CadenceInv(h.s.(now := now), setup, latency)
    && FirmwareInv(OpFor(h), h.s.pc, h.s.wire, f, before)
  }

  predicate Unmoved(g: Daemon) {
    forall i :: 0 <= i < |g.handlers| ==> !Drives(g.handlers[i])
  }

  predicate CourseInv(g: Daemon, f: Firmware, before: Firmware, setup: nat, latency: nat) {
    && f.gapStops == before.gapStops
    && (forall i :: 0 <= i < |g.handlers| && Drives(g.handlers[i]) ==>
          OnCourse(g.handlers[i], g.now, f, before, setup, latency))
    && (Unmoved(g) ==> !f.mode.MovingBy?)
  }

  // ---------- one handler across one action ----------

  lemma CadenceLater(s: D.State, now: nat, ev: D.Event, at: nat, setup: nat, latency: nat)
    requires s.now <= now <= at && CadenceInv(s.(now := now), setup, latency)
    requires OnTime(s, D.At(ev, at), setup, latency)
    ensures CadenceInv(s.(now := at), setup, latency)
  {
  }

  /** A keep-alive in time does nothing to a desk, moving or not. */
  lemma KeepAliveInTime(f: Firmware, s: D.State, op: D.Op, before: Firmware, ok: bool, at: nat, setup: nat, latency: nat)
    requires setup + latency <= 50 && D.Moves(op) && DT.Transcript(op, s.pc, s.wire)
    requires CadenceInv(s.(now := at), setup, latency) && FirmwareInv(op, s.pc, s.wire, f, before)
    ensures Receive(f, D.Entry(D.HEIGHT_LIMITS, ok, at)) == f
  {
  }

  lemma StillWhileStill(f: Firmware, e: D.Entry)
    requires !f.mode.MovingBy? && !D.IsMotion(e.command)
    ensures !Receive(f, e).mode.MovingBy? && Receive(f, e).gapStops == f.gapStops
  {
  }

  lemma StartOnCourse(op: D.Op, now: nat, f: Firmware, before: Firmware, setup: nat, latency: nat)
    requires D.Moves(op) && !f.mode.MovingBy? && f.gapStops == before.gapStops
    ensures Punctual(op, D.Begin(now), setup, latency)
    ensures CadenceInv(D.Initial(op, now), setup, latency)
    ensures FirmwareInv(op, D.Initial(op, now).pc, [], f, before)
  {
  }

  /** The runner's own step. */
  lemma OwnCourse(g: Daemon, i: nat, e: D.TimedEvent, f: Firmware, before: Firmware, setup: nat, latency: nat)
    requires Inv(g) && Enabled(g, Proceed(i, e)) && setup + latency <= 50
    requires Drives(g.handlers[i]) && OnTime(g.handlers[i].s, e, setup, latency)
    requires OnCourse(g.handlers[i], g.now, f, before, setup, latency)
    ensures var h' := HandlerAfter(g, Proceed(i, e), i);
            OnCourse(h', e.at, Fed(f, g.handlers[i].s.wire, h'.s.wire), before, setup, latency)
  {
    hide D.Step, D.Exec, Inv, HandlerAfter, OnTime, CadenceInv, FirmwareInv, DT.Transcript, Fed;
    var h := g.handlers[i];
    RunningReaches(g, i);
    HandlerMoved(g, Proceed(i, e), i);
    HandlerProgressed(g, Proceed(i, e), i);
    CadenceReached(OpFor(h), h.run, h.s, setup, latency);
    DT.TranscriptReached(OpFor(h), h.run, h.s);
    CadenceStep(OpFor(h), h.s, e, setup, latency);
    FirmwareStep(OpFor(h), h.s, e, setup, latency, f, before);
    NextNow(OpFor(h), h.s, e);
    PunctualMore(OpFor(h), h.run, h.s, e, setup, latency);
  }

  lemma RunningReaches(g: Daemon, i: nat)
    requires Inv(g) && i < |g.handlers| && g.handlers[i].pc.Running?
    ensures D.Reaches(OpFor(g.handlers[i]), g.handlers[i].run, g.handlers[i].s)
  {
    hide D.Exec, D.Reaches, LockInv, RegInv, RanInv, OrderInv, ListenInv, WireInv;
    assert HandlerInv(g.handlers[i]);
  }

  lemma NextNow(op: D.Op, s: D.State, e: D.TimedEvent)
    requires D.Next(op, s, e).Some?
    ensures D.Next(op, s, e).value.now == e.at && D.Next(op, s, e).value.(now := e.at) == D.Next(op, s, e).value
  {
  }

  lemma PunctualMore(op: D.Op, run: D.Run, s: D.State, e: D.TimedEvent, setup: nat, latency: nat)
    requires Punctual(op, run, setup, latency) && D.Reaches(op, run, s) && OnTime(s, e, setup, latency)
    ensures Punctual(op, D.Then(run, e), setup, latency)
  {
    hide D.Exec, OnTime;
  }

  /** A notification leaves the runner's program counter and transcript alone. */
  lemma ReportFrame(op: D.Op, s: D.State, e: D.TimedEvent)
    requires IsReport(e.ev) && D.Next(op, s, e).Some?
    ensures var s' := D.Next(op, s, e).value;
            s'.pc == s.pc && s'.wire == s.wire && s'.clock == s.clock && s'.now == e.at
  {
  }

  lemma CadenceDepends(s: D.State, s': D.State, setup: nat, latency: nat)
    requires CadenceInv(s, setup, latency)
    requires s'.pc == s.pc && s'.now == s.now && s'.clock == s.clock && s'.wire == s.wire
    ensures CadenceInv(s', setup, latency)
  {
  }

  /** The runner across a step that is not its own. */
  lemma OtherCourse(g: Daemon, a: Action, i: nat, f: Firmware, before: Firmware, setup: nat, latency: nat)
    requires Inv(g) && Enabled(g, a) && Timely(g, a, setup, latency) && setup + latency <= 50
    requires i < |g.handlers| && Drives(g.handlers[i]) && !Acts(a, i) && !a.Proceed?
    requires OnCourse(g.handlers[i], g.now, f, before, setup, latency)
    ensures OnCourse(HandlerAfter(g, a, i), Do(g, a).now, FedSent(f, Writes(g, a)), before, setup, latency)
  {
    hide D.Step, D.Next, D.Exec, Inv, HandlerAfter, OnTime, CadenceInv, FirmwareInv, Receive, Do, Enabled, DT.Transcript, Punctual;
    var h, h' := g.handlers[i], HandlerAfter(g, a, i);
    RunningReaches(g, i);
    HandlerMoved(g, a, i);
    HandlerProgressed(g, a, i);
    TimeMoved(g, a);
    DT.TranscriptReached(OpFor(h), h.run, h.s);
    if a.KeepAlive? {
      CadenceLater(h.s, g.now, D.TimerFires, a.at, setup, latency);
      KeepAliveInTime(f, h.s, OpFor(h), before, a.ok, a.at, setup, latency);
      Untargeted(g, a, i);
    } else if a.Notify? {
      CadenceLater(h.s, g.now, a.ev, a.at, setup, latency);
      Targeted(g, a, i);
      if h'.run != h.run {
        ReportFrame(OpFor(h), h.s, D.At(a.ev, a.at));
        PunctualMore(OpFor(h), h.run, h.s, D.At(a.ev, a.at), setup, latency);
        CadenceDepends(h.s.(now := a.at), h'.s, setup, latency);
        NowTwice(h'.s, a.at);
      }
    } else {
      Untargeted(g, a, i);
    }
  }

  lemma NowTwice(s: D.State, at: nat)
    requires s.now == at
    ensures s.(now := at) == s
  {
  }

  /** The clock and the trace across a step that is not of a dispatch. */
  lemma TimeMoved(g: Daemon, a: Action)
    requires Enabled(g, a) && !a.Proceed?
    ensures Do(g, a).now == if a.KeepAlive? || a.Notify? then a.at else g.now
    ensures Writes(g, a) == if a.KeepAlive? then [Sent(None, D.Entry(D.HEIGHT_LIMITS, a.ok, a.at))] else []
    ensures a.KeepAlive? || a.Notify? ==> a.at >= g.now
  {
    hide HandlersAfter, RegistryAfter;
  }

  lemma Untargeted(g: Daemon, a: Action, i: nat)
    requires Enabled(g, a) && i < |g.handlers| && !Acts(a, i) && !a.Notify?
    ensures HandlerAfter(g, a, i).run == g.handlers[i].run && HandlerAfter(g, a, i).s == g.handlers[i].s
  {
  }

  lemma Targeted(g: Daemon, a: Action, i: nat)
    requires Enabled(g, a) && i < |g.handlers| && a.Notify?
    ensures IsReport(a.ev)
    ensures var h, h' := g.handlers[i], HandlerAfter(g, a, i);
            || (h'.run == h.run && h'.s == h.s)
            || (h'.run == D.Then(h.run, D.At(a.ev, a.at))
                && D.Next(OpFor(h), h.s, D.At(a.ev, a.at)) == Some(h'.s))
  {
    hide D.Next;
  }

  /** The firmware after what an action writes. */
  function FedSent(f: Firmware, sent: seq<Sent>): Firmware {
    if sent == [] then f else Receive(f, sent[0].entry)
  }

  // ---------- the daemon across one action ----------

  /** Whoever drives after an action drove before it, or begins with it. */
  lemma DriverBefore(g: Daemon, a: Action, k: nat)
    requires Inv(g) && Enabled(g, a) && k < |Do(g, a).handlers| && Drives(Do(g, a).handlers[k])
    ensures k < |g.handlers| && Do(g, a).handlers[k] == HandlerAfter(g, a, k)
    ensures a == CheckContext(k) || (Drives(g.handlers[k]) && (Acts(a, k) <==> a.Proceed?))
    ensures a == CheckContext(k) ==> Unmoved(g) && !g.handlers[k].cancelled
  {
    hide D.Next, D.Exec, HandlersInv, RegInv, RanInv, OrderInv, RunsInv, ListenInv, WireInv, Do, HandlerAfter;
    LocksMoved(g, a);
    if k < |g.handlers| {
      HandlerMoved(g, a, k);
    }
  }

  lemma StartCourse(g: Daemon, k: nat, f: Firmware, before: Firmware, setup: nat, latency: nat)
    requires Enabled(g, CheckContext(k)) && !g.handlers[k].cancelled && D.Moves(OpFor(g.handlers[k]))
    requires !f.mode.MovingBy? && f.gapStops == before.gapStops
    ensures OnCourse(HandlerAfter(g, CheckContext(k), k), Do(g, CheckContext(k)).now,
                     FedSent(f, Writes(g, CheckContext(k))), before, setup, latency)
  {
    hide D.Next, Do, CadenceInv, FirmwareInv, Punctual;
    TimeMoved(g, CheckContext(k));
    StartOnCourse(OpFor(g.handlers[k]), g.now, f, before, setup, latency);
    NowTwice(D.Initial(OpFor(g.handlers[k]), g.now), g.now);
  }

  /** What the running handler writes is what its transcript grows by. */
  lemma OwnWrite(g: Daemon, i: nat, e: D.TimedEvent, f: Firmware)
    requires Enabled(g, Proceed(i, e))
    ensures FedSent(f, Writes(g, Proceed(i, e))) == Fed(f, g.handlers[i].s.wire, HandlerAfter(g, Proceed(i, e), i).s.wire)
    ensures Do(g, Proceed(i, e)).now == e.at
  {
    hide D.Next, Receive, HandlersAfter, RegistryAfter;
  }

  lemma QueryOnly(op: D.Op, pc: D.Pc, wire: seq<D.Entry>)
    requires !D.Moves(op) && DT.Transcript(op, pc, wire)
    ensures DT.QueryWire(wire)
  {
  }

  /** An operation that does not move the desk writes no motion command. */
  lemma NonMotionWrite(g: Daemon, a: Action)
    requires Inv(g) && Enabled(g, a) && Unmoved(g)
    ensures Writes(g, a) != [] ==> !D.IsMotion(Writes(g, a)[0].entry.command)
  {
    hide D.Next, D.Step, D.Exec, Inv, DT.Transcript;
    if a.Proceed? {
      var h := g.handlers[a.i];
      assert !Drives(h);
      RunningReaches(g, a.i);
      var s' := D.Next(OpFor(h), h.s, a.e).value;
      MoreReaches(OpFor(h), h.run, h.s, a.e);
      DT.TranscriptReached(OpFor(h), D.Then(h.run, a.e), s');
      QueryOnly(OpFor(h), s'.pc, s'.wire);
    }
  }

  lemma MoreReaches(op: D.Op, run: D.Run, s: D.State, e: D.TimedEvent)
    requires D.Reaches(op, run, s) && D.Next(op, s, e).Some?
    ensures D.Reaches(op, D.Then(run, e), D.Next(op, s, e).value)
  {
    hide D.Next;
  }

  lemma DriverLeaves(g: Daemon, a: Action, k: nat)
    requires Enabled(g, a) && k < |g.handlers| && Drives(g.handlers[k])
    ensures k < |Do(g, a).handlers|
    ensures !Drives(Do(g, a).handlers[k]) ==> a == Reply(k) && g.handlers[k].s.pc.Done?
  {
    hide D.Next, Do, HandlerAfter;
    LocksMoved(g, a);
    HandlerMoved(g, a, k);
  }

  lemma ArrivedIsStill(h: Handler, now: nat, f: Firmware, before: Firmware, setup: nat, latency: nat)
    requires OnCourse(h, now, f, before, setup, latency) && h.s.pc.Done?
    ensures !f.mode.MovingBy?
  {
  }

  lemma DriverCourse(g: Daemon, a: Action, k: nat, f: Firmware, before: Firmware, setup: nat, latency: nat)
    requires Inv(g) && Enabled(g, a) && Timely(g, a, setup, latency) && setup + latency <= 50
    requires CourseInv(g, f, before, setup, latency)
    requires k < |Do(g, a).handlers| && Drives(Do(g, a).handlers[k])
    ensures OnCourse(Do(g, a).handlers[k], Do(g, a).now, FedSent(f, Writes(g, a)), before, setup, latency)
  {
    hide D.Next, D.Exec, Inv, Do, HandlerAfter, OnCourse, OnTime, Enabled, FedSent, Fed, Writes;
    DriverBefore(g, a, k);
    if a == CheckContext(k) {
      HandlerMoved(g, a, k);
      StartCourse(g, k, f, before, setup, latency);
    } else if a.Proceed? {
      OwnCourse(g, k, a.e, f, before, setup, latency);
      OwnWrite(g, k, a.e, f);
    } else {
      OtherCourse(g, a, k, f, before, setup, latency);
    }
  }

  lemma CourseKeepsGaps(h: Handler, now: nat, f: Firmware, before: Firmware, setup: nat, latency: nat)
    requires OnCourse(h, now, f, before, setup, latency)
    ensures f.gapStops == before.gapStops
  {
  }

  lemma CourseStep(g: Daemon, a: Action, f: Firmware, before: Firmware, setup: nat, latency: nat)
    requires Inv(g) && Enabled(g, a) && Timely(g, a, setup, latency) && setup + latency <= 50
    requires CourseInv(g, f, before, setup, latency)
    ensures CourseInv(Do(g, a), FedSent(f, Writes(g, a)), before, setup, latency)
  {
    hide D.Next, D.Exec, Inv, Do, HandlerAfter, OnCourse, OnTime, Enabled, Receive, Writes, Timely;
    var g', f' := Do(g, a), FedSent(f, Writes(g, a));
    forall k | 0 <= k < |g'.handlers| && Drives(g'.handlers[k])
      ensures OnCourse(g'.handlers[k], g'.now, f', before, setup, latency)
    {
      DriverCourse(g, a, k, f, before, setup, latency);
    }
    if k :| 0 <= k < |g'.handlers| && Drives(g'.handlers[k]) {
      CourseKeepsGaps(g'.handlers[k], g'.now, f', before, setup, latency);
    } else if k :| 0 <= k < |g.handlers| && Drives(g.handlers[k]) {
      DriverLeaves(g, a, k);
      ArrivedIsStill(g.handlers[k], g.now, f, before, setup, latency);
      TimeMoved(g, a);
    } else {
      NonMotionWrite(g, a);
      if Writes(g, a) != [] {
        StillWhileStill(f, Writes(g, a)[0].entry);
      }
    }
  }

  // ---------- every run ----------

  lemma FeedOne(g: Daemon, a: Action, before: Firmware)
    requires Enabled(g, a)
    ensures ReceiveAll(before, ServerTheorems.Entries(Do(g, a).wire))
         == FedSent(ReceiveAll(before, ServerTheorems.Entries(g.wire)), Writes(g, a))
  {
    hide D.Next, D.Step, Do, Writes, Receive, Enabled;
    WritesOne(g, a);
    AtMostOneWrite(g, a);
    ServerTheorems.EntriesConcat(g.wire, Writes(g, a));
    if Writes(g, a) != [] {
      var e := Writes(g, a)[0].entry;
      assert ServerTheorems.Entries(Writes(g, a)) == [e];
      ReceiveOneMore(before, ServerTheorems.Entries(g.wire), e);
    } else {
      assert g.wire + [] == g.wire;
    }
  }

  lemma AtMostOneWrite(g: Daemon, a: Action)
    requires Enabled(g, a)
    ensures |Writes(g, a)| <= 1
  {
    hide D.Next;
  }

  lemma {:induction false} CourseFollows(t: Trace, g: Daemon, before: Firmware, setup: nat, latency: nat)
    requires Follow(BOOT, t) == Some(g) && PunctualTrace(t, setup, latency)
    requires setup + latency <= 50 && !before.mode.MovingBy?
    ensures CourseInv(g, ReceiveAll(before, ServerTheorems.Entries(g.wire)), before, setup, latency)
  {
    hide Do, Enabled, Inv, Timely, OnCourse, Writes, FedSent;
    if t.More? {
      var g0 := Follow(BOOT, t.before).value;
      CourseFollows(t.before, g0, before, setup, latency);
      InvBoot();
      InvFollows(BOOT, t.before, g0);
      CourseStep(g0, t.action, ReceiveAll(before, ServerTheorems.Entries(g0.wire)), before, setup, latency);
      FeedOne(g0, t.action, before);
    } else {
      assert ServerTheorems.Entries(BOOT.wire) == [];
    }
  }

  /** The daemon's desk never stops by itself. While the clock leaves no motion loop
      more than 50 ms behind and its writes succeed, over any number of dispatches and
      any keep-alives, the firmware is never stopped by a gap between two pulses. It
      moves by the running dispatch's own command from its first pulse to its stop, and
      otherwise it is at rest. */
  lemma DaemonKeepsDeskMoving(t: Trace, g: Daemon, before: Firmware, setup: nat, latency: nat)
    requires Follow(BOOT, t) == Some(g) && PunctualTrace(t, setup, latency)
    requires setup + latency <= 50 && !before.mode.MovingBy?
    ensures
      var f := ReceiveAll(before, ServerTheorems.Entries(g.wire));
      && f.gapStops == before.gapStops
      && (forall i :: 0 <= i < |g.handlers| && Drives(g.handlers[i]) && Driven(g.handlers[i].s.pc) ==>
            var h := g.handlers[i];
            && PulseOf(h).Some?
            && f.mode == MovingBy(PulseOf(h).value, LastAt(h.s.wire))
            && g.now <= LastAt(h.s.wire) + GAP)
      && (AtRest(g) ==> !f.mode.MovingBy?)
  {
    hide D.Exec, D.Next, Follow, PunctualTrace, ReceiveAll, DT.Transcript;
    CourseFollows(t, g, before, setup, latency);
    var f := ReceiveAll(before, ServerTheorems.Entries(g.wire));
    InvAt(t, g);
    forall i | 0 <= i < |g.handlers| && Drives(g.handlers[i])
      ensures CourseSays(g.handlers[i], g.now, f)
    {
      RunningReaches(g, i);
      DT.TranscriptReached(OpFor(g.handlers[i]), g.handlers[i].run, g.handlers[i].s);
      OnCourseSays(g.handlers[i], g.now, f, before, setup, latency);
    }
  }

  function PulseOf(h: Handler): Option<D.Command> {
    D.PulseOf(OpFor(h))
  }

  /** No dispatch is between its first pulse and its stop. */
  predicate AtRest(g: Daemon) {
    forall i :: 0 <= i < |g.handlers| && Drives(g.handlers[i]) ==> !Driven(g.handlers[i].s.pc)
  }

  predicate CourseSays(h: Handler, now: nat, f: Firmware) {
    if Driven(h.s.pc) then
      PulseOf(h).Some? && f.mode == MovingBy(PulseOf(h).value, LastAt(h.s.wire)) && now <= LastAt(h.s.wire) + GAP
    else !f.mode.MovingBy?
  }

  lemma OnCourseSays(h: Handler, now: nat, f: Firmware, before: Firmware, setup: nat, latency: nat)
    requires OnCourse(h, now, f, before, setup, latency) && setup + latency <= 50
    requires D.Moves(OpFor(h)) && DT.Transcript(OpFor(h), h.s.pc, h.s.wire)
    ensures CourseSays(h, now, f)
  {
    hide Punctual;
  }

  lemma InvAt(t: Trace, g: Daemon)
    requires Follow(BOOT, t) == Some(g)
    ensures Inv(g)
  {
    hide Inv;
    InvBoot();
    InvFollows(BOOT, t, g);
  }
}
