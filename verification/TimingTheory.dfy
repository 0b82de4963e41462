/** Timing of the motion loops: the pulse cadence against the desk firmware's
    auto-stop (docs/protocol.md), and the number of pulses of a timed drive. */
module TimingTheory {
  import opened Wrappers
  import opened Dispatch
  import opened DispatchTheory

  // ---------- the firmware, as documented ----------

  datatype Mode = Standby | Awake | MovingBy(command: Command, pulsedAt: nat)

  datatype Firmware = Firmware(mode: Mode, gapStops: nat)

  const GAP := 250

  /** The desk receives one frame. If it was moving and the last pulse is more than
      GAP ms old, it has stopped by itself in the meantime. */
  function Receive(f: Firmware, e: Entry): Firmware {
    if !e.ok then f
    else
      var g := if f.mode.MovingBy? && e.at > f.mode.pulsedAt + GAP then Firmware(Awake, f.gapStops + 1) else f;
      if IsMotion(e.command) then (if g.mode.Standby? then g else g.(mode := MovingBy(e.command, e.at)))
      else if e.command == WAKE then (if g.mode.Standby? then g.(mode := Awake) else g)
      else if e.command == STOP then (if g.mode.MovingBy? then g.(mode := Awake) else g)
      else g
  }

  /** The documented transitions, by opcode: motion frames move a desk that is awake, the
      stop frame stops it, the wake frame wakes it; a failed write never arrives; and a
      desk that has had no pulse for more than 250 ms has stopped by itself. */
  lemma FirmwareByOpcode(f: Firmware, e: Entry)
    ensures !e.ok ==> Receive(f, e) == f
    ensures var f' := Receive(f, e);
            e.ok ==>
              && f'.gapStops == f.gapStops + (if f.mode.MovingBy? && e.at > f.mode.pulsedAt + 250 then 1 else 0)
              && (e.command.op in {0x01, 0x02, 0x05, 0x06, 0x1B} ==>
                    f'.mode == if f.mode.Standby? then Standby else MovingBy(e.command, e.at))
              && (e.command == Command(0x2B, []) ==> f'.mode == if f.mode.Standby? then Standby else Awake)
              && (e.command == Command(0x00, []) && !f.mode.MovingBy? ==> f'.mode == Awake)
              && (e.command.op !in {0x00, 0x01, 0x02, 0x05, 0x06, 0x1B, 0x2B} || (e.command.op == 0x00 && f.mode.MovingBy?) ==>
                    f'.mode == if f.mode.MovingBy? && e.at > f.mode.pulsedAt + 250 then Awake else f.mode)
  {
  }

  function ReceiveAll(f: Firmware, wire: seq<Entry>): Firmware {
    if wire == [] then f
    else Receive(ReceiveAll(f, wire[..|wire| - 1]), wire[|wire| - 1])
  }

  lemma ReceiveOneMore(f: Firmware, wire: seq<Entry>, e: Entry)
    ensures ReceiveAll(f, wire + [e]) == Receive(ReceiveAll(f, wire), e)
  {
    assert (wire + [e])[..|wire|] == wire;
  }

  // ---------- punctual runs ----------

  /** When the tick last taken came due, on the ticker's grid. */
  function LastDue(c: Clock): nat
    requires c.tickerAt <= c.lastTick
  {
    c.tickerAt + 200 * ((c.lastTick - c.tickerAt) / 200)
  }

  function LastAt(wire: seq<Entry>): nat {
    if wire == [] then 0 else wire[|wire| - 1].at
  }

  /** What punctuality asks of one event: the ticker is created at most `setup` ms
      after the first pulse, no event of the loop comes later than `latency` ms after
      a tick that is still to be served, and writes succeed. */
  predicate OnTime(s: State, e: TimedEvent, setup: nat, latency: nat) {
    && (e.ev.Wrote? ==> e.ev.ok)
    && match s.pc
       case Arm => e.at <= LastAt(s.wire) + setup
       case Select => s.clock.tickerAt <= s.clock.lastTick && e.at <= LastDue(s.clock) + 200 + latency
       case StopThen(_) => s.clock.tickerAt <= s.clock.lastTick && e.at <= LastDue(s.clock) + 200 + latency
       case Pulse => s.clock.tickerAt <= s.clock.lastTick && e.at <= LastDue(s.clock) + latency
       case _ => true
  }

  predicate Punctual(op: Op, run: Run, setup: nat, latency: nat) {
    run.Then? ==>
      && Punctual(op, run.before, setup, latency)
      && Exec(op, run.before).Some?
      && OnTime(Exec(op, run.before).value, run.event, setup, latency)
  }

  /** How one step changes the clock and the program counter of a motion loop. */
  lemma ClockFrame(op: Op, s: State, ev: Event)
    requires Moves(op) && Step(op, s, ev).Some? && !s.pc.Done?
    ensures var s' := Step(op, s, ev).value;
            && s'.now == s.now
            && (if s.pc.Arm? && ev.Armed? then
                  s'.pc == Select && s'.clock == Clock(s.clock.wakeAt, s.now, s.now, s.now + LimitOf(op))
                else if s.pc.Select? && ev.Tick? then
                  TickReady(s.clock, s.now) && s'.pc == Pulse && s'.clock == s.clock.(lastTick := s.now)
                else
                  && s'.clock == s.clock.(wakeAt := s'.clock.wakeAt)
                  && (s'.pc.Select? ==> s.pc.Select? || (s.pc.Pulse? && ev.Wrote? && ev.ok))
                  && (s'.pc.Pulse? ==> s.pc.Pulse? && !ev.Wrote?)
                  && (s'.pc.Arm? ==> (s.pc.Arm? && !ev.Wrote?) || (ev.Wrote? && ev.ok))
                  && (s'.pc.StopThen? ==> s.pc.Select? || s.pc.StopThen? || (ev.Wrote? && !ev.ok)))
  {
  }

  /** Serving the tick on time moves the grid by exactly one period. */
  lemma TickOnGrid(c: Clock, at: nat, latency: nat)
    requires TickReady(c, at) && at <= LastDue(c) + 200 + latency && latency < 200
    ensures LastDue(c.(lastTick := at)) == LastDue(c) + 200 <= at
  {
  }

  // ---------- the desk never stops by itself ----------

  predicate Driven(pc: Pc) {
    pc.Arm? || pc.Select? || pc.Pulse? || pc.StopThen?
  }

  /** At this program counter, the last pulse is recent enough. */
  predicate CadenceInv(s: State, setup: nat, latency: nat) {
    match s.pc
    case Arm => s.now <= LastAt(s.wire) + setup
    case Select =>
      && s.clock.tickerAt <= s.clock.lastTick
      && LastDue(s.clock) <= LastAt(s.wire) + setup
      && s.now <= LastDue(s.clock) + 200 + latency
    case StopThen(_) =>
      && s.clock.tickerAt <= s.clock.lastTick
      && LastDue(s.clock) <= LastAt(s.wire) + setup
      && s.now <= LastDue(s.clock) + 200 + latency
    case Pulse =>
      && s.clock.tickerAt <= s.clock.lastTick
      && LastDue(s.clock) <= LastAt(s.wire) + setup + 200
      && LastDue(s.clock) <= s.now <= LastDue(s.clock) + latency
    case _ => true
  }

  lemma CadenceStep(op: Op, s: State, e: TimedEvent, setup: nat, latency: nat)
    requires Moves(op) && setup + latency <= 50 && CadenceInv(s, setup, latency)
    requires Next(op, s, e).Some? && OnTime(s, e, setup, latency)
    ensures CadenceInv(Next(op, s, e).value, setup, latency)
  {
    hide Step;
    var s1 := s.(now := e.at);
    var s' := Next(op, s, e).value;
    StepIsWriteOrQuiet(op, s1, e.ev);
    ClockFrame(op, s1, e.ev);
    if s.pc.Select? && e.ev.Tick? {
      TickOnGrid(s.clock, e.at, latency);
    }
  }

  lemma {:induction false} CadenceReached(op: Op, run: Run, s: State, setup: nat, latency: nat)
    requires Moves(op) && setup + latency <= 50
    requires Reaches(op, run, s) && Punctual(op, run, setup, latency)
    ensures CadenceInv(s, setup, latency)
  {
    hide Step, OnTime;
    if run.Then? {
      CadenceReached(op, run.before, Exec(op, run.before).value, setup, latency);
      CadenceStep(op, Exec(op, run.before).value, run.event, setup, latency);
    }
  }

  /** What the firmware has made of the writes so far. */
  predicate FirmwareInv(op: Op, pc: Pc, wire: seq<Entry>, f: Firmware, before: Firmware) {
    && f.gapStops == before.gapStops
    && match pc
       case Add => !f.mode.MovingBy?
       case Wake(i) => !f.mode.MovingBy? && (i > 0 ==> f.mode.Awake?)
       case Nap(_) => f.mode.Awake?
       case First => f.mode.Awake?
       case Remove(_) => !f.mode.MovingBy?
       case Done(_) => !f.mode.MovingBy?
       case _ => PulseOf(op).Some? && f.mode == MovingBy(PulseOf(op).value, LastAt(wire))
  }

  lemma FirmwareWrite(op: Op, s: State, e: Entry, setup: nat, latency: nat, f: Firmware, before: Firmware)
    requires Moves(op) && setup + latency <= 50 && CadenceInv(s, setup, latency)
    requires CommandAt(op, s.pc) == Some(e.command) && e.ok && s.now <= e.at
    requires OnTime(s, At(Wrote(true), e.at), setup, latency)
    requires Transcript(op, s.pc, s.wire) && FirmwareInv(op, s.pc, s.wire, f, before)
    ensures FirmwareInv(op, AfterWrite(op, s.pc, true), s.wire + [e], Receive(f, e), before)
  {
  }

  lemma FirmwareQuiet(op: Op, from: Pc, to: Pc, wire: seq<Entry>, f: Firmware, before: Firmware)
    requires Moves(op) && QuietEdge(op, from, to) && Transcript(op, from, wire)
    requires FirmwareInv(op, from, wire, f, before)
    ensures FirmwareInv(op, to, wire, f, before)
  {
  }

  /** The firmware after the write, if any, that takes one transcript to the next. */
  function Fed(f: Firmware, wire: seq<Entry>, wire': seq<Entry>): Firmware {
    if |wire'| > |wire| then Receive(f, wire'[|wire|]) else f
  }

  lemma FirmwareStep(op: Op, s: State, e: TimedEvent, setup: nat, latency: nat, f: Firmware, before: Firmware)
    requires Moves(op) && setup + latency <= 50 && CadenceInv(s, setup, latency)
    requires Next(op, s, e).Some? && OnTime(s, e, setup, latency)
    requires Transcript(op, s.pc, s.wire)
    requires FirmwareInv(op, s.pc, s.wire, f, before)
    ensures var s' := Next(op, s, e).value;
            FirmwareInv(op, s'.pc, s'.wire, Fed(f, s.wire, s'.wire), before)
  {
    hide Step, FirmwareInv, Transcript, CadenceInv, OnTime, Receive;
    var s1, s' := s.(now := e.at), Next(op, s, e).value;
    StepIsWriteOrQuiet(op, s1, e.ev);
    if e.ev.Wrote? {
      WroteOk(s, e, setup, latency);
      FirmwareWrite(op, s, s'.wire[|s.wire|], setup, latency, f, before);
    } else if s'.pc != s.pc {
      FirmwareQuiet(op, s.pc, s'.pc, s.wire, f, before);
    }
  }

  lemma WroteOk(s: State, e: TimedEvent, setup: nat, latency: nat)
    requires OnTime(s, e, setup, latency) && e.ev.Wrote?
    ensures e.ev.ok
  {
  }

  lemma {:induction false} FirmwareReached(op: Op, run: Run, s: State, setup: nat, latency: nat, before: Firmware)
    requires Moves(op) && setup + latency <= 50
    requires Reaches(op, run, s) && Punctual(op, run, setup, latency)
    requires !before.mode.MovingBy?
    ensures FirmwareInv(op, s.pc, s.wire, ReceiveAll(before, s.wire), before)
  {
    hide Step, OnTime;
    if run.Then? {
      var s0 := Exec(op, run.before).value;
      FirmwareReached(op, run.before, s0, setup, latency, before);
      CadenceReached(op, run.before, s0, setup, latency);
      TranscriptReached(op, run.before, s0);
      FirmwareStep(op, s0, run.event, setup, latency, ReceiveAll(before, s0.wire), before);
      StepIsWriteOrQuiet(op, s0.(now := run.event.at), run.event.ev);
      if run.event.ev.Wrote? {
        ReceiveOneMore(before, s0.wire, s.wire[|s0.wire|]);
      }
    }
  }

  /** If writes succeed and the loop's total latency stays within 50 ms, a desk at
      rest that receives the pulses is never stopped by a gap between them: it moves
      by the operation's own command from the first pulse until the stop, with the
      last pulse at most 250 ms old, and is at rest when the operation is over. */
  lemma DeskKeepsMovingUntilStopped(op: Op, run: Run, s: State, setup: nat, latency: nat, before: Firmware)
    requires Moves(op) && setup + latency <= 50
    requires Reaches(op, run, s) && Punctual(op, run, setup, latency)
    requires !before.mode.MovingBy?
    ensures ReceiveAll(before, s.wire).gapStops == before.gapStops
    ensures Driven(s.pc) ==>
              && PulseOf(op).Some?
              && ReceiveAll(before, s.wire).mode == MovingBy(PulseOf(op).value, LastAt(s.wire))
              && s.now <= LastAt(s.wire) + GAP
    ensures s.pc.Done? ==> !ReceiveAll(before, s.wire).mode.MovingBy?
  {
    hide Step, OnTime;
    FirmwareReached(op, run, s, setup, latency, before);
    CadenceReached(op, run, s, setup, latency);
  }

  // ---------- how many pulses a timed drive sends ----------

  function Pulses(op: Op, wire: seq<Entry>): nat {
    if wire == [] then 0
    else Pulses(op, wire[..|wire| - 1]) + if PulseOf(op) == Some(wire[|wire| - 1].command) then 1 else 0
  }

  function Stops(wire: seq<Entry>): nat {
    if wire == [] then 0
    else Stops(wire[..|wire| - 1]) + if wire[|wire| - 1].command == STOP then 1 else 0
  }

  lemma {:induction false} CountDriving(op: Op, wire: seq<Entry>, n: nat)
    requires Moves(op) && n <= |wire|
    requires forall i :: 0 <= i < n ==> if i < 3 then wire[i].command == WAKE else PulseOf(op) == Some(wire[i].command)
    ensures Pulses(op, wire[..n]) == (if n < 3 then 0 else n - 3) && Stops(wire[..n]) == 0
  {
    if n > 0 {
      assert wire[..n][..n - 1] == wire[..n - 1];
      CountDriving(op, wire, n - 1);
    }
  }

  lemma CountEnded(op: Op, wire: seq<Entry>)
    requires Moves(op) && Ended(op, wire)
    ensures Pulses(op, wire) == |wire| - 4 && Stops(wire) == 1
  {
    var n := |wire| - 1;
    var driven := wire[..n];
    CountDriving(op, driven, n);
    assert driven[..n] == driven;
  }

  /** The loop takes its deadline the moment it is due. */
  predicate DeadlinePrompt(op: Op, run: Run) {
    run.Then? ==>
      && DeadlinePrompt(op, run.before)
      && Exec(op, run.before).Some?
      && (Exec(op, run.before).value.pc.Select? ==> run.event.at <= Exec(op, run.before).value.clock.deadline)
  }

  predicate Uncancelled(run: Run) {
    run.Then? ==> run.event.ev != CtxDone && Uncancelled(run.before)
  }

  function TicksTaken(c: Clock): nat
    requires c.tickerAt <= c.lastTick
  {
    (c.lastTick - c.tickerAt) / 200
  }

  /** No more pulses than ticks, whatever the delays and whichever writes fail. */
  predicate UpperInv(op: Op, s: State)
    requires op.Drive? && op.ms > 0
  {
    var c := s.clock;
    && c.tickerAt <= c.lastTick
    && match s.pc
       case Wake(_) => c.lastTick == c.tickerAt
       case Nap(_) => c.lastTick == c.tickerAt
       case First => c.lastTick == c.tickerAt
       case Arm => c.lastTick == c.tickerAt && |s.wire| == 4
       case Select => c.deadline == c.tickerAt + op.ms && c.lastTick <= c.deadline && |s.wire| <= 4 + TicksTaken(c)
       case Pulse => c.deadline == c.tickerAt + op.ms && c.lastTick <= c.deadline && |s.wire| <= 3 + TicksTaken(c)
       case StopThen(_) => c.lastTick <= c.tickerAt + op.ms && |s.wire| <= 4 + TicksTaken(c)
       case Done(_) => |s.wire| <= 5 + op.ms / 200
       case _ => false
  }

  lemma UpperStep(op: Op, s: State, e: TimedEvent)
    requires op.Drive? && op.ms > 0 && UpperInv(op, s)
    requires Next(op, s, e).Some? && (s.pc.Select? ==> e.at <= s.clock.deadline)
    requires Transcript(op, s.pc, s.wire)
    ensures UpperInv(op, Next(op, s, e).value)
  {
    hide Step;
    var s1 := s.(now := e.at);
    StepIsWriteOrQuiet(op, s1, e.ev);
    ClockFrame(op, s1, e.ev);
  }

  lemma {:induction false} UpperReached(op: Op, run: Run, s: State)
    requires op.Drive? && op.ms > 0
    requires Reaches(op, run, s) && DeadlinePrompt(op, run)
    ensures UpperInv(op, s)
  {
    hide Step;
    if run.Then? {
      var s0 := Exec(op, run.before).value;
      UpperReached(op, run.before, s0);
      TranscriptReached(op, run.before, s0);
      UpperStep(op, s0, run.event);
    }
  }

  /** A drive of d ms sends at most 1 + d/200 pulses, however late its ticks are
      served and whichever writes fail, and one stop if it sent a pulse at all. */
  lemma {:induction false} PulseUpperBound(op: Op, run: Run, s: State)
    requires op.Drive? && op.ms > 0
    requires Reaches(op, run, s) && s.pc.Done?
    ensures DeadlinePrompt(op, run) ==> Pulses(op, s.wire) <= 1 + op.ms / 200
    ensures Stops(s.wire) == if Pulses(op, s.wire) == 0 then 0 else 1
  {
    hide Step, UpperInv, Ended, Aborted, AllWakes;
    if DeadlinePrompt(op, run) {
      UpperReached(op, run, s);
      DoneIsShort(op, s);
    }
    FinishedIsSettled(op, run, s);
    if Ended(op, s.wire) {
      CountEnded(op, s.wire);
      EndedIsLong(op, s.wire);
    } else {
      AbortedIsWakes(op, s.wire);
      CountDriving(op, s.wire, |s.wire|);
      assert s.wire[..|s.wire|] == s.wire;
    }
  }

  lemma DoneIsShort(op: Op, s: State)
    requires op.Drive? && op.ms > 0 && UpperInv(op, s) && s.pc.Done?
    ensures |s.wire| <= 5 + op.ms / 200
  {
  }

  lemma EndedIsLong(op: Op, wire: seq<Entry>)
    requires Ended(op, wire)
    ensures |wire| >= 5
  {
  }

  lemma AbortedIsWakes(op: Op, wire: seq<Entry>)
    requires op.Drive? && Aborted(op, wire)
    ensures |wire| <= 3 && forall i :: 0 <= i < |wire| ==> wire[i].command == WAKE
  {
  }

  /** On time and not cancelled, one pulse for every tick up to the deadline. */
  predicate LowerInv(op: Op, s: State, latency: nat)
    requires op.Drive? && op.ms > 0
  {
    var c := s.clock;
    match s.pc
    case Arm => |s.wire| == 4
    case Select =>
      c.tickerAt <= c.lastTick && c.deadline == c.tickerAt + op.ms && |s.wire| == 4 + TicksTaken(c)
    case Pulse =>
      c.tickerAt <= c.lastTick && c.deadline == c.tickerAt + op.ms && |s.wire| == 3 + TicksTaken(c)
    case StopThen(_) =>
      c.tickerAt <= c.lastTick && |s.wire| == 4 + TicksTaken(c) && c.tickerAt + op.ms <= LastDue(c) + 200 + latency
    case Done(_) =>
      c.tickerAt <= c.lastTick && |s.wire| == 5 + TicksTaken(c) && c.tickerAt + op.ms <= LastDue(c) + 200 + latency
    case Remove(_) => false
    case _ => true
  }

  lemma LowerStep(op: Op, s: State, e: TimedEvent, setup: nat, latency: nat)
    requires op.Drive? && op.ms > 0 && latency < 200 && LowerInv(op, s, latency)
    requires Next(op, s, e).Some? && OnTime(s, e, setup, latency) && e.ev != CtxDone
    requires Transcript(op, s.pc, s.wire)
    ensures LowerInv(op, Next(op, s, e).value, latency)
  {
    hide Step;
    var s1, s' := s.(now := e.at), Next(op, s, e).value;
    StepIsWriteOrQuiet(op, s1, e.ev);
    ClockFrame(op, s1, e.ev);
    if s.pc.Select? {
      SelectOfDrive(op, s1, e.ev);
      if e.ev.Tick? {
        TickOnGrid(s.clock, e.at, latency);
      }
    }
  }

  lemma SelectOfDrive(op: Op, s: State, ev: Event)
    requires op.Drive? && s.pc.Select? && Step(op, s, ev).Some?
    ensures Step(op, s, ev).value.pc.StopThen? ==> ev == CtxDone || s.now >= s.clock.deadline
  {
  }

  lemma {:induction false} LowerReached(op: Op, run: Run, s: State, setup: nat, latency: nat)
    requires op.Drive? && op.ms > 0 && latency < 200
    requires Reaches(op, run, s) && Punctual(op, run, setup, latency) && Uncancelled(run)
    ensures LowerInv(op, s, latency)
  {
    hide Step, OnTime;
    if run.Then? {
      var s0 := Exec(op, run.before).value;
      LowerReached(op, run.before, s0, setup, latency);
      TranscriptReached(op, run.before, s0);
      LowerStep(op, s0, run.event, setup, latency);
    }
  }

  /** A drive of d ms that is not cancelled, whose writes succeed and whose ticks are
      served at most `latency` ms late, sends at least 1 + (d - 1 - latency)/200. */
  lemma {:induction false} PulseLowerBound(op: Op, run: Run, s: State, setup: nat, latency: nat)
    requires op.Drive? && op.ms > 0 && latency < 200
    requires Reaches(op, run, s) && Punctual(op, run, setup, latency) && Uncancelled(run)
    requires s.pc.Done?
    ensures Pulses(op, s.wire) >= 1 + (op.ms - 1 - latency) / 200
    ensures Stops(s.wire) == 1
  {
    hide Step, OnTime, Ended, Aborted;
    LowerReached(op, run, s, setup, latency);
    FinishedIsSettled(op, run, s);
    if Aborted(op, s.wire) {
      AbortedIsWakes(op, s.wire);
    }
    CountEnded(op, s.wire);
  }

  // ---------- how soon a cancelled operation ends ----------

  /** An operation heeds its context in the select of a motion loop and nowhere else. */
  lemma OnlyTheLoopHeedsCancel(op: Op, s: State, at: nat)
    ensures Next(op, s, At(CtxDone, at)).Some? <==> s.pc.Select? && at >= s.now
    ensures s.pc.Select? && at >= s.now ==> Next(op, s, At(CtxDone, at)).value.pc.StopThen?
  {
  }

  /** The ticks taken later than `since`. */
  function TicksAfter(run: Run, since: nat): nat {
    match run
    case Begin(_) => 0
    case Then(before, e) => TicksAfter(before, since) + if e.ev.Tick? && e.at > since then 1 else 0
  }

  function Later(a: nat, b: nat): nat {
    if a < b then b else a
  }

  predicate InLoop(pc: Pc) {
    pc.Select? || pc.Pulse? || pc.StopThen?
  }

  lemma {:induction false} GridAfter(op: Op, run: Run, s: State, setup: nat, latency: nat, since: nat)
    requires Moves(op) && setup + latency <= 50
    requires Reaches(op, run, s) && Punctual(op, run, setup, latency) && InLoop(s.pc)
    ensures s.clock.tickerAt <= s.clock.lastTick
    ensures LastDue(s.clock) <= Later(since, s.clock.tickerAt) + 200 * TicksAfter(run, since)
  {
    hide Step, OnTime;
    if run.Then? {
      var s0 := Exec(op, run.before).value;
      CadenceReached(op, run.before, s0, setup, latency);
      CadenceReached(op, run, s, setup, latency);
      TranscriptReached(op, run.before, s0);
      StepIsWriteOrQuiet(op, s0.(now := run.event.at), run.event.ev);
      ClockFrame(op, s0.(now := run.event.at), run.event.ev);
      if run.event.ev.Wrote? {
        WroteOk(s0, run.event, setup, latency);
      }
      if InLoop(s0.pc) {
        GridAfter(op, run.before, s0, setup, latency, since);
        if s0.pc.Select? && run.event.ev.Tick? {
          OnTimeTick(s0, run.event, setup, latency);
          TickOnGrid(s0.clock, run.event.at, latency);
        }
      }
    }
  }

  lemma OnTimeTick(s: State, e: TimedEvent, setup: nat, latency: nat)
    requires OnTime(s, e, setup, latency) && s.pc.Select?
    ensures s.clock.tickerAt <= s.clock.lastTick && e.at <= LastDue(s.clock) + 200 + latency
  {
  }

  /** A punctual motion loop cancelled at `since`, in the loop or before it, is past its
      stop write 200 + latency ms after both the cancellation and the loop's start;
      each tick that its select takes instead of the cancellation adds 200 ms. */
  lemma CancelledLoopEnds(op: Op, run: Run, s: State, setup: nat, latency: nat, since: nat)
    requires Moves(op) && setup + latency <= 50
    requires Reaches(op, run, s) && Punctual(op, run, setup, latency) && InLoop(s.pc)
    ensures s.now <= Later(since, s.clock.tickerAt) + 200 * (1 + TicksAfter(run, since)) + latency
  {
    hide Step, OnTime;
    GridAfter(op, run, s, setup, latency, since);
    CadenceReached(op, run, s, setup, latency);
  }

  // ---------- the wakes ----------

  predicate SpacedWakes(wire: seq<Entry>) {
    forall i :: 0 <= i < 3 && i + 1 < |wire| ==> wire[i + 1].at >= wire[i].at + 100
  }

  predicate WakeInv(op: Op, s: State) {
    && SpacedWakes(s.wire)
    && match s.pc
       case Wake(i) => i > 0 ==> |s.wire| == i && s.now >= s.wire[i - 1].at + 100
       case Nap(i) => |s.wire| == i + 1 && s.clock.wakeAt == s.wire[i].at + 100
       case First => |s.wire| == 3 && s.now >= s.wire[2].at + 100
       case _ => true
  }

  lemma SpacedAppend(wire: seq<Entry>, e: Entry)
    requires SpacedWakes(wire)
    requires 1 <= |wire| <= 3 ==> e.at >= wire[|wire| - 1].at + 100
    ensures SpacedWakes(wire + [e])
  {
  }

  lemma WakeFrame(op: Op, s: State, ev: Event)
    requires Moves(op) && Step(op, s, ev).Some?
    ensures var s' := Step(op, s, ev).value;
            && s'.now == s.now
            && (ev.Wrote? ==> s'.clock.wakeAt == s.now + 100)
            && (s.pc.Nap? && s'.pc != s.pc ==> s.now >= s.clock.wakeAt)
            && (s.pc.Nap? ==> s'.clock == s.clock)
  {
  }

  lemma WakeStep(op: Op, s: State, e: TimedEvent)
    requires Moves(op) && WakeInv(op, s) && Next(op, s, e).Some?
    requires Transcript(op, s.pc, s.wire)
    ensures WakeInv(op, Next(op, s, e).value)
  {
    hide Step, SpacedWakes;
    StepIsWriteOrQuiet(op, s.(now := e.at), e.ev);
    WakeFrame(op, s.(now := e.at), e.ev);
    if e.ev.Wrote? {
      SpacedAppend(s.wire, Entry(CommandAt(op, s.pc).value, e.ev.ok, e.at));
    }
  }

  lemma {:induction false} WakesReached(op: Op, run: Run, s: State)
    requires Moves(op) && Reaches(op, run, s)
    ensures WakeInv(op, s)
  {
    hide Step;
    if run.Then? {
      var s0 := Exec(op, run.before).value;
      WakesReached(op, run.before, s0);
      TranscriptReached(op, run.before, s0);
      WakeStep(op, s0, run.event);
    }
  }

  /** Wakes are at least 100 ms apart, and the first pulse comes that long after the
      last of them: from first wake to first pulse an operation takes 300 ms, cancelled
      or not. */
  lemma {:induction false} WakesAreSpaced(op: Op, run: Run, s: State)
    requires Moves(op) && Reaches(op, run, s)
    ensures SpacedWakes(s.wire)
    ensures |s.wire| >= 4 ==> s.wire[3].at >= s.wire[0].at + 300
  {
    WakesReached(op, run, s);
    var wire := s.wire;
    if |wire| >= 4 {
      assert wire[0 + 1].at >= wire[0].at + 100;
      assert wire[1 + 1].at >= wire[1].at + 100;
      assert wire[2 + 1].at >= wire[2].at + 100;
    }
  }
}
