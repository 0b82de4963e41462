/** What each request of the daemon's protocol makes of the wire and of its response,
    in opcodes, milliseconds and millimetres (internal/ipc/server.go, desk/commands.go). */
module RequestTheory {
  import opened Wrappers
  import opened Packet
  import opened Heights
  import opened Desks
  import opened Dispatch
  import opened DispatchTheory
  import opened WaitTheory
  import QueryTheory
  import TimingTheory

  // ---------- the commands ----------

  /** Wakes, pulses of one command, and one stop: all of it, or as much as the first
      failed write leaves. A drive attempts its stop even after a first pulse that failed;
      a move or a preset does not. */
  predicate Driven(wire: seq<Entry>, isDrive: bool, op: Byte, payload: seq<Byte>) {
    && 1 <= |wire|
    && (forall i :: 0 <= i < 3 && i < |wire| ==> wire[i].command == Command(0x00, []))
    && (|wire| <= 3 ==> !wire[|wire| - 1].ok && forall i :: 0 <= i < |wire| - 1 ==> wire[i].ok)
    && (|wire| == 4 ==>
          !isDrive && wire[3].command == Command(op, payload) && !wire[3].ok && forall i :: 0 <= i < 3 ==> wire[i].ok)
    && (|wire| >= 5 ==>
          && wire[|wire| - 1].command == Command(0x2B, [])
          && (forall i :: 3 <= i < |wire| - 1 ==> wire[i].command == Command(op, payload))
          && (forall i :: 0 <= i < |wire| - 2 ==> wire[i].ok)
          && (!isDrive ==> wire[3].ok))
  }

  /** Two bytes that name the whole millimetre nearest to a height in range. */
  predicate NearestMillimetre(b: seq<Byte>, height: real) {
    && |b| == 2
    && (0.0 <= height <= 65535.0 ==> height - 0.5 < (b[0] as int * 256 + b[1] as int) as real <= height + 0.5)
  }

  predicate Single(wire: seq<Entry>, op: Byte) {
    |wire| == 1 && wire[0].command == Command(op, [])
  }

  predicate NeverMoved(wire: seq<Entry>) {
    && 1 <= |wire| <= 3
    && (forall i :: 0 <= i < |wire| ==> wire[i].command == Command(0x00, []))
    && (forall i :: 0 <= i < |wire| - 1 ==> wire[i].ok)
  }

  /** What a finished request has written, byte for byte, and what it may answer. */
  ghost predicate Says(req: Request, wire: seq<Entry>, resp: Response) {
    match req.cmd
    case Up => Driven(wire, true, 0x01, []) && (resp == OK || resp == Failed(WriteFailed))
    case Down => Driven(wire, true, 0x02, []) && (resp == OK || resp == Failed(WriteFailed))
    case Move =>
      && (exists b :: NearestMillimetre(b, req.heightMM) && Driven(wire, false, 0x1B, b))
      && resp in {OK, Failed(WriteFailed), Failed(Cancelled), Failed(TimedOut)}
    case Preset =>
      if req.save then
        if req.preset == 1 then Single(wire, 0x03) && resp == Wrote1(wire)
        else if req.preset == 2 then Single(wire, 0x04) && resp == Wrote1(wire)
        else wire == [] && resp == Failed(Unsupported)
      else if req.preset == 1 || req.preset == 2 then
        && Driven(wire, false, if req.preset == 1 then 0x05 else 0x06, [])
        && resp in {OK, Failed(WriteFailed), Failed(Cancelled), Failed(TimedOut)}
      else NeverMoved(wire) && resp == if wire[|wire| - 1].ok then Failed(Unsupported) else Failed(WriteFailed)
    case StopCmd => Single(wire, 0x2B) && resp == Wrote1(wire)
    case StatsCmd => Single(wire, 0xA2) && (resp.OkStats? || resp in {Failed(WriteFailed), Failed(NoData)})
    case HeightCmd =>
      || (wire == [] && resp.OkHeight?)
      || (Single(wire, 0x07) && (resp.OkHeight? || resp in {Failed(WriteFailed), Failed(NoData)}))
    case Info => wire == [] && resp == OkDevice
    case Status => wire == [] && resp == OkDevice
    case Quit => wire == [] && resp == OK
    case Other => wire == [] && resp == Failed(UnknownCommand)
  }

  function Wrote1(wire: seq<Entry>): Response
    requires |wire| == 1
  {
    if wire[0].ok then OK else Failed(WriteFailed)
  }

  lemma EndedIsDriven(op: Op, wire: seq<Entry>)
    requires Moves(op) && PulseOf(op).Some? && (Ended(op, wire) || Aborted(op, wire))
    ensures Driven(wire, op.Drive?, PulseOf(op).value.op, PulseOf(op).value.payload)
  {
    if Ended(op, wire) {
      var driven := wire[..|wire| - 1];
      assert forall i :: 0 <= i < |driven| ==> driven[i] == wire[i];
    }
  }

  lemma UnsupportedNeverMoves(op: Op, wire: seq<Entry>)
    requires Moves(op) && PulseOf(op).None? && (Ended(op, wire) || Aborted(op, wire))
    ensures NeverMoved(wire)
    ensures Faulted(wire) <==> !wire[|wire| - 1].ok
  {
    if Ended(op, wire) {
      EndedHasPulse(op, wire);
      assert false;
    }
  }

  lemma EndedHasPulse(op: Op, wire: seq<Entry>)
    requires Ended(op, wire)
    ensures PulseOf(op).Some?
  {
    var driven := wire[..|wire| - 1];
    assert PulseOf(op) == Some(driven[3].command);
  }

  // ---------- the responses ----------

  predicate Decides(ev: Event) {
    ev.CtxDone? || ev.Arrival? || ev.Deadline? || ev.Quiet? || ev.Refused? || ev.DataTaken? || ev.CacheHit?
  }

  /** The event that ended the operation; none if it was a failed write. */
  function Exit(run: Run): Option<Event> {
    match run
    case Begin(_) => None
    case Then(before, e) => if Decides(e.ev) then Some(e.ev) else Exit(before)
  }

  /** The response that each way of ending stands for. */
  predicate Explains(op: Op, exit: Option<Event>, resp: Response) {
    match exit
    case None => if op.Answer? then resp == op.resp else resp == Failed(WriteFailed) || (resp == OK && (op.Halt? || op.Save?))
    case Some(ev) =>
      match ev
      case CtxDone => Moves(op) && PulseOf(op).Some? && resp == if op.Drive? then OK else Failed(Cancelled)
      case Arrival => op.Goto? && resp == OK
      case Quiet => op.ToPreset? && PulseOf(op).Some? && resp == OK
      case Refused =>
        && ((op.ToPreset? && GoPreset(op.n).None?) || (op.Save? && SavePreset(op.n).None?))
        && resp == Failed(Unsupported)
      case Deadline =>
        && (if Moves(op) then PulseOf(op).Some? else op.ReadHeight? || op.ReadStats?)
        && resp == if op.Drive? then OK else if Moves(op) then Failed(TimedOut) else Failed(NoData)
      case DataTaken => (op.ReadHeight? && resp.OkHeight?) || (op.ReadStats? && resp.OkStats?)
      case CacheHit(mm) => op.ReadHeight? && resp == OkHeight(mm)
      case _ => false
  }

  predicate Over(pc: Pc) {
    pc.StopThen? || pc.Remove? || pc.Done?
  }

  predicate ExitInv(op: Op, exit: Option<Event>, s: State) {
    && (Over(s.pc) ==> Explains(op, exit, s.pc.resp))
    && (!Over(s.pc) ==> exit.None?)
  }

  /** A step that ends the operation, or leaves it as over as it was. */
  predicate ExitFrame(op: Op, s: State, ev: Event, s': State) {
    && (Over(s.pc) ==> Over(s'.pc) && s'.pc.resp == s.pc.resp && !Decides(ev))
    && (!Over(s.pc) && !Over(s'.pc) ==> !Decides(ev))
    && (!Over(s.pc) && Over(s'.pc) ==> Explains(op, if Decides(ev) then Some(ev) else None, s'.pc.resp))
  }

  lemma SelectExit(op: Op, s: State, ev: Event)
    requires Step(op, s, ev).Some? && s.pc.Select? && Moves(op) && PulseOf(op).Some?
    ensures ExitFrame(op, s, ev, Step(op, s, ev).value)
  {
  }

  lemma AwaitExit(op: Op, s: State, ev: Event)
    requires Step(op, s, ev).Some? && s.pc.Await? && DataFits(op, s.ears) && (op.ReadHeight? || op.ReadStats?)
    ensures ExitFrame(op, s, ev, Step(op, s, ev).value)
  {
  }

  lemma WriteExit(op: Op, s: State, ev: Event)
    requires Step(op, s, ev).Some? && CommandAt(op, s.pc).Some?
    requires Moves(op) == !s.pc.Send? && !op.Answer?
    ensures ExitFrame(op, s, ev, Step(op, s, ev).value)
  {
  }

  lemma OtherExit(op: Op, s: State, ev: Event)
    requires Step(op, s, ev).Some? && CommandAt(op, s.pc).None? && !s.pc.Select? && !s.pc.Await? && !s.pc.Done?
    requires s.pc.Cached? ==> op.ReadHeight?
    requires s.pc.First? || s.pc.Pulse? ==> op.ToPreset?
    requires s.pc.Send? ==> op.Save?
    requires s.pc.Reply? ==> op.Answer?
    ensures ExitFrame(op, s, ev, Step(op, s, ev).value)
  {
  }

  lemma PcOfOp(op: Op, pc: Pc, wire: seq<Entry>)
    requires Transcript(op, pc, wire)
    ensures pc.Select? ==> Moves(op) && PulseOf(op).Some?
    ensures pc.Await? ==> op.ReadHeight? || op.ReadStats?
    ensures pc.Cached? ==> op.ReadHeight?
    ensures CommandAt(op, pc).Some? ==> Moves(op) == !pc.Send? && !op.Answer?
    ensures CommandAt(op, pc).None? && (pc.First? || pc.Pulse?) ==> op.ToPreset?
    ensures CommandAt(op, pc).None? && pc.Send? ==> op.Save?
    ensures pc.Reply? ==> op.Answer?
  {
    if pc.Select? {
      assert PulseOf(op) == Some(wire[3].command);
    }
  }

  lemma ExitStep(op: Op, s: State, ev: Event)
    requires Step(op, s, ev).Some? && !s.pc.Done? && Transcript(op, s.pc, s.wire)
    requires DataFits(op, s.ears)
    ensures ExitFrame(op, s, ev, Step(op, s, ev).value)
  {
    hide Step, Transcript, ExitFrame, DataFits;
    PcOfOp(op, s.pc, s.wire);
    if s.pc.Select? {
      SelectExit(op, s, ev);
    } else if s.pc.Await? {
      AwaitExit(op, s, ev);
    } else if CommandAt(op, s.pc).Some? {
      WriteExit(op, s, ev);
    } else {
      OtherExit(op, s, ev);
    }
  }

  lemma {:induction false} ExitReached(op: Op, run: Run, s: State)
    requires Reaches(op, run, s)
    ensures ExitInv(op, Exit(run), s)
  {
    hide Step, Transcript, Explains, DataFits;
    if run.Then? {
      var s0 := Exec(op, run.before).value;
      ExitReached(op, run.before, s0);
      TranscriptReached(op, run.before, s0);
      DataFitsReached(op, run.before, s0);
      ExitStep(op, s0.(now := run.event.at), run.event.ev);
    }
  }

  /** The response says how the operation ended, and each way of ending has its own. */
  lemma ResponseExplains(op: Op, run: Run, s: State)
    requires Reaches(op, run, s) && s.pc.Done?
    ensures Explains(op, Exit(run), s.pc.resp)
  {
    ExitReached(op, run, s);
  }

  /** A finished request has written its own command, and answers with what became of it. */
  lemma {:induction false} FinishedSays(req: Request, run: Run, s: State)
    requires Reaches(OpOf(req), run, s) && s.pc.Done?
    ensures Says(req, s.wire, s.pc.resp)
  {
    hide Step, Ended, Aborted, Faulted, Driven, NeverMoved, MillimetreBytes;
    var op := OpOf(req);
    FinishedIsSettled(op, run, s);
    ResponseExplains(op, run, s);
    if Moves(op) && PulseOf(op).Some? {
      EndedIsDriven(op, s.wire);
      if op.Goto? {
        CommandIsNearest(req.heightMM);
        assert NearestMillimetre(MillimetreBytes(req.heightMM), req.heightMM);
      }
    } else if Moves(op) {
      UnsupportedNeverMoves(op, s.wire);
    }
  }

  lemma CommandIsNearest(height: real)
    ensures NearestMillimetre(MillimetreBytes(height), height)
  {
    if InRange(height) {
      BytesAreNearest(height);
    }
  }

  // ---------- the deadlines ----------

  predicate LimitInv(op: Op, exit: Option<Event>, s: State) {
    Moves(op) ==>
      match s.pc
      case Arm => |s.wire| == 4 && s.wire[3].at <= s.now
      case Select => |s.wire| >= 4 && s.wire[3].at <= s.clock.tickerAt <= s.now && s.clock.deadline == s.clock.tickerAt + LimitOf(op)
      case Pulse => |s.wire| >= 4 && s.wire[3].at <= s.clock.tickerAt <= s.now && s.clock.deadline == s.clock.tickerAt + LimitOf(op)
      case StopThen(_) => exit == Some(Deadline) ==> |s.wire| >= 4 && s.now >= s.wire[3].at + LimitOf(op)
      case Remove(_) => exit == Some(Deadline) ==> StoppedBy(s.wire, LimitOf(op))
      case Done(_) => exit == Some(Deadline) ==> StoppedBy(s.wire, LimitOf(op))
      case _ => true
  }

  /** The last command was attempted `limit` ms or more after the first pulse. */
  predicate StoppedBy(wire: seq<Entry>, limit: nat) {
    |wire| >= 5 && wire[|wire| - 1].at >= wire[3].at + limit
  }

  lemma DeadlineFrame(op: Op, s: State, ev: Event)
    requires Moves(op) && Step(op, s, ev).Some? && !s.pc.Done? && !s.pc.Await?
    ensures var s' := Step(op, s, ev).value;
            && (s.pc.Select? && ev.Deadline? ==> s.now >= s.clock.deadline && s'.pc.StopThen?)
            && (ev.Deadline? ==> s.pc.Select?)
            && (s'.pc.Select? && s'.pc != s.pc ==> (s.pc.Arm? && ev.Armed?) || (s.pc.Pulse? && ev.Wrote?))
            && (s'.pc.Remove? && s'.pc != s.pc && s.pc.StopThen? ==> ev.Wrote?)
            && (s'.pc.Done? && s.pc.StopThen? ==> ev.Wrote?)
            && (s'.pc.Done? || s'.pc.Remove? ==> s.pc.StopThen? || s.pc.Remove? || !ev.Deadline?)
            && (s.pc.Remove? ==> s'.wire == s.wire)
  {
  }

  lemma LimitStep(op: Op, s: State, e: TimedEvent, exit: Option<Event>)
    requires Moves(op) && Next(op, s, e).Some? && Transcript(op, s.pc, s.wire)
    requires LimitInv(op, exit, s) && (Over(s.pc) || exit.None?)
    requires Over(s.pc) ==> !Decides(e.ev)
    ensures LimitInv(op, if Decides(e.ev) then Some(e.ev) else exit, Next(op, s, e).value)
  {
    hide Step, Decides;
    var s1 := s.(now := e.at);
    StepIsWriteOrQuiet(op, s1, e.ev);
    TimingTheory.ClockFrame(op, s1, e.ev);
    DeadlineFrame(op, s1, e.ev);
    NotDecided(e.ev);
  }

  lemma {:induction false} LimitReached(op: Op, run: Run, s: State)
    requires Reaches(op, run, s)
    ensures LimitInv(op, Exit(run), s)
  {
    hide Step, LimitInv, Explains, Transcript, Decides;
    if run.Then? && Moves(op) {
      var s0 := Exec(op, run.before).value;
      LimitReached(op, run.before, s0);
      ExitReached(op, run.before, s0);
      TranscriptReached(op, run.before, s0);
      DataFitsReached(op, run.before, s0);
      ExitStep(op, s0.(now := run.event.at), run.event.ev);
      LimitStep(op, s0, run.event, Exit(run.before));
    } else {
      NoLimitYet(op, run, s);
    }
  }

  lemma NoLimitYet(op: Op, run: Run, s: State)
    requires Reaches(op, run, s) && (run.Begin? || !Moves(op))
    ensures LimitInv(op, Exit(run), s)
  {
  }

  /** How long a request may last: up and down half a second, moves and presets thirty
      seconds, unless they say otherwise; the queries five seconds. */
  function RequestLimit(req: Request): int {
    match req.cmd
    case Up => if req.durationMS <= 0 then 500 else req.durationMS
    case Down => if req.durationMS <= 0 then 500 else req.durationMS
    case Move => if req.timeoutMS <= 0 then 30000 else req.timeoutMS
    case Preset => if req.timeoutMS <= 0 then 30000 else req.timeoutMS
    case _ => 5000
  }

  predicate DrivesDesk(req: Request) {
    req.cmd.Up? || req.cmd.Down? || req.cmd.Move? || (req.cmd.Preset? && !req.save)
  }

  /** A request that ends at its deadline has lasted its whole limit since its first
      pulse, and while it waits, its deadline is ready exactly when the limit has passed
      since its clocks were started. */
  lemma {:induction false} EndsAtItsLimit(req: Request, run: Run, s: State)
    requires Reaches(OpOf(req), run, s)
    ensures DrivesDesk(req) && s.pc.Done? && Exit(run) == Some(Deadline) ==>
              |s.wire| >= 5 && s.wire[|s.wire| - 1].at >= s.wire[3].at + RequestLimit(req)
    ensures DrivesDesk(req) && s.pc.Done? && s.pc.resp == Failed(TimedOut) ==> Exit(run) == Some(Deadline)
    ensures s.pc.Select? || s.pc.Await? ==>
              forall at: nat :: at >= s.now ==>
                (Next(OpOf(req), s, At(Deadline, at)).Some? <==> at >= s.clock.tickerAt + RequestLimit(req))
    ensures s.pc.Select? ==> |s.wire| >= 4 && s.wire[3].at <= s.clock.tickerAt <= s.now
  {
    hide Transcript;
    var op := OpOf(req);
    LimitReached(op, run, s);
    ExitReached(op, run, s);
    TranscriptReached(op, run, s);
    PcOfOp(op, s.pc, s.wire);
    if op.ReadHeight? || op.ReadStats? {
      QueryTheory.AwaitReached(op, run, s);
    }
  }

  /** A move succeeds only if a height reported since it registered lay within its
      tolerance, 2 mm unless it says otherwise; a preset only once heights have stayed
      away for half a second. */
  lemma SucceedsAtItsTarget(req: Request, run: Run, s: State)
    requires Reaches(OpOf(req), run, s) && s.pc.Done? && s.pc.resp == OK
    ensures req.cmd.Move? ==>
              var tolerance := if req.toleranceMM <= 0.0 then 2.0 else req.toleranceMM;
              HeardWithin(Reported(run), req.heightMM - tolerance, req.heightMM + tolerance)
    ensures req.cmd.Preset? && !req.save ==> LastTaken(run).Some? && s.now >= LastTaken(run).value + 500
  {
    var op := OpOf(req);
    if op.Goto? {
      ArrivalExact(op, run, s);
    } else if op.ToPreset? {
      QuiescenceSound(op, run, s);
    }
  }

  /** In the loop of a preset, the timer that ends it can fire exactly half a second after
      the last height taken. */
  lemma {:induction false} PresetEndsAfterHalfASecond(req: Request, run: Run, s: State, at: nat)
    requires req.cmd.Preset? && !req.save
    requires Reaches(OpOf(req), run, s) && s.pc.Select? && at >= s.now
    ensures Next(OpOf(req), s, At(TimerFires, at)).Some? <==>
              !TimerFired(s.silence) && LastTaken(run).Some? && at >= LastTaken(run).value + 500
  {
    hide Next;
    QuiescenceReady(OpOf(req), run, s, at);
  }

  /** The commands that set the desk moving, and the one that stops it. */
  lemma MotionOpcodes(c: Command)
    ensures IsMotion(c) <==> c.op in {0x01, 0x02, 0x05, 0x06, 0x1B}
    ensures STOP == Command(0x2B, []) && WAKE == Command(0x00, []) && HEIGHT_LIMITS == Command(0x07, [])
  {
  }

  lemma NotDecided(ev: Event)
    ensures ev.Deadline? ==> Decides(ev)
    ensures ev.Wrote? || ev.Armed? || ev.Tick? || ev.Removed? ==> !Decides(ev)
  {
  }

  // ---------- the pulse bounds are reached ----------

  predicate OnTheDot(op: Op, run: Run) {
    && TimingTheory.Punctual(op, run, 0, 0) && TimingTheory.DeadlinePrompt(op, run)
    && TimingTheory.Uncancelled(run)
  }

  /** One more event of a drive that is on time to the millisecond. */
  lemma PlayDrive(op: Op, run: Run, s: State, ev: Event, at: nat) returns (run': Run, s': State)
    requires Reaches(op, run, s) && at >= s.now && !s.pc.Done? && Step(op, s.(now := at), ev).Some?
    requires OnTheDot(op, run) && TimingTheory.OnTime(s, At(ev, at), 0, 0) && ev != CtxDone
    requires s.pc.Select? ==> at <= s.clock.deadline
    ensures run' == Then(run, At(ev, at)) && s' == Step(op, s.(now := at), ev).value
    ensures Reaches(op, run', s') && OnTheDot(op, run')
  {
    hide Step, TimingTheory.OnTime;
    run', s' := Play(op, run, s, ev, at);
  }

  lemma DriveWake(op: Op, run: Run, s: State) returns (run': Run, s': State)
    requires Reaches(op, run, s) && OnTheDot(op, run) && s.pc.Wake?
    ensures Reaches(op, run', s') && OnTheDot(op, run')
    ensures s'.now == s.now + 100 && |s'.wire| == |s.wire| + 1
    ensures s'.pc == if s.pc.i < 2 then Wake(s.pc.i + 1) else First
  {
    hide Reaches, Exec, Next, OnTheDot;
    run', s' := PlayDrive(op, run, s, Wrote(true), s.now);
    run', s' := PlayDrive(op, run', s', Woke, s.now + 100);
  }

  lemma DriveStarts(op: Op) returns (run: Run, s: State)
    requires op == Drive(true, 200)
    ensures Reaches(op, run, s) && OnTheDot(op, run)
    ensures s.pc.Select? && s.now == 300 && s.clock == Clock(400, 300, 300, 500) && |s.wire| == 4
  {
    StartReached(op);
    assert OnTheDot(op, Begin(0));
    hide Reaches, Exec, Next, OnTheDot;
    run, s := DriveWake(op, Begin(0), Initial(op, 0));
    run, s := DriveWake(op, run, s);
    run, s := DriveWake(op, run, s);
    run, s := PlayDrive(op, run, s, Wrote(true), 300);
    run, s := PlayDrive(op, run, s, Armed, 300);
  }

  /** A drive of 200 ms can send two pulses or one: when its tick and its deadline are
      ready together, the select may serve the tick first or not at all. Both bounds are
      reached, the upper and the lower. */
  lemma PulseBoundsAreReached(tickFirst: bool) returns (run: Run, s: State)
    ensures Reaches(Drive(true, 200), run, s) && OnTheDot(Drive(true, 200), run) && s.pc.Done?
    ensures TimingTheory.Pulses(Drive(true, 200), s.wire) == if tickFirst then 1 + 200 / 200 else 1 + (200 - 1) / 200
  {
    var op := Drive(true, 200);
    run, s := DriveEnds(tickFirst);
    FinishedIsSettled(op, run, s);
    if Aborted(op, s.wire) {
      TimingTheory.AbortedIsWakes(op, s.wire);
    }
    TimingTheory.CountEnded(op, s.wire);
  }

  lemma DriveEnds(tickFirst: bool) returns (run: Run, s: State)
    ensures Reaches(Drive(true, 200), run, s) && OnTheDot(Drive(true, 200), run) && s.pc.Done?
    ensures |s.wire| == if tickFirst then 6 else 5
  {
    hide Reaches, Exec, Next, OnTheDot;
    run, s := DriveStarts(Drive(true, 200));
    if tickFirst {
      run, s := DriveTick(run, s);
    }
    run, s := DriveStops(run, s);
  }

  lemma DriveTick(run0: Run, s0: State) returns (run: Run, s: State)
    requires Reaches(Drive(true, 200), run0, s0) && OnTheDot(Drive(true, 200), run0)
    requires s0.pc.Select? && s0.now == 300 && s0.clock == Clock(400, 300, 300, 500)
    ensures Reaches(Drive(true, 200), run, s) && OnTheDot(Drive(true, 200), run) && |s.wire| == |s0.wire| + 1
    ensures s.pc.Select? && s.now == 500 && s.clock == Clock(600, 300, 500, 500)
  {
    hide Reaches, Exec, Next, OnTheDot;
    run, s := PlayDrive(Drive(true, 200), run0, s0, Tick, 500);
    run, s := PlayDrive(Drive(true, 200), run, s, Wrote(true), 500);
  }

  lemma DriveStops(run0: Run, s0: State) returns (run: Run, s: State)
    requires Reaches(Drive(true, 200), run0, s0) && OnTheDot(Drive(true, 200), run0)
    requires s0.pc.Select? && s0.now <= 500 && s0.clock.deadline == 500
    requires s0.clock.tickerAt <= s0.clock.lastTick && TimingTheory.LastDue(s0.clock) >= 300
    ensures Reaches(Drive(true, 200), run, s) && OnTheDot(Drive(true, 200), run) && |s.wire| == |s0.wire| + 1
    ensures s.pc.Done?
  {
    hide Reaches, Exec, Next, OnTheDot;
    run, s := PlayDrive(Drive(true, 200), run0, s0, Deadline, 500);
    run, s := PlayDrive(Drive(true, 200), run, s, Wrote(true), 500);
  }
}
