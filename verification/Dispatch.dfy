/** One dispatched request as a step machine (internal/ipc/server.go, desk/monitor.go,
    desk/commands.go, desk/stats.go).

    A request is turned into a controller operation, and the operation runs as a
    program counter over its blocking points: FE61 writes, sleeps, listener
    registration and `select` statements. Everything the operation cannot decide
    itself arrives as a timed event: how a write ended, which ready case a select
    took, when the runtime fired a timer, and the notifications the BLE callback
    delivered. An event sequence is a run of the operation exactly if no step of it
    is refused. Time is in milliseconds. */
module Dispatch {
  import opened Wrappers
  import opened Packet
  import opened Heights
  import opened Desks

  // ---------- commands ----------

  datatype Command = Command(op: Byte, payload: seq<Byte>)

  const WAKE := Command(0x00, [])
  const MOVE_UP := Command(0x01, [])
  const MOVE_DOWN := Command(0x02, [])
  const SAVE_PRESET_1 := Command(0x03, [])
  const SAVE_PRESET_2 := Command(0x04, [])
  const PRESET_1 := Command(0x05, [])
  const PRESET_2 := Command(0x06, [])
  const HEIGHT_LIMITS := Command(0x07, [])
  const STOP := Command(0x2B, [])
  const SIT_STAND := Command(0xA2, [])

  function MoveTo(target: real): Command {
    Command(0x1B, MillimetreBytes(target))
  }

  function GoPreset(n: int): Option<Command> {
    if n == 1 then Some(PRESET_1) else if n == 2 then Some(PRESET_2) else None
  }

  function SavePreset(n: int): Option<Command> {
    if n == 1 then Some(SAVE_PRESET_1) else if n == 2 then Some(SAVE_PRESET_2) else None
  }

  /** The opcodes that set the desk moving. */
  predicate IsMotion(c: Command) {
    c.op in {0x01, 0x02, 0x1B, 0x05, 0x06}
  }

  /** One FE61 write attempt. */
  datatype Entry = Entry(command: Command, ok: bool, at: nat)

  // ---------- requests ----------

  datatype Cmd = Up | Down | StopCmd | Move | Preset | StatsCmd | HeightCmd | Info | Status | Quit | Other

  datatype Request = Request(cmd: Cmd, durationMS: int, heightMM: real, toleranceMM: real,
                             timeoutMS: int, preset: int, save: bool)

  datatype Error = WriteFailed | Unsupported | Cancelled | TimedOut | NoData | UnknownCommand

  datatype Response =
    | OK
    | OkHeight(mm: real)
    | OkStats(standSecs: nat, sitSecs: nat)
    | OkDevice
    | Failed(error: Error)
    | Preempted

  /** The controller call a request amounts to, its defaults filled in. */
  datatype Op =
    | Drive(up: bool, ms: int)
    | Goto(target: real, tolerance: real, timeout: int)
    | ToPreset(n: int, timeout: int, quiescence: int)
    | Halt
    | Save(n: int)
    | ReadHeight(timeout: int)
    | ReadStats(timeout: int)
    | Answer(resp: Response)

  function OrDefault(n: int, default: int): int {
    if n <= 0 then default else n
  }

  function OpOf(req: Request): Op {
    match req.cmd
    case Up => Drive(true, OrDefault(req.durationMS, 500))
    case Down => Drive(false, OrDefault(req.durationMS, 500))
    case StopCmd => Halt
    case Move =>
      Goto(req.heightMM, if req.toleranceMM <= 0.0 then 2.0 else req.toleranceMM, OrDefault(req.timeoutMS, 30000))
    case Preset =>
      if req.save then Save(req.preset)
      else ToPreset(req.preset, OrDefault(req.timeoutMS, 30000), 0)
    case StatsCmd => ReadStats(5000)
    case HeightCmd => ReadHeight(5000)
    case Info => Answer(OkDevice)
    case Status => Answer(OkDevice)
    case Quit => Answer(OK)
    case Other => Answer(Failed(UnknownCommand))
  }

  predicate Moves(op: Op) {
    op.Drive? || op.Goto? || op.ToPreset?
  }

  predicate Listens(op: Op) {
    op.Goto? || op.ToPreset? || op.ReadHeight? || op.ReadStats?
  }

  /** The pulse repeated while the desk moves. */
  function PulseOf(op: Op): Option<Command> {
    match op
    case Drive(up, _) => Some(if up then MOVE_UP else MOVE_DOWN)
    case Goto(target, _, _) => Some(MoveTo(target))
    case ToPreset(n, _, _) => GoPreset(n)
    case _ => None
  }

  /** How long the operation may last once armed. */
  function LimitOf(op: Op): nat {
    var limit :=
      match op
      case Drive(_, ms) => ms
      case Goto(_, _, timeout) => timeout
      case ToPreset(_, timeout, _) => timeout
      case ReadHeight(timeout) => if timeout < 5000 then 5000 else timeout
      case ReadStats(timeout) => if timeout < 5000 then 5000 else timeout
      case _ => 0;
    if limit < 0 then 0 else limit
  }

  function QuiescenceOf(op: Op): nat
    requires op.ToPreset?
  {
    OrDefault(op.quiescence, 500)
  }

  // ---------- the machine ----------

  datatype Pc =
    | Add                    // about to register the listener
    | Wake(i: nat)           // about to write wake number i
    | Nap(i: nat)            // sleeping 100 ms after it
    | First                  // about to write the first pulse
    | Arm                    // about to create the ticker and the deadline
    | Select                 // in the select of the motion loop
    | Pulse                  // took a tick, about to write a pulse
    | StopThen(resp: Response)
    | Cached                 // about to look at the height cache
    | Send                   // about to write the one command of the operation
    | Await                  // in the select of a query
    | Reply                  // about to answer without touching the desk
    | Remove(resp: Response) // about to run the listener's cancel
    | Done(resp: Response)

  datatype Event =
    | Wrote(ok: bool)
    | Refused                // the preset number has no command
    | Woke
    | Added
    | Armed
    | CtxDone                // select cases, from here
    | Arrival
    | Deadline
    | Tick
    | HeightTaken
    | Quiet
    | DataTaken              // to here
    | CacheHit(mm: real)
    | CacheMiss
    | Answered
    | Removed
    | HeightReport(mm: real) // the BLE callback, at any moment
    | StatsReport(stats: SitStandTime)
    | TimerFires             // the runtime, at any moment

  datatype TimedEvent = At(ev: Event, at: nat)

  /** A one-shot timer: when it is due, if it is armed, and the value waiting in
      its channel, if it has fired and nobody took it. */
  datatype Timer = Timer(due: Option<nat>, token: bool)

  datatype Data = HeightData(mm: real) | StatsData(stats: SitStandTime)

  datatype Heard = Heard(mm: real, at: nat)

  /** What the operation's clocks were set to. */
  datatype Clock = Clock(
    wakeAt: nat,            // when the nap is over
    tickerAt: nat,          // when the ticker was created
    lastTick: nat,          // when a tick was last taken
    deadline: nat)

  /** What the operation's listener has done. */
  datatype Ears = Ears(
    listening: bool,        // registered
    arrived: bool,          // the channel `arrived`, of capacity 1
    inbox: seq<real>,       // the channel `heightCh`, of capacity 4
    data: Option<Data>,     // the channel of a query, of capacity 1
    heard: seq<Heard>)      // the heights it was called with

  /** Quiescence detection. */
  datatype Silence = Silence(
    timer: Option<Timer>,   // `quiescenceTimer`, nil at first
    takenAt: Option<nat>,   // when a height was last taken from the inbox
    heardThen: nat)         // how many had been heard at that moment

  datatype State = State(pc: Pc, now: nat, clock: Clock, ears: Ears, silence: Silence, wire: seq<Entry>)

  function InitialPc(op: Op): Pc {
    match op
    case Drive(_, _) => Wake(0)
    case Halt => Send
    case Save(_) => Send
    case ReadHeight(_) => Cached
    case Answer(_) => Reply
    case _ => Add
  }

  function Initial(op: Op, now: nat): State {
    State(InitialPc(op), now, Clock(0, 0, 0, 0), Ears(false, false, [], None, []), Silence(None, None, 0), [])
  }

  /** Returning runs the deferred cancel of a registered listener. */
  function Return(op: Op, resp: Response): Pc {
    if Listens(op) then Remove(resp) else Done(resp)
  }

  function CommandAt(op: Op, pc: Pc): Option<Command> {
    match pc
    case Wake(_) => Some(WAKE)
    case First => PulseOf(op)
    case Pulse => PulseOf(op)
    case StopThen(_) => Some(STOP)
    case Send =>
      (match op
       case Halt => Some(STOP)
       case Save(n) => SavePreset(n)
       case ReadStats(_) => Some(SIT_STAND)
       case _ => Some(HEIGHT_LIMITS))
    case _ => None
  }

  predicate MayRefuse(pc: Pc) {
    pc.First? || pc.Pulse? || pc.Send?
  }

  function AfterWrite(op: Op, pc: Pc, ok: bool): Pc
    requires CommandAt(op, pc).Some?
  {
    match pc
    case Wake(i) => if ok then Nap(i) else Return(op, Failed(WriteFailed))
    case First =>
      if ok then Arm
      else if op.Drive? then StopThen(Failed(WriteFailed))
      else Return(op, Failed(WriteFailed))
    case Pulse => if ok then Select else StopThen(Failed(WriteFailed))
    case StopThen(resp) => Return(op, resp)
    case _ =>
      if op.Halt? || op.Save? then Done(if ok then OK else Failed(WriteFailed))
      else if ok then Arm
      else Return(op, Failed(WriteFailed))
  }

  /** A tick is waiting: one has come due since the last was taken. Ticks that come
      due while one is waiting are dropped, as in a channel of capacity 1. */
  predicate TickReady(c: Clock, at: nat) {
    c.tickerAt <= c.lastTick <= at && (at - c.tickerAt) / 200 > (c.lastTick - c.tickerAt) / 200
  }

  /** `Stop`, drain, `Reset` on an existing timer; `NewTimer` on the first height. */
  function Rearmed(at: nat, quiescence: nat): Option<Timer> {
    Some(Timer(Some(at + quiescence), false))
  }

  /** The quiescence timer's channel holds a value. */
  predicate TimerFired(q: Silence) {
    q.timer.Some? && q.timer.value.token
  }

  predicate TimerDue(q: Silence, at: nat) {
    q.timer.Some? && q.timer.value.due.Some? && q.timer.value.due.value <= at
  }

  /** The motion loop's select. */
  function NextSelect(op: Op, s: State, ev: Event): Option<State> {
    match ev
    case CtxDone => Some(s.(pc := StopThen(if op.Drive? then OK else Failed(Cancelled))))
    case Deadline =>
      if s.now >= s.clock.deadline then Some(s.(pc := StopThen(if op.Drive? then OK else Failed(TimedOut)))) else None
    case Tick => if TickReady(s.clock, s.now) then Some(s.(clock := s.clock.(lastTick := s.now), pc := Pulse)) else None
    case Arrival => if op.Goto? && s.ears.arrived then Some(s.(ears := s.ears.(arrived := false), pc := StopThen(OK))) else None
    case HeightTaken =>
      if op.ToPreset? && s.ears.inbox != [] then
        Some(s.(ears := s.ears.(inbox := s.ears.inbox[1..]),
                silence := Silence(Rearmed(s.now, QuiescenceOf(op)), Some(s.now), |s.ears.heard|)))
      else None
    case Quiet =>
      if op.ToPreset? && TimerFired(s.silence) then
        Some(s.(silence := s.silence.(timer := Some(s.silence.timer.value.(token := false))), pc := StopThen(OK)))
      else None
    case _ => None
  }

  /** The select of CurrentHeight and FetchSitStandTime. */
  function NextAwait(op: Op, s: State, ev: Event): Option<State> {
    match ev
    case Deadline => if s.now >= s.clock.deadline then Some(s.(pc := Return(op, Failed(NoData)))) else None
    case DataTaken =>
      if s.ears.data.Some? then
        Some(s.(ears := s.ears.(data := None), pc := Return(op, Answering(s.ears.data.value))))
      else None
    case _ => None
  }

  function Answering(data: Data): Response {
    match data
    case HeightData(mm) => OkHeight(mm)
    case StatsData(t) => OkStats(StandSecs(t), SitSecs(t))
  }

  function StandSecs(t: SitStandTime): nat {
    t.standH as int * 3600 + t.standM as int * 60 + t.standS
  }

  function SitSecs(t: SitStandTime): nat {
    t.sitH as int * 3600 + t.sitM as int * 60 + t.sitS
  }

  /** The callbacks' non-blocking sends. */
  function OnHeight(op: Op, l: Ears, mm: real, now: nat): Ears {
    if !l.listening then l
    else match op
      case Goto(target, tolerance, _) =>
        l.(arrived := l.arrived || Near(mm, target, tolerance), heard := l.heard + [Heard(mm, now)])
      case ToPreset(_, _, _) =>
        l.(inbox := if |l.inbox| < 4 then l.inbox + [mm] else l.inbox, heard := l.heard + [Heard(mm, now)])
      case ReadHeight(_) => if l.data.None? then l.(data := Some(HeightData(mm))) else l
      case _ => l
  }

  function OnStats(op: Op, l: Ears, stats: SitStandTime): Ears {
    if l.listening && op.ReadStats? && l.data.None? then l.(data := Some(StatsData(stats))) else l
  }

  /** One step at the time the event happens, or None if the event cannot happen. */
  function Step(op: Op, s: State, ev: Event): Option<State> {
    match ev
    case Wrote(ok) =>
      var c := CommandAt(op, s.pc);
      if c.None? then None
      else Some(s.(wire := s.wire + [Entry(c.value, ok, s.now)], clock := s.clock.(wakeAt := s.now + 100), pc := AfterWrite(op, s.pc, ok)))
    case Refused =>
      if MayRefuse(s.pc) && CommandAt(op, s.pc).None? then Some(s.(pc := Return(op, Failed(Unsupported)))) else None
    case Woke =>
      if s.pc.Nap? && s.now >= s.clock.wakeAt then Some(s.(pc := if s.pc.i < 2 then Wake(s.pc.i + 1) else First)) else None
    case Added =>
      if s.pc.Add? then Some(s.(ears := s.ears.(listening := true), pc := if Moves(op) then Wake(0) else Send)) else None
    case Armed =>
      if s.pc.Arm? then
        Some(s.(clock := Clock(s.clock.wakeAt, s.now, s.now, s.now + LimitOf(op)), pc := if Moves(op) then Select else Await))
      else None
    case CacheHit(mm) => if s.pc.Cached? then Some(s.(pc := Done(OkHeight(mm)))) else None
    case CacheMiss => if s.pc.Cached? then Some(s.(pc := Add)) else None
    case Answered => if s.pc.Reply? && op.Answer? then Some(s.(pc := Done(op.resp))) else None
    case Removed => if s.pc.Remove? then Some(s.(ears := s.ears.(listening := false), pc := Done(s.pc.resp))) else None
    case HeightReport(mm) => Some(s.(ears := OnHeight(op, s.ears, mm, s.now)))
    case StatsReport(t) => Some(s.(ears := OnStats(op, s.ears, t)))
    case TimerFires => if TimerDue(s.silence, s.now) then Some(s.(silence := s.silence.(timer := Some(Timer(None, true))))) else None
    case _ =>
      if s.pc.Select? then NextSelect(op, s, ev)
      else if s.pc.Await? then NextAwait(op, s, ev)
      else None
  }

  function Next(op: Op, s: State, e: TimedEvent): Option<State> {
    if e.at < s.now || s.pc.Done? then None else Step(op, s.(now := e.at), e.ev)
  }

  // ---------- runs ----------

  /** A run, oldest event innermost. */
  datatype Run = Begin(now: nat) | Then(before: Run, event: TimedEvent)

  /** Where a run ends, or None if it is not a run of op. */
  function Exec(op: Op, run: Run): Option<State> {
    match run
    case Begin(now) => Some(Initial(op, now))
    case Then(before, e) =>
      var s := Exec(op, before);
      if s.None? then None else Next(op, s.value, e)
  }

  ghost predicate Reaches(op: Op, run: Run, s: State) {
    Exec(op, run) == Some(s)
  }
}
