/** The code of one dispatched request, in its own form: `dispatch` with its pulse
    loop (internal/ipc/server.go), `WaitForHeight`, `WaitForPreset` and `CurrentHeight`
    (desk/monitor.go), `FetchSitStandTime` (desk/stats.go) and the commands they write
    (desk/commands.go). Each method is proved to follow the step machine of module
    Dispatch; what is proved of the machine's runs then holds of the code. */
module DispatchCode {
  import opened Wrappers
  import opened Desks
  import Heights
  import opened Dispatch
  import DispatchTheory
  import QueryTheory
  import RequestTheory
  import TimingTheory
  import WaitTheory

  /** What the environment does from now on, next event first. */
  datatype Script = End | Play(event: TimedEvent, rest: Script)

  /** The script takes the operation from s to its end. */
  predicate Plays(op: Op, s: State, script: Script)
    decreases script
  {
    match script
    case End => s.pc.Done?
    case Play(e, rest) => Next(op, s, e).Some? && Plays(op, Next(op, s, e).value, rest)
  }

  function Final(op: Op, s: State, script: Script): State
    requires Plays(op, s, script)
    decreases script
  {
    match script
    case End => s
    case Play(e, rest) => Final(op, Next(op, s, e).value, rest)
  }

  /** The run that a script makes of a run so far. */
  function Extend(run: Run, script: Script): Run
    decreases script
  {
    match script
    case End => run
    case Play(e, rest) => Extend(Then(run, e), rest)
  }

  lemma {:induction false} FinalIsReached(op: Op, run: Run, s: State, script: Script)
    requires Reaches(op, run, s) && Plays(op, s, script)
    ensures Reaches(op, Extend(run, script), Final(op, s, script))
    ensures Final(op, s, script).pc.Done?
    decreases script
  {
    if script.Play? {
      FinalIsReached(op, Then(run, script.event), Next(op, s, script.event).value, script.rest);
    }
  }

  /** The script that replays a run and then continues with another. */
  function Replay(run: Run, tail: Script): Script {
    match run
    case Begin(_) => tail
    case Then(before, e) => Replay(before, Play(e, tail))
  }

  function StartOf(run: Run): nat {
    match run
    case Begin(now) => now
    case Then(before, _) => StartOf(before)
  }

  /** Every run of the machine that ends is played by some script, so what the code
      does under all scripts is what the machine does in all complete runs. */
  lemma {:induction false} EveryRunIsPlayed(op: Op, run: Run, s: State, tail: Script)
    requires Reaches(op, run, s) && Plays(op, s, tail)
    ensures Plays(op, Initial(op, StartOf(run)), Replay(run, tail))
    ensures Final(op, Initial(op, StartOf(run)), Replay(run, tail)) == Final(op, s, tail)
  {
    hide Step;
    if run.Then? {
      EveryRunIsPlayed(op, run.before, Exec(op, run.before).value, Play(run.event, tail));
    }
  }

  /** Events that happen to the operation whatever it is doing. */
  predicate Background(ev: Event) {
    ev.HeightReport? || ev.StatsReport? || ev.TimerFires?
  }

  /** What a blocked operation can be woken by. */
  lemma AwaitedEvent(op: Op, s: State, ev: Event)
    requires Step(op, s, ev).Some? && !Background(ev)
    ensures match s.pc
            case Add => ev.Added?
            case Nap(_) => ev.Woke?
            case Arm => ev.Armed?
            case Cached => ev.CacheHit? || ev.CacheMiss?
            case Reply => ev.Answered?
            case Remove(_) => ev.Removed?
            case Select => NextSelect(op, s, ev).Some?
            case Await => NextAwait(op, s, ev).Some?
            case Done(_) => true
            case _ => if CommandAt(op, s.pc).Some? then ev.Wrote? else ev.Refused?
  {
  }

  lemma BackgroundFrame(op: Op, s: State, ev: Event)
    requires Background(ev) && Step(op, s, ev).Some?
    ensures var s' := Step(op, s, ev).value;
            match ev
            case HeightReport(mm) => s' == s.(ears := OnHeight(op, s.ears, mm, s.now))
            case StatsReport(t) => s' == s.(ears := OnStats(op, s.ears, t))
            case _ => s' == s.(silence := s.silence.(timer := Some(Timer(None, true))))
  {
  }

  function Result(err: Option<Error>): Response {
    if err.None? then OK else Failed(err.value)
  }

  class Session {
    const op: Op
    // Channels of Go before 1.23 keep a fired timer's value until drained; later
    // ones discard it on Stop.
    const timersDiscard: bool

    var script: Script
    var now: nat
    var ears: Ears
    var timer: Option<Timer>
    var wire: seq<Entry>

    ghost var run: Run
    ghost var s: State
    ghost const goal: State

    /** Everything but the timer is where the machine has it. */
    ghost predicate Synced()
      reads this
    {
      && Reaches(op, run, s) && Plays(op, s, script) && Final(op, s, script) == goal
      && now == s.now && ears == s.ears && wire == s.wire
    }

    ghost predicate Valid()
      reads this
    {
      Synced() && timer == s.silence.timer
    }

    constructor (req: Request, start: nat, script: Script, timersDiscard: bool)
      requires Plays(OpOf(req), Initial(OpOf(req), start), script)
      ensures Valid() && op == OpOf(req) && s == Initial(op, start)
      ensures goal == Final(OpOf(req), Initial(OpOf(req), start), script)
    {
      op := OpOf(req);
      this.timersDiscard := timersDiscard;
      this.script := script;
      now, ears, timer, wire := start, Ears(false, false, [], None, []), None, [];
      run, s := Begin(start), Initial(OpOf(req), start);
      goal := Final(OpOf(req), Initial(OpOf(req), start), script);
    }

    /** The callbacks registered with AddHeightListener and AddSitStandListener:
        non-blocking sends into channels of capacity 1, 4 and 1. */
    method Callback(ev: Event)
      modifies this`ears
      ensures ev.HeightReport? ==> ears == OnHeight(op, old(ears), ev.mm, now)
      ensures ev.StatsReport? ==> ears == OnStats(op, old(ears), ev.stats)
      ensures ev.TimerFires? ==> ears == old(ears)
    {
      if ev.HeightReport? && ears.listening {
        match op
        case Goto(target, tolerance, _) =>
          ears := ears.(heard := ears.heard + [Heard(ev.mm, now)]);
          if Heights.Near(ev.mm, target, tolerance) {
            if !ears.arrived {
              ears := ears.(arrived := true);
            }
          }
        case ToPreset(_, _, _) =>
          ears := ears.(heard := ears.heard + [Heard(ev.mm, now)]);
          if |ears.inbox| < 4 {
            ears := ears.(inbox := ears.inbox + [ev.mm]);
          }
        case ReadHeight(_) =>
          if ears.data.None? {
            ears := ears.(data := Some(HeightData(ev.mm)));
          }
        case _ =>
      } else if ev.StatsReport? && ears.listening && op.ReadStats? {
        if ears.data.None? {
          ears := ears.(data := Some(StatsData(ev.stats)));
        }
      }
    }

    /** The event has happened, at time `now`; nothing has acted on it yet. */
    ghost predicate Happened(ev: Event)
      reads this
    {
      && now == s.now && ears == s.ears && wire == s.wire && timer == s.silence.timer
      && run.Then? && run.event.ev == ev
      && Step(op, s, ev).Some?
      && var s' := Step(op, s, ev).value;
      && Reaches(op, run, s') && Plays(op, s', script) && Final(op, s', script) == goal
    }

    /** The next thing the environment does. */
    method Take() returns (ev: Event)
      requires Valid() && !s.pc.Done?
      modifies this`script, this`now, this`run, this`s
      ensures Happened(ev) && s == old(s).(now := now) && script < old(script)
      ensures run == Then(old(run), At(ev, now))
      ensures op.ToPreset? ==> WaitTheory.QuietInv(op, s)
      ensures run.Then? && (QueryTheory.Queries(op) ==> QueryTheory.QueryInv(op, run.before, s))
    {
      hide Step, WaitTheory.QuietInv, QueryTheory.QueryInv;
      var e := script.event;
      if QueryTheory.Queries(op) {
        QueryTheory.QueryReached(op, run, s);
        QueryTheory.QueryLater(op, run, s, e.at);
      }
      if op.ToPreset? {
        WaitTheory.QuietReached(op, run, s);
        WaitTheory.QuietLater(op, s, e.at);
      }
      script, now := script.rest, e.at;
      run, s := Then(run, e), s.(now := e.at);
      ev := e.ev;
    }

    /** Callbacks and timer expiry happen without the operation's doing. */
    method Absorb(ev: Event)
      requires Happened(ev) && Background(ev)
      modifies this`ears, this`timer, this`s
      ensures Valid() && s.pc == old(s.pc) && s.wire == old(s.wire)
    {
      hide Step, Plays, Final, Reaches;
      BackgroundFrame(op, s, ev);
      Callback(ev);
      if ev.TimerFires? {
        timer := Some(Timer(None, true));
      }
      s := Step(op, s, ev).value;
    }

    /** Blocks until something the operation waits for has happened. */
    method Block() returns (ev: Event)
      requires Valid() && !s.pc.Done?
      modifies this
      ensures Happened(ev) && !Background(ev)
      ensures s.pc == old(s.pc) && s.wire == old(s.wire) && script < old(script)
      ensures QueryTheory.Extends(run, old(run))
      ensures op.ToPreset? ==> WaitTheory.QuietInv(op, s)
      ensures run.Then? && (QueryTheory.Queries(op) ==> QueryTheory.QueryInv(op, run.before, s))
    {
      hide *;
      Same(run);
      while true
        invariant Valid() && s.pc == old(s.pc) && s.wire == old(s.wire)
        invariant QueryTheory.Extends(run, old(run))
        invariant script == old(script) || script < old(script)
        decreases script
      {
        ghost var before := run;
        ev := Take();
        OneMore(run, before, old(run));
        if !Background(ev) {
          return;
        }
        Absorb(ev);
      }
    }

    static lemma Same(run: Run)
      ensures QueryTheory.Extends(run, run)
    {
    }

    static lemma OneMore(later: Run, before: Run, run: Run)
      requires later.Then? && later.before == before && QueryTheory.Extends(before, run)
      ensures QueryTheory.Extends(later, run)
    {
    }

    // ---------- blocking points ----------

    method Write(c: Command) returns (ok: bool)
      requires Valid() && CommandAt(op, s.pc) == Some(c)
      modifies this
      ensures Valid() && s.pc == AfterWrite(op, old(s.pc), ok) && script < old(script)
      ensures wire == old(wire) + [Entry(c, ok, now)]
    {
      var ev := Block();
      AwaitedEvent(op, s, ev);
      ok := ev.ok;
      wire := wire + [Entry(c, ok, now)];
      s := Step(op, s, ev).value;
    }

    /** The error return of GoPreset and SavePreset for an unsupported number. */
    method Refuse()
      requires Valid() && MayRefuse(s.pc) && CommandAt(op, s.pc).None?
      modifies this
      ensures Valid() && s.pc == Return(op, Failed(Unsupported)) && script < old(script)
    {
      var ev := Block();
      AwaitedEvent(op, s, ev);
      s := Step(op, s, ev).value;
    }

    method Sleep()
      requires Valid() && s.pc.Nap?
      modifies this
      ensures Valid() && s.pc == (if old(s.pc).i < 2 then Wake(old(s.pc).i + 1) else First)
      ensures wire == old(wire)
    {
      var ev := Block();
      AwaitedEvent(op, s, ev);
      s := Step(op, s, ev).value;
    }

    method AddListener()
      requires Valid() && s.pc.Add?
      modifies this
      ensures Valid() && s.pc == if Moves(op) then Wake(0) else Send
    {
      var ev := Block();
      AwaitedEvent(op, s, ev);
      ears := ears.(listening := true);
      s := Step(op, s, ev).value;
    }

    /** The deferred cancel. */
    method CancelListener()
      requires Valid() && s.pc.Remove?
      modifies this
      ensures Valid() && s.pc == Done(old(s.pc).resp)
      ensures QueryTheory.Extends(run, old(run))
    {
      var ev := Block();
      AwaitedEvent(op, s, ev);
      ears := ears.(listening := false);
      s := Step(op, s, ev).value;
    }

    /** time.NewTicker(200 ms) and time.After, or time.NewTimer of a query. */
    method StartClocks(limit: int)
      requires Valid() && s.pc.Arm? && LimitOf(op) == if limit < 0 then 0 else limit
      modifies this
      ensures Valid() && s.pc == if Moves(op) then Select else Await
    {
      var ev := Block();
      AwaitedEvent(op, s, ev);
      s := Step(op, s, ev).value;
    }

    /** The select of a motion loop. The chosen case has received from its channel;
        for a height, resetting the quiescence timer is left to the loop. */
    method SelectCase() returns (ev: Event)
      requires Valid() && s.pc.Select?
      modifies this
      ensures Synced() && script < old(script)
      ensures ev.HeightTaken? || timer == s.silence.timer
      ensures match ev
              case CtxDone => s.pc == StopThen(if op.Drive? then OK else Failed(Cancelled))
              case Deadline => s.pc == StopThen(if op.Drive? then OK else Failed(TimedOut))
              case Tick => s.pc == Pulse
              case Arrival => op.Goto? && s.pc == StopThen(OK)
              case Quiet => op.ToPreset? && s.pc == StopThen(OK)
              case HeightTaken =>
                && op.ToPreset? && s.pc.Select? && s.silence.timer == Rearmed(now, QuiescenceOf(op))
                && (timer.Some? && timer.value.due.Some? ==> !timer.value.token)
              case _ => false
    {
      ev := Block();
      AwaitedEvent(op, s, ev);
      if ev.Arrival? {
        ears := ears.(arrived := false);
      } else if ev.HeightTaken? {
        ears := ears.(inbox := ears.inbox[1..]);
      } else if ev.Quiet? {
        timer := Some(timer.value.(token := false));
      }
      s := Step(op, s, ev).value;
    }

    /** The select of a query. */
    method Receive() returns (data: Option<Data>)
      requires Valid() && QueryTheory.Queries(op) && s.pc.Await?
      modifies this
      ensures Valid()
      ensures s.pc == Return(op, if data.None? then Failed(NoData) else Answering(data.value))
      ensures data.Some? ==> data == QueryTheory.Oldest(QueryTheory.Reports(op, run))
      ensures data.Some? ==> data.value.HeightData? == op.ReadHeight?
    {
      var ev := Block();
      AwaitedEvent(op, s, ev);
      QueryTheory.ReportsFit(op, run);
      if ev.DataTaken? {
        data := ears.data;
        ears := ears.(data := None);
      } else {
        data := None;
      }
      s := Step(op, s, ev).value;
    }

    // ---------- time.Timer, as the runtime is taken to implement it ----------

    method StopTimer() returns (stopped: bool)
      requires timer.Some?
      modifies this`timer
      ensures stopped == (old(timer).value.due.Some? || (timersDiscard && old(timer).value.token))
      ensures timer == Some(Timer(None, old(timer).value.token && !timersDiscard))
    {
      stopped := timer.value.due.Some? || (timersDiscard && timer.value.token);
      timer := Some(Timer(None, timer.value.token && !timersDiscard));
    }

    method DrainTimer()
      requires timer.Some?
      modifies this`timer
      ensures timer == Some(old(timer).value.(token := false))
    {
      if timer.value.token {
        timer := Some(timer.value.(token := false));
      }
    }

    method ResetTimer(d: nat)
      requires timer.Some?
      modifies this`timer
      ensures timer == Some(Timer(Some(now + d), old(timer).value.token && !timersDiscard))
    {
      timer := Some(Timer(Some(now + d), timer.value.token && !timersDiscard));
    }

    /** On every height taken: Stop, drain, Reset; NewTimer on the first. */
    method RestartQuiescence(window: nat)
      requires Synced() && s.silence.timer == Rearmed(now, window)
      requires timer.Some? && timer.value.due.Some? ==> !timer.value.token
      modifies this`timer
      ensures Valid()
    {
      if timer.None? {
        timer := Some(Timer(Some(now + window), false));
      } else {
        var stopped := StopTimer();
        if !stopped {
          DrainTimer();
        }
        ResetTimer(window);
      }
    }

    // ---------- desk/commands.go ----------

    /** Three wakes at least 100 ms apart, or as many as it takes for one to fail. */
    method WakeUp() returns (ok: bool)
      requires Valid() && s.pc == Wake(0)
      modifies this
      ensures Valid() && s.pc == if ok then First else Return(op, Failed(WriteFailed))
      ensures 1 <= |wire| <= 3 && forall k :: 0 <= k < |wire| ==> wire[k].command == WAKE
      ensures forall k :: 0 <= k < |wire| ==> wire[k].ok == (ok || k < |wire| - 1)
      ensures ok ==> |wire| == 3 && now >= wire[2].at + 100
      ensures TimingTheory.SpacedWakes(wire)
    {
      hide Step, Plays, Final, Reaches, TimingTheory.SpacedWakes;
      Unwritten();
      for i := 0 to 3
        invariant Valid() && s.pc == if i < 3 then Wake(i) else First
        invariant |wire| == i && forall k :: 0 <= k < i ==> wire[k].command == WAKE && wire[k].ok
      {
        ok := Write(WAKE);
        if !ok {
          Woken();
          return;
        }
        Sleep();
      }
      ok := true;
      Woken();
    }

    lemma Unwritten()
      requires Valid() && s.pc == Wake(0)
      ensures wire == [] && Moves(op)
    {
      DispatchTheory.TranscriptReached(op, run, s);
    }

    lemma Woken()
      requires Valid() && Moves(op)
      ensures TimingTheory.SpacedWakes(wire)
      ensures s.pc.First? ==> |wire| == 3 && now >= wire[2].at + 100
    {
      TimingTheory.WakesReached(op, run, s);
    }

    method Stop() returns (ok: bool)
      requires Valid() && s.pc.StopThen?
      modifies this
      ensures Valid() && s.pc == Return(op, old(s.pc).resp)
    {
      ok := Write(STOP);
    }

    method MoveToHeight(target: real) returns (ok: bool)
      requires Valid() && op.Goto? && op.target == target && (s.pc.First? || s.pc.Pulse?)
      modifies this
      ensures Valid() && s.pc == AfterWrite(op, old(s.pc), ok) && script < old(script)
    {
      ok := Write(Command(0x1B, Heights.MillimetreBytes(target)));
    }

    method GoToPreset(n: int) returns (err: Option<Error>)
      requires Valid() && op.ToPreset? && op.n == n && (s.pc.First? || s.pc.Pulse?)
      modifies this
      ensures Valid() && script < old(script)
      ensures GoPreset(n).None? ==> err == Some(Unsupported) && s.pc == Return(op, Failed(Unsupported))
      ensures GoPreset(n).Some? ==> s.pc == AfterWrite(op, old(s.pc), err.None?) && (err.Some? ==> err.value == WriteFailed)
    {
      var ok;
      if n == 1 {
        ok := Write(PRESET_1);
      } else if n == 2 {
        ok := Write(PRESET_2);
      } else {
        Refuse();
        return Some(Unsupported);
      }
      err := if ok then None else Some(WriteFailed);
    }

    // ---------- desk/monitor.go ----------

    method WaitForHeight(target: real, tolerance: real, timeout: int) returns (err: Option<Error>)
      requires Valid() && op == Goto(target, tolerance, timeout) && s.pc.Add?
      modifies this
      ensures Valid() && s.pc == Done(Result(err))
    {
      AddListener();
      err := DriveToHeight(target, timeout);
      CancelListener();
    }

    /** WaitForHeight between registering its listener and the deferred cancel. */
    method DriveToHeight(target: real, timeout: int) returns (err: Option<Error>)
      requires Valid() && op.Goto? && op.target == target && op.timeout == timeout && s.pc == Wake(0)
      modifies this
      ensures Valid() && s.pc == Remove(Result(err))
    {
      hide Step, Plays, Final, Reaches;
      var ok := WakeUp();
      if !ok {
        return Some(WriteFailed);
      }
      ok := MoveToHeight(target);
      if !ok {
        return Some(WriteFailed);
      }
      StartClocks(timeout);
      while true
        invariant Valid() && s.pc.Select?
        decreases script
      {
        var ev := SelectCase();
        match ev {
          case CtxDone =>
            ok := Stop();
            return Some(Cancelled);
          case Arrival =>
            ok := Stop();
            return None;
          case Deadline =>
            ok := Stop();
            return Some(TimedOut);
          case Tick =>
            ok := MoveToHeight(target);
            if !ok {
              ok := Stop();
              return Some(WriteFailed);
            }
        }
      }
    }

    method WaitForPreset(n: int, timeout: int, quiescence: int) returns (err: Option<Error>)
      requires Valid() && op == ToPreset(n, timeout, quiescence) && s.pc.Add?
      modifies this
      ensures Valid() && s.pc == Done(Result(err))
    {
      var window: nat := if quiescence <= 0 then 500 else quiescence;
      AddListener();
      err := DriveToPreset(n, timeout, window);
      CancelListener();
    }

    /** WaitForPreset between registering its listener and the deferred cancel. */
    method DriveToPreset(n: int, timeout: int, window: nat) returns (err: Option<Error>)
      requires Valid() && op.ToPreset? && op.n == n && op.timeout == timeout && s.pc == Wake(0)
      requires window == QuiescenceOf(op)
      modifies this
      ensures Valid() && s.pc == Remove(Result(err))
    {
      hide Step, Plays, Final, Reaches;
      var ok := WakeUp();
      if !ok {
        return Some(WriteFailed);
      }
      err := GoToPreset(n);
      if err.Some? {
        return;
      }
      StartClocks(timeout);
      while true
        invariant Valid() && s.pc.Select? && GoPreset(n).Some?
        decreases script
      {
        var ev := SelectCase();
        match ev {
          case CtxDone =>
            ok := Stop();
            return Some(Cancelled);
          case HeightTaken =>
            RestartQuiescence(window);
          case Quiet =>
            ok := Stop();
            return None;
          case Deadline =>
            ok := Stop();
            return Some(TimedOut);
          case Tick =>
            err := GoToPreset(n);
            if err.Some? {
              ok := Stop();
              return;
            }
        }
      }
    }

    method CurrentHeight(timeout: int) returns (mm: real, err: Option<Error>)
      requires Valid() && op == ReadHeight(timeout) && s.pc.Cached?
      modifies this
      ensures Valid() && s.pc == Done(if err.None? then OkHeight(mm) else Failed(err.value))
      ensures err.None? ==>
        || QueryTheory.FromCache(run) == Some(mm)
        || QueryTheory.Oldest(QueryTheory.Reports(op, run)) == Some(HeightData(mm))
    {
      var cached := LookUpHeight();
      if cached.Some? {
        QueryTheory.AnswerIsFirstReport(op, run, s);
        return cached.value, None;
      }
      AddListener();
      mm, err := AskForHeight(timeout);
      CancelListener();
      QueryTheory.AnswerIsFirstReport(op, run, s);
    }

    /** LastKnownHeight: the cache belongs to the desk, not to this operation. */
    method LookUpHeight() returns (cached: Option<real>)
      requires Valid() && op.ReadHeight? && s.pc.Cached?
      modifies this
      ensures Valid() && s.pc == if cached.Some? then Done(OkHeight(cached.value)) else Add
    {
      var ev := Block();
      AwaitedEvent(op, s, ev);
      cached := if ev.CacheHit? then Some(ev.mm) else None;
      s := Step(op, s, ev).value;
    }

    method AskForHeight(timeout: int) returns (mm: real, err: Option<Error>)
      requires Valid() && op == ReadHeight(timeout) && s.pc.Send?
      modifies this
      ensures Valid() && s.pc == Remove(if err.None? then OkHeight(mm) else Failed(err.value))
    {
      var ok := Write(HEIGHT_LIMITS);
      if !ok {
        return 0.0, Some(WriteFailed);
      }
      var wait := if timeout < 5000 then 5000 else timeout;
      StartClocks(wait);
      var data := Receive();
      if data.Some? {
        return data.value.mm, None;
      }
      return 0.0, Some(NoData);
    }

    // ---------- desk/stats.go ----------

    method FetchSitStandTime(timeout: int) returns (st: SitStandTime, err: Option<Error>)
      requires Valid() && op == ReadStats(timeout) && s.pc.Add?
      modifies this
      ensures Valid()
      ensures s.pc == Done(if err.None? then OkStats(StandSecs(st), SitSecs(st)) else Failed(err.value))
      ensures err.None? ==> QueryTheory.Oldest(QueryTheory.Reports(op, run)) == Some(StatsData(st))
    {
      AddListener();
      st, err := AskForStats(timeout);
      ghost var answered := run;
      CancelListener();
      if err.None? {
        QueryTheory.OldestKept(op, run, answered);
      }
    }

    method AskForStats(timeout: int) returns (st: SitStandTime, err: Option<Error>)
      requires Valid() && op == ReadStats(timeout) && s.pc.Send?
      modifies this
      ensures Valid()
      ensures s.pc == Remove(if err.None? then OkStats(StandSecs(st), SitSecs(st)) else Failed(err.value))
      ensures err.None? ==> QueryTheory.Oldest(QueryTheory.Reports(op, run)) == Some(StatsData(st))
    {
      st := SitStandTime(0, 0, 0, 0, 0, 0);
      var ok := Write(SIT_STAND);
      if !ok {
        return st, Some(WriteFailed);
      }
      var wait := if timeout < 5000 then 5000 else timeout;
      StartClocks(wait);
      var data := Receive();
      if data.Some? {
        return data.value.stats, None;
      }
      return st, Some(NoData);
    }

    // ---------- internal/ipc/server.go ----------

    /** MoveUp or MoveDown. */
    method PulseDrive(up: bool) returns (ok: bool)
      requires Valid() && op.Drive? && op.up == up && (s.pc.First? || s.pc.Pulse?)
      modifies this
      ensures Valid() && s.pc == AfterWrite(op, old(s.pc), ok) && script < old(script)
    {
      if up {
        ok := Write(MOVE_UP);
      } else {
        ok := Write(MOVE_DOWN);
      }
    }

    /** The "up" and "down" branch of dispatch. */
    method DriveFor(up: bool, dur: int) returns (resp: Response)
      requires Valid() && op == Drive(up, dur) && s.pc == Wake(0)
      modifies this
      ensures Valid() && s.pc == Done(resp)
    {
      hide Step, Plays, Final, Reaches;
      var ok := WakeUp();
      if !ok {
        return Failed(WriteFailed);
      }
      ok := PulseDrive(up);
      if !ok {
        ok := Stop();
        return Failed(WriteFailed);
      }
      StartClocks(dur);
      while true
        invariant Valid() && s.pc.Select?
        decreases script
      {
        var ev := SelectCase();
        match ev {
          case CtxDone => break;
          case Deadline => break;
          case Tick =>
            ok := PulseDrive(up);
            if !ok {
              ok := Stop();
              return Failed(WriteFailed);
            }
        }
      }
      ok := Stop();
      return OK;
    }

    method SaveAs(n: int) returns (err: Option<Error>)
      requires Valid() && op == Save(n) && s.pc.Send?
      modifies this
      ensures Valid() && s.pc == Done(Result(err))
    {
      var ok;
      if n == 1 {
        ok := Write(SAVE_PRESET_1);
      } else if n == 2 {
        ok := Write(SAVE_PRESET_2);
      } else {
        Refuse();
        return Some(Unsupported);
      }
      err := if ok then None else Some(WriteFailed);
    }

    /** An answer that does not touch the desk. */
    method AnswerWith(resp: Response)
      requires Valid() && op == Answer(resp) && s.pc.Reply?
      modifies this
      ensures Valid() && s.pc == Done(resp)
    {
      var ev := Block();
      AwaitedEvent(op, s, ev);
      s := Step(op, s, ev).value;
    }

    /** A finished operation is where its script leads. */
    lemma AtGoal()
      requires Valid() && s.pc.Done?
      ensures goal == s && wire == s.wire && Reaches(op, run, s)
    {
      hide Step;
    }

    /** dispatch. Whatever the environment does, the code and the machine agree on
        the FE61 transcript and on the response. */
    method Run(req: Request) returns (resp: Response)
      requires Valid() && op == OpOf(req) && s.pc == InitialPc(op)
      modifies this
      ensures goal.pc == Done(resp) && wire == goal.wire
      ensures DispatchTheory.Settled(wire) && DispatchTheory.Complete(op, wire, resp)
      ensures RequestTheory.Says(req, wire, resp)
    {
      hide Step, Plays, Final, Reaches, QueryTheory.Oldest, QueryTheory.Reports, QueryTheory.FromCache, TimingTheory.SpacedWakes, RequestTheory.Says;
      match req.cmd {
        case Up =>
          resp := DriveFor(true, if req.durationMS <= 0 then 500 else req.durationMS);
        case Down =>
          resp := DriveFor(false, if req.durationMS <= 0 then 500 else req.durationMS);
        case StopCmd =>
          var ok := Write(STOP);
          resp := if ok then OK else Failed(WriteFailed);
        case Move =>
          var tol := if req.toleranceMM <= 0.0 then 2.0 else req.toleranceMM;
          var timeout := if req.timeoutMS <= 0 then 30000 else req.timeoutMS;
          var err := WaitForHeight(req.heightMM, tol, timeout);
          resp := Result(err);
        case Preset =>
          var err;
          if req.save {
            err := SaveAs(req.preset);
          } else {
            var timeout := if req.timeoutMS <= 0 then 30000 else req.timeoutMS;
            err := WaitForPreset(req.preset, timeout, 0);
          }
          resp := Result(err);
        case StatsCmd =>
          var st, err := FetchSitStandTime(5000);
          resp := if err.Some? then Failed(err.value) else OkStats(StandSecs(st), SitSecs(st));
        case HeightCmd =>
          var mm, err := CurrentHeight(5000);
          resp := if err.Some? then Failed(err.value) else OkHeight(mm);
        case Info =>
          resp := OkDevice;
          AnswerWith(resp);
        case Status =>
          resp := OkDevice;
          AnswerWith(resp);
        case Quit =>
          resp := OK;
          AnswerWith(resp);
        case Other =>
          resp := Failed(UnknownCommand);
          AnswerWith(resp);
      }
      AtGoal();
      DispatchTheory.FinishedIsSettled(op, run, s);
      RequestTheory.FinishedSays(req, run, s);
    }
  }
}
