/** What holds in every run of one dispatched operation. */
module DispatchTheory {
  import opened Wrappers
  import opened Packet
  import opened Heights
  import opened Desks
  import opened Dispatch

  // ---------- when a wire trace leaves the desk moving ----------

  /** Some successful motion write has no stop attempt after it. */
  function Moving(wire: seq<Entry>): bool {
    if wire == [] then false
    else
      var last := wire[|wire| - 1];
      if last.command == STOP then false
      else (last.ok && IsMotion(last.command)) || Moving(wire[..|wire| - 1])
  }

  ghost predicate Settled(wire: seq<Entry>) {
    forall i :: 0 <= i < |wire| && wire[i].ok && IsMotion(wire[i].command) ==>
      exists j :: i < j < |wire| && wire[j].command == STOP
  }

  lemma {:induction false} SettledIffNotMoving(wire: seq<Entry>)
    ensures Settled(wire) <==> !Moving(wire)
  {
    if wire != [] {
      var n := |wire| - 1;
      var before := wire[..n];
      SettledIffNotMoving(before);
      if wire[n].command == STOP {
      } else if Settled(before) && !(wire[n].ok && IsMotion(wire[n].command)) {
        forall i | 0 <= i < |wire| && wire[i].ok && IsMotion(wire[i].command)
          ensures exists j :: i < j < |wire| && wire[j].command == STOP
        {
          assert before[i] == wire[i];
          var j :| i < j < |before| && before[j].command == STOP;
          assert wire[j] == before[j];
        }
      } else if Settled(wire) {
        forall i | 0 <= i < n && before[i].ok && IsMotion(before[i].command)
          ensures exists j :: i < j < |before| && before[j].command == STOP
        {
          assert wire[i] == before[i];
          var j :| i < j < |wire| && wire[j].command == STOP;
          assert before[j] == wire[j];
        }
      }
    }
  }

  lemma MovingMore(wire: seq<Entry>, e: Entry)
    ensures Moving(wire + [e]) == (e.command != STOP && ((e.ok && IsMotion(e.command)) || Moving(wire)))
  {
    assert (wire + [e])[..|wire|] == wire;
  }

  lemma {:induction false} MovingConcat(a: seq<Entry>, b: seq<Entry>)
    requires !Moving(a)
    ensures Moving(a + b) == Moving(b)
  {
    if b == [] {
      assert a + b == a;
    } else {
      assert (a + b)[..|a + b| - 1] == a + b[..|b| - 1];
      MovingConcat(a, b[..|b| - 1]);
    }
  }

  lemma {:induction false} NoMotionNotMoving(wire: seq<Entry>)
    requires forall i :: 0 <= i < |wire| ==> !(wire[i].ok && IsMotion(wire[i].command))
    ensures !Moving(wire)
  {
    if wire != [] {
      NoMotionNotMoving(wire[..|wire| - 1]);
    }
  }

  // ---------- transcripts ----------

  predicate AllWakes(wire: seq<Entry>, n: nat) {
    n <= |wire| && forall i :: 0 <= i < n ==> wire[i].command == WAKE
  }

  predicate AllOk(wire: seq<Entry>, n: nat) {
    n <= |wire| && forall i :: 0 <= i < n ==> wire[i].ok
  }

  /** Three successful wakes, then one or more pulses of the operation's own kind. */
  predicate Driving(op: Op, wire: seq<Entry>) {
    && |wire| >= 4
    && AllWakes(wire, 3) && AllOk(wire, 3)
    && forall i :: 3 <= i < |wire| ==> PulseOf(op) == Some(wire[i].command)
  }

  /** A driven transcript ended by its one stop; every pulse before the last succeeded.
      Only a timed drive stops after a first pulse that failed. */
  predicate Ended(op: Op, wire: seq<Entry>) {
    && |wire| >= 5
    && wire[|wire| - 1].command == STOP
    && Driving(op, wire[..|wire| - 1])
    && AllOk(wire, |wire| - 2)
    && (!op.Drive? ==> wire[3].ok)
  }

  /** Given up before any pulse succeeded: a wake failed, the preset has no command,
      or the first pulse of a move or preset failed. */
  predicate Aborted(op: Op, wire: seq<Entry>) {
    || (1 <= |wire| <= 3 && AllWakes(wire, |wire|) && AllOk(wire, |wire| - 1) && !wire[|wire| - 1].ok)
    || (|wire| == 3 && AllWakes(wire, 3) && AllOk(wire, 3) && PulseOf(op).None?)
    || (|wire| == 4 && AllWakes(wire, 3) && AllOk(wire, 3) && PulseOf(op) == Some(wire[3].command) && !wire[3].ok && !op.Drive?)
  }

  /** A wake or pulse write failed. */
  predicate Faulted(wire: seq<Entry>) {
    exists i :: 0 <= i < |wire| && !wire[i].ok && wire[i].command != STOP
  }

  /** A non-moving operation writes at most one command, and never a motion command. */
  predicate QueryWire(wire: seq<Entry>) {
    |wire| <= 1 && (wire != [] ==> !IsMotion(wire[0].command))
  }

  /** The one command of an operation that does not move the desk. */
  predicate Asked(op: Op, wire: seq<Entry>) {
    |wire| == 1 && CommandAt(op, Send) == Some(wire[0].command)
  }

  /** It is written once, unless the answer is known without it or the preset has none. */
  predicate Queried(op: Op, wire: seq<Entry>, resp: Response) {
    match op
    case Answer(r) => wire == [] && resp == r
    case ReadHeight(_) => (wire == [] && resp.OkHeight?) || Asked(op, wire)
    case Save(n) => if SavePreset(n).None? then wire == [] && resp == Failed(Unsupported) else Asked(op, wire)
    case _ => Asked(op, wire)
  }

  /** The transcript of a finished operation, and what its response says of it. */
  predicate Complete(op: Op, wire: seq<Entry>, resp: Response) {
    if Moves(op) then
      && (Ended(op, wire) || Aborted(op, wire))
      && (resp == Failed(WriteFailed) <==> Faulted(wire))
    else
      && QueryWire(wire) && Queried(op, wire, resp)
      && (!op.Answer? ==> (resp == Failed(WriteFailed) <==> !AllOk(wire, |wire|)))
  }

  /** The transcript so far, at each program counter. */
  predicate Transcript(op: Op, pc: Pc, wire: seq<Entry>) {
    match pc
    case Add => Listens(op) && wire == []
    case Wake(i) => Moves(op) && i <= 2 && |wire| == i && AllWakes(wire, i) && AllOk(wire, i)
    case Nap(i) => Moves(op) && i <= 2 && |wire| == i + 1 && AllWakes(wire, i + 1) && AllOk(wire, i + 1)
    case First => Moves(op) && |wire| == 3 && AllWakes(wire, 3) && AllOk(wire, 3)
    case Select => Moves(op) && Driving(op, wire) && AllOk(wire, |wire|)
    case Pulse => Moves(op) && Driving(op, wire) && AllOk(wire, |wire|)
    case StopThen(resp) =>
      && Moves(op) && Driving(op, wire) && AllOk(wire, |wire| - 1)
      && (!op.Drive? ==> wire[3].ok)
      && (resp == Failed(WriteFailed) <==> Faulted(wire))
    case Arm => if Moves(op) then Driving(op, wire) && AllOk(wire, |wire|) else (op.ReadHeight? || op.ReadStats?) && QueryWire(wire) && Asked(op, wire) && AllOk(wire, |wire|)
    case Remove(resp) => Complete(op, wire, resp)
    case Done(resp) => Complete(op, wire, resp)
    case Reply => op.Answer? && wire == []
    case Cached => op.ReadHeight? && wire == []
    case Send => !Moves(op) && !op.Answer? && wire == []
    case Await => (op.ReadHeight? || op.ReadStats?) && QueryWire(wire) && Asked(op, wire) && AllOk(wire, |wire|)
  }

  lemma FaultedAppend(wire: seq<Entry>, e: Entry)
    ensures Faulted(wire + [e]) <==> Faulted(wire) || (!e.ok && e.command != STOP)
  {
    var all := wire + [e];
    assert all[|wire|] == e;
    assert forall i :: 0 <= i < |wire| ==> all[i] == wire[i];
  }

  lemma AppendedPulse(op: Op, wire: seq<Entry>, e: Entry)
    requires |wire| >= 3 && AllWakes(wire, 3) && AllOk(wire, |wire|)
    requires forall i :: 3 <= i < |wire| ==> PulseOf(op) == Some(wire[i].command)
    requires PulseOf(op) == Some(e.command)
    ensures Driving(op, wire + [e]) && AllOk(wire + [e], |wire|)
    ensures AllOk(wire + [e], |wire| + 1) <==> e.ok
    ensures Faulted(wire + [e]) <==> !e.ok
  {
    FaultedAppend(wire, e);
  }

  lemma AppendedStop(op: Op, wire: seq<Entry>, e: Entry)
    requires Driving(op, wire) && AllOk(wire, |wire| - 1) && (!op.Drive? ==> wire[3].ok) && e.command == STOP
    ensures Ended(op, wire + [e])
    ensures Faulted(wire + [e]) <==> Faulted(wire)
  {
    assert (wire + [e])[..|wire|] == wire;
    FaultedAppend(wire, e);
  }

  lemma AppendedWake(op: Op, wire: seq<Entry>, e: Entry)
    requires |wire| <= 2 && AllWakes(wire, |wire|) && AllOk(wire, |wire|) && e.command == WAKE
    ensures AllWakes(wire + [e], |wire| + 1) && (!e.ok ==> Aborted(op, wire + [e]))
    ensures AllOk(wire + [e], |wire| + 1) <==> e.ok
    ensures Faulted(wire + [e]) <==> !e.ok
  {
    FaultedAppend(wire, e);
  }

  lemma TranscriptWrite(op: Op, pc: Pc, wire: seq<Entry>, e: Entry)
    requires Transcript(op, pc, wire) && CommandAt(op, pc) == Some(e.command)
    ensures Transcript(op, AfterWrite(op, pc, e.ok), wire + [e])
  {
    if pc.Wake? {
      AppendedWake(op, wire, e);
    } else if pc.First? || pc.Pulse? {
      AppendedPulse(op, wire, e);
    } else if pc.StopThen? {
      AppendedStop(op, wire, e);
    }
  }

  /** A step that writes nothing moves the program counter along one of these edges. */
  predicate QuietEdge(op: Op, from: Pc, to: Pc) {
    match from
    case Add => to == if Moves(op) then Wake(0) else Send
    case Nap(i) => to == if i < 2 then Wake(i + 1) else First
    case First => PulseOf(op).None? && to == Return(op, Failed(Unsupported))
    case Pulse => PulseOf(op).None? && to == Return(op, Failed(Unsupported))
    case Send => CommandAt(op, from).None? && to == Return(op, Failed(Unsupported))
    case Arm => to == if Moves(op) then Select else Await
    case Select => to == Pulse || (to.StopThen? && to.resp != Failed(WriteFailed))
    case Await => (to.Remove? || to.Done?) && to.resp != Failed(WriteFailed)
    case Cached => to == Add || (to.Done? && to.resp.OkHeight?)
    case Reply => op.Answer? && to == Done(op.resp)
    case Remove(resp) => to == Done(resp)
    case _ => false
  }

  lemma StepIsWriteOrQuiet(op: Op, s: State, ev: Event)
    requires Step(op, s, ev).Some?
    ensures var s' := Step(op, s, ev).value;
            if ev.Wrote? then
              CommandAt(op, s.pc).Some? && s'.pc == AfterWrite(op, s.pc, ev.ok) &&
              s'.wire == s.wire + [Entry(CommandAt(op, s.pc).value, ev.ok, s.now)]
            else
              s'.wire == s.wire && (s'.pc == s.pc || QuietEdge(op, s.pc, s'.pc))
  {
  }

  lemma TranscriptQuiet(op: Op, from: Pc, to: Pc, wire: seq<Entry>)
    requires Transcript(op, from, wire) && QuietEdge(op, from, to)
    ensures Transcript(op, to, wire)
  {
  }

  /** Every run of an operation writes a transcript of the one permitted shape. */
  lemma {:induction false} TranscriptReached(op: Op, run: Run, s: State)
    requires Reaches(op, run, s)
    ensures Transcript(op, s.pc, s.wire)
  {
    hide Step;
    match run
    case Begin(now) =>
    case Then(before, e) =>
      var s0 := Exec(op, before).value;
      TranscriptReached(op, before, s0);
      StepIsWriteOrQuiet(op, s0.(now := e.at), e.ev);
      if e.ev.Wrote? {
        TranscriptWrite(op, s0.pc, s0.wire, s.wire[|s.wire| - 1]);
      } else if s.pc != s0.pc {
        TranscriptQuiet(op, s0.pc, s.pc, s.wire);
      }
  }

  // ---------- every exit stops the desk ----------

  lemma MovingOnlyWhileDriving(op: Op, pc: Pc, wire: seq<Entry>)
    requires Transcript(op, pc, wire) && Moving(wire)
    ensures pc.Arm? || pc.Select? || pc.Pulse? || pc.StopThen?
  {
    if forall i :: 0 <= i < |wire| ==> !(wire[i].ok && IsMotion(wire[i].command)) {
      NoMotionNotMoving(wire);
    }
  }

  /** However an operation ends, each motion write that succeeded is followed by a
      stop attempt. The transcript has the one permitted shape, and the response
      says a write failed exactly when a wake, a pulse or the only command did. */
  lemma FinishedIsSettled(op: Op, run: Run, s: State)
    requires Reaches(op, run, s) && s.pc.Done?
    ensures Settled(s.wire)
    ensures Complete(op, s.wire, s.pc.resp)
  {
    TranscriptReached(op, run, s);
    if Moving(s.wire) {
      MovingOnlyWhileDriving(op, s.pc, s.wire);
    }
    SettledIffNotMoving(s.wire);
  }

  /** No operation is ever stuck: something it waits for can still happen. */
  lemma NeverStuck(op: Op, run: Run, s: State, notBefore: nat) returns (e: TimedEvent)
    requires Reaches(op, run, s) && !s.pc.Done?
    ensures Next(op, s, e).Some? && e.ev != CtxDone && e.at >= notBefore
    ensures !e.ev.HeightReport? && !e.ev.StatsReport? && !e.ev.TimerFires?
  {
    TranscriptReached(op, run, s);
    var later := notBefore + s.now + s.clock.wakeAt + s.clock.deadline;
    if CommandAt(op, s.pc).Some? {
      e := At(Wrote(true), later);
    } else if MayRefuse(s.pc) {
      e := At(Refused, later);
    } else {
      e := At(AwaitedAt(s.pc), later);
    }
  }

  /** What an operation that is neither writing nor finished can count on. */
  function AwaitedAt(pc: Pc): Event {
    match pc
    case Add => Added
    case Nap(_) => Woke
    case Arm => Armed
    case Select => Deadline
    case Await => Deadline
    case Cached => CacheMiss
    case Reply => Answered
    case _ => Removed
  }

  // ---------- the listener's lifetime ----------

  /** The listener is registered exactly between the operation's Add and Remove. */
  predicate ListenExactly(op: Op, s: State) {
    && s.ears.listening == (Listens(op) && !s.pc.Add? && !s.pc.Cached? && !s.pc.Done?)
    && (s.pc.Remove? ==> Listens(op))
    && (s.pc.Add? || s.pc.Cached? ==> Listens(op))
  }

  lemma ListenStep(op: Op, s: State, ev: Event)
    requires ListenExactly(op, s) && !s.pc.Done? && Step(op, s, ev).Some?
    requires Transcript(op, s.pc, s.wire)
    ensures ListenExactly(op, Step(op, s, ev).value)
  {
  }

  lemma {:induction false} ListenReached(op: Op, run: Run, s: State)
    requires Reaches(op, run, s)
    ensures ListenExactly(op, s)
  {
    hide Step, Transcript;
    if run.Then? {
      var s0 := Exec(op, run.before).value;
      ListenReached(op, run.before, s0);
      TranscriptReached(op, run.before, s0);
      ListenStep(op, s0.(now := run.event.at), run.event.ev);
    }
  }

  /** Which steps register and cancel the listener. */
  lemma ListenEvents(op: Op, s: State, ev: Event)
    requires Step(op, s, ev).Some?
    ensures var l' := Step(op, s, ev).value.ears.listening;
            l' == (ev.Added? || (s.ears.listening && !ev.Removed?))
    ensures ev.Added? ==> s.pc.Add?
    ensures ev.Removed? ==> s.pc.Remove?
  {
  }
}
