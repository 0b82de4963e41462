/** Arrival and quiescence: what WaitForHeight and WaitForPreset may conclude
    (desk/monitor.go). */
module WaitTheory {
  import opened Wrappers
  import opened Heights
  import opened Dispatch
  import TimingTheory

  // ---------- what the listener heard ----------

  /** The operation's listener is registered at the end of the run. */
  predicate Registered(run: Run) {
    match run
    case Begin(_) => false
    case Then(before, e) => e.ev.Added? || (Registered(before) && !e.ev.Removed?)
  }

  /** The heights reported while the listener was registered. */
  function Reported(run: Run): seq<Heard> {
    match run
    case Begin(_) => []
    case Then(before, e) =>
      if e.ev.HeightReport? && Registered(before) then Reported(before) + [Heard(e.ev.mm, e.at)]
      else Reported(before)
  }

  /** How one step changes what the listener has done. */
  lemma EarsFrame(op: Op, s: State, ev: Event)
    requires Step(op, s, ev).Some?
    ensures var l, l' := s.ears, Step(op, s, ev).value.ears;
            && l'.listening == (ev.Added? || (l.listening && !ev.Removed?))
            && l'.heard == (if ev.HeightReport? then OnHeight(op, l, ev.mm, s.now).heard else l.heard)
    ensures Step(op, s, ev).value.now == s.now
  {
  }

  lemma {:induction false} HeardIsReported(op: Op, run: Run, s: State)
    requires Reaches(op, run, s) && (op.Goto? || op.ToPreset?)
    ensures s.ears.listening == Registered(run) && s.ears.heard == Reported(run)
    ensures s.now == LastTime(run)
  {
    hide Step;
    if run.Then? {
      var s0 := Exec(op, run.before).value;
      HeardIsReported(op, run.before, s0);
      EarsFrame(op, s0.(now := run.event.at), run.event.ev);
    }
  }

  function LastTime(run: Run): nat {
    match run
    case Begin(now) => now
    case Then(_, e) => e.at
  }

  /** A query's channel only ever holds the kind of report it asked for. */
  predicate DataFits(op: Op, l: Ears) {
    l.data.Some? ==> l.data.value.HeightData? == op.ReadHeight?
  }

  lemma DataFitsStep(op: Op, s: State, ev: Event)
    requires DataFits(op, s.ears) && Step(op, s, ev).Some?
    ensures DataFits(op, Step(op, s, ev).value.ears)
  {
  }

  lemma {:induction false} DataFitsReached(op: Op, run: Run, s: State)
    requires Reaches(op, run, s)
    ensures DataFits(op, s.ears)
  {
    hide Step;
    if run.Then? {
      var s0 := Exec(op, run.before).value;
      DataFitsReached(op, run.before, s0);
      DataFitsStep(op, s0.(now := run.event.at), run.event.ev);
    }
  }

  // ---------- arrival ----------

  predicate SomeNear(op: Op, heard: seq<Heard>)
    requires op.Goto?
  {
    exists i :: 0 <= i < |heard| && Near(heard[i].mm, op.target, op.tolerance)
  }

  predicate Stopping(pc: Pc) {
    pc.StopThen? || pc.Remove? || pc.Done?
  }

  predicate ArrivalInv(op: Op, s: State)
    requires op.Goto?
  {
    if Stopping(s.pc) then s.pc.resp == OK ==> SomeNear(op, s.ears.heard)
    else s.ears.arrived <==> SomeNear(op, s.ears.heard)
  }

  lemma SomeNearAppend(op: Op, heard: seq<Heard>, h: Heard)
    requires op.Goto?
    ensures SomeNear(op, heard + [h]) <==> SomeNear(op, heard) || Near(h.mm, op.target, op.tolerance)
  {
    var all := heard + [h];
    assert all[|heard|] == h;
    assert forall i :: 0 <= i < |heard| ==> all[i] == heard[i];
  }

  lemma ArrivalStep(op: Op, s: State, ev: Event)
    requires op.Goto? && ArrivalInv(op, s) && Step(op, s, ev).Some? && !s.pc.Done?
    ensures ArrivalInv(op, Step(op, s, ev).value)
  {
    if ev.HeightReport? {
      SomeNearAppend(op, s.ears.heard, Heard(ev.mm, s.now));
    }
  }

  lemma {:induction false} ArrivalReached(op: Op, run: Run, s: State)
    requires op.Goto? && Reaches(op, run, s)
    ensures ArrivalInv(op, s)
  {
    hide Step;
    if run.Then? {
      var s0 := Exec(op, run.before).value;
      ArrivalReached(op, run.before, s0);
      ArrivalStep(op, s0.(now := run.event.at), run.event.ev);
    }
  }

  /** Some height heard lies between the two. */
  ghost predicate HeardWithin(heard: seq<Heard>, low: real, high: real) {
    exists h :: h in heard && low <= h.mm <= high
  }

  lemma SomeNearIff(op: Op, heard: seq<Heard>)
    requires op.Goto?
    ensures SomeNear(op, heard) <==> HeardWithin(heard, op.target - op.tolerance, op.target + op.tolerance)
  {
    if h :| h in heard && op.target - op.tolerance <= h.mm <= op.target + op.tolerance {
      NearIff(h.mm, op.target, op.tolerance);
      var k :| 0 <= k < |heard| && heard[k] == h;
    }
    if SomeNear(op, heard) {
      var k :| 0 <= k < |heard| && Near(heard[k].mm, op.target, op.tolerance);
      NearIff(heard[k].mm, op.target, op.tolerance);
      assert heard[k] in heard;
    }
  }

  /** WaitForHeight succeeds only if a height reported since registration lay within the
      tolerance of the target, on either side; and while it waits, its arrival case is
      ready exactly when such a height has been reported, so the non-blocking send never
      loses an arrival. */
  lemma ArrivalExact(op: Op, run: Run, s: State)
    requires op.Goto? && Reaches(op, run, s)
    ensures Stopping(s.pc) && s.pc.resp == OK ==>
              HeardWithin(Reported(run), op.target - op.tolerance, op.target + op.tolerance)
    ensures s.pc.Select? ==>
              (Next(op, s, At(Arrival, s.now)).Some? <==>
               HeardWithin(Reported(run), op.target - op.tolerance, op.target + op.tolerance))
  {
    ArrivalReached(op, run, s);
    HeardIsReported(op, run, s);
    SomeNearIff(op, Reported(run));
  }

  // ---------- quiescence ----------

  predicate AllBy(heard: seq<Heard>, t: nat) {
    forall h :: h in heard ==> h.at <= t
  }

  predicate InboxInv(l: Ears, q: Silence, now: nat) {
    && q.heardThen <= |l.heard|
    && |l.inbox| <= 4
    && (|l.heard| > q.heardThen ==> l.inbox != [])
    && AllBy(l.heard, now)
    && (match q.takenAt
        case None => q.heardThen == 0
        case Some(t) => AllBy(l.heard[..q.heardThen], t))
  }

  predicate TimerInv(op: Op, q: Silence, now: nat)
    requires op.ToPreset?
  {
    match q.takenAt
    case None => q.timer.None?
    case Some(t) =>
      && t <= now && q.timer.Some?
      && match q.timer.value.due
         case Some(due) => !q.timer.value.token && due == t + QuiescenceOf(op)
         case None => now >= t + QuiescenceOf(op)
  }

  predicate QuietInv(op: Op, s: State)
    requires op.ToPreset?
  {
    && InboxInv(s.ears, s.silence, s.now)
    && TimerInv(op, s.silence, s.now)
    && (Stopping(s.pc) && s.pc.resp == OK ==> s.silence.takenAt.Some? && s.silence.timer.value.due.None?)
    && (!Stopping(s.pc) && s.silence.timer.Some? && s.silence.timer.value.due.None? ==> s.silence.timer.value.token)
  }

  /** How one step of a preset operation changes its ears and its timer. */
  lemma QuietFrame(op: Op, s: State, ev: Event)
    requires op.ToPreset? && Step(op, s, ev).Some? && !s.pc.Done?
    ensures var s' := Step(op, s, ev).value;
            && s'.now == s.now && (Stopping(s.pc) ==> Stopping(s'.pc))
            && (match ev
                case HeightReport(mm) => s'.ears == OnHeight(op, s.ears, mm, s.now) && s'.silence == s.silence && s'.pc == s.pc
                case HeightTaken =>
                  && s.ears.inbox != [] && s'.ears.heard == s.ears.heard && s'.ears.inbox == s.ears.inbox[1..]
                  && s'.silence == Silence(Rearmed(s.now, QuiescenceOf(op)), Some(s.now), |s.ears.heard|)
                  && !Stopping(s'.pc)
                case TimerFires => TimerDue(s.silence, s.now) && s'.ears == s.ears && s'.pc == s.pc
                                   && s'.silence == s.silence.(timer := Some(Timer(None, true)))
                case Quiet => TimerFired(s.silence) && s'.ears == s.ears && Stopping(s'.pc)
                              && s'.silence == s.silence.(timer := Some(s.silence.timer.value.(token := false)))
                case _ => s'.ears.heard == s.ears.heard && s'.ears.inbox == s.ears.inbox && s'.silence == s.silence
                          && (Stopping(s'.pc) && s'.pc.resp == OK ==> Stopping(s.pc) && s.pc.resp == OK))
  {
  }

  lemma QuietStep(op: Op, s: State, ev: Event)
    requires op.ToPreset? && QuietInv(op, s) && Step(op, s, ev).Some? && !s.pc.Done?
    ensures QuietInv(op, Step(op, s, ev).value)
  {
    hide Step;
    QuietFrame(op, s, ev);
    if ev.HeightReport? {
      InboxReport(op, s.ears, s.silence, ev.mm, s.now);
    } else if ev.HeightTaken? {
      InboxTaken(s.ears, Step(op, s, ev).value.ears, s.silence, Step(op, s, ev).value.silence, s.now);
    }
  }

  lemma InboxReport(op: Op, l: Ears, q: Silence, mm: real, now: nat)
    requires op.ToPreset? && InboxInv(l, q, now)
    ensures InboxInv(OnHeight(op, l, mm, now), q, now)
  {
    var l' := OnHeight(op, l, mm, now);
    if l.listening {
      assert l'.heard[..q.heardThen] == l.heard[..q.heardThen];
    }
  }

  lemma InboxTaken(l: Ears, l': Ears, q: Silence, q': Silence, now: nat)
    requires InboxInv(l, q, now) && l.inbox != []
    requires l'.heard == l.heard && l'.inbox == l.inbox[1..]
    requires q'.takenAt == Some(now) && q'.heardThen == |l.heard|
    ensures InboxInv(l', q', now)
  {
    assert l'.heard[..q'.heardThen] == l.heard;
  }

  lemma QuietLater(op: Op, s: State, at: nat)
    requires op.ToPreset? && QuietInv(op, s) && at >= s.now
    ensures QuietInv(op, s.(now := at))
  {
  }

  lemma {:induction false} QuietReached(op: Op, run: Run, s: State)
    requires op.ToPreset? && Reaches(op, run, s)
    ensures QuietInv(op, s)
  {
    hide Step;
    if run.Then? {
      var s0 := Exec(op, run.before).value;
      QuietReached(op, run.before, s0);
      QuietLater(op, s0, run.event.at);
      QuietStep(op, s0.(now := run.event.at), run.event.ev);
    }
  }

  /** When a height was last taken from the inbox. */
  function LastTaken(run: Run): Option<nat> {
    match run
    case Begin(_) => None
    case Then(before, e) => if e.ev.HeightTaken? then Some(e.at) else LastTaken(before)
  }

  lemma {:induction false} TakenAtIsLastTaken(op: Op, run: Run, s: State)
    requires Reaches(op, run, s)
    ensures s.silence.takenAt == LastTaken(run)
  {
    if run.Then? {
      hide Step;
      TakenAtIsLastTaken(op, run.before, Exec(op, run.before).value);
      TakenFrame(op, Exec(op, run.before).value.(now := run.event.at), run.event.ev);
    }
  }

  /** WaitForPreset succeeds only after it took at least one height and the whole
      quiescence has passed since it last took one: no stale timer value survives.
      And no first notification is lost: one reported is taken or still waiting. */
  lemma QuiescenceSound(op: Op, run: Run, s: State)
    requires op.ToPreset? && Reaches(op, run, s)
    ensures Stopping(s.pc) && s.pc.resp == OK ==>
              LastTaken(run).Some? && s.now >= LastTaken(run).value + QuiescenceOf(op)
    ensures s.pc.Select? && TimerFired(s.silence) ==>
              LastTaken(run).Some? && s.now >= LastTaken(run).value + QuiescenceOf(op)
    ensures Reported(run) != [] && LastTaken(run).None? ==> s.ears.inbox != []
  {
    QuietReached(op, run, s);
    TakenAtIsLastTaken(op, run, s);
    HeardIsReported(op, run, s);
  }

  /** The quiescence timer can fire exactly once a height was taken and the quiescence
      has passed since the last one, unless it has fired; and the loop can then, and only
      then, succeed. */
  lemma QuiescenceReady(op: Op, run: Run, s: State, at: nat)
    requires op.ToPreset? && Reaches(op, run, s) && s.pc.Select? && at >= s.now
    ensures Next(op, s, At(TimerFires, at)).Some? <==>
              !TimerFired(s.silence) && LastTaken(run).Some? && at >= LastTaken(run).value + QuiescenceOf(op)
    ensures Next(op, s, At(Quiet, at)).Some? <==> TimerFired(s.silence)
  {
    QuietReached(op, run, s);
    TakenAtIsLastTaken(op, run, s);
  }

  /** Success does not mean silence: once the timer has fired, a height reported
      before the select runs does not keep it from reporting success. */
  lemma LateReportIsOverlooked(op: Op, run: Run, s: State, mm: real)
    requires op.ToPreset? && Reaches(op, run, s)
    requires s.pc.Select? && TimerFired(s.silence) && s.ears.listening
    ensures var late := Then(Then(run, At(HeightReport(mm), s.now)), At(Quiet, s.now));
            && Exec(op, late).Some?
            && Exec(op, late).value.pc == StopThen(OK)
            && Exec(op, late).value.ears.heard == s.ears.heard + [Heard(mm, s.now)]
  {
    var r1 := Then(run, At(HeightReport(mm), s.now));
    assert Exec(op, r1).Some?;
  }

  /** One more event of a concrete run. */
  lemma Play(op: Op, run: Run, s: State, ev: Event, at: nat) returns (run': Run, s': State)
    requires Reaches(op, run, s) && at >= s.now && !s.pc.Done? && Step(op, s.(now := at), ev).Some?
    ensures run' == Then(run, At(ev, at)) && s' == Step(op, s.(now := at), ev).value
    ensures Reaches(op, run', s')
  {
    run', s' := Then(run, At(ev, at)), Step(op, s.(now := at), ev).value;
  }

  lemma StartReached(op: Op)
    ensures Reaches(op, Begin(0), Initial(op, 0))
  {
  }

  lemma TakenFrame(op: Op, s: State, ev: Event)
    requires Step(op, s, ev).Some?
    ensures Step(op, s, ev).value.silence.takenAt == if ev.HeightTaken? then Some(s.now) else s.silence.takenAt
  {
  }

  // ---------- what the inbox drops ----------

  /** Four heights are pending at the end of the run. */
  predicate Full(op: Op, run: Run) {
    Exec(op, run).Some? && |Exec(op, run).value.ears.inbox| == 4
  }

  /** The heights that found room, in order of arrival. */
  function Kept(op: Op, run: Run): seq<real> {
    match run
    case Begin(_) => []
    case Then(before, e) =>
      if e.ev.HeightReport? && Registered(before) && !Full(op, before) then Kept(op, before) + [e.ev.mm]
      else Kept(op, before)
  }

  function Dropped(op: Op, run: Run): nat {
    match run
    case Begin(_) => 0
    case Then(before, e) =>
      Dropped(op, before) + if e.ev.HeightReport? && Registered(before) && Full(op, before) then 1 else 0
  }

  function Takes(run: Run): nat {
    match run
    case Begin(_) => 0
    case Then(before, e) => Takes(before) + if e.ev.HeightTaken? then 1 else 0
  }

  lemma InboxFrame(op: Op, s: State, ev: Event)
    requires op.ToPreset? && Step(op, s, ev).Some? && |s.ears.inbox| <= 4
    ensures var inbox := Step(op, s, ev).value.ears.inbox;
            if ev.HeightReport? then
              inbox == s.ears.inbox + if s.ears.listening && |s.ears.inbox| < 4 then [ev.mm] else []
            else if ev.HeightTaken? then s.ears.inbox != [] && inbox == s.ears.inbox[1..]
            else inbox == s.ears.inbox
  {
  }

  /** WaitForPreset's channel is a queue: what it holds are the newest heights that
      found room, in order, and every height reported to it found room or came while
      four were pending. */
  lemma {:induction false} InboxIsQueue(op: Op, run: Run, s: State)
    requires op.ToPreset? && Reaches(op, run, s)
    ensures |s.ears.inbox| <= 4
    ensures Takes(run) <= |Kept(op, run)| && s.ears.inbox == Kept(op, run)[Takes(run)..]
    ensures |Reported(run)| == |Kept(op, run)| + Dropped(op, run)
  {
    hide Step;
    if run.Then? {
      var s0 := Exec(op, run.before).value;
      InboxIsQueue(op, run.before, s0);
      HeardIsReported(op, run.before, s0);
      InboxFrame(op, s0.(now := run.event.at), run.event.ev);
    }
  }

  // ---------- when success means silence ----------

  /** How many heights were reported since the loop last took one. */
  function Since(run: Run): nat {
    match run
    case Begin(_) => 0
    case Then(before, e) =>
      if e.ev.HeightTaken? then 0
      else Since(before) + if e.ev.HeightReport? && Registered(before) then 1 else 0
  }

  /** How many were pending right after it took that one. */
  function Backlog(op: Op, run: Run): nat {
    match run
    case Begin(_) => 0
    case Then(before, e) =>
      if !e.ev.HeightTaken? then Backlog(op, before)
      else if Exec(op, run).Some? then |Exec(op, run).value.ears.inbox| else 0
  }

  lemma {:induction false} InboxIsBacklogAndNews(op: Op, run: Run, s: State)
    requires op.ToPreset? && Reaches(op, run, s)
    ensures |s.ears.inbox| == if Backlog(op, run) + Since(run) < 4 then Backlog(op, run) + Since(run) else 4
  {
    hide Step;
    if run.Then? {
      var s0 := Exec(op, run.before).value;
      InboxIsBacklogAndNews(op, run.before, s0);
      HeardIsReported(op, run.before, s0);
      InboxFrame(op, s0.(now := run.event.at), run.event.ev);
    }
  }

  /** Since when some height has been pending that the loop could take. */
  function PendingSince(op: Op, run: Run): Option<nat> {
    match run
    case Begin(_) => None
    case Then(before, e) =>
      if Exec(op, run).None? || Exec(op, run).value.ears.inbox == [] then None
      else if PendingSince(op, before).None? || e.ev.HeightTaken? then Some(e.at)
      else PendingSince(op, before)
  }

  /** The loop keeps up: from the first height it takes on, it leaves none pending for
      more than `lag` ms without taking one. */
  predicate Prompt(op: Op, run: Run, lag: nat) {
    run.Then? ==>
      && Prompt(op, run.before, lag)
      && (LastTaken(run.before).Some? && PendingSince(op, run.before).Some? ==>
            run.event.at <= PendingSince(op, run.before).value + lag)
  }

  /** Every height reported after the last one taken is younger than what is pending,
      and something pending is that old. */
  predicate PendingInv(pending: Option<nat>, taken: Option<nat>, heard: seq<Heard>, inbox: seq<real>) {
    && (pending.None? <==> inbox == [])
    && (taken.Some? ==>
          && (forall h :: h in heard ==> h.at <= taken.value || (pending.Some? && h.at >= pending.value))
          && (pending.Some? && pending != taken ==> exists h :: h in heard && h.at == pending.value))
  }

  lemma PendingReport(op: Op, l: Ears, mm: real, now: nat, pending: Option<nat>, taken: Option<nat>)
    requires op.ToPreset? && PendingInv(pending, taken, l.heard, l.inbox)
    requires pending.Some? ==> pending.value <= now
    ensures var l' := OnHeight(op, l, mm, now);
            PendingInv(if l'.inbox == [] then None else if pending.None? then Some(now) else pending, taken, l'.heard, l'.inbox)
  {
    var l' := OnHeight(op, l, mm, now);
    if l.listening {
      assert l'.heard == l.heard + [Heard(mm, now)];
      assert Heard(mm, now) in l'.heard;
      forall h | h in l.heard ensures h in l'.heard { }
    }
  }

  lemma {:induction false} PendingReached(op: Op, run: Run, s: State)
    requires op.ToPreset? && Reaches(op, run, s)
    ensures PendingInv(PendingSince(op, run), LastTaken(run), s.ears.heard, s.ears.inbox)
    ensures PendingSince(op, run).Some? ==> PendingSince(op, run).value <= s.now
  {
    hide Step, PendingInv;
    if run.Then? {
      var s0 := Exec(op, run.before).value;
      var s1 := s0.(now := run.event.at);
      PendingReached(op, run.before, s0);
      QuietReached(op, run.before, s0);
      QuietFrame(op, s1, run.event.ev);
      if run.event.ev.HeightReport? {
        PendingReport(op, s0.ears, run.event.ev.mm, run.event.at, PendingSince(op, run.before), LastTaken(run.before));
      } else if run.event.ev.HeightTaken? {
        PendingTaken(s0.ears, s.ears, run.event.at);
      } else {
        PendingSame(PendingSince(op, run.before), LastTaken(run), s.ears);
      }
    } else {
      PendingStart();
    }
  }

  lemma PendingStart()
    ensures PendingInv(None, None, [], [])
  {
  }

  lemma PendingTaken(l: Ears, l': Ears, now: nat)
    requires AllBy(l.heard, now) && l'.heard == l.heard
    ensures PendingInv(if l'.inbox == [] then None else Some(now), Some(now), l'.heard, l'.inbox)
  {
  }

  lemma PendingSame(pending: Option<nat>, taken: Option<nat>, l: Ears)
    requires PendingInv(pending, taken, l.heard, l.inbox)
    ensures pending.None? <==> l.inbox == []
  {
  }

  /** If the loop keeps up within `lag`, success means silence until `lag` ms before it:
      every height reported came by the last one taken, a whole quiescence earlier, or
      in those last `lag` ms. And the silence was complete exactly if no height is
      pending when the quiescence case is taken. */
  lemma QuietMeansSilence(op: Op, run: Run, at: nat, s: State, lag: nat)
    requires op.ToPreset? && Reaches(op, Then(run, At(Quiet, at)), s)
    requires Prompt(op, Then(run, At(Quiet, at)), lag)
    ensures LastTaken(run).Some? && at >= LastTaken(run).value + QuiescenceOf(op)
    ensures forall h :: h in Reported(run) ==> h.at <= LastTaken(run).value || h.at + lag >= at
    ensures lag < QuiescenceOf(op) ==>
              (AllBy(Reported(run), LastTaken(run).value) <==> s.ears.inbox == [])
  {
    hide Step;
    var s0 := Exec(op, run).value;
    QuietReached(op, run, s0);
    QuietLater(op, s0, at);
    QuietFrame(op, s0.(now := at), Quiet);
    TakenAtIsLastTaken(op, run, s0);
    HeardIsReported(op, run, s0);
    PendingReached(op, run, s0);
  }

  /** On time and prompt, without any delay. */
  predicate Immediate(op: Op, run: Run) {
    TimingTheory.Punctual(op, run, 0, 0) && Prompt(op, run, 0)
  }

  /** One more event of such a run. */
  lemma PlayAtOnce(op: Op, run: Run, s: State, ev: Event, at: nat) returns (run': Run, s': State)
    requires Reaches(op, run, s) && at >= s.now && !s.pc.Done? && Step(op, s.(now := at), ev).Some?
    requires Immediate(op, run) && TimingTheory.OnTime(s, At(ev, at), 0, 0)
    requires LastTaken(run).Some? && PendingSince(op, run).Some? ==> at <= PendingSince(op, run).value
    ensures run' == Then(run, At(ev, at)) && s' == Step(op, s.(now := at), ev).value
    ensures Reaches(op, run', s') && Immediate(op, run')
    ensures LastTaken(run') == if ev.HeightTaken? then Some(at) else LastTaken(run)
    ensures PendingSince(op, run') ==
      if s'.ears.inbox == [] then None
      else if PendingSince(op, run).None? || ev.HeightTaken? then Some(at)
      else PendingSince(op, run)
  {
    hide Step, TimingTheory.OnTime;
    run', s' := Play(op, run, s, ev, at);
  }

  lemma WakeOnce(op: Op, run: Run, s: State) returns (run': Run, s': State)
    requires Reaches(op, run, s) && Immediate(op, run) && s.pc.Wake? && LastTaken(run).None? && s.ears.inbox == []
    ensures Reaches(op, run', s') && Immediate(op, run') && LastTaken(run').None?
    ensures s'.now == s.now + 100 && s'.ears == s.ears && s'.silence == s.silence
    ensures s'.pc == if s.pc.i < 2 then Wake(s.pc.i + 1) else First
  {
    hide Reaches, Exec, Next, Immediate, PendingSince, LastTaken;
    run', s' := PlayAtOnce(op, run, s, Wrote(true), s.now);
    run', s' := PlayAtOnce(op, run', s', Woke, s.now + 100);
  }

  /** A preset drive up to its loop. */
  lemma StartDriving(op: Op) returns (run: Run, s: State)
    requires op == ToPreset(1, 30000, 0)
    ensures Reaches(op, run, s) && Immediate(op, run) && LastTaken(run).None? && PendingSince(op, run).None?
    ensures s.pc.Select? && s.now == 300 && s.clock == Clock(400, 300, 300, 30300)
    ensures s.ears == Ears(true, false, [], None, []) && s.silence == Silence(None, None, 0)
  {
    StartReached(op);
    assert Immediate(op, Begin(0)) && LastTaken(Begin(0)).None? && PendingSince(op, Begin(0)).None?;
    hide Reaches, Exec, Next, Immediate, PendingSince, LastTaken;
    run, s := PlayAtOnce(op, Begin(0), Initial(op, 0), Added, 0);
    run, s := WakeOnce(op, run, s);
    run, s := WakeOnce(op, run, s);
    run, s := WakeOnce(op, run, s);
    run, s := EnterLoop(op, run, s);
  }

  lemma EnterLoop(op: Op, run0: Run, s0: State) returns (run: Run, s: State)
    requires op == ToPreset(1, 30000, 0) && Reaches(op, run0, s0) && Immediate(op, run0)
    requires s0.pc.First? && s0.now == 300 && LastTaken(run0).None?
    requires s0.ears.inbox == []
    ensures Reaches(op, run, s) && Immediate(op, run) && LastTaken(run).None? && PendingSince(op, run).None?
    ensures s.pc.Select? && s.now == 300 && s.clock == Clock(400, 300, 300, 30300)
    ensures s.ears == s0.ears && s.silence == s0.silence
  {
    hide Reaches, Exec, Next, Immediate, PendingSince, LastTaken;
    run, s := PlayAtOnce(op, run0, s0, Wrote(true), 300);
    run, s := PlayAtOnce(op, run, s, Armed, 300);
  }

  /** The loop serves a tick the moment it is due. */
  lemma ServeTick(op: Op, run: Run, s: State, due: nat) returns (run': Run, s': State)
    requires op == ToPreset(1, 30000, 0) && Reaches(op, run, s) && Immediate(op, run) && s.pc.Select?
    requires s.clock.tickerAt <= s.clock.lastTick && due == TimingTheory.LastDue(s.clock) + 200 && s.now <= due
    requires s.ears.inbox == [] && PendingSince(op, run).None?
    ensures Reaches(op, run', s') && Immediate(op, run') && s'.pc.Select? && s'.now == due
    ensures s'.clock == Clock(due + 100, s.clock.tickerAt, due, s.clock.deadline)
    ensures s'.ears == s.ears && s'.silence == s.silence
    ensures LastTaken(run') == LastTaken(run) && PendingSince(op, run').None?
  {
    hide Reaches, Exec, Next, Immediate, PendingSince, LastTaken;
    run', s' := PlayAtOnce(op, run, s, Tick, due);
    run', s' := PlayAtOnce(op, run', s', Wrote(true), due);
  }

  /** Without a lag, and every tick served the moment it is due, a height can still be
      overlooked, one that comes in the very millisecond of the success: WaitForPreset
      takes a height at 300 ms, pulses at 500 and 700, its timer fires at 800, a height
      is reported, and it reports success. */
  lemma QuietIsNotAlwaysSilence() returns (op: Op, run: Run, s: State)
    ensures op.ToPreset? && Reaches(op, run, s) && s.pc == StopThen(OK)
    ensures TimingTheory.Punctual(op, run, 0, 0) && Prompt(op, run, 0)
    ensures LastTaken(run) == Some(300) && Heard(701.0, 800) in Reported(run)
  {
    op := ToPreset(1, 30000, 0);
    run, s := PulsesUntilQuiet(op);
    run, s := OverlookedReport(op, run, s);
    HeardIsReported(op, run, s);
  }

  lemma PulsesUntilQuiet(op: Op) returns (run: Run, s: State)
    requires op == ToPreset(1, 30000, 0)
    ensures Reaches(op, run, s) && Immediate(op, run) && LastTaken(run) == Some(300) && PendingSince(op, run).None?
    ensures s.pc.Select? && s.now == 700 && s.clock == Clock(800, 300, 700, 30300)
    ensures s.ears == Ears(true, false, [], None, [Heard(700.0, 300)])
    ensures s.silence == Silence(Some(Timer(Some(800), false)), Some(300), 1)
  {
    hide Reaches, Exec, Next, Immediate, PendingSince, LastTaken;
    run, s := StartDriving(op);
    run, s := PlayAtOnce(op, run, s, HeightReport(700.0), 300);
    run, s := PlayAtOnce(op, run, s, HeightTaken, 300);
    run, s := ServeTick(op, run, s, 500);
    run, s := ServeTick(op, run, s, 700);
  }

  lemma OverlookedReport(op: Op, run0: Run, s0: State) returns (run: Run, s: State)
    requires op == ToPreset(1, 30000, 0)
    requires Reaches(op, run0, s0) && Immediate(op, run0) && LastTaken(run0) == Some(300) && PendingSince(op, run0).None?
    requires s0.pc.Select? && s0.now == 700 && s0.clock == Clock(800, 300, 700, 30300)
    requires s0.ears == Ears(true, false, [], None, [Heard(700.0, 300)])
    requires s0.silence == Silence(Some(Timer(Some(800), false)), Some(300), 1)
    ensures Reaches(op, run, s) && Immediate(op, run) && LastTaken(run) == Some(300)
    ensures s.pc == StopThen(OK) && Heard(701.0, 800) in s.ears.heard
  {
    hide Reaches, Exec, Next, Immediate, PendingSince, LastTaken;
    run, s := PlayAtOnce(op, run0, s0, TimerFires, 800);
    run, s := PlayAtOnce(op, run, s, HeightReport(701.0), 800);
    assert s.ears.heard[1] == Heard(701.0, 800);
    run, s := PlayAtOnce(op, run, s, Quiet, 800);
  }
}
