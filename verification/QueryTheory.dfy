/** The two queries, CurrentHeight (desk/monitor.go) and FetchSitStandTime
    (desk/stats.go): which report they return, and how long they hold the desk. */
module QueryTheory {
  import opened Wrappers
  import opened Dispatch
  import opened Desks
  import opened Packet
  import TimingTheory
  import opened WaitTheory

  predicate Queries(op: Op) {
    op.ReadHeight? || op.ReadStats?
  }

  // ---------- the reports a query sees ----------

  /** A report of the kind the query asks for, and whether it came after the request
      had been written. */
  datatype Report = Report(data: Data, at: nat, requested: bool)

  function Carries(op: Op, ev: Event): Option<Data> {
    if op.ReadHeight? && ev.HeightReport? then Some(HeightData(ev.mm))
    else if op.ReadStats? && ev.StatsReport? then Some(StatsData(ev.stats))
    else None
  }

  predicate Requested(run: Run) {
    run.Then? && (run.event.ev.Wrote? || Requested(run.before))
  }

  /** The matching reports since the listener was registered, oldest first. */
  function Reports(op: Op, run: Run): seq<Report> {
    match run
    case Begin(_) => []
    case Then(before, e) =>
      Reports(op, before) +
      if Registered(before) && Carries(op, e.ev).Some?
      then [Report(Carries(op, e.ev).value, e.at, Requested(before))] else []
  }

  /** What the height cache answered, if the query got its answer there. */
  function FromCache(run: Run): Option<real> {
    match run
    case Begin(_) => None
    case Then(before, e) => if e.ev.CacheHit? then Some(e.ev.mm) else FromCache(before)
  }

  /** A report of the counters, from its bytes to the answer: hours, minutes and seconds
      of standing, then of sitting. */
  lemma CountersInSeconds(a: Byte, b: Byte, c: Byte, d: Byte, e: Byte, f: Byte)
    ensures var stats := StatsIn(Decode(Frame(RESP_START, 0xA2, [a, b, c, d, e, f])));
            && |stats| == 1
            && Answering(StatsData(stats[0])) ==
                 OkStats(a as int * 3600 + b as int * 60 + c, d as int * 3600 + e as int * 60 + f)
  {
    OneFrame(0xA2, [a, b, c, d, e, f]);
  }

  // ---------- the answer is the first report ----------

  function Oldest(rs: seq<Report>): Option<Data> {
    if rs == [] then None else Some(rs[0].data)
  }

  predicate Answers(op: Op, run: Run, resp: Response) {
    || resp == Failed(WriteFailed) || resp == Failed(NoData)
    || (op.ReadHeight? && FromCache(run).Some? && resp == OkHeight(FromCache(run).value))
    || (Reports(op, run) != [] && resp == Answering(Reports(op, run)[0].data))
  }

  predicate QueryInv(op: Op, run: Run, s: State) {
    && s.ears.listening == Registered(run)
    && match s.pc
       case Cached => op.ReadHeight? && !Registered(run) && !Requested(run) && Reports(op, run) == [] && s.ears.data.None?
       case Add => !Registered(run) && !Requested(run) && Reports(op, run) == [] && s.ears.data.None?
       case Send => !Requested(run) && s.ears.data == Oldest(Reports(op, run))
       case Arm => Requested(run) && s.ears.data == Oldest(Reports(op, run))
       case Await => Requested(run) && s.ears.data == Oldest(Reports(op, run))
       case Remove(resp) => Answers(op, run, resp)
       case Done(resp) => Answers(op, run, resp)
       case _ => false
  }

  predicate QueryPc(pc: Pc) {
    pc.Cached? || pc.Add? || pc.Send? || pc.Arm? || pc.Await? || pc.Remove?
  }

  /** One step of a query. */
  lemma QueryFrame(op: Op, s: State, ev: Event)
    requires Queries(op) && QueryPc(s.pc) && Step(op, s, ev).Some?
    ensures var s' := Step(op, s, ev).value;
            && s'.ears.listening == (ev.Added? || (s.ears.listening && !ev.Removed?))
            && (ev.DataTaken? || s'.ears.data ==
                  if s.ears.listening && s.ears.data.None? then Carries(op, ev) else s.ears.data)
            && (ev.Wrote? ==> s.pc.Send? && s'.pc == if ev.ok then Arm else Remove(Failed(WriteFailed)))
            && (ev.DataTaken? ==> s.pc.Await? && s.ears.data.Some? && s'.pc == Remove(Answering(s.ears.data.value)))
            && (ev.CacheHit? ==> s.pc.Cached? && s'.pc == Done(OkHeight(ev.mm)))
            && (ev.Added? ==> s.pc.Add? && s'.pc == Send)
            && (ev.Removed? ==> s.pc.Remove? && s'.pc == Done(s.pc.resp))
            && (s'.pc != s.pc && !ev.Wrote? && !ev.DataTaken? && !ev.CacheHit? && !ev.Added? && !ev.Removed? ==>
                  || (s.pc.Cached? && s'.pc == Add)
                  || (s.pc.Arm? && s'.pc == Await)
                  || (s.pc.Await? && s'.pc == Remove(Failed(NoData))))
  {
  }

  lemma ReportsGrow(op: Op, run: Run, e: TimedEvent)
    ensures Reports(op, run) <= Reports(op, Then(run, e))
    ensures Reports(op, run) != [] ==> Oldest(Reports(op, Then(run, e))) == Oldest(Reports(op, run))
    ensures Reports(op, run) == [] ==>
              Oldest(Reports(op, Then(run, e))) == if Registered(run) then Carries(op, e.ev) else None
  {
  }

  lemma {:induction false} QueryReached(op: Op, run: Run, s: State)
    requires Queries(op) && Reaches(op, run, s)
    ensures QueryInv(op, run, s)
  {
    hide Step;
    if run.Then? {
      assert run == Then(run.before, run.event);
      var s0 := Exec(op, run.before).value;
      QueryReached(op, run.before, s0);
      QueryFrame(op, s0.(now := run.event.at), run.event.ev);
      ReportsGrow(op, run.before, run.event);
    }
  }

  lemma QueryLater(op: Op, run: Run, s: State, at: nat)
    requires QueryInv(op, run, s)
    ensures QueryInv(op, run, s.(now := at))
  {
  }

  predicate Extends(later: Run, run: Run) {
    later == run || (later.Then? && Extends(later.before, run))
  }

  lemma {:induction false} OldestKept(op: Op, later: Run, run: Run)
    requires Extends(later, run) && Reports(op, run) != []
    ensures Reports(op, later) != [] && Oldest(Reports(op, later)) == Oldest(Reports(op, run))
  {
    if later != run {
      OldestKept(op, later.before, run);
    }
  }

  /** The reports are of the kind asked for. */
  lemma {:induction false} ReportsFit(op: Op, run: Run)
    ensures forall r :: r in Reports(op, run) ==> r.data.HeightData? == op.ReadHeight?
  {
    if run.Then? {
      ReportsFit(op, run.before);
    }
  }

  /** A query that succeeds returns the cached height, or the first matching report
      since its listener was registered; and while it waits, its data case is ready
      exactly when there has been one. */
  lemma AnswerIsFirstReport(op: Op, run: Run, s: State)
    requires Queries(op) && Reaches(op, run, s)
    ensures s.pc.Done? || s.pc.Remove? ==> Answers(op, run, s.pc.resp)
    ensures s.pc.Await? ==> (Next(op, s, At(DataTaken, s.now)).Some? <==> Reports(op, run) != [])
  {
    QueryReached(op, run, s);
  }

  lemma {:induction false} RequestedReports(op: Op, run: Run)
    ensures forall r :: r in Reports(op, run) && r.requested ==> Requested(run)
    ensures Reports(op, run) != [] && Reports(op, run)[0].requested ==> forall r :: r in Reports(op, run) ==> r.requested
  {
    if run.Then? {
      RequestedReports(op, run.before);
    }
  }

  /** The report a query returns answers its own request exactly if no matching report
      came between registering the listener and writing the request. */
  lemma FreshIffNoneEarly(op: Op, run: Run)
    requires Reports(op, run) != []
    ensures Reports(op, run)[0].requested <==> forall r :: r in Reports(op, run) ==> r.requested
  {
    RequestedReports(op, run);
  }

  lemma NoReport(op: Op, run: Run, e: TimedEvent)
    requires Carries(op, e.ev).None?
    ensures Reports(op, Then(run, e)) == Reports(op, run)
  {
  }

  /** A query whose channel is already full takes its answer at once. */
  lemma AnswerFromFullChannel(op: Op, run: Run, s: State) returns (run': Run, end: State)
    requires Queries(op) && Reaches(op, run, s) && s.pc.Send? && s.ears.data.Some?
    ensures Reaches(op, run', end) && end.pc == Remove(Answering(s.ears.data.value))
    ensures Reports(op, run') == Reports(op, run)
  {
    hide Reaches, Exec, Next, Reports;
    run', end := Play(op, run, s, Wrote(true), s.now);
    NoReport(op, run, At(Wrote(true), s.now));
    NoReport(op, run', At(Armed, s.now));
    run', end := Play(op, run', end, Armed, s.now);
    NoReport(op, run', At(DataTaken, s.now));
    run', end := Play(op, run', end, DataTaken, s.now);
  }

  /** Any matching report that comes after the listener is registered and before the
      request is written is returned as the answer. */
  lemma StaleReportIsReturned(op: Op, run: Run, s: State, ev: Event) returns (stale: Run, end: State)
    requires Queries(op) && Reaches(op, run, s) && s.pc.Add? && Carries(op, ev).Some?
    ensures Reaches(op, stale, end) && end.pc == Remove(Answering(Carries(op, ev).value))
    ensures Reports(op, stale) == [Report(Carries(op, ev).value, s.now, false)]
  {
    hide Reaches, Exec, Next;
    QueryReached(op, run, s);
    stale, end := Play(op, run, s, Added, s.now);
    stale, end := Play(op, stale, end, ev, s.now);
    assert Reports(op, stale) == [Report(Carries(op, ev).value, s.now, false)];
    stale, end := AnswerFromFullChannel(op, stale, end);
  }

  predicate Missed(run: Run) {
    run.Then? && (run.event.ev.CacheMiss? || Missed(run.before))
  }

  predicate MissInv(run: Run, s: State) {
    Missed(run) || (s.wire == [] && (s.pc.Cached? || s.pc.Done?))
  }

  lemma MissStep(op: Op, s: State, ev: Event)
    requires op.ReadHeight? && s.pc.Cached? && Step(op, s, ev).Some?
    ensures ev.CacheMiss? || (Step(op, s, ev).value.wire == s.wire
                              && (Step(op, s, ev).value.pc.Cached? || Step(op, s, ev).value.pc.Done?))
  {
  }

  lemma {:induction false} MissReached(op: Op, run: Run, s: State)
    requires op.ReadHeight? && Reaches(op, run, s)
    ensures MissInv(run, s)
  {
    hide Step;
    if run.Then? {
      var s0 := Exec(op, run.before).value;
      MissReached(op, run.before, s0);
      if s0.pc.Cached? {
        MissStep(op, s0.(now := run.event.at), run.event.ev);
      }
    }
  }

  /** A height query looks at the cache before anything else: a hit is the answer, at
      once and without a write, and nothing is written before a miss. */
  lemma {:induction false} CacheIsAskedFirst(timeout: int, run: Run, s: State, now: nat, mm: real)
    requires Reaches(ReadHeight(timeout), run, s)
    ensures var hit := Next(ReadHeight(timeout), Initial(ReadHeight(timeout), now), At(CacheHit(mm), now));
            hit.Some? && hit.value.pc == Done(OkHeight(mm)) && hit.value.wire == []
    ensures s.wire != [] ==> Missed(run)
  {
    MissReached(ReadHeight(timeout), run, s);
  }

  // ---------- a query does not heed its context ----------

  /** `later` continues `run` without the query taking a report. */
  predicate Prolongs(later: Run, run: Run) {
    later == run || (later.Then? && later.event.ev != DataTaken && Prolongs(later.before, run))
  }

  predicate AwaitClock(op: Op, s: State) {
    s.pc.Await? ==> s.clock.tickerAt <= s.now && s.clock.deadline == s.clock.tickerAt + LimitOf(op)
  }

  lemma AwaitStep(op: Op, s: State, ev: Event)
    requires Queries(op) && Step(op, s, ev).Some? && AwaitClock(op, s)
    ensures AwaitClock(op, Step(op, s, ev).value)
    ensures var s' := Step(op, s, ev).value;
            s.pc.Await? && ev != DataTaken && s.now < s.clock.deadline ==> s'.pc.Await? && s'.clock == s.clock
    ensures Step(op, s, ev).value.now == s.now
    ensures s.pc.Await? ==> ev != CtxDone
  {
  }

  lemma {:induction false} AwaitReached(op: Op, run: Run, s: State)
    requires Queries(op) && Reaches(op, run, s)
    ensures AwaitClock(op, s)
  {
    hide Step, AwaitClock;
    match run
    case Begin(now) => AwaitStart(op, now);
    case Then(before, e) =>
      var s0 := Exec(op, before).value;
      AwaitReached(op, before, s0);
      AwaitLater(op, s0, e.at);
      AwaitStep(op, s0.(now := e.at), e.ev);
  }

  lemma AwaitStart(op: Op, now: nat)
    requires Queries(op)
    ensures AwaitClock(op, Initial(op, now))
  {
  }

  lemma AwaitLater(op: Op, s: State, at: nat)
    requires AwaitClock(op, s) && at >= s.now
    ensures AwaitClock(op, s.(now := at))
  {
  }

  /** A waiting query, cancelled or not, keeps the desk until it takes a report or its
      deadline has come, and that is at least five seconds after its wait began. */
  lemma {:induction false} WaitingQueryStays(op: Op, run: Run, s: State, later: Run, s': State)
    requires Queries(op) && Reaches(op, run, s) && s.pc.Await?
    requires Prolongs(later, run) && Reaches(op, later, s')
    ensures s.clock.deadline >= s.clock.tickerAt + 5000
    ensures s'.now >= s.now
    ensures s'.now < s.clock.deadline ==> s'.pc.Await? && s'.clock == s.clock
    ensures s'.pc.Await? ==> forall at :: Next(op, s', At(CtxDone, at)).None?
  {
    hide Step;
    AwaitReached(op, run, s);
    AwaitReached(op, later, s');
    if later != run {
      var s0 := Exec(op, later.before).value;
      WaitingQueryStays(op, run, s, later.before, s0);
      AwaitReached(op, later.before, s0);
      AwaitStep(op, s0.(now := later.event.at), later.event.ev);
    }
    if s'.pc.Await? {
      forall at ensures Next(op, s', At(CtxDone, at)).None? {
        TimingTheory.OnlyTheLoopHeedsCancel(op, s', at);
      }
    }
  }

  /** Such a wait exists: 200 ms after a cancellation at its start, and up to five
      seconds after it, a stats query without an answer has not returned. */
  lemma CancelledQueryOutlivesPulse() returns (run: Run, s: State)
    ensures Reaches(ReadStats(5000), run, s) && s.pc.Await? && s.now == 0 && s.clock.deadline == 5000
    ensures forall later, s' :: Prolongs(later, run) && Reaches(ReadStats(5000), later, s') && s'.now < 5000 ==> s'.pc.Await?
  {
    hide Exec, Next, Step, Reaches;
    run, s := StartWaiting();
    forall later, s' | Prolongs(later, run) && Reaches(ReadStats(5000), later, s') && s'.now < 5000
      ensures s'.pc.Await?
    {
      WaitingQueryStays(ReadStats(5000), run, s, later, s');
    }
  }

  lemma StartWaiting() returns (run: Run, s: State)
    ensures Reaches(ReadStats(5000), run, s) && s.pc.Await? && s.now == 0 && s.clock.deadline == 5000
  {
    hide Reaches, Exec, Next;
    var op := ReadStats(5000);
    StartReached(op);
    run, s := Play(op, Begin(0), Initial(op, 0), Added, 0);
    run, s := Play(op, run, s, Wrote(true), 0);
    run, s := Play(op, run, s, Armed, 0);
  }
}
