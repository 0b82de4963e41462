/** The darwin connect handshake (desk/adapter_darwin.go): `Connect` publishes a
    capacity-1 channel in the pending map and waits on it and on a deadline, while
    delegate callbacks take the channel out of the map and send their report on it.
    The map is guarded by pendingMu; a send happens after the lock is released. */
module Handshake {
  import opened Wrappers

  type Id = nat

  const CAPACITY := 1

  /** A connectResult: the peripheral it names and whether it carries an error. */
  datatype Report = Report(id: Id, failed: bool)

  datatype Outcome =
    | Connected(id: Id)  // goes on to discovery with the reported peripheral
    | Failed             // the report carried an error
    | NotConnected       // the peripheral's state is not connected
    | TimedOut           // a report came, but after the deadline
    | NoDisconnect       // not even CancelConnect's disconnect came

  /** One call of `Connect`, from its entry in the pending map to its return. `expired`
      says that its timer has fired and the value still waits to be taken. */
  datatype Attempt = Attempt(id: Id, timedOut: bool, expired: bool, outcome: Option<Outcome>)

  /** One delegate callback that found a channel. */
  datatype Callback = Holding(n: nat, report: Report) | Sent

  /** Attempts are named by their position, and own the channel of the same number. */
  datatype State = State(
    pending: map<Id, nat>, channels: seq<seq<Report>>,
    attempts: seq<Attempt>, callbacks: seq<Callback>)

  const BOOT := State(map[], [], [], [])

  datatype Action =
    | Start(id: Id)                    // pending[id] = ch
    | Take(id: Id, failed: bool)       // the locked half of completePending
    | Send(k: nat)                     // its send
    | Receive(n: nat, connected: bool) // the loop takes the report, then asks the state
    | Expire(n: nat)                   // the runtime fires the timer
    | TakeDeadline(n: nat)             // the loop takes the timer's value

  function Verdict(timedOut: bool, report: Report, connected: bool): Outcome {
    if timedOut then TimedOut
    else if report.failed then Failed
    else if !connected then NotConnected
    else Connected(report.id)
  }

  predicate InFlight(s: State, n: nat) {
    n < |s.attempts| && s.attempts[n].outcome.None?
  }

  predicate Enabled(s: State, a: Action) {
    match a
    case Start(_) => true
    case Take(_, _) => true
    case Send(k) =>
      && k < |s.callbacks| && s.callbacks[k].Holding?
      && s.callbacks[k].n < |s.channels|
      && |s.channels[s.callbacks[k].n]| < CAPACITY
    case Receive(n, _) => InFlight(s, n) && n < |s.channels| && s.channels[n] != []
    case Expire(n) => InFlight(s, n) && !s.attempts[n].expired
    case TakeDeadline(n) => InFlight(s, n) && s.attempts[n].expired
  }

  function Do(s: State, a: Action): State
    requires Enabled(s, a)
  {
    match a
    case Start(id) =>
      s.(pending := s.pending[id := |s.attempts|],
         channels := s.channels + [[]],
         attempts := s.attempts + [Attempt(id, false, false, None)])
    case Take(id, failed) =>
      if id in s.pending then
        s.(pending := s.pending - {id},
           callbacks := s.callbacks + [Holding(s.pending[id], Report(id, failed))])
      else s
    case Send(k) =>
      var n := s.callbacks[k].n;
      s.(channels := s.channels[n := s.channels[n] + [s.callbacks[k].report]],
         callbacks := s.callbacks[k := Sent])
    case Receive(n, connected) =>
      var at := s.attempts[n];
      s.(channels := s.channels[n := s.channels[n][1..]],
         attempts := s.attempts[n := at.(outcome := Some(Verdict(at.timedOut, s.channels[n][0], connected)))])
    case Expire(n) =>
      s.(attempts := s.attempts[n := s.attempts[n].(expired := true)])
    case TakeDeadline(n) =>
      var at := s.attempts[n];
      if at.timedOut then
        s.(pending := s.pending - {at.id},
           attempts := s.attempts[n := at.(expired := false, outcome := Some(NoDisconnect))])
      else
        s.(attempts := s.attempts[n := at.(timedOut := true, expired := false)])
  }

  datatype Trace = Idle | More(before: Trace, action: Action)

  function After(t: Trace): Option<State> {
    match t
    case Idle => Some(BOOT)
    case More(before, a) =>
      if After(before).Some? && Enabled(After(before).value, a)
      then Some(Do(After(before).value, a)) else None
  }

  // ---------- what every interleaving keeps ----------

  /** No report has been taken from the attempt's channel. */
  predicate Unreported(at: Attempt) {
    at.outcome.None? || at.outcome == Some(NoDisconnect)
  }

  predicate Registered(s: State, n: nat) {
    n < |s.attempts| && s.attempts[n].id in s.pending && s.pending[s.attempts[n].id] == n
  }

  predicate OnItsWay(s: State, n: nat) {
    exists k :: 0 <= k < |s.callbacks| && s.callbacks[k].Holding? && s.callbacks[k].n == n
  }

  predicate Delivered(s: State, n: nat) {
    n < |s.channels| && s.channels[n] != []
  }

  predicate EntriesOk(s: State) {
    forall id <- s.pending :: InFlight(s, s.pending[id]) && s.attempts[s.pending[id]].id == id
  }

  predicate AttemptsOk(s: State) {
    && |s.channels| == |s.attempts|
    && forall n | 0 <= n < |s.attempts| ::
      && |s.channels[n]| <= CAPACITY
      && (Registered(s, n) ==> s.channels[n] == [])
      && (s.channels[n] != [] ==> Unreported(s.attempts[n]) && s.channels[n][0].id == s.attempts[n].id)
      && (s.attempts[n].timedOut && s.attempts[n].outcome.Some? ==> s.attempts[n].outcome.value in {TimedOut, NoDisconnect})
      && (s.attempts[n].outcome.Some? && s.attempts[n].outcome.value.Connected? ==>
            s.attempts[n].outcome.value.id == s.attempts[n].id)
  }

  predicate CallbackOk(s: State, c: Callback) {
    c.Holding? ==>
      && c.n < |s.attempts| && c.n < |s.channels|
      && s.channels[c.n] == []
      && Unreported(s.attempts[c.n])
      && !Registered(s, c.n)
      && c.report.id == s.attempts[c.n].id
  }

  predicate CallbacksOk(s: State) {
    && (forall k | 0 <= k < |s.callbacks| :: CallbackOk(s, s.callbacks[k]))
    && (forall j, k | 0 <= j < k < |s.callbacks| && s.callbacks[j].Holding? && s.callbacks[k].Holding? ::
      s.callbacks[j].n != s.callbacks[k].n)
  }

  /** A channel's one token is in at most one place: the map, a callback, the channel,
      or the attempt that took it. */
  predicate Inv(s: State) {
    EntriesOk(s) && AttemptsOk(s) && CallbacksOk(s)
  }

  lemma EntriesStep(s: State, a: Action)
    requires Inv(s) && Enabled(s, a)
    ensures EntriesOk(Do(s, a))
  {
    hide CallbacksOk;
  }

  lemma AttemptsStep(s: State, a: Action)
    requires Inv(s) && Enabled(s, a)
    ensures AttemptsOk(Do(s, a))
  {
    if a.Send? {
      assert CallbackOk(s, s.callbacks[a.k]);
    }
  }

  lemma CallbacksStep(s: State, a: Action)
    requires Inv(s) && Enabled(s, a)
    ensures CallbacksOk(Do(s, a))
  {
    var s1 := Do(s, a);
    forall k | 0 <= k < |s1.callbacks| ensures CallbackOk(s1, s1.callbacks[k]) {
      if k < |s.callbacks| { assert CallbackOk(s, s.callbacks[k]); }
    }
  }

  lemma InvStep(s: State, a: Action)
    requires Inv(s) && Enabled(s, a)
    ensures Inv(Do(s, a))
  {
    hide EntriesOk, AttemptsOk, CallbacksOk, Do;
    EntriesStep(s, a);
    AttemptsStep(s, a);
    CallbacksStep(s, a);
  }

  lemma {:induction false} InvAlways(t: Trace)
    requires After(t).Some?
    ensures Inv(After(t).value)
  {
    if t.More? {
      InvAlways(t.before);
      InvStep(After(t.before).value, t.action);
    }
  }

  /** A delegate's send finds room in its channel, in every interleaving and however
      many calls are in flight: no delegate send ever blocks. */
  lemma SendNeverBlocks(t: Trace, k: nat)
    requires After(t).Some?
    requires k < |After(t).value.callbacks| && After(t).value.callbacks[k].Holding?
    ensures Enabled(After(t).value, Send(k))
  {
    InvAlways(t);
    assert CallbackOk(After(t).value, After(t).value.callbacks[k]);
  }

  // ---------- what an outcome means ----------

  predicate Occurs(t: Trace, a: Action) {
    t.More? && (t.action == a || Occurs(t.before, a))
  }

  /** A success event was taken while attempt n was the one registered for it. */
  predicate Announced(t: Trace, n: nat) {
    && t.More? && After(t.before).Some?
    && (|| Announced(t.before, n)
        || (var s := After(t.before).value;
            Registered(s, n) && t.action == Take(s.attempts[n].id, false)))
  }

  predicate Success(c: Callback, n: nat) {
    c.Holding? && c.n == n && !c.report.failed
  }

  /** The attempt has a connection, or a report without an error is on its way to it. */
  predicate GoodNews(s: State, n: nat) {
    || (exists k :: 0 <= k < |s.callbacks| && Success(s.callbacks[k], n))
    || (n < |s.channels| && s.channels[n] != [] && !s.channels[n][0].failed)
    || (n < |s.attempts| && s.attempts[n].outcome.Some? && s.attempts[n].outcome.value.Connected?)
  }

  lemma {:induction false} DeadlineIsRemembered(t: Trace, n: nat)
    requires After(t).Some? && n < |After(t).value.attempts|
    ensures Occurs(t, TakeDeadline(n)) <==> After(t).value.attempts[n].timedOut
  {
    if t.More? {
      var s := After(t.before).value;
      if n < |s.attempts| {
        DeadlineIsRemembered(t.before, n);
      } else {
        NoOwnStepsBefore(t.before, n);
      }
    }
  }

  lemma {:induction false} NoOwnStepsBefore(t: Trace, n: nat)
    requires After(t).Some? && n >= |After(t).value.attempts|
    ensures !Occurs(t, TakeDeadline(n))
  {
    if t.More? {
      NoOwnStepsBefore(t.before, n);
    }
  }

  lemma GoodNewsStep(s: State, a: Action, n: nat)
    requires Inv(s) && Enabled(s, a)
    requires GoodNews(Do(s, a), n)
    ensures GoodNews(s, n) || (Registered(s, n) && a == Take(s.attempts[n].id, false))
  {
    var s1 := Do(s, a);
    if k :| 0 <= k < |s1.callbacks| && Success(s1.callbacks[k], n) {
      assert k < |s.callbacks| && s1.callbacks[k] == s.callbacks[k] ==> Success(s.callbacks[k], n);
    }
    if a.Send? && !s.callbacks[a.k].report.failed {
      assert Success(s.callbacks[a.k], s.callbacks[a.k].n);
    }
  }

  lemma {:induction false} GoodNewsWasAnnounced(t: Trace, n: nat)
    requires After(t).Some? && GoodNews(After(t).value, n)
    ensures Announced(t, n)
  {
    hide Do, Enabled, GoodNews, Inv, Registered;
    if t.More? {
      InvAlways(t.before);
      GoodNewsStep(After(t.before).value, t.action, n);
      if GoodNews(After(t.before).value, n) {
        GoodNewsWasAnnounced(t.before, n);
      }
    } else {
      NoGoodNewsAtBoot(n);
    }
  }

  lemma NoGoodNewsAtBoot(n: nat)
    ensures !GoodNews(BOOT, n)
  {
  }

  /** `Connect` returns a connection only to its own peripheral, only if a success
      event arrived while it was registered, and never once its loop has taken the
      deadline, however late a success event arrives. */
  lemma ConnectionIsOwnAndInTime(t: Trace, n: nat)
    requires After(t).Some? && n < |After(t).value.attempts|
    requires After(t).value.attempts[n].outcome.Some? && After(t).value.attempts[n].outcome.value.Connected?
    ensures After(t).value.attempts[n].outcome.value.id == After(t).value.attempts[n].id
    ensures Announced(t, n)
    ensures !Occurs(t, TakeDeadline(n))
  {
    InvAlways(t);
    GoodNewsWasAnnounced(t, n);
    DeadlineIsRemembered(t, n);
  }

  /** Exactly when a report received makes a connection: it is a success, the peripheral
      is connected, and the loop has not taken the deadline. Whether the deadline has
      passed does not matter. */
  lemma ConnectsIffDeadlineNotTaken(t: Trace, n: nat, connected: bool)
    requires After(t).Some? && Enabled(After(t).value, Receive(n, connected))
    ensures
      var s := After(t).value;
      Do(s, Receive(n, connected)).attempts[n].outcome == Some(Connected(s.attempts[n].id)) <==>
        connected && !s.channels[n][0].failed && !Occurs(t, TakeDeadline(n))
  {
    InvAlways(t);
    DeadlineIsRemembered(t, n);
  }

  /** Once the deadline has passed with a success in the channel, both cases of the
      select are ready, and the one taken decides. */
  lemma ExpiredSuccessIsARace(t: Trace, n: nat)
    requires After(t).Some? && InFlight(After(t).value, n) && n < |After(t).value.channels|
    requires var s := After(t).value;
             s.attempts[n].expired && !s.attempts[n].timedOut && s.channels[n] != [] && !s.channels[n][0].failed
    ensures
      var s := After(t).value;
      && Enabled(s, Receive(n, true)) && Enabled(s, TakeDeadline(n))
      && Do(s, Receive(n, true)).attempts[n].outcome == Some(Connected(s.attempts[n].id))
      && Enabled(Do(s, TakeDeadline(n)), Receive(n, true))
      && Do(Do(s, TakeDeadline(n)), Receive(n, true)).attempts[n].outcome == Some(TimedOut)
  {
    InvAlways(t);
  }

  lemma Same(s: State, s1: State)
    requires s.pending == s1.pending && s.channels == s1.channels
    requires s.attempts == s1.attempts && s.callbacks == s1.callbacks
    ensures s == s1
  {
  }

  /** The race is real: the deadline passes, then the success event arrives, and the
      call returns a connection. */
  lemma LateSuccessCanConnect()
    ensures
      var t := More(More(More(More(More(Idle, Start(7)), Expire(0)), Take(7, false)), Send(0)), Receive(0, true));
      After(t).Some? && After(t).value.attempts == [Attempt(7, false, true, Some(Connected(7)))]
  {
    var a := Attempt(7, false, true, None);
    var r := Report(7, false);
    var s1 := State(map[7 := 0], [[]], [a], []);
    var s2 := State(map[], [[]], [a], [Holding(0, r)]);
    var s3 := State(map[], [[r]], [a], [Sent]);
    FirstStart();
    Same(Do(STARTED, Expire(0)), s1);
    Same(Do(s1, Take(7, false)), s2);
    assert s2.channels[0] + [r] == [r];
    Same(Do(s2, Send(0)), s3);
    var t1 := More(More(Idle, Start(7)), Expire(0));
    assert After(t1) == Some(s1);
    var t2 := More(t1, Take(7, false));
    assert After(t2) == Some(s2);
    var t3 := More(t2, Send(0));
    assert After(t3) == Some(s3);
    assert Do(s3, Receive(0, true)).attempts == [a.(outcome := Some(Connected(7)))];
  }

  const WAITING := Attempt(7, false, false, None)
  const STARTED := State(map[7 := 0], [[]], [WAITING], [])

  lemma FirstStart()
    ensures After(More(Idle, Start(7))) == Some(STARTED)
  {
    Same(Do(BOOT, Start(7)), STARTED);
    assert After(Idle) == Some(BOOT);
  }

  /** An entry in the map always belongs to a call in flight for that peripheral. */
  lemma EntriesAreInFlight(t: Trace, id: Id)
    requires After(t).Some?
    requires forall n | 0 <= n < |After(t).value.attempts| ::
      InFlight(After(t).value, n) ==> After(t).value.attempts[n].id != id
    ensures id !in After(t).value.pending
  {
    InvAlways(t);
  }

  // ---------- lost reports ----------

  /** In flight, and no event can reach it any more: it can only time out. */
  predicate Lost(s: State, n: nat) {
    InFlight(s, n) && !Registered(s, n) && !OnItsWay(s, n) && !Delivered(s, n)
  }

  /** The step takes away the entry of attempt n without a report for it: another call
      for the same peripheral starts over it, or gives up and deletes it. */
  predicate Clobbers(s: State, a: Action, n: nat) {
    && Registered(s, n)
    && (|| a == Start(s.attempts[n].id)
        || (&& a.TakeDeadline? && a.n != n && InFlight(s, a.n)
            && s.attempts[a.n].timedOut && s.attempts[a.n].id == s.attempts[n].id))
  }

  predicate Clobbered(t: Trace, n: nat) {
    && t.More? && After(t.before).Some?
    && (Clobbered(t.before, n) || Clobbers(After(t.before).value, t.action, n))
  }

  lemma LostStep(s: State, a: Action, n: nat)
    requires Inv(s) && Enabled(s, a)
    requires InFlight(s, n) && InFlight(Do(s, a), n)
    ensures Lost(Do(s, a), n) <==> Lost(s, n) || Clobbers(s, a, n)
  {
    var s1 := Do(s, a);
    match a
    case Start(_) =>
    case Take(id, failed) =>
      if id in s.pending {
        assert s1.callbacks[|s.callbacks|] == Holding(s.pending[id], Report(id, failed));
        if OnItsWay(s, n) {
          var k :| 0 <= k < |s.callbacks| && s.callbacks[k].Holding? && s.callbacks[k].n == n;
          assert s1.callbacks[k] == s.callbacks[k];
        }
      }
    case Send(k0) =>
      assert CallbackOk(s, s.callbacks[k0]);
      if OnItsWay(s, n) {
        var k :| 0 <= k < |s.callbacks| && s.callbacks[k].Holding? && s.callbacks[k].n == n;
        assert k != k0 ==> s1.callbacks[k] == s.callbacks[k];
      }
    case Receive(_, _) =>
    case Expire(_) =>
    case TakeDeadline(_) =>
  }

  lemma {:induction false} InFlightBefore(t: Trace, n: nat)
    requires t.More? && After(t).Some? && InFlight(After(t).value, n)
    ensures n < |After(t.before).value.attempts| ==> InFlight(After(t.before).value, n)
    ensures n >= |After(t.before).value.attempts| ==> Registered(After(t).value, n)
  {
  }

  lemma {:induction false} NotClobberedBefore(t: Trace, n: nat)
    requires After(t).Some? && n >= |After(t).value.attempts|
    ensures !Clobbered(t, n)
  {
    if t.More? {
      NotClobberedBefore(t.before, n);
    }
  }

  /** Exactly when a call in flight can no longer be reached by any event: its entry
      was overwritten by another call for the same peripheral, or deleted by one that
      gave up. */
  lemma {:induction false} LostIffClobbered(t: Trace, n: nat)
    requires After(t).Some? && InFlight(After(t).value, n)
    ensures Lost(After(t).value, n) <==> Clobbered(t, n)
  {
    if t.More? {
      InFlightBefore(t, n);
      var s := After(t.before).value;
      InvAlways(t.before);
      if n < |s.attempts| {
        LostIffClobbered(t.before, n);
        LostStep(s, t.action, n);
      } else {
        NotClobberedBefore(t.before, n);
      }
    }
  }

  // ---------- one call in flight per peripheral ----------

  predicate Vacant(s: State, id: Id) {
    forall n | 0 <= n < |s.attempts| :: s.attempts[n].id == id ==> s.attempts[n].outcome.Some?
  }

  /** No call starts while another for the same peripheral is in flight. */
  predicate OneAtATime(t: Trace) {
    match t
    case Idle => true
    case More(before, a) =>
      && OneAtATime(before)
      && (a.Start? && After(before).Some? ==> Vacant(After(before).value, a.id))
  }

  lemma {:induction false} FlightsAreDistinct(t: Trace, i: nat, j: nat)
    requires After(t).Some? && OneAtATime(t)
    requires i < j && InFlight(After(t).value, i) && InFlight(After(t).value, j)
    ensures After(t).value.attempts[i].id != After(t).value.attempts[j].id
  {
    if t.More? {
      InFlightBefore(t, i);
      var s := After(t.before).value;
      if j < |s.attempts| {
        InFlightBefore(t, j);
        FlightsAreDistinct(t.before, i, j);
      }
    }
  }

  lemma {:induction false} NotClobbered(t: Trace, n: nat)
    requires After(t).Some? && OneAtATime(t) && InFlight(After(t).value, n)
    ensures !Clobbered(t, n)
  {
    if t.More? {
      InFlightBefore(t, n);
      var s, a := After(t.before).value, t.action;
      if n < |s.attempts| {
        NotClobbered(t.before, n);
        if Clobbers(s, a, n) && a.TakeDeadline? {
          FlightsAreDistinct(t.before, if a.n < n then a.n else n, if a.n < n then n else a.n);
        }
      } else {
        NotClobberedBefore(t.before, n);
      }
    }
  }

  /** One call per peripheral: whatever the interleaving, an event for a call in flight
      will find its entry, or is being sent and can be, or is there to be received. */
  lemma NothingIsLost(t: Trace, n: nat)
    requires After(t).Some? && OneAtATime(t) && InFlight(After(t).value, n)
    ensures
      var s := After(t).value;
      || Registered(s, n)
      || (exists k :: 0 <= k < |s.callbacks| && s.callbacks[k].Holding? && s.callbacks[k].n == n && Enabled(s, Send(k)))
      || (forall connected :: Enabled(s, Receive(n, connected)))
  {
    NotClobbered(t, n);
    LostIffClobbered(t, n);
    InvAlways(t);
    var s := After(t).value;
    if OnItsWay(s, n) {
      var k :| 0 <= k < |s.callbacks| && s.callbacks[k].Holding? && s.callbacks[k].n == n;
      SendNeverBlocks(t, k);
    }
  }

  lemma ReturnStep(s: State, a: Action, n: nat)
    requires Inv(s) && Enabled(s, a)
    requires InFlight(s, n) && !InFlight(Do(s, a), n)
    ensures n < |Do(s, a).attempts| && !Registered(Do(s, a), n)
    ensures Do(s, a).attempts[n].id == s.attempts[n].id
    ensures forall m: nat :: InFlight(Do(s, a), m) ==> InFlight(s, m) && Do(s, a).attempts[m].id == s.attempts[m].id
  {
    hide CallbacksOk;
  }

  /** One call per peripheral: the moment a call returns, on any path, the map holds
      no entry for its peripheral. */
  lemma NoEntryAfterReturn(t: Trace, n: nat)
    requires t.More? && After(t).Some? && OneAtATime(t)
    requires InFlight(After(t.before).value, n) && !InFlight(After(t).value, n)
    ensures After(t).value.attempts[n].id !in After(t).value.pending
  {
    hide Do, AttemptsOk, CallbacksOk, OneAtATime, Enabled;
    var s, s1 := After(t.before).value, After(t).value;
    InvAlways(t.before);
    InvAlways(t);
    ReturnStep(s, t.action, n);
    var id := s1.attempts[n].id;
    if id in s1.pending {
      var m := s1.pending[id];
      assert InFlight(s1, m) && s1.attempts[m].id == id;
      Earlier(t);
      FlightsAreDistinct(t.before, if m < n then m else n, if m < n then n else m);
    }
  }

  lemma Earlier(t: Trace)
    requires t.More? && OneAtATime(t)
    ensures OneAtATime(t.before)
  {
  }

  const GIVEN_UP := Attempt(7, true, false, Some(NoDisconnect))
  const OVERLAP := State(map[7 := 1], [[], []], [WAITING, WAITING], [])
  const LATE := State(map[7 := 1], [[], []], [WAITING.(timedOut := true), WAITING], [])
  const STRANDED := State(map[], [[], []], [GIVEN_UP, WAITING], [])

  function Overlapping(): Trace {
    More(More(Idle, Start(7)), Start(7))
  }

  /** The timer of the first call fires, and its loop takes it. */
  function FirstTimesOut(t: Trace): Trace {
    More(More(t, Expire(0)), TakeDeadline(0))
  }

  lemma SecondCallOverlaps()
    ensures After(Overlapping()) == Some(OVERLAP) && !OneAtATime(Overlapping())
  {
    FirstStart();
    Same(Do(STARTED, Start(7)), OVERLAP);
    assert !Vacant(STARTED, 7) by { assert STARTED.attempts[0].id == 7; }
  }

  lemma FirstTimeout(t: Trace)
    requires After(t) == Some(OVERLAP)
    ensures After(FirstTimesOut(t)) == Some(LATE)
    ensures OneAtATime(FirstTimesOut(t)) ==> OneAtATime(t)
  {
    var s := OVERLAP.(attempts := [WAITING.(expired := true), WAITING]);
    Same(Do(OVERLAP, Expire(0)), s);
    Same(Do(s, TakeDeadline(0)), LATE);
    assert After(More(t, Expire(0))) == Some(s);
    assert OneAtATime(FirstTimesOut(t)) ==> OneAtATime(More(t, Expire(0)));
  }

  lemma SecondTimeout(t: Trace)
    requires After(t) == Some(LATE)
    ensures After(FirstTimesOut(t)) == Some(STRANDED)
    ensures OneAtATime(FirstTimesOut(t)) ==> OneAtATime(t)
  {
    var s := LATE.(attempts := [WAITING.(timedOut := true, expired := true), WAITING]);
    Same(Do(LATE, Expire(0)), s);
    Same(Do(s, TakeDeadline(0)), STRANDED);
    assert After(More(t, Expire(0))) == Some(s);
    assert OneAtATime(FirstTimesOut(t)) ==> OneAtATime(More(t, Expire(0)));
  }

  /** Two overlapping calls for one peripheral: the first gives up, deletes the entry
      of the second, and no event can reach the second any more. */
  lemma OverlapStrandsTheSecond()
    ensures
      var t := FirstTimesOut(FirstTimesOut(Overlapping()));
      && After(t) == Some(STRANDED) && !OneAtATime(t)
      && Lost(STRANDED, 1)
      && forall failed :: Do(STRANDED, Take(7, failed)) == STRANDED
  {
    SecondCallOverlaps();
    FirstTimeout(Overlapping());
    SecondTimeout(FirstTimesOut(Overlapping()));
  }
}
