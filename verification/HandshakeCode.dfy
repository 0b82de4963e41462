/** The code of the darwin connect handshake, in its own form (desk/adapter_darwin.go):
    `completePending` and the wait loop of `Connect`. Each method is proved to take
    the steps of module Handshake, between any steps of the other goroutines. */
module HandshakeCode {
  import opened Wrappers
  import opened Handshake

  /** Which ready case the select takes; Go takes any of them. */
  datatype Choice = Channel(connected: bool) | Timer

  /** What the other goroutines do until the select looks again, whether its timer
      fires before it does, and its choice then. */
  datatype Script = End | Play(others: seq<Action>, fires: bool, choice: Choice, rest: Script)

  /** The looks at which the timer has surely fired and is chosen. */
  function Expiries(script: Script): nat {
    match script
    case End => 0
    case Play(_, fires, choice, rest) => (if fires && choice.Timer? then 1 else 0) + Expiries(rest)
  }

  /** A step another goroutine, or the runtime, may take while attempt `me` is in flight. */
  predicate Foreign(s: State, me: nat, a: Action) {
    Enabled(s, a) && (a.Receive? || a.TakeDeadline? ==> a.n != me)
  }

  /** The state after the other goroutines' steps; one that cannot be taken is not. */
  function Others(s: State, others: seq<Action>, me: nat): State
    decreases |others|
  {
    if others == [] then s
    else Others(if Foreign(s, me, others[0]) then Do(s, others[0]) else s, others[1..], me)
  }

  function Fired(s: State, n: nat, fires: bool): State {
    if fires && Enabled(s, Expire(n)) then Do(s, Expire(n)) else s
  }

  function Own(n: nat, choice: Choice): Action {
    match choice
    case Channel(connected) => Receive(n, connected)
    case Timer => TakeDeadline(n)
  }

  /** The state in which attempt n returns, or in which the script leaves it waiting. */
  function Wait(s: State, n: nat, script: Script): State
    decreases script
  {
    match script
    case End => s
    case Play(others, fires, choice, rest) =>
      var s1 := Fired(Others(s, others, n), n, fires);
      if !Enabled(s1, Own(n, choice)) then Wait(s1, n, rest)
      else
        var s2 := Do(s1, Own(n, choice));
        if InFlight(s2, n) then Wait(s2, n, rest) else s2
  }

  /** What no other goroutine changes of an attempt; only its timer may fire. */
  predicate SameAttempt(at: Attempt, at': Attempt) {
    at'.id == at.id && at'.timedOut == at.timedOut && at'.outcome == at.outcome && (at.expired ==> at'.expired)
  }

  lemma ForeignStep(s: State, me: nat, a: Action)
    requires Foreign(s, me, a) && me < |s.attempts|
    ensures Enabled(s, a)
    ensures me < |Do(s, a).attempts| && SameAttempt(s.attempts[me], Do(s, a).attempts[me])
  {
  }

  /** While attempt n waits, a timer that has fired may be taken, and its channel may be
      read when it holds a report. */
  lemma Ready(s: State, n: nat)
    requires InFlight(s, n)
    ensures Enabled(s, Expire(n)) <==> !s.attempts[n].expired
    ensures Enabled(s, TakeDeadline(n)) <==> s.attempts[n].expired
    ensures forall connected :: Enabled(s, Receive(n, connected)) <==> n < |s.channels| && s.channels[n] != []
  {
  }

  class Manager {
    var pending: map<Id, nat>
    var channels: seq<seq<Report>>
    var attempts: seq<Attempt>
    var callbacks: seq<Callback>
    ghost var trace: Trace

    function World(): State
      reads this
    {
      State(pending, channels, attempts, callbacks)
    }

    ghost predicate Valid()
      reads this
    {
      After(trace) == Some(World())
    }

    constructor ()
      ensures Valid() && World() == BOOT && OneAtATime(trace)
    {
      pending, channels, attempts, callbacks := map[], [], [], [];
      trace := Idle;
    }

    /** completePending: the report reaches the registered attempt's channel, which
        leaves the map; with no attempt registered the event is dropped. */
    method CompletePending(id: Id, failed: bool)
      requires Valid()
      modifies this
      ensures Valid()
      ensures old(OneAtATime(trace)) ==> OneAtATime(trace)
      ensures attempts == old(attempts)
      ensures id !in old(pending) ==> World() == old(World())
      ensures id in old(pending) ==>
        && pending == old(pending) - {id}
        && old(pending[id]) < |old(channels)|
        && channels == old(channels)[old(pending[id]) := [Report(id, failed)]]
    {
      var ok := id in pending;
      var n := 0;
      var k := |callbacks|;
      InvAlways(trace);
      ghost var s := World();
      if ok {
        n := pending[id];
        pending := pending - {id};
        callbacks := callbacks + [Holding(n, Report(id, failed))];
      }
      trace := More(trace, Take(id, failed));
      assert World() == Do(s, Take(id, failed));
      if ok {
        SendNeverBlocks(trace, k);
        assert channels[n] == [] && callbacks[k].report == Report(id, failed);
        assert channels[n] + [callbacks[k].report] == [Report(id, failed)];
        ghost var s1 := World();
        channels := channels[n := channels[n] + [callbacks[k].report]];
        callbacks := callbacks[k := Sent];
        trace := More(trace, Send(k));
        assert World() == Do(s1, Send(k));
      }
    }

    /** The other goroutines run. */
    method Interleave(others: seq<Action>, me: nat)
      requires Valid() && me < |attempts|
      modifies this
      ensures Valid()
      ensures me < |attempts| && SameAttempt(old(attempts[me]), attempts[me])
      ensures World() == Others(old(World()), others, me)
    {
      hide Do, Enabled, Foreign;
      var rest := others;
      while rest != []
        invariant Others(World(), rest, me) == Others(old(World()), others, me)
        invariant Valid()
        invariant me < |attempts| && SameAttempt(old(attempts[me]), attempts[me])
      {
        var a := rest[0];
        rest := rest[1..];
        if Foreign(World(), me, a) {
          ForeignStep(World(), me, a);
          var s := Do(World(), a);
          pending, channels, attempts, callbacks := s.pending, s.channels, s.attempts, s.callbacks;
          trace := More(trace, a);
        }
      }
    }

    /** The runtime fires the timer, unless its value is waiting already. */
    method Fire(n: nat)
      requires Valid() && InFlight(World(), n)
      modifies this
      ensures Valid() && World() == Fired(old(World()), n, true)
      ensures n < |attempts| && attempts[n] == old(attempts[n]).(expired := true)
    {
      if !attempts[n].expired {
        attempts := attempts[n := attempts[n].(expired := true)];
        trace := More(trace, Expire(n));
      }
    }

    /** The new attempt's channel is published; an entry it replaces is forgotten. */
    method Register(id: Id) returns (n: nat)
      requires Valid()
      modifies this
      ensures Valid()
      ensures n == |old(attempts)| && attempts == old(attempts) + [Attempt(id, false, false, None)]
      ensures pending == old(pending)[id := n] && callbacks == old(callbacks)
      ensures channels == old(channels) + [[]]
      ensures World() == Do(old(World()), Start(id))
    {
      n := |attempts|;
      ghost var s := World();
      pending := pending[id := n];
      channels := channels + [[]];
      attempts := attempts + [Attempt(id, false, false, None)];
      trace := More(trace, Start(id));
      assert World() == Do(s, Start(id));
    }

    /** The loop's first deadline: the attempt is marked, CancelConnect and Reset follow. */
    method MarkTimedOut(n: nat)
      requires Valid()
      requires InFlight(World(), n) && attempts[n].expired && !attempts[n].timedOut
      modifies this
      ensures Valid()
      ensures World() == Do(old(World()), TakeDeadline(n))
      ensures attempts == old(attempts[n := attempts[n].(timedOut := true, expired := false)])
    {
      attempts := attempts[n := attempts[n].(timedOut := true, expired := false)];
      trace := More(trace, TakeDeadline(n));
    }

    /** Connect up to its `connected` label, with any number of other calls in flight.
        No outcome means that the script ends while the loop still waits; a script in
        which the timer twice fires and is chosen does not. */
    method Connect(id: Id, script: Script) returns (outcome: Option<Outcome>, cancelled: bool)
      requires Valid()
      modifies this
      ensures Valid()
      ensures World() == Wait(Do(old(World()), Start(id)), |old(attempts)|, script)
      ensures |attempts| > |old(attempts)|
      ensures var at := attempts[|old(attempts)|]; at.id == id && at.timedOut == cancelled && at.outcome == outcome
      ensures cancelled <==> Occurs(trace, TakeDeadline(|old(attempts)|))
      ensures Expiries(script) >= 2 ==> outcome.Some?
      ensures outcome.Some? && OneAtATime(trace) ==> id !in pending
      ensures outcome.Some? && outcome.value.Connected? ==>
        outcome == Some(Connected(id)) && !cancelled && Announced(trace, |old(attempts)|)
    {
      hide Do, Enabled, EntriesOk, CallbacksOk, OneAtATime, Announced, Occurs, Foreign, Vacant;
      var n := Register(id);
      ghost var start := World();
      var timedOut := false;
      cancelled, outcome := false, None;
      var rest := script;
      while rest.Play? && outcome.None?
        invariant Valid()
        invariant n < |attempts| && attempts[n].id == id
        invariant attempts[n].timedOut == timedOut && attempts[n].outcome == outcome
        invariant cancelled == timedOut
        invariant Wait(start, n, script) == if outcome.None? then Wait(World(), n, rest) else World()
        invariant outcome.None? ==> Expiries(script) <= Expiries(rest) + (if timedOut then 1 else 0)
        invariant outcome.Some? && OneAtATime(trace) ==> id !in pending
        decreases rest
      {
        Interleave(rest.others, n);
        if rest.fires {
          Fire(n);
        }
        Ready(World(), n);
        if rest.choice.Timer? {
          if attempts[n].expired {
            if timedOut {
              outcome := GiveUp(n);
            } else {
              timedOut := true;
              MarkTimedOut(n);
              cancelled := true;
            }
          }
        } else {
          InvAlways(trace);
          if channels[n] != [] {
            outcome := ReadReport(n, timedOut, rest.choice.connected);
          }
        }
        rest := rest.rest;
      }
      DeadlineIsRemembered(trace, n);
      if outcome.Some? && outcome.value.Connected? {
        ConnectionIsOwnAndInTime(trace, n);
      }
    }

    method GiveUp(n: nat) returns (outcome: Option<Outcome>)
      requires Valid()
      requires InFlight(World(), n) && attempts[n].expired && attempts[n].timedOut
      modifies this
      ensures Valid()
      ensures World() == Do(old(World()), TakeDeadline(n))
      ensures outcome == Some(NoDisconnect)
      ensures attempts == old(attempts[n := attempts[n].(expired := false, outcome := Some(NoDisconnect))])
      ensures attempts[n].id !in pending
    {
      pending := pending - {attempts[n].id};
      outcome := Some(NoDisconnect);
      attempts := attempts[n := attempts[n].(expired := false, outcome := outcome)];
      trace := More(trace, TakeDeadline(n));
    }

    method ReadReport(n: nat, timedOut: bool, connected: bool) returns (outcome: Option<Outcome>)
      requires Valid()
      requires InFlight(World(), n) && attempts[n].timedOut == timedOut
      requires n < |channels| && channels[n] != []
      modifies this
      ensures Valid()
      ensures World() == Do(old(World()), Receive(n, connected))
      ensures outcome.Some? && attempts == old(attempts[n := attempts[n].(outcome := outcome)])
      ensures OneAtATime(trace) ==> attempts[n].id !in pending
      ensures outcome == Some(TimedOut) <==> timedOut
      ensures outcome == Some(Failed) <==> !timedOut && old(channels[n][0].failed)
      ensures outcome == Some(NotConnected) <==> !timedOut && !old(channels[n][0].failed) && !connected
    {
      var res := channels[n][0];
      channels := channels[n := channels[n][1..]];
      if timedOut {
        outcome := Some(TimedOut);
      } else if res.failed {
        outcome := Some(Failed);
      } else if !connected {
        outcome := Some(NotConnected);
      } else {
        outcome := Some(Connected(res.id));
      }
      attempts := attempts[n := attempts[n].(outcome := outcome)];
      trace := More(trace, Receive(n, connected));
      if OneAtATime(trace) {
        NoEntryAfterReturn(trace, n);
      }
    }
  }
}
