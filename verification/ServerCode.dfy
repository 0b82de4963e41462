/** The code of one connection handler, in its own form: `handle` (internal/ipc/server.go)
    with its two mutexes, its registration and its deferred calls. Before each of its
    steps the other goroutines take any steps of theirs. Each method is proved to take
    a step of module Server; what is proved of that module's daemon then holds here.
    `dispatch` first takes the events of the operation as they come, among the other
    goroutines' steps, and its code in module DispatchCode then answers to them. */
module ServerCode {
  import opened Wrappers
  import D = Dispatch
  import DispatchCode
  import opened Server
  import opened ServerTheory

  /** What the other goroutines do before the handler's next look, and the event that
      dispatch then finds, when it is in dispatch. */
  datatype Script = End | Play(others: seq<Action>, event: D.TimedEvent, rest: Script)

  /** A step that is not handler `me`'s own. */
  predicate Foreign(g: Daemon, me: nat, a: Action) {
    Enabled(g, a) && !Acts(a, me)
  }

  /** What no other goroutine changes of a handler. */
  predicate SameProgress(h: Handler, h': Handler) {
    h'.req == h.req && h'.pc == h.pc && h'.reg == h.reg && h'.ran == h.ran && h'.replies == h.replies
  }

  lemma ForeignStep(g: Daemon, me: nat, a: Action)
    requires Foreign(g, me, a) && me < |g.handlers|
    ensures me < |Do(g, a).handlers| && SameProgress(g.handlers[me], Do(g, a).handlers[me])
  {
    hide Do, Enabled, HandlerAfter;
    LocksMoved(g, a);
    HandlerMoved(g, a, me);
  }

  /** An action of a handler's own replaces that handler's record and no other. */
  lemma OwnStep(g: Daemon, a: Action)
    requires Enabled(g, a) && ByHandler(a)
    requires a.CancelPrevious? ==> g.current.None? || g.current == Some(a.i)
    ensures a.i < |g.handlers| && HandlersAfter(g, a) == g.handlers[a.i := Acted(g, a, g.handlers[a.i])]
  {
    hide Acted;
  }

  lemma CancelStep(g: Daemon, i: nat)
    requires Enabled(g, CancelPrevious(i))
    requires g.current.Some? && g.current.value < |g.handlers| && g.current.value != i
    ensures
      var k := g.current.value;
      HandlersAfter(g, CancelPrevious(i)) ==
        g.handlers[k := g.handlers[k].(cancelled := true)][i := g.handlers[i].(pc := AfterCancel)]
  {
  }

  /** Outside dispatch a handler's action touches neither the desk nor the clock. */
  lemma OwnDo(g: Daemon, a: Action)
    requires Enabled(g, a) && ByHandler(a) && !a.Proceed?
    ensures
      var quit := a.Reply? && g.handlers[a.i].req.cmd.Quit?;
      Do(g, a) == g.(
        handlers := HandlersAfter(g, a),
        cancelMu := if a.LockCancel? then Some(a.i) else if a.Register? then None else g.cancelMu,
        dispatchMu := if a.LockDispatch? then Some(a.i) else if a.Unlock? then None else g.dispatchMu,
        current := if a.Register? then Some(a.i) else g.current,
        listening := g.listening && !quit,
        quit := g.quit || quit,
        registered := if a.LockCancel? then g.registered + [a.i] else g.registered,
        dispatched := if a.CheckContext? && !g.handlers[a.i].cancelled then g.dispatched + [a.i] else g.dispatched)
  {
    hide HandlersAfter, D.Next;
    assert g.wire + [] == g.wire && g.registered + [] == g.registered && g.dispatched + [] == g.dispatched;
  }

  /** What a handler outside dispatch needs to take its next step. */
  lemma CanAct(g: Daemon, a: Action)
    requires ByHandler(a) && !a.Proceed? && a.i < |g.handlers| && StartsAt(a, g.handlers[a.i].pc)
    requires a.LockCancel? ==> g.cancelMu.None?
    requires a.LockDispatch? ==> g.dispatchMu.None?
    requires a.Reply? ==> g.handlers[a.i].s.pc.Done?
    ensures Enabled(g, a)
  {
  }

  lemma Extends(t: Trace, g: Daemon, a: Action)
    requires Follow(BOOT, t) == Some(g) && Enabled(g, a)
    ensures Follow(BOOT, More(t, a)) == Some(Do(g, a))
  {
    hide Do, Enabled;
  }

  lemma NothingLeft(op: D.Op, s: D.State)
    requires s.pc.Done?
    ensures DispatchCode.Plays(op, s, DispatchCode.End) && DispatchCode.Final(op, s, DispatchCode.End) == s
  {
  }

  lemma TraceReaches(t: Trace, g: Daemon)
    requires Follow(BOOT, t) == Some(g)
    ensures Reachable(g)
  {
  }

  lemma CurrentIsAnother(g: Daemon, i: nat)
    requires Inv(g) && i < |g.handlers| && g.handlers[i].pc.InCancel? && g.current.Some?
    ensures g.current.value < |g.handlers| && g.current.value != i
  {
    hide HandlersInv, RanInv, OrderInv, RunsInv, ListenInv, WireInv;
    assert g.cancelMu == Some(i);
    HolderIsNewest(g, i);
    var n := |g.registered| - 1;
    assert g.registered[n - 1] == g.current.value;
    assert g.handlers[g.registered[n - 1]].reg == n - 1 && g.handlers[g.registered[n]].reg == n;
  }

  class Service {
    // Server
    var cancelMu: Option<nat>
    var cancelCurrent: Option<nat>
    var dispatchMu: Option<nat>
    var listening: bool
    var quitClosed: bool
    // the desk it owns
    var listeners: seq<nat>
    var statsListeners: seq<nat>
    var wire: seq<Sent>
    var now: nat
    // its goroutines, and their history
    var handlers: seq<Handler>
    var registered: seq<nat>
    var dispatched: seq<nat>
    ghost var trace: Trace

    function World(): Daemon
      reads this
    {
      Daemon(handlers, cancelMu, dispatchMu, cancelCurrent, listeners, statsListeners,
        wire, now, listening, quitClosed, registered, dispatched)
    }

    ghost predicate Valid()
      reads this
    {
      Follow(BOOT, trace) == Some(World())
    }

    /** Handler i exists and is at pc. */
    predicate IsAt(i: nat, pc: Pc)
      reads this
    {
      i < |handlers| && handlers[i].pc == pc
    }

    constructor ()
      ensures Valid() && World() == BOOT
    {
      cancelMu, cancelCurrent, dispatchMu, listening, quitClosed := None, None, None, true, false;
      listeners, statsListeners, wire, now := [], [], [], 0;
      handlers, registered, dispatched := [], [], [];
      trace := Start;
    }

    /** The other goroutines run; a step that cannot be taken is not taken. */
    method Interleave(others: seq<Action>, me: nat)
      requires Valid() && me < |handlers|
      modifies this
      ensures Valid() && me < |handlers| && SameProgress(old(handlers[me]), handlers[me])
    {
      hide Do, Enabled;
      for k := 0 to |others|
        invariant Valid() && me < |handlers| && SameProgress(old(handlers[me]), handlers[me])
      {
        var a := others[k];
        if Foreign(World(), me, a) {
          ForeignStep(World(), me, a);
          Take(a);
        }
      }
    }

    /** A step of another goroutine, or of the operation in dispatch. */
    method Take(a: Action)
      requires Valid() && Enabled(World(), a)
      modifies this
      ensures Valid() && World() == Do(old(World()), a)
    {
      hide Do, Enabled, Follow;
      var g := Do(World(), a);
      Extends(trace, World(), a);
      trace := More(trace, a);
      cancelMu, cancelCurrent, dispatchMu, listening, quitClosed := g.cancelMu, g.current, g.dispatchMu, g.listening, g.quit;
      listeners, statsListeners, wire, now := g.listeners, g.statsListeners, g.wire, g.now;
      handlers, registered, dispatched := g.handlers, g.registered, g.dispatched;
    }

    /** json.Decode: a request that does not decode is dropped without an answer. */
    method DecodeRequest(i: nat, decodes: bool)
      requires Valid() && IsAt(i, Opened)
      modifies this
      ensures Valid() && World() == Do(old(World()), if decodes then Decode(i) else Drop(i))
      ensures IsAt(i, if decodes then Decoded else Dropped)
    {
      hide Do, Follow, Enabled, HandlersAfter, D.Next;
      ghost var g := World();
      ghost var a := if decodes then Decode(i) else Drop(i);
      CanAct(g, a);
      OwnStep(g, a);
      OwnDo(g, a);
      Extends(trace, g, a);
      handlers := handlers[i := handlers[i].(pc := if decodes then Decoded else Dropped)];
      trace := More(trace, a);
    }

    /** cancelMu.Lock(), once it is free. */
    method LockCancelMu(i: nat)
      requires Valid() && IsAt(i, Decoded) && cancelMu.None?
      modifies this
      ensures Valid() && World() == Do(old(World()), LockCancel(i))
      ensures IsAt(i, InCancel)
    {
      hide Do, Follow, Enabled, HandlersAfter, D.Next;
      ghost var g := World();
      CanAct(g, LockCancel(i));
      OwnStep(g, LockCancel(i));
      OwnDo(g, LockCancel(i));
      Extends(trace, g, LockCancel(i));
      cancelMu := Some(i);
      handlers := handlers[i := handlers[i].(pc := InCancel, reg := |registered|)];
      registered := registered + [i];
      trace := More(trace, LockCancel(i));
    }

    /** if cancelCurrent != nil { cancelCurrent() } */
    method CancelPredecessor(i: nat)
      requires Valid() && IsAt(i, InCancel)
      modifies this
      ensures Valid() && World() == Do(old(World()), CancelPrevious(i))
      ensures IsAt(i, AfterCancel)
    {
      hide Do, Follow, Enabled, HandlersAfter, D.Next, Inv;
      ghost var g := World();
      TraceReaches(trace, g);
      InvReachable(g);
      CanAct(g, CancelPrevious(i));
      OwnDo(g, CancelPrevious(i));
      Extends(trace, g, CancelPrevious(i));
      if cancelCurrent.Some? {
        CurrentIsAnother(g, i);
        CancelStep(g, i);
        var k := cancelCurrent.value;
        handlers := handlers[k := handlers[k].(cancelled := true)];
      } else {
        OwnStep(g, CancelPrevious(i));
      }
      handlers := handlers[i := handlers[i].(pc := AfterCancel)];
      trace := More(trace, CancelPrevious(i));
    }

    /** cancelCurrent = cancel, and cancelMu.Unlock() */
    method RegisterOwn(i: nat)
      requires Valid() && IsAt(i, AfterCancel)
      modifies this
      ensures Valid() && World() == Do(old(World()), Register(i))
      ensures IsAt(i, Waiting)
    {
      hide Do, Follow, Enabled, HandlersAfter, D.Next;
      ghost var g := World();
      CanAct(g, Register(i));
      OwnStep(g, Register(i));
      OwnDo(g, Register(i));
      Extends(trace, g, Register(i));
      cancelCurrent := Some(i);
      cancelMu := None;
      handlers := handlers[i := handlers[i].(pc := Waiting)];
      trace := More(trace, Register(i));
    }

    /** dispatchMu.Lock(), once it is free. */
    method LockDispatchMu(i: nat)
      requires Valid() && IsAt(i, Waiting) && dispatchMu.None?
      modifies this
      ensures Valid() && World() == Do(old(World()), LockDispatch(i))
      ensures IsAt(i, Locked)
    {
      hide Do, Follow, Enabled, HandlersAfter, D.Next;
      ghost var g := World();
      CanAct(g, LockDispatch(i));
      OwnStep(g, LockDispatch(i));
      OwnDo(g, LockDispatch(i));
      Extends(trace, g, LockDispatch(i));
      dispatchMu := Some(i);
      handlers := handlers[i := handlers[i].(pc := Locked)];
      trace := More(trace, LockDispatch(i));
    }

    /** if ctx.Err() != nil, answer that a newer command preempted this one. */
    method CheckOwnContext(i: nat) returns (preempted: bool)
      requires Valid() && IsAt(i, Locked)
      modifies this
      ensures Valid() && World() == Do(old(World()), CheckContext(i))
      ensures preempted == old(handlers[i].cancelled)
      ensures IsAt(i, if preempted then Replied else Running)
    {
      hide Do, Follow, Enabled, HandlersAfter, D.Next;
      ghost var g := World();
      CanAct(g, CheckContext(i));
      OwnStep(g, CheckContext(i));
      OwnDo(g, CheckContext(i));
      Extends(trace, g, CheckContext(i));
      var h := handlers[i];
      preempted := h.cancelled;
      if preempted {
        handlers := handlers[i := h.(pc := Replied, replies := h.replies + [D.Preempted])];
      } else {
        handlers := handlers[i := h.(pc := Running, ran := true, run := D.Begin(now), s := D.Initial(OpFor(h), now))];
        dispatched := dispatched + [i];
      }
      trace := More(trace, CheckContext(i));
    }

    /** dispatch(ctx, req), on the events that the operation met: its code returns the
        response that the daemon's history records, having written the same commands. */
    method RunDispatch(i: nat, timersDiscard: bool) returns (resp: D.Response, written: seq<D.Entry>)
      requires Valid() && IsAt(i, Running) && handlers[i].s.pc.Done?
      ensures handlers[i].s.pc == D.Done(resp) && handlers[i].s.wire == written
    {
      hide D.Exec, D.Next, D.Step, DispatchCode.Plays, DispatchCode.Final;
      Settle(i);
      var h := handlers[i];
      var start, script := DispatchCode.StartOf(h.run), DispatchCode.Replay(h.run, DispatchCode.End);
      NothingLeft(OpFor(h), h.s);
      DispatchCode.EveryRunIsPlayed(OpFor(h), h.run, h.s, DispatchCode.End);
      var session := new DispatchCode.Session(h.req, start, script, timersDiscard);
      resp := session.Run(h.req);
      written := session.wire;
    }

    /** Encode the response; a quit command then closes quitCh and the listener. */
    method Respond(i: nat, resp: D.Response)
      requires Valid() && IsAt(i, Running) && handlers[i].s.pc == D.Done(resp)
      modifies this
      ensures Valid() && World() == Do(old(World()), Reply(i))
      ensures IsAt(i, Replied)
    {
      hide Do, Follow, Enabled, HandlersAfter, D.Next;
      ghost var g := World();
      CanAct(g, Reply(i));
      OwnStep(g, Reply(i));
      OwnDo(g, Reply(i));
      Extends(trace, g, Reply(i));
      var h := handlers[i];
      handlers := handlers[i := h.(pc := Replied, replies := h.replies + [resp])];
      if h.req.cmd.Quit? {
        quitClosed := true;
        listening := false;
      }
      trace := More(trace, Reply(i));
    }

    /** The deferred dispatchMu.Unlock(). */
    method UnlockDispatchMu(i: nat)
      requires Valid() && IsAt(i, Replied)
      modifies this
      ensures Valid() && World() == Do(old(World()), Unlock(i))
      ensures IsAt(i, Unlocked)
    {
      hide Do, Follow, Enabled, HandlersAfter, D.Next;
      ghost var g := World();
      CanAct(g, Unlock(i));
      OwnStep(g, Unlock(i));
      OwnDo(g, Unlock(i));
      Extends(trace, g, Unlock(i));
      dispatchMu := None;
      handlers := handlers[i := handlers[i].(pc := Unlocked)];
      trace := More(trace, Unlock(i));
    }

    /** The deferred cancel(). */
    method CancelContext(i: nat)
      requires Valid() && IsAt(i, Unlocked)
      modifies this
      ensures Valid() && World() == Do(old(World()), CancelOwn(i))
      ensures IsAt(i, Closed)
    {
      hide Do, Follow, Enabled, HandlersAfter, D.Next;
      ghost var g := World();
      CanAct(g, CancelOwn(i));
      OwnStep(g, CancelOwn(i));
      OwnDo(g, CancelOwn(i));
      Extends(trace, g, CancelOwn(i));
      handlers := handlers[i := handlers[i].(pc := Closed, cancelled := true)];
      trace := More(trace, CancelOwn(i));
    }

    /** Before its next step a handler may be set aside for a while. */
    method Yield(i: nat, script: Script) returns (rest: Script)
      requires Valid() && i < |handlers|
      modifies this
      ensures Valid() && i < |handlers| && SameProgress(old(handlers[i]), handlers[i])
      ensures if script.Play? then rest == script.rest else rest == End
    {
      rest := End;
      if script.Play? {
        Interleave(script.others, i);
        rest := script.rest;
      }
    }

    /** The operation's events, until its response is ready. */
    method Dispatch(i: nat, script: Script) returns (rest: Script)
      requires Valid() && IsAt(i, Running)
      modifies this
      ensures Valid() && IsAt(i, Running)
      ensures !handlers[i].s.pc.Done? ==> rest.End?
    {
      hide Do, Enabled, Follow, HandlerAfter;
      rest := script;
      while !handlers[i].s.pc.Done? && rest.Play?
        invariant Valid() && IsAt(i, Running)
        decreases rest
      {
        Interleave(rest.others, i);
        var a := Proceed(i, rest.event);
        if Enabled(World(), a) {
          HandlerMoved(World(), a, i);
          LocksMoved(World(), a);
          Take(a);
        }
        rest := rest.rest;
      }
    }

    /** The section under cancelMu. */
    method Preempt(i: nat, script: Script) returns (rest: Script)
      requires Valid() && IsAt(i, Decoded)
      modifies this
      ensures Valid() && i < |handlers|
      ensures handlers[i].pc.Waiting? || (handlers[i].pc.Decoded? && cancelMu.Some?)
    {
      hide Do, Enabled, Follow, HandlerAfter;
      rest := script;
      while cancelMu.Some? && rest.Play?
        invariant Valid() && IsAt(i, Decoded)
        decreases rest
      {
        rest := Yield(i, rest);
      }
      if cancelMu.None? {
        LockCancelMu(i);
        rest := Yield(i, rest);
        CancelPredecessor(i);
        rest := Yield(i, rest);
        RegisterOwn(i);
        rest := Yield(i, rest);
      }
    }

    /** The section under dispatchMu, up to the response. */
    method Answer(i: nat, timersDiscard: bool, script: Script) returns (rest: Script)
      requires Valid() && IsAt(i, Waiting)
      modifies this
      ensures Valid() && i < |handlers|
      ensures handlers[i].pc.Replied? || (handlers[i].pc in {Waiting, Running} && dispatchMu.Some?)
    {
      hide Do, Enabled, Follow, HandlerAfter, Inv, D.Exec;
      rest := script;
      while dispatchMu.Some? && rest.Play?
        invariant Valid() && IsAt(i, Waiting)
        decreases rest
      {
        rest := Yield(i, rest);
      }
      if dispatchMu.None? {
        LockDispatchMu(i);
        rest := Yield(i, rest);
        var preempted := CheckOwnContext(i);
        if !preempted {
          rest := Dispatch(i, rest);
          if handlers[i].s.pc.Done? {
            var resp, _ := RunDispatch(i, timersDiscard);
            Respond(i, resp);
          } else {
            Settle(i);
          }
        }
      }
    }

    /** The deferred calls. */
    method Leave(i: nat, script: Script)
      requires Valid() && IsAt(i, Replied)
      modifies this
      ensures Valid() && IsAt(i, Closed)
    {
      hide Do, Enabled, Follow, HandlerAfter, Valid, World;
      var rest := Yield(i, script);
      UnlockDispatchMu(i);
      rest := Yield(i, rest);
      CancelContext(i);
    }

    /** handle. If the script does not leave it waiting for a mutex or for its
        operation, the handler is through: it holds no mutex, and a request that
        decoded got exactly one response. */
    method Handle(i: nat, decodes: bool, timersDiscard: bool, script: Script) returns (finished: bool)
      requires Valid() && IsAt(i, Opened)
      modifies this
      ensures Valid() && i < |handlers|
      ensures finished ==> IsAt(i, if decodes then Closed else Dropped)
      ensures finished ==> cancelMu != Some(i) && dispatchMu != Some(i)
      ensures finished && !decodes ==> handlers[i].replies == []
      ensures finished && decodes ==> handlers[i].cancelled && RightlyAnswered(i)
      ensures !finished ==> cancelMu.Some? || dispatchMu.Some?
    {
      hide Do, Enabled, Follow, HandlerAfter, Inv, RightlyAnswered, Valid, World;
      finished := true;
      var rest := Yield(i, script);
      DecodeRequest(i, decodes);
      if decodes {
        rest := Yield(i, rest);
        rest := Preempt(i, rest);
        if handlers[i].pc.Decoded? {
          return false;
        }
        rest := Answer(i, timersDiscard, rest);
        if !handlers[i].pc.Replied? {
          return false;
        }
        Leave(i, rest);
      }
      Settle(i);
    }

    /** One response: the result of its dispatch, or that a newer request preempted it. */
    ghost predicate RightlyAnswered(i: nat)
      requires i < |handlers|
      reads this
    {
      var h := handlers[i];
      if h.ran then D.Reaches(OpFor(h), h.run, h.s) && h.s.pc.Done? && h.replies == [h.s.pc.resp]
      else h.replies == [D.Preempted] && h.reg + 1 < |registered|
    }

    /** What the daemon's invariant says of a handler. */
    lemma Settle(i: nat)
      requires Valid() && i < |handlers|
      ensures cancelMu == Some(i) <==> HoldsCancel(handlers[i].pc)
      ensures dispatchMu == Some(i) <==> HoldsDispatch(handlers[i].pc)
      ensures !Answered(handlers[i].pc) ==> handlers[i].replies == []
      ensures handlers[i].pc.Running? ==> D.Reaches(OpFor(handlers[i]), handlers[i].run, handlers[i].s)
      ensures handlers[i].pc.Closed? ==> handlers[i].cancelled
      ensures Answered(handlers[i].pc) ==> RightlyAnswered(i)
    {
      hide D.Exec, D.Reaches, RanInv, OrderInv, ListenInv, WireInv;
      TraceReaches(trace, World());
      InvReachable(World());
      assert HandlerInv(handlers[i]) && RegHandlerInv(World(), i, handlers[i]);
    }
  }
}
