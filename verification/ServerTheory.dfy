/** What every interleaving of the daemon's goroutines keeps. */
module ServerTheory {
  import opened Wrappers
  import D = Dispatch
  import DT = DispatchTheory
  import Registry
  import opened Server

  // ---------- the invariant ----------

  predicate HoldsCancel(pc: Pc) {
    pc.InCancel? || pc.AfterCancel?
  }

  predicate HoldsDispatch(pc: Pc) {
    pc.Locked? || pc.Running? || pc.Replied?
  }

  /** Has entered the critical section under cancelMu. */
  predicate Entered(pc: Pc) {
    !pc.Opened? && !pc.Dropped? && !pc.Decoded?
  }

  predicate Answered(pc: Pc) {
    pc.Replied? || pc.Unlocked? || pc.Closed?
  }

  /** A mutex is held by the handlers in its critical section, so by at most one. */
  ghost predicate LockInv(g: Daemon) {
    && (g.cancelMu.Some? ==> g.cancelMu.value < |g.handlers|)
    && (g.dispatchMu.Some? ==> g.dispatchMu.value < |g.handlers|)
    && forall i :: 0 <= i < |g.handlers| ==>
         && (HoldsCancel(g.handlers[i].pc) <==> g.cancelMu == Some(i))
         && (HoldsDispatch(g.handlers[i].pc) <==> g.dispatchMu == Some(i))
  }

  /** What one handler's program counter says of it. */
  predicate HandlerInv(h: Handler) {
    && (h.pc.Closed? ==> h.cancelled)
    && (if Answered(h.pc) then
          |h.replies| == 1 &&
          if h.ran then h.s.pc.Done? && h.replies[0] == h.s.pc.resp else h.cancelled && h.replies[0] == D.Preempted
        else
          h.replies == [] && (h.ran <==> h.pc.Running?))
  }

  ghost predicate HandlersInv(g: Daemon) {
    forall i :: 0 <= i < |g.handlers| ==> HandlerInv(g.handlers[i])
  }

  /** The newest handler to enter is still before cancelling its predecessor. */
  predicate Pending(g: Daemon) {
    g.registered != [] && g.registered[|g.registered| - 1] < |g.handlers|
    && g.handlers[g.registered[|g.registered| - 1]].pc.InCancel?
  }

  /** A newer handler has cancelled this one. */
  predicate Superseded(g: Daemon, h: Handler) {
    h.reg + (if Pending(g) then 2 else 1) < |g.registered|
  }

  predicate RegHandlerInv(g: Daemon, i: nat, h: Handler) {
    var n := |g.registered|;
    if Entered(h.pc) then
      && h.reg < n && g.registered[h.reg] == i
      && (HoldsCancel(h.pc) ==> h.reg == n - 1)
      && (!h.pc.Closed? ==> (h.cancelled <==> Superseded(g, h)))
      && (Answered(h.pc) && !h.ran ==> h.reg + 1 < n)
    else
      !h.cancelled
  }

  /** Registration numbers name positions in `registered`; cancelCurrent belongs to
      the newest registered handler; and an unfinished handler is cancelled exactly
      when it has been superseded. */
  ghost predicate RegInv(g: Daemon) {
    var n := |g.registered|;
    && (forall k :: 0 <= k < n ==>
          g.registered[k] < |g.handlers| && g.handlers[g.registered[k]].reg == k
          && Entered(g.handlers[g.registered[k]].pc))
    && (forall i :: 0 <= i < |g.handlers| ==> RegHandlerInv(g, i, g.handlers[i]))
    && g.current == Newest(g)
  }

  /** Whose cancel function cancelCurrent is. */
  function Newest(g: Daemon): Option<nat> {
    var n := |g.registered| - if g.cancelMu.Some? then 1 else 0;
    if n <= 0 then None else Some(g.registered[n - 1])
  }

  // ---------- what an action changes ----------

  function PcAfter(h: Handler, a: Action): Pc {
    match a
    case Drop(_) => Dropped
    case Decode(_) => Decoded
    case LockCancel(_) => InCancel
    case CancelPrevious(_) => AfterCancel
    case Register(_) => Waiting
    case LockDispatch(_) => Locked
    case CheckContext(_) => if h.cancelled then Replied else Running
    case Reply(_) => Replied
    case Unlock(_) => Unlocked
    case CancelOwn(_) => Closed
    case _ => h.pc
  }

  predicate Acts(a: Action, k: nat) {
    ByHandler(a) && a.i == k
  }

  /** Handler k across an action, but for the progress of its dispatch. */
  predicate Moved(g: Daemon, a: Action, k: nat, h: Handler, h': Handler) {
    && h'.req == h.req
    && h'.pc == (if Acts(a, k) then PcAfter(h, a) else h.pc)
    && h'.cancelled == (h.cancelled || a == CancelOwn(k) || (a.CancelPrevious? && g.current == Some(k) && a.i != k))
    && h'.reg == (if a == LockCancel(k) then |g.registered| else h.reg)
    && h'.ran == (h.ran || (a == CheckContext(k) && !h.cancelled))
    && (a == Reply(k) ==> h'.s == h.s && h.s.pc.Done?)
    && h'.replies == (if a == CheckContext(k) && h.cancelled then h.replies + [D.Preempted]
                      else if a == Reply(k) then h.replies + [h'.s.pc.resp]
                      else h.replies)
    && (!h.pc.Running? && a != CheckContext(k) ==> h'.s == h.s)
  }

  lemma HandlerMoved(g: Daemon, a: Action, k: nat)
    requires Enabled(g, a) && k < |g.handlers|
    ensures Do(g, a).handlers[k] == HandlerAfter(g, a, k)
    ensures Moved(g, a, k, g.handlers[k], HandlerAfter(g, a, k))
  {
    hide D.Next, Writes, RegistryAfter, CapturedIndex;
  }

  /** The rest of the daemon that the protocol reads. */
  lemma LocksMoved(g: Daemon, a: Action)
    requires Enabled(g, a)
    ensures var g' := Do(g, a);
            && |g'.handlers| == |g.handlers| + (if a.Accept? then 1 else 0)
            && (a.Accept? ==> g'.handlers[|g.handlers|] == NewHandler(a.req))
            && g'.cancelMu == (if a.LockCancel? then Some(a.i) else if a.Register? then None else g.cancelMu)
            && g'.dispatchMu == (if a.LockDispatch? then Some(a.i) else if a.Unlock? then None else g.dispatchMu)
            && g'.current == (if a.Register? then Some(a.i) else g.current)
            && g'.registered == (if a.LockCancel? then g.registered + [a.i] else g.registered)
            && g'.dispatched == if a.CheckContext? && !g.handlers[a.i].cancelled then g.dispatched + [a.i] else g.dispatched
    ensures ByHandler(a) ==> a.i < |g.handlers| && StartsAt(a, g.handlers[a.i].pc)
    ensures a.LockCancel? ==> g.cancelMu.None?
    ensures a.LockDispatch? ==> g.dispatchMu.None?
  {
    hide D.Next, Writes, RegistryAfter, CapturedIndex;
    assert g.registered + [] == g.registered && g.dispatched + [] == g.dispatched;
  }

  // ---------- locks and handlers ----------

  lemma LockStep(g: Daemon, a: Action)
    requires LockInv(g) && Enabled(g, a)
    ensures LockInv(Do(g, a))
  {
    hide Enabled, Do, HandlerAfter;
    var g' := Do(g, a);
    LocksMoved(g, a);
    forall i | 0 <= i < |g'.handlers|
      ensures HoldsCancel(g'.handlers[i].pc) <==> g'.cancelMu == Some(i)
      ensures HoldsDispatch(g'.handlers[i].pc) <==> g'.dispatchMu == Some(i)
    {
      if i < |g.handlers| {
        HandlerMoved(g, a, i);
      }
    }
  }

  lemma HandlersStep(g: Daemon, a: Action)
    requires LockInv(g) && HandlersInv(g) && RegInv(g) && Enabled(g, a)
    ensures HandlersInv(Do(g, a))
  {
    hide Enabled, Do, HandlerAfter, RegInv;
    var g' := Do(g, a);
    LocksMoved(g, a);
    forall i | 0 <= i < |g'.handlers|
      ensures HandlerInv(g'.handlers[i])
    {
      if i < |g.handlers| {
        HandlerMoved(g, a, i);
        assert HandlerInv(g.handlers[i]);
      }
    }
  }

  // ---------- registration ----------

  lemma RegisteredName(g: Daemon, k: nat)
    requires RegInv(g) && k < |g.registered|
    ensures g.registered[k] < |g.handlers|
  {
  }

  lemma HolderIsNewest(g: Daemon, i: nat)
    requires RegInv(g) && i < |g.handlers| && HoldsCancel(g.handlers[i].pc)
    ensures g.registered != [] && g.registered[|g.registered| - 1] == i
  {
    assert RegHandlerInv(g, i, g.handlers[i]);
  }

  lemma PendingStep(g: Daemon, a: Action)
    requires RegInv(g) && Enabled(g, a)
    ensures Pending(Do(g, a)) <==> a.LockCancel? || (Pending(g) && !a.CancelPrevious?)
  {
    hide Enabled, Do, HandlerAfter, RegInv;
    var g' := Do(g, a);
    LocksMoved(g, a);
    if a.CancelPrevious? {
      HolderIsNewest(g, a.i);
    }
    if g.registered != [] {
      RegisteredName(g, |g.registered| - 1);
    }
    if g'.registered != [] {
      HandlerMoved(g, a, g'.registered[|g'.registered| - 1]);
    }
  }

  lemma RegisteredStep(g: Daemon, a: Action)
    requires LockInv(g) && RegInv(g) && Enabled(g, a)
    ensures var g' := Do(g, a);
            forall k :: 0 <= k < |g'.registered| ==>
              g'.registered[k] < |g'.handlers| && g'.handlers[g'.registered[k]].reg == k
              && Entered(g'.handlers[g'.registered[k]].pc)
  {
    hide Enabled, Do, HandlerAfter, Newest, Superseded;
    var g' := Do(g, a);
    LocksMoved(g, a);
    forall k | 0 <= k < |g'.registered|
      ensures g'.registered[k] < |g'.handlers| && g'.handlers[g'.registered[k]].reg == k
      ensures Entered(g'.handlers[g'.registered[k]].pc)
    {
      HandlerMoved(g, a, g'.registered[k]);
    }
  }

  lemma SupersededStep(g: Daemon, a: Action, i: nat)
    requires LockInv(g) && RegInv(g) && Enabled(g, a) && i < |g.handlers| && Entered(g.handlers[i].pc)
    ensures Superseded(Do(g, a), HandlerAfter(g, a, i)) <==>
            Superseded(g, g.handlers[i]) || (a.CancelPrevious? && g.current == Some(i))
  {
    hide Enabled, Do, HandlerAfter, Pending;
    LocksMoved(g, a);
    HandlerMoved(g, a, i);
    PendingStep(g, a);
    PendingHoldsCancel(g);
    assert RegHandlerInv(g, i, g.handlers[i]);
    if ByHandler(a) {
      assert RegHandlerInv(g, a.i, g.handlers[a.i]);
    }
  }

  lemma PendingHoldsCancel(g: Daemon)
    requires LockInv(g) && RegInv(g)
    ensures Pending(g) <==> g.registered != [] && g.cancelMu.Some? && g.handlers[g.cancelMu.value].pc.InCancel?
  {
    if g.cancelMu.Some? {
      assert RegHandlerInv(g, g.cancelMu.value, g.handlers[g.cancelMu.value]);
    }
  }

  lemma RegHandlerStep(g: Daemon, a: Action, i: nat)
    requires LockInv(g) && HandlersInv(g) && RegInv(g) && Enabled(g, a) && i < |g.handlers|
    ensures RegHandlerInv(Do(g, a), i, HandlerAfter(g, a, i))
  {
    hide Enabled, Do, HandlerAfter, Pending, Superseded;
    LocksMoved(g, a);
    HandlerMoved(g, a, i);
    assert RegHandlerInv(g, i, g.handlers[i]) && HandlerInv(g.handlers[i]);
    if Entered(g.handlers[i].pc) {
      SupersededStep(g, a, i);
      SupersededMeans(g, g.handlers[i]);
      SupersededMeans(Do(g, a), HandlerAfter(g, a, i));
    } else if a == LockCancel(i) {
      PendingStep(g, a);
      FreshNotSuperseded(Do(g, a), HandlerAfter(g, a, i));
    }
  }

  lemma SupersededMeans(g: Daemon, h: Handler)
    ensures Superseded(g, h) ==> h.reg + 1 < |g.registered|
  {
  }

  lemma FreshNotSuperseded(g: Daemon, h: Handler)
    requires h.reg + 1 == |g.registered|
    ensures !Superseded(g, h)
  {
  }

  lemma CurrentStep(g: Daemon, a: Action)
    requires LockInv(g) && RegInv(g) && Enabled(g, a)
    ensures Do(g, a).current == Newest(Do(g, a))
  {
    hide Enabled, Do, HandlerAfter, Pending, Superseded;
    LocksMoved(g, a);
    if ByHandler(a) {
      assert RegHandlerInv(g, a.i, g.handlers[a.i]);
    }
  }

  lemma RegStep(g: Daemon, a: Action)
    requires LockInv(g) && HandlersInv(g) && RegInv(g) && Enabled(g, a)
    ensures RegInv(Do(g, a))
  {
    hide Enabled, Do, HandlerAfter, Pending, Superseded, RegHandlerInv;
    var g' := Do(g, a);
    LocksMoved(g, a);
    RegisteredStep(g, a);
    CurrentStep(g, a);
    forall i | 0 <= i < |g'.handlers|
      ensures RegHandlerInv(g', i, g'.handlers[i])
    {
      if i < |g.handlers| {
        HandlerMoved(g, a, i);
        RegHandlerStep(g, a, i);
      } else {
        NewcomerInv(g', i, a.req);
      }
    }
  }

  lemma NewcomerInv(g: Daemon, i: nat, req: D.Request)
    ensures RegHandlerInv(g, i, NewHandler(req))
  {
  }

  // ---------- turns ----------

  /** `dispatched` lists the handlers that were dispatched, the running one last. */
  ghost predicate RanInv(g: Daemon) {
    var n := |g.dispatched|;
    && (forall k :: 0 <= k < n ==> g.dispatched[k] < |g.handlers| && g.handlers[g.dispatched[k]].ran)
    && (forall i :: 0 <= i < |g.handlers| && g.handlers[i].ran ==> i in g.dispatched)
    && (forall i :: 0 <= i < |g.handlers| && g.handlers[i].pc.Running? ==> n > 0 && g.dispatched[n - 1] == i)
  }

  /** Dispatches happen in registration order. */
  ghost predicate OrderInv(g: Daemon)
    requires RanInv(g)
  {
    forall j, k :: 0 <= j < k < |g.dispatched| ==>
      g.handlers[g.dispatched[j]].reg < g.handlers[g.dispatched[k]].reg
  }

  /** A handler found uncancelled under dispatchMu registered after every dispatched one. */
  lemma DispatchedAreOlder(g: Daemon, i: nat, j: nat)
    requires LockInv(g) && HandlersInv(g) && RegInv(g)
    requires i < |g.handlers| && g.handlers[i].pc.Locked? && !g.handlers[i].cancelled
    requires j < |g.handlers| && g.handlers[j].ran
    ensures g.handlers[j].reg < g.handlers[i].reg
  {
    assert RegHandlerInv(g, i, g.handlers[i]) && HandlerInv(g.handlers[i]);
    assert RegHandlerInv(g, j, g.handlers[j]) && HandlerInv(g.handlers[j]);
  }

  lemma RanStep(g: Daemon, a: Action)
    requires LockInv(g) && HandlersInv(g) && RanInv(g) && Enabled(g, a)
    ensures RanInv(Do(g, a))
  {
    hide Enabled, Do, HandlerAfter, LockInv;
    var g' := Do(g, a);
    var n := |g'.dispatched|;
    LocksMoved(g, a);
    forall k | 0 <= k < n
      ensures g'.dispatched[k] < |g'.handlers| && g'.handlers[g'.dispatched[k]].ran
    {
      HandlerMoved(g, a, g'.dispatched[k]);
    }
    forall i | 0 <= i < |g'.handlers|
      ensures g'.handlers[i].ran ==> i in g'.dispatched
      ensures g'.handlers[i].pc.Running? ==> n > 0 && g'.dispatched[n - 1] == i
    {
      if i < |g.handlers| {
        HandlerMoved(g, a, i);
        OnlyOneDispatching(g, a, i);
      }
    }
  }

  lemma OnlyOneDispatching(g: Daemon, a: Action, i: nat)
    requires LockInv(g) && i < |g.handlers|
    ensures ByHandler(a) && a.i < |g.handlers| && HoldsDispatch(g.handlers[a.i].pc) && HoldsDispatch(g.handlers[i].pc) ==> a.i == i
  {
  }

  lemma RegKept(g: Daemon, a: Action, i: nat)
    requires HandlersInv(g) && Enabled(g, a) && i < |g.handlers| && g.handlers[i].ran
    ensures i < |Do(g, a).handlers| && Do(g, a).handlers[i].reg == g.handlers[i].reg
  {
    hide Enabled, Do, HandlerAfter;
    LocksMoved(g, a);
    HandlerMoved(g, a, i);
    assert HandlerInv(g.handlers[i]);
  }

  lemma OrderStep(g: Daemon, a: Action)
    requires LockInv(g) && HandlersInv(g) && RegInv(g) && RanInv(g) && OrderInv(g) && Enabled(g, a)
    requires RanInv(Do(g, a))
    ensures OrderInv(Do(g, a))
  {
    hide Enabled, Do, HandlerAfter, RegInv, LockInv, HandlersInv, Moved;
    var g' := Do(g, a);
    LocksMoved(g, a);
    forall j, k | 0 <= j < k < |g'.dispatched|
      ensures g'.handlers[g'.dispatched[j]].reg < g'.handlers[g'.dispatched[k]].reg
    {
      RegKept(g, a, g.dispatched[j]);
      if k < |g.dispatched| {
        RegKept(g, a, g.dispatched[k]);
      } else {
        NewestDispatch(g, a, g.dispatched[j]);
      }
    }
  }

  lemma NewestDispatch(g: Daemon, a: Action, j: nat)
    requires LockInv(g) && HandlersInv(g) && RegInv(g) && Enabled(g, a)
    requires a.CheckContext? && !g.handlers[a.i].cancelled && j < |g.handlers| && g.handlers[j].ran
    ensures g.handlers[j].reg < Do(g, a).handlers[a.i].reg
  {
    hide Do, HandlerAfter, RegInv, LockInv, HandlersInv;
    HandlerMoved(g, a, a.i);
    DispatchedAreOlder(g, a.i, j);
  }

  // ---------- dispatches ----------

  /** Every dispatch so far is a run of its own operation. */
  ghost predicate RunsInv(g: Daemon) {
    forall i :: 0 <= i < |g.handlers| && g.handlers[i].ran ==>
      D.Reaches(OpFor(g.handlers[i]), g.handlers[i].run, g.handlers[i].s)
  }

  /** Handler k's dispatch across an action. */
  predicate Progressed(g: Daemon, a: Action, k: nat, h: Handler, h': Handler) {
    if a == CheckContext(k) && !h.cancelled then h'.run == D.Begin(g.now) && h'.s == D.Initial(OpFor(h), g.now)
    else
      || (h'.run == h.run && h'.s == h.s)
      || (h.pc.Running? && h'.run.Then? && h'.run.before == h.run && D.Next(OpFor(h), h.s, h'.run.event) == Some(h'.s)
          && (if a.Proceed? && a.i == k then h'.run.event == a.e else IsReport(h'.run.event.ev)))
  }

  lemma HandlerProgressed(g: Daemon, a: Action, k: nat)
    requires Enabled(g, a) && k < |g.handlers|
    ensures Progressed(g, a, k, g.handlers[k], HandlerAfter(g, a, k))
    ensures a.Proceed? && a.i == k ==>
              HandlerAfter(g, a, k).run == D.Then(g.handlers[k].run, a.e)
              && D.Next(OpFor(g.handlers[k]), g.handlers[k].s, a.e) == Some(HandlerAfter(g, a, k).s)
              && HandlerAfter(g, a, k).idx == CapturedIndex(g, g.handlers[k], a.e.ev)
    ensures !(a.Proceed? && a.i == k) ==> HandlerAfter(g, a, k).idx == g.handlers[k].idx
  {
    hide D.Next, CapturedIndex;
  }

  lemma RunsStep(g: Daemon, a: Action)
    requires HandlersInv(g) && RunsInv(g) && Enabled(g, a)
    ensures RunsInv(Do(g, a))
  {
    hide Enabled, Do, HandlerAfter, D.Next;
    var g' := Do(g, a);
    LocksMoved(g, a);
    forall i | 0 <= i < |g'.handlers| && g'.handlers[i].ran
      ensures D.Reaches(OpFor(g'.handlers[i]), g'.handlers[i].run, g'.handlers[i].s)
    {
      if i < |g.handlers| {
        HandlerMoved(g, a, i);
        HandlerProgressed(g, a, i);
        assert HandlerInv(g.handlers[i]);
      }
    }
  }

  // ---------- the listener registries ----------

  /** The listener the running dispatch has registered, in the registry asked for. */
  function Listening(g: Daemon, stats: bool): seq<nat> {
    if g.dispatchMu.Some? && g.dispatchMu.value < |g.handlers| then
      var h := g.handlers[g.dispatchMu.value];
      if h.pc.Running? && h.s.ears.listening && OpFor(h).ReadStats? == stats then [g.dispatchMu.value] else []
    else []
  }

  /** Each registry holds the running dispatch's listener or nothing at all, and that
      listener's cancel function captured index 0. */
  ghost predicate ListenInv(g: Daemon) {
    && g.listeners == Listening(g, false)
    && g.statsListeners == Listening(g, true)
    && forall i :: 0 <= i < |g.handlers| && g.handlers[i].pc.Running? && g.handlers[i].s.ears.listening ==>
         g.handlers[i].idx == 0
  }

  lemma RegistryMoved(g: Daemon, a: Action)
    requires Enabled(g, a)
    ensures Do(g, a).listeners == RegistryAfter(g, g.listeners, a, false)
    ensures Do(g, a).statsListeners == RegistryAfter(g, g.statsListeners, a, true)
  {
    hide D.Next, Writes;
  }

  /** A step of a dispatch registers or cancels its own listener and nobody else's. */
  lemma ListenProceed(g: Daemon, a: Action, stats: bool)
    requires LockInv(g) && RunsInv(g) && HandlersInv(g) && ListenInv(g) && Enabled(g, a) && a.Proceed?
    ensures RegistryAfter(g, if stats then g.statsListeners else g.listeners, a, stats) == Listening(Do(g, a), stats)
    ensures HandlerAfter(g, a, a.i).s.ears.listening ==> HandlerAfter(g, a, a.i).idx == 0
  {
    hide D.Next, Do, HandlerAfter, D.Step;
    var h := g.handlers[a.i];
    LocksMoved(g, a);
    HandlerMoved(g, a, a.i);
    HandlerProgressed(g, a, a.i);
    NextListens(OpFor(h), h.run, h.s, a.e);
  }

  lemma NextListens(op: D.Op, run: D.Run, s: D.State, e: D.TimedEvent)
    requires D.Reaches(op, run, s) && D.Next(op, s, e).Some?
    ensures var l' := D.Next(op, s, e).value.ears.listening;
            l' == (e.ev.Added? || (s.ears.listening && !e.ev.Removed?))
    ensures e.ev.Added? ==> !s.ears.listening
    ensures e.ev.Removed? ==> s.ears.listening
  {
    hide D.Step;
    DT.ListenReached(op, run, s);
    DT.ListenEvents(op, s.(now := e.at), e.ev);
  }

  /** Anything but a step of the dispatch itself leaves its listening alone. */
  lemma ListeningKept(g: Daemon, a: Action, i: nat)
    requires HandlersInv(g) && RunsInv(g) && Enabled(g, a) && !a.Proceed? && i < |g.handlers|
    requires HandlerAfter(g, a, i).pc.Running? || g.handlers[i].pc.Running?
    ensures HandlerAfter(g, a, i).pc.Running? && HandlerAfter(g, a, i).s.ears.listening <==>
            g.handlers[i].pc.Running? && g.handlers[i].s.ears.listening
    ensures HandlerAfter(g, a, i).idx == g.handlers[i].idx
  {
    hide D.Next, Do, HandlerAfter, D.Step, Enabled;
    var h, h' := g.handlers[i], HandlerAfter(g, a, i);
    assert HandlerInv(h);
    LocksMoved(g, a);
    HandlerMoved(g, a, i);
    HandlerProgressed(g, a, i);
    if h.pc.Running? {
      if h'.run.Then? && h'.run.before == h.run && D.Next(OpFor(h), h.s, h'.run.event).Some? {
        NextListens(OpFor(h), h.run, h.s, h'.run.event);
      }
      if a == Reply(i) {
        ReplyMeansDone(g, a);
        DoneNotListening(OpFor(h), h.run, h.s);
      }
    }
  }

  lemma ReplyMeansDone(g: Daemon, a: Action)
    requires Enabled(g, a) && a.Reply?
    ensures g.handlers[a.i].s.pc.Done?
  {
  }

  lemma DoneNotListening(op: D.Op, run: D.Run, s: D.State)
    requires D.Reaches(op, run, s) && s.pc.Done?
    ensures !s.ears.listening
  {
    hide D.Step;
    DT.ListenReached(op, run, s);
  }

  lemma ListeningSame(g: Daemon, a: Action, stats: bool)
    requires LockInv(g) && HandlersInv(g) && RunsInv(g) && Enabled(g, a) && !a.Proceed?
    ensures Listening(Do(g, a), stats) == Listening(g, stats)
  {
    hide D.Next, Do, HandlerAfter, Enabled;
    var g' := Do(g, a);
    LocksMoved(g, a);
    if g.dispatchMu.Some? {
      var m := g.dispatchMu.value;
      HandlerMoved(g, a, m);
      if g.handlers[m].pc.Running? || g'.handlers[m].pc.Running? {
        ListeningKept(g, a, m);
      }
    } else if a.LockDispatch? {
      HandlerMoved(g, a, a.i);
    }
  }

  lemma ListenStep(g: Daemon, a: Action)
    requires LockInv(g) && HandlersInv(g) && RunsInv(g) && ListenInv(g) && Enabled(g, a)
    ensures ListenInv(Do(g, a))
  {
    hide D.Next, Do, HandlerAfter, Enabled, Listening;
    var g' := Do(g, a);
    LocksMoved(g, a);
    RegistryMoved(g, a);
    if a.Proceed? {
      ListenProceed(g, a, false);
      ListenProceed(g, a, true);
    } else {
      ListeningSame(g, a, false);
      ListeningSame(g, a, true);
    }
    forall i | 0 <= i < |g'.handlers| && g'.handlers[i].pc.Running? && g'.handlers[i].s.ears.listening
      ensures g'.handlers[i].idx == 0
    {
      if i < |g.handlers| {
        HandlerMoved(g, a, i);
        if a.Proceed? {
          if i != a.i {
            OnlyOneDispatching(g, a, i);
          }
        } else {
          ListeningKept(g, a, i);
        }
      }
    }
  }

  // ---------- the wire ----------

  /** The trace without the keep-alive. */
  function Erase(wire: seq<Sent>): seq<Sent> {
    if wire == [] then []
    else
      var before, last := wire[..|wire| - 1], wire[|wire| - 1];
      if last.writer.Some? then Erase(before) + [last] else Erase(before)
  }

  function Tagged(i: nat, wire: seq<D.Entry>): seq<Sent> {
    seq(|wire|, k requires 0 <= k < |wire| => Sent(Some(i), wire[k]))
  }

  /** The transcripts of the dispatches, one after the other. */
  function Transcripts(handlers: seq<Handler>, order: seq<nat>): seq<Sent> {
    if order == [] then []
    else Transcripts(handlers, order[..|order| - 1]) + TranscriptOf(handlers, order[|order| - 1])
  }

  function TranscriptOf(handlers: seq<Handler>, i: nat): seq<Sent> {
    if i < |handlers| then Tagged(i, handlers[i].s.wire) else []
  }

  ghost predicate WireInv(g: Daemon) {
    Erase(g.wire) == Transcripts(g.handlers, g.dispatched)
  }

  lemma EraseMore(wire: seq<Sent>, e: Sent)
    ensures Erase(wire + [e]) == if e.writer.Some? then Erase(wire) + [e] else Erase(wire)
  {
    assert (wire + [e])[..|wire|] == wire;
  }

  lemma {:induction false} TranscriptsFrame(handlers: seq<Handler>, handlers': seq<Handler>, order: seq<nat>)
    requires forall k :: 0 <= k < |order| ==> order[k] < |handlers| && order[k] < |handlers'|
                                              && handlers'[order[k]].s.wire == handlers[order[k]].s.wire
    ensures Transcripts(handlers', order) == Transcripts(handlers, order)
  {
    if order != [] {
      TranscriptsFrame(handlers, handlers', order[..|order| - 1]);
    }
  }

  /** A step writes at most one command, and the trace records it under its writer. */
  lemma WritesOne(g: Daemon, a: Action)
    requires Enabled(g, a)
    ensures Do(g, a).wire == g.wire + Writes(g, a)
    ensures a.Proceed? ==> Tagged(a.i, HandlerAfter(g, a, a.i).s.wire) == Tagged(a.i, g.handlers[a.i].s.wire) + Writes(g, a)
    ensures a.Proceed? ==> Writes(g, a) == [] || exists e :: Writes(g, a) == [Sent(Some(a.i), e)]
  {
    hide D.Next, D.Step, RegistryAfter;
    if a.Proceed? {
      var h := g.handlers[a.i];
      NextWrites(OpFor(h), h.s, a.e);
    }
  }

  lemma NextWrites(op: D.Op, s: D.State, e: D.TimedEvent)
    requires D.Next(op, s, e).Some?
    ensures var s' := D.Next(op, s, e).value;
            s'.wire == s.wire || (e.ev.Wrote? && exists w :: s'.wire == s.wire + [w])
  {
    hide D.Step;
    DT.StepIsWriteOrQuiet(op, s.(now := e.at), e.ev);
  }

  /** Only its own steps and its own start change a dispatch's transcript. */
  lemma TranscriptKept(g: Daemon, a: Action, k: nat)
    requires Enabled(g, a) && k < |g.handlers|
    requires !(a.Proceed? && a.i == k) && !(a.CheckContext? && a.i == k)
    ensures HandlerAfter(g, a, k).s.wire == g.handlers[k].s.wire
  {
    hide D.Next, D.Step, HandlerAfter, Enabled;
    HandlerProgressed(g, a, k);
    var h, h' := g.handlers[k], HandlerAfter(g, a, k);
    if h'.run.Then? && D.Next(OpFor(h), h.s, h'.run.event).Some? {
      NextWrites(OpFor(h), h.s, h'.run.event);
    }
  }

  lemma KeepAliveErased(g: Daemon, a: Action)
    requires Enabled(g, a) && !a.Proceed?
    ensures Erase(g.wire + Writes(g, a)) == Erase(g.wire)
  {
    hide D.Next;
    if a.KeepAlive? {
      EraseMore(g.wire, Writes(g, a)[0]);
    } else {
      assert g.wire + [] == g.wire;
    }
  }

  lemma DispatchedDistinct(g: Daemon, k: nat, i: nat)
    requires RanInv(g) && OrderInv(g) && i < |g.handlers| && g.handlers[i].pc.Running?
    requires k + 1 < |g.dispatched|
    ensures g.dispatched[k] != i
  {
  }

  lemma TranscriptsMore(handlers: seq<Handler>, order: seq<nat>, i: nat)
    ensures Transcripts(handlers, order + [i]) == Transcripts(handlers, order) + TranscriptOf(handlers, i)
  {
    assert (order + [i])[..|order|] == order;
  }

  lemma RunningIsLast(g: Daemon, i: nat)
    requires RanInv(g) && i < |g.handlers| && g.handlers[i].pc.Running?
    ensures g.dispatched != [] && g.dispatched[|g.dispatched| - 1] == i
  {
  }

  lemma DispatchedName(g: Daemon, k: nat)
    requires RanInv(g) && k < |g.dispatched|
    ensures g.dispatched[k] < |g.handlers|
  {
  }

  /** The dispatches before the running one keep their transcripts while it steps. */
  lemma EarlierKept(g: Daemon, a: Action)
    requires RanInv(g) && OrderInv(g) && Enabled(g, a) && a.Proceed?
    ensures g.dispatched != [] && g.dispatched == g.dispatched[..|g.dispatched| - 1] + [a.i]
    ensures |Do(g, a).handlers| == |g.handlers|
    ensures forall k :: 0 <= k < |g.dispatched| - 1 ==>
              g.dispatched[k] < |g.handlers|
              && Do(g, a).handlers[g.dispatched[k]].s.wire == g.handlers[g.dispatched[k]].s.wire
  {
    hide Enabled, Do, HandlerAfter, Moved, RanInv, OrderInv;
    LocksMoved(g, a);
    RunningIsLast(g, a.i);
    forall k | 0 <= k < |g.dispatched| - 1
      ensures g.dispatched[k] < |g.handlers|
      ensures Do(g, a).handlers[g.dispatched[k]].s.wire == g.handlers[g.dispatched[k]].s.wire
    {
      DispatchedName(g, k);
      DispatchedDistinct(g, k, a.i);
      HandlerMoved(g, a, g.dispatched[k]);
      TranscriptKept(g, a, g.dispatched[k]);
    }
  }

  lemma WireProceed(g: Daemon, a: Action)
    requires RanInv(g) && OrderInv(g) && WireInv(g) && Enabled(g, a) && a.Proceed?
    ensures WireInv(Do(g, a))
  {
    hide D.Next, D.Step, Do, HandlerAfter, Enabled, Writes, OrderInv, RanInv, Tagged, Moved;
    LocksMoved(g, a);
    EarlierKept(g, a);
    var g', earlier := Do(g, a), g.dispatched[..|g.dispatched| - 1];
    TranscriptsFrame(g.handlers, g'.handlers, earlier);
    TranscriptsMore(g.handlers, earlier, a.i);
    TranscriptsMore(g'.handlers, earlier, a.i);
    HandlerMoved(g, a, a.i);
    WritesOne(g, a);
    EraseWrites(g, a);
  }

  lemma EraseWrites(g: Daemon, a: Action)
    requires Enabled(g, a) && a.Proceed?
    ensures Erase(g.wire + Writes(g, a)) == Erase(g.wire) + Writes(g, a)
  {
    hide D.Next, D.Step, Do, HandlerAfter, Writes;
    WritesOne(g, a);
    if Writes(g, a) == [] {
      assert g.wire + [] == g.wire;
    } else {
      EraseMore(g.wire, Writes(g, a)[0]);
    }
  }

  lemma WireCheck(g: Daemon, a: Action)
    requires Enabled(g, a) && a.CheckContext? && !g.handlers[a.i].cancelled
    ensures Transcripts(Do(g, a).handlers, g.dispatched + [a.i]) == Transcripts(Do(g, a).handlers, g.dispatched)
  {
    hide D.Next, D.Step, Do, HandlerAfter, Moved;
    LocksMoved(g, a);
    HandlerMoved(g, a, a.i);
    HandlerProgressed(g, a, a.i);
    TranscriptsMore(Do(g, a).handlers, g.dispatched, a.i);
    assert Tagged(a.i, []) == [];
  }

  lemma OthersKept(g: Daemon, a: Action)
    requires HandlersInv(g) && RanInv(g) && Enabled(g, a) && !a.Proceed?
    ensures Transcripts(Do(g, a).handlers, g.dispatched) == Transcripts(g.handlers, g.dispatched)
  {
    hide D.Next, D.Step, Do, HandlerAfter, Writes, Transcripts, Moved;
    LocksMoved(g, a);
    forall k | 0 <= k < |g.dispatched|
      ensures g.dispatched[k] < |g.handlers|
      ensures Do(g, a).handlers[g.dispatched[k]].s.wire == g.handlers[g.dispatched[k]].s.wire
    {
      assert HandlerInv(g.handlers[g.dispatched[k]]);
      HandlerMoved(g, a, g.dispatched[k]);
      TranscriptKept(g, a, g.dispatched[k]);
    }
    TranscriptsFrame(g.handlers, Do(g, a).handlers, g.dispatched);
  }

  lemma WireStep(g: Daemon, a: Action)
    requires HandlersInv(g) && RanInv(g) && OrderInv(g) && WireInv(g) && Enabled(g, a)
    ensures WireInv(Do(g, a))
  {
    hide D.Next, D.Step, Do, HandlerAfter, Enabled, Writes, HandlersInv, RanInv, OrderInv, Erase, Transcripts, Moved;
    LocksMoved(g, a);
    if a.Proceed? {
      WireProceed(g, a);
    } else {
      WritesOne(g, a);
      KeepAliveErased(g, a);
      OthersKept(g, a);
      if a.CheckContext? && !g.handlers[a.i].cancelled {
        WireCheck(g, a);
      }
    }
  }

  // ---------- reachable states ----------

  ghost predicate Inv(g: Daemon) {
    && LockInv(g) && HandlersInv(g) && RegInv(g) && RanInv(g) && OrderInv(g)
    && RunsInv(g) && ListenInv(g) && WireInv(g)
  }

  lemma InvStep(g: Daemon, a: Action)
    requires Inv(g) && Enabled(g, a)
    ensures Inv(Do(g, a))
  {
    hide LockInv, HandlersInv, RegInv, RanInv, OrderInv, RunsInv, ListenInv, WireInv, Do, Enabled;
    LockStep(g, a);
    HandlersStep(g, a);
    RegStep(g, a);
    RanStep(g, a);
    OrderStep(g, a);
    RunsStep(g, a);
    ListenStep(g, a);
    WireStep(g, a);
  }

  lemma {:induction false} InvFollows(g: Daemon, t: Trace, g': Daemon)
    requires Inv(g) && Follow(g, t) == Some(g')
    ensures Inv(g')
  {
    hide Inv, Do, Enabled;
    if t.More? {
      InvFollows(g, t.before, Follow(g, t.before).value);
      InvStep(Follow(g, t.before).value, t.action);
    }
  }

  lemma BootProtocol()
    ensures LockInv(BOOT) && HandlersInv(BOOT) && RegInv(BOOT)
  {
    hide D.Reaches, D.Next;
  }

  lemma BootHistory()
    ensures RanInv(BOOT) && OrderInv(BOOT) && RunsInv(BOOT)
  {
    hide D.Reaches, D.Next;
  }

  lemma BootDesk()
    ensures ListenInv(BOOT) && WireInv(BOOT)
  {
    hide D.Reaches, D.Next;
  }

  lemma InvBoot()
    ensures Inv(BOOT)
  {
    hide LockInv, HandlersInv, RegInv, RanInv, OrderInv, RunsInv, ListenInv, WireInv;
    BootProtocol();
    BootHistory();
    BootDesk();
  }

  /** The invariant holds in every state the daemon can get into. */
  lemma InvReachable(g: Daemon)
    requires Reachable(g)
    ensures Inv(g)
  {
    hide Inv, Do, Enabled;
    InvBoot();
    var t :| Follow(BOOT, t) == Some(g);
    InvFollows(BOOT, t, g);
  }
}
