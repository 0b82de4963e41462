/** The preemptive command server (internal/ipc/server.go) as the atomic steps of its
    goroutines: any number of connection handlers, the keep-alive of cmd/yaasa/main.go
    and the BLE notification callback, in any interleaving. */
module Server {
  import opened Wrappers
  import opened Dispatch
  import Registry

  /** Where a handler is in `handle`. */
  datatype Pc =
    | Opened         // connection accepted
    | Dropped        // the request did not decode: closed without a response
    | Decoded        // wants cancelMu
    | InCancel       // holds cancelMu, about to cancel the predecessor
    | AfterCancel    // holds cancelMu, about to register its own context
    | Waiting        // registered, wants dispatchMu
    | Locked         // holds dispatchMu, about to look at ctx.Err()
    | Running        // holds dispatchMu, in dispatch
    | Replied        // holds dispatchMu, response written
    | Unlocked       // about to run its deferred cancel
    | Closed

  /** One handler. `run` and `s` are its dispatch so far, `idx` the registry index
      its listener captured. The rest is history: its number in registration order,
      whether it was dispatched, and the responses written. */
  datatype Handler = Handler(
    req: Request, pc: Pc, cancelled: bool, run: Run, s: State, idx: nat,
    reg: nat, ran: bool, replies: seq<Response>)

  /** One FE61 write attempt and the handler that made it, or None for the keep-alive. */
  datatype Sent = Sent(writer: Option<nat>, entry: Entry)

  /** The daemon. Handlers are named by their position. `registered` and `dispatched`
      are history: the order of the critical sections under cancelMu, and the order
      of the dispatches. */
  datatype Daemon = Daemon(
    handlers: seq<Handler>,
    cancelMu: Option<nat>, dispatchMu: Option<nat>, current: Option<nat>,
    listeners: seq<nat>, statsListeners: seq<nat>,
    wire: seq<Sent>, now: nat,
    listening: bool, quit: bool,
    registered: seq<nat>, dispatched: seq<nat>)

  const BOOT := Daemon([], None, None, None, [], [], [], 0, true, false, [], [])

  datatype Action =
    | Accept(req: Request)
    | Drop(i: nat)
    | Decode(i: nat)
    | LockCancel(i: nat)
    | CancelPrevious(i: nat)
    | Register(i: nat)             // assigns cancelCurrent and releases cancelMu
    | LockDispatch(i: nat)
    | CheckContext(i: nat)
    | Proceed(i: nat, e: TimedEvent)
    | Reply(i: nat)
    | Unlock(i: nat)
    | CancelOwn(i: nat)
    | KeepAlive(ok: bool, at: nat)
    | Notify(ev: Event, at: nat)   // the BLE callback, for one decoded report

  predicate IsReport(ev: Event) {
    ev.HeightReport? || ev.StatsReport?
  }

  function OpFor(h: Handler): Op {
    OpOf(h.req)
  }

  // ---------- what an action does ----------

  predicate ByHandler(a: Action) {
    !a.Accept? && !a.KeepAlive? && !a.Notify?
  }

  /** The program counter a handler's action starts from. */
  predicate StartsAt(a: Action, pc: Pc)
    requires ByHandler(a)
  {
    match a
    case Drop(_) => pc.Opened?
    case Decode(_) => pc.Opened?
    case LockCancel(_) => pc.Decoded?
    case CancelPrevious(_) => pc.InCancel?
    case Register(_) => pc.AfterCancel?
    case LockDispatch(_) => pc.Waiting?
    case CheckContext(_) => pc.Locked?
    case Proceed(_, _) => pc.Running?
    case Reply(_) => pc.Running?
    case Unlock(_) => pc.Replied?
    case _ => pc.Unlocked?
  }

  predicate Enabled(g: Daemon, a: Action) {
    if ByHandler(a) then
      && a.i < |g.handlers|
      && StartsAt(a, g.handlers[a.i].pc)
      && var h := g.handlers[a.i];
      match a
      case LockCancel(_) => g.cancelMu.None?
      case LockDispatch(_) => g.dispatchMu.None?
      case Proceed(_, e) =>
        && e.at >= g.now && !IsReport(e.ev)
        && (e.ev.CtxDone? ==> h.cancelled)
        && Next(OpFor(h), h.s, e).Some?
      case Reply(_) => h.s.pc.Done?
      case _ => true
    else
      match a
      case Accept(_) => g.listening
      case KeepAlive(_, at) => at >= g.now
      case _ => IsReport(a.ev) && a.at >= g.now
  }

  /** The callback runs every listener of a copy of the registry. */
  function Targets(g: Daemon, ev: Event): seq<nat> {
    if ev.HeightReport? then g.listeners else g.statsListeners
  }

  function Hear(h: Handler, e: TimedEvent): Handler {
    if h.pc.Running? && Next(OpFor(h), h.s, e).Some? then
      h.(run := Then(h.run, e), s := Next(OpFor(h), h.s, e).value)
    else h
  }

  /** The registry index that a dispatch's cancel function captures. */
  function CapturedIndex(g: Daemon, h: Handler, ev: Event): nat {
    if !ev.Added? then h.idx else if OpFor(h).ReadStats? then |g.statsListeners| else |g.listeners|
  }

  /** Handler h across an action of its own. */
  function Acted(g: Daemon, a: Action, h: Handler): Handler
    requires ByHandler(a)
  {
    match a
    case Drop(_) => h.(pc := Dropped)
    case Decode(_) => h.(pc := Decoded)
    case LockCancel(_) => h.(pc := InCancel, reg := |g.registered|)
    case CancelPrevious(_) => h.(pc := AfterCancel)
    case Register(_) => h.(pc := Waiting)
    case LockDispatch(_) => h.(pc := Locked)
    case CheckContext(_) =>
      if h.cancelled then h.(pc := Replied, replies := h.replies + [Preempted])
      else h.(pc := Running, ran := true, run := Begin(g.now), s := Initial(OpFor(h), g.now))
    case Proceed(_, e) =>
      if Next(OpFor(h), h.s, e).Some? then
        h.(run := Then(h.run, e), s := Next(OpFor(h), h.s, e).value, idx := CapturedIndex(g, h, e.ev))
      else h
    case Reply(_) => if h.s.pc.Done? then h.(pc := Replied, replies := h.replies + [h.s.pc.resp]) else h
    case Unlock(_) => h.(pc := Unlocked)
    case _ => h.(pc := Closed, cancelled := true)
  }

  /** Handler k across any action. */
  function HandlerAfter(g: Daemon, a: Action, k: nat): Handler
    requires k < |g.handlers|
  {
    var h := g.handlers[k];
    if ByHandler(a) && a.i == k then Acted(g, a, h)
    else if a.CancelPrevious? && g.current == Some(k) then h.(cancelled := true)
    else if a.Notify? && k in Targets(g, a.ev) then Hear(h, At(a.ev, a.at))
    else h
  }

  function HandlersAfter(g: Daemon, a: Action): (r: seq<Handler>)
    ensures |r| == |g.handlers| + if a.Accept? then 1 else 0
    ensures forall k :: 0 <= k < |g.handlers| ==> r[k] == HandlerAfter(g, a, k)
    ensures a.Accept? ==> r[|g.handlers|] == NewHandler(a.req)
  {
    seq(|g.handlers|, k requires 0 <= k < |g.handlers| => HandlerAfter(g, a, k))
    + if a.Accept? then [NewHandler(a.req)] else []
  }

  function NewHandler(req: Request): Handler {
    Handler(req, Opened, false, Begin(0), Initial(OpOf(req), 0), 0, 0, false, [])
  }

  /** The FE61 writes that an action makes. */
  function Writes(g: Daemon, a: Action): seq<Sent>
    requires Enabled(g, a)
  {
    match a
    case KeepAlive(ok, at) => [Sent(None, Entry(HEIGHT_LIMITS, ok, at))]
    case Proceed(i, e) =>
      var before := g.handlers[i].s;
      var after := Next(OpFor(g.handlers[i]), before, e).value;
      if |after.wire| > |before.wire| then [Sent(Some(i), after.wire[|before.wire|])] else []
    case _ => []
  }

  /** One of the desk's two registries across an action. */
  function RegistryAfter(g: Daemon, list: seq<nat>, a: Action, stats: bool): seq<nat>
    requires Enabled(g, a)
  {
    if a.Proceed? && OpFor(g.handlers[a.i]).ReadStats? == stats then
      if a.e.ev.Added? then list + [a.i]
      else if a.e.ev.Removed? then Registry.CancelAt(list, g.handlers[a.i].idx)
      else list
    else list
  }

  function Do(g: Daemon, a: Action): Daemon
    requires Enabled(g, a)
  {
    var quit := a.Reply? && g.handlers[a.i].req.cmd.Quit?;
    Daemon(
      HandlersAfter(g, a),
      if a.LockCancel? then Some(a.i) else if a.Register? then None else g.cancelMu,
      if a.LockDispatch? then Some(a.i) else if a.Unlock? then None else g.dispatchMu,
      if a.Register? then Some(a.i) else g.current,
      RegistryAfter(g, g.listeners, a, false),
      RegistryAfter(g, g.statsListeners, a, true),
      g.wire + Writes(g, a),
      if a.Proceed? then a.e.at else if a.KeepAlive? || a.Notify? then a.at else g.now,
      g.listening && !quit,
      g.quit || quit,
      g.registered + (if a.LockCancel? then [a.i] else []),
      g.dispatched + (if a.CheckContext? && !g.handlers[a.i].cancelled then [a.i] else []))
  }

  /** A stretch of the daemon's life, latest action outermost. */
  datatype Trace = Start | More(before: Trace, action: Action)

  function Follow(g: Daemon, t: Trace): Option<Daemon> {
    match t
    case Start => Some(g)
    case More(before, a) =>
      var g1 := Follow(g, before);
      if g1.Some? && Enabled(g1.value, a) then Some(Do(g1.value, a)) else None
  }

  ghost predicate Reachable(g: Daemon) {
    exists t :: Follow(BOOT, t) == Some(g)
  }
}
