/** A connected desk: the notification fanout, the height and sit/stand caches, and
    the two listener registries (desk/desk.go, desk/stats.go). */
module Desks {
  import opened Wrappers
  import opened Packet
  import PacketTheory
  import opened Heights
  import Registry

  datatype SitStandTime = SitStandTime(standH: Byte, standM: Byte, standS: Byte, sitH: Byte, sitM: Byte, sitS: Byte)

  /** Opcode 0xA2 with at least six payload bytes: two HH:MM:SS counters in plain binary. */
  function DecodeSitStandTime(opcode: Byte, p: seq<Byte>): Option<SitStandTime> {
    if opcode != 0xA2 || |p| < 6 then None
    else Some(SitStandTime(p[0], p[1], p[2], p[3], p[4], p[5]))
  }

  /** The heights carried by a list of packets, in order. */
  function HeightsIn(ps: seq<Notification>): seq<real> {
    if ps == [] then []
    else
      var last := ps[|ps| - 1];
      var h := DecodeHeightPayload(last.opcode, last.payload);
      HeightsIn(ps[..|ps| - 1]) + if h.Some? then [h.value] else []
  }

  function StatsIn(ps: seq<Notification>): seq<SitStandTime> {
    if ps == [] then []
    else
      var last := ps[|ps| - 1];
      var s := DecodeSitStandTime(last.opcode, last.payload);
      StatsIn(ps[..|ps| - 1]) + if s.Some? then [s.value] else []
  }

  lemma NothingIn()
    ensures HeightsIn([]) == [] && StatsIn([]) == []
  {
  }

  lemma TakeOneMore(ps: seq<Notification>, k: nat)
    requires k < |ps|
    ensures var h := DecodeHeightPayload(ps[k].opcode, ps[k].payload);
            HeightsIn(ps[..k + 1]) == HeightsIn(ps[..k]) + if h.Some? then [h.value] else []
    ensures var s := DecodeSitStandTime(ps[k].opcode, ps[k].payload);
            StatsIn(ps[..k + 1]) == StatsIn(ps[..k]) + if s.Some? then [s.value] else []
  {
    assert ps[..k + 1][..k] == ps[..k];
  }

  lemma {:induction false} HeightsInConcat(a: seq<Notification>, b: seq<Notification>)
    ensures HeightsIn(a + b) == HeightsIn(a) + HeightsIn(b)
    ensures StatsIn(a + b) == StatsIn(a) + StatsIn(b)
  {
    if b == [] {
      assert a + b == a;
    } else {
      assert (a + b)[..|a + b| - 1] == a + b[..|b| - 1];
      HeightsInConcat(a, b[..|b| - 1]);
    }
  }

  /** Some height comes out of a packet list exactly when some packet is a height
      report of at least three payload bytes. */
  lemma {:induction false} HeightsInNonempty(ps: seq<Notification>)
    ensures HeightsIn(ps) != [] <==> exists k :: 0 <= k < |ps| && ps[k].opcode == 0x01 && |ps[k].payload| >= 3
    ensures StatsIn(ps) != [] <==> exists k :: 0 <= k < |ps| && ps[k].opcode == 0xA2 && |ps[k].payload| >= 6
  {
    if ps != [] {
      var n := |ps| - 1;
      HeightsInNonempty(ps[..n]);
      TakeOneMore(ps, n);
      assert ps[..n + 1] == ps;
    }
  }

  /** What any one frame amounts to. A height report is two big-endian bytes of whole
      millimetres; counters are six bytes, hours, minutes and seconds of standing and
      then of sitting. Nothing else is either. */
  lemma OneFrame(opcode: Byte, p: seq<Byte>)
    requires |p| <= 255
    ensures HeightsIn(Decode(Frame(RESP_START, opcode, p))) ==
      if opcode == 0x01 && |p| >= 3 then [(p[0] as int * 256 + p[1] as int) as real] else []
    ensures StatsIn(Decode(Frame(RESP_START, opcode, p))) ==
      if opcode == 0xA2 && |p| >= 6 then [SitStandTime(p[0], p[1], p[2], p[3], p[4], p[5])] else []
  {
    var packet := Notification(opcode, p, Checksum(opcode, p));
    PacketTheory.FrameThenAnything(opcode, p, []);
    assert Frame(RESP_START, opcode, p) + [] == Frame(RESP_START, opcode, p);
    assert Decode([]) == [];
    assert Decode(Frame(RESP_START, opcode, p)) == [packet];
    assert [packet][..0] == [];
  }

  /** Reports separated by noise reach the listeners as if sent alone. */
  lemma ReportsThroughNoise(chunks: seq<PacketTheory.Chunk>, rest: seq<Byte>)
    requires forall c :: c in chunks ==> PacketTheory.Quiet(c.noise) && |c.payload| <= 255
    ensures HeightsIn(Decode(PacketTheory.Transmit(chunks) + rest))
         == HeightsIn(PacketTheory.Sent(chunks)) + HeightsIn(Decode(rest))
    ensures StatsIn(Decode(PacketTheory.Transmit(chunks) + rest))
         == StatsIn(PacketTheory.Sent(chunks)) + StatsIn(Decode(rest))
  {
    PacketTheory.RoundTripThroughNoise(chunks, rest);
    HeightsInConcat(PacketTheory.Sent(chunks), Decode(rest));
  }

  /** One registration of a height callback, with the values it was called with. The
      same callback may be registered again. `since` is the number of heights the desk
      had decoded at the registration. */
  class HeightListener {
    const callback: nat
    var got: seq<real>
    ghost const since: nat

    constructor (callback: nat, ghost since: nat)
      ensures this.callback == callback && this.since == since && got == []
    {
      this.callback, this.since := callback, since;
      got := [];
    }

    method Call(h: real)
      modifies this`got
      ensures got == old(got) + [h]
    {
      got := got + [h];
    }
  }

  class StatsListener {
    const callback: nat
    var got: seq<SitStandTime>
    ghost const since: nat

    constructor (callback: nat, ghost since: nat)
      ensures this.callback == callback && this.since == since && got == []
    {
      this.callback, this.since := callback, since;
      got := [];
    }

    method Call(s: SitStandTime)
      modifies this`got
      ensures got == old(got) + [s]
    {
      got := got + [s];
    }
  }

  /** Distinct listeners, each called with exactly the log since it registered. */
  ghost predicate HeightsUpToDate(ls: seq<HeightListener>, log: seq<real>)
    reads ls
  {
    && (forall i, j :: 0 <= i < j < |ls| ==> ls[i] != ls[j])
    && (forall i :: 0 <= i < |ls| ==> ls[i].since <= |log| && ls[i].got == log[ls[i].since..])
  }

  /** Calls every listener of the copied list with the value just decoded. */
  method CallHeightListeners(ls: seq<HeightListener>, h: real, ghost log: seq<real>)
    requires HeightsUpToDate(ls, log)
    modifies (set l | l in ls)`got
    ensures HeightsUpToDate(ls, log + [h])
  {
    for j := 0 to |ls|
      invariant forall i :: 0 <= i < j ==> ls[i].got == (log + [h])[ls[i].since..]
      invariant forall i :: j <= i < |ls| ==> ls[i].got == old(ls[i].got)
    {
      ls[j].Call(h);
      assert (log + [h])[ls[j].since..] == log[ls[j].since..] + [h];
    }
  }

  /** Distinct listeners, each called with exactly the log since it registered. */
  ghost predicate StatsUpToDate(ls: seq<StatsListener>, log: seq<SitStandTime>)
    reads ls
  {
    && (forall i, j :: 0 <= i < j < |ls| ==> ls[i] != ls[j])
    && (forall i :: 0 <= i < |ls| ==> ls[i].since <= |log| && ls[i].got == log[ls[i].since..])
  }

  /** Calls every listener of the copied list with the value just decoded. */
  method CallStatsListeners(ls: seq<StatsListener>, s: SitStandTime, ghost log: seq<SitStandTime>)
    requires StatsUpToDate(ls, log)
    modifies (set l | l in ls)`got
    ensures StatsUpToDate(ls, log + [s])
  {
    for j := 0 to |ls|
      invariant forall i :: 0 <= i < j ==> ls[i].got == (log + [s])[ls[i].since..]
      invariant forall i :: j <= i < |ls| ==> ls[i].got == old(ls[i].got)
    {
      ls[j].Call(s);
      assert (log + [s])[ls[j].since..] == log[ls[j].since..] + [s];
    }
  }

  /** What the connection sees: the FE62 subscription and the FE61 writes. */
  datatype Access = Subscribe(ok: bool) | Write(bytes: seq<Byte>, ok: bool)

  class Desk {
    var lastHeight: real
    var hasHeight: bool
    var listeners: seq<HeightListener>
    var lastStats: SitStandTime
    var hasStats: bool
    var statsListeners: seq<StatsListener>
    var notifyFailed: bool
    var accesses: seq<Access>

    // Everything decoded since the connection was made.
    ghost var heights: seq<real>
    ghost var stats: seq<SitStandTime>

    /** The caches hold the last value decoded, and each registered listener has
        been called with exactly the values decoded since it registered, in order. */
    ghost predicate Valid()
      reads this, listeners, statsListeners
    {
      && (hasHeight <==> heights != [])
      && (hasHeight ==> lastHeight == heights[|heights| - 1])
      && (hasStats <==> stats != [])
      && (hasStats ==> lastStats == stats[|stats| - 1])
      && HeightsUpToDate(listeners, heights)
      && StatsUpToDate(statsListeners, stats)
    }

    constructor ()
      ensures Valid() && listeners == [] && statsListeners == [] && heights == [] && stats == []
      ensures accesses == [] && !notifyFailed
    {
      lastHeight, hasHeight, listeners := 0.0, false, [];
      lastStats, hasStats, statsListeners := SitStandTime(0, 0, 0, 0, 0, 0), false, [];
      heights, stats := [], [];
      notifyFailed := false;
      accesses := [];
    }

    method HandleNotification(buf: seq<Byte>)
      requires Valid()
      modifies this`lastHeight, this`hasHeight, this`lastStats, this`hasStats, this`heights, this`stats
      modifies (set l | l in listeners)`got
      modifies (set l | l in statsListeners)`got
      ensures Valid()
      ensures heights == old(heights) + HeightsIn(Decode(buf))
      ensures stats == old(stats) + StatsIn(Decode(buf))
    {
      hide *;
      var packets := DecodeResponses(buf);
      assert HeightsIn(packets[..0]) == [] && StatsIn(packets[..0]) == [] by {
        NothingIn();
      }
      for k := 0 to |packets|
        invariant Valid()
        invariant heights == old(heights) + HeightsIn(packets[..k])
        invariant stats == old(stats) + StatsIn(packets[..k])
      {
        TakeOneMore(packets, k);
        HandlePacket(packets[k]);
      }
      assert packets[..|packets|] == packets;
    }

    /** One turn of the packet loop. */
    method HandlePacket(packet: Notification)
      requires Valid()
      modifies this`lastHeight, this`hasHeight, this`lastStats, this`hasStats, this`heights, this`stats
      modifies (set l | l in listeners)`got
      modifies (set l | l in statsListeners)`got
      ensures Valid()
      ensures var h := DecodeHeightPayload(packet.opcode, packet.payload);
              heights == old(heights) + if h.Some? then [h.value] else []
      ensures var s := DecodeSitStandTime(packet.opcode, packet.payload);
              stats == old(stats) + if s.Some? then [s.value] else []
    {
      var h := DecodeHeightPayload(packet.opcode, packet.payload);
      if h.Some? {
        BroadcastHeight(h.value);
        return;
      }
      var s := DecodeSitStandTime(packet.opcode, packet.payload);
      if s.Some? {
        BroadcastStats(s.value);
      }
    }

    /** The height branch of the packet loop: cache, then call a copy of the list. */
    method BroadcastHeight(h: real)
      requires Valid()
      modifies this`lastHeight, this`hasHeight, this`heights
      modifies (set l | l in listeners)`got
      ensures Valid() && heights == old(heights) + [h]
    {
      lastHeight := h;
      hasHeight := true;
      heights := heights + [h];
      var ls := listeners;
      assert HeightsUpToDate(ls, old(heights));
      CallHeightListeners(ls, h, old(heights));
      assert StatsUpToDate(statsListeners, stats);
    }

    method BroadcastStats(s: SitStandTime)
      requires Valid()
      modifies this`lastStats, this`hasStats, this`stats
      modifies (set l | l in statsListeners)`got
      ensures Valid() && stats == old(stats) + [s]
    {
      lastStats := s;
      hasStats := true;
      stats := stats + [s];
      var ls := statsListeners;
      assert StatsUpToDate(ls, old(stats));
      CallStatsListeners(ls, s, old(stats));
      assert HeightsUpToDate(listeners, heights);
    }

    method LastKnownHeight() returns (h: real, ok: bool)
      requires Valid()
      ensures ok <==> heights != []
      ensures ok ==> h == heights[|heights| - 1]
    {
      return lastHeight, hasHeight;
    }

    /** Returns the registration, and the index that its cancel function captures. */
    method AddHeightListener(callback: nat) returns (l: HeightListener, idx: nat)
      requires Valid()
      modifies this`listeners
      ensures Valid() && fresh(l) && l.callback == callback
      ensures listeners == old(listeners) + [l] && idx == |old(listeners)|
      ensures l.since == |heights| && l.got == []
    {
      l := new HeightListener(callback, |heights|);
      listeners := listeners + [l];
      idx := |listeners| - 1;
    }

    /** The cancel function of the listener that captured idx. */
    method CancelHeightListener(idx: nat)
      requires Valid()
      modifies this`listeners
      ensures Valid()
      ensures listeners == Registry.CancelAt(old(listeners), idx)
    {
      if idx < |listeners| {
        listeners := listeners[..idx] + listeners[idx + 1..];
      }
    }

    method AddSitStandListener(callback: nat) returns (l: StatsListener, idx: nat)
      requires Valid()
      modifies this`statsListeners
      ensures Valid() && fresh(l) && l.callback == callback
      ensures statsListeners == old(statsListeners) + [l] && idx == |old(statsListeners)|
      ensures l.since == |stats| && l.got == []
    {
      l := new StatsListener(callback, |stats|);
      statsListeners := statsListeners + [l];
      idx := |statsListeners| - 1;
    }

    method CancelSitStandListener(idx: nat)
      requires Valid()
      modifies this`statsListeners
      ensures Valid()
      ensures statsListeners == Registry.CancelAt(old(statsListeners), idx)
    {
      if idx < |statsListeners| {
        statsListeners := statsListeners[..idx] + statsListeners[idx + 1..];
      }
    }
  }

  /** No desk if the adapter does not connect; else subscribe, wake and pre-warm. The
      subscription comes before any FE61 write. Its failure is remembered, those of
      the writes are ignored, and none of them is fatal. */
  method ConnectWith(connects: bool, subscribes: bool, wakes: bool, preWarms: bool) returns (d: Desk?)
    ensures d == null <==> !connects
    ensures d != null ==>
      && fresh(d) && d.Valid() && d.listeners == [] && d.statsListeners == [] && d.heights == [] && d.stats == []
      && d.notifyFailed == !subscribes
      && d.accesses ==
           [Subscribe(subscribes), Write(Frame(CMD_START, 0x00, []), wakes), Write(Frame(CMD_START, 0x07, []), preWarms)]
  {
    if !connects {
      return null;
    }
    d := new Desk();
    d.accesses := d.accesses + [Subscribe(subscribes)];
    if !subscribes {
      d.notifyFailed := true;
    }
    var wake := MakeCommand(0x00, []);
    d.accesses := d.accesses + [Write(wake, wakes)];
    var status := MakeCommand(0x07, []);
    d.accesses := d.accesses + [Write(status, preWarms)];
  }
}
