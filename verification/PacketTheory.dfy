/** What the scanner and the encoder guarantee for every buffer. */
module PacketTheory {
  import opened Packet

  // ---------- the scanner equals a declarative specification ----------

  ghost predicate Inside(buf: seq<Byte>, off: nat, j: nat) {
    FrameAt(buf, off) && off <= j < FrameEnd(buf, off)
  }

  /** Offset j lies within one of the frames at offs. */
  ghost predicate Covered(buf: seq<Byte>, offs: seq<nat>, j: nat) {
    offs != [] && (Inside(buf, offs[0], j) || Covered(buf, offs[1..], j))
  }

  /** Nothing is left to find from offset i: fewer than six bytes, or a header
      that overruns the buffer. */
  predicate Ended(buf: seq<Byte>, i: nat) {
    i + 6 > |buf| || Overruns(buf, i)
  }

  /** Valid frames, each starting no earlier than the end of the one before. */
  ghost predicate InOrder(buf: seq<Byte>, from: nat, offs: seq<nat>, stop: nat)
    decreases |offs|
  {
    if offs == [] then from <= stop
    else from <= offs[0] && FrameAt(buf, offs[0]) && InOrder(buf, FrameEnd(buf, offs[0]), offs[1..], stop)
  }

  /** offs are the frames of a leftmost-first reading of buf from offset `from`,
      which gave up at `stop`: the frames are valid, disjoint and in order; no
      skipped offset could have started a frame or ended the scan; and the scan
      ended where it had to. */
  ghost predicate LeftmostParse(buf: seq<Byte>, from: nat, offs: seq<nat>, stop: nat) {
    && InOrder(buf, from, offs, stop)
    && (forall j :: from <= j < stop && !Covered(buf, offs, j) ==> !FrameAt(buf, j) && !Ended(buf, j))
    && Ended(buf, stop)
  }

  ghost function PacketsAt(buf: seq<Byte>, offs: seq<nat>, from: nat, stop: nat): seq<Notification>
    requires InOrder(buf, from, offs, stop)
  {
    if offs == [] then []
    else [PacketAt(buf, offs[0])] + PacketsAt(buf, offs[1..], FrameEnd(buf, offs[0]), stop)
  }

  lemma {:induction false} CoveredLater(buf: seq<Byte>, from: nat, offs: seq<nat>, stop: nat, j: nat)
    requires InOrder(buf, from, offs, stop) && Covered(buf, offs, j)
    ensures from <= j < stop
    decreases |offs|
  {
    if Covered(buf, offs[1..], j) {
      CoveredLater(buf, FrameEnd(buf, offs[0]), offs[1..], stop, j);
    } else {
      StopAfter(buf, FrameEnd(buf, offs[0]), offs[1..], stop);
    }
  }

  lemma {:induction false} StopAfter(buf: seq<Byte>, from: nat, offs: seq<nat>, stop: nat)
    requires InOrder(buf, from, offs, stop)
    ensures from <= stop
    decreases |offs|
  {
    if offs != [] {
      StopAfter(buf, FrameEnd(buf, offs[0]), offs[1..], stop);
    }
  }

  /** A reading's first frame starts at the first offset that carries one. */
  lemma FirstFrame(buf: seq<Byte>, from: nat, offs: seq<nat>, stop: nat)
    requires LeftmostParse(buf, from, offs, stop)
    ensures FrameAt(buf, from) ==> offs != [] && offs[0] == from
    ensures Ended(buf, from) ==> offs == []
  {
    StopAfter(buf, from, offs, stop);
    if offs != [] && offs[0] > from {
      CoveredUnlessLater(buf, offs, from, stop);
      StopAfter(buf, FrameEnd(buf, offs[0]), offs[1..], stop);
    }
  }

  lemma CoveredUnlessLater(buf: seq<Byte>, offs: seq<nat>, from: nat, stop: nat)
    requires offs != [] && from < offs[0] && InOrder(buf, from, offs, stop)
    ensures !Covered(buf, offs, from)
  {
    if Covered(buf, offs[1..], from) {
      CoveredLater(buf, FrameEnd(buf, offs[0]), offs[1..], stop, from);
    }
  }

  lemma {:induction false} ParseIsDecode(buf: seq<Byte>, from: nat, offs: seq<nat>, stop: nat)
    requires LeftmostParse(buf, from, offs, stop)
    ensures DecodeFrom(buf, from) == PacketsAt(buf, offs, from, stop)
    decreases |buf| - from
  {
    FirstFrame(buf, from, offs, stop);
    if Ended(buf, from) {
    } else if FrameAt(buf, from) {
      ParseIsDecode(buf, FrameEnd(buf, from), offs[1..], stop);
    } else {
      StopAfter(buf, from, offs, stop);
      ParseIsDecode(buf, from + 1, offs, stop);
    }
  }

  lemma {:induction false} ParseExists(buf: seq<Byte>, from: nat) returns (offs: seq<nat>, stop: nat)
    ensures LeftmostParse(buf, from, offs, stop)
    decreases |buf| - from
  {
    if Ended(buf, from) {
      offs, stop := [], from;
    } else if FrameAt(buf, from) {
      var rest;
      rest, stop := ParseExists(buf, FrameEnd(buf, from));
      offs := [from] + rest;
      assert offs[1..] == rest;
    } else {
      offs, stop := ParseExists(buf, from + 1);
    }
  }

  /** DecodeResponses returns exactly the packets of the leftmost-first reading. */
  lemma DecodeIsLeftmostParse(buf: seq<Byte>, out: seq<Notification>)
    ensures out == Decode(buf) <==>
            exists offs, stop :: LeftmostParse(buf, 0, offs, stop) && out == PacketsAt(buf, offs, 0, stop)
  {
    var offs, stop := ParseExists(buf, 0);
    ParseIsDecode(buf, 0, offs, stop);
    forall offs, stop | LeftmostParse(buf, 0, offs, stop)
      ensures Decode(buf) == PacketsAt(buf, offs, 0, stop)
    {
      ParseIsDecode(buf, 0, offs, stop);
    }
  }

  // ---------- which valid frames are missed ----------

  lemma {:induction false} CoveredBySome(buf: seq<Byte>, offs: seq<nat>, j: nat)
    ensures Covered(buf, offs, j) <==> exists k :: 0 <= k < |offs| && Inside(buf, offs[k], j)
  {
    if offs != [] {
      CoveredBySome(buf, offs[1..], j);
      if k :| 0 <= k < |offs| && Inside(buf, offs[k], j) {
        assert k > 0 ==> offs[1..][k - 1] == offs[k];
      }
      if k :| 0 <= k < |offs[1..]| && Inside(buf, offs[1..][k], j) {
        assert offs[k + 1] == offs[1..][k];
      }
    }
  }

  /** The frames of a parse do not overlap. */
  lemma {:induction false} FramesAreDisjoint(buf: seq<Byte>, from: nat, offs: seq<nat>, stop: nat, a: nat, b: nat)
    requires InOrder(buf, from, offs, stop) && a < b < |offs|
    ensures FrameAt(buf, offs[a]) && FrameEnd(buf, offs[a]) <= offs[b]
    decreases a
  {
    if a == 0 {
      StartsAfter(buf, FrameEnd(buf, offs[0]), offs[1..], stop, b - 1);
    } else {
      FramesAreDisjoint(buf, FrameEnd(buf, offs[0]), offs[1..], stop, a - 1, b - 1);
    }
  }

  lemma {:induction false} StartsAfter(buf: seq<Byte>, from: nat, offs: seq<nat>, stop: nat, b: nat)
    requires InOrder(buf, from, offs, stop) && b < |offs|
    ensures from <= offs[b] < stop && FrameAt(buf, offs[b])
    decreases b
  {
    StopAfter(buf, FrameEnd(buf, offs[0]), offs[1..], stop);
    if b > 0 {
      StartsAfter(buf, FrameEnd(buf, offs[0]), offs[1..], stop, b - 1);
    }
  }

  /** A frame reported earlier reaches over offset i. */
  ghost predicate Overlapped(buf: seq<Byte>, offs: seq<nat>, i: nat) {
    exists k :: 0 <= k < |offs| && offs[k] < i && Inside(buf, offs[k], i)
  }

  /** Exactly which valid frames the scanner does not report: those that begin inside
      a frame it did report, and all those after a header that overruns the buffer. */
  lemma MissedIffOverlappedOrCutOff(buf: seq<Byte>, offs: seq<nat>, stop: nat, i: nat)
    requires LeftmostParse(buf, 0, offs, stop) && FrameAt(buf, i)
    ensures i !in offs <==> Overlapped(buf, offs, i) || (Overruns(buf, stop) && stop < i)
  {
    CoveredBySome(buf, offs, i);
    if i in offs {
      var b :| 0 <= b < |offs| && offs[b] == i;
      StartsAfter(buf, 0, offs, stop, b);
      forall k | 0 <= k < |offs| && offs[k] < i
        ensures !Inside(buf, offs[k], i)
      {
        if k < b {
          FramesAreDisjoint(buf, 0, offs, stop, k, b);
        } else if k > b {
          FramesAreDisjoint(buf, 0, offs, stop, b, k);
        }
      }
    }
  }

  // ---------- prefix stability ----------

  lemma {:induction false} PrefixStableFrom(buf: seq<Byte>, more: seq<Byte>, i: nat)
    ensures DecodeFrom(buf, i) <= DecodeFrom(buf + more, i)
    decreases |buf| - i
  {
    if i + 6 > |buf| || Overruns(buf, i) {
    } else {
      assert Header(buf, i) == Header(buf + more, i);
      if Header(buf, i) {
        var end := FrameEnd(buf, i);
        assert (buf + more)[i + 4..end - 2] == buf[i + 4..end - 2];
        PrefixStableFrom(buf, more, end);
      }
      PrefixStableFrom(buf, more, i + 1);
    }
  }

  /** Extending an attribute value never changes or retracts an earlier packet. */
  lemma PrefixStability(buf: seq<Byte>, more: seq<Byte>)
    ensures Decode(buf) <= Decode(buf + more)
  {
    PrefixStableFrom(buf, more, 0);
  }

  // ---------- resynchronisation ----------

  /** Noise the scanner can cross without touching what follows it. */
  predicate Quiet(noise: seq<Byte>) {
    && (forall k :: 0 <= k < |noise| - 1 ==> noise[k] != RESP_START || noise[k + 1] != RESP_START)
    && (noise != [] ==> noise[|noise| - 1] != RESP_START)
  }

  lemma {:induction false} SkipPrefix(pre: seq<Byte>, buf: seq<Byte>, i: nat)
    ensures DecodeFrom(pre + buf, |pre| + i) == DecodeFrom(buf, i)
    decreases |buf| - i
  {
    var whole := pre + buf;
    if i + 6 <= |buf| {
      if Header(buf, i) {
        var end := FrameEnd(buf, i);
        if end <= |buf| {
          assert whole[|pre| + i + 4..|pre| + end - 2] == buf[i + 4..end - 2];
          SkipPrefix(pre, buf, end);
        }
      }
      SkipPrefix(pre, buf, i + 1);
    }
  }

  lemma {:induction false} SkipNoise(noise: seq<Byte>, rest: seq<Byte>, i: nat)
    requires Quiet(noise) && i <= |noise|
    ensures DecodeFrom(noise + rest, i) == DecodeFrom(rest, 0)
    decreases |noise| - i
  {
    if i == |noise| {
      SkipPrefix(noise, rest, 0);
    } else {
      SkipNoise(noise, rest, i + 1);
      assert !Header(noise + rest, i);
    }
  }

  lemma FrameThenAnything(opcode: Byte, payload: seq<Byte>, rest: seq<Byte>)
    requires |payload| <= 255
    ensures Decode(Frame(RESP_START, opcode, payload) + rest)
         == [Notification(opcode, payload, Checksum(opcode, payload))] + Decode(rest)
  {
    var frame := Frame(RESP_START, opcode, payload);
    var buf := frame + rest;
    assert buf[4..4 + |payload|] == payload;
    assert FrameEnd(buf, 0) == |frame|;
    SkipPrefix(frame, rest, 0);
  }

  /** Noise, a frame, then anything: the frame is found whatever its payload holds. */
  lemma NoiseThenFrame(noise: seq<Byte>, opcode: Byte, payload: seq<Byte>, rest: seq<Byte>)
    requires Quiet(noise) && |payload| <= 255
    ensures Decode(noise + Frame(RESP_START, opcode, payload) + rest)
         == [Notification(opcode, payload, Checksum(opcode, payload))] + Decode(rest)
  {
    var frame := Frame(RESP_START, opcode, payload);
    assert noise + frame + rest == noise + (frame + rest);
    SkipNoise(noise, frame + rest, 0);
    FrameThenAnything(opcode, payload, rest);
  }

  datatype Chunk = Chunk(noise: seq<Byte>, opcode: Byte, payload: seq<Byte>)

  function Transmit(chunks: seq<Chunk>): seq<Byte> {
    if chunks == [] then []
    else chunks[0].noise + Frame(RESP_START, chunks[0].opcode, chunks[0].payload) + Transmit(chunks[1..])
  }

  function Sent(chunks: seq<Chunk>): seq<Notification> {
    if chunks == [] then []
    else
      var c := chunks[0];
      [Notification(c.opcode, c.payload, Checksum(c.opcode, c.payload))] + Sent(chunks[1..])
  }

  /** Any list of frames separated by noise decodes to exactly those frames, in
      order, and what follows them decodes as it would on its own. */
  lemma {:induction false} RoundTripThroughNoise(chunks: seq<Chunk>, rest: seq<Byte>)
    requires forall c :: c in chunks ==> Quiet(c.noise) && |c.payload| <= 255
    ensures Decode(Transmit(chunks) + rest) == Sent(chunks) + Decode(rest)
  {
    if chunks == [] {
      assert Transmit(chunks) + rest == rest;
    } else {
      var c := chunks[0];
      var first := c.noise + Frame(RESP_START, c.opcode, c.payload);
      assert Transmit(chunks) + rest == first + (Transmit(chunks[1..]) + rest);
      NoiseThenFrame(c.noise, c.opcode, c.payload, Transmit(chunks[1..]) + rest);
      RoundTripThroughNoise(chunks[1..], rest);
    }
  }

  /** The last byte of the noise matters: one stray F2 in front of a sit/stand
      report hides the report. */
  lemma StrayStartByteHidesStats(payload: seq<Byte>)
    requires |payload| == 6
    ensures Decode([RESP_START] + Frame(RESP_START, 0xA2, payload)) == []
  {
    var buf := [RESP_START] + Frame(RESP_START, 0xA2, payload);
    assert buf[3] == 0xA2;
    assert Overruns(buf, 0);
  }

  /** A frame survives the trip on its own exactly when its length byte did not wrap. */
  lemma RoundTripIffLengthFits(opcode: Byte, payload: seq<Byte>)
    ensures Decode(Frame(RESP_START, opcode, payload))
         == [Notification(opcode, payload, Checksum(opcode, payload))]
       <==> |payload| <= 255
  {
    if |payload| <= 255 {
      assert Frame(RESP_START, opcode, payload) + [] == Frame(RESP_START, opcode, payload);
      FrameThenAnything(opcode, payload, []);
    } else {
      var n := Notification(opcode, payload, Checksum(opcode, payload));
      PayloadsAreShort(Frame(RESP_START, opcode, payload), 0);
      assert n in [n];
    }
  }

  lemma {:induction false} PayloadsAreShort(buf: seq<Byte>, i: nat)
    ensures forall p :: p in DecodeFrom(buf, i) ==> |p.payload| <= 255
    decreases |buf| - i
  {
    if !Ended(buf, i) {
      if FrameAt(buf, i) {
        PayloadsAreShort(buf, FrameEnd(buf, i));
      } else {
        PayloadsAreShort(buf, i + 1);
      }
    }
  }

  /** Different commands never share an encoding. */
  lemma FrameInjective(start: Byte, op1: Byte, p1: seq<Byte>, op2: Byte, p2: seq<Byte>)
    requires Frame(start, op1, p1) == Frame(start, op2, p2)
    ensures op1 == op2 && p1 == p2
  {
    var f1, f2 := Frame(start, op1, p1), Frame(start, op2, p2);
    assert f1[2] == op1 && f2[2] == op2;
    assert f1[4..|f1| - 2] == p1 && f2[4..|f2| - 2] == p2;
  }

  // ---------- single-byte error detection ----------

  lemma {:induction false} SumUpdate(bs: seq<Byte>, k: nat, v: Byte)
    requires k < |bs|
    ensures Sum(bs[k := v]) == Sum(bs) - bs[k] + v
  {
    var n := |bs| - 1;
    if k == n {
      assert bs[k := v][..n] == bs[..n];
    } else {
      assert bs[k := v][..n] == bs[..n][k := v];
      SumUpdate(bs[..n], k, v);
    }
  }

  /** Changing any one byte of a frame other than its length byte is noticed. */
  lemma SingleByteErrorDetected(buf: seq<Byte>, i: nat, k: nat, v: Byte)
    requires FrameAt(buf, i)
    requires i <= k < FrameEnd(buf, i) && k != i + 3 && v != buf[k]
    ensures !FrameAt(buf[k := v], i) && !Overruns(buf[k := v], i)
  {
    var bad := buf[k := v];
    var end := FrameEnd(buf, i);
    var good := buf[i + 4..end - 2];
    if i + 4 <= k < end - 2 {
      assert bad[i + 4..end - 2] == good[k - i - 4 := v];
      ChecksumNoticesByte(buf[i + 2], good, k - i - 4, v);
    } else {
      assert bad[i + 4..end - 2] == good;
    }
  }

  lemma ChecksumNoticesByte(opcode: Byte, payload: seq<Byte>, k: nat, v: Byte)
    requires k < |payload| && v != payload[k]
    ensures Checksum(opcode, payload[k := v]) != Checksum(opcode, payload)
  {
    SumUpdate(payload, k, v);
  }

  lemma {:induction false} NothingWithoutHeaders(buf: seq<Byte>, i: nat)
    requires forall j :: i <= j < |buf| - 1 ==> buf[j] != RESP_START || buf[j + 1] != RESP_START
    ensures DecodeFrom(buf, i) == []
    decreases |buf| - i
  {
    if i + 6 <= |buf| {
      assert !Header(buf, i);
      NothingWithoutHeaders(buf, i + 1);
    }
  }

  /** A buffer holding one damaged frame and no later `F2 F2` yields nothing. */
  lemma DamagedFrameYieldsNothing(opcode: Byte, payload: seq<Byte>, k: nat, v: Byte)
    requires |payload| <= 255 && k < |payload| + 6 && k != 3
    requires v != Frame(RESP_START, opcode, payload)[k]
    requires var bad := Frame(RESP_START, opcode, payload)[k := v];
             forall j :: 1 <= j < |bad| - 1 ==> bad[j] != RESP_START || bad[j + 1] != RESP_START
    ensures Decode(Frame(RESP_START, opcode, payload)[k := v]) == []
  {
    var buf := Frame(RESP_START, opcode, payload);
    assert buf[4..|buf| - 2] == payload;
    assert FrameAt(buf, 0);
    SingleByteErrorDetected(buf, 0, k, v);
    NothingWithoutHeaders(buf[k := v], 1);
  }

  /** The length byte is not protected: shortening it can expose another frame. */
  lemma LengthByteErrorCanPass()
    ensures var buf := Frame(RESP_START, 1, [1, FRAME_END]);
            FrameAt(buf, 0) && FrameAt(buf[3 := 0], 0) && PacketAt(buf[3 := 0], 0) != PacketAt(buf, 0)
  {
    var buf := Frame(RESP_START, 1, [1, FRAME_END]);
    var bad := buf[3 := 0];
    assert buf[4..6] == [1, FRAME_END];
    assert bad[4..4] == [];
    assert Sum([]) == 0;
    assert bad[4] == 1 && bad[5] == FRAME_END;
    assert PacketAt(bad, 0).payload == [];
    assert PacketAt(buf, 0).payload == [1, FRAME_END];
  }
}
