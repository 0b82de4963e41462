/** FE60 packet framing: the command encoder and the resynchronising scanner for
    FE62 attribute values (internal/protocol/packet.go). */
module Packet {

  type Byte = b: int | 0 <= b < 256

  const CMD_START: Byte := 0xF1
  const RESP_START: Byte := 0xF2
  const FRAME_END: Byte := 0x7E

  /** One parsed FE62 packet. */
  datatype Notification = Notification(opcode: Byte, payload: seq<Byte>, checksum: Byte)

  function Sum(bs: seq<Byte>): nat {
    if bs == [] then 0 else Sum(bs[..|bs| - 1]) + bs[|bs| - 1]
  }

  lemma SumAppend(bs: seq<Byte>, k: nat)
    requires k < |bs|
    ensures Sum(bs[..k + 1]) == Sum(bs[..k]) + bs[k]
  {
    assert bs[..k + 1][..k] == bs[..k];
  }

  /** The frame check: opcode, payload length and payload bytes, summed modulo 256. */
  function Checksum(opcode: Byte, payload: seq<Byte>): Byte {
    (opcode + |payload| + Sum(payload)) % 256
  }

  /** The bytes of a frame. The length byte wraps for payloads over 255 bytes. */
  function Frame(start: Byte, opcode: Byte, payload: seq<Byte>): seq<Byte> {
    [start, start, opcode, |payload| % 256] + payload + [Checksum(opcode, payload), FRAME_END]
  }

  lemma SumOne(b: Byte)
    ensures Sum([]) == 0 && Sum([b]) == b
  {
    assert [b][..0] == [];
  }

  /** Sum is the one function that adds up over concatenation and is the byte itself on
      single bytes. */
  lemma {:induction false} SumConcat(a: seq<Byte>, b: seq<Byte>)
    ensures Sum(a + b) == Sum(a) + Sum(b)
  {
    if b == [] {
      assert a + b == a;
    } else {
      var n := |b| - 1;
      assert (a + b)[..|a + b| - 1] == a + b[..n];
      SumConcat(a, b[..n]);
    }
  }

  /** The bytes of a frame, whatever the payload: its check byte is the sum modulo 256
      of all bytes between the start mark and itself. */
  lemma FrameLayout(start: Byte, opcode: Byte, payload: seq<Byte>)
    ensures var f := Frame(start, opcode, payload);
            && |f| == |payload| + 6
            && f[0] == start && f[1] == start && f[2] == opcode && f[3] == |payload| % 256
            && f[4..|f| - 2] == payload
            && f[|f| - 1] == 0x7E
            && Sum(f[2..|f| - 2]) % 256 == f[|f| - 2]
  {
    hide Sum;
    var f := Frame(start, opcode, payload);
    var length: Byte := |payload| % 256;
    assert f[4..|f| - 2] == payload;
    assert f[2..|f| - 2] == [opcode, length] + payload;
    SumBehindTwo(opcode, length, payload);
  }

  lemma SumBehindTwo(a: Byte, b: Byte, payload: seq<Byte>)
    ensures Sum([a, b] + payload) == a + b + Sum(payload)
  {
    SumConcat([a, b], payload);
    assert [a, b] == [a] + [b];
    SumConcat([a], [b]);
    SumOne(a);
    SumOne(b);
  }

  // ---------- the scanner's vocabulary ----------

  /** `F2 F2` at offset i, with room for the smallest frame. */
  predicate Header(buf: seq<Byte>, i: nat) {
    i + 6 <= |buf| && buf[i] == RESP_START && buf[i + 1] == RESP_START
  }

  function FrameEnd(buf: seq<Byte>, i: nat): nat
    requires Header(buf, i)
  {
    i + 6 + buf[i + 3]
  }

  /** A header whose claimed length runs past the end of the buffer. */
  predicate Overruns(buf: seq<Byte>, i: nat) {
    Header(buf, i) && FrameEnd(buf, i) > |buf|
  }

  /** A complete frame with the right terminator and checksum. */
  predicate FrameAt(buf: seq<Byte>, i: nat) {
    && Header(buf, i)
    && var end := FrameEnd(buf, i);
    && end <= |buf|
    && buf[end - 1] == FRAME_END
    && Checksum(buf[i + 2], buf[i + 4..end - 2]) == buf[end - 2]
  }

  function PacketAt(buf: seq<Byte>, i: nat): Notification
    requires FrameAt(buf, i)
  {
    var end := FrameEnd(buf, i);
    Notification(buf[i + 2], buf[i + 4..end - 2], buf[end - 2])
  }

  /** A valid frame in terms of its bytes alone, and the packet it holds. */
  lemma FrameBytes(buf: seq<Byte>, i: nat)
    requires i + 6 <= |buf|
    ensures Overruns(buf, i) <==> buf[i] == 0xF2 && buf[i + 1] == 0xF2 && i + 6 + buf[i + 3] > |buf|
    ensures FrameAt(buf, i) <==>
      && buf[i] == 0xF2 && buf[i + 1] == 0xF2
      && i + 6 + buf[i + 3] <= |buf|
      && buf[i + 5 + buf[i + 3]] == 0x7E
      && Sum(buf[i + 2..i + 4 + buf[i + 3]]) % 256 == buf[i + 4 + buf[i + 3]]
    ensures FrameAt(buf, i) ==>
      FrameEnd(buf, i) == i + 6 + buf[i + 3] &&
      PacketAt(buf, i) == Notification(buf[i + 2], buf[i + 4..i + 4 + buf[i + 3]], buf[i + 4 + buf[i + 3]])
  {
    var n: nat := buf[i + 3];
    if i + 6 + n <= |buf| {
      var payload := buf[i + 4..i + 4 + n];
      assert buf[i + 2..i + 4 + n] == [buf[i + 2], buf[i + 3]] + payload;
      SumBehindTwo(buf[i + 2], buf[i + 3], payload);
    }
  }

  /** What a scan that has reached offset i still finds. */
  function DecodeFrom(buf: seq<Byte>, i: nat): seq<Notification>
    decreases |buf| - i
  {
    if i + 6 > |buf| || Overruns(buf, i) then []
    else if FrameAt(buf, i) then [PacketAt(buf, i)] + DecodeFrom(buf, FrameEnd(buf, i))
    else DecodeFrom(buf, i + 1)
  }

  function Decode(buf: seq<Byte>): seq<Notification> {
    DecodeFrom(buf, 0)
  }

  // ---------- the code ----------

  method ComputeChecksum(opcode: Byte, payload: seq<Byte>) returns (cs: Byte)
    ensures cs == Checksum(opcode, payload)
  {
    cs := (opcode + |payload| % 256) % 256;
    for k := 0 to |payload|
      invariant cs == (opcode + |payload| + Sum(payload[..k])) % 256
    {
      SumAppend(payload, k);
      cs := (cs + payload[k]) % 256;
    }
    assert payload[..|payload|] == payload;
  }

  method MakeCommand(opcode: Byte, payload: seq<Byte>) returns (buf: seq<Byte>)
    ensures buf == Frame(CMD_START, opcode, payload)
    ensures |buf| == |payload| + 6
    ensures buf[0] == 0xF1 && buf[1] == 0xF1 && buf[2] == opcode && buf[3] == |payload| % 256
    ensures buf[4..|buf| - 2] == payload && buf[|buf| - 1] == 0x7E
    ensures Sum(buf[2..|buf| - 2]) % 256 == buf[|buf| - 2]
  {
    var cs := ComputeChecksum(opcode, payload);
    buf := [];
    buf := buf + [CMD_START, CMD_START, opcode, |payload| % 256];
    buf := buf + payload;
    buf := buf + [cs, FRAME_END];
    FrameLayout(CMD_START, opcode, payload);
  }

  method DecodeResponses(buf: seq<Byte>) returns (out: seq<Notification>)
    ensures out == Decode(buf)
  {
    out := [];
    var i := 0;
    while i + 6 <= |buf|
      invariant 0 <= i
      invariant out + DecodeFrom(buf, i) == Decode(buf)
      decreases |buf| - i
    {
      if buf[i] != RESP_START || buf[i + 1] != RESP_START {
        i := i + 1;
        continue;
      }
      var payloadLen: nat := buf[i + 3];
      var totalLen: nat := 2 + 1 + 1 + payloadLen + 1 + 1;
      if i + totalLen > |buf| {
        break;
      }
      var opcode := buf[i + 2];
      var payload := buf[i + 4..i + 4 + payloadLen];
      var cs := buf[i + totalLen - 2];
      var computed := ComputeChecksum(opcode, payload);
      if buf[i + totalLen - 1] != FRAME_END || computed != cs {
        i := i + 1;
        continue;
      }
      out := out + [Notification(opcode, payload, cs)];
      i := i + totalLen;
    }
  }

  /** The first packet of an attribute value, if there is one. */
  method DecodeResponse(buf: seq<Byte>) returns (opcode: Byte, payload: seq<Byte>, ok: bool)
    ensures ok == (Decode(buf) != [])
    ensures ok ==> opcode == Decode(buf)[0].opcode && payload == Decode(buf)[0].payload
    ensures !ok ==> opcode == 0 && payload == []
  {
    var packets := DecodeResponses(buf);
    if |packets| == 0 {
      return 0, [], false;
    }
    return packets[0].opcode, packets[0].payload, true;
  }
}
