/** Desk heights in millimetres: rounding, wire encoding and the arrival test
    (desk/height.go), and the height report carried by FE62 (desk/desk.go). */
module Heights {
  import opened Wrappers
  import opened Packet
  import PacketTheory

  /** Go's math.Round: to the nearest integer, halves away from zero. */
  function Round(x: real): int {
    if x >= 0.0 then (x + 0.5).Floor else -((-x + 0.5).Floor)
  }

  /** Go's conversion of an in-range float to uint16. Outside 0..65535 Go leaves
      the result to the implementation; this takes the low 16 bits. */
  function ToUint16(n: int): (u: nat)
    ensures u < 65536
  {
    n % 65536
  }

  function BigEndian(u: nat): seq<Byte>
    requires u < 65536
  {
    [u / 256, u % 256]
  }

  function FromBigEndian(hi: Byte, lo: Byte): (u: nat)
    ensures u < 65536
  {
    hi as int * 256 + lo
  }

  function MillimetreBytes(h: real): (b: seq<Byte>)
    ensures |b| == 2
  {
    BigEndian(ToUint16(Round(h)))
  }

  predicate Near(h: real, other: real, tolerance: real) {
    var diff := h - other;
    (if diff < 0.0 then -diff else diff) <= tolerance
  }

  /** Opcode 0x01 with at least three payload bytes: a height in whole millimetres. */
  function DecodeHeightPayload(opcode: Byte, payload: seq<Byte>): Option<real> {
    if opcode != 0x01 || |payload| < 3 then None
    else Some(FromBigEndian(payload[0], payload[1]) as real)
  }

  /** The frame in which a desk standing at whole millimetre u reports its height. */
  function ReportFrame(b: seq<Byte>): seq<Byte>
    requires |b| == 2
  {
    Frame(RESP_START, 0x01, b + [0])
  }

  /** The height a receiver reads out of an attribute value's first packet. */
  function HeightIn(buf: seq<Byte>): Option<real> {
    var packets := Decode(buf);
    if packets == [] then None else DecodeHeightPayload(packets[0].opcode, packets[0].payload)
  }

  predicate InRange(target: real) {
    0.0 <= target <= 65535.0
  }

  /** The arrival test is the distance from the other height, on either side. */
  lemma NearIff(h: real, other: real, tolerance: real)
    ensures Near(h, other, tolerance) <==> other - tolerance <= h <= other + tolerance
  {
  }

  /** Rounding is to the nearest integer, a half going up above zero and down below. */
  lemma RoundIff(x: real, n: int)
    ensures x >= 0.0 ==> (Round(x) == n <==> n as real - 0.5 <= x < n as real + 0.5)
    ensures x <= 0.0 ==> (Round(x) == n <==> n as real - 0.5 < x <= n as real + 0.5)
  {
  }

  lemma RoundIsNearest(x: real)
    requires InRange(x)
    ensures 0 <= Round(x) <= 65535
    ensures x - 0.5 < Round(x) as real <= x + 0.5
    ensures Near(Round(x) as real, x, 0.5)
  {
  }

  /** The two bytes of a move-to-height command, read as a number, are the nearest
      whole millimetre. */
  lemma BytesAreNearest(target: real)
    requires InRange(target)
    ensures var b := MillimetreBytes(target);
            target - 0.5 < (b[0] as int * 256 + b[1] as int) as real <= target + 0.5
  {
    RoundIsNearest(target);
    var u := Round(target);
    assert u / 256 * 256 + u % 256 == u;
  }

  lemma ReportDecodes(b: seq<Byte>)
    requires |b| == 2
    ensures HeightIn(ReportFrame(b)) == Some(FromBigEndian(b[0], b[1]) as real)
  {
    PacketTheory.FrameThenAnything(0x01, b + [0], []);
    assert ReportFrame(b) + [] == ReportFrame(b);
  }

  lemma BytesRoundTrip(u: nat)
    requires u < 65536
    ensures FromBigEndian(u / 256, u % 256) == u
  {
  }

  lemma BytesOfTarget(target: real)
    requires InRange(target)
    ensures 0 <= Round(target) < 65536 && MillimetreBytes(target) == BigEndian(Round(target))
  {
    RoundIsNearest(target);
  }

  /** What a desk that goes exactly where it was told reports. */
  lemma ReportedHeight(target: real)
    requires InRange(target)
    ensures HeightIn(ReportFrame(MillimetreBytes(target))) == Some(Round(target) as real)
  {
    BytesOfTarget(target);
    var u := Round(target);
    var b := BigEndian(u);
    assert b[0] == u / 256 && b[1] == u % 256;
    BytesRoundTrip(u);
    ReportDecodes(b);
  }

  /** The bytes of a move-to-height command are within half a millimetre of the
      target, and a desk that reports exactly those bytes is recognised as arrived
      under every tolerance of at least half a millimetre. */
  lemma EndToEndHeight(target: real, tolerance: real)
    requires InRange(target) && tolerance >= 0.5
    ensures var reported := HeightIn(ReportFrame(MillimetreBytes(target)));
            && reported.Some? && target - 0.5 < reported.value <= target + 0.5
            && Near(reported.value, target, 0.5) && Near(reported.value, target, tolerance)
  {
    RoundIsNearest(target);
    ReportedHeight(target);
  }

  /** Half a millimetre is the exact threshold: only from there on is every target
      reachable by the desk that goes where it was told. */
  lemma ToleranceThreshold(tolerance: real)
    ensures tolerance >= 0.5 <==>
            forall target :: InRange(target) ==>
              var reported := HeightIn(ReportFrame(MillimetreBytes(target)));
              && reported.Some? && Near(reported.value, target, tolerance)
              && target - tolerance <= reported.value <= target + tolerance
  {
    if tolerance >= 0.5 {
      forall target | InRange(target)
        ensures var reported := HeightIn(ReportFrame(MillimetreBytes(target)));
                && reported.Some? && Near(reported.value, target, tolerance)
                && target - tolerance <= reported.value <= target + tolerance
      {
        EndToEndHeight(target, tolerance);
        NearIff(HeightIn(ReportFrame(MillimetreBytes(target))).value, target, tolerance);
      }
    } else {
      assert InRange(0.5);
      assert Round(0.5) == 1;
      ReportedHeight(0.5);
    }
  }

  /** Every height the desk can report re-encodes to the bytes it came in. */
  lemma ReencodeIsIdentity(hi: Byte, lo: Byte)
    ensures HeightIn(ReportFrame([hi, lo])).Some?
    ensures MillimetreBytes(HeightIn(ReportFrame([hi, lo])).value) == [hi, lo]
  {
    ReportDecodes([hi, lo]);
    RoundOfWhole(FromBigEndian(hi, lo));
  }

  lemma RoundOfWhole(n: nat)
    ensures Round(n as real) == n
  {
  }

  /** The report of a desk measured at 793 mm, byte by byte. */
  lemma MeasuredReport()
    ensures Decode([0xF2, 0xF2, 0x01, 0x03, 0x03, 0x19, 0x00, 0x20, 0x7E])
         == [Notification(0x01, [0x03, 0x19, 0x00], 0x20)]
    ensures HeightIn([0xF2, 0xF2, 0x01, 0x03, 0x03, 0x19, 0x00, 0x20, 0x7E]) == Some(793.0)
  {
    var buf: seq<Byte> := [0xF2, 0xF2, 0x01, 0x03, 0x03, 0x19, 0x00, 0x20, 0x7E];
    SumOfReport();
    assert buf[2..7] == [0x01, 0x03, 0x03, 0x19, 0x00];
    assert buf[4..7] == [0x03, 0x19, 0x00];
    FrameBytes(buf, 0);
    assert DecodeFrom(buf, 9) == [];
  }

  lemma SumOfReport()
    ensures Sum([0x01, 0x03, 0x03, 0x19, 0x00]) == 0x20
  {
    SumConcat([0x01, 0x03, 0x03, 0x19], [0x00]);
    SumConcat([0x01, 0x03, 0x03], [0x19]);
    SumConcat([0x01, 0x03], [0x03]);
    SumConcat([0x01], [0x03]);
    SumOne(0x00);
    SumOne(0x19);
    SumOne(0x03);
    SumOne(0x01);
    assert [0x01] + [0x03] == [0x01, 0x03];
    assert [0x01, 0x03] + [0x03] == [0x01, 0x03, 0x03];
    assert [0x01, 0x03, 0x03] + [0x19] == [0x01, 0x03, 0x03, 0x19];
    assert [0x01, 0x03, 0x03, 0x19] + [0x00] == [0x01, 0x03, 0x03, 0x19, 0x00];
  }
}
