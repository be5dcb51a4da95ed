// FPDU: the twelve-byte header every PDU struct carries, its defaults and its
// mapping to and from the DIS Pdu record, and the copy of a marshalled data
// stream into a byte array.
module PduHeaders {
  import opened EntityIds
  import opened EntityTypes

  /** A C++ unsigned int. */
  type UInt32 = x: int | 0 <= x < 0x1_0000_0000

  /** A C++ short. */
  type Int16 = x: int | -0x8000 <= x < 0x8000

  /** The header as the struct holds it: timestamp and length in single bytes. */
  datatype PduHeader = PduHeader(
    protocolVersion: Octet,
    exerciseId: Octet,
    pduType: Octet,
    protocolFamily: Octet,
    timestamp: Octet,
    length: Octet,
    padding: Int32)

  /** The header of the DIS Pdu record: a 32-bit timestamp, a 16-bit length and 16 bits of padding. */
  datatype HeaderRecord = HeaderRecord(
    protocolVersion: Octet,
    exerciseId: Octet,
    pduType: Octet,
    protocolFamily: Octet,
    timestamp: UInt32,
    length: UShort,
    padding: Int16)

  /** DIS protocol version 6 (IEEE 1278.1a-1998). */
  const ProtocolVersion6: Octet := 6

  /** The default header: version 6, exercise 0, PDU type Other, and every other field 0. */
  function DefaultHeader(): (h: PduHeader)
    ensures h.protocolVersion == 6 && h.exerciseId == 0 && h.pduType == 0
    ensures h.protocolFamily == 0 && h.timestamp == 0 && h.length == 0 && h.padding == 0
  {
    PduHeader(ProtocolVersion6, 0, 0, 0, 0, 0, 0)
  }

  /** A value stored into a short: its two's-complement low 16 bits. */
  function ToInt16(x: int): (r: Int16)
    ensures -0x8000 <= x < 0x8000 ==> r == x
    ensures (r - x) % 0x1_0000 == 0
  {
    var low := x % 0x1_0000;
    if low < 0x8000 then low else low - 0x1_0000
  }

  /** SetupFromOpenDIS: every field is copied; timestamp and length keep their low byte. */
  function HeaderFromRecord(r: HeaderRecord): (h: PduHeader)
    ensures h.protocolVersion == r.protocolVersion && h.exerciseId == r.exerciseId
    ensures h.pduType == r.pduType && h.protocolFamily == r.protocolFamily
    ensures h.timestamp == r.timestamp % 0x100 && h.length == r.length % 0x100
    ensures h.padding == r.padding
  {
    PduHeader(r.protocolVersion, r.exerciseId, r.pduType, r.protocolFamily,
              r.timestamp % 0x100, r.length % 0x100, r.padding)
  }

  /**
   * ToOpenDIS: writes every field but the protocol family into the record
   * `out`, which keeps the family its constructor gave it.
   */
  function HeaderToRecord(h: PduHeader, out: HeaderRecord): (r: HeaderRecord)
    ensures r.protocolVersion == h.protocolVersion && r.exerciseId == h.exerciseId
    ensures r.pduType == h.pduType && r.protocolFamily == out.protocolFamily
    ensures r.timestamp == h.timestamp && r.length == h.length
    ensures -0x8000 <= h.padding < 0x8000 ==> r.padding == h.padding
  {
    out.(protocolVersion := h.protocolVersion, exerciseId := h.exerciseId, pduType := h.pduType,
         timestamp := h.timestamp, length := h.length, padding := ToInt16(h.padding))
  }

  /**
   * Writing a header and reading it back gives it back, except that the
   * protocol family is the one of the record written into.
   */
  lemma HeaderRoundTrip(h: PduHeader, out: HeaderRecord)
    requires -0x8000 <= h.padding < 0x8000
    ensures HeaderFromRecord(HeaderToRecord(h, out)) == h.(protocolFamily := out.protocolFamily)
    ensures HeaderFromRecord(HeaderToRecord(h, out)) == h <==> h.protocolFamily == out.protocolFamily
  {
  }

  /** A record read and written back into itself is unchanged exactly when its timestamp and length fit a byte. */
  lemma HeaderRecordRoundTrip(r: HeaderRecord)
    ensures HeaderToRecord(HeaderFromRecord(r), r) == r <==> r.timestamp < 0x100 && r.length < 0x100
  {
    if HeaderToRecord(HeaderFromRecord(r), r) == r {
      assert r.timestamp == r.timestamp % 0x100;
      assert r.length == r.length % 0x100;
    }
  }

  /** A received length of 300 bytes is held as 44. */
  lemma LengthIsHeldModulo256()
    ensures HeaderFromRecord(HeaderRecord(6, 1, 1, 1, 0, 300, 0)).length == 44
  {
  }

  /** DISDataStreamToBytes: an array of the stream's size, byte i equal to stream[i]. */
  method DataStreamToBytes(stream: seq<Octet>) returns (bytes: array<Octet>)
    ensures fresh(bytes)
    ensures bytes[..] == stream
  {
    bytes := new Octet[|stream|](i => 0);
    var i := 0;
    while i < |stream|
      invariant 0 <= i <= |stream|
      invariant bytes[..i] == stream[..i]
    {
      bytes[i] := stream[i];
      i := i + 1;
    }
    assert bytes[..] == bytes[..|stream|];
  }
}
