// FFirePDU: the Fire PDU struct, its defaults, and its mapping to and from
// the DIS FirePdu record.
module FirePdus {
  import opened DisBase
  import opened EntityTypes
  import EI = EntityIds
  import opened Structs
  import opened PduHeaders
  import opened PduFields

  const FirePduType: Octet := 2

  datatype FirePdu = FirePdu(
    header: PduHeader,
    firingEntityId: EI.EntityId,
    targetEntityId: EI.EntityId,
    fireMissionIndex: EI.Int32,
    munitionEntityId: EI.EntityId,
    range: real,
    velocity: Vec3,
    locationDouble: Vec3,
    location: Vec3,
    eventId: EventId,
    burst: BurstDescriptor)

  /** The DIS FirePdu record; the fire mission index is an unsigned 32-bit field. */
  datatype FireRecord = FireRecord(
    header: HeaderRecord,
    firingEntityId: EI.EntityIdRecord,
    targetEntityId: EI.EntityIdRecord,
    munitionId: EI.EntityIdRecord,
    eventId: EventIdRecord,
    fireMissionIndex: UInt32,
    locationInWorld: Vec3,
    burst: BurstRecord,
    velocity: Vec3,
    range: real)

  /** The default: PDU type Fire, mission index 0, range 0, zero locations and velocity, the default burst. */
  function DefaultFirePdu(): (f: FirePdu)
    ensures f.header.pduType == FirePduType && f.header.protocolVersion == 6
    ensures f.fireMissionIndex == 0 && f.range == 0.0
    ensures f.locationDouble == ZeroVec && f.location == ZeroVec && f.velocity == ZeroVec
    ensures f.burst == DefaultBurst && f.eventId == DefaultEventId
  {
    FirePdu(DefaultHeader().(pduType := FirePduType), EI.DefaultEntityId, EI.DefaultEntityId, 0,
            EI.DefaultEntityId, 0.0, ZeroVec, ZeroVec, ZeroVec, DefaultEventId, DefaultBurst)
  }

  /** An unsigned 32-bit value stored into an int32: its two's-complement reading. */
  function ToInt32(x: UInt32): (r: EI.Int32)
    ensures x < 0x8000_0000 ==> r == x
    ensures x >= 0x8000_0000 ==> r == x - 0x1_0000_0000
  {
    if x < 0x8000_0000 then x else x - 0x1_0000_0000
  }

  /** An int32 passed to an unsigned 32-bit setter: its low 32 bits. */
  function ToUInt32(x: EI.Int32): (r: UInt32)
    ensures x >= 0 ==> r == x
    ensures x < 0 ==> r == x + 0x1_0000_0000
  {
    x % 0x1_0000_0000
  }

  /** The two conversions are inverse bijections between int32 and unsigned 32-bit values. */
  lemma MissionIndexRoundTrip(x: EI.Int32, u: UInt32)
    ensures ToInt32(ToUInt32(x)) == x
    ensures ToUInt32(ToInt32(u)) == u
  {
  }

  /**
   * SetupFromOpenDIS (on a default struct, as every caller does): every
   * field read from the record, both locations from the same position.
   */
  function ReadFire(r: FireRecord, toFloat: Rounding): FirePdu
  {
    var location := IncomingLocation(toFloat, r.locationInWorld);
    FirePdu(HeaderFromRecord(r.header), EI.FromRecord(r.firingEntityId), EI.FromRecord(r.targetEntityId),
            ToInt32(r.fireMissionIndex), EI.FromRecord(r.munitionId), r.range, r.velocity,
            location.double, location.float, EventIdFromRecord(r.eventId), BurstFromRecord(r.burst))
  }

  /** What ToOpenDIS writes into `out`: every field, and the double location only when it matches the float one. */
  function SendFire(f: FirePdu, out: FireRecord, toFloat: Rounding): FireRecord
  {
    out.(header := HeaderToRecord(f.header, out.header), firingEntityId := EI.ToRecord(f.firingEntityId),
         targetEntityId := EI.ToRecord(f.targetEntityId), munitionId := EI.ToRecord(f.munitionEntityId),
         fireMissionIndex := ToUInt32(f.fireMissionIndex), range := f.range, velocity := f.velocity,
         locationInWorld := OutgoingLocation(toFloat, f.locationDouble, f.location),
         eventId := EventIdToRecord(f.eventId), burst := BurstToRecord(f.burst))
  }

  /** A struct whose IDs, event and burst fit the record's fields and whose two locations agree. */
  predicate SendableFire(f: FirePdu, toFloat: Rounding)
  {
    -0x8000 <= f.header.padding < 0x8000 &&
    EI.InRange(f.firingEntityId) && EI.InRange(f.targetEntityId) && EI.InRange(f.munitionEntityId) &&
    0 <= f.eventId.site < 0x1_0000 && 0 <= f.eventId.application < 0x1_0000 &&
    0 <= f.eventId.eventNumber < 0x1_0000 &&
    PackedRange(f.burst.munition) && 0 <= f.burst.warhead < 0x1_0000 && 0 <= f.burst.fuse < 0x1_0000 &&
    0 <= f.burst.quantity < 0x1_0000 && 0 <= f.burst.rate < 0x1_0000 &&
    Consistent(toFloat, LocationPair(f.locationDouble, f.location))
  }

  /**
   * Munition ID, mission index (any int32), range, event ID and burst are all
   * written back, so a sendable Fire PDU comes back whole except the protocol
   * family, which is the record's.
   */
  lemma FireRoundTrip(f: FirePdu, out: FireRecord, toFloat: Rounding)
    requires SendableFire(f, toFloat)
    ensures ReadFire(SendFire(f, out, toFloat), toFloat) == f.(header := f.header.(protocolFamily := out.header.protocolFamily))
  {
    HeaderRoundTrip(f.header, out.header);
    EI.RecordRoundTrip(f.firingEntityId, EI.EntityIdRecord(0, 0, 0));
    EI.RecordRoundTrip(f.targetEntityId, EI.EntityIdRecord(0, 0, 0));
    EI.RecordRoundTrip(f.munitionEntityId, EI.EntityIdRecord(0, 0, 0));
    EventIdRoundTrip(f.eventId, EventIdRecord(0, 0, 0));
    BurstRoundTrip(f.burst);
    MissionIndexRoundTrip(f.fireMissionIndex, 0);
    LocationRoundTrip(toFloat, LocationPair(f.locationDouble, f.location), ZeroVec);
  }

  /** A record whose header fits the struct is sent back exactly as it was read. */
  lemma FireRecordRoundTrip(r: FireRecord, toFloat: Rounding)
    requires r.header.timestamp < 0x100 && r.header.length < 0x100
    ensures SendFire(ReadFire(r, toFloat), r, toFloat) == r
  {
    HeaderRecordRoundTrip(r.header);
    EI.RecordRoundTrip(EI.DefaultEntityId, r.firingEntityId);
    EI.RecordRoundTrip(EI.DefaultEntityId, r.targetEntityId);
    EI.RecordRoundTrip(EI.DefaultEntityId, r.munitionId);
    EventIdRoundTrip(DefaultEventId, r.eventId);
    BurstRecordRoundTrip(r.burst);
    MissionIndexRoundTrip(0, r.fireMissionIndex);
    LocationRoundTrip(toFloat, IncomingLocation(toFloat, r.locationInWorld), r.locationInWorld);
  }
}
