// FDetonationPDU: the Detonation PDU struct, its defaults, and its mapping
// to and from the DIS DetonationPdu record. The burst descriptor is read but
// never written back; `SendDetonationWithBurst` is the mapping with it.
module DetonationPdus {
  import opened DisBase
  import opened EntityTypes
  import EI = EntityIds
  import opened Structs
  import opened PduHeaders
  import opened PduFields
  import AL = ArticulationLists

  const DetonationPduType: Octet := 3

  /** EDetonationResult::Other. */
  const ResultOther: Octet := 0

  datatype DetonationPdu = DetonationPdu(
    header: PduHeader,
    firingEntityId: EI.EntityId,
    targetEntityId: EI.EntityId,
    munitionEntityId: EI.EntityId,
    eventId: EventId,
    velocity: Vec3,
    ecefLocation: Vec3,
    burst: BurstDescriptor,
    locationInEntityCoords: Vec3,
    result: Octet,
    pad: EI.Int32,
    articulations: seq<Articulation>)

  /** The DIS DetonationPdu record; the world location is a double vector, the pad a short. */
  datatype DetonationRecord = DetonationRecord(
    header: HeaderRecord,
    firingEntityId: EI.EntityIdRecord,
    targetEntityId: EI.EntityIdRecord,
    munitionId: EI.EntityIdRecord,
    eventId: EventIdRecord,
    velocity: Vec3,
    locationInWorld: Vec3,
    burst: BurstRecord,
    locationInEntity: Vec3,
    result: Octet,
    pad: Int16,
    articulations: seq<ArticulationRecord>)

  /** The default: PDU type Detonation, zero vectors, result Other, pad 0, the default burst, no articulations. */
  function DefaultDetonationPdu(): (d: DetonationPdu)
    ensures d.header.pduType == DetonationPduType && d.header.protocolVersion == 6
    ensures d.velocity == ZeroVec && d.ecefLocation == ZeroVec && d.locationInEntityCoords == ZeroVec
    ensures d.result == ResultOther && d.pad == 0 && d.burst == DefaultBurst && d.articulations == []
  {
    DetonationPdu(DefaultHeader().(pduType := DetonationPduType), EI.DefaultEntityId, EI.DefaultEntityId,
                  EI.DefaultEntityId, DefaultEventId, ZeroVec, ZeroVec, DefaultBurst, ZeroVec, ResultOther, 0, [])
  }

  /**
   * What SetupFromOpenDIS makes of `prior`: every field read from the record,
   * the world location cast to float, articulations appended.
   */
  function ReadDetonation(prior: DetonationPdu, r: DetonationRecord, toFloat: Rounding, c: FloatCodec): DetonationPdu
  {
    prior.(header := HeaderFromRecord(r.header), firingEntityId := EI.FromRecord(r.firingEntityId),
           targetEntityId := EI.FromRecord(r.targetEntityId), munitionEntityId := EI.FromRecord(r.munitionId),
           eventId := EventIdFromRecord(r.eventId), velocity := r.velocity,
           ecefLocation := RoundVec(toFloat, r.locationInWorld), locationInEntityCoords := r.locationInEntity,
           burst := BurstFromRecord(r.burst), result := r.result, pad := r.pad,
           articulations := prior.articulations + AL.FromRecords(r.articulations, c))
  }

  /** What ToOpenDIS writes into `out`: every field except the burst descriptor, which keeps `out`'s. */
  function SendDetonation(d: DetonationPdu, out: DetonationRecord, c: FloatCodec): DetonationRecord
  {
    out.(header := HeaderToRecord(d.header, out.header), firingEntityId := EI.ToRecord(d.firingEntityId),
         targetEntityId := EI.ToRecord(d.targetEntityId), eventId := EventIdToRecord(d.eventId),
         munitionId := EI.ToRecord(d.munitionEntityId), velocity := d.velocity,
         locationInWorld := d.ecefLocation, locationInEntity := d.locationInEntityCoords,
         result := d.result, pad := ToInt16(d.pad), articulations := AL.ToRecords(d.articulations, c))
  }

  /** The mapping the Fire PDU's ToOpenDIS suggests: the same, with the burst descriptor written too. */
  function SendDetonationWithBurst(d: DetonationPdu, out: DetonationRecord, c: FloatCodec): DetonationRecord
  {
    SendDetonation(d, out, c).(burst := BurstToRecord(d.burst))
  }

  /** SetupFromOpenDIS, field by field, with the appending articulation loop. */
  method SetupFromOpenDis(pdu: DetonationPdu, r: DetonationRecord, toFloat: Rounding, c: FloatCodec)
    returns (updated: DetonationPdu)
    ensures updated == ReadDetonation(pdu, r, toFloat, c)
  {
    updated := pdu.(header := HeaderFromRecord(r.header));
    updated := updated.(firingEntityId := EI.FromRecord(r.firingEntityId));
    updated := updated.(targetEntityId := EI.FromRecord(r.targetEntityId));
    updated := updated.(munitionEntityId := EI.FromRecord(r.munitionId));
    updated := updated.(eventId := EventIdFromRecord(r.eventId));
    updated := updated.(velocity := r.velocity);
    updated := updated.(ecefLocation := RoundVec(toFloat, r.locationInWorld));
    updated := updated.(locationInEntityCoords := r.locationInEntity);
    updated := updated.(burst := BurstFromRecord(r.burst));
    updated := updated.(result := r.result, pad := r.pad);
    var articulations := AL.AppendFromRecords(updated.articulations, r.articulations, c);
    updated := updated.(articulations := articulations);
  }

  /** ToOpenDIS as written, setter by setter, with the loop that builds the record vector. */
  method ToOpenDis(d: DetonationPdu, out: DetonationRecord, c: FloatCodec) returns (r: DetonationRecord)
    ensures r == SendDetonation(d, out, c)
  {
    r := out.(header := HeaderToRecord(d.header, out.header));
    r := r.(firingEntityId := EI.ToRecord(d.firingEntityId), targetEntityId := EI.ToRecord(d.targetEntityId));
    r := r.(eventId := EventIdToRecord(d.eventId), munitionId := EI.ToRecord(d.munitionEntityId));
    r := r.(velocity := d.velocity);
    r := r.(locationInWorld := d.ecefLocation);
    r := r.(locationInEntity := d.locationInEntityCoords);
    r := r.(result := d.result, pad := ToInt16(d.pad));
    var records := AL.BuildRecords(d.articulations, c);
    r := r.(articulations := records);
  }

  /**
   * As written, the burst read back is whatever the record written into
   * held: a detonation of five rounds sent in a record whose burst is zero
   * comes back with a quantity of zero.
   */
  lemma DetonationBurstIsDropped(d: DetonationPdu, out: DetonationRecord, toFloat: Rounding, c: FloatCodec)
    ensures ReadDetonation(DefaultDetonationPdu(), SendDetonation(d, out, c), toFloat, c).burst == BurstFromRecord(out.burst)
    ensures out.burst.quantity == 0 && d.burst.quantity == 5 ==>
              ReadDetonation(DefaultDetonationPdu(), SendDetonation(d, out, c), toFloat, c).burst != d.burst
  {
  }

  /** A struct whose numbers fit the record's fields and whose world location is made of floats. */
  predicate SendableDetonation(d: DetonationPdu, toFloat: Rounding)
  {
    -0x8000 <= d.header.padding < 0x8000 && -0x8000 <= d.pad < 0x8000 &&
    EI.InRange(d.firingEntityId) && EI.InRange(d.targetEntityId) && EI.InRange(d.munitionEntityId) &&
    0 <= d.eventId.site < 0x1_0000 && 0 <= d.eventId.application < 0x1_0000 &&
    0 <= d.eventId.eventNumber < 0x1_0000 &&
    PackedRange(d.burst.munition) && 0 <= d.burst.warhead < 0x1_0000 && 0 <= d.burst.fuse < 0x1_0000 &&
    0 <= d.burst.quantity < 0x1_0000 && 0 <= d.burst.rate < 0x1_0000 &&
    RoundVec(toFloat, d.ecefLocation) == d.ecefLocation &&
    forall i :: 0 <= i < |d.articulations| ==> AL.Sendable(d.articulations[i])
  }

  /**
   * With the burst written, a sendable detonation comes back as it was sent,
   * except the protocol family (the record's) and the parts of each
   * articulation that its designator says are not carried.
   */
  lemma DetonationRoundTrip(d: DetonationPdu, out: DetonationRecord, toFloat: Rounding, c: FloatCodec)
    requires SendableDetonation(d, toFloat) && ExactWidening(c)
    ensures var back := ReadDetonation(DefaultDetonationPdu(), SendDetonationWithBurst(d, out, c), toFloat, c);
            back.(articulations := d.articulations) == d.(header := d.header.(protocolFamily := out.header.protocolFamily)) &&
            AL.SameCarriedParts(back.articulations, d.articulations)
  {
    HeaderRoundTrip(d.header, out.header);
    EI.RecordRoundTrip(d.firingEntityId, EI.EntityIdRecord(0, 0, 0));
    EI.RecordRoundTrip(d.targetEntityId, EI.EntityIdRecord(0, 0, 0));
    EI.RecordRoundTrip(d.munitionEntityId, EI.EntityIdRecord(0, 0, 0));
    EventIdRoundTrip(d.eventId, EventIdRecord(0, 0, 0));
    BurstRoundTrip(d.burst);
    AL.ListRoundTrip(d.articulations, c);
  }

  /**
   * A record whose header fits the struct and which carries no articulated
   * part is sent back with only its world location changed: cast to float.
   * Written into the record it was read from, the burst is that record's.
   */
  lemma DetonationRecordRoundTrip(r: DetonationRecord, toFloat: Rounding, c: FloatCodec)
    requires r.header.timestamp < 0x100 && r.header.length < 0x100
    requires forall i :: 0 <= i < |r.articulations| ==> r.articulations[i].designator != ArticulatedPart
    ensures SendDetonation(ReadDetonation(DefaultDetonationPdu(), r, toFloat, c), r, c) ==
              r.(locationInWorld := RoundVec(toFloat, r.locationInWorld))
    ensures SendDetonationWithBurst(ReadDetonation(DefaultDetonationPdu(), r, toFloat, c), r, c) ==
              r.(locationInWorld := RoundVec(toFloat, r.locationInWorld))
  {
    HeaderRecordRoundTrip(r.header);
    EI.RecordRoundTrip(EI.DefaultEntityId, r.firingEntityId);
    EI.RecordRoundTrip(EI.DefaultEntityId, r.targetEntityId);
    EI.RecordRoundTrip(EI.DefaultEntityId, r.munitionId);
    EventIdRoundTrip(DefaultEventId, r.eventId);
    BurstRecordRoundTrip(r.burst);
    AL.AttachedRecordsRoundTrip(r.articulations, c);
  }
}
