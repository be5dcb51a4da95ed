// FEntityStateUpdatePDU: the Entity State Update PDU struct, its defaults,
// and its mapping to and from the DIS EntityStateUpdatePdu record.
module EntityStateUpdatePdus {
  import opened DisBase
  import opened EntityTypes
  import EI = EntityIds
  import opened Structs
  import opened PduHeaders
  import opened PduFields
  import AL = ArticulationLists

  const EntityStateUpdatePduType: Octet := 67

  datatype EntityStateUpdatePdu = EntityStateUpdatePdu(
    header: PduHeader,
    entityId: EI.EntityId,
    locationDouble: Vec3,
    location: Vec3,
    orientation: Rotator,
    linearVelocity: Vec3,
    appearance: EI.Int32,
    padding1: EI.Int32,
    articulations: seq<Articulation>)

  /** The DIS EntityStateUpdatePdu record; its padding field is 8 bits wide. */
  datatype EntityStateUpdateRecord = EntityStateUpdateRecord(
    header: HeaderRecord,
    entityId: EI.EntityIdRecord,
    padding1: Octet,
    linearVelocity: Vec3,
    location: Vec3,
    orientation: Orientation,
    appearance: EI.Int32,
    articulations: seq<ArticulationRecord>)

  /** The default: PDU type Entity State Update, zero vectors, appearance and padding 0, no articulations. */
  function DefaultEntityStateUpdatePdu(): (u: EntityStateUpdatePdu)
    ensures u.header.pduType == EntityStateUpdatePduType && u.header.protocolVersion == 6
    ensures u.locationDouble == ZeroVec && u.location == ZeroVec && u.linearVelocity == ZeroVec
    ensures u.appearance == 0 && u.padding1 == 0 && u.articulations == []
  {
    EntityStateUpdatePdu(DefaultHeader().(pduType := EntityStateUpdatePduType), EI.DefaultEntityId,
                         ZeroVec, ZeroVec, ZeroRotator, ZeroVec, 0, 0, [])
  }

  /** What SetupFromOpenDIS makes of `prior`: every field read from the record, articulations appended. */
  function ReadEntityStateUpdate(prior: EntityStateUpdatePdu, r: EntityStateUpdateRecord, toFloat: Rounding, c: FloatCodec)
    : EntityStateUpdatePdu
  {
    var location := IncomingLocation(toFloat, r.location);
    prior.(header := HeaderFromRecord(r.header), entityId := EI.FromRecord(r.entityId),
           locationDouble := location.double, location := location.float,
           orientation := OrientationFromRecord(r.orientation), linearVelocity := r.linearVelocity,
           padding1 := r.padding1, appearance := r.appearance,
           articulations := prior.articulations + AL.FromRecords(r.articulations, c))
  }

  /** What ToOpenDIS writes into `out`: every field, the padding narrowed to 8 bits. */
  function SendEntityStateUpdate(u: EntityStateUpdatePdu, out: EntityStateUpdateRecord, toFloat: Rounding, c: FloatCodec)
    : EntityStateUpdateRecord
  {
    out.(header := HeaderToRecord(u.header, out.header), entityId := EI.ToRecord(u.entityId),
         padding1 := Low8(u.padding1), linearVelocity := u.linearVelocity,
         location := OutgoingLocation(toFloat, u.locationDouble, u.location),
         orientation := OrientationToRecord(u.orientation), appearance := u.appearance,
         articulations := AL.ToRecords(u.articulations, c))
  }

  /** SetupFromOpenDIS, field by field, with the appending articulation loop. */
  method SetupFromOpenDis(pdu: EntityStateUpdatePdu, r: EntityStateUpdateRecord, toFloat: Rounding, c: FloatCodec)
    returns (updated: EntityStateUpdatePdu)
    ensures updated == ReadEntityStateUpdate(pdu, r, toFloat, c)
  {
    updated := pdu.(header := HeaderFromRecord(r.header));
    updated := updated.(entityId := EI.FromRecord(r.entityId));
    var location := IncomingLocation(toFloat, r.location);
    updated := updated.(locationDouble := location.double, location := location.float);
    updated := updated.(orientation := OrientationFromRecord(r.orientation));
    updated := updated.(linearVelocity := r.linearVelocity);
    updated := updated.(padding1 := r.padding1, appearance := r.appearance);
    var articulations := AL.AppendFromRecords(updated.articulations, r.articulations, c);
    updated := updated.(articulations := articulations);
  }

  /** ToOpenDIS, setter by setter, with the loop that builds the record vector. */
  method ToOpenDis(u: EntityStateUpdatePdu, out: EntityStateUpdateRecord, toFloat: Rounding, c: FloatCodec)
    returns (r: EntityStateUpdateRecord)
    ensures r == SendEntityStateUpdate(u, out, toFloat, c)
  {
    r := out.(header := HeaderToRecord(u.header, out.header));
    r := r.(entityId := EI.ToRecord(u.entityId), padding1 := Low8(u.padding1));
    r := r.(linearVelocity := u.linearVelocity);
    r := r.(location := OutgoingLocation(toFloat, u.locationDouble, u.location));
    r := r.(orientation := OrientationToRecord(u.orientation), appearance := u.appearance);
    var records := AL.BuildRecords(u.articulations, c);
    r := r.(articulations := records);
  }

  /** A struct whose numbers all fit the record's fields and whose two locations agree. */
  predicate SendableUpdate(u: EntityStateUpdatePdu, toFloat: Rounding)
  {
    EI.InRange(u.entityId) && -0x8000 <= u.header.padding < 0x8000 && 0 <= u.padding1 < 0x100 &&
    Consistent(toFloat, LocationPair(u.locationDouble, u.location)) &&
    forall i :: 0 <= i < |u.articulations| ==> AL.Sendable(u.articulations[i])
  }

  /**
   * Sending a sendable update and reading it into a default struct gives it
   * back, except the protocol family (the record's) and the parts of each
   * articulation that its designator says are not carried.
   */
  lemma UpdateRoundTrip(u: EntityStateUpdatePdu, out: EntityStateUpdateRecord, toFloat: Rounding, c: FloatCodec)
    requires SendableUpdate(u, toFloat) && ExactWidening(c)
    ensures var back := ReadEntityStateUpdate(DefaultEntityStateUpdatePdu(), SendEntityStateUpdate(u, out, toFloat, c), toFloat, c);
            back.(articulations := u.articulations) == u.(header := u.header.(protocolFamily := out.header.protocolFamily)) &&
            AL.SameCarriedParts(back.articulations, u.articulations)
  {
    HeaderRoundTrip(u.header, out.header);
    EI.RecordRoundTrip(u.entityId, EI.EntityIdRecord(0, 0, 0));
    LocationRoundTrip(toFloat, LocationPair(u.locationDouble, u.location), ZeroVec);
    AL.ListRoundTrip(u.articulations, c);
  }

  /**
   * A record whose header fits the struct and which carries no articulated
   * part is sent back exactly as it was read.
   */
  lemma UpdateRecordRoundTrip(r: EntityStateUpdateRecord, toFloat: Rounding, c: FloatCodec)
    requires r.header.timestamp < 0x100 && r.header.length < 0x100
    requires forall i :: 0 <= i < |r.articulations| ==> r.articulations[i].designator != ArticulatedPart
    ensures SendEntityStateUpdate(ReadEntityStateUpdate(DefaultEntityStateUpdatePdu(), r, toFloat, c), r, toFloat, c) == r
  {
    HeaderRecordRoundTrip(r.header);
    EI.RecordRoundTrip(EI.DefaultEntityId, r.entityId);
    LocationRoundTrip(toFloat, IncomingLocation(toFloat, r.location), r.location);
    AL.AttachedRecordsRoundTrip(r.articulations, c);
  }
}
