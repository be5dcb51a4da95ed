// FEntityStatePDU: the Entity State PDU struct, its defaults, its mapping to
// and from the DIS EntityStatePdu record, and the assignment that merges an
// Entity State Update PDU into it.
module EntityStatePdus {
  import opened DisBase
  import opened EntityTypes
  import EI = EntityIds
  import opened Structs
  import opened PduHeaders
  import opened PduFields
  import AL = ArticulationLists
  import ESU = EntityStateUpdatePdus

  const EntityStatePduType: Octet := 1

  /** EForceID::Other. */
  const ForceOther: Octet := 0

  datatype EntityStatePdu = EntityStatePdu(
    header: PduHeader,
    entityId: EI.EntityId,
    forceId: Octet,
    locationDouble: Vec3,
    location: Vec3,
    orientation: Rotator,
    marking: string,
    linearVelocity: Vec3,
    deadReckoning: DeadReckoningParameters,
    entityType: EntityType,
    appearance: EI.Int32,
    capabilities: EI.Int32,
    alternativeType: EntityType,
    articulations: seq<Articulation>)

  /** The DIS EntityStatePdu record. */
  datatype EntityStateRecord = EntityStateRecord(
    header: HeaderRecord,
    entityId: EI.EntityIdRecord,
    forceId: Octet,
    entityType: EntityTypeRecord,
    alternativeType: EntityTypeRecord,
    linearVelocity: Vec3,
    location: Vec3,
    orientation: Orientation,
    appearance: EI.Int32,
    deadReckoning: DeadReckoningRecord,
    marking: MarkingRecord,
    capabilities: EI.Int32,
    articulations: seq<ArticulationRecord>)

  /**
   * The default: PDU type Entity State, force Other, empty marking, zero
   * locations, orientation and velocity, Static dead reckoning, wildcard
   * types, zero appearance and capabilities, no articulations.
   */
  function DefaultEntityStatePdu(): (p: EntityStatePdu)
    ensures p.header.pduType == EntityStatePduType && p.header.protocolVersion == 6
    ensures p.forceId == ForceOther && p.marking == ""
    ensures p.locationDouble == ZeroVec && p.location == ZeroVec && p.linearVelocity == ZeroVec
    ensures p.appearance == 0 && p.capabilities == 0 && p.articulations == []
    ensures p.deadReckoning.algorithm == DrStatic && |p.deadReckoning.otherParameters| == OtherParametersLength
    ensures p.entityType == DefaultEntityType && p.alternativeType == DefaultEntityType
  {
    EntityStatePdu(DefaultHeader().(pduType := EntityStatePduType), EI.DefaultEntityId, ForceOther,
                   ZeroVec, ZeroVec, ZeroRotator, "", ZeroVec, DefaultDeadReckoning(),
                   DefaultEntityType, 0, 0, DefaultEntityType, [])
  }

  /** What SetupFromOpenDIS makes of `prior`: every field read from the record, articulations appended. */
  function ReadEntityState(prior: EntityStatePdu, r: EntityStateRecord, toFloat: Rounding, c: FloatCodec): EntityStatePdu
    requires WellFormedDrRecord(r.deadReckoning)
  {
    var location := IncomingLocation(toFloat, r.location);
    prior.(header := HeaderFromRecord(r.header), entityId := EI.FromRecord(r.entityId),
           locationDouble := location.double, location := location.float,
           orientation := OrientationFromRecord(r.orientation), linearVelocity := r.linearVelocity,
           deadReckoning := DeadReckoningFromRecord(r.deadReckoning), forceId := r.forceId,
           marking := r.marking.characters, appearance := r.appearance, capabilities := r.capabilities,
           entityType := EntityTypes.FromRecord(r.entityType),
           alternativeType := EntityTypes.FromRecord(r.alternativeType),
           articulations := prior.articulations + AL.FromRecords(r.articulations, c))
  }

  /** What ToOpenDIS writes into `out`. */
  function SendEntityState(p: EntityStatePdu, out: EntityStateRecord, toFloat: Rounding, c: FloatCodec): EntityStateRecord
    requires |p.deadReckoning.otherParameters| >= OtherParametersLength
  {
    out.(header := HeaderToRecord(p.header, out.header), entityId := EI.ToRecord(p.entityId),
         forceId := p.forceId, entityType := EntityTypes.ToRecord(p.entityType),
         alternativeType := EntityTypes.ToRecord(p.alternativeType), linearVelocity := p.linearVelocity,
         location := OutgoingLocation(toFloat, p.locationDouble, p.location),
         orientation := OrientationToRecord(p.orientation), appearance := p.appearance,
         deadReckoning := DeadReckoningToRecord(p.deadReckoning), marking := MarkingToRecord(p.marking),
         capabilities := p.capabilities, articulations := AL.ToRecords(p.articulations, c))
  }

  /** SetupFromOpenDIS, field by field, with the appending articulation loop. */
  method SetupFromOpenDis(pdu: EntityStatePdu, r: EntityStateRecord, toFloat: Rounding, c: FloatCodec)
    returns (updated: EntityStatePdu)
    requires WellFormedDrRecord(r.deadReckoning)
    ensures updated == ReadEntityState(pdu, r, toFloat, c)
  {
    updated := pdu.(header := HeaderFromRecord(r.header));
    updated := updated.(entityId := EI.FromRecord(r.entityId));
    var location := IncomingLocation(toFloat, r.location);
    updated := updated.(locationDouble := location.double, location := location.float);
    updated := updated.(orientation := OrientationFromRecord(r.orientation));
    updated := updated.(linearVelocity := r.linearVelocity);
    updated := updated.(deadReckoning := DeadReckoningFromRecord(r.deadReckoning));
    updated := updated.(forceId := r.forceId, marking := r.marking.characters);
    updated := updated.(appearance := r.appearance, capabilities := r.capabilities);
    updated := updated.(entityType := EntityTypes.FromRecord(r.entityType));
    updated := updated.(alternativeType := EntityTypes.FromRecord(r.alternativeType));
    var articulations := AL.AppendFromRecords(updated.articulations, r.articulations, c);
    updated := updated.(articulations := articulations);
  }

  /** ToOpenDIS, setter by setter, with the loop that builds the record vector. */
  method ToOpenDis(p: EntityStatePdu, out: EntityStateRecord, toFloat: Rounding, c: FloatCodec)
    returns (r: EntityStateRecord)
    requires |p.deadReckoning.otherParameters| >= OtherParametersLength
    ensures r == SendEntityState(p, out, toFloat, c)
  {
    r := out.(header := HeaderToRecord(p.header, out.header));
    r := r.(entityId := EI.ToRecord(p.entityId), forceId := p.forceId);
    r := r.(entityType := EntityTypes.ToRecord(p.entityType));
    r := r.(alternativeType := EntityTypes.ToRecord(p.alternativeType));
    r := r.(linearVelocity := p.linearVelocity);
    r := r.(location := OutgoingLocation(toFloat, p.locationDouble, p.location));
    r := r.(orientation := OrientationToRecord(p.orientation));
    r := r.(appearance := p.appearance, deadReckoning := DeadReckoningToRecord(p.deadReckoning));
    r := r.(marking := MarkingToRecord(p.marking), capabilities := p.capabilities);
    var records := AL.BuildRecords(p.articulations, c);
    r := r.(articulations := records);
  }

  /**
   * A struct whose numbers all fit the record's fields, whose marking fits
   * 11 characters, whose dead-reckoning array has 15 bytes and whose two
   * locations agree.
   */
  predicate SendableState(p: EntityStatePdu, toFloat: Rounding)
  {
    EI.InRange(p.entityId) && -0x8000 <= p.header.padding < 0x8000 &&
    PackedRange(p.entityType) && PackedRange(p.alternativeType) &&
    |p.deadReckoning.otherParameters| == OtherParametersLength && |p.marking| <= MarkingLength &&
    Consistent(toFloat, LocationPair(p.locationDouble, p.location)) &&
    forall i :: 0 <= i < |p.articulations| ==> AL.Sendable(p.articulations[i])
  }

  /**
   * Sending a sendable struct and reading it into a default struct gives it
   * back, except the protocol family (the record's) and the parts of each
   * articulation that its designator says are not carried.
   */
  lemma EntityStateRoundTrip(p: EntityStatePdu, out: EntityStateRecord, toFloat: Rounding, c: FloatCodec)
    requires SendableState(p, toFloat) && ExactWidening(c)
    ensures var back := ReadEntityState(DefaultEntityStatePdu(), SendEntityState(p, out, toFloat, c), toFloat, c);
            back.(articulations := p.articulations) == p.(header := p.header.(protocolFamily := out.header.protocolFamily)) &&
            AL.SameCarriedParts(back.articulations, p.articulations)
  {
    HeaderRoundTrip(p.header, out.header);
    EI.RecordRoundTrip(p.entityId, EI.EntityIdRecord(0, 0, 0));
    EntityTypes.RecordRoundTrip(p.entityType, EntityTypeRecord(0, 0, 0, 0, 0, 0, 0));
    EntityTypes.RecordRoundTrip(p.alternativeType, EntityTypeRecord(0, 0, 0, 0, 0, 0, 0));
    DeadReckoningRoundTrip(p.deadReckoning, DeadReckoningToRecord(p.deadReckoning));
    LocationRoundTrip(toFloat, LocationPair(p.locationDouble, p.location), ZeroVec);
    MarkingIsTruncated(p.marking);
    AL.ListRoundTrip(p.articulations, c);
  }

  /** A marking longer than 11 characters comes back as its first 11 characters. */
  lemma LongMarkingComesBackTruncated(p: EntityStatePdu, out: EntityStateRecord, toFloat: Rounding, c: FloatCodec)
    requires |p.deadReckoning.otherParameters| >= OtherParametersLength
    requires |p.marking| > MarkingLength
    ensures ReadEntityState(DefaultEntityStatePdu(), SendEntityState(p, out, toFloat, c), toFloat, c).marking == p.marking[..11]
    ensures ReadEntityState(DefaultEntityStatePdu(), SendEntityState(p, out, toFloat, c), toFloat, c).marking != p.marking
  {
  }

  /**
   * A record whose header fits the struct, whose marking is in character set
   * 1 and fits 11 characters, and which carries no articulated part, is sent
   * back exactly as it was read.
   */
  lemma EntityStateRecordRoundTrip(r: EntityStateRecord, toFloat: Rounding, c: FloatCodec)
    requires WellFormedDrRecord(r.deadReckoning)
    requires r.header.timestamp < 0x100 && r.header.length < 0x100
    requires r.marking.characterSet == AsciiCharacterSet && |r.marking.characters| <= MarkingLength
    requires forall i :: 0 <= i < |r.articulations| ==> r.articulations[i].designator != ArticulatedPart
    ensures SendEntityState(ReadEntityState(DefaultEntityStatePdu(), r, toFloat, c), r, toFloat, c) == r
  {
    HeaderRecordRoundTrip(r.header);
    EI.RecordRoundTrip(EI.DefaultEntityId, r.entityId);
    EntityTypes.RecordRoundTrip(DefaultEntityType, r.entityType);
    EntityTypes.RecordRoundTrip(DefaultEntityType, r.alternativeType);
    DeadReckoningRoundTrip(DefaultDeadReckoning(), r.deadReckoning);
    LocationRoundTrip(toFloat, IncomingLocation(toFloat, r.location), r.location);
    AL.AttachedRecordsRoundTrip(r.articulations, c);
  }

  /** Reading into a struct that already holds articulations keeps them ahead of the new ones. */
  lemma SetupAppendsArticulations(prior: EntityStatePdu, r: EntityStateRecord, toFloat: Rounding, c: FloatCodec)
    requires WellFormedDrRecord(r.deadReckoning)
    ensures ReadEntityState(prior, r, toFloat, c) ==
              ReadEntityState(DefaultEntityStatePdu(), r, toFloat, c).(articulations := prior.articulations + AL.FromRecords(r.articulations, c))
    ensures |ReadEntityState(prior, r, toFloat, c).articulations| == |prior.articulations| + |r.articulations|
  {
  }

  /**
   * operator= from an Entity State Update PDU: the header (with PDU type
   * Entity State), ID, both locations, orientation, velocity, appearance and
   * articulations come from the update; every other field is kept.
   */
  function AssignFromUpdate(es: EntityStatePdu, u: ESU.EntityStateUpdatePdu): (r: EntityStatePdu)
    ensures r.header == u.header.(pduType := EntityStatePduType)
    ensures r.entityId == u.entityId && r.locationDouble == u.locationDouble && r.location == u.location
    ensures r.orientation == u.orientation && r.linearVelocity == u.linearVelocity
    ensures r.appearance == u.appearance && r.articulations == u.articulations
    ensures r.forceId == es.forceId && r.marking == es.marking && r.deadReckoning == es.deadReckoning
    ensures r.entityType == es.entityType && r.capabilities == es.capabilities
    ensures r.alternativeType == es.alternativeType
  {
    es.(header := u.header.(pduType := EntityStatePduType), entityId := u.entityId,
        locationDouble := u.locationDouble, location := u.location, orientation := u.orientation,
        linearVelocity := u.linearVelocity, appearance := u.appearance, articulations := u.articulations)
  }

  /**
   * Merging updates keeps only the newest: two assignments in a row equal the
   * second alone, and assigning the same update twice changes nothing more.
   */
  lemma NewestUpdateWins(es: EntityStatePdu, u1: ESU.EntityStateUpdatePdu, u2: ESU.EntityStateUpdatePdu)
    ensures AssignFromUpdate(AssignFromUpdate(es, u1), u2) == AssignFromUpdate(es, u2)
    ensures AssignFromUpdate(AssignFromUpdate(es, u2), u2) == AssignFromUpdate(es, u2)
  {
  }

  /**
   * Reading an update record into an update struct and merging it into an
   * Entity State struct gives the same carried fields as reading an Entity
   * State record with the same values, and keeps what the update lacks.
   */
  lemma MergedUpdateKeepsStateOnlyFields(es: EntityStatePdu, r: ESU.EntityStateUpdateRecord, toFloat: Rounding, c: FloatCodec)
    ensures var merged := AssignFromUpdate(es, ESU.ReadEntityStateUpdate(ESU.DefaultEntityStateUpdatePdu(), r, toFloat, c));
            merged.header.pduType == EntityStatePduType &&
            merged.locationDouble == r.location && merged.location == RoundVec(toFloat, r.location) &&
            merged.orientation == OrientationFromRecord(r.orientation) &&
            merged.articulations == AL.FromRecords(r.articulations, c) &&
            merged.forceId == es.forceId && merged.entityType == es.entityType &&
            merged.deadReckoning == es.deadReckoning && merged.marking == es.marking
  {
  }
}
