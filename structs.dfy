// The shared DIS records of the newer struct header: articulation and
// attached-part parameters, the munition burst descriptor and the
// dead-reckoning parameters, with their mappings to the DIS records.
module Structs {
  import opened DisBase
  import opened EntityIds
  import opened EntityTypes

  /**
   * The two numeric conversions a double-valued record field goes through:
   * narrowing the double held in eight bytes to a float, and widening a float
   * back into a double's bytes. Floating point is not modelled; IEEE 754
   * makes narrowing a widened float exact, which `ExactWidening` states.
   */
  datatype FloatCodec = FloatCodec(narrow: DoubleImage -> real, widen: real -> DoubleImage)

  ghost predicate ExactWidening(c: FloatCodec)
  {
    forall v :: c.narrow(c.widen(v)) == v
  }

  /** Designator 0: an articulated part carrying a float value; anything else carries a packed type. */
  const ArticulatedPart: Octet := 0

  datatype Articulation = Articulation(
    designator: Octet,
    changeIndicator: Int32,
    partAttachedTo: Int32,
    parameterType: Int32,
    parameterValue: real,
    attachedPartType: EntityType)

  /** The DIS ArticulationParameter record; its value is a double, kept as its bytes. */
  datatype ArticulationRecord = ArticulationRecord(
    designator: Octet,
    changeIndicator: Octet,
    partAttachedTo: UShort,
    parameterType: Int32,
    parameterValue: DoubleImage)

  /** The default articulation: an articulated part with every number 0 and a wildcard type. */
  const DefaultArticulation: Articulation := Articulation(ArticulatedPart, 0, 0, 0, 0.0, DefaultEntityType)

  /**
   * The constructor from the record: an articulated part takes the value as a
   * float, any other part takes the value's bytes as an entity type.
   */
  function ArticulationFromRecord(r: ArticulationRecord, c: FloatCodec): (a: Articulation)
    ensures a.designator == r.designator && a.changeIndicator == r.changeIndicator
    ensures a.partAttachedTo == r.partAttachedTo && a.parameterType == r.parameterType
    ensures r.designator == ArticulatedPart ==> a.parameterValue == c.narrow(r.parameterValue)
    ensures r.designator == ArticulatedPart ==> a.attachedPartType == DefaultEntityType
    ensures r.designator != ArticulatedPart ==> a.parameterValue == 0.0
    ensures r.designator != ArticulatedPart ==> a.attachedPartType == FromDouble(r.parameterValue)
  {
    var base := DefaultArticulation.(designator := r.designator, changeIndicator := r.changeIndicator,
                                     partAttachedTo := r.partAttachedTo, parameterType := r.parameterType);
    if r.designator == ArticulatedPart then base.(parameterValue := c.narrow(r.parameterValue))
    else base.(attachedPartType := FromDouble(r.parameterValue))
  }

  /**
   * ToOpenDIS: the setters narrow the change indicator to a byte and the
   * attached-to ID to 16 bits; an articulated part sends its float widened,
   * any other part sends its type packed into a double.
   */
  function ArticulationToRecord(a: Articulation, c: FloatCodec): (r: ArticulationRecord)
    ensures r.designator == a.designator && r.parameterType == a.parameterType
    ensures r.changeIndicator == a.changeIndicator % 0x100 && r.partAttachedTo == a.partAttachedTo % 0x1_0000
    ensures a.designator == ArticulatedPart ==> r.parameterValue == c.widen(a.parameterValue)
    ensures a.designator != ArticulatedPart ==> r.parameterValue == ToDouble(a.attachedPartType)
  {
    ArticulationRecord(a.designator, Low8(a.changeIndicator), Low16(a.partAttachedTo), a.parameterType,
                       if a.designator == ArticulatedPart then c.widen(a.parameterValue)
                       else ToDouble(a.attachedPartType))
  }

  /** The part of an articulation that its designator says is carried. */
  predicate SameCarriedPart(a: Articulation, b: Articulation)
  {
    a.designator == b.designator && a.changeIndicator == b.changeIndicator &&
    a.partAttachedTo == b.partAttachedTo && a.parameterType == b.parameterType &&
    (a.designator == ArticulatedPart ==> a.parameterValue == b.parameterValue) &&
    (a.designator != ArticulatedPart ==> a.attachedPartType == b.attachedPartType)
  }

  /**
   * Sending and reading back keeps the carried part of an articulation whose
   * numbers are in range: the float exactly, and the attached type when its
   * parts fit their bytes.
   */
  lemma ArticulationRoundTrip(a: Articulation, c: FloatCodec)
    requires ExactWidening(c)
    requires 0 <= a.changeIndicator < 0x100 && 0 <= a.partAttachedTo < 0x1_0000
    requires a.designator != ArticulatedPart ==> PackedRange(a.attachedPartType)
    ensures SameCarriedPart(ArticulationFromRecord(ArticulationToRecord(a, c), c), a)
  {
    if a.designator != ArticulatedPart {
      DoubleRoundTrip(a.attachedPartType);
    }
  }

  /** An attached-part record is sent back byte for byte; an articulated part's value is narrowed and widened. */
  lemma ArticulationRecordRoundTrip(r: ArticulationRecord, c: FloatCodec)
    ensures r.designator != ArticulatedPart ==> ArticulationToRecord(ArticulationFromRecord(r, c), c) == r
    ensures r.designator == ArticulatedPart ==>
              ArticulationToRecord(ArticulationFromRecord(r, c), c) == r.(parameterValue := c.widen(c.narrow(r.parameterValue)))
  {
    if r.designator != ArticulatedPart {
      DoubleImageRoundTrip(r.parameterValue);
    }
  }

  /** FEventID: the site, application and event number of a fire or detonation event. */
  datatype EventId = EventId(site: Int32, application: Int32, eventNumber: Int32)

  /** The DIS EventID record: three unsigned shorts. */
  datatype EventIdRecord = EventIdRecord(site: UShort, application: UShort, eventNumber: UShort)

  const DefaultEventId: EventId := EventId(0, 0, 0)

  /** The constructor from the record widens each unsigned short. */
  function EventIdFromRecord(r: EventIdRecord): (e: EventId)
    ensures e.site == r.site && e.application == r.application && e.eventNumber == r.eventNumber
  {
    EventId(r.site, r.application, r.eventNumber)
  }

  /** ToOpenDIS: the setters narrow each part to an unsigned short. */
  function EventIdToRecord(e: EventId): (r: EventIdRecord)
    ensures r.site == e.site % 0x1_0000 && r.application == e.application % 0x1_0000
    ensures r.eventNumber == e.eventNumber % 0x1_0000
  {
    EventIdRecord(Low16(e.site), Low16(e.application), Low16(e.eventNumber))
  }

  /** An event ID survives sending and reading exactly when its parts fit 16 bits; every record survives. */
  lemma EventIdRoundTrip(e: EventId, r: EventIdRecord)
    ensures EventIdFromRecord(EventIdToRecord(e)) == e <==>
              0 <= e.site < 0x1_0000 && 0 <= e.application < 0x1_0000 && 0 <= e.eventNumber < 0x1_0000
    ensures EventIdToRecord(EventIdFromRecord(r)) == r
  {
  }

  datatype BurstDescriptor = BurstDescriptor(munition: EntityType, warhead: Int32, fuse: Int32, quantity: Int32, rate: Int32)

  /** The DIS BurstDescriptor record: a munition type and four unsigned shorts. */
  datatype BurstRecord = BurstRecord(munition: EntityTypeRecord, warhead: UShort, fuse: UShort, quantity: UShort, rate: UShort)

  /** The default burst: a wildcard munition and zero counts. */
  const DefaultBurst: BurstDescriptor := BurstDescriptor(DefaultEntityType, 0, 0, 0, 0)

  function BurstFromRecord(r: BurstRecord): (b: BurstDescriptor)
    ensures b.munition == EntityTypes.FromRecord(r.munition)
    ensures b.warhead == r.warhead && b.fuse == r.fuse && b.quantity == r.quantity && b.rate == r.rate
  {
    BurstDescriptor(EntityTypes.FromRecord(r.munition), r.warhead, r.fuse, r.quantity, r.rate)
  }

  /** ToOpenDIS: the munition through the entity type's mapping, the counts narrowed to 16 bits. */
  function BurstToRecord(b: BurstDescriptor): (r: BurstRecord)
    ensures r.munition == EntityTypes.ToRecord(b.munition)
    ensures r.warhead == b.warhead % 0x1_0000 && r.fuse == b.fuse % 0x1_0000
    ensures r.quantity == b.quantity % 0x1_0000 && r.rate == b.rate % 0x1_0000
  {
    BurstRecord(EntityTypes.ToRecord(b.munition), Low16(b.warhead), Low16(b.fuse), Low16(b.quantity), Low16(b.rate))
  }

  /** Every burst record survives reading and sending. */
  lemma BurstRecordRoundTrip(r: BurstRecord)
    ensures BurstToRecord(BurstFromRecord(r)) == r
  {
    EntityTypes.RecordRoundTrip(DefaultEntityType, r.munition);
  }

  /** A burst survives sending and reading when its numbers are in range and its munition is not the wildcard default. */
  lemma BurstRoundTrip(b: BurstDescriptor)
    requires PackedRange(b.munition)
    requires 0 <= b.warhead < 0x1_0000 && 0 <= b.fuse < 0x1_0000
    requires 0 <= b.quantity < 0x1_0000 && 0 <= b.rate < 0x1_0000
    ensures BurstFromRecord(BurstToRecord(b)) == b
  {
    EntityTypes.RecordRoundTrip(b.munition, EntityTypeRecord(0, 0, 0, 0, 0, 0, 0));
  }

  /** The dead-reckoning algorithm numbers of DIS (Annex B of IEEE 1278.1). */
  const DrOther: Octet := 0
  const DrStatic: Octet := 1
  const DrFPW: Octet := 2
  const DrRPW: Octet := 3
  const DrRVW: Octet := 4
  const DrFVW: Octet := 5
  const DrFPB: Octet := 6
  const DrRPB: Octet := 7
  const DrRVB: Octet := 8
  const DrFVB: Octet := 9

  /** The number of Other Parameters bytes in the record. */
  const OtherParametersLength: nat := 15

  datatype DeadReckoningParameters = DeadReckoningParameters(
    algorithm: Octet,
    otherParameters: seq<Octet>,
    linearAcceleration: Vec3,
    angularVelocity: Vec3)

  /** The DIS DeadReckoningParameter record: the algorithm, 15 bytes and two float vectors. */
  datatype DeadReckoningRecord = DeadReckoningRecord(
    algorithm: Octet,
    otherParameters: seq<Octet>,
    linearAcceleration: Vec3,
    angularVelocity: Vec3)

  /** A record carries exactly 15 Other Parameters bytes. */
  predicate WellFormedDrRecord(r: DeadReckoningRecord)
  {
    |r.otherParameters| == OtherParametersLength
  }

  /** The default parameters: Static, 15 zero bytes and zero vectors. */
  function DefaultDeadReckoning(): (p: DeadReckoningParameters)
    ensures p.algorithm == DrStatic
    ensures |p.otherParameters| == OtherParametersLength
    ensures forall i :: 0 <= i < |p.otherParameters| ==> p.otherParameters[i] == 0
    ensures p.linearAcceleration == ZeroVec && p.angularVelocity == ZeroVec
  {
    DeadReckoningParameters(DrStatic, seq(OtherParametersLength, i => 0), ZeroVec, ZeroVec)
  }

  function DeadReckoningFromRecord(r: DeadReckoningRecord): (p: DeadReckoningParameters)
    requires WellFormedDrRecord(r)
    ensures p.algorithm == r.algorithm && p.otherParameters == r.otherParameters
    ensures p.linearAcceleration == r.linearAcceleration && p.angularVelocity == r.angularVelocity
  {
    DeadReckoningParameters(r.algorithm, r.otherParameters, r.linearAcceleration, r.angularVelocity)
  }

  /** ToOpenDIS copies the first 15 bytes of the array into the record. */
  function DeadReckoningToRecord(p: DeadReckoningParameters): (r: DeadReckoningRecord)
    requires |p.otherParameters| >= OtherParametersLength
    ensures WellFormedDrRecord(r)
    ensures r.algorithm == p.algorithm && r.otherParameters == p.otherParameters[..OtherParametersLength]
    ensures r.linearAcceleration == p.linearAcceleration && r.angularVelocity == p.angularVelocity
  {
    DeadReckoningRecord(p.algorithm, p.otherParameters[..OtherParametersLength], p.linearAcceleration, p.angularVelocity)
  }

  /** Parameters with exactly 15 bytes survive sending and reading; records survive reading and sending. */
  lemma DeadReckoningRoundTrip(p: DeadReckoningParameters, r: DeadReckoningRecord)
    requires |p.otherParameters| == OtherParametersLength && WellFormedDrRecord(r)
    ensures DeadReckoningFromRecord(DeadReckoningToRecord(p)) == p
    ensures DeadReckoningToRecord(DeadReckoningFromRecord(r)) == r
  {
    assert p.otherParameters[..OtherParametersLength] == p.otherParameters;
    assert r.otherParameters[..OtherParametersLength] == r.otherParameters;
  }
}
