// UDISComponent: the older receiver that UDISReceiveComponent replaced. It
// handles the same PDUs the same way, keeps the dead-reckoned PDU it is
// replacing as `previousDeadReckoned`, and carries its own dead reckoning:
// no frozen check, no velocity update, the local angles read as integers,
// and a latch that switches dead reckoning off when it is called on an
// entity it should not reckon.
module LegacyComponents {
  import opened DisBase
  import opened EntityTypes
  import EI = EntityIds
  import opened Structs
  import opened PduFields
  import opened OtherParameters
  import opened ReceiveComponents
  import DeadReckonings
  import ES = EntityStatePdus
  import ESU = EntityStateUpdatePdus

  /**
   * The conversions and geometry the older dead reckoning calls on:
   * - `toDegrees`: FMath::RadiansToDegrees;
   * - `intToFloat`: an int converted to float;
   * - `toFloat`: a double stored into a float;
   * - `sqrt`: FMath::Sqrt;
   * - `rotatorOf`: FRotator(FQuat);
   * - `orientationStep`: CalculateDeadReckonedOrientation, from yaw, pitch
   *   and roll, an angular velocity and a time, to psi, theta and phi;
   * - `bodyPosition`: GetEntityBodyDeadReckonedPosition.
   */
  datatype LegacyGeometry = LegacyGeometry(
    toDegrees: real -> real,
    intToFloat: int -> real,
    toFloat: Rounding,
    sqrt: real -> real,
    rotatorOf: Quaternion -> Rotator,
    orientationStep: (Rotator, Vec3, real) -> Orientation,
    bodyPosition: (Vec3, Vec3, Vec3, Vec3, Rotator, real) -> Vec3)

  /**
   * (b0 << 24) + (b1 << 16) + (b2 << 8) + b3 in 32-bit int arithmetic: the
   * big-endian integer of four bytes, read as a signed value.
   */
  function IntegerWord(b: seq<Octet>): (v: int)
    requires |b| == 4
    ensures -0x8000_0000 <= v < 0x8000_0000
    ensures b[0] < 0x80 ==> v == (b[0] as int) * 0x100_0000 + (b[1] as int) * 0x1_0000 + (b[2] as int) * 0x100 + b[3] as int
    ensures (v - ((b[0] as int) * 0x100_0000 + (b[1] as int) * 0x1_0000 + (b[2] as int) * 0x100 + b[3] as int)) % 0x1_0000_0000 == 0
  {
    var u := (b[0] as int) * 0x100_0000 + (b[1] as int) * 0x1_0000 + (b[2] as int) * 0x100 + b[3] as int;
    if u >= 0x8000_0000 then u - 0x1_0000_0000 else u
  }

  /** The three integers the readers take from bytes 3-6, 7-10 and 11-14. */
  function IntegerWords(other: seq<Octet>): (w: Vec3)
    requires |other| >= OtherParametersLength
  {
    Vec3(IntegerWord(other[3..7]) as real, IntegerWord(other[7..11]) as real, IntegerWord(other[11..15]) as real)
  }

  /**
   * UDISComponent::GetLocalEulerAngles: fails on fewer than 15 bytes or a
   * type other than 1; each word is taken as an integer, made a float and
   * converted from radians to degrees, bytes 3-6 giving the yaw.
   */
  function LegacyEulerAngles(other: seq<Octet>, lg: LegacyGeometry): (r: Option<Rotator>)
    ensures r.Some? <==> |other| >= OtherParametersLength && other[0] == EulerAnglesType
    ensures r.Some? ==> r.value.yaw == lg.toDegrees(lg.intToFloat(IntegerWord(other[3..7])))
  {
    if |other| < OtherParametersLength || other[0] != EulerAnglesType then None
    else
      var w := IntegerWords(other);
      Some(Rotator(pitch := lg.toDegrees(lg.intToFloat(w.y as int)), yaw := lg.toDegrees(lg.intToFloat(w.x as int)),
                   roll := lg.toDegrees(lg.intToFloat(w.z as int))))
  }

  /** A float stored into a uint16: truncated toward zero, low 16 bits kept. */
  function ToUShort(x: real): (r: UShort)
    ensures 0.0 <= x < 1.0 ==> r == 0
  {
    Trunc(x) % 0x1_0000
  }

  /**
   * UDISComponent::GetLocalQuaternionAngles: fails on fewer than 15 bytes or
   * a type other than 2; x, y and z are the integer words made floats, and
   * the scalar part is the square root of one minus their squared length,
   * stored into the 16-bit variable that first held bytes 1-2.
   */
  function LegacyQuaternion(other: seq<Octet>, lg: LegacyGeometry): (r: Option<Quaternion>)
    ensures r.Some? <==> |other| >= OtherParametersLength && other[0] == QuaternionType
    ensures r.Some? ==> r.value.w == ToUShort(ScalarPart(r.value.x, r.value.y, r.value.z, lg.sqrt)) as real
  {
    if |other| < OtherParametersLength || other[0] != QuaternionType then None
    else
      var w := IntegerWords(other);
      var x, y, z := lg.intToFloat(w.x as int), lg.intToFloat(w.y as int), lg.intToFloat(w.z as int);
      Some(Quaternion(x, y, z, ToUShort(ScalarPart(x, y, z, lg.sqrt)) as real))
  }

  /**
   * The float 1.0, whose image is 3F 80 00 00, comes back from the newer
   * reader as 1.0 and from the older one as the integer 1065353216 taken for
   * radians.
   */
  lemma LegacyReaderTakesBitsForNumbers(other: seq<Octet>, l: FloatLayout, lg: LegacyGeometry)
    requires ExactLayout(l) && l.bigEndian(1.0) == [0x3F, 0x80, 0, 0]
    requires |other| == OtherParametersLength && other[0] == EulerAnglesType && other[3..7] == [0x3F, 0x80, 0, 0]
    ensures LocalEulerAngles(other, l, false).Some? && LocalEulerAngles(other, l, false).value.yaw == 1.0
    ensures LegacyEulerAngles(other, lg).Some? &&
            LegacyEulerAngles(other, lg).value.yaw == lg.toDegrees(lg.intToFloat(0x3F80_0000))
  {
    WireWordIsBigEndian(l, other[3..7], false);
    assert l.fromBigEndian(l.bigEndian(1.0)) == 1.0;
  }

  /** With a unit vector part shorter than one, the older reader's scalar part is always 0. */
  lemma LegacyScalarPartTruncates(other: seq<Octet>, lg: LegacyGeometry)
    requires |other| >= OtherParametersLength && other[0] == QuaternionType
    requires var q := LegacyQuaternion(other, lg).value;
             0.0 <= ScalarPart(q.x, q.y, q.z, lg.sqrt) < 1.0
    ensures LegacyQuaternion(other, lg).value.w == 0.0
  {
  }

  /** The orientation an Euler-angle algorithm leaves: the carried local angles, or the PDU's own. */
  function EulerOrientation(pdu: ES.EntityStatePdu, lg: LegacyGeometry): Rotator
  {
    match LegacyEulerAngles(pdu.deadReckoning.otherParameters, lg)
    case Some(local) => local
    case None => pdu.orientation
  }

  /** The orientation a quaternion algorithm leaves: the carried quaternion, or the orientation turned by `spin`. */
  function QuaternionOrientation(pdu: ES.EntityStatePdu, spin: Vec3, t: real, lg: LegacyGeometry): Rotator
  {
    match LegacyQuaternion(pdu.deadReckoning.otherParameters, lg)
    case Some(q) => lg.rotatorOf(q)
    case None => OrientationFromRecord(lg.orientationStep(pdu.orientation, spin, t))
  }

  /** A position written to the double location and all three float coordinates. */
  function MovedTo(pdu: ES.EntityStatePdu, p: Vec3, lg: LegacyGeometry): ES.EntityStatePdu
  {
    pdu.(locationDouble := p, location := RoundVec(lg.toFloat, p))
  }

  /**
   * UDISComponent::DeadReckoning's switch, once its gate has passed. The
   * position formulas are the newer ones; FPW writes only X and Y of the
   * float location; the velocity is never advanced; an algorithm outside
   * 1..9 is unsupported.
   */
  function LegacyReckoned(pdu: ES.EntityStatePdu, t: real, lg: LegacyGeometry): DeadReckonings.Reckoning
  {
    var dr := pdu.deadReckoning;
    var a := dr.algorithm;
    var p, v, acc, w := pdu.locationDouble, pdu.linearVelocity, dr.linearAcceleration, dr.angularVelocity;
    if a == DrStatic then DeadReckonings.Reckoning(true, pdu.(orientation := EulerOrientation(pdu, lg)))
    else if a == DrFPW then
      var q := DeadReckonings.WorldPosition(p, v, ZeroVec, t);
      DeadReckonings.Reckoning(true, pdu.(locationDouble := q,
                                          location := Vec3(lg.toFloat(q.x), lg.toFloat(q.y), pdu.location.z),
                                          orientation := EulerOrientation(pdu, lg)))
    else if a == DrRPW then
      DeadReckonings.Reckoning(true, MovedTo(pdu, DeadReckonings.WorldPosition(p, v, ZeroVec, t), lg)
                                       .(orientation := QuaternionOrientation(pdu, w, t, lg)))
    else if a == DrRVW then
      DeadReckonings.Reckoning(true, MovedTo(pdu, DeadReckonings.WorldPosition(p, v, acc, t), lg)
                                       .(orientation := QuaternionOrientation(pdu, w, t, lg)))
    else if a == DrFVW then
      DeadReckonings.Reckoning(true, MovedTo(pdu, DeadReckonings.WorldPosition(p, v, acc, t), lg)
                                       .(orientation := EulerOrientation(pdu, lg)))
    else if a == DrFPB then
      DeadReckonings.Reckoning(true, MovedTo(pdu, lg.bodyPosition(p, v, acc, ZeroVec, pdu.orientation, t), lg)
                                       .(orientation := EulerOrientation(pdu, lg)))
    else if a == DrRPB then
      DeadReckonings.Reckoning(true, MovedTo(pdu, lg.bodyPosition(p, v, acc, ZeroVec, pdu.orientation, t), lg)
                                       .(orientation := QuaternionOrientation(pdu, ZeroVec, t, lg)))
    else if a == DrRVB then
      DeadReckonings.Reckoning(true, MovedTo(pdu, lg.bodyPosition(p, v, acc, w, pdu.orientation, t), lg)
                                       .(orientation := QuaternionOrientation(pdu, w, t, lg)))
    else if a == DrFVB then
      DeadReckonings.Reckoning(true, MovedTo(pdu, lg.bodyPosition(p, v, acc, w, pdu.orientation, t), lg)
                                       .(orientation := EulerOrientation(pdu, lg)))
    else DeadReckonings.Reckoning(false, pdu)
  }

  /**
   * The older reckoning supports exactly algorithms 1..9, frozen or not, and
   * never changes the velocity; the newer one refuses a frozen entity.
   */
  lemma LegacyIgnoresFreezeAndAcceleration(pdu: ES.EntityStatePdu, t: real, lg: LegacyGeometry,
                                           g: DeadReckonings.Geometry, m: DeadReckonings.Platform)
    ensures LegacyReckoned(pdu, t, lg).supported <==> DeadReckonings.Supported(pdu.deadReckoning.algorithm)
    ensures LegacyReckoned(pdu, t, lg).pdu.linearVelocity == pdu.linearVelocity
    ensures LegacyReckoned(pdu, t, lg).pdu.deadReckoning == pdu.deadReckoning
    ensures DeadReckonings.Frozen(pdu) ==> !DeadReckonings.DeadReckoned(pdu, t, g, m).supported
    ensures !LegacyReckoned(pdu, t, lg).supported ==> LegacyReckoned(pdu, t, lg).pdu == pdu
  {
  }

  /**
   * FPW moves the double location (as the newer code does) but leaves the
   * float Z where it was, while the newer code keeps the float location the
   * cast of the double one.
   */
  lemma FixedPositionLeavesFloatZ(pdu: ES.EntityStatePdu, t: real, lg: LegacyGeometry,
                                  g: DeadReckonings.Geometry, m: DeadReckonings.Platform)
    requires pdu.deadReckoning.algorithm == DrFPW && !DeadReckonings.Frozen(pdu) && m.toFloat == lg.toFloat
    ensures var r := LegacyReckoned(pdu, t, lg).pdu;
            var n := DeadReckonings.DeadReckoned(pdu, t, g, m).pdu;
            r.locationDouble == n.locationDouble &&
            r.location.z == pdu.location.z &&
            n.location.z == lg.toFloat(n.locationDouble.z) &&
            r.locationDouble.z == pdu.locationDouble.z + pdu.linearVelocity.z * t
  {
    DeadReckonings.WorldStep(pdu, t, g, m);
  }

  /** The world-frame algorithms put the double location where the newer dead reckoning does. */
  lemma WorldPositionsAgree(pdu: ES.EntityStatePdu, t: real, lg: LegacyGeometry,
                            g: DeadReckonings.Geometry, m: DeadReckonings.Platform)
    requires pdu.deadReckoning.algorithm in {DrFPW, DrRPW, DrRVW, DrFVW} && !DeadReckonings.Frozen(pdu)
    ensures LegacyReckoned(pdu, t, lg).pdu.locationDouble == DeadReckonings.DeadReckoned(pdu, t, g, m).pdu.locationDouble
  {
    DeadReckonings.WorldStep(pdu, t, g, m);
  }

  /**
   * The older component. `previousDeadReckoned` is the dead-reckoned PDU the
   * last arrival replaced; the rest is as in the receive component.
   */
  class LegacyComponent {
    const owner: Actor

    var spawnedFromNetwork: bool
    var entityId: EI.EntityId
    var entityType: EntityType
    var forceId: Octet
    var marking: string
    var mostRecent: ES.EntityStatePdu
    var mostRecentDeadReckoned: ES.EntityStatePdu
    var previousDeadReckoned: ES.EntityStatePdu
    var deltaTimeSinceLastPdu: real
    var numberReceived: nat
    var locationDifference: Vec3
    var rotationDifference: Rotator

    var timeoutSeconds: real
    var cullingMode: CullingMode
    var cullingDistance: real
    var performDeadReckoning: bool
    var performSmoothing: bool
    var smoothingPeriodSeconds: real
    var groundClamping: GroundClampingMode

    var events: seq<ReceiveEvent>

    const geometry: LegacyGeometry
    /** Whether the ground line trace through a dead-reckoned PDU's location hits something. */
    const groundHit: ES.EntityStatePdu -> bool

    /** The header's defaults and BeginPlay's zero location difference. */
    constructor(owner: Actor, geometry: LegacyGeometry, groundHit: ES.EntityStatePdu -> bool)
      ensures this.owner == owner && this.geometry == geometry && this.groundHit == groundHit
      ensures !spawnedFromNetwork && numberReceived == 0 && deltaTimeSinceLastPdu == 0.0
      ensures mostRecent == ES.DefaultEntityStatePdu() && mostRecentDeadReckoned == mostRecent
      ensures previousDeadReckoned == mostRecent
      ensures locationDifference == ZeroVec && rotationDifference == ZeroRotator
      ensures timeoutSeconds == 30.0 && cullingMode == NoCulling && cullingDistance == 0.0
      ensures performDeadReckoning && performSmoothing && smoothingPeriodSeconds == 0.5
      ensures groundClamping == GroundClampWithDisOptions && events == []
    {
      this.owner := owner;
      this.geometry := geometry;
      this.groundHit := groundHit;
      spawnedFromNetwork := false;
      entityId := EI.DefaultEntityId;
      entityType := DefaultEntityType;
      forceId := ES.ForceOther;
      marking := "";
      mostRecent := ES.DefaultEntityStatePdu();
      mostRecentDeadReckoned := ES.DefaultEntityStatePdu();
      previousDeadReckoned := ES.DefaultEntityStatePdu();
      deltaTimeSinceLastPdu := 0.0;
      numberReceived := 0;
      locationDifference := ZeroVec;
      rotationDifference := ZeroRotator;
      timeoutSeconds := 30.0;
      cullingMode := NoCulling;
      cullingDistance := 0.0;
      performDeadReckoning := true;
      performSmoothing := true;
      smoothingPeriodSeconds := 0.5;
      groundClamping := GroundClampWithDisOptions;
      events := [];
    }

    /**
     * UpdateCommonEntityStateInfo: the replaced dead-reckoned PDU becomes the
     * previous one, both PDUs become the new one, the clock restarts, the
     * differences are taken against the previous PDU (the rotation by plain
     * subtraction), the ID is copied, the life span renewed and the count
     * goes up by one.
     */
    method UpdateCommonEntityStateInfo(pdu: ES.EntityStatePdu)
      modifies this`mostRecent, this`previousDeadReckoned, this`mostRecentDeadReckoned, this`deltaTimeSinceLastPdu,
               this`locationDifference, this`rotationDifference, this`entityId, this`numberReceived, owner`lifeSpan
      ensures mostRecent == pdu && mostRecentDeadReckoned == pdu && previousDeadReckoned == old(mostRecentDeadReckoned)
      ensures deltaTimeSinceLastPdu == 0.0
      ensures locationDifference == Vec3(pdu.locationDouble.x - previousDeadReckoned.locationDouble.x,
                                         pdu.locationDouble.y - previousDeadReckoned.locationDouble.y,
                                         pdu.locationDouble.z - previousDeadReckoned.locationDouble.z)
      ensures rotationDifference == Rotator(pdu.orientation.pitch - previousDeadReckoned.orientation.pitch,
                                            pdu.orientation.yaw - previousDeadReckoned.orientation.yaw,
                                            pdu.orientation.roll - previousDeadReckoned.orientation.roll)
      ensures entityId == pdu.entityId && owner.lifeSpan == timeoutSeconds && numberReceived == old(numberReceived) + 1
    {
      mostRecent := pdu;
      previousDeadReckoned := mostRecentDeadReckoned;
      mostRecentDeadReckoned := mostRecent;
      deltaTimeSinceLastPdu := 0.0;
      locationDifference := Vec3(mostRecent.locationDouble.x - previousDeadReckoned.locationDouble.x,
                                 mostRecent.locationDouble.y - previousDeadReckoned.locationDouble.y,
                                 mostRecent.locationDouble.z - previousDeadReckoned.locationDouble.z);
      rotationDifference := Rotator(mostRecent.orientation.pitch - previousDeadReckoned.orientation.pitch,
                                    mostRecent.orientation.yaw - previousDeadReckoned.orientation.yaw,
                                    mostRecent.orientation.roll - previousDeadReckoned.orientation.roll);
      entityId := pdu.entityId;
      owner.lifeSpan := timeoutSeconds;
      numberReceived := numberReceived + 1;
    }

    /** The broadcast GroundClamping makes now, if any. */
    function ClampingEvents(): seq<ReceiveEvent>
      reads this`spawnedFromNetwork, this`groundClamping, this`entityType, this`mostRecentDeadReckoned
    {
      if ClampingApplies(spawnedFromNetwork, groundClamping, entityType) && groundHit(mostRecentDeadReckoned)
      then [GroundClampingUpdate(mostRecentDeadReckoned)] else []
    }

    /** GroundClamping_Implementation: the receive component's gate and trace. */
    method GroundClamping()
      modifies this`events
      ensures events == old(events) + ClampingEvents()
    {
      if ClampingApplies(spawnedFromNetwork, groundClamping, entityType) && groundHit(mostRecentDeadReckoned) {
        events := events + [GroundClampingUpdate(mostRecentDeadReckoned)];
      }
    }

    /** HandleEntityStatePDU: destroy on deactivation; otherwise update, copy type, force and marking, broadcast. */
    method HandleEntityStatePdu(pdu: ES.EntityStatePdu)
      modifies this`mostRecent, this`previousDeadReckoned, this`mostRecentDeadReckoned, this`deltaTimeSinceLastPdu,
               this`locationDifference, this`rotationDifference, this`entityId, this`numberReceived, this`entityType,
               this`forceId, this`marking, this`events, owner`lifeSpan, owner`destroyed
      ensures Deactivated(pdu.appearance) ==> owner.destroyed && unchanged(this) && owner.lifeSpan == old(owner.lifeSpan)
      ensures !Deactivated(pdu.appearance) ==>
                owner.destroyed == old(owner.destroyed) && mostRecent == pdu && mostRecentDeadReckoned == pdu &&
                previousDeadReckoned == old(mostRecentDeadReckoned) && numberReceived == old(numberReceived) + 1 &&
                deltaTimeSinceLastPdu == 0.0 && entityId == pdu.entityId && entityType == pdu.entityType &&
                forceId == pdu.forceId && marking == pdu.marking && owner.lifeSpan == timeoutSeconds &&
                locationDifference == Vec3(pdu.locationDouble.x - old(mostRecentDeadReckoned).locationDouble.x,
                                           pdu.locationDouble.y - old(mostRecentDeadReckoned).locationDouble.y,
                                           pdu.locationDouble.z - old(mostRecentDeadReckoned).locationDouble.z) &&
                rotationDifference == Rotator(pdu.orientation.pitch - old(mostRecentDeadReckoned).orientation.pitch,
                                              pdu.orientation.yaw - old(mostRecentDeadReckoned).orientation.yaw,
                                              pdu.orientation.roll - old(mostRecentDeadReckoned).orientation.roll) &&
                events == old(events) + [ReceivedEntityState(pdu)] + (if performDeadReckoning then [] else ClampingEvents())
    {
      if Deactivated(pdu.appearance) {
        owner.destroyed := true;
        return;
      }
      TakeEntityState(pdu);
    }

    /** The part of HandleEntityStatePDU after the deactivation check. */
    method TakeEntityState(pdu: ES.EntityStatePdu)
      modifies this`mostRecent, this`previousDeadReckoned, this`mostRecentDeadReckoned, this`deltaTimeSinceLastPdu,
               this`locationDifference, this`rotationDifference, this`entityId, this`numberReceived, this`entityType,
               this`forceId, this`marking, this`events, owner`lifeSpan
      ensures mostRecent == pdu && mostRecentDeadReckoned == pdu &&
              previousDeadReckoned == old(mostRecentDeadReckoned) && numberReceived == old(numberReceived) + 1 &&
              deltaTimeSinceLastPdu == 0.0 && entityId == pdu.entityId && entityType == pdu.entityType &&
              forceId == pdu.forceId && marking == pdu.marking && owner.lifeSpan == timeoutSeconds &&
              locationDifference == Vec3(pdu.locationDouble.x - old(mostRecentDeadReckoned).locationDouble.x,
                                         pdu.locationDouble.y - old(mostRecentDeadReckoned).locationDouble.y,
                                         pdu.locationDouble.z - old(mostRecentDeadReckoned).locationDouble.z) &&
              rotationDifference == Rotator(pdu.orientation.pitch - old(mostRecentDeadReckoned).orientation.pitch,
                                            pdu.orientation.yaw - old(mostRecentDeadReckoned).orientation.yaw,
                                            pdu.orientation.roll - old(mostRecentDeadReckoned).orientation.roll) &&
              events == old(events) + [ReceivedEntityState(pdu)] + (if performDeadReckoning then [] else ClampingEvents())
    {
      UpdateCommonEntityStateInfo(pdu);
      entityType := pdu.entityType;
      forceId := pdu.forceId;
      marking := pdu.marking;
      events := events + [ReceivedEntityState(pdu)];
      if !performDeadReckoning {
        GroundClamping();
      }
    }

    /** HandleEntityStateUpdatePDU: destroy on deactivation; otherwise merge into the most recent PDU and update. */
    method HandleEntityStateUpdatePdu(update: ESU.EntityStateUpdatePdu)
      modifies this`mostRecent, this`previousDeadReckoned, this`mostRecentDeadReckoned, this`deltaTimeSinceLastPdu,
               this`locationDifference, this`rotationDifference, this`entityId, this`numberReceived, this`events,
               owner`lifeSpan, owner`destroyed
      ensures Deactivated(update.appearance) ==> owner.destroyed && unchanged(this) && owner.lifeSpan == old(owner.lifeSpan)
      ensures !Deactivated(update.appearance) ==>
                var merged := ES.AssignFromUpdate(old(mostRecent), update);
                owner.destroyed == old(owner.destroyed) && mostRecent == merged && mostRecentDeadReckoned == merged &&
                previousDeadReckoned == old(mostRecentDeadReckoned) && numberReceived == old(numberReceived) + 1 &&
                deltaTimeSinceLastPdu == 0.0 && entityId == update.entityId && owner.lifeSpan == timeoutSeconds &&
                locationDifference == Vec3(update.locationDouble.x - old(mostRecentDeadReckoned).locationDouble.x,
                                           update.locationDouble.y - old(mostRecentDeadReckoned).locationDouble.y,
                                           update.locationDouble.z - old(mostRecentDeadReckoned).locationDouble.z) &&
                rotationDifference == Rotator(update.orientation.pitch - old(mostRecentDeadReckoned).orientation.pitch,
                                              update.orientation.yaw - old(mostRecentDeadReckoned).orientation.yaw,
                                              update.orientation.roll - old(mostRecentDeadReckoned).orientation.roll) &&
                events == old(events) + [ReceivedEntityStateUpdate(update)] + (if performDeadReckoning then [] else ClampingEvents())
    {
      if Deactivated(update.appearance) {
        owner.destroyed := true;
        return;
      }
      mostRecent := ES.AssignFromUpdate(mostRecent, update);
      UpdateCommonEntityStateInfo(mostRecent);
      events := events + [ReceivedEntityStateUpdate(update)];
      if !performDeadReckoning {
        GroundClamping();
      }
    }

    /**
     * UDISComponent::DeadReckoning. With dead reckoning off or an entity not
     * spawned from the network it latches dead reckoning off and returns
     * false, leaving the caller's PDU (`prior`) untouched; otherwise it runs
     * the switch on a copy of the PDU.
     */
    method DeadReckoning(pdu: ES.EntityStatePdu, deltaTime: real, prior: ES.EntityStatePdu)
      returns (supported: bool, reckoned: ES.EntityStatePdu)
      modifies this`performDeadReckoning
      ensures !(old(performDeadReckoning) && spawnedFromNetwork) ==>
                !performDeadReckoning && !supported && reckoned == prior
      ensures old(performDeadReckoning) && spawnedFromNetwork ==>
                performDeadReckoning && DeadReckonings.Reckoning(supported, reckoned) == LegacyReckoned(pdu, deltaTime, geometry)
    {
      if !performDeadReckoning || !spawnedFromNetwork {
        performDeadReckoning := false;
        return false, prior;
      }
      reckoned := pdu;
      supported := true;
      var dr := pdu.deadReckoning;
      var p, v, acc, w := pdu.locationDouble, pdu.linearVelocity, dr.linearAcceleration, dr.angularVelocity;
      match dr.algorithm {
        case 1 =>
          reckoned := reckoned.(orientation := EulerOrientation(pdu, geometry));
        case 2 =>
          var q := DeadReckonings.WorldPosition(p, v, ZeroVec, deltaTime);
          reckoned := reckoned.(locationDouble := q);
          reckoned := reckoned.(location := reckoned.location.(x := geometry.toFloat(q.x), y := geometry.toFloat(q.y)));
          reckoned := reckoned.(orientation := EulerOrientation(pdu, geometry));
        case 3 =>
          reckoned := MovedTo(reckoned, DeadReckonings.WorldPosition(p, v, ZeroVec, deltaTime), geometry);
          reckoned := reckoned.(orientation := QuaternionOrientation(pdu, w, deltaTime, geometry));
        case 4 =>
          reckoned := MovedTo(reckoned, DeadReckonings.WorldPosition(p, v, acc, deltaTime), geometry);
          reckoned := reckoned.(orientation := QuaternionOrientation(pdu, w, deltaTime, geometry));
        case 5 =>
          reckoned := MovedTo(reckoned, DeadReckonings.WorldPosition(p, v, acc, deltaTime), geometry);
          reckoned := reckoned.(orientation := EulerOrientation(pdu, geometry));
        case 6 =>
          reckoned := MovedTo(reckoned, geometry.bodyPosition(p, v, acc, ZeroVec, pdu.orientation, deltaTime), geometry);
          reckoned := reckoned.(orientation := EulerOrientation(pdu, geometry));
        case 7 =>
          reckoned := MovedTo(reckoned, geometry.bodyPosition(p, v, acc, ZeroVec, pdu.orientation, deltaTime), geometry);
          reckoned := reckoned.(orientation := QuaternionOrientation(pdu, ZeroVec, deltaTime, geometry));
        case 8 =>
          reckoned := MovedTo(reckoned, geometry.bodyPosition(p, v, acc, w, pdu.orientation, deltaTime), geometry);
          reckoned := reckoned.(orientation := QuaternionOrientation(pdu, w, deltaTime, geometry));
        case 9 =>
          reckoned := MovedTo(reckoned, geometry.bodyPosition(p, v, acc, w, pdu.orientation, deltaTime), geometry);
          reckoned := reckoned.(orientation := EulerOrientation(pdu, geometry));
        case _ =>
          supported := false;
      }
    }

    /** The dead-reckoned PDU DoDeadReckoning keeps after a successful reckoning over the elapsed time. */
    function ReckonedCopy(elapsed: real): ES.EntityStatePdu
      reads this`mostRecent, this`performSmoothing, this`numberReceived, this`smoothingPeriodSeconds,
            this`locationDifference, this`rotationDifference
    {
      var reckoned := LegacyReckoned(mostRecent, elapsed, geometry).pdu;
      if SmoothingApplies(performSmoothing, numberReceived, elapsed, smoothingPeriodSeconds)
      then Smoothed(reckoned, locationDifference, rotationDifference,
                    SmoothingWeight(elapsed, smoothingPeriodSeconds), geometry.toFloat)
      else reckoned
    }

    /**
     * DoDeadReckoning: as in the receive component, with the older dead
     * reckoning, whose gate always passes here so the latch never fires.
     */
    method DoDeadReckoning(deltaTime: real, cameraDistance: Option<real>)
      modifies this`deltaTimeSinceLastPdu, this`mostRecentDeadReckoned, this`events, this`performDeadReckoning
      ensures deltaTimeSinceLastPdu == old(deltaTimeSinceLastPdu) + deltaTime
      ensures performDeadReckoning == old(performDeadReckoning)
      ensures !(performDeadReckoning && spawnedFromNetwork) ==>
                mostRecentDeadReckoned == old(mostRecentDeadReckoned) && events == old(events)
      ensures performDeadReckoning && spawnedFromNetwork && Culled(cullingMode, cameraDistance, cullingDistance) ==>
                mostRecentDeadReckoned == old(mostRecentDeadReckoned) &&
                events == old(events) + [DeadReckoningUpdate(old(mostRecentDeadReckoned))]
      ensures performDeadReckoning && spawnedFromNetwork && !Culled(cullingMode, cameraDistance, cullingDistance) ==>
                ReckonedAndClamped(old(events))
    {
      deltaTimeSinceLastPdu := deltaTimeSinceLastPdu + deltaTime;
      if performDeadReckoning && spawnedFromNetwork {
        if cullingMode == CullDeadReckoning || cullingMode == CullAll {
          if cameraDistance.Some? && cameraDistance.value > cullingDistance {
            events := events + [DeadReckoningUpdate(mostRecentDeadReckoned)];
            return;
          }
        }
        ReckonAndClamp();
      }
    }

    /** What a reckoning step leaves, from the events before it (compare the receive component). */
    ghost predicate ReckonedAndClamped(before: seq<ReceiveEvent>)
      reads this
    {
      var r := LegacyReckoned(mostRecent, deltaTimeSinceLastPdu, geometry);
      (r.supported ==> mostRecentDeadReckoned == ReckonedCopy(deltaTimeSinceLastPdu) &&
                       events == before + [DeadReckoningUpdate(mostRecentDeadReckoned)] + ClampingEvents()) &&
      (!r.supported ==> mostRecentDeadReckoned == mostRecent && events == before + ClampingEvents())
    }

    /** DoDeadReckoning past its gates: reckon, smooth, broadcast, clamp. */
    method ReckonAndClamp()
      requires performDeadReckoning && spawnedFromNetwork
      modifies this`mostRecentDeadReckoned, this`events, this`performDeadReckoning
      ensures performDeadReckoning
      ensures ReckonedAndClamped(old(events))
    {
      var supported;
      supported, mostRecentDeadReckoned := DeadReckoning(mostRecent, deltaTimeSinceLastPdu, mostRecentDeadReckoned);
      if supported && performSmoothing && numberReceived > 1 && deltaTimeSinceLastPdu <= smoothingPeriodSeconds {
        mostRecentDeadReckoned := Smoothed(mostRecentDeadReckoned, locationDifference, rotationDifference,
                                           SmoothingWeight(deltaTimeSinceLastPdu, smoothingPeriodSeconds), geometry.toFloat);
      }
      if supported {
        events := events + [DeadReckoningUpdate(mostRecentDeadReckoned)];
      }
      GroundClamping();
    }
  }
}
