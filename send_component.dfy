// UDISSendComponent: the component that publishes its owner as a DIS entity.
// It forms Entity State PDUs from its settings and its owner's motion, sends
// one when the heartbeat has elapsed or dead reckoning has drifted past the
// thresholds, re-sends when a setting changes, and announces deactivation at
// the end of play.
//
// The owner's motion (ECEF location, orientation, the velocities and
// accelerations the update timer computes) is a value the engine supplies;
// the orientation-threshold test is a parameter.
module SendComponents {
  import opened DisBase
  import opened EntityTypes
  import EI = EntityIds
  import opened Structs
  import opened PduHeaders
  import opened PduFields
  import opened OtherParameters
  import opened DeadReckonings
  import Appearances
  import ES = EntityStatePdus
  import ESU = EntityStateUpdatePdus

  /** EEntityStateSendingMode. */
  datatype SendingMode = NoSending | EntityStateMode | EntityStateUpdateMode

  /** What was handed to the UDP subsystem: the bytes of an Entity State or an Entity State Update PDU. */
  datatype Emission = EntityStateBytes(pdu: ES.EntityStatePdu) | EntityStateUpdateBytes(update: ESU.EntityStateUpdatePdu)

  /**
   * The owner as the engine and the update timer see it: the ECEF location
   * and psi/theta/phi from the georeference, and the last calculated angular
   * velocity and ECEF and body-frame linear velocity and acceleration.
   */
  datatype Motion = Motion(
    ecefLocation: Vec3,
    psiThetaPhi: Orientation,
    angularVelocity: Vec3,
    ecefVelocity: Vec3,
    ecefAcceleration: Vec3,
    bodyVelocity: Vec3,
    bodyAcceleration: Vec3)

  /** The settings FormEntityStatePDU copies into every PDU. */
  datatype EntityDescription = EntityDescription(
    entityId: EI.EntityId,
    entityType: EntityType,
    forceId: Octet,
    marking: string,
    capabilities: EI.Int32,
    appearance: EI.Int32,
    algorithm: Octet)

  /**
   * What lies outside the component: the game manager's exercise (None when
   * there is no manager), whether a georeference and a UDP subsystem exist,
   * and the owner's motion.
   */
  datatype Surroundings = Surroundings(
    managerExercise: Option<Octet>,
    geoReferenced: bool,
    udpAvailable: bool,
    motion: Motion)

  /** Static, FPW, RPW, RVW and FVW are given ECEF velocity and acceleration. */
  predicate WorldFrameAlgorithm(algorithm: Octet)
  {
    algorithm == DrStatic || algorithm == DrFPW || algorithm == DrRPW || algorithm == DrRVW || algorithm == DrFVW
  }

  /** FPB, RPB, RVB and FVB are given body-frame velocity and acceleration. */
  predicate BodyFrameAlgorithm(algorithm: Octet)
  {
    algorithm == DrFPB || algorithm == DrRPB || algorithm == DrRVB || algorithm == DrFVB
  }

  /**
   * FormEntityStatePDU: a default PDU with the entity's settings, the
   * manager's exercise, the georeferenced location and orientation, the
   * angular velocity, the frame's velocity and acceleration, and the Other
   * Parameters for the algorithm.
   */
  function FormedEntityState(d: EntityDescription, s: Surroundings, frame: FrameGeometry, layout: FloatLayout)
    : ES.EntityStatePdu
  {
    var base := ES.DefaultEntityStatePdu();
    var described := base.(entityId := d.entityId, entityType := d.entityType, forceId := d.forceId,
                           marking := d.marking, capabilities := d.capabilities, appearance := d.appearance,
                           deadReckoning := base.deadReckoning.(algorithm := d.algorithm));
    var inExercise := if s.managerExercise.Some? then described.(header := described.header.(exerciseId := s.managerExercise.value))
                      else described;
    var placed := if s.geoReferenced then inExercise.(location := s.motion.ecefLocation,
                                                       orientation := OrientationFromRecord(s.motion.psiThetaPhi))
                  else inExercise;
    var m := s.motion;
    var spinning := placed.(deadReckoning := placed.deadReckoning.(angularVelocity := m.angularVelocity));
    var moving := if WorldFrameAlgorithm(d.algorithm) then
                    spinning.(linearVelocity := m.ecefVelocity,
                              deadReckoning := spinning.deadReckoning.(linearAcceleration := m.ecefAcceleration))
                  else if BodyFrameAlgorithm(d.algorithm) then
                    spinning.(linearVelocity := m.bodyVelocity,
                              deadReckoning := spinning.deadReckoning.(linearAcceleration := m.bodyAcceleration))
                  else spinning;
    moving.(deadReckoning := moving.deadReckoning.(
      otherParameters := OtherParametersFor(d.algorithm, moving.orientation, moving.location, frame, layout)))
  }

  /**
   * The formed PDU describes the entity: its settings, the manager's
   * exercise (0 without a manager), the georeferenced location and
   * orientation (zero without a georeference), and everything else default.
   */
  lemma FormedPduDescribesEntity(d: EntityDescription, s: Surroundings, frame: FrameGeometry, layout: FloatLayout)
    ensures var p := FormedEntityState(d, s, frame, layout);
            p.entityId == d.entityId && p.entityType == d.entityType && p.forceId == d.forceId &&
            p.marking == d.marking && p.capabilities == d.capabilities && p.appearance == d.appearance &&
            p.deadReckoning.algorithm == d.algorithm && p.header.pduType == ES.EntityStatePduType &&
            p.header.exerciseId == (if s.managerExercise.Some? then s.managerExercise.value else 0) &&
            p.location == (if s.geoReferenced then s.motion.ecefLocation else ZeroVec) &&
            p.orientation == (if s.geoReferenced then OrientationFromRecord(s.motion.psiThetaPhi) else ZeroRotator) &&
            p.deadReckoning.angularVelocity == s.motion.angularVelocity &&
            p.locationDouble == ZeroVec && p.articulations == [] &&
            p.alternativeType == DefaultEntityType
  {
  }

  /**
   * The velocity choice: ECEF values for Static and the world-frame
   * algorithms, body-frame values for the body-frame ones, and the default
   * zero vectors for any other algorithm.
   */
  lemma FormedVelocityChoice(d: EntityDescription, s: Surroundings, frame: FrameGeometry, layout: FloatLayout)
    ensures var p := FormedEntityState(d, s, frame, layout);
            var m := s.motion;
            (WorldFrameAlgorithm(d.algorithm) ==>
               p.linearVelocity == m.ecefVelocity && p.deadReckoning.linearAcceleration == m.ecefAcceleration) &&
            (BodyFrameAlgorithm(d.algorithm) ==>
               p.linearVelocity == m.bodyVelocity && p.deadReckoning.linearAcceleration == m.bodyAcceleration) &&
            (!WorldFrameAlgorithm(d.algorithm) && !BodyFrameAlgorithm(d.algorithm) ==>
               p.linearVelocity == ZeroVec && p.deadReckoning.linearAcceleration == ZeroVec)
  {
  }

  /** Every supported algorithm is in exactly one of the two frames; Other and unknown values in neither. */
  lemma FramesPartitionSupported(algorithm: Octet)
    ensures Supported(algorithm) <==> WorldFrameAlgorithm(algorithm) || BodyFrameAlgorithm(algorithm)
    ensures !(WorldFrameAlgorithm(algorithm) && BodyFrameAlgorithm(algorithm))
  {
  }

  /**
   * A formed PDU sent with an Euler-angle algorithm and read by a receiver
   * dead reckons to the orientation the sender's local angles describe.
   */
  lemma FormedPduCarriesLocalAngles(d: EntityDescription, s: Surroundings, frame: FrameGeometry, t: real,
                                    g: Geometry, m: Platform)
    requires ExactLayout(m.layout) && EulerAlgorithm(d.algorithm) && !Frozen(FormedEntityState(d, s, frame, m.layout))
    ensures var p := FormedEntityState(d, s, frame, m.layout);
            var hpr := frame.localAngles(p.orientation, p.location);
            DeadReckoned(p, t, g, m).pdu.orientation ==
              OrientationFromRecord(g.localToPsiThetaPhi(p.locationDouble, Rotator(hpr.pitch, hpr.heading, hpr.roll)))
  {
    var p := FormedEntityState(d, s, frame, m.layout);
    CarriedEulerAnglesSetOrientation(p, t, g, m, frame, p.orientation, p.location);
  }

  /**
   * ToEntityStateUpdatePDU: the fields an update carries (header, ID,
   * locations, orientation, velocity, appearance, articulations) with the
   * Entity State Update PDU type and zero padding.
   */
  function ToEntityStateUpdate(p: ES.EntityStatePdu): ESU.EntityStateUpdatePdu
  {
    ESU.EntityStateUpdatePdu(p.header.(pduType := ESU.EntityStateUpdatePduType), p.entityId, p.locationDouble,
                             p.location, p.orientation, p.linearVelocity, p.appearance, 0, p.articulations)
  }

  /**
   * Merging the update sent for a PDU into a receiver's copy of that PDU
   * gives the PDU back, and merging it into any older copy brings every
   * carried field up to date.
   */
  lemma UpdateMergesBack(p: ES.EntityStatePdu, older: ES.EntityStatePdu)
    requires p.header.pduType == ES.EntityStatePduType
    ensures ES.AssignFromUpdate(p, ToEntityStateUpdate(p)) == p
    ensures var merged := ES.AssignFromUpdate(older, ToEntityStateUpdate(p));
            merged.(forceId := p.forceId, marking := p.marking, deadReckoning := p.deadReckoning,
                    entityType := p.entityType, capabilities := p.capabilities,
                    alternativeType := p.alternativeType) == p
  {
  }

  /** What EmitAppropriatePDU hands to the UDP subsystem in a mode. */
  function EmissionFor(mode: SendingMode, udpAvailable: bool, p: ES.EntityStatePdu): seq<Emission>
  {
    if udpAvailable && mode == EntityStateMode then [EntityStateBytes(p)]
    else if udpAvailable && mode == EntityStateUpdateMode then [EntityStateUpdateBytes(ToEntityStateUpdate(p))]
    else []
  }

  /**
   * At most one emission: none in None mode or without a UDP subsystem,
   * Entity State bytes of the PDU in Entity State mode, and in Entity State
   * Update mode an update that brings a receiver's copy up to date.
   */
  lemma EmissionMatchesMode(mode: SendingMode, udpAvailable: bool, p: ES.EntityStatePdu)
    ensures var e := EmissionFor(mode, udpAvailable, p);
            |e| <= 1 &&
            (|e| == 1 <==> udpAvailable && mode != NoSending) &&
            (|e| == 1 && mode == EntityStateMode ==> e[0] == EntityStateBytes(p)) &&
            (|e| == 1 && mode == EntityStateUpdateMode ==>
               e[0].EntityStateUpdateBytes? && e[0].update.entityId == p.entityId &&
               e[0].update.header.pduType == ESU.EntityStateUpdatePduType &&
               (p.header.pduType == ES.EntityStatePduType ==> ES.AssignFromUpdate(p, e[0].update) == p))
  {
  }

  /** Some axis of the actual location is strictly more than the threshold away from the reckoned one. */
  predicate PositionOutside(actual: Vec3, reckoned: Vec3, threshold: real)
  {
    Abs(actual.x - reckoned.x) > threshold || Abs(actual.y - reckoned.y) > threshold ||
    Abs(actual.z - reckoned.z) > threshold
  }

  /**
   * CheckDeadReckoningThreshold: only when dead reckoning the most recent PDU
   * over the elapsed time succeeds, the position test on each axis, then the
   * orientation test (`orientationOutside`, CheckOrientationQuaternionThreshold).
   */
  predicate ThresholdExceeded(mostRecent: ES.EntityStatePdu, elapsed: real, actual: Motion, threshold: real,
                              orientationOutside: (ES.EntityStatePdu, real, Motion) -> bool, g: Geometry, m: Platform)
  {
    var r := DeadReckoned(mostRecent, elapsed, g, m);
    r.supported &&
    (PositionOutside(actual.ecefLocation, r.pdu.location, threshold) || orientationOutside(mostRecent, elapsed, actual))
  }

  /**
   * The threshold never fires for a frozen entity or an unsupported
   * algorithm, and fires for any other as soon as some axis has drifted past
   * the threshold or the orientation test fires.
   */
  lemma ThresholdNeedsReckoning(mostRecent: ES.EntityStatePdu, elapsed: real, actual: Motion, threshold: real,
                                orientationOutside: (ES.EntityStatePdu, real, Motion) -> bool, g: Geometry, m: Platform)
    ensures Frozen(mostRecent) || !Supported(mostRecent.deadReckoning.algorithm) ==>
              !ThresholdExceeded(mostRecent, elapsed, actual, threshold, orientationOutside, g, m)
    ensures !Frozen(mostRecent) && Supported(mostRecent.deadReckoning.algorithm) ==>
              (ThresholdExceeded(mostRecent, elapsed, actual, threshold, orientationOutside, g, m) <==>
               PositionOutside(actual.ecefLocation, DeadReckoned(mostRecent, elapsed, g, m).pdu.location, threshold) ||
               orientationOutside(mostRecent, elapsed, actual))
  {
  }

  /** An owner exactly where dead reckoning puts it, with no orientation drift, is not past a non-negative threshold. */
  lemma NoDriftNoSend(mostRecent: ES.EntityStatePdu, elapsed: real, actual: Motion, threshold: real,
                      orientationOutside: (ES.EntityStatePdu, real, Motion) -> bool, g: Geometry, m: Platform)
    requires threshold >= 0.0 && !orientationOutside(mostRecent, elapsed, actual)
    requires actual.ecefLocation == DeadReckoned(mostRecent, elapsed, g, m).pdu.location
    ensures !ThresholdExceeded(mostRecent, elapsed, actual, threshold, orientationOutside, g, m)
  {
  }

  /** SendEntityStatePDU's test: a sending mode, and the heartbeat elapsed or (only then evaluated) the threshold. */
  /**
   * What a chance to send decides and changes: the verdict, the most recent
   * PDU, the time the dead-reckoned copy was reckoned over (which, under
   * `Valid`, fixes that copy), the clock and the emissions.
   */
  datatype SendState = SendState(sent: bool, mostRecent: ES.EntityStatePdu, reckonedFor: Option<real>,
                                 deltaTimeSinceLastPdu: real, emitted: seq<Emission>)

  predicate ShouldSend(mode: SendingMode, elapsed: real, heartbeat: real, thresholdExceeded: bool)
  {
    (mode == EntityStateMode || mode == EntityStateUpdateMode) && (elapsed > heartbeat || thresholdExceeded)
  }

  /**
   * Which of a run of ticks send when the threshold never fires: each tick
   * adds its time, sends once the total passes the heartbeat, and a send
   * restarts the count from zero.
   */
  function HeartbeatSends(elapsed: real, heartbeat: real, ticks: seq<real>): (sends: seq<bool>)
    ensures |sends| == |ticks|
    decreases |ticks|
  {
    if ticks == [] then []
    else
      var total := elapsed + ticks[0];
      var sent := ShouldSend(EntityStateMode, total, heartbeat, false);
      [sent] + HeartbeatSends(if sent then 0.0 else total, heartbeat, ticks[1..])
  }

  function Sum(ticks: seq<real>): real
  {
    if ticks == [] then 0.0 else ticks[0] + Sum(ticks[1..])
  }

  /**
   * With no threshold sends and ticks that take no negative time, a run of
   * ticks starting within the heartbeat sends some heartbeat exactly when
   * the time since the last PDU grows past the heartbeat during the run.
   */
  lemma {:induction false} HeartbeatSendsIff(elapsed: real, heartbeat: real, ticks: seq<real>)
    requires elapsed <= heartbeat
    requires forall i :: 0 <= i < |ticks| ==> ticks[i] >= 0.0
    ensures true in HeartbeatSends(elapsed, heartbeat, ticks) <==> elapsed + Sum(ticks) > heartbeat
    decreases |ticks|
  {
    if ticks != [] {
      var total := elapsed + ticks[0];
      var rest := HeartbeatSends(if total > heartbeat then 0.0 else total, heartbeat, ticks[1..]);
      assert HeartbeatSends(elapsed, heartbeat, ticks) == [total > heartbeat] + rest;
      assert elapsed + Sum(ticks) == total + Sum(ticks[1..]);
      assert forall i :: 0 <= i < |ticks[1..]| ==> ticks[1..][i] >= 0.0;
      SumNonNegative(ticks[1..]);
      if total <= heartbeat {
        HeartbeatSendsIff(total, heartbeat, ticks[1..]);
        assert true in [false] + rest <==> true in rest;
      } else {
        assert true in [true] + rest;
      }
    }
  }

  lemma {:induction false} SumNonNegative(ticks: seq<real>)
    requires forall i :: 0 <= i < |ticks| ==> ticks[i] >= 0.0
    ensures Sum(ticks) >= 0.0
  {
    if ticks != [] {
      SumNonNegative(ticks[1..]);
    }
  }

  /** 1 << 23: the deactivated flag of the appearance. */
  const DeactivatedFlag: EI.Int32 := 0x80_0000

  /**
   * The final PDU EndPlay emits: a default PDU with the entity's ID, type,
   * force and marking, the manager's exercise, and the default appearance
   * (0) with bit 23 set.
   */
  function FinalEntityState(d: EntityDescription, managerExercise: Option<Octet>): ES.EntityStatePdu
  {
    var base := ES.DefaultEntityStatePdu();
    var described := base.(entityId := d.entityId, entityType := d.entityType, forceId := d.forceId,
                           marking := d.marking, appearance := base.appearance + DeactivatedFlag);
    if managerExercise.Some? then described.(header := described.header.(exerciseId := managerExercise.value))
    else described
  }

  /**
   * The final PDU identifies the entity and reads as deactivated: bit 23 of
   * its appearance is set and bit 21 (frozen) is not.
   */
  lemma FinalPduIsDeactivated(d: EntityDescription, managerExercise: Option<Octet>)
    ensures var p := FinalEntityState(d, managerExercise);
            p.entityId == d.entityId && p.entityType == d.entityType && p.forceId == d.forceId &&
            p.marking == d.marking && p.header.pduType == ES.EntityStatePduType &&
            BitAt(p.appearance, Appearances.DeactivatedBit) && !Frozen(p)
  {
    var p := FinalEntityState(d, managerExercise);
    SingleBit(Appearances.DeactivatedBit, Appearances.DeactivatedBit);
    SingleBit(Appearances.DeactivatedBit, Appearances.FrozenBit);
    Pow2Table();
  }

  /** 2^k has bit k set and no other. */
  lemma {:induction false} SingleBit(k: nat, i: nat)
    ensures BitAt(Pow2(k), i) <==> i == k
    decreases k
  {
    if k == 0 {
      if i > 0 {
        BitAtZero(i - 1);
      }
    } else if i > 0 {
      assert Pow2(k) / 2 == Pow2(k - 1);
      SingleBit(k - 1, i - 1);
    }
  }

  /**
   * The send component. Its settings are public fields; `mostRecent` is the
   * last PDU formed and sent, `mostRecentDeadReckoned` that PDU as last
   * dead reckoned, and `emitted` every datagram handed to the UDP subsystem.
   */
  class SendComponent {
    var entityId: EI.EntityId
    var entityType: EntityType
    var forceId: Octet
    var marking: string
    var appearance: EI.Int32
    var capabilities: EI.Int32
    var deadReckoningAlgorithm: Octet
    var sendingMode: SendingMode
    var heartbeatSeconds: real
    var positionThresholdMeters: real
    var surroundings: Surroundings

    var mostRecent: ES.EntityStatePdu
    var mostRecentDeadReckoned: ES.EntityStatePdu
    var deltaTimeSinceLastPdu: real
    var emitted: seq<Emission>

    /** The elapsed time `mostRecentDeadReckoned` was reckoned over, or None while it is `mostRecent` itself. */
    ghost var reckonedFor: Option<real>

    const frame: FrameGeometry
    const geometry: Geometry
    const platform: Platform
    /** CheckOrientationQuaternionThreshold, from the most recent PDU, the elapsed time and the owner's motion. */
    const orientationOutside: (ES.EntityStatePdu, real, Motion) -> bool

    /** The dead-reckoned copy is the most recent PDU reckoned over some elapsed time, or that PDU itself. */
    ghost predicate Valid()
      reads this`mostRecent, this`mostRecentDeadReckoned, this`reckonedFor
    {
      mostRecentDeadReckoned == ReckonedCopy(mostRecent, reckonedFor)
    }

    /** `pdu` dead-reckoned over `over`, or `pdu` itself for None. */
    function ReckonedCopy(pdu: ES.EntityStatePdu, over: Option<real>): ES.EntityStatePdu
    {
      match over
      case None => pdu
      case Some(t) => DeadReckoned(pdu, t, geometry, platform).pdu
    }

    function Description(): EntityDescription
      reads this`entityId, this`entityType, this`forceId, this`marking, this`capabilities, this`appearance,
            this`deadReckoningAlgorithm
    {
      EntityDescription(entityId, entityType, forceId, marking, capabilities, appearance, deadReckoningAlgorithm)
    }

    /** The PDU FormEntityStatePDU would form now. */
    function FormEntityStatePdu(): ES.EntityStatePdu
      reads this`entityId, this`entityType, this`forceId, this`marking, this`capabilities, this`appearance,
            this`deadReckoningAlgorithm, this`surroundings
    {
      FormedEntityState(Description(), surroundings, frame, platform.layout)
    }

    /** Whether CheckDeadReckoningThreshold would report drift now. */
    predicate Drifted()
      reads this`mostRecent, this`deltaTimeSinceLastPdu, this`surroundings, this`positionThresholdMeters
    {
      DriftedFrom(mostRecent, deltaTimeSinceLastPdu)
    }

    /** Whether the threshold test fires for `pdu` reckoned over `elapsed`, against the owner's motion now. */
    predicate DriftedFrom(pdu: ES.EntityStatePdu, elapsed: real)
      reads this`surroundings, this`positionThresholdMeters
    {
      ThresholdExceeded(pdu, elapsed, surroundings.motion, positionThresholdMeters, orientationOutside, geometry, platform)
    }

    /**
     * The defaults and BeginPlay: appearance, capabilities and algorithm 1,
     * a 5-second heartbeat, a 1-metre threshold, no sending by default; the
     * first PDU is formed, and sent when there is a UDP subsystem and a
     * sending mode.
     */
    constructor(description: EntityDescription, mode: SendingMode, surroundings: Surroundings,
                frame: FrameGeometry, geometry: Geometry, platform: Platform,
                orientationOutside: (ES.EntityStatePdu, real, Motion) -> bool)
      ensures Valid()
      ensures entityId == description.entityId && entityType == description.entityType
      ensures forceId == description.forceId && marking == description.marking
      ensures appearance == 1 && capabilities == 1 && deadReckoningAlgorithm == DrStatic
      ensures sendingMode == mode && heartbeatSeconds == 5.0 && positionThresholdMeters == 1.0
      ensures this.surroundings == surroundings && deltaTimeSinceLastPdu == 0.0
      ensures this.frame == frame && this.geometry == geometry && this.platform == platform
      ensures this.orientationOutside == orientationOutside
      ensures mostRecent == FormEntityStatePdu() && mostRecentDeadReckoned == mostRecent
      ensures emitted == (if surroundings.udpAvailable && mode != NoSending then [EntityStateBytes(mostRecent)] else [])
    {
      var d := description.(capabilities := 1, appearance := 1, algorithm := DrStatic);
      var pdu := FormedEntityState(d, surroundings, frame, platform.layout);
      entityId := description.entityId;
      entityType := description.entityType;
      forceId := description.forceId;
      marking := description.marking;
      appearance := 1;
      capabilities := 1;
      deadReckoningAlgorithm := DrStatic;
      sendingMode := mode;
      heartbeatSeconds := 5.0;
      positionThresholdMeters := 1.0;
      this.surroundings := surroundings;
      deltaTimeSinceLastPdu := 0.0;
      this.frame := frame;
      this.geometry := geometry;
      this.platform := platform;
      this.orientationOutside := orientationOutside;
      mostRecent := pdu;
      mostRecentDeadReckoned := pdu;
      emitted := if surroundings.udpAvailable && mode != NoSending then [EntityStateBytes(pdu)] else [];
      reckonedFor := None;
    }

    /** EmitAppropriatePDU: the PDU in the form the mode asks for; true when something was handed over. */
    method EmitAppropriatePdu(pdu: ES.EntityStatePdu) returns (successful: bool)
      modifies this`emitted
      ensures emitted == old(emitted) + EmissionFor(sendingMode, surroundings.udpAvailable, pdu)
      ensures successful <==> surroundings.udpAvailable && sendingMode != NoSending
    {
      successful := false;
      if surroundings.udpAvailable && sendingMode == EntityStateMode {
        emitted := emitted + [EntityStateBytes(pdu)];
        successful := true;
      } else if surroundings.udpAvailable && sendingMode == EntityStateUpdateMode {
        emitted := emitted + [EntityStateUpdateBytes(ToEntityStateUpdate(pdu))];
        successful := true;
      }
    }

    /**
     * CheckDeadReckoningThreshold. The dead-reckoned copy is overwritten by
     * the reckoning whatever the outcome.
     */
    method CheckDeadReckoningThreshold() returns (outsideThreshold: bool)
      requires Valid()
      modifies this`mostRecentDeadReckoned, this`reckonedFor
      ensures Valid()
      ensures outsideThreshold == Drifted()
      ensures mostRecentDeadReckoned == DeadReckoned(mostRecent, deltaTimeSinceLastPdu, geometry, platform).pdu
      ensures reckonedFor == Some(deltaTimeSinceLastPdu)
    {
      outsideThreshold := false;
      var supported;
      supported, mostRecentDeadReckoned := DeadReckoning(mostRecent, deltaTimeSinceLastPdu, geometry, platform);
      reckonedFor := Some(deltaTimeSinceLastPdu);
      if supported {
        var ecefLocation := surroundings.motion.ecefLocation;
        var reckoned := mostRecentDeadReckoned.location;
        var xOutside := Abs(ecefLocation.x - reckoned.x) > positionThresholdMeters;
        var yOutside := Abs(ecefLocation.y - reckoned.y) > positionThresholdMeters;
        var zOutside := Abs(ecefLocation.z - reckoned.z) > positionThresholdMeters;
        if xOutside || yOutside || zOutside || orientationOutside(mostRecent, deltaTimeSinceLastPdu, surroundings.motion) {
          outsideThreshold := true;
        }
      }
    }

    /**
     * The outcome of a chance to send, from the most recent PDU `pdu`, the
     * elapsed time `elapsed`, the time `over` the dead-reckoned copy was
     * reckoned over and the emissions `before`: a send happens exactly when
     * the mode sends and the heartbeat elapsed or `pdu`, reckoned over
     * `elapsed`, drifted past the threshold. A send forms a new PDU, makes
     * it both the most recent and the dead-reckoned one (reckoned over
     * nothing), emits it and restarts the clock. Without a send the PDU, the
     * clock and the emissions stay; the dead-reckoned copy is `pdu` reckoned
     * over `elapsed` when the mode sends (the threshold was evaluated), and
     * stays as it was when it does not.
     */
    function AfterSendChance(pdu: ES.EntityStatePdu, elapsed: real, over: Option<real>,
                             before: seq<Emission>): SendState
      reads this`sendingMode, this`heartbeatSeconds, this`positionThresholdMeters, this`surroundings,
            this`entityId, this`entityType, this`forceId, this`marking, this`capabilities, this`appearance,
            this`deadReckoningAlgorithm
    {
      if ShouldSend(sendingMode, elapsed, heartbeatSeconds, DriftedFrom(pdu, elapsed)) then
        var formed := FormEntityStatePdu();
        SendState(true, formed, None, 0.0, before + EmissionFor(sendingMode, surroundings.udpAvailable, formed))
      else
        SendState(false, pdu, if sendingMode == NoSending then over else Some(elapsed), elapsed, before)
    }

    /** The state a chance to send changes, with its verdict. */
    ghost function SendingState(sent: bool): SendState
      reads this`mostRecent, this`reckonedFor, this`deltaTimeSinceLastPdu, this`emitted
    {
      SendState(sent, mostRecent, reckonedFor, deltaTimeSinceLastPdu, emitted)
    }

    /** SendEntityStatePDU: one chance to send, over the clock as it stands. */
    method SendEntityStatePdu() returns (sentUpdate: bool)
      requires Valid()
      modifies this`mostRecent, this`mostRecentDeadReckoned, this`reckonedFor, this`emitted,
               this`deltaTimeSinceLastPdu
      ensures Valid()
      ensures SendingState(sentUpdate) ==
                AfterSendChance(old(mostRecent), old(deltaTimeSinceLastPdu), old(reckonedFor), old(emitted))
    {
      ghost var pdu, elapsed, over := mostRecent, deltaTimeSinceLastPdu, reckonedFor;
      sentUpdate := false;
      var due := SendDue();
      assert due == ShouldSend(sendingMode, elapsed, heartbeatSeconds, DriftedFrom(pdu, elapsed));
      if due {
        Publish();
        sentUpdate := true;
      } else {
        assert reckonedFor == (if sendingMode == NoSending then over else Some(elapsed));
      }
    }

    /** SendEntityStatePDU's condition, evaluated left to right: the threshold only when the heartbeat has not elapsed. */
    method SendDue() returns (due: bool)
      requires Valid()
      modifies this`mostRecentDeadReckoned, this`reckonedFor
      ensures Valid()
      ensures due == ShouldSend(sendingMode, deltaTimeSinceLastPdu, heartbeatSeconds, Drifted())
      ensures sendingMode == NoSending || deltaTimeSinceLastPdu > heartbeatSeconds ==>
                mostRecentDeadReckoned == old(mostRecentDeadReckoned) && reckonedFor == old(reckonedFor)
      ensures sendingMode != NoSending && !(deltaTimeSinceLastPdu > heartbeatSeconds) ==>
                reckonedFor == Some(deltaTimeSinceLastPdu)
    {
      due := false;
      if sendingMode == EntityStateMode || sendingMode == EntityStateUpdateMode {
        if deltaTimeSinceLastPdu > heartbeatSeconds {
          due := true;
        } else {
          due := CheckDeadReckoningThreshold();
        }
      }
    }

    /** The body of a send: form a PDU, make it both copies, emit it, restart the clock. */
    method Publish()
      modifies this`mostRecent, this`mostRecentDeadReckoned, this`reckonedFor, this`emitted,
               this`deltaTimeSinceLastPdu
      ensures Valid()
      ensures mostRecent == FormEntityStatePdu() && mostRecentDeadReckoned == mostRecent && reckonedFor == None
      ensures deltaTimeSinceLastPdu == 0.0
      ensures emitted == old(emitted) + EmissionFor(sendingMode, surroundings.udpAvailable, mostRecent)
    {
      RefreshMostRecent();
      var _ := EmitAppropriatePdu(mostRecent);
      deltaTimeSinceLastPdu := 0.0;
    }

    /** TickComponent: the clock advances, and a sending mode gets a chance to send. */
    method TickComponent(deltaTime: real) returns (sentUpdate: bool)
      requires Valid()
      modifies this`mostRecent, this`mostRecentDeadReckoned, this`reckonedFor, this`emitted,
               this`deltaTimeSinceLastPdu
      ensures Valid()
      ensures SendingState(sentUpdate) ==
                AfterSendChance(old(mostRecent), old(deltaTimeSinceLastPdu) + deltaTime, old(reckonedFor), old(emitted))
    {
      deltaTimeSinceLastPdu := deltaTimeSinceLastPdu + deltaTime;
      if sendingMode == NoSending {
        NoChanceWithoutMode();
        return false;
      }
      sentUpdate := SendEntityStatePdu();
    }

    /** Without a sending mode a chance to send changes nothing. */
    lemma NoChanceWithoutMode()
      requires sendingMode == NoSending
      ensures SendingState(false) == AfterSendChance(mostRecent, deltaTimeSinceLastPdu, reckonedFor, emitted)
    {
    }

    /** Both copies of the most recent PDU become a freshly formed one. */
    method RefreshMostRecent()
      modifies this`mostRecent, this`mostRecentDeadReckoned, this`reckonedFor
      ensures Valid()
      ensures mostRecent == FormEntityStatePdu() && mostRecentDeadReckoned == mostRecent && reckonedFor == None
    {
      mostRecent := FormEntityStatePdu();
      mostRecentDeadReckoned := mostRecent;
      reckonedFor := None;
    }

    /** The PDU's bytes go straight to the UDP subsystem, when there is one. */
    method EmitEntityStateBytes(pdu: ES.EntityStatePdu)
      modifies this`emitted
      ensures emitted == old(emitted) + (if surroundings.udpAvailable then [EntityStateBytes(pdu)] else [])
    {
      if surroundings.udpAvailable {
        emitted := emitted + [EntityStateBytes(pdu)];
      }
    }

    /**
     * SetEntityCapabilities: only in Entity State mode, for a different,
     * non-negative value; the new PDU's bytes are sent directly when there is
     * a UDP subsystem.
     */
    method SetEntityCapabilities(newCapabilities: EI.Int32)
      requires Valid()
      modifies this`capabilities, this`mostRecent, this`mostRecentDeadReckoned, this`reckonedFor, this`emitted
      ensures Valid()
      ensures var accepted := sendingMode == EntityStateMode && newCapabilities != old(capabilities) && newCapabilities >= 0;
              (accepted ==> capabilities == newCapabilities && mostRecent == FormEntityStatePdu() &&
                            mostRecentDeadReckoned == mostRecent &&
                            emitted == old(emitted) + (if surroundings.udpAvailable then [EntityStateBytes(mostRecent)] else [])) &&
              (!accepted ==> capabilities == old(capabilities) && mostRecent == old(mostRecent) &&
                             mostRecentDeadReckoned == old(mostRecentDeadReckoned) && emitted == old(emitted))
    {
      if sendingMode == EntityStateMode && newCapabilities != capabilities && newCapabilities >= 0 {
        capabilities := newCapabilities;
        RefreshMostRecent();
        EmitEntityStateBytes(mostRecent);
      }
    }

    /** SetEntityAppearance: in any mode, for a different, non-negative value; sent as the mode asks. */
    method SetEntityAppearance(newAppearance: EI.Int32)
      requires Valid()
      modifies this`appearance, this`mostRecent, this`mostRecentDeadReckoned, this`reckonedFor, this`emitted
      ensures Valid()
      ensures var accepted := newAppearance != old(appearance) && newAppearance >= 0;
              (accepted ==> appearance == newAppearance && mostRecent == FormEntityStatePdu() &&
                            mostRecentDeadReckoned == mostRecent &&
                            emitted == old(emitted) + EmissionFor(sendingMode, surroundings.udpAvailable, mostRecent)) &&
              (!accepted ==> appearance == old(appearance) && mostRecent == old(mostRecent) &&
                             mostRecentDeadReckoned == old(mostRecentDeadReckoned) && emitted == old(emitted))
    {
      if newAppearance != appearance && newAppearance >= 0 {
        appearance := newAppearance;
        RefreshMostRecent();
        var _ := EmitAppropriatePdu(mostRecent);
      }
    }

    /**
     * SetDeadReckoningAlgorithm: only in Entity State mode, for a different
     * value (no range check); the new PDU's bytes are sent directly.
     */
    method SetDeadReckoningAlgorithm(newAlgorithm: Octet)
      requires Valid()
      modifies this`deadReckoningAlgorithm, this`mostRecent, this`mostRecentDeadReckoned, this`reckonedFor,
               this`emitted
      ensures Valid()
      ensures var accepted := sendingMode == EntityStateMode && newAlgorithm != old(deadReckoningAlgorithm);
              (accepted ==> deadReckoningAlgorithm == newAlgorithm && mostRecent == FormEntityStatePdu() &&
                            mostRecentDeadReckoned == mostRecent &&
                            emitted == old(emitted) + (if surroundings.udpAvailable then [EntityStateBytes(mostRecent)] else [])) &&
              (!accepted ==> deadReckoningAlgorithm == old(deadReckoningAlgorithm) && mostRecent == old(mostRecent) &&
                             mostRecentDeadReckoned == old(mostRecentDeadReckoned) && emitted == old(emitted))
    {
      if sendingMode == EntityStateMode && newAlgorithm != deadReckoningAlgorithm {
        deadReckoningAlgorithm := newAlgorithm;
        RefreshMostRecent();
        EmitEntityStateBytes(mostRecent);
      }
    }

    /** EndPlay: one final, deactivated PDU, sent as the mode asks. */
    method EndPlay()
      modifies this`emitted
      ensures emitted == old(emitted) + EmissionFor(sendingMode, surroundings.udpAvailable,
                                                    FinalEntityState(Description(), surroundings.managerExercise))
    {
      var finalPdu := ES.DefaultEntityStatePdu();
      finalPdu := finalPdu.(entityId := entityId, entityType := entityType, forceId := forceId, marking := marking);
      finalPdu := finalPdu.(appearance := finalPdu.appearance + DeactivatedFlag);
      if surroundings.managerExercise.Some? {
        finalPdu := finalPdu.(header := finalPdu.header.(exerciseId := surroundings.managerExercise.value));
      }
      var _ := EmitAppropriatePdu(finalPdu);
    }
  }
}
