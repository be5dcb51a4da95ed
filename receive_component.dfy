// UDISReceiveComponent: the component that mirrors a remote DIS entity on
// its owner. It keeps the newest Entity State PDU and its dead-reckoned copy,
// destroys its owner on deactivation, dead reckons on every tick the game
// manager gives it, smooths the jump a new PDU causes, and gates ground
// clamping on its settings.
//
// Line traces, the camera and the georeference are engine geometry: the
// distance to the camera and whether a ground trace hits are values the
// caller supplies, and the normalized rotation difference is a parameter.
module ReceiveComponents {
  import opened DisBase
  import opened EntityTypes
  import EI = EntityIds
  import opened PduFields
  import opened DeadReckonings
  import Appearances
  import ES = EntityStatePdus
  import ESU = EntityStateUpdatePdus
  import SendComponents

  /** EDISCullingMode. */
  datatype CullingMode = NoCulling | CullDeadReckoning | CullAll

  /** EGroundClampingMode. */
  datatype GroundClampingMode = NoGroundClamping | GroundClampWithDisOptions | AlwaysGroundClamp

  /** What the component broadcast to its owner's listeners. */
  datatype ReceiveEvent =
    | ReceivedEntityState(pdu: ES.EntityStatePdu)
    | ReceivedEntityStateUpdate(update: ESU.EntityStateUpdatePdu)
    | DeadReckoningUpdate(pdu: ES.EntityStatePdu)
    | GroundClampingUpdate(pdu: ES.EntityStatePdu)

  /** The owning actor, as far as the component touches it. */
  class Actor {
    var tags: seq<string>
    var destroyed: bool
    /** The life span last set; 0 means none was set. */
    var lifeSpan: real

    constructor(tags: seq<string>)
      ensures this.tags == tags && !destroyed && lifeSpan == 0.0
    {
      this.tags := tags;
      destroyed := false;
      lifeSpan := 0.0;
    }
  }

  /** TArray::Remove: every occurrence of `tag` goes, the other tags keep their order. */
  function Without(tags: seq<string>, tag: string): (r: seq<string>)
    ensures tag !in r
    ensures forall t :: t in r <==> t in tags && t != tag
    ensures |r| <= |tags|
    ensures tag !in tags ==> r == tags
  {
    if tags == [] then []
    else if tags[0] == tag then Without(tags[1..], tag)
    else [tags[0]] + Without(tags[1..], tag)
  }

  /** The Entity State deactivated test: bit 23 of the appearance. */
  predicate Deactivated(appearance: int)
  {
    BitAt(appearance, Appearances.DeactivatedBit)
  }

  /**
   * The PDU a send component emits at the end of play is one every receiver
   * treats as deactivated.
   */
  lemma FinalPduDeactivatesReceiver(d: SendComponents.EntityDescription, managerExercise: Option<Octet>)
    ensures Deactivated(SendComponents.FinalEntityState(d, managerExercise).appearance)
  {
    SendComponents.FinalPduIsDeactivated(d, managerExercise);
  }

  /**
   * MapRangeClamped(elapsed, 0, period, 0, 1): the fraction of the period
   * that has elapsed, clamped to [0, 1]; an empty range is a step at its end.
   */
  function SmoothingWeight(elapsed: real, period: real): (alpha: real)
    ensures 0.0 <= alpha <= 1.0
    ensures period > 0.0 && elapsed <= 0.0 ==> alpha == 0.0
    ensures period > 0.0 && elapsed >= period ==> alpha == 1.0
    ensures period > 0.0 && 0.0 <= elapsed <= period ==> alpha * period == elapsed
    ensures period == 0.0 ==> (alpha == 1.0 <==> elapsed >= 0.0)
  {
    if period == 0.0 then (if elapsed >= period then 1.0 else 0.0)
    else
      var fraction := elapsed / period;
      if fraction < 0.0 then 0.0 else if fraction > 1.0 then 1.0 else fraction
  }

  /** FMath::Lerp(a, 0, alpha): the part of `a` still to be removed. */
  function Remaining(a: real, alpha: real): real
  {
    a + alpha * (0.0 - a)
  }

  /**
   * SmoothDeadReckoning's result for a weight `alpha`: the location
   * correction and rotation difference, scaled by what is left of them, are
   * taken off the double location and the orientation, and the float
   * location is the cast of the new double one.
   */
  function Smoothed(pdu: ES.EntityStatePdu, locationDifference: Vec3, rotationDifference: Rotator, alpha: real,
                    toFloat: Rounding): ES.EntityStatePdu
  {
    var double := Vec3(pdu.locationDouble.x - Remaining(locationDifference.x, alpha),
                       pdu.locationDouble.y - Remaining(locationDifference.y, alpha),
                       pdu.locationDouble.z - Remaining(locationDifference.z, alpha));
    var o := pdu.orientation;
    pdu.(locationDouble := double, location := RoundVec(toFloat, double),
         orientation := Rotator(o.pitch - Remaining(rotationDifference.pitch, alpha),
                                o.yaw - Remaining(rotationDifference.yaw, alpha),
                                o.roll - Remaining(rotationDifference.roll, alpha)))
  }

  /**
   * Smoothing removes (1 - alpha) of each difference and changes nothing but
   * the locations and the orientation; once the weight reaches 1 the
   * reckoned position and orientation are kept as they are.
   */
  lemma SmoothingFadesOut(pdu: ES.EntityStatePdu, locationDifference: Vec3, rotationDifference: Rotator, alpha: real,
                          toFloat: Rounding)
    ensures var s := Smoothed(pdu, locationDifference, rotationDifference, alpha, toFloat);
            s.(locationDouble := pdu.locationDouble, location := pdu.location, orientation := pdu.orientation) == pdu &&
            s.locationDouble == Add(pdu.locationDouble, Scale(locationDifference, alpha - 1.0)) &&
            s.location == RoundVec(toFloat, s.locationDouble)
    ensures alpha == 1.0 ==> Smoothed(pdu, locationDifference, rotationDifference, alpha, toFloat).locationDouble == pdu.locationDouble &&
                             Smoothed(pdu, locationDifference, rotationDifference, alpha, toFloat).orientation == pdu.orientation
  {
    RemainingIsScaled(locationDifference.x, alpha);
    RemainingIsScaled(locationDifference.y, alpha);
    RemainingIsScaled(locationDifference.z, alpha);
    RemainingIsScaled(rotationDifference.pitch, alpha);
    RemainingIsScaled(rotationDifference.yaw, alpha);
    RemainingIsScaled(rotationDifference.roll, alpha);
  }

  /** Lerp(a, 0, alpha) leaves (1 - alpha) of `a`: all of it at 0, none at 1. */
  lemma RemainingIsScaled(a: real, alpha: real)
    ensures Remaining(a, alpha) == a * (1.0 - alpha)
    ensures alpha == 0.0 ==> Remaining(a, alpha) == a
    ensures alpha == 1.0 ==> Remaining(a, alpha) == 0.0
  {
  }

  /**
   * No jump on arrival: when a PDU for a world-frame algorithm arrives and
   * is smoothed with no time elapsed, the smoothed location is the location
   * the entity had been dead reckoned to before the PDU arrived.
   */
  lemma SmoothingStartsAtPreviousReckoning(previous: ES.EntityStatePdu, arrived: ES.EntityStatePdu, period: real,
                                           rotationDifference: Rotator, g: Geometry, m: Platform)
    requires !Frozen(arrived) && arrived.deadReckoning.algorithm in {Structs.DrFPW, Structs.DrRPW, Structs.DrRVW, Structs.DrFVW}
    requires period > 0.0
    ensures var reckoned := DeadReckoned(arrived, 0.0, g, m).pdu;
            var difference := Vec3(arrived.locationDouble.x - previous.locationDouble.x,
                                   arrived.locationDouble.y - previous.locationDouble.y,
                                   arrived.locationDouble.z - previous.locationDouble.z);
            Smoothed(reckoned, difference, rotationDifference, SmoothingWeight(0.0, period), m.toFloat).locationDouble ==
              previous.locationDouble
  {
    NoTimeNoWorldMotion(arrived, g, m);
  }

  /**
   * GroundClamping's gate: only a network-spawned entity, and either always
   * or, with the DIS options, a ground-domain entity that is not a munition.
   */
  predicate ClampingApplies(spawnedFromNetwork: bool, mode: GroundClampingMode, entityType: EntityType)
  {
    spawnedFromNetwork &&
    (mode == AlwaysGroundClamp ||
     (mode == GroundClampWithDisOptions && entityType.domain == 1 && entityType.kind != 2))
  }

  /** Clamping never applies to a locally owned entity, nor with clamping off, nor to a munition under the DIS options. */
  lemma ClampingGateCases(spawnedFromNetwork: bool, mode: GroundClampingMode, t: EntityType)
    ensures !spawnedFromNetwork || mode == NoGroundClamping ==> !ClampingApplies(spawnedFromNetwork, mode, t)
    ensures mode == GroundClampWithDisOptions && t.kind == 2 ==> !ClampingApplies(spawnedFromNetwork, mode, t)
    ensures spawnedFromNetwork && mode == AlwaysGroundClamp ==> ClampingApplies(spawnedFromNetwork, mode, t)
  {
  }

  /** The culling test of DoDeadReckoning: a culling mode, a camera, and an owner beyond the distance. */
  predicate Culled(mode: CullingMode, cameraDistance: Option<real>, cullingDistance: real)
  {
    (mode == CullDeadReckoning || mode == CullAll) && cameraDistance.Some? && cameraDistance.value > cullingDistance
  }

  /** Whether DoDeadReckoning smooths a successful reckoning. */
  predicate SmoothingApplies(smoothing: bool, received: nat, elapsed: real, period: real)
  {
    smoothing && received > 1 && elapsed <= period
  }

  /**
   * The receive component. Its settings are public fields with the
   * header's defaults; `events` records every broadcast.
   */
  class ReceiveComponent {
    const owner: Actor

    var spawnedFromNetwork: bool
    var entityId: EI.EntityId
    var entityType: EntityType
    var forceId: Octet
    var marking: string
    var mostRecent: ES.EntityStatePdu
    var mostRecentDeadReckoned: ES.EntityStatePdu
    var deltaTimeSinceLastPdu: real
    var numberReceived: nat
    var locationDifference: Vec3
    var rotationDifference: Rotator

    var timeoutSeconds: real
    var cullingMode: CullingMode
    var cullingDistance: real
    var performDeadReckoning: bool
    var performSmoothing: bool
    var smoothingPeriodSeconds: real
    var groundClamping: GroundClampingMode

    var events: seq<ReceiveEvent>

    const geometry: Geometry
    const platform: Platform
    /** (current - previous).GetNormalized() in degrees, back in radians: the rotation difference. */
    const normalizedDifference: (Rotator, Rotator) -> Rotator
    /** Whether the ground line trace through a dead-reckoned PDU's location hits something. */
    const groundHit: ES.EntityStatePdu -> bool

    /**
     * The defaults and BeginPlay: a 30-second timeout, no culling at distance
     * 0, dead reckoning and smoothing on with a 0.5-second period, clamping
     * with the DIS options, nothing received, a zero location difference.
     */
    constructor(owner: Actor, geometry: Geometry, platform: Platform,
                normalizedDifference: (Rotator, Rotator) -> Rotator, groundHit: ES.EntityStatePdu -> bool)
      ensures this.owner == owner && this.geometry == geometry && this.platform == platform
      ensures this.normalizedDifference == normalizedDifference && this.groundHit == groundHit
      ensures !spawnedFromNetwork && numberReceived == 0 && deltaTimeSinceLastPdu == 0.0
      ensures mostRecent == ES.DefaultEntityStatePdu() && mostRecentDeadReckoned == mostRecent
      ensures entityId == EI.DefaultEntityId && entityType == DefaultEntityType
      ensures locationDifference == ZeroVec && rotationDifference == ZeroRotator
      ensures timeoutSeconds == 30.0 && cullingMode == NoCulling && cullingDistance == 0.0
      ensures performDeadReckoning && performSmoothing && smoothingPeriodSeconds == 0.5
      ensures groundClamping == GroundClampWithDisOptions && events == []
    {
      this.owner := owner;
      this.geometry := geometry;
      this.platform := platform;
      this.normalizedDifference := normalizedDifference;
      this.groundHit := groundHit;
      spawnedFromNetwork := false;
      entityId := EI.DefaultEntityId;
      entityType := DefaultEntityType;
      forceId := ES.ForceOther;
      marking := "";
      mostRecent := ES.DefaultEntityStatePdu();
      mostRecentDeadReckoned := ES.DefaultEntityStatePdu();
      deltaTimeSinceLastPdu := 0.0;
      numberReceived := 0;
      locationDifference := ZeroVec;
      rotationDifference := ZeroRotator;
      timeoutSeconds := 30.0;
      cullingMode := NoCulling;
      cullingDistance := 0.0;
      performDeadReckoning := true;
      performSmoothing := true;
      smoothingPeriodSeconds := 0.5;
      groundClamping := GroundClampWithDisOptions;
      events := [];
    }

    /** InitializeComponent: the spawn tag marks a network-spawned owner, and is removed. */
    method InitializeComponent(spawnTag: string)
      modifies this`spawnedFromNetwork, owner`tags
      ensures spawnedFromNetwork <==> spawnTag in old(owner.tags)
      ensures owner.tags == Without(old(owner.tags), spawnTag)
    {
      if spawnTag in owner.tags {
        spawnedFromNetwork := true;
        owner.tags := Without(owner.tags, spawnTag);
      } else {
        spawnedFromNetwork := false;
      }
    }

    /**
     * UpdateCommonEntityStateInfo: the clock restarts, the location and
     * rotation differences are taken against the dead-reckoned PDU being
     * replaced, both PDUs become the new one, the ID is copied, the owner's
     * life span is renewed and the count goes up by one.
     */
    method UpdateCommonEntityStateInfo(pdu: ES.EntityStatePdu)
      modifies this`deltaTimeSinceLastPdu, this`locationDifference, this`rotationDifference, this`mostRecent,
               this`mostRecentDeadReckoned, this`entityId, this`numberReceived, owner`lifeSpan
      ensures deltaTimeSinceLastPdu == 0.0
      ensures locationDifference == Vec3(pdu.locationDouble.x - old(mostRecentDeadReckoned).locationDouble.x,
                                         pdu.locationDouble.y - old(mostRecentDeadReckoned).locationDouble.y,
                                         pdu.locationDouble.z - old(mostRecentDeadReckoned).locationDouble.z)
      ensures rotationDifference == normalizedDifference(pdu.orientation, old(mostRecentDeadReckoned).orientation)
      ensures mostRecent == pdu && mostRecentDeadReckoned == pdu && entityId == pdu.entityId
      ensures owner.lifeSpan == timeoutSeconds && numberReceived == old(numberReceived) + 1
    {
      deltaTimeSinceLastPdu := 0.0;
      locationDifference := Vec3(pdu.locationDouble.x - mostRecentDeadReckoned.locationDouble.x,
                                 pdu.locationDouble.y - mostRecentDeadReckoned.locationDouble.y,
                                 pdu.locationDouble.z - mostRecentDeadReckoned.locationDouble.z);
      rotationDifference := normalizedDifference(pdu.orientation, mostRecentDeadReckoned.orientation);
      mostRecent := pdu;
      mostRecentDeadReckoned := mostRecent;
      entityId := pdu.entityId;
      owner.lifeSpan := timeoutSeconds;
      numberReceived := numberReceived + 1;
    }

    /** The broadcast GroundClamping makes now, if any. */
    function ClampingEvents(): seq<ReceiveEvent>
      reads this`spawnedFromNetwork, this`groundClamping, this`entityType, this`mostRecentDeadReckoned
    {
      if ClampingApplies(spawnedFromNetwork, groundClamping, entityType) && groundHit(mostRecentDeadReckoned)
      then [GroundClampingUpdate(mostRecentDeadReckoned)] else []
    }

    /** GroundClamping: behind the gate, a trace that hits broadcasts a clamp at the dead-reckoned location. */
    method GroundClamping()
      modifies this`events
      ensures events == old(events) + ClampingEvents()
    {
      if spawnedFromNetwork && (groundClamping == AlwaysGroundClamp ||
                                (groundClamping == GroundClampWithDisOptions && entityType.domain == 1 &&
                                 entityType.kind != 2)) {
        if groundHit(mostRecentDeadReckoned) {
          events := events + [GroundClampingUpdate(mostRecentDeadReckoned)];
        }
      }
    }

    /**
     * HandleEntityStatePDU. A deactivated PDU destroys the owner and changes
     * nothing else, the owner's life span included. Otherwise the common update runs, type, force and
     * marking are copied, the PDU is broadcast, and without dead reckoning
     * the entity is ground clamped.
     */
    method HandleEntityStatePdu(pdu: ES.EntityStatePdu)
      modifies this`deltaTimeSinceLastPdu, this`locationDifference, this`rotationDifference, this`mostRecent,
               this`mostRecentDeadReckoned, this`entityId, this`numberReceived, this`entityType, this`forceId,
               this`marking, this`events, owner`lifeSpan, owner`destroyed
      ensures Deactivated(pdu.appearance) ==> owner.destroyed && unchanged(this) && owner.lifeSpan == old(owner.lifeSpan)
      ensures !Deactivated(pdu.appearance) ==>
                owner.destroyed == old(owner.destroyed) && mostRecent == pdu && mostRecentDeadReckoned == pdu &&
                numberReceived == old(numberReceived) + 1 && deltaTimeSinceLastPdu == 0.0 &&
                locationDifference == Vec3(pdu.locationDouble.x - old(mostRecentDeadReckoned).locationDouble.x,
                                           pdu.locationDouble.y - old(mostRecentDeadReckoned).locationDouble.y,
                                           pdu.locationDouble.z - old(mostRecentDeadReckoned).locationDouble.z) &&
                rotationDifference == normalizedDifference(pdu.orientation, old(mostRecentDeadReckoned).orientation) &&
                entityId == pdu.entityId && entityType == pdu.entityType && forceId == pdu.forceId &&
                marking == pdu.marking && owner.lifeSpan == timeoutSeconds &&
                events == old(events) + [ReceivedEntityState(pdu)] + (if performDeadReckoning then [] else ClampingEvents())
    {
      if Deactivated(pdu.appearance) {
        owner.destroyed := true;
        return;
      }
      TakeEntityState(pdu);
    }

    /** The part of HandleEntityStatePDU after the deactivation check. */
    method TakeEntityState(pdu: ES.EntityStatePdu)
      modifies this`deltaTimeSinceLastPdu, this`locationDifference, this`rotationDifference, this`mostRecent,
               this`mostRecentDeadReckoned, this`entityId, this`numberReceived, this`entityType, this`forceId,
               this`marking, this`events, owner`lifeSpan
      ensures mostRecent == pdu && mostRecentDeadReckoned == pdu &&
              numberReceived == old(numberReceived) + 1 && deltaTimeSinceLastPdu == 0.0 &&
              locationDifference == Vec3(pdu.locationDouble.x - old(mostRecentDeadReckoned).locationDouble.x,
                                         pdu.locationDouble.y - old(mostRecentDeadReckoned).locationDouble.y,
                                         pdu.locationDouble.z - old(mostRecentDeadReckoned).locationDouble.z) &&
              rotationDifference == normalizedDifference(pdu.orientation, old(mostRecentDeadReckoned).orientation) &&
              entityId == pdu.entityId && entityType == pdu.entityType && forceId == pdu.forceId &&
              marking == pdu.marking && owner.lifeSpan == timeoutSeconds &&
              events == old(events) + [ReceivedEntityState(pdu)] + (if performDeadReckoning then [] else ClampingEvents())
    {
      UpdateCommonEntityStateInfo(pdu);
      entityType := pdu.entityType;
      forceId := pdu.forceId;
      marking := pdu.marking;
      events := events + [ReceivedEntityState(pdu)];
      if !performDeadReckoning {
        GroundClamping();
      }
    }

    /**
     * HandleEntityStateUpdatePDU. A deactivated update destroys the owner.
     * Otherwise the update is merged into the most recent PDU, which keeps
     * its type, force, marking and dead-reckoning parameters, and the merged
     * PDU goes through the common update; the update itself is broadcast.
     */
    method HandleEntityStateUpdatePdu(update: ESU.EntityStateUpdatePdu)
      modifies this`deltaTimeSinceLastPdu, this`locationDifference, this`rotationDifference, this`mostRecent,
               this`mostRecentDeadReckoned, this`entityId, this`numberReceived, this`events, owner`lifeSpan,
               owner`destroyed
      ensures Deactivated(update.appearance) ==> owner.destroyed && unchanged(this) && owner.lifeSpan == old(owner.lifeSpan)
      ensures !Deactivated(update.appearance) ==>
                var merged := ES.AssignFromUpdate(old(mostRecent), update);
                owner.destroyed == old(owner.destroyed) && mostRecent == merged && mostRecentDeadReckoned == merged &&
                numberReceived == old(numberReceived) + 1 && deltaTimeSinceLastPdu == 0.0 &&
                entityId == update.entityId && owner.lifeSpan == timeoutSeconds &&
                locationDifference == Vec3(update.locationDouble.x - old(mostRecentDeadReckoned).locationDouble.x,
                                           update.locationDouble.y - old(mostRecentDeadReckoned).locationDouble.y,
                                           update.locationDouble.z - old(mostRecentDeadReckoned).locationDouble.z) &&
                rotationDifference == normalizedDifference(update.orientation, old(mostRecentDeadReckoned).orientation) &&
                events == old(events) + [ReceivedEntityStateUpdate(update)] + (if performDeadReckoning then [] else ClampingEvents())
    {
      if Deactivated(update.appearance) {
        owner.destroyed := true;
        return;
      }
      mostRecent := ES.AssignFromUpdate(mostRecent, update);
      UpdateCommonEntityStateInfo(mostRecent);
      events := events + [ReceivedEntityStateUpdate(update)];
      if !performDeadReckoning {
        GroundClamping();
      }
    }

    /** SmoothDeadReckoning: `pdu` smoothed by the weight the elapsed time gives. */
    function SmoothDeadReckoning(pdu: ES.EntityStatePdu): ES.EntityStatePdu
      reads this`deltaTimeSinceLastPdu, this`smoothingPeriodSeconds, this`locationDifference, this`rotationDifference
    {
      Smoothed(pdu, locationDifference, rotationDifference,
               SmoothingWeight(deltaTimeSinceLastPdu, smoothingPeriodSeconds), platform.toFloat)
    }

    /** The dead-reckoned PDU DoDeadReckoning keeps after a successful reckoning over the elapsed time. */
    function ReckonedCopy(elapsed: real): ES.EntityStatePdu
      reads this`mostRecent, this`performSmoothing, this`numberReceived, this`smoothingPeriodSeconds,
            this`locationDifference, this`rotationDifference
    {
      var reckoned := DeadReckoned(mostRecent, elapsed, geometry, platform).pdu;
      if SmoothingApplies(performSmoothing, numberReceived, elapsed, smoothingPeriodSeconds)
      then Smoothed(reckoned, locationDifference, rotationDifference,
                    SmoothingWeight(elapsed, smoothingPeriodSeconds), platform.toFloat)
      else reckoned
    }

    /**
     * DoDeadReckoning. The clock always advances. Only with dead reckoning on
     * and a network-spawned entity does more happen: a culled entity gets its
     * old dead-reckoned PDU again; otherwise the most recent PDU is reckoned
     * over the elapsed time (and the copy is replaced even when the reckoning
     * fails), a successful reckoning is smoothed when smoothing applies and
     * broadcast, and the entity is ground clamped.
     */
    method DoDeadReckoning(deltaTime: real, cameraDistance: Option<real>)
      modifies this`deltaTimeSinceLastPdu, this`mostRecentDeadReckoned, this`events
      ensures deltaTimeSinceLastPdu == old(deltaTimeSinceLastPdu) + deltaTime
      ensures !(performDeadReckoning && spawnedFromNetwork) ==>
                mostRecentDeadReckoned == old(mostRecentDeadReckoned) && events == old(events)
      ensures performDeadReckoning && spawnedFromNetwork && Culled(cullingMode, cameraDistance, cullingDistance) ==>
                mostRecentDeadReckoned == old(mostRecentDeadReckoned) &&
                events == old(events) + [DeadReckoningUpdate(old(mostRecentDeadReckoned))]
      ensures performDeadReckoning && spawnedFromNetwork && !Culled(cullingMode, cameraDistance, cullingDistance) ==>
                ReckonedAndClamped(old(events))
    {
      deltaTimeSinceLastPdu := deltaTimeSinceLastPdu + deltaTime;
      if performDeadReckoning && spawnedFromNetwork {
        if cullingMode == CullDeadReckoning || cullingMode == CullAll {
          if cameraDistance.Some? && cameraDistance.value > cullingDistance {
            events := events + [DeadReckoningUpdate(mostRecentDeadReckoned)];
            return;
          }
        }
        ReckonAndClamp();
      }
    }

    /**
     * The state a reckoning step leaves, from the events before it: a
     * successful reckoning keeps the (possibly smoothed) copy and broadcasts
     * it; a failed one leaves the copy equal to the most recent PDU; either
     * way ground clamping follows.
     */
    ghost predicate ReckonedAndClamped(before: seq<ReceiveEvent>)
      reads this
    {
      var r := DeadReckoned(mostRecent, deltaTimeSinceLastPdu, geometry, platform);
      (r.supported ==> mostRecentDeadReckoned == ReckonedCopy(deltaTimeSinceLastPdu) &&
                       events == before + [DeadReckoningUpdate(mostRecentDeadReckoned)] + ClampingEvents()) &&
      (!r.supported ==> mostRecentDeadReckoned == mostRecent && events == before + ClampingEvents())
    }

    /** DoDeadReckoning past its gates: reckon, smooth, broadcast, clamp. */
    method ReckonAndClamp()
      modifies this`mostRecentDeadReckoned, this`events
      ensures ReckonedAndClamped(old(events))
    {
      var supported := Reckon();
      if supported {
        events := events + [DeadReckoningUpdate(mostRecentDeadReckoned)];
      }
      GroundClamping();
    }

    /** The reckoning itself: the copy is replaced even when the algorithm fails, and smoothed when smoothing applies. */
    method Reckon() returns (supported: bool)
      modifies this`mostRecentDeadReckoned
      ensures supported == DeadReckoned(mostRecent, deltaTimeSinceLastPdu, geometry, platform).supported
      ensures supported ==> mostRecentDeadReckoned == ReckonedCopy(deltaTimeSinceLastPdu)
      ensures !supported ==> mostRecentDeadReckoned == mostRecent
    {
      supported, mostRecentDeadReckoned := DeadReckoning(mostRecent, deltaTimeSinceLastPdu, geometry, platform);
      if supported && performSmoothing && numberReceived > 1 && deltaTimeSinceLastPdu <= smoothingPeriodSeconds {
        mostRecentDeadReckoned := SmoothDeadReckoning(mostRecentDeadReckoned);
      }
    }
  }
}
