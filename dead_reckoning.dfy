// UDeadReckoning_BPFL::DeadReckoning: advances an Entity State PDU by an
// elapsed time according to its dead-reckoning algorithm. World-frame
// positions are computed here exactly; body-frame positions, orientation
// integration and frame conversions are geometry the model takes as
// parameters.
module DeadReckonings {
  import opened DisBase
  import opened EntityTypes
  import opened Structs
  import opened PduFields
  import opened OtherParameters
  import Appearances
  import ES = EntityStatePdus

  /**
   * The geometry DeadReckoning calls on:
   * - `localToPsiThetaPhi`: ConvertLocalRotatorToPsiThetaPhiRadians, local
   *   heading/pitch/roll at the PDU's double location to world psi/theta/phi;
   * - `quaternionOrientation`: CalculateDeadReckonedEulerAnglesFromQuaternion;
   * - `rotatedOrientation`: CalculateDeadReckonedOrientation, an orientation
   *   turned by an angular velocity over a time;
   * - `bodyPosition`: GetEntityBodyDeadReckonedPosition, from the initial
   *   position, body velocity, body acceleration, body angular velocity,
   *   orientation and time.
   */
  datatype Geometry = Geometry(
    localToPsiThetaPhi: (Vec3, Rotator) -> Orientation,
    quaternionOrientation: (ES.EntityStatePdu, Quaternion, real) -> Rotator,
    rotatedOrientation: (Rotator, Vec3, real) -> Orientation,
    bodyPosition: (Vec3, Vec3, Vec3, Vec3, Rotator, real) -> Vec3)

  /** What the machine contributes: float layout, byte order, square root and the double-to-float cast. */
  datatype Platform = Platform(layout: FloatLayout, littleEndian: bool, sqrt: real -> real, toFloat: Rounding)

  /** The result: whether the algorithm was applied, and the dead-reckoned PDU. */
  datatype Reckoning = Reckoning(supported: bool, pdu: ES.EntityStatePdu)

  /** Bit 21 of the appearance: the entity is frozen. */
  predicate Frozen(pdu: ES.EntityStatePdu)
  {
    BitAt(pdu.appearance, Appearances.FrozenBit)
  }

  /** The algorithms the switch handles: Static through FVB. */
  predicate Supported(algorithm: Octet)
  {
    DrStatic <= algorithm <= DrFVB
  }

  /** CalculateDeadReckonedPosition: position + velocity * t + 1/2 * acceleration * t^2. */
  function WorldPosition(position: Vec3, velocity: Vec3, acceleration: Vec3, t: real): Vec3
  {
    Vec3(AxisPosition(position.x, velocity.x, acceleration.x, t),
         AxisPosition(position.y, velocity.y, acceleration.y, t),
         AxisPosition(position.z, velocity.z, acceleration.z, t))
  }

  /** One axis of it. */
  function AxisPosition(p: real, v: real, a: real, t: real): real
  {
    p + v * t + a * 0.5 * (t * t)
  }

  /** The position an algorithm moves the entity to; Static does not move it. */
  function ReckonedPosition(pdu: ES.EntityStatePdu, t: real, g: Geometry): Vec3
    requires Supported(pdu.deadReckoning.algorithm)
  {
    var dr := pdu.deadReckoning;
    var algorithm := dr.algorithm;
    if algorithm == DrStatic then pdu.locationDouble
    else if algorithm == DrFPW || algorithm == DrRPW then WorldPosition(pdu.locationDouble, pdu.linearVelocity, ZeroVec, t)
    else if algorithm == DrRVW || algorithm == DrFVW then
      WorldPosition(pdu.locationDouble, pdu.linearVelocity, dr.linearAcceleration, t)
    else if algorithm == DrFPB || algorithm == DrRPB then
      g.bodyPosition(pdu.locationDouble, pdu.linearVelocity, dr.linearAcceleration, ZeroVec, pdu.orientation, t)
    else
      g.bodyPosition(pdu.locationDouble, pdu.linearVelocity, dr.linearAcceleration, dr.angularVelocity, pdu.orientation, t)
  }

  /**
   * The orientation an algorithm gives the entity: the Euler-angle algorithms
   * take the local angles carried in Other Parameters when they are there and
   * otherwise keep the orientation; the quaternion algorithms take the
   * carried quaternion when it is there and otherwise turn the orientation
   * by the angular velocity (none for RPB).
   */
  function ReckonedOrientation(pdu: ES.EntityStatePdu, t: real, g: Geometry, m: Platform): Rotator
    requires Supported(pdu.deadReckoning.algorithm)
  {
    var dr := pdu.deadReckoning;
    if EulerAlgorithm(dr.algorithm) then
      match LocalEulerAngles(dr.otherParameters, m.layout, m.littleEndian)
      case Some(local) => OrientationFromRecord(g.localToPsiThetaPhi(pdu.locationDouble, local))
      case None => pdu.orientation
    else
      match LocalQuaternion(dr.otherParameters, m.layout, m.littleEndian, m.sqrt)
      case Some(q) => g.quaternionOrientation(pdu, q, t)
      case None =>
        var spin := if dr.algorithm == DrRPB then ZeroVec else dr.angularVelocity;
        OrientationFromRecord(g.rotatedOrientation(pdu.orientation, spin, t))
  }

  /**
   * What DeadReckoning returns: nothing changes for a frozen entity or an
   * unknown algorithm; otherwise the position (written to both the double and
   * the float location, except for Static), the orientation, and the
   * velocity advanced by the acceleration.
   */
  function DeadReckoned(pdu: ES.EntityStatePdu, t: real, g: Geometry, m: Platform): Reckoning
  {
    var algorithm := pdu.deadReckoning.algorithm;
    if Frozen(pdu) || !Supported(algorithm) then Reckoning(false, pdu)
    else
      var moved := if algorithm == DrStatic then pdu
                   else
                     var position := ReckonedPosition(pdu, t, g);
                     pdu.(locationDouble := position, location := RoundVec(m.toFloat, position));
      Reckoning(true, moved.(orientation := ReckonedOrientation(pdu, t, g, m),
                             linearVelocity := Add(pdu.linearVelocity, Scale(pdu.deadReckoning.linearAcceleration, t))))
  }

  /** DeadReckoning, step by step: copy, frozen check, the switch, then the velocity update. */
  method DeadReckoning(entityPdu: ES.EntityStatePdu, deltaTime: real, g: Geometry, m: Platform)
    returns (supported: bool, reckoned: ES.EntityStatePdu)
    ensures Reckoning(supported, reckoned) == DeadReckoned(entityPdu, deltaTime, g, m)
  {
    reckoned := entityPdu;
    supported := true;
    if Frozen(entityPdu) {
      return false, reckoned;
    }
    var dr := entityPdu.deadReckoning;
    var algorithm := dr.algorithm;
    if !Supported(algorithm) {
      supported := false;
    } else {
      if algorithm != DrStatic {
        var position := ReckonedPosition(entityPdu, deltaTime, g);
        reckoned := reckoned.(locationDouble := position);
        reckoned := reckoned.(location := RoundVec(m.toFloat, position));
      }
      reckoned := reckoned.(orientation := ReckonedOrientation(entityPdu, deltaTime, g, m));
    }
    if supported {
      reckoned := reckoned.(linearVelocity := Add(reckoned.linearVelocity, Scale(dr.linearAcceleration, deltaTime)));
    }
  }

  /** A frozen entity, or one with an algorithm outside Static..FVB (Other included), is returned unchanged and unsupported. */
  lemma NotReckonedIff(pdu: ES.EntityStatePdu, t: real, g: Geometry, m: Platform)
    ensures !DeadReckoned(pdu, t, g, m).supported <==> Frozen(pdu) || !Supported(pdu.deadReckoning.algorithm)
    ensures !DeadReckoned(pdu, t, g, m).supported ==> DeadReckoned(pdu, t, g, m).pdu == pdu
    ensures DeadReckoned(pdu, t, g, m).supported ==> pdu.deadReckoning.algorithm != DrOther
  {
  }

  /**
   * Dead reckoning touches only location, orientation and velocity; the
   * float location is the cast of the double one unless the algorithm is
   * Static, which keeps both; the velocity gains acceleration times time.
   */
  lemma ReckoningChangesOnlyKinematics(pdu: ES.EntityStatePdu, t: real, g: Geometry, m: Platform)
    requires DeadReckoned(pdu, t, g, m).supported
    ensures var r := DeadReckoned(pdu, t, g, m).pdu;
            r.(locationDouble := pdu.locationDouble, location := pdu.location, orientation := pdu.orientation,
               linearVelocity := pdu.linearVelocity) == pdu &&
            r.linearVelocity == Add(pdu.linearVelocity, Scale(pdu.deadReckoning.linearAcceleration, t)) &&
            (pdu.deadReckoning.algorithm == DrStatic ==> r.locationDouble == pdu.locationDouble && r.location == pdu.location) &&
            (pdu.deadReckoning.algorithm != DrStatic ==> r.location == RoundVec(m.toFloat, r.locationDouble))
  {
  }

  /** With no time elapsed, the world-frame algorithms leave location and velocity where they were. */
  lemma NoTimeNoWorldMotion(pdu: ES.EntityStatePdu, g: Geometry, m: Platform)
    requires !Frozen(pdu)
    requires pdu.deadReckoning.algorithm in {DrFPW, DrRPW, DrRVW, DrFVW}
    ensures DeadReckoned(pdu, 0.0, g, m).pdu.locationDouble == pdu.locationDouble
    ensures DeadReckoned(pdu, 0.0, g, m).pdu.linearVelocity == pdu.linearVelocity
  {
  }

  /** One step of a world-frame algorithm: where it lands, and what it keeps for the next step. */
  lemma WorldStep(pdu: ES.EntityStatePdu, t: real, g: Geometry, m: Platform)
    requires !Frozen(pdu) && pdu.deadReckoning.algorithm in {DrFPW, DrRPW, DrRVW, DrFVW}
    ensures var r := DeadReckoned(pdu, t, g, m).pdu;
            var a := pdu.deadReckoning.linearAcceleration;
            r.locationDouble == WorldPosition(pdu.locationDouble, pdu.linearVelocity,
                                              if pdu.deadReckoning.algorithm in {DrFPW, DrRPW} then ZeroVec else a, t) &&
            r.linearVelocity == Add(pdu.linearVelocity, Scale(a, t)) &&
            r.deadReckoning == pdu.deadReckoning && !Frozen(r)
  {
  }

  /**
   * Constant-acceleration reckoning composes: reckoning a FVW or RVW entity
   * over `s` and then, from the reckoned location and velocity, over `t`
   * lands where reckoning over `s + t` does.
   */
  lemma {:induction false} AcceleratedReckoningComposes(pdu: ES.EntityStatePdu, s: real, t: real, g: Geometry, m: Platform)
    requires !Frozen(pdu) && pdu.deadReckoning.algorithm in {DrFVW, DrRVW}
    ensures var first := DeadReckoned(pdu, s, g, m).pdu;
            DeadReckoned(first, t, g, m).pdu.locationDouble == DeadReckoned(pdu, s + t, g, m).pdu.locationDouble &&
            DeadReckoned(first, t, g, m).pdu.linearVelocity == DeadReckoned(pdu, s + t, g, m).pdu.linearVelocity
  {
    var first := DeadReckoned(pdu, s, g, m).pdu;
    WorldStep(pdu, s, g, m);
    WorldStep(first, t, g, m);
    WorldStep(pdu, s + t, g, m);
    var p, v, a := pdu.locationDouble, pdu.linearVelocity, pdu.deadReckoning.linearAcceleration;
    WorldPositionVecComposes(p, v, a, s, t);
    VelocityComposes(v, a, s, t);
  }

  lemma WorldPositionVecComposes(p: Vec3, v: Vec3, a: Vec3, s: real, t: real)
    ensures WorldPosition(WorldPosition(p, v, a, s), Add(v, Scale(a, s)), a, t) == WorldPosition(p, v, a, s + t)
  {
    WorldPositionComposes(p.x, v.x, a.x, s, t);
    WorldPositionComposes(p.y, v.y, a.y, s, t);
    WorldPositionComposes(p.z, v.z, a.z, s, t);
  }

  lemma VelocityComposes(v: Vec3, a: Vec3, s: real, t: real)
    ensures Add(Add(v, Scale(a, s)), Scale(a, t)) == Add(v, Scale(a, s + t))
  {
    Distributes(a.x, s, t);
    Distributes(a.y, s, t);
    Distributes(a.z, s, t);
  }

  lemma WorldPositionComposes(p: real, v: real, a: real, s: real, t: real)
    ensures AxisPosition(AxisPosition(p, v, a, s), v + a * s, a, t) == AxisPosition(p, v, a, s + t)
  {
    var h := a * 0.5;
    Distributes(t, v, a * s);
    Distributes(v, s, t);
    Distributes(a, s, t);
    Distributes(s + t, s, t);
    Distributes(s, s, t);
    Distributes(t, s, t);
    Distributes(h, s * s + s * t, t * s + t * t);
    Distributes(h, s * s, s * t);
    Distributes(h, t * s, t * t);
    assert h * (s * t) + h * (t * s) == a * s * t;
    assert (v + a * s) * t == t * (v + a * s);
  }

  lemma Distributes(x: real, y: real, z: real)
    ensures x * (y + z) == x * y + x * z && (y + z) * x == y * x + z * x
  {
  }

  /**
   * Fixed-velocity world reckoning ignores the acceleration for position
   * but still adds it to the velocity, so two FPW steps agree with one only
   * when the acceleration is zero (or no time passes first).
   */
  lemma {:induction false} FixedVelocityStepsCompose(pdu: ES.EntityStatePdu, s: real, t: real, g: Geometry, m: Platform)
    requires !Frozen(pdu) && pdu.deadReckoning.algorithm == DrFPW
    ensures var first := DeadReckoned(pdu, s, g, m).pdu;
            DeadReckoned(first, t, g, m).pdu.locationDouble ==
              Add(DeadReckoned(pdu, s + t, g, m).pdu.locationDouble, Scale(pdu.deadReckoning.linearAcceleration, s * t))
  {
    var first := DeadReckoned(pdu, s, g, m).pdu;
    WorldStep(pdu, s, g, m);
    WorldStep(first, t, g, m);
    WorldStep(pdu, s + t, g, m);
    var p, v, a := pdu.locationDouble, pdu.linearVelocity, pdu.deadReckoning.linearAcceleration;
    FixedVelocityVecComposes(p, v, a, s, t);
  }

  lemma FixedVelocityVecComposes(p: Vec3, v: Vec3, a: Vec3, s: real, t: real)
    ensures WorldPosition(WorldPosition(p, v, ZeroVec, s), Add(v, Scale(a, s)), ZeroVec, t) ==
            Add(WorldPosition(p, v, ZeroVec, s + t), Scale(a, s * t))
  {
    assert ZeroVec.x == 0.0 && ZeroVec.y == 0.0 && ZeroVec.z == 0.0;
    FixedVelocityComposes(p.x, v.x, a.x, s, t);
    FixedVelocityComposes(p.y, v.y, a.y, s, t);
    FixedVelocityComposes(p.z, v.z, a.z, s, t);
  }

  lemma FixedVelocityComposes(p: real, v: real, a: real, s: real, t: real)
    ensures AxisPosition(AxisPosition(p, v, 0.0, s), v + a * s, 0.0, t) == AxisPosition(p, v, 0.0, s + t) + a * (s * t)
  {
    Distributes(t, v, a * s);
    Distributes(v, s, t);
    assert (v + a * s) * t == t * (v + a * s);
    assert t * (a * s) == a * (s * t);
  }

  /**
   * Euler angles that FormOtherParameters wrote for the PDU's own algorithm
   * set the reckoned orientation: the carried local angles converted at the
   * PDU's location.
   */
  lemma CarriedEulerAnglesSetOrientation(pdu: ES.EntityStatePdu, t: real, g: Geometry, m: Platform,
                                         f: FrameGeometry, psiThetaPhi: Rotator, ecef: Vec3)
    requires ExactLayout(m.layout) && !Frozen(pdu) && EulerAlgorithm(pdu.deadReckoning.algorithm)
    requires pdu.deadReckoning.otherParameters ==
             OtherParametersFor(pdu.deadReckoning.algorithm, psiThetaPhi, ecef, f, m.layout)
    ensures var hpr := f.localAngles(psiThetaPhi, ecef);
            DeadReckoned(pdu, t, g, m).pdu.orientation ==
              OrientationFromRecord(g.localToPsiThetaPhi(pdu.locationDouble, Rotator(hpr.pitch, hpr.heading, hpr.roll)))
  {
    EulerAnglesRoundTrip(pdu.deadReckoning.algorithm, psiThetaPhi, ecef, f, m.layout, m.littleEndian, m.sqrt);
  }

  /**
   * A quaternion that FormOtherParameters wrote for the PDU's own algorithm
   * sets the reckoned orientation, with its sign made canonical and its
   * scalar part recomputed.
   */
  lemma CarriedQuaternionSetsOrientation(pdu: ES.EntityStatePdu, t: real, g: Geometry, m: Platform,
                                         f: FrameGeometry, psiThetaPhi: Rotator, ecef: Vec3)
    requires ExactLayout(m.layout) && !Frozen(pdu) && QuaternionAlgorithm(pdu.deadReckoning.algorithm)
    requires pdu.deadReckoning.otherParameters ==
             OtherParametersFor(pdu.deadReckoning.algorithm, psiThetaPhi, ecef, f, m.layout)
    ensures var q := Canonical(f.quaternion(psiThetaPhi));
            DeadReckoned(pdu, t, g, m).pdu.orientation ==
              g.quaternionOrientation(pdu, Quaternion(q.x, q.y, q.z, ScalarPart(q.x, q.y, q.z, m.sqrt)), t)
  {
    QuaternionRoundTrip(pdu.deadReckoning.algorithm, psiThetaPhi, ecef, f, m.layout, m.littleEndian, m.sqrt);
  }

  /**
   * With zeroed Other Parameters, as the default struct carries, the
   * Euler-angle algorithms keep the orientation and the quaternion ones turn
   * it by the angular velocity (by none for RPB).
   */
  lemma ZeroParametersFallBack(pdu: ES.EntityStatePdu, t: real, g: Geometry, m: Platform)
    requires !Frozen(pdu) && Supported(pdu.deadReckoning.algorithm)
    requires |pdu.deadReckoning.otherParameters| >= 1 && pdu.deadReckoning.otherParameters[0] == 0
    ensures var dr := pdu.deadReckoning;
            var r := DeadReckoned(pdu, t, g, m).pdu;
            (EulerAlgorithm(dr.algorithm) ==> r.orientation == pdu.orientation) &&
            (dr.algorithm == DrRPB ==> r.orientation == OrientationFromRecord(g.rotatedOrientation(pdu.orientation, ZeroVec, t))) &&
            (QuaternionAlgorithm(dr.algorithm) && dr.algorithm != DrRPB ==>
               r.orientation == OrientationFromRecord(g.rotatedOrientation(pdu.orientation, dr.angularVelocity, t)))
  {
  }
}
