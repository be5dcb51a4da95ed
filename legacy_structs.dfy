// The older copy of the shared struct header. Its entity ID and entity type
// are the same as the newer header's (EntityIds, EntityTypes); it differs in
// the articulation designator, held as an int32, and in the default
// dead-reckoning algorithm.
module LegacyStructs {
  import opened DisBase
  import opened EntityIds
  import opened EntityTypes
  import opened Structs

  datatype LegacyArticulation = LegacyArticulation(
    designator: Int32,
    changeIndicator: Int32,
    partAttachedTo: Int32,
    parameterType: Int32,
    parameterValue: real,
    attachedPartType: EntityType)

  /** The default: every number 0 and a wildcard attached type. */
  const DefaultLegacyArticulation: LegacyArticulation := LegacyArticulation(0, 0, 0, 0, 0.0, DefaultEntityType)

  /**
   * ToOpenDIS: the branch tests the int32 designator against 0, while the
   * record's setter keeps only its low byte.
   */
  function LegacyArticulationToRecord(a: LegacyArticulation, c: FloatCodec): (r: ArticulationRecord)
    ensures r.designator == a.designator % 0x100 && r.parameterType == a.parameterType
    ensures r.changeIndicator == a.changeIndicator % 0x100 && r.partAttachedTo == a.partAttachedTo % 0x1_0000
    ensures a.designator == 0 ==> r.parameterValue == c.widen(a.parameterValue)
    ensures a.designator != 0 ==> r.parameterValue == ToDouble(a.attachedPartType)
  {
    ArticulationRecord(Low8(a.designator), Low8(a.changeIndicator), Low16(a.partAttachedTo), a.parameterType,
                       if a.designator == 0 then c.widen(a.parameterValue) else ToDouble(a.attachedPartType))
  }

  /** The newer struct with the same numbers. */
  function AsArticulation(a: LegacyArticulation): (n: Articulation)
    requires 0 <= a.designator < 0x100
  {
    Articulation(a.designator, a.changeIndicator, a.partAttachedTo, a.parameterType, a.parameterValue, a.attachedPartType)
  }

  /** With a designator that fits a byte the older mapping sends what the newer one sends. */
  lemma LegacyAgreesInRange(a: LegacyArticulation, c: FloatCodec)
    requires 0 <= a.designator < 0x100
    ensures LegacyArticulationToRecord(a, c) == ArticulationToRecord(AsArticulation(a), c)
  {
  }

  /**
   * Designator 256 takes the attached-part branch but is sent as designator 0,
   * so a receiver reads the packed type's bytes as an articulated part's value.
   */
  lemma WideDesignatorIsMislabelled(c: FloatCodec)
    ensures var r := LegacyArticulationToRecord(DefaultLegacyArticulation.(designator := 0x100), c);
      r.designator == ArticulatedPart && r.parameterValue == ToDouble(DefaultEntityType)
    ensures ArticulationFromRecord(LegacyArticulationToRecord(DefaultLegacyArticulation.(designator := 0x100), c), c).parameterValue
            == c.narrow(ToDouble(DefaultEntityType))
  {
  }

  /** The older default dead-reckoning parameters: algorithm 0 (Other), 15 zero bytes and zero vectors. */
  function LegacyDefaultDeadReckoning(): (p: DeadReckoningParameters)
    ensures p.algorithm == DrOther
    ensures |p.otherParameters| == OtherParametersLength
    ensures forall i :: 0 <= i < |p.otherParameters| ==> p.otherParameters[i] == 0
    ensures p.linearAcceleration == ZeroVec && p.angularVelocity == ZeroVec
    ensures p == DefaultDeadReckoning().(algorithm := DrOther)
  {
    DeadReckoningParameters(0, seq(OtherParametersLength, i => 0), ZeroVec, ZeroVec)
  }
}
