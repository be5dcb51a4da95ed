// Admission and dispatch of received DIS datagrams: the PDU type is read from
// the header, the length is checked against what that type allows, and at most
// one "PDU processed" event is broadcast per datagram.
module PduProcessor {
  import opened DisBase
  import ET = EntityTypes

  /** A byte of a received datagram. */
  type Byte = ET.Octet

  /** Index of the PDU type byte in the PDU header. */
  const PduTypePosition: nat := 2

  // PDU type numbers (SISO-REF-010 Annex A), in the order of the EPDUType enumeration.
  const EntityStateType: Byte := 1
  const FireType: Byte := 2
  const DetonationType: Byte := 3
  const RemoveEntityType: Byte := 12
  const StartResumeType: Byte := 13
  const StopFreezeType: Byte := 14
  const EmissionType: Byte := 23
  const SignalType: Byte := 26
  const EntityStateUpdateType: Byte := 67

  // Fixed PDU sizes in bytes (IEEE 1278.1, DIS version 6).
  const EntityStatePduBytes: int := 144
  const EntityStateUpdatePduBytes: int := 72
  const DetonationPduBytes: int := 104
  const FirePduBytes: int := 96
  const RemoveEntityPduBytes: int := 28
  const StartResumePduBytes: int := 44
  const StopFreezePduBytes: int := 40
  const SignalPduBytes: int := 32
  const ArticulationParameterBytes: int := 16

  /** The PDU kinds whose "processed" event the dispatcher can broadcast. */
  datatype PduKind =
    | EntityState | EntityStateUpdate | Detonation | Fire | RemoveEntity
    | StartResume | StopFreeze | Emission | Signal

  /** The handled kind of a type byte, or None for every other PDU type. */
  function KindOf(t: Byte): (k: Option<PduKind>)
    ensures k.Some? <==> t in {1, 2, 3, 12, 13, 14, 23, 26, 67}
  {
    if t == EntityStateType then Some(EntityState)
    else if t == FireType then Some(Fire)
    else if t == DetonationType then Some(Detonation)
    else if t == RemoveEntityType then Some(RemoveEntity)
    else if t == StartResumeType then Some(StartResume)
    else if t == StopFreezeType then Some(StopFreeze)
    else if t == EmissionType then Some(Emission)
    else if t == SignalType then Some(Signal)
    else if t == EntityStateUpdateType then Some(EntityStateUpdate)
    else None
  }

  /** The type byte each handled kind is recognised by. */
  function TypeOf(k: PduKind): Byte
  {
    match k
    case EntityState => EntityStateType
    case EntityStateUpdate => EntityStateUpdateType
    case Detonation => DetonationType
    case Fire => FireType
    case RemoveEntity => RemoveEntityType
    case StartResume => StartResumeType
    case StopFreeze => StopFreezeType
    case Emission => EmissionType
    case Signal => SignalType
  }

  lemma KindOfTypeOf(k: PduKind)
    ensures KindOf(TypeOf(k)) == Some(k)
  {
  }

  /** A broadcast "PDU processed" event; the PDU handed to listeners is decoded from the datagram. */
  datatype Broadcast = Broadcast(kind: PduKind, datagram: seq<Byte>)

  /**
   * What `InData[i]` yields in the source: the datagram's byte when `i` is in
   * range, and otherwise whatever `memory` holds there (the read is unchecked).
   */
  function ReadAt(data: seq<Byte>, memory: int -> Byte, i: int): Byte
  {
    if 0 <= i < |data| then data[i] else memory(i)
  }

  // ---------------------------------------------------------------------------
  // Articulation-parameter multiples

  /** C++ division by the articulation record size, which truncates toward zero. */
  function TruncDiv(a: int): (q: int)
    ensures a >= 0 ==> 0 <= q * ArticulationParameterBytes <= a < q * ArticulationParameterBytes + ArticulationParameterBytes
    ensures a < 0 ==> q <= 0 && a <= q * ArticulationParameterBytes < a + ArticulationParameterBytes
  {
    if a >= 0 then a / ArticulationParameterBytes else -((-a) / ArticulationParameterBytes)
  }

  /**
   * The check as written: the extra bytes beyond the base size, divided by the
   * articulation record size with truncation, multiply back to the extra bytes.
   */
  predicate ArticulationLengthOkAsWritten(len: int, base: int)
  {
    TruncDiv(len - base) * ArticulationParameterBytes == len - base
  }

  /** The check as written accepts exactly the lengths at a multiple of 16 from the base, below it included. */
  lemma ArticulationCheckIsMultiple(len: int, base: int)
    ensures ArticulationLengthOkAsWritten(len, base) <==> (len - base) % ArticulationParameterBytes == 0
  {
    var a := len - base;
    if a < 0 {
      var m := -a;
      assert m == (m / 16) * 16 + m % 16;
      if m % 16 == 0 {
        assert a == -(m / 16) * 16;
        assert a % 16 == 0;
      } else {
        assert a == (-(m / 16) - 1) * 16 + (16 - m % 16);
        assert a % 16 == 16 - m % 16;
      }
    }
  }

  /** A 128-byte Entity State datagram, one record short of the 144-byte base, passes the check as written. */
  lemma ShortEntityStatePassesArticulationCheck()
    ensures ArticulationLengthOkAsWritten(128, EntityStatePduBytes)
    ensures !ArticulationLengthOk(128, EntityStatePduBytes)
  {
  }

  /** The intended check: the base PDU followed by a whole number of articulation records. */
  predicate ArticulationLengthOk(len: int, base: int)
  {
    len >= base && (len - base) % ArticulationParameterBytes == 0
  }

  /** The number of articulation records a datagram of that length carries. */
  function ArticulationCount(len: int, base: int): (n: int)
  {
    (len - base) / ArticulationParameterBytes
  }

  /** The intended check accepts a length exactly when it is the base plus n whole records. */
  lemma ArticulationLengthOkIff(len: int, base: int, n: nat)
    ensures ArticulationLengthOk(len, base) ==>
      ArticulationCount(len, base) >= 0 && len == base + ArticulationCount(len, base) * ArticulationParameterBytes
    ensures ArticulationLengthOk(base + n * ArticulationParameterBytes, base)
    ensures ArticulationLengthOk(len, base) ==> ArticulationLengthOkAsWritten(len, base)
  {
    ArticulationCheckIsMultiple(len, base);
  }

  // ---------------------------------------------------------------------------
  // Electromagnetic Emission walker

  /**
   * The index the walker reaches after `k` beams starting at `start`, as written:
   * each beam advances 46 to its target count, then 6, then 8 per target.
   */
  function BeamsEnd(data: seq<Byte>, memory: int -> Byte, start: int, k: nat): (e: int)
    ensures e >= start
  {
    if k == 0 then start
    else
      var p := BeamsEnd(data, memory, start, k - 1);
      p + 46 + 6 + 8 * ReadAt(data, memory, p + 46) as int
  }

  /** The index after the system that ends at `p`: 2 to its beam count, 18 more, then its beams. */
  function SystemEnd(data: seq<Byte>, memory: int -> Byte, p: int): (e: int)
    ensures e >= p + 20
  {
    BeamsEnd(data, memory, p + 20, ReadAt(data, memory, p + 2) as nat)
  }

  /** The index after the first `k` systems; with no systems the last index is 27. */
  function SystemsEnd(data: seq<Byte>, memory: int -> Byte, k: nat): (e: int)
    ensures e >= 27
  {
    if k == 0 then 27 else SystemEnd(data, memory, SystemsEnd(data, memory, k - 1))
  }

  /** The check as written: the system count is byte 25, and the last index plus one is the length. */
  predicate EmissionLengthOkAsWritten(data: seq<Byte>, memory: int -> Byte)
  {
    SystemsEnd(data, memory, ReadAt(data, memory, 25) as nat) + 1 == |data|
  }

  /** The walk that never reads past the datagram: None as soon as a count byte is missing. */
  function GuardedBeamsEnd(data: seq<Byte>, start: int, k: nat): (e: Option<int>)
    requires start >= 0
    ensures e.Some? ==> e.value >= start
  {
    if k == 0 then Some(start)
    else
      match GuardedBeamsEnd(data, start, k - 1)
      case None => None
      case Some(p) => if p + 46 < |data| then Some(p + 46 + 6 + 8 * data[p + 46] as int) else None
  }

  function GuardedSystemsEnd(data: seq<Byte>, k: nat): (e: Option<int>)
    ensures e.Some? ==> e.value >= 27
  {
    if k == 0 then Some(27)
    else
      match GuardedSystemsEnd(data, k - 1)
      case None => None
      case Some(p) => if p + 2 < |data| then GuardedBeamsEnd(data, p + 20, data[p + 2] as nat) else None
  }

  /** The intended check: every count byte lies inside the datagram and the walk ends on its last byte. */
  predicate EmissionLengthOk(data: seq<Byte>)
  {
    25 < |data| && GuardedSystemsEnd(data, data[25] as nat) == Some(|data| - 1)
  }

  lemma {:induction false} GuardedBeamsNonePersists(data: seq<Byte>, start: int, i: nat, k: nat)
    requires start >= 0 && i <= k && GuardedBeamsEnd(data, start, i).None?
    ensures GuardedBeamsEnd(data, start, k).None?
    decreases k - i
  {
    if i < k {
      GuardedBeamsNonePersists(data, start, i + 1, k);
    }
  }

  lemma {:induction false} GuardedSystemsNonePersists(data: seq<Byte>, i: nat, k: nat)
    requires i <= k && GuardedSystemsEnd(data, i).None?
    ensures GuardedSystemsEnd(data, k).None?
    decreases k - i
  {
    if i < k {
      GuardedSystemsNonePersists(data, i + 1, k);
    }
  }

  /**
   * Where the guarded walk succeeds it computes what the walk as written
   * computes, and where it fails the walk as written has already passed the
   * end of the datagram, whatever lies beyond it.
   */
  lemma {:induction false} BeamsAgree(data: seq<Byte>, memory: int -> Byte, start: int, k: nat)
    requires start >= 0
    ensures GuardedBeamsEnd(data, start, k).Some? ==> GuardedBeamsEnd(data, start, k).value == BeamsEnd(data, memory, start, k)
    ensures GuardedBeamsEnd(data, start, k).None? ==> BeamsEnd(data, memory, start, k) >= |data|
  {
    if k > 0 {
      BeamsAgree(data, memory, start, k - 1);
    }
  }

  lemma {:induction false} SystemsAgree(data: seq<Byte>, memory: int -> Byte, k: nat)
    ensures GuardedSystemsEnd(data, k).Some? ==> GuardedSystemsEnd(data, k).value == SystemsEnd(data, memory, k)
    ensures GuardedSystemsEnd(data, k).None? ==> SystemsEnd(data, memory, k) >= |data|
  {
    if k > 0 {
      SystemsAgree(data, memory, k - 1);
      SystemAgrees(data, memory, k);
    }
  }

  /** One more system keeps the guarded and the as-written walks in step. */
  lemma SystemAgrees(data: seq<Byte>, memory: int -> Byte, k: nat)
    requires k > 0
    requires GuardedSystemsEnd(data, k - 1).Some? ==> GuardedSystemsEnd(data, k - 1).value == SystemsEnd(data, memory, k - 1)
    requires GuardedSystemsEnd(data, k - 1).None? ==> SystemsEnd(data, memory, k - 1) >= |data|
    ensures GuardedSystemsEnd(data, k).Some? ==> GuardedSystemsEnd(data, k).value == SystemsEnd(data, memory, k)
    ensures GuardedSystemsEnd(data, k).None? ==> SystemsEnd(data, memory, k) >= |data|
  {
    var q := SystemsEnd(data, memory, k - 1);
    assert SystemsEnd(data, memory, k) == SystemEnd(data, memory, q);
    if GuardedSystemsEnd(data, k - 1).Some? && q + 2 < |data| {
      assert GuardedSystemsEnd(data, k) == GuardedBeamsEnd(data, q + 20, data[q + 2] as nat);
      SystemBeamsAgree(data, memory, q);
    }
  }

  /** A system whose beam count lies inside the datagram: both walks read the same count. */
  lemma SystemBeamsAgree(data: seq<Byte>, memory: int -> Byte, q: int)
    requires 0 <= q && q + 2 < |data|
    ensures var g := GuardedBeamsEnd(data, q + 20, data[q + 2] as nat);
            (g.Some? ==> g.value == SystemEnd(data, memory, q)) && (g.None? ==> SystemEnd(data, memory, q) >= |data|)
  {
    assert ReadAt(data, memory, q + 2) == data[q + 2];
    BeamsAgree(data, memory, q + 20, data[q + 2] as nat);
  }

  /** The unchecked reads never change the verdict: the check as written equals the guarded one for any memory. */
  lemma EmissionVerdictIgnoresMemory(data: seq<Byte>, memory: int -> Byte)
    ensures EmissionLengthOkAsWritten(data, memory) <==> EmissionLengthOk(data)
  {
    if 25 < |data| {
      SystemsAgree(data, memory, data[25] as nat);
    }
  }

  /** A three-byte Emission datagram passes the type-byte guard, and the walker then reads byte 25, past its end. */
  lemma ShortEmissionReadsPastEnd(memory: int -> Byte)
    ensures var data: seq<Byte> := [0, 0, EmissionType];
      |data| >= 1 && KindOf(data[PduTypePosition]) == Some(Emission) && 25 >= |data| &&
      !EmissionLengthOkAsWritten(data, memory)
  {
  }

  /**
   * The walker with its nested loops, with each count byte read only after
   * checking that it lies inside the datagram.
   */
  method CheckEmissionLength(data: seq<Byte>) returns (ok: bool)
    ensures ok == EmissionLengthOk(data)
  {
    if |data| <= 25 {
      return false;
    }
    var systems := data[25] as nat;
    var index := 27;
    var i := 0;
    while i < systems
      invariant 0 <= i <= systems
      invariant GuardedSystemsEnd(data, i) == Some(index)
    {
      index := index + 2;
      if index >= |data| {
        GuardedSystemsNonePersists(data, i + 1, systems);
        return false;
      }
      var end := WalkBeams(data, index + 18, data[index] as nat);
      if end.None? {
        GuardedSystemsNonePersists(data, i + 1, systems);
        return false;
      }
      index := end.value;
      i := i + 1;
    }
    return index + 1 == |data|;
  }

  /** The inner loop of the walker: one emitter system's beams, from `start`. */
  method WalkBeams(data: seq<Byte>, start: nat, beams: nat) returns (end: Option<int>)
    ensures end == GuardedBeamsEnd(data, start, beams)
  {
    var index := start;
    var j := 0;
    while j < beams
      invariant 0 <= j <= beams
      invariant GuardedBeamsEnd(data, start, j) == Some(index)
    {
      index := index + 46;
      if index >= |data| {
        GuardedBeamsNonePersists(data, start, j + 1, beams);
        return None;
      }
      var targets := data[index] as int;
      index := index + 6;
      index := index + 8 * targets;
      j := j + 1;
    }
    return Some(index);
  }

  // ---------------------------------------------------------------------------
  // Signal

  /** Bytes needed to pad `d` bytes up to the next multiple of 32. */
  function SignalPadding(d: nat): (p: nat)
    ensures p < 32 && (d + p) % 32 == 0
  {
    (d + 31) / 32 * 32 - d
  }

  /** The data length in bytes: the 16-bit big-endian bit count at bytes 28-29, divided by 8. */
  function SignalDataBytes(data: seq<Byte>, memory: int -> Byte): (d: nat)
    ensures d < 0x2000
  {
    (ReadAt(data, memory, 28) as nat * 0x100 + ReadAt(data, memory, 29) as nat) / 8
  }

  /** The check as written: padded data plus the fixed Signal PDU size is the length. */
  predicate SignalLengthOkAsWritten(data: seq<Byte>, memory: int -> Byte)
  {
    var d := SignalDataBytes(data, memory);
    d + SignalPadding(d) + SignalPduBytes == |data|
  }

  /** The intended check, reading the bit count only when bytes 28-29 exist. */
  predicate SignalLengthOk(data: seq<Byte>)
  {
    29 < |data| &&
    var d := (data[28] as nat * 0x100 + data[29] as nat) / 8;
    d + SignalPadding(d) + SignalPduBytes == |data|
  }

  /** A short datagram is rejected whatever the unchecked reads yield, so the verdict ignores memory. */
  lemma SignalVerdictIgnoresMemory(data: seq<Byte>, memory: int -> Byte)
    ensures SignalLengthOkAsWritten(data, memory) <==> SignalLengthOk(data)
    ensures SignalLengthOk(data) ==> |data| >= SignalPduBytes && (|data| - SignalPduBytes) % 32 == 0
  {
  }

  // ---------------------------------------------------------------------------
  // Dispatch

  /** The fixed size of the PDUs accepted only at one length. */
  function FixedLength(k: PduKind): int
    requires k in {Fire, RemoveEntity, StartResume, StopFreeze}
  {
    match k
    case Fire => FirePduBytes
    case RemoveEntity => RemoveEntityPduBytes
    case StartResume => StartResumePduBytes
    case StopFreeze => StopFreezePduBytes
  }

  /** The base size of the PDUs that may carry articulation records. */
  function ArticulatedBase(k: PduKind): int
    requires k in {EntityState, EntityStateUpdate, Detonation}
  {
    match k
    case EntityState => EntityStatePduBytes
    case EntityStateUpdate => EntityStateUpdatePduBytes
    case Detonation => DetonationPduBytes
  }

  /** The per-kind length checks as written. */
  predicate LengthOkAsWritten(k: PduKind, data: seq<Byte>, memory: int -> Byte)
  {
    match k
    case EntityState | EntityStateUpdate | Detonation => ArticulationLengthOkAsWritten(|data|, ArticulatedBase(k))
    case Fire | RemoveEntity | StartResume | StopFreeze => |data| == FixedLength(k)
    case Emission => EmissionLengthOkAsWritten(data, memory)
    case Signal => SignalLengthOkAsWritten(data, memory)
  }

  /** The per-kind length checks as intended. */
  predicate LengthOk(k: PduKind, data: seq<Byte>)
  {
    match k
    case EntityState | EntityStateUpdate | Detonation => ArticulationLengthOk(|data|, ArticulatedBase(k))
    case Fire | RemoveEntity | StartResume | StopFreeze => |data| == FixedLength(k)
    case Emission => EmissionLengthOk(data)
    case Signal => SignalLengthOk(data)
  }

  /**
   * ProcessDISPacket as written: only an empty datagram is turned away before
   * the type byte at index 2 is read.
   */
  function DispatchAsWritten(data: seq<Byte>, memory: int -> Byte): (r: Option<Broadcast>)
    ensures |data| < 1 ==> r.None?
  {
    if |data| < 1 then None
    else
      match KindOf(ReadAt(data, memory, PduTypePosition))
      case None => None
      case Some(k) => if LengthOkAsWritten(k, data, memory) then Some(Broadcast(k, data)) else None
  }

  /** ProcessDISPacket as intended: the type byte must exist, and articulated PDUs must reach their base size. */
  function Dispatch(data: seq<Byte>): Option<Broadcast>
  {
    if |data| <= PduTypePosition then None
    else
      match KindOf(data[PduTypePosition])
      case None => None
      case Some(k) => if LengthOk(k, data) then Some(Broadcast(k, data)) else None
  }

  /** A one-byte datagram passes the guard yet has no byte at the type position; it is dropped whatever is read. */
  lemma OneByteDatagramReadsPastEnd(b: Byte, memory: int -> Byte)
    ensures !(|[b]| < 1) && PduTypePosition >= |[b]|
    ensures DispatchAsWritten([b], memory).None?
  {
    var data := [b];
    var k := KindOf(ReadAt(data, memory, PduTypePosition));
    if k.Some? && k.value == Emission {
      EmissionVerdictIgnoresMemory(data, memory);
    }
  }

  /**
   * The intended dispatcher agrees with the code as written for every memory
   * content, except that it refuses articulated PDUs shorter than their base.
   */
  lemma DispatchAgreesWithAsWritten(data: seq<Byte>, memory: int -> Byte)
    ensures Dispatch(data).Some? ==> DispatchAsWritten(data, memory) == Dispatch(data)
    ensures DispatchAsWritten(data, memory).Some? && Dispatch(data).None? ==>
      var k := DispatchAsWritten(data, memory).value.kind;
      k in {EntityState, EntityStateUpdate, Detonation} && |data| < ArticulatedBase(k)
  {
    if |data| <= PduTypePosition {
      var k := KindOf(ReadAt(data, memory, PduTypePosition));
      if k.Some? && k.value == Emission {
        EmissionVerdictIgnoresMemory(data, memory);
      }
      if k.Some? && k.value == Signal {
        SignalVerdictIgnoresMemory(data, memory);
      }
      if k.Some? && k.value in {EntityState, EntityStateUpdate, Detonation} {
        ArticulationCheckIsMultiple(|data|, ArticulatedBase(k.value));
      }
    } else {
      var k := KindOf(data[PduTypePosition]);
      if k.Some? {
        EmissionVerdictIgnoresMemory(data, memory);
        SignalVerdictIgnoresMemory(data, memory);
        if k.value in {EntityState, EntityStateUpdate, Detonation} {
          ArticulationCheckIsMultiple(|data|, ArticulatedBase(k.value));
        }
      }
    }
  }

  /** The 128-byte Entity State datagram is broadcast as written and refused as intended. */
  lemma ShortEntityStateIsBroadcast(data: seq<Byte>, memory: int -> Byte)
    requires |data| == 128 && data[PduTypePosition] == EntityStateType
    ensures DispatchAsWritten(data, memory) == Some(Broadcast(EntityState, data))
    ensures Dispatch(data).None?
  {
    ArticulationCheckIsMultiple(128, EntityStatePduBytes);
  }

  /** A broadcast carries the kind named by the type byte and the whole datagram; other types broadcast nothing. */
  lemma DispatchFollowsTypeByte(data: seq<Byte>)
    ensures Dispatch(data).Some? ==>
      |data| > PduTypePosition && KindOf(data[PduTypePosition]) == Some(Dispatch(data).value.kind) &&
      Dispatch(data).value.datagram == data && LengthOk(Dispatch(data).value.kind, data)
    ensures |data| > PduTypePosition && KindOf(data[PduTypePosition]).None? ==> Dispatch(data).None?
    ensures |data| < 1 ==> Dispatch(data).None?
  {
  }

  /** Fire, Remove Entity, Start/Resume and Stop/Freeze are broadcast exactly at their fixed length. */
  lemma FixedLengthAdmission(data: seq<Byte>, k: PduKind)
    requires k in {Fire, RemoveEntity, StartResume, StopFreeze}
    requires |data| > PduTypePosition && data[PduTypePosition] == TypeOf(k)
    ensures Dispatch(data).Some? <==> |data| == FixedLength(k)
  {
  }

  /** Entity State, Entity State Update and Detonation are broadcast exactly at their base plus whole records. */
  lemma ArticulatedAdmission(data: seq<Byte>, k: PduKind)
    requires k in {EntityState, EntityStateUpdate, Detonation}
    requires |data| > PduTypePosition && data[PduTypePosition] == TypeOf(k)
    ensures Dispatch(data).Some? <==>
      |data| >= ArticulatedBase(k) && (|data| - ArticulatedBase(k)) % ArticulationParameterBytes == 0
  {
  }

  /** The events of a dispatch: none, or the one broadcast. */
  function Emitted(r: Option<Broadcast>): (s: seq<Broadcast>)
    ensures |s| <= 1
    ensures r.None? ==> s == []
    ensures r.Some? ==> s == [r.value]
  {
    if r.Some? then [r.value] else []
  }

  /** The processor subsystem, recording the events it has broadcast. */
  class PduDispatcher {
    var broadcasts: seq<Broadcast>

    constructor()
      ensures broadcasts == []
    {
      broadcasts := [];
    }

    /** Handles one datagram, broadcasting at most one event. */
    method ProcessDISPacket(data: seq<Byte>)
      modifies this
      ensures broadcasts == old(broadcasts) + Emitted(Dispatch(data))
    {
      if |data| <= PduTypePosition {
        return;
      }
      var kind := KindOf(data[PduTypePosition]);
      if kind.None? {
        return;
      }
      var k := kind.value;
      var ok: bool;
      if k == Emission {
        ok := CheckEmissionLength(data);
      } else {
        ok := LengthOk(k, data);
      }
      if !ok {
        return;
      }
      broadcasts := broadcasts + [Broadcast(k, data)];
    }
  }
}
