// FEntityAppearance: the common fields of the 32-bit DIS entity appearance
// record (SISO-REF-010, UIDs 31-43), read from the word by bit position and
// or-ed back into it.
module Appearances {
  import opened DisBase

  /** The paint scheme held in bit 0. */
  datatype PaintScheme = UniformColor | Camouflage

  /** The damage state held in bits 3-4. */
  datatype Damage = NoDamage | SlightDamage | ModerateDamage | Destroyed

  datatype Appearance = Appearance(
    paintScheme: PaintScheme,
    mobilityKilled: bool,
    firePowerKilled: bool,
    damage: Damage,
    isSmoking: bool,
    isEngineSmoking: bool,
    trailing: int,
    hatchState: int,
    lightPrimary: bool,
    lightSecondary: bool,
    lightCollision: bool,
    isFlaming: bool,
    isFrozen: bool,
    isDeactivated: bool,
    isLandingGearExtended: bool,
    rawVal: Word)

  /** The appearance bits the runtime acts on. */
  const FrozenBit: nat := 21
  const DeactivatedBit: nat := 23

  /** The default constructor: every field clear and a raw value of 0. */
  const DefaultAppearance: Appearance :=
    Appearance(UniformColor, false, false, NoDamage, false, false, 0, 0,
               false, false, false, false, false, false, false, ZeroWord)

  /** The enumeration value of a damage state. */
  function DamageValue(d: Damage): (v: nat)
    ensures v < 4
  {
    match d
    case NoDamage => 0
    case SlightDamage => 1
    case ModerateDamage => 2
    case Destroyed => 3
  }

  /** static_cast to the damage enumeration, for the values a 2-bit field holds. */
  function DamageFromValue(v: nat): (d: Damage)
    requires v < 4
    ensures DamageValue(d) == v
  {
    if v == 0 then NoDamage else if v == 1 then SlightDamage
    else if v == 2 then ModerateDamage else Destroyed
  }

  /** getField(val, mask, pos) for mask = 2^width - 1. */
  function GetField(val: Word, width: nat, pos: nat): (r: nat)
    requires pos + width <= 32
    ensures r < Pow2(width)
  {
    FieldValue(val, pos, width)
  }

  /** getField(val, pos): whether bit `pos` is set. */
  function GetFlag(val: Word, pos: nat): (r: bool)
    requires pos < 32
    ensures r <==> val[pos]
  {
    GetField(val, 1, pos) != 0
  }

  /** The constructor from a raw 32-bit appearance value. */
  function FromRaw(val: Word): (a: Appearance)
    ensures a.rawVal == val
    ensures a.paintScheme == Camouflage <==> val[0]
    ensures a.mobilityKilled == val[1] && a.firePowerKilled == val[2]
    ensures a.isSmoking == val[5] && a.isEngineSmoking == val[6]
    ensures a.lightPrimary == val[12] && a.lightSecondary == val[13]
    ensures a.lightCollision == val[14] && a.isFlaming == val[15]
    ensures a.isFrozen <==> val[FrozenBit]
    ensures a.isDeactivated <==> val[DeactivatedBit]
    ensures a.isLandingGearExtended <==> val[25]
    ensures DamageValue(a.damage) == FieldValue(val, 3, 2)
    ensures a.trailing == FieldValue(val, 7, 2)
    ensures a.hatchState == FieldValue(val, 9, 3)
  {
    Appearance(
      if GetFlag(val, 0) then Camouflage else UniformColor,
      GetFlag(val, 1),
      GetFlag(val, 2),
      DamageFromValue(GetField(val, 2, 3)),
      GetFlag(val, 5),
      GetFlag(val, 6),
      GetField(val, 2, 7),
      GetField(val, 3, 9),
      GetFlag(val, 12),
      GetFlag(val, 13),
      GetFlag(val, 14),
      GetFlag(val, 15),
      GetFlag(val, 21),
      GetFlag(val, 23),
      GetFlag(val, 25),
      val)
  }

  /**
   * The raw value after UpdateValue: each field or-ed into the old raw value
   * at its bit position, in the order the source applies them.
   */
  function UpdatedRaw(a: Appearance): Word
  {
    var r1 := Or(a.rawVal, Flag(a.paintScheme == Camouflage, 0));
    var r2 := Or(r1, Flag(a.mobilityKilled, 1));
    var r3 := Or(r2, Flag(a.firePowerKilled, 2));
    var r4 := Or(r3, ShiftLeft(Bits(DamageValue(a.damage)), 3));
    var r5 := Or(r4, Flag(a.isSmoking, 5));
    var r6 := Or(r5, Flag(a.isEngineSmoking, 6));
    var r7 := Or(r6, ShiftLeft(Bits(a.trailing), 7));
    var r8 := Or(r7, ShiftLeft(Bits(a.hatchState), 9));
    var r9 := Or(r8, Flag(a.lightPrimary, 12));
    var r10 := Or(r9, Flag(a.lightSecondary, 13));
    var r11 := Or(r10, Flag(a.lightCollision, 14));
    var r12 := Or(r11, Flag(a.isFlaming, 15));
    var r13 := Or(r12, Flag(a.isFrozen, 21));
    var r14 := Or(r13, Flag(a.isDeactivated, 23));
    Or(r14, Flag(a.isLandingGearExtended, 25))
  }

  /**
   * UpdateValue: or each field into RawVal in turn and return the result;
   * the appearance keeps the new raw value.
   */
  method UpdateValue(a: Appearance) returns (updated: Appearance, raw: Word)
    ensures raw == UpdatedRaw(a)
    ensures updated == a.(rawVal := raw)
  {
    raw := a.rawVal;
    raw := Or(raw, Flag(a.paintScheme == Camouflage, 0));
    raw := Or(raw, Flag(a.mobilityKilled, 1));
    raw := Or(raw, Flag(a.firePowerKilled, 2));
    raw := Or(raw, ShiftLeft(Bits(DamageValue(a.damage)), 3));
    raw := Or(raw, Flag(a.isSmoking, 5));
    raw := Or(raw, Flag(a.isEngineSmoking, 6));
    raw := Or(raw, ShiftLeft(Bits(a.trailing), 7));
    raw := Or(raw, ShiftLeft(Bits(a.hatchState), 9));
    raw := Or(raw, Flag(a.lightPrimary, 12));
    raw := Or(raw, Flag(a.lightSecondary, 13));
    raw := Or(raw, Flag(a.lightCollision, 14));
    raw := Or(raw, Flag(a.isFlaming, 15));
    raw := Or(raw, Flag(a.isFrozen, 21));
    raw := Or(raw, Flag(a.isDeactivated, 23));
    raw := Or(raw, Flag(a.isLandingGearExtended, 25));
    updated := a.(rawVal := raw);
  }

  /** Whether some field, placed at its position, sets bit i. */
  predicate FieldSetsBit(a: Appearance, i: nat)
  {
    (i == 0 && a.paintScheme == Camouflage) || (i == 1 && a.mobilityKilled) ||
    (i == 2 && a.firePowerKilled) || (3 <= i && BitAt(DamageValue(a.damage), i - 3)) ||
    (i == 5 && a.isSmoking) || (i == 6 && a.isEngineSmoking) ||
    (7 <= i && BitAt(a.trailing, i - 7)) || (9 <= i && BitAt(a.hatchState, i - 9)) ||
    (i == 12 && a.lightPrimary) || (i == 13 && a.lightSecondary) ||
    (i == 14 && a.lightCollision) || (i == 15 && a.isFlaming) ||
    (i == 21 && a.isFrozen) || (i == 23 && a.isDeactivated) || (i == 25 && a.isLandingGearExtended)
  }

  /** Bit i of the updated value is bit i of the old raw value or a field's bit i. */
  lemma UpdatedRawBits(a: Appearance)
    ensures forall i :: 0 <= i < 32 ==> UpdatedRaw(a)[i] == (a.rawVal[i] || FieldSetsBit(a, i))
  {
  }

  /** Updating never clears a bit that was already set in the raw value. */
  lemma UpdateNeverClears(a: Appearance)
    ensures forall i :: 0 <= i < 32 && a.rawVal[i] ==> UpdatedRaw(a)[i]
  {
    UpdatedRawBits(a);
  }

  /** A field read from a word and placed back sets only bits the word has. */
  lemma FieldBitsComeFromWord(val: Word, pos: nat, width: nat, i: nat)
    requires pos + width <= 32 && pos <= i < 32
    ensures BitAt(FieldValue(val, pos, width), i - pos) ==> val[i]
  {
    BitsOfField(val, pos, width);
    assert Bits(FieldValue(val, pos, width))[i - pos] == BitAt(FieldValue(val, pos, width), i - pos);
  }

  /** Every bit the fields of an appearance read from `val` set is set in `val`. */
  lemma FieldsOfReadWordAreInWord(val: Word, i: nat)
    requires i < 32 && FieldSetsBit(FromRaw(val), i)
    ensures val[i]
  {
    var a := FromRaw(val);
    if 3 <= i { FieldBitsComeFromWord(val, 3, 2, i); }
    if 7 <= i { FieldBitsComeFromWord(val, 7, 2, i); }
    if 9 <= i { FieldBitsComeFromWord(val, 9, 3, i); }
  }

  /** An appearance read from a raw value and left alone updates back to that value. */
  lemma UpdateOfUnmodifiedIsIdentity(val: Word)
    ensures UpdatedRaw(FromRaw(val)) == val
  {
    var a := FromRaw(val);
    var u := UpdatedRaw(a);
    UpdatedRawBits(a);
    forall i | 0 <= i < 32
      ensures u[i] == val[i]
    {
      ReadBitStays(val, i);
    }
    WordsEqual(u, val);
  }

  lemma ReadBitStays(val: Word, i: nat)
    requires i < 32
    ensures (FromRaw(val).rawVal[i] || FieldSetsBit(FromRaw(val), i)) == val[i]
  {
    if FieldSetsBit(FromRaw(val), i) {
      FieldsOfReadWordAreInWord(val, i);
    }
  }

  /** The default appearance updates to 0. */
  lemma DefaultUpdatesToZero()
    ensures UpdatedRaw(DefaultAppearance) == ZeroWord
  {
    var u := UpdatedRaw(DefaultAppearance);
    UpdatedRawBits(DefaultAppearance);
    forall i | 0 <= i < 32
      ensures u[i] == ZeroWord[i]
    {
      DefaultSetsNoBit(i);
    }
    WordsEqual(u, ZeroWord);
  }

  lemma DefaultSetsNoBit(i: nat)
    ensures !FieldSetsBit(DefaultAppearance, i)
  {
    if i >= 3 { BitAtZero(i - 3); }
    if i >= 7 { BitAtZero(i - 7); }
    if i >= 9 { BitAtZero(i - 9); }
  }

  /** A number below 2^width is read back from the field that holds its bits. */
  lemma {:induction false} FieldOfBits(w: Word, pos: nat, width: nat, x: nat)
    requires pos + width <= 32 && x < Pow2(width)
    requires forall j :: 0 <= j < width ==> w[pos + j] == BitAt(x, j)
    ensures FieldValue(w, pos, width) == x
    decreases width
  {
    if width == 0 {
    } else {
      assert w[pos] == BitAt(x, 0);
      forall j | 0 <= j < width - 1
        ensures w[pos + 1 + j] == BitAt(x / 2, j)
      {
        assert w[pos + (j + 1)] == BitAt(x, j + 1);
      }
      FieldOfBits(w, pos + 1, width - 1, x / 2);
    }
  }

  /** With every field in range, a field sets bit `i` exactly when `i` is in that field's slot. */
  lemma FieldSetsSlotBit(a: Appearance, i: nat)
    requires 0 <= a.trailing < 4 && 0 <= a.hatchState < 8 && i < 32
    ensures FieldSetsBit(a, i) == SlotBit(a, i)
  {
    assert Pow2(2) == 4 && Pow2(3) == 8;
    if i >= 5 {
      BitAtAboveWidth(DamageValue(a.damage), 2, i - 3);
    }
    if i >= 9 {
      BitAtAboveWidth(a.trailing, 2, i - 7);
    }
    if i >= 12 {
      BitAtAboveWidth(a.hatchState, 3, i - 9);
    }
  }

  /** The bit a field in range puts at position i of a zero word. */
  predicate SlotBit(a: Appearance, i: nat)
  {
    if i == 0 then a.paintScheme == Camouflage
    else if i == 1 then a.mobilityKilled
    else if i == 2 then a.firePowerKilled
    else if i < 5 then BitAt(DamageValue(a.damage), i - 3)
    else if i == 5 then a.isSmoking
    else if i == 6 then a.isEngineSmoking
    else if i < 9 then BitAt(a.trailing, i - 7)
    else if i < 12 then BitAt(a.hatchState, i - 9)
    else if i == 12 then a.lightPrimary
    else if i == 13 then a.lightSecondary
    else if i == 14 then a.lightCollision
    else if i == 15 then a.isFlaming
    else if i == 21 then a.isFrozen
    else if i == 23 then a.isDeactivated
    else if i == 25 then a.isLandingGearExtended
    else false
  }

  /** From a zero raw value, fields in range fill exactly their own slots. */
  lemma UpdatedZeroBits(a: Appearance)
    requires a.rawVal == ZeroWord && 0 <= a.trailing < 4 && 0 <= a.hatchState < 8
    ensures forall i :: 0 <= i < 32 ==> UpdatedRaw(a)[i] == SlotBit(a, i)
  {
    UpdatedRawBits(a);
    forall i | 0 <= i < 32
      ensures UpdatedRaw(a)[i] == SlotBit(a, i)
    {
      FieldSetsSlotBit(a, i);
    }
  }

  /** A word holding the fields in their slots reads back as those fields. */
  lemma ReadBackSlots(a: Appearance, u: Word)
    requires 0 <= a.trailing < 4 && 0 <= a.hatchState < 8
    requires forall i :: 0 <= i < 32 ==> u[i] == SlotBit(a, i)
    ensures FromRaw(u) == a.(rawVal := u)
  {
    ReadBackNumbers(a, u);
    ReadBackFlags(a, u);
  }

  lemma ReadBackNumbers(a: Appearance, u: Word)
    requires 0 <= a.trailing < 4 && 0 <= a.hatchState < 8
    requires forall i :: 0 <= i < 32 ==> u[i] == SlotBit(a, i)
    ensures FromRaw(u).damage == a.damage
    ensures FromRaw(u).trailing == a.trailing && FromRaw(u).hatchState == a.hatchState
  {
    assert Pow2(2) == 4 && Pow2(3) == 8;
    var d := DamageValue(a.damage);
    assert u[3] == SlotBit(a, 3) && u[4] == SlotBit(a, 4);
    FieldOfBits(u, 3, 2, d);
    assert u[7] == SlotBit(a, 7) && u[8] == SlotBit(a, 8);
    FieldOfBits(u, 7, 2, a.trailing);
    assert u[9] == SlotBit(a, 9) && u[10] == SlotBit(a, 10) && u[11] == SlotBit(a, 11);
    FieldOfBits(u, 9, 3, a.hatchState);
    assert DamageValue(FromRaw(u).damage) == DamageValue(a.damage);
  }

  lemma ReadBackFlags(a: Appearance, u: Word)
    requires forall i :: 0 <= i < 32 ==> u[i] == SlotBit(a, i)
    ensures var b := FromRaw(u);
            b.paintScheme == a.paintScheme && b.mobilityKilled == a.mobilityKilled &&
            b.firePowerKilled == a.firePowerKilled && b.isSmoking == a.isSmoking &&
            b.isEngineSmoking == a.isEngineSmoking && b.lightPrimary == a.lightPrimary &&
            b.lightSecondary == a.lightSecondary && b.lightCollision == a.lightCollision &&
            b.isFlaming == a.isFlaming && b.isFrozen == a.isFrozen &&
            b.isDeactivated == a.isDeactivated && b.isLandingGearExtended == a.isLandingGearExtended
  {
    FlagSlots(a);
    var b := FromRaw(u);
    assert u[0] == SlotBit(a, 0);
    assert b.paintScheme == a.paintScheme;
    assert u[1] == SlotBit(a, 1) && u[2] == SlotBit(a, 2);
    assert u[5] == SlotBit(a, 5) && u[6] == SlotBit(a, 6);
    assert u[12] == SlotBit(a, 12) && u[13] == SlotBit(a, 13);
    assert u[14] == SlotBit(a, 14) && u[15] == SlotBit(a, 15);
    assert u[21] == SlotBit(a, 21) && u[23] == SlotBit(a, 23) && u[25] == SlotBit(a, 25);
  }

  /** The one-bit slots, named. */
  lemma FlagSlots(a: Appearance)
    ensures SlotBit(a, 0) == (a.paintScheme == Camouflage)
    ensures SlotBit(a, 1) == a.mobilityKilled && SlotBit(a, 2) == a.firePowerKilled
    ensures SlotBit(a, 5) == a.isSmoking && SlotBit(a, 6) == a.isEngineSmoking
    ensures SlotBit(a, 12) == a.lightPrimary && SlotBit(a, 13) == a.lightSecondary
    ensures SlotBit(a, 14) == a.lightCollision && SlotBit(a, 15) == a.isFlaming
    ensures SlotBit(a, 21) == a.isFrozen && SlotBit(a, 23) == a.isDeactivated
    ensures SlotBit(a, 25) == a.isLandingGearExtended
  {
  }

  /**
   * Starting from a zero raw value, as a default-constructed appearance does,
   * fields that fit their slots come back out of the updated word.
   */
  lemma FieldsRoundTrip(a: Appearance)
    requires a.rawVal == ZeroWord && 0 <= a.trailing < 4 && 0 <= a.hatchState < 8
    ensures FromRaw(UpdatedRaw(a)) == a.(rawVal := UpdatedRaw(a))
  {
    UpdatedZeroBits(a);
    ReadBackSlots(a, UpdatedRaw(a));
  }

  /** A trailing value wider than its two bits spills into the hatch bits. */
  lemma WideTrailingSpills()
    ensures FromRaw(UpdatedRaw(DefaultAppearance.(trailing := 4))).hatchState == 1
  {
    var u := UpdatedRaw(DefaultAppearance.(trailing := 4));
    WideTrailingBits();
    assert FieldValue(u, 12, 0) == 0;
    assert FieldValue(u, 9, 3) == 1;
  }

  /** Trailing 4 is bit 2 of the trailing field, which lands on bit 9, the first hatch bit. */
  lemma WideTrailingBits()
    ensures var u := UpdatedRaw(DefaultAppearance.(trailing := 4));
            u[9] && !u[10] && !u[11]
  {
    var a := DefaultAppearance.(trailing := 4);
    UpdatedRawBits(a);
    BitAtZero(6); BitAtZero(7); BitAtZero(8);
    BitAtZero(0); BitAtZero(1); BitAtZero(2);
    assert BitAt(4, 2) && !BitAt(4, 3) && !BitAt(4, 4);
  }
}
