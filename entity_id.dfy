// FEntityID: the (site, application, entity) triple that names a simulated
// entity, its equality, its ordering through a 64-bit key, and its mapping to
// the DIS record.
module EntityIds {
  import opened DisBase

  /** A C++ int32. */
  type Int32 = x: int | -0x8000_0000 <= x < 0x8000_0000

  /** A C++ unsigned short, as the DIS record holds each part of the ID. */
  type UInt16 = x: int | 0 <= x < 0x1_0000

  const TwoTo64: int := 0x1_0000_0000_0000_0000

  datatype EntityId = EntityId(site: Int32, application: Int32, entity: Int32)

  /** The DIS EntityID record. */
  datatype EntityIdRecord = EntityIdRecord(site: UInt16, application: UInt16, entity: UInt16)

  const DefaultEntityId: EntityId := EntityId(0, 0, 0)

  /** The editor clamps every part to 0..65535. */
  predicate InRange(id: EntityId)
  {
    0 <= id.site < 0x1_0000 && 0 <= id.application < 0x1_0000 && 0 <= id.entity < 0x1_0000
  }

  /** static_cast<uint64> of an int32: the value modulo 2^64. */
  function U64(x: Int32): (r: int)
    ensures 0 <= r < TwoTo64
    ensures 0 <= x ==> r == x
    ensures x < 0 ==> r == x + TwoTo64
  {
    x % TwoTo64
  }

  /** The bitwise or of two non-negative integers, bit by bit from the lowest. */
  function BitOr(x: nat, y: nat): nat
    decreases x + y
  {
    if x == 0 then y
    else if y == 0 then x
    else (if x % 2 == 1 || y % 2 == 1 then 1 else 0) + 2 * BitOr(x / 2, y / 2)
  }

  /** A uint64 shifted left by `k`: the bits pushed past bit 63 are lost. */
  function ShiftLeft(x: nat, k: nat): (r: nat)
    ensures r < TwoTo64
  {
    (x * Pow2(k)) % TwoTo64
  }

  /**
   * ToUInt64: Site << 32 | Application << 16 | Entity, each part first cast
   * to uint64. The shifted words overlap when a part is outside 0..65535.
   */
  function Key(id: EntityId): (k: int)
    ensures 0 <= k < TwoTo64
    ensures InRange(id) ==> k == id.site * 0x1_0000_0000 + id.application * 0x1_0000 + id.entity
  {
    KeyPowers();
    BitOrBelow(ShiftLeft(U64(id.site), 32), ShiftLeft(U64(id.application), 16), 64);
    BitOrBelow(BitOr(ShiftLeft(U64(id.site), 32), ShiftLeft(U64(id.application), 16)), U64(id.entity), 64);
    if InRange(id) then KeyIsSum(id); KeyOf(id)
    else KeyOf(id)
  }

  /** The expression ToUInt64 returns. */
  function KeyOf(id: EntityId): nat
  {
    BitOr(BitOr(ShiftLeft(U64(id.site), 32), ShiftLeft(U64(id.application), 16)), U64(id.entity))
  }

  lemma {:induction false} Pow2Sum(a: nat, b: nat)
    ensures Pow2(a + b) == Pow2(a) * Pow2(b)
  {
    if b > 0 {
      Pow2Sum(a, b - 1);
      assert Pow2(a + b) == 2 * Pow2(a + b - 1);
    }
  }

  lemma KeyPowers()
    ensures Pow2(16) == 0x1_0000 && Pow2(32) == 0x1_0000_0000 && Pow2(64) == TwoTo64
  {
    Pow2Table();
    Pow2Sum(16, 16);
    Pow2Sum(32, 32);
  }

  /** The or of two numbers below 2^n is below 2^n. */
  lemma {:induction false} BitOrBelow(x: nat, y: nat, n: nat)
    requires x < Pow2(n) && y < Pow2(n)
    ensures BitOr(x, y) < Pow2(n)
  {
    if x != 0 && y != 0 {
      BitOrBelow(x / 2, y / 2, n - 1);
    }
  }

  /** A number below 2^k ored into a multiple of 2^k is added to it. */
  lemma {:induction false} BitOrDisjoint(x: nat, y: nat, k: nat)
    requires y < Pow2(k)
    ensures BitOr(x * Pow2(k), y) == x * Pow2(k) + y
  {
    if k > 0 && x != 0 && y != 0 {
      Twice(x, k);
      BitOrDisjoint(x, y / 2, k - 1);
    }
  }

  lemma Twice(a: nat, k: nat)
    requires k > 0
    ensures a * Pow2(k) == 2 * (a * Pow2(k - 1))
  {
    var p := Pow2(k - 1);
    assert a * (2 * p) == 2 * (a * p);
  }

  /** Or commutes with shifting both operands by k bits. */
  lemma {:induction false} BitOrScaled(x: nat, y: nat, k: nat)
    ensures BitOr(x * Pow2(k), y * Pow2(k)) == BitOr(x, y) * Pow2(k)
  {
    if k > 0 {
      Twice(x, k);
      Twice(y, k);
      Twice(BitOr(x, y), k);
      assert BitOr(2 * (x * Pow2(k - 1)), 2 * (y * Pow2(k - 1))) == 2 * BitOr(x * Pow2(k - 1), y * Pow2(k - 1));
      BitOrScaled(x, y, k - 1);
    }
  }

  /** With every part in range the shifted words do not overlap, so the or is a sum. */
  lemma KeyIsSum(id: EntityId)
    requires InRange(id)
    ensures KeyOf(id) == id.site * 0x1_0000_0000 + id.application * 0x1_0000 + id.entity
  {
    var s: nat, a: nat, e: nat := id.site, id.application, id.entity;
    ShiftInRange(s, 32);
    ShiftInRange(a, 16);
    var high := BitOr(ShiftLeft(s, 32), ShiftLeft(a, 16));
    HighWords(s, a);
    assert KeyOf(id) == BitOr(high, e);
    LowWord(high, e, s * 0x1_0000 + a);
  }

  /** Site and application words, shifted in place, or together into one number. */
  lemma HighWords(s: nat, a: nat)
    requires s < 0x1_0000 && a < 0x1_0000
    ensures BitOr(s * 0x1_0000_0000, a * 0x1_0000) == (s * 0x1_0000 + a) * 0x1_0000
  {
    KeyPowers();
    assert s * 0x1_0000_0000 == (s * 0x1_0000) * Pow2(16);
    BitOrScaled(s * 0x1_0000, a, 16);
    BitOrDisjoint(s, a, 16);
  }

  /** The entity word ors into the low bits the high words leave clear. */
  lemma LowWord(high: nat, e: nat, q: nat)
    requires high == q * 0x1_0000 && e < 0x1_0000
    ensures BitOr(high, e) == q * 0x1_0000 + e
  {
    KeyPowers();
    BitOrDisjoint(q, e, 16);
  }

  /** Shifting a part below 2^16 by at most 32 bits loses nothing. */
  lemma ShiftInRange(x: nat, k: nat)
    requires x < 0x1_0000 && (k == 16 || k == 32)
    ensures ShiftLeft(x, k) == x * (if k == 16 then 0x1_0000 else 0x1_0000_0000)
  {
    KeyPowers();
  }

  /** operator== compares the three parts. */
  predicate Equal(a: EntityId, b: EntityId)
  {
    a.site == b.site && a.application == b.application && a.entity == b.entity
  }

  /** operator< compares the keys. */
  predicate Less(a: EntityId, b: EntityId) { Key(a) < Key(b) }
  /** operator> is b < a. */
  predicate Greater(a: EntityId, b: EntityId) { Less(b, a) }
  /** operator<= is !(a > b). */
  predicate LessEq(a: EntityId, b: EntityId) { !Greater(a, b) }
  /** operator>= is !(a < b). */
  predicate GreaterEq(a: EntityId, b: EntityId) { !Less(a, b) }

  /** The constructor from the DIS record widens each unsigned short. */
  function FromRecord(r: EntityIdRecord): (id: EntityId)
    ensures InRange(id)
    ensures id.site == r.site && id.application == r.application && id.entity == r.entity
  {
    EntityId(r.site, r.application, r.entity)
  }

  /** ToOpenDIS narrows each part to an unsigned short. */
  function ToRecord(id: EntityId): (r: EntityIdRecord)
    ensures InRange(id) ==> r.site == id.site && r.application == id.application && r.entity == id.entity
    ensures r.site == id.site % 0x1_0000 && r.application == id.application % 0x1_0000
    ensures r.entity == id.entity % 0x1_0000
  {
    EntityIdRecord(id.site % 0x1_0000, id.application % 0x1_0000, id.entity % 0x1_0000)
  }

  /** The three parts of an in-range ID can be read back from its key. */
  lemma {:induction false} KeyParts(id: EntityId)
    requires InRange(id)
    ensures Key(id) / 0x1_0000_0000 == id.site
    ensures (Key(id) / 0x1_0000) % 0x1_0000 == id.application
    ensures Key(id) % 0x1_0000 == id.entity
  {
    SumDigits(id.site, id.application, id.entity);
  }

  /** Base-2^16 digits of site·2^32 + application·2^16 + entity. */
  lemma SumDigits(s: int, a: int, e: int)
    requires 0 <= s < 0x1_0000 && 0 <= a < 0x1_0000 && 0 <= e < 0x1_0000
    ensures var k := s * 0x1_0000_0000 + a * 0x1_0000 + e;
            k / 0x1_0000_0000 == s && (k / 0x1_0000) % 0x1_0000 == a && k % 0x1_0000 == e
  {
    var low := a * 0x1_0000 + e;
    var k := s * 0x1_0000_0000 + low;
    assert 0 <= low < 0x1_0000_0000;
    assert k / 0x1_0000 == s * 0x1_0000 + a;
  }

  /** For in-range IDs the key is injective, so == and key equality coincide. */
  lemma EqualIffSameKey(a: EntityId, b: EntityId)
    requires InRange(a) && InRange(b)
    ensures Equal(a, b) <==> Key(a) == Key(b)
    ensures Equal(a, b) <==> a == b
  {
    if Key(a) == Key(b) {
      KeyParts(a);
      KeyParts(b);
    }
  }

  /** operator< is a strict total order on in-range IDs whose equivalence is ==. */
  lemma LessIsStrictTotalOrder(a: EntityId, b: EntityId, c: EntityId)
    requires InRange(a) && InRange(b) && InRange(c)
    ensures !Less(a, a)
    ensures Less(a, b) && Less(b, c) ==> Less(a, c)
    ensures Less(a, b) ==> !Less(b, a)
    ensures Less(a, b) || Equal(a, b) || Less(b, a)
  {
    EqualIffSameKey(a, b);
  }

  /** The derived comparisons agree with < and == on in-range IDs. */
  lemma DerivedComparisons(a: EntityId, b: EntityId)
    requires InRange(a) && InRange(b)
    ensures LessEq(a, b) <==> Less(a, b) || Equal(a, b)
    ensures GreaterEq(a, b) <==> Greater(a, b) || Equal(a, b)
    ensures !Equal(a, b) <==> Less(a, b) || Greater(a, b)
  {
    EqualIffSameKey(a, b);
  }

  /**
   * Outside the clamped range the shifted words overlap and two different
   * IDs can share a key: application 1 and entity 65536 land on the same
   * bit, and so do site 1 and application 65536, whose bits the or merges
   * where a sum would carry.
   */
  lemma OutOfRangeKeysCollide()
    ensures Key(EntityId(0, 1, 0)) == Key(EntityId(0, 0, 0x1_0000))
    ensures !Equal(EntityId(0, 1, 0), EntityId(0, 0, 0x1_0000))
    ensures Key(EntityId(1, 0x1_0000, 0)) == Key(EntityId(1, 0, 0)) == 0x1_0000_0000
    ensures !Equal(EntityId(1, 0x1_0000, 0), EntityId(1, 0, 0))
  {
    KeyPowers();
    assert ShiftLeft(U64(1), 32) == 1 * Pow2(32);
    assert ShiftLeft(U64(0x1_0000), 16) == 1 * Pow2(32);
    BitOrScaled(1, 1, 32);
    assert ShiftLeft(U64(1), 16) == 0x1_0000;
  }

  /** The record conversion round-trips on in-range IDs and on every record. */
  lemma RecordRoundTrip(id: EntityId, r: EntityIdRecord)
    ensures InRange(id) ==> FromRecord(ToRecord(id)) == id
    ensures ToRecord(FromRecord(r)) == r
  {
  }
}
