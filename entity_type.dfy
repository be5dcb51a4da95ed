// FEntityType: the seven-part DIS entity type, its all-wildcard default, the
// wildcard filling used by the class lookup, its 64-bit ordering key, its
// packing into the eight bytes of a double, and its mapping to the DIS record.
module EntityTypes {
  import opened EntityIds

  /** A byte value 0..255. */
  type Octet = x: int | 0 <= x < 0x100

  /** A C++ unsigned short. */
  type UShort = x: int | 0 <= x < 0x1_0000

  datatype EntityType = EntityType(
    kind: Int32, domain: Int32, country: Int32, category: Int32,
    subcategory: Int32, specific: Int32, extra: Int32)

  /** The DIS EntityType record: unsigned char parts and an unsigned short country. */
  datatype EntityTypeRecord = EntityTypeRecord(
    kind: Octet, domain: Octet, country: UShort, category: Octet,
    subcategory: Octet, specific: Octet, extra: Octet)

  /** -1 marks a part as a wildcard. */
  const Wildcard: int := -1

  /** The default constructor sets every part to the wildcard. */
  const DefaultEntityType: EntityType := EntityType(-1, -1, -1, -1, -1, -1, -1)

  /** The eight bytes of a double's memory image, lowest address first. */
  type DoubleImage = s: seq<Octet> | |s| == 8 witness [0, 0, 0, 0, 0, 0, 0, 0]

  /** One part after filling: a wildcard takes the other value. */
  function FillPart(mine: Int32, other: Int32): Int32
  {
    if mine == Wildcard then other else mine
  }

  /** The value FillWildcards leaves in `this` and returns. */
  function Filled(t: EntityType, other: EntityType): (r: EntityType)
  {
    EntityType(
      FillPart(t.kind, other.kind), FillPart(t.domain, other.domain),
      FillPart(t.country, other.country), FillPart(t.category, other.category),
      FillPart(t.subcategory, other.subcategory), FillPart(t.specific, other.specific),
      FillPart(t.extra, other.extra))
  }

  /** FillWildcards: overwrite each wildcard part of `t` in turn with Other's part. */
  method FillWildcards(t: EntityType, other: EntityType) returns (r: EntityType)
    ensures r == Filled(t, other)
  {
    r := t;
    if r.kind == -1 { r := r.(kind := other.kind); }
    if r.domain == -1 { r := r.(domain := other.domain); }
    if r.country == -1 { r := r.(country := other.country); }
    if r.category == -1 { r := r.(category := other.category); }
    if r.subcategory == -1 { r := r.(subcategory := other.subcategory); }
    if r.specific == -1 { r := r.(specific := other.specific); }
    if r.extra == -1 { r := r.(extra := other.extra); }
  }

  /** Every non-wildcard part of `pattern` equals the corresponding part of `t`. */
  predicate Matches(pattern: EntityType, t: EntityType)
  {
    (pattern.kind == -1 || pattern.kind == t.kind) &&
    (pattern.domain == -1 || pattern.domain == t.domain) &&
    (pattern.country == -1 || pattern.country == t.country) &&
    (pattern.category == -1 || pattern.category == t.category) &&
    (pattern.subcategory == -1 || pattern.subcategory == t.subcategory) &&
    (pattern.specific == -1 || pattern.specific == t.specific) &&
    (pattern.extra == -1 || pattern.extra == t.extra)
  }

  /** Filling replaces exactly the wildcard parts and keeps every other part. */
  lemma FilledReplacesOnlyWildcards(t: EntityType, other: EntityType)
    ensures var r := Filled(t, other);
      (t.kind == -1 ==> r.kind == other.kind) && (t.kind != -1 ==> r.kind == t.kind) &&
      (t.domain == -1 ==> r.domain == other.domain) && (t.domain != -1 ==> r.domain == t.domain) &&
      (t.country == -1 ==> r.country == other.country) && (t.country != -1 ==> r.country == t.country) &&
      (t.category == -1 ==> r.category == other.category) && (t.category != -1 ==> r.category == t.category) &&
      (t.subcategory == -1 ==> r.subcategory == other.subcategory) &&
      (t.subcategory != -1 ==> r.subcategory == t.subcategory) &&
      (t.specific == -1 ==> r.specific == other.specific) && (t.specific != -1 ==> r.specific == t.specific) &&
      (t.extra == -1 ==> r.extra == other.extra) && (t.extra != -1 ==> r.extra == t.extra)
  {
  }

  /** Filling twice from the same type is filling once. */
  lemma FilledIdempotent(t: EntityType, other: EntityType)
    ensures Filled(Filled(t, other), other) == Filled(t, other)
  {
  }

  /** Filling a pattern from `t` yields `t` exactly when the pattern matches `t`. */
  lemma FilledIsTargetIffMatches(pattern: EntityType, t: EntityType)
    ensures Filled(pattern, t) == t <==> Matches(pattern, t)
  {
  }

  /** Filling changes the pattern exactly when some wildcard part meets a different part. */
  lemma FilledChangesIffWildcardDiffers(pattern: EntityType, t: EntityType)
    ensures Filled(pattern, t) != pattern <==>
      (pattern.kind == -1 && t.kind != -1) || (pattern.domain == -1 && t.domain != -1) ||
      (pattern.country == -1 && t.country != -1) || (pattern.category == -1 && t.category != -1) ||
      (pattern.subcategory == -1 && t.subcategory != -1) ||
      (pattern.specific == -1 && t.specific != -1) || (pattern.extra == -1 && t.extra != -1)
  {
  }

  /** The low byte of an int32, as `& 0xFF` and a cast to an 8-bit type take it. */
  function Low8(x: int): (r: Octet)
    ensures 0 <= x < 0x100 ==> r == x
    ensures r == x % 0x100
  {
    x % 0x100
  }

  /** The low 16 bits of an int32, as a cast to unsigned short takes them. */
  function Low16(x: int): (r: UShort)
    ensures 0 <= x < 0x1_0000 ==> r == x
    ensures r == x % 0x1_0000
  {
    x % 0x1_0000
  }

  /**
   * ToUInt64: every part masked to 8 bits, Extra at bit 0, Specific at 8,
   * Subcategory at 16, Category at 24, Country at 32, Domain at 48 and Kind
   * at 56. The masked bytes do not overlap, so the bitwise or is a sum.
   */
  function Key(t: EntityType): (k: int)
  {
    Low8(t.extra) + Low8(t.specific) * 0x100 + Low8(t.subcategory) * 0x1_0000 +
    Low8(t.category) * 0x100_0000 + Low8(t.country) * 0x1_0000_0000 +
    Low8(t.domain) * 0x1_0000_0000_0000 + Low8(t.kind) * 0x100_0000_0000_0000
  }

  /** The eight bytes a key is made of, least significant first. */
  function KeyBytes(t: EntityType): seq<Octet>
  {
    [Low8(t.extra), Low8(t.specific), Low8(t.subcategory), Low8(t.category),
     Low8(t.country), 0, Low8(t.domain), Low8(t.kind)]
  }

  /** One base-256 digit below a higher part. */
  function Digit(lo: Octet, hi: int): int { lo as int + 0x100 * hi }

  /** A base-256 digit and the part above it are determined by the number. */
  lemma DigitInjective(lo: Octet, hi: int, lo2: Octet, hi2: int)
    requires Digit(lo, hi) == Digit(lo2, hi2)
    ensures lo == lo2 && hi == hi2
  {
  }

  /** A number from its eight bytes, least significant first. */
  function FromBytesLE(b: seq<Octet>): int
    requires |b| == 8
  {
    Digit(b[0], Digit(b[1], Digit(b[2], Digit(b[3], Digit(b[4], Digit(b[5], Digit(b[6], b[7] as int)))))))
  }

  /** Distinct byte strings give distinct numbers. */
  lemma {:induction false} FromBytesLEInjective(a: seq<Octet>, b: seq<Octet>)
    requires |a| == 8 && |b| == 8 && FromBytesLE(a) == FromBytesLE(b)
    ensures a == b
  {
    DigitInjective(a[0], Digit(a[1], Digit(a[2], Digit(a[3], Digit(a[4], Digit(a[5], Digit(a[6], a[7] as int)))))),
                   b[0], Digit(b[1], Digit(b[2], Digit(b[3], Digit(b[4], Digit(b[5], Digit(b[6], b[7] as int)))))));
    DigitInjective(a[1], Digit(a[2], Digit(a[3], Digit(a[4], Digit(a[5], Digit(a[6], a[7] as int))))),
                   b[1], Digit(b[2], Digit(b[3], Digit(b[4], Digit(b[5], Digit(b[6], b[7] as int))))));
    DigitInjective(a[2], Digit(a[3], Digit(a[4], Digit(a[5], Digit(a[6], a[7] as int)))),
                   b[2], Digit(b[3], Digit(b[4], Digit(b[5], Digit(b[6], b[7] as int)))));
    DigitInjective(a[3], Digit(a[4], Digit(a[5], Digit(a[6], a[7] as int))),
                   b[3], Digit(b[4], Digit(b[5], Digit(b[6], b[7] as int))));
    DigitInjective(a[4], Digit(a[5], Digit(a[6], a[7] as int)), b[4], Digit(b[5], Digit(b[6], b[7] as int)));
    DigitInjective(a[5], Digit(a[6], a[7] as int), b[5], Digit(b[6], b[7] as int));
    DigitInjective(a[6], a[7] as int, b[6], b[7] as int);
    assert a == [a[0], a[1], a[2], a[3], a[4], a[5], a[6], a[7]];
    assert b == [b[0], b[1], b[2], b[3], b[4], b[5], b[6], b[7]];
  }

  /** Two types share a key exactly when every part agrees modulo 256. */
  lemma KeyEqualIff(a: EntityType, b: EntityType)
    ensures Key(a) == Key(b) <==> KeyBytes(a) == KeyBytes(b)
  {
    assert Key(a) == FromBytesLE(KeyBytes(a));
    assert Key(b) == FromBytesLE(KeyBytes(b));
    if Key(a) == Key(b) {
      FromBytesLEInjective(KeyBytes(a), KeyBytes(b));
    }
  }

  /** Country's high byte does not reach the key: two such types collide although they differ. */
  lemma CountryHighByteIgnored()
    ensures Key(EntityType(1, 1, 225, 1, 1, 1, 1)) == Key(EntityType(1, 1, 225 + 0x100, 1, 1, 1, 1))
    ensures EntityType(1, 1, 225, 1, 1, 1, 1) != EntityType(1, 1, 225 + 0x100, 1, 1, 1, 1)
  {
  }

  /** operator< compares the keys; the others derive from it. */
  predicate Less(a: EntityType, b: EntityType) { Key(a) < Key(b) }
  predicate Greater(a: EntityType, b: EntityType) { Less(b, a) }
  predicate LessEq(a: EntityType, b: EntityType) { !Greater(a, b) }
  predicate GreaterEq(a: EntityType, b: EntityType) { !Less(a, b) }

  /**
   * operator< is a strict weak order whose equivalence (neither less than the
   * other) is key equality, which is what an ordered map keyed by it uses.
   */
  lemma LessIsStrictWeakOrder(a: EntityType, b: EntityType, c: EntityType)
    ensures !Less(a, a)
    ensures Less(a, b) && Less(b, c) ==> Less(a, c)
    ensures !Less(a, b) && !Less(b, a) <==> KeyBytes(a) == KeyBytes(b)
    ensures LessEq(a, b) <==> !Less(b, a)
    ensures GreaterEq(a, b) <==> !Greater(b, a)
  {
    KeyEqualIff(a, b);
  }

  /** ToDouble: the eight bytes of the double the type is packed into. */
  function ToDouble(t: EntityType): (b: DoubleImage)
  {
    [Low8(t.extra), Low8(t.specific), Low8(t.subcategory), Low8(t.category),
     Low8(t.country), Low8(t.country / 0x100), Low8(t.domain), Low8(t.kind)]
  }

  /** FEntityType(double): read the parts back from the double's bytes. */
  function FromDouble(b: DoubleImage): (t: EntityType)
  {
    EntityType(b[7], b[6], b[5] as int * 0x100 + b[4] as int, b[3], b[2], b[1], b[0])
  }

  /** Every part is in the range its byte slot can carry. */
  predicate PackedRange(t: EntityType)
  {
    0 <= t.kind < 0x100 && 0 <= t.domain < 0x100 && 0 <= t.country < 0x1_0000 &&
    0 <= t.category < 0x100 && 0 <= t.subcategory < 0x100 && 0 <= t.specific < 0x100 &&
    0 <= t.extra < 0x100
  }

  /** Packing then unpacking gives the type back exactly when every part is in range. */
  lemma DoubleRoundTrip(t: EntityType)
    ensures FromDouble(ToDouble(t)) == t <==> PackedRange(t)
  {
    var r := FromDouble(ToDouble(t));
    if PackedRange(t) {
      assert r.country == (t.country / 0x100) * 0x100 + t.country % 0x100;
    }
  }

  /** Unpacking then packing gives every byte image back. */
  lemma DoubleImageRoundTrip(b: DoubleImage)
    ensures ToDouble(FromDouble(b)) == b
  {
    var t := FromDouble(b);
    assert t.country / 0x100 == b[5];
  }

  /** A wildcard part comes back as 255, a wildcard country as 65535. */
  lemma WildcardsComeBackAsAllOnes()
    ensures FromDouble(ToDouble(DefaultEntityType)) == EntityType(255, 255, 0xFFFF, 255, 255, 255, 255)
  {
  }

  /** Whether the type equals the all-wildcard default. */
  predicate IsDefault(t: EntityType)
  {
    t.kind == -1 && t.domain == -1 && t.country == -1 && t.category == -1 &&
    t.subcategory == -1 && t.specific == -1 && t.extra == -1
  }

  /** ToOpenDIS: the all-wildcard default goes out as zeros, any other type part by part. */
  function ToRecord(t: EntityType): (r: EntityTypeRecord)
    ensures IsDefault(t) ==> r == EntityTypeRecord(0, 0, 0, 0, 0, 0, 0)
    ensures !IsDefault(t) ==>
              r.kind == t.kind % 0x100 && r.domain == t.domain % 0x100 &&
              r.country == t.country % 0x1_0000 && r.category == t.category % 0x100 &&
              r.subcategory == t.subcategory % 0x100 && r.specific == t.specific % 0x100 &&
              r.extra == t.extra % 0x100
  {
    if t == DefaultEntityType then EntityTypeRecord(0, 0, 0, 0, 0, 0, 0)
    else EntityTypeRecord(Low8(t.kind), Low8(t.domain), Low16(t.country), Low8(t.category),
                          Low8(t.subcategory), Low8(t.specific), Low8(t.extra))
  }

  /** The constructor from the DIS record widens each part. */
  function FromRecord(r: EntityTypeRecord): (t: EntityType)
    ensures PackedRange(t) && !IsDefault(t)
  {
    EntityType(r.kind, r.domain, r.country, r.category, r.subcategory, r.specific, r.extra)
  }

  /** Records round-trip; types round-trip when in range and not the default. */
  lemma RecordRoundTrip(t: EntityType, r: EntityTypeRecord)
    ensures ToRecord(FromRecord(r)) == r
    ensures PackedRange(t) ==> FromRecord(ToRecord(t)) == t
  {
  }

  /** A fully wildcarded type is sent as the all-zero record, which reads back as type 0.0.0.0.0.0.0. */
  lemma DefaultDoesNotRoundTrip()
    ensures FromRecord(ToRecord(DefaultEntityType)) == EntityType(0, 0, 0, 0, 0, 0, 0)
  {
  }
}
