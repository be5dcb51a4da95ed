// FEncodingScheme: the 16-bit encoding scheme of a Signal PDU, a 2-bit
// encoding class above a 14-bit encoding type.
module EncodingSchemes {

  datatype EncodingClass = EncodedAudio | RawBinaryData | ApplicationSpecificData | DatabaseIndex

  /** The encoding type is an 8-bit enumeration; the value is kept even when it has no name. */
  type EncodingTypeValue = x: int | 0 <= x < 0x100

  type UShort = x: int | 0 <= x < 0x1_0000

  datatype EncodingScheme = EncodingScheme(encodingClass: EncodingClass, encodingType: EncodingTypeValue)

  /** The default: encoded audio of type Other. */
  const DefaultEncodingScheme: EncodingScheme := EncodingScheme(EncodedAudio, 0)

  /** The encoding types the enumeration names. */
  predicate NamedEncodingType(t: int)
  {
    0 <= t <= 6 || t == 8 || t == 9 || t == 10 || t == 100
  }

  function ClassValue(c: EncodingClass): (v: nat)
    ensures v < 4
  {
    match c
    case EncodedAudio => 0
    case RawBinaryData => 1
    case ApplicationSpecificData => 2
    case DatabaseIndex => 3
  }

  function ClassFromValue(v: nat): (c: EncodingClass)
    requires v < 4
    ensures ClassValue(c) == v
  {
    if v == 0 then EncodedAudio else if v == 1 then RawBinaryData
    else if v == 2 then ApplicationSpecificData else DatabaseIndex
  }

  /**
   * The constructor from the 16-bit field: the class is the top 2 bits; the
   * type is the low 14 bits, narrowed to the 8-bit enumeration.
   */
  function Decode(s: UShort): (e: EncodingScheme)
    ensures ClassValue(e.encodingClass) == s / 0x4000
    ensures e.encodingType == (s % 0x4000) % 0x100
  {
    EncodingScheme(ClassFromValue(s / 0x4000), (s % 0x4000) % 0x100)
  }

  /** ToOpenDIS: (class << 14) | type. */
  function Encode(e: EncodingScheme): (s: UShort)
    ensures s / 0x4000 == ClassValue(e.encodingClass)
    ensures s % 0x4000 == e.encodingType
  {
    ClassValue(e.encodingClass) * 0x4000 + e.encodingType
  }

  /** Every scheme the struct can hold survives encoding and decoding. */
  lemma EncodeThenDecode(e: EncodingScheme)
    ensures Decode(Encode(e)) == e
  {
    var s := Encode(e);
    assert ClassFromValue(s / 0x4000) == e.encodingClass by {
      assert ClassValue(ClassFromValue(s / 0x4000)) == ClassValue(e.encodingClass);
    }
  }

  /** A 16-bit field survives decoding and encoding exactly when its type fits in 8 bits. */
  lemma DecodeThenEncode(s: UShort)
    ensures Encode(Decode(s)) == s <==> s % 0x4000 < 0x100
  {
  }

  /** In particular every field whose type is a named enumeration value survives. */
  lemma NamedTypesRoundTrip(s: UShort)
    requires NamedEncodingType(s % 0x4000)
    ensures Encode(Decode(s)) == s
  {
    DecodeThenEncode(s);
  }

  /** A type above 255 in the low 14 bits is narrowed: 0x0100 decodes to type 0 and encodes to 0. */
  lemma WideTypeIsNarrowed()
    ensures Decode(0x0100) == DefaultEncodingScheme
    ensures Encode(Decode(0x0100)) == 0
  {
  }
}
