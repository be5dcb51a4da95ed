// Shared value types of the DIS runtime: optional values, 3-vectors and
// rotators of reals (the engine's FVector / FRotator), and byte helpers.
module DisBase {

  datatype Option<T> = None | Some(value: T)

  /** An engine FVector; components are modelled as reals. */
  datatype Vec3 = Vec3(x: real, y: real, z: real)

  /** An engine FRotator (Pitch, Yaw, Roll), in radians where the source says so. */
  datatype Rotator = Rotator(pitch: real, yaw: real, roll: real)

  const ZeroVec: Vec3 := Vec3(0.0, 0.0, 0.0)
  const ZeroRotator: Rotator := Rotator(0.0, 0.0, 0.0)

  function Add(a: Vec3, b: Vec3): Vec3 { Vec3(a.x + b.x, a.y + b.y, a.z + b.z) }
  function Scale(a: Vec3, k: real): Vec3 { Vec3(a.x * k, a.y * k, a.z * k) }

  type byte = bv8

  /** The four bytes of a 32-bit word, most significant first. */
  function BigEndian32(w: bv32): seq<byte>
  {
    [(w >> 24) as byte, ((w >> 16) & 0xFF) as byte, ((w >> 8) & 0xFF) as byte, (w & 0xFF) as byte]
  }

  /** The four bytes of a 32-bit word, least significant first. */
  function LittleEndian32(w: bv32): seq<byte>
  {
    [(w & 0xFF) as byte, ((w >> 8) & 0xFF) as byte, ((w >> 16) & 0xFF) as byte, (w >> 24) as byte]
  }

  /** Reassembles a word from four bytes, most significant first. */
  function Word32(b: seq<byte>): bv32
    requires |b| == 4
  {
    (b[0] as bv32 << 24) | (b[1] as bv32 << 16) | (b[2] as bv32 << 8) | b[3] as bv32
  }

  function Reversed<T>(s: seq<T>): (r: seq<T>)
    ensures |r| == |s|
    ensures forall k :: 0 <= k < |s| ==> r[k] == s[|s| - 1 - k]
  {
    if s == [] then [] else Reversed(s[1..]) + [s[0]]
  }

  /** Reverses an array in place. */
  method ReverseInPlace<T>(a: array<T>)
    modifies a
    ensures a[..] == Reversed(old(a[..]))
  {
    var n, i := a.Length, 0;
    while i < n / 2
      invariant 0 <= i <= n / 2
      invariant forall k :: 0 <= k < i ==> a[k] == old(a[n - 1 - k]) && a[n - 1 - k] == old(a[k])
      invariant forall k :: i <= k < n - i ==> a[k] == old(a[k])
    {
      a[i], a[n - 1 - i] := a[n - 1 - i], a[i];
      i := i + 1;
    }
  }

  lemma BigEndianWordRoundTrip(w: bv32)
    ensures Word32(BigEndian32(w)) == w
  {
  }

  lemma ReversedLittleIsBig(w: bv32)
    ensures Reversed(LittleEndian32(w)) == BigEndian32(w)
  {
  }

  /** 2 to the power n. */
  function Pow2(n: nat): (p: nat)
    ensures p >= 1
  {
    if n == 0 then 1 else 2 * Pow2(n - 1)
  }

  /** The powers the appearance and word layouts use. */
  lemma Pow2Table()
    ensures Pow2(2) == 4 && Pow2(3) == 8 && Pow2(8) == 0x100 && Pow2(16) == 0x1_0000 && Pow2(23) == 0x80_0000
  {
    assert Pow2(4) == 0x10;
    assert Pow2(8) == 0x100;
    assert Pow2(12) == 0x1000;
    assert Pow2(16) == 0x1_0000;
    assert Pow2(20) == 0x10_0000;
  }

  /**
   * A 32-bit word as its bits, bit i (of weight 2^i) at index i. Bitwise
   * or, masks and shifts by constants act on it position by position.
   */
  type Word = s: seq<bool> | |s| == 32 witness ZeroWord

  const ZeroWord: seq<bool> := seq(32, i => false)

  /** Bit i of an integer, two's complement for negative values. */
  function BitAt(x: int, i: nat): bool
    decreases i
  {
    if i == 0 then x % 2 == 1 else BitAt(x / 2, i - 1)
  }

  /** The low 32 bits of an integer. */
  function Bits(x: int): (w: Word)
    ensures forall i :: 0 <= i < 32 ==> w[i] == BitAt(x, i)
  {
    seq(32, i requires 0 <= i < 32 => BitAt(x, i))
  }

  /** Bitwise or. */
  function Or(a: Word, b: Word): (r: Word)
    ensures forall i :: 0 <= i < 32 ==> r[i] == (a[i] || b[i])
  {
    seq(32, i requires 0 <= i < 32 => a[i] || b[i])
  }

  /** Shift left by a constant: the top bits fall off, zeros come in. */
  function ShiftLeft(a: Word, k: nat): (r: Word)
    ensures forall i :: 0 <= i < 32 ==> r[i] == (k <= i && a[i - k])
  {
    seq(32, i requires 0 <= i < 32 => k <= i && a[i - k])
  }

  /** Words that agree bit by bit are equal. */
  lemma WordsEqual(u: Word, v: Word)
    requires forall i :: 0 <= i < 32 ==> u[i] == v[i]
    ensures u == v
  {
  }

  /** bool << k: the single bit k when the flag is set. */
  function Flag(b: bool, k: nat): (r: Word)
    requires k < 32
    ensures forall i :: 0 <= i < 32 ==> r[i] == (b && i == k)
  {
    seq(32, i requires 0 <= i < 32 => b && i == k)
  }

  /** (val & (mask << pos)) >> pos for mask = 2^width - 1, as a number. */
  function FieldValue(w: Word, pos: nat, width: nat): (v: nat)
    requires pos + width <= 32
    ensures v < Pow2(width)
    decreases width
  {
    if width == 0 then 0
    else (if w[pos] then 1 else 0) + 2 * FieldValue(w, pos + 1, width - 1)
  }

  /** An int32 is non-negative when its sign bit is clear. */
  predicate NonNegative(w: Word) { !w[31] }

  lemma {:induction false} Pow2Monotone(a: nat, b: nat)
    requires a <= b
    ensures Pow2(a) <= Pow2(b)
    decreases b
  {
    if a < b {
      Pow2Monotone(a, b - 1);
    }
  }

  /** Every bit of 0 is clear. */
  lemma {:induction false} BitAtZero(i: nat)
    ensures !BitAt(0, i)
  {
    if i > 0 {
      BitAtZero(i - 1);
    }
  }

  /** A number below 2^n has no bit at or above n. */
  lemma {:induction false} BitAtAboveWidth(x: nat, n: nat, i: nat)
    requires x < Pow2(n) && n <= i
    ensures !BitAt(x, i)
  {
    if n == 0 {
      BitAtZero(i);
    } else {
      BitAtAboveWidth(x / 2, n - 1, i - 1);
    }
  }

  /** The bits of a field's value are the field's bits, and nothing above them. */
  lemma {:induction false} BitsOfField(w: Word, pos: nat, width: nat)
    requires pos + width <= 32
    ensures forall j :: 0 <= j < 32 ==> Bits(FieldValue(w, pos, width))[j] == (j < width && w[pos + j])
    decreases width
  {
    var v := FieldValue(w, pos, width);
    forall j | 0 <= j < 32
      ensures Bits(v)[j] == (j < width && w[pos + j])
    {
      if j >= width {
        BitAtAboveWidth(v, width, j);
      } else if j > 0 {
        var rest := FieldValue(w, pos + 1, width - 1);
        BitsOfField(w, pos + 1, width - 1);
        assert v / 2 == rest;
        assert Bits(rest)[j - 1] == w[pos + 1 + (j - 1)];
      }
    }
  }
}
