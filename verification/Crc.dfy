/**
 The section checksum, CRC-32/MPEG-2. The 32-bit register is kept as its 32 coefficients
 over GF(2), most significant first, so `crc << 1` drops the first one and the
 test of bit 31 reads it. The register is linear and invertible; from that follow
 the zero residue every PSI reader relies on and the detection of every burst of
 up to four bytes.
 */
module Crc {
  import opened Bytes

  /** Bits to a byte. */
  const OCTET: nat := 8

  type Register = r: seq<bool> | |r| == 32 witness seq(32, _ => false)

  function Pow2(n: nat): nat {
    if n == 0 then 1 else 2 * Pow2(n - 1)
  }

  /** The low `n` bits of `v`, most significant first. */
  function Binary(v: nat, n: nat): (s: seq<bool>)
    ensures |s| == n
  {
    if n == 0 then [] else Binary(v / 2, n - 1) + [v % 2 == 1]
  }

  function Value(s: seq<bool>): (v: nat)
    ensures v < Pow2(|s|)
  {
    if s == [] then 0 else 2 * Value(s[..|s| - 1]) + if s[|s| - 1] then 1 else 0
  }

  function Bits(b: byte): seq<bool> {
    Binary(b, OCTET)
  }

  function Octet(s: seq<bool>): byte
    requires |s| == 8
  {
    Value(s)
  }

  function Zeros(n: nat): seq<bool> {
    seq(n, _ => false)
  }

  function Xor(a: seq<bool>, b: seq<bool>): (c: seq<bool>)
    requires |a| == |b|
    ensures |c| == |a|
  {
    seq(|a|, i requires 0 <= i < |a| => a[i] != b[i])
  }

  function POLYNOMIAL(): Register {
    Bits(0x04) + Bits(0xC1) + Bits(0x1D) + Bits(0xB7)
  }

  function ALL_ONES(): Register {
    seq(32, _ => true)
  }

  /** `u32::to_be_bytes`. */
  function BE32(r: Register): seq<byte> {
    [Octet(r[..8]), Octet(r[8..16]), Octet(r[16..24]), Octet(r[24..])]
  }

  /** `u32::from_be_bytes`. */
  function FromBE32(a: byte, b: byte, c: byte, d: byte): Register {
    Bits(a) + Bits(b) + Bits(c) + Bits(d)
  }

  /** One turn of the shift register. */
  function ShiftBit(crc: Register): Register {
    var shifted := crc[1..] + [false];
    if crc[0] then Xor(shifted, POLYNOMIAL()) else shifted
  }

  function ShiftBits(crc: Register, n: nat): Register {
    if n == 0 then crc else ShiftBit(ShiftBits(crc, n - 1))
  }

  /** Eight coefficients `n` places below the top of an otherwise clear register. */
  function Place(v: seq<bool>, n: nat): Register
    requires |v| == 8 && n <= 24
  {
    Zeros(n) + v + Zeros(24 - n)
  }

  /** `crc ^ (byte << 24)`. */
  function XorTop(crc: Register, b: byte): Register {
    Xor(crc, Place(Bits(b), 0))
  }

  function Absorb(crc: Register, b: byte): Register {
    ShiftBits(XorTop(crc, b), OCTET)
  }

  /** The register after `data`, started from `crc`. */
  function CrcFrom(crc: Register, data: seq<byte>): Register {
    if data == [] then crc else Absorb(CrcFrom(crc, data[..|data| - 1]), data[|data| - 1])
  }

  function Checksum(data: seq<byte>): Register {
    CrcFrom(ALL_ONES(), data)
  }

  method Crc32Mpeg2(data: seq<byte>) returns (crc: Register)
    ensures crc == Checksum(data)
  {
    crc := ALL_ONES();
    for i := 0 to |data|
      invariant crc == CrcFrom(ALL_ONES(), data[..i])
    {
      crc := XorTop(crc, data[i]);
      ghost var loaded := crc;
      for k := 0 to OCTET
        invariant crc == ShiftBits(loaded, k)
      {
        var shifted := crc[1..] + [false];
        crc := if crc[0] then Xor(shifted, POLYNOMIAL()) else shifted;
      }
      assert data[..i + 1][..i] == data[..i];
    }
    assert data[..|data|] == data;
  }

  // ---------------------------------------------------------------- octets

  lemma {:induction false} BinaryValue(s: seq<bool>)
    ensures Binary(Value(s), |s|) == s
  {
    if s != [] {
      BinaryValue(s[..|s| - 1]);
    }
  }

  lemma {:induction false} ValueBinary(v: nat, n: nat)
    requires v < Pow2(n)
    ensures Value(Binary(v, n)) == v
  {
    if n > 0 {
      ValueBinary(v / 2, n - 1);
    }
  }

  lemma BitsOctet(s: seq<bool>)
    requires |s| == 8
    ensures Bits(Octet(s)) == s
  {
    BinaryValue(s);
  }

  lemma BE32RoundTrip(r: Register)
    ensures var o := BE32(r); FromBE32(o[0], o[1], o[2], o[3]) == r
  {
    BitsOctet(r[..8]);
    BitsOctet(r[8..16]);
    BitsOctet(r[16..24]);
    BitsOctet(r[24..]);
    assert r == r[..8] + r[8..16] + r[16..24] + r[24..];
  }

  // ------------------------------------- the register is linear and invertible

  lemma XorCancels(a: seq<bool>, w: seq<bool>)
    requires |a| == |w|
    ensures Xor(Xor(a, w), w) == a
    ensures Xor(w, Xor(w, a)) == a
  {
  }

  lemma XorAssociates(a: seq<bool>, b: seq<bool>, c: seq<bool>)
    requires |a| == |b| == |c|
    ensures Xor(Xor(a, b), c) == Xor(a, Xor(b, c))
  {
  }

  lemma ShiftBitLinear(a: Register, b: Register)
    ensures ShiftBit(Xor(a, b)) == Xor(ShiftBit(a), ShiftBit(b))
  {
    var p := POLYNOMIAL();
    assert Xor(a, b)[1..] + [false] == Xor(a[1..] + [false], b[1..] + [false]);
  }

  lemma {:induction false} ShiftLinear(a: Register, b: Register, n: nat)
    ensures ShiftBits(Xor(a, b), n) == Xor(ShiftBits(a, n), ShiftBits(b, n))
  {
    if n > 0 {
      ShiftLinear(a, b, n - 1);
      ShiftBitLinear(ShiftBits(a, n - 1), ShiftBits(b, n - 1));
    }
  }

  /** The register turned back by one: the last coefficient says which way it went. */
  function UnshiftBit(s: Register): Register {
    [s[31]] + (if s[31] then Xor(s, POLYNOMIAL()) else s)[..31]
  }

  lemma PolynomialIsOdd()
    ensures POLYNOMIAL()[31]
  {
    assert Bits(0xB7)[7];
  }

  lemma UnshiftUndoesShift(a: Register)
    ensures UnshiftBit(ShiftBit(a)) == a
  {
    var shifted := a[1..] + [false];
    XorCancels(shifted, POLYNOMIAL());
    PolynomialIsOdd();
    assert shifted[..31] == a[1..];
  }

  lemma {:induction false} ShiftInjective(a: Register, b: Register, n: nat)
    requires ShiftBits(a, n) == ShiftBits(b, n)
    ensures a == b
  {
    if n > 0 {
      UnshiftUndoesShift(ShiftBits(a, n - 1));
      UnshiftUndoesShift(ShiftBits(b, n - 1));
      ShiftInjective(a, b, n - 1);
    }
  }

  lemma {:induction false} ShiftAdd(c: Register, m: nat, n: nat)
    ensures ShiftBits(ShiftBits(c, m), n) == ShiftBits(c, m + n)
  {
    hide ShiftBit;
    if n > 0 {
      ShiftAdd(c, m, n - 1);
    }
  }

  /** Nothing reaches the feedback tap while the leading coefficients are clear. */
  lemma {:induction false} ShiftClear(z: Register, n: nat)
    requires n <= 32 && forall i :: 0 <= i < n ==> !z[i]
    ensures ShiftBits(z, n) == z[n..] + Zeros(n)
  {
    if n > 0 {
      ShiftClear(z, n - 1);
    }
  }

  lemma {:induction false} CrcConcat(c: Register, a: seq<byte>, b: seq<byte>)
    ensures CrcFrom(c, a + b) == CrcFrom(CrcFrom(c, a), b)
  {
    if b == [] {
      assert a + b == a;
    } else {
      var n := |b| - 1;
      assert (a + b)[..|a + b| - 1] == a + b[..n];
      CrcConcat(c, a, b[..n]);
    }
  }

  // -------------------------------------------------- four bytes at a time

  function AllBits(x: seq<byte>): (s: seq<bool>)
    ensures |s| == 8 * |x|
  {
    if x == [] then [] else AllBits(x[..|x| - 1]) + Bits(x[|x| - 1])
  }

  /** Up to four bytes, left-aligned in a big-endian word. */
  function Word(x: seq<byte>): Register
    requires |x| <= 4
  {
    AllBits(x) + Zeros(32 - 8 * |x|)
  }

  /** Absorbing up to four bytes is one xor followed by a plain run of shifts. */
  lemma {:induction false} AbsorbWord(c: Register, x: seq<byte>)
    requires |x| <= 4
    ensures CrcFrom(c, x) == ShiftBits(Xor(c, Word(x)), 8 * |x|)
  {
    hide Absorb, Word, Xor, ShiftBits;
    if x == [] {
      AbsorbNothing(c);
    } else {
      var k := |x| - 1;
      AbsorbWord(c, x[..k]);
      AbsorbOne(c, x[..k], x[k]);
      assert x[..k] + [x[k]] == x;
    }
  }

  lemma AbsorbNothing(c: Register)
    ensures ShiftBits(Xor(c, Word([])), 0) == c
  {
    assert Xor(c, Word([])) == c;
  }

  lemma PlacedByte(y: seq<byte>, b: byte)
    requires |y| <= 3
    ensures Xor(Word(y), Place(Bits(b), 8 * |y|)) == Word(y + [b])
  {
    assert (y + [b])[..|y|] == y;
  }

  /** Eight coefficients `n` places down reach the top after `n` shifts. */
  lemma Rises(v: seq<bool>, n: nat)
    requires |v| == 8 && n <= 24
    ensures ShiftBits(Place(v, n), n) == Place(v, 0)
  {
    ShiftClear(Place(v, n), n);
  }

  lemma XorLate(c: Register, u: Register, p: Register, n: nat)
    ensures Xor(ShiftBits(Xor(c, u), n), ShiftBits(p, n)) == ShiftBits(Xor(c, Xor(u, p)), n)
  {
    ShiftLinear(Xor(c, u), p, n);
    XorAssociates(c, u, p);
  }

  lemma AbsorbPlaced(c: Register, u: Register, v: seq<bool>, n: nat)
    requires |v| == 8 && n <= 24
    ensures ShiftBits(Xor(ShiftBits(Xor(c, u), n), Place(v, 0)), OCTET)
         == ShiftBits(Xor(c, Xor(u, Place(v, n))), n + OCTET)
  {
    Rises(v, n);
    XorLate(c, u, Place(v, n), n);
    ShiftAdd(Xor(c, Xor(u, Place(v, n))), n, OCTET);
  }

  lemma AbsorbOne(c: Register, y: seq<byte>, b: byte)
    requires |y| <= 3
    ensures Absorb(ShiftBits(Xor(c, Word(y)), 8 * |y|), b)
         == ShiftBits(Xor(c, Word(y + [b])), 8 * |y| + 8)
  {
    hide ShiftBits, Xor, Word, Place;
    AbsorbPlaced(c, Word(y), Bits(b), 8 * |y|);
    PlacedByte(y, b);
  }

  lemma WordIsBigEndian(x: seq<byte>)
    requires |x| == 4
    ensures Word(x) == FromBE32(x[0], x[1], x[2], x[3])
  {
    assert x[..3][..2] == x[..2] && x[..2][..1] == x[..1] && x[..1][..0] == [];
    assert AllBits(x[..1]) == Bits(x[0]);
    assert AllBits(x[..2]) == AllBits(x[..1]) + Bits(x[1]);
    assert AllBits(x[..3]) == AllBits(x[..2]) + Bits(x[2]);
  }

  lemma {:induction false} AllBitsInjective(x: seq<byte>, y: seq<byte>)
    requires |x| == |y| && AllBits(x) == AllBits(y)
    ensures x == y
  {
    if x != [] {
      var k := |x| - 1;
      assert AllBits(x)[..8 * k] == AllBits(x[..k]) && AllBits(y)[..8 * k] == AllBits(y[..k]);
      assert AllBits(x)[8 * k..] == Bits(x[k]) && AllBits(y)[8 * k..] == Bits(y[k]);
      ValueBinary(x[k], OCTET);
      ValueBinary(y[k], OCTET);
      AllBitsInjective(x[..k], y[..k]);
      assert x == x[..k] + [x[k]] && y == y[..k] + [y[k]];
    }
  }

  lemma {:induction false} RegisterInjective(a: Register, b: Register, data: seq<byte>)
    requires CrcFrom(a, data) == CrcFrom(b, data)
    ensures a == b
  {
    if data != [] {
      var n := |data| - 1;
      var w := Place(Bits(data[n]), 0);
      var ra, rb := CrcFrom(a, data[..n]), CrcFrom(b, data[..n]);
      ShiftInjective(Xor(ra, w), Xor(rb, w), OCTET);
      XorCancels(ra, w);
      XorCancels(rb, w);
      RegisterInjective(a, b, data[..n]);
    }
  }

  // ------------------------------------------------------------ main results

  /** A section followed by its own checksum always leaves the register at zero. */
  lemma ResidueIsZero(section: seq<byte>)
    ensures Checksum(section + BE32(Checksum(section))) == Zeros(32)
  {
    hide CrcFrom, ShiftBits, FromBE32, Word;
    var c := Checksum(section);
    CrcConcat(ALL_ONES(), section, BE32(c));
    AbsorbWord(c, BE32(c));
    WordIsBigEndian(BE32(c));
    BE32RoundTrip(c);
    assert Xor(c, c) == Zeros(32);
    ShiftClear(Zeros(32), 32);
  }

  /**
   Two messages of equal length that differ only inside a window of at most four
   consecutive bytes never share a checksum.
   */
  lemma BurstDetected(before: seq<byte>, x: seq<byte>, y: seq<byte>, after: seq<byte>)
    requires |x| == |y| <= 4
    requires x != y
    ensures Checksum(before + x + after) != Checksum(before + y + after)
  {
    if Checksum(before + x + after) == Checksum(before + y + after) {
      var c := Checksum(before);
      CrcConcat(ALL_ONES(), before + x, after);
      CrcConcat(ALL_ONES(), before + y, after);
      RegisterInjective(CrcFrom(ALL_ONES(), before + x), CrcFrom(ALL_ONES(), before + y), after);
      CrcConcat(ALL_ONES(), before, x);
      CrcConcat(ALL_ONES(), before, y);
      AbsorbWord(c, x);
      AbsorbWord(c, y);
      ShiftInjective(Xor(c, Word(x)), Xor(c, Word(y)), 8 * |x|);
      XorCancels(Word(x), c);
      XorCancels(Word(y), c);
      assert AllBits(x) == Word(x)[..8 * |x|] && AllBits(y) == Word(y)[..8 * |y|];
      AllBitsInjective(x, y);
    }
  }
}
