/**
 The section checksum as arithmetic: the remainder of a polynomial division over GF(2)
 that knows nothing of shift registers, and the register's steps as steps on numbers,
 with the values the standard and its catalogues give.
 */
module CrcDivision {
  import opened Bytes
  import opened Crc

  // ------------------------------------------------------------ long division

  /** The generator's 33 coefficients, highest power first. */
  function Generator(): (g: seq<bool>)
    ensures |g| == 33
  {
    seq(33, i requires 0 <= i < 33 => 32 - i in {32, 26, 23, 22, 16, 12, 11, 10, 8, 7, 5, 4, 2, 1, 0})
  }

  /** The generator taken from the leading coefficients. */
  function Reduced(a: seq<bool>): (b: seq<bool>)
    requires |a| >= 33
    ensures |b| == |a|
  {
    Xor(a[..33], Generator()) + a[33..]
  }

  /** Long division: as long as there is a power above the 31st, cancel it. */
  function Remainder(a: seq<bool>): (r: seq<bool>)
    requires |a| >= 32
    ensures |r| == 32
    decreases |a|
  {
    if |a| == 32 then a else if a[0] then Remainder(Reduced(a)[1..]) else Remainder(a[1..])
  }

  /** A message with its first 32 coefficients complemented. */
  function Complemented(a: seq<bool>): (b: seq<bool>)
    requires |a| >= 32
    ensures |b| == |a|
  {
    seq(|a|, i requires 0 <= i < |a| => if i < 32 then !a[i] else a[i])
  }

  /** The first 32 coefficients of `m`, with the register added. */
  function Loaded(c: Register, m: seq<bool>): (a: seq<bool>)
    requires |m| >= 32
    ensures |a| == |m|
  {
    Xor(c, m[..32]) + m[32..]
  }

  /** One coefficient alone on top of the register. */
  function OnTop(b: bool): Register {
    [b] + Zeros(31)
  }

  lemma TopOctet()
    ensures Generator()[1..9] == Bits(0x04)
  {
    assert Bits(0x04) == [false, false, false, false, false, true, false, false];
    assert Generator()[1..9] == [false, false, false, false, false, true, false, false];
  }

  lemma UpperOctet()
    ensures Generator()[9..17] == Bits(0xC1)
  {
    assert Bits(0xC1) == [true, true, false, false, false, false, false, true];
    assert Generator()[9..17] == [true, true, false, false, false, false, false, true];
  }

  lemma LowerOctet()
    ensures Generator()[17..25] == Bits(0x1D)
  {
    assert Bits(0x1D) == [false, false, false, true, true, true, false, true];
    assert Generator()[17..25] == [false, false, false, true, true, true, false, true];
  }

  lemma LowOctet()
    ensures Generator()[25..33] == Bits(0xB7)
  {
    assert Bits(0xB7) == [true, false, true, true, false, true, true, true];
    assert Generator()[25..33] == [true, false, true, true, false, true, true, true];
  }

  lemma PolynomialIsGenerator()
    ensures POLYNOMIAL() == Generator()[1..] && Generator()[0]
  {
    var g := Generator();
    assert g[0];
    hide Generator, Bits;
    TopOctet();
    UpperOctet();
    LowerOctet();
    LowOctet();
    assert g[1..] == g[1..9] + g[9..17] + g[17..25] + g[25..33];
  }

  /** One turn of the register, with the next coefficient of the message coming in. */
  lemma TurnedBits(c: Register, m: seq<bool>)
    requires |m| >= 33
    ensures var turned := ShiftBit(Xor(c, OnTop(m[0])));
      var leads := c[0] != m[0];
      |turned| == 32 && forall i :: 0 <= i < 32 ==>
        turned[i] == ((if i < 31 then c[i + 1] else false) != (leads && POLYNOMIAL()[i]))
  {
    hide POLYNOMIAL;
    var x := Xor(c, OnTop(m[0]));
    assert x[0] == (c[0] != m[0]);
    assert x[1..] == c[1..];
  }

  lemma LoadedBits(c: Register, m: seq<bool>)
    requires |m| >= 33
    ensures var a := Loaded(c, m);
      && a[0] == (c[0] != m[0])
      && (forall i :: 0 <= i < 32 ==> a[1..][i] == if i < 31 then c[i + 1] != m[i + 1] else m[32])
      && a[1..][32..] == m[33..]
  {
  }

  /** One step of the division is one turn of the register. */
  lemma DivisionStep(c: Register, m: seq<bool>)
    requires |m| >= 33
    ensures Remainder(Loaded(c, m)) == Remainder(Loaded(ShiftBit(Xor(c, OnTop(m[0]))), m[1..]))
  {
    hide Loaded, Xor, ShiftBit, Reduced;
    NextLoaded(c, m);
  }

  lemma NextLoaded(c: Register, m: seq<bool>)
    requires |m| >= 33
    ensures var a := Loaded(c, m);
      Loaded(ShiftBit(Xor(c, OnTop(m[0]))), m[1..]) == if a[0] then Reduced(a)[1..] else a[1..]
  {
    hide Loaded, Xor, ShiftBit, POLYNOMIAL, Generator, Reduced;
    PolynomialIsGenerator();
    TurnedBits(c, m);
    LoadedBits(c, m);
    var a := Loaded(c, m);
    NextBits(ShiftBit(Xor(c, OnTop(m[0]))), m);
    ReducedBits(a);
  }

  lemma NextBits(turned: Register, m: seq<bool>)
    requires |m| >= 33
    ensures var next := Loaded(turned, m[1..]);
      && |next| == |m| - 1
      && (forall i :: 0 <= i < 32 ==> next[i] == (turned[i] != m[i + 1]))
      && (forall i :: 32 <= i < |next| ==> next[i] == m[i + 1])
  {
  }

  lemma ReducedBits(a: seq<bool>)
    requires |a| >= 33
    ensures var r := Reduced(a)[1..];
      && |r| == |a| - 1
      && (forall i :: 0 <= i < 32 ==> r[i] == (a[i + 1] != Generator()[i + 1]))
      && (forall i :: 32 <= i < |r| ==> r[i] == a[i + 1])
  {
    hide Generator;
  }

  /** Feeding coefficients one at a time is loading them all and shifting. */
  function Inject(c: Register, bits: seq<bool>): Register {
    if bits == [] then c else ShiftBit(Xor(Inject(c, bits[..|bits| - 1]), OnTop(bits[|bits| - 1])))
  }

  lemma {:induction false} InjectLoads(c: Register, bits: seq<bool>)
    requires |bits| <= 32
    ensures Inject(c, bits) == ShiftBits(Xor(c, bits + Zeros(32 - |bits|)), |bits|)
    decreases |bits|
  {
    hide ShiftBit, ShiftBits, Xor;
    var n := |bits| - 1;
    if bits == [] {
      NothingLoaded(c);
    } else {
      var u, w := bits[..n] + Zeros(32 - n), Zeros(n) + [bits[n]] + Zeros(31 - n);
      InjectLoads(c, bits[..n]);
      CoefficientRises(bits[n], n);
      ShiftLinear(Xor(c, u), w, n);
      XorAssociates(c, u, w);
      CoefficientJoins(bits);
      ShiftsOnce(Xor(c, bits + Zeros(31 - n)), n);
    }
  }

  lemma NothingLoaded(c: Register)
    ensures ShiftBits(Xor(c, [] + Zeros(32)), 0) == c
  {
    assert Xor(c, [] + Zeros(32)) == c;
  }

  lemma ShiftsOnce(c: Register, n: nat)
    ensures ShiftBit(ShiftBits(c, n)) == ShiftBits(c, n + 1)
  {
  }

  lemma CoefficientRises(b: bool, n: nat)
    requires n <= 31
    ensures ShiftBits(Zeros(n) + [b] + Zeros(31 - n), n) == OnTop(b)
  {
    ShiftClear(Zeros(n) + [b] + Zeros(31 - n), n);
  }

  lemma CoefficientJoins(bits: seq<bool>)
    requires 0 < |bits| <= 32
    ensures var n := |bits| - 1;
      Xor(bits[..n] + Zeros(32 - n), Zeros(n) + [bits[n]] + Zeros(31 - n)) == bits + Zeros(31 - n)
  {
  }

  /** Any number of division steps at once. */
  lemma {:induction false} DivisionSteps(c: Register, m: seq<bool>, n: nat)
    requires n + 32 <= |m|
    ensures Remainder(Loaded(c, m)) == Remainder(Loaded(Inject(c, m[..n]), m[n..]))
    decreases n
  {
    hide ShiftBit, Xor, Remainder, Loaded;
    if n == 0 {
      assert m[0..] == m && m[..0] == [];
    } else {
      DivisionSteps(c, m, n - 1);
      DivisionStep(Inject(c, m[..n - 1]), m[n - 1..]);
      assert m[..n][..n - 1] == m[..n - 1] && m[n - 1..][1..] == m[n..];
    }
  }

  lemma FirstByte(data: seq<byte>)
    requires data != []
    ensures AllBits(data) == Bits(data[0]) + AllBits(data[1..])
  {
    AllBitsConcat([data[0]], data[1..]);
    assert [data[0]] + data[1..] == data;
    assert [data[0]][..0] == [];
    assert AllBits([data[0]]) == Bits(data[0]);
  }

  lemma {:induction false} AllBitsConcat(x: seq<byte>, y: seq<byte>)
    ensures AllBits(x + y) == AllBits(x) + AllBits(y)
  {
    hide Bits;
    if y == [] {
      assert x + y == x;
    } else {
      assert (x + y)[..|x + y| - 1] == x + y[..|y| - 1];
      AllBitsConcat(x, y[..|y| - 1]);
    }
  }

  /** Absorbing a byte is eight steps. */
  lemma AbsorbInjects(c: Register, b: byte)
    ensures Absorb(c, b) == Inject(c, Bits(b))
  {
    InjectLoads(c, Bits(b));
    assert Place(Bits(b), 0) == Bits(b) + Zeros(24);
  }

  /** The register over a message is the remainder of the message with the register added in front. */
  lemma {:induction false} RegisterIsRemainder(c: Register, data: seq<byte>)
    ensures CrcFrom(c, data) == Remainder(Loaded(c, AllBits(data) + Zeros(32)))
    decreases |data|
  {
    hide Absorb, Xor, Inject, Bits;
    var m := AllBits(data) + Zeros(32);
    if data == [] {
      assert Loaded(c, m) == c by { ZerosLoad(c); }
    } else {
      FirstByte(data);
      CrcConcat(c, [data[0]], data[1..]);
      assert [data[0]] + data[1..] == data;
      OneAbsorbed(c, data[0]);
      AbsorbInjects(c, data[0]);
      DivisionSteps(c, m, OCTET);
      assert m[..OCTET] == Bits(data[0]) && m[OCTET..] == AllBits(data[1..]) + Zeros(32);
      RegisterIsRemainder(Absorb(c, data[0]), data[1..]);
    }
  }

  lemma ZerosLoad(c: Register)
    ensures Loaded(c, AllBits([]) + Zeros(32)) == c
  {
    assert AllBits([]) + Zeros(32) == Zeros(32);
  }

  lemma OneAbsorbed(c: Register, b: byte)
    ensures CrcFrom(c, [b]) == Absorb(c, b)
  {
    hide Absorb;
    assert [b][..0] == [];
    assert CrcFrom(c, []) == c;
  }

  /**
   What the checksum is: the remainder, by the generator of degree 32, of the data with
   32 zero coefficients behind it and its first 32 complemented.
   */
  lemma ChecksumIsRemainder(data: seq<byte>)
    ensures Checksum(data) == Remainder(Complemented(AllBits(data) + Zeros(32)))
  {
    var a := AllBits(data) + Zeros(32);
    assert Loaded(ALL_ONES(), a) == Complemented(a);
    RegisterIsRemainder(ALL_ONES(), data);
  }

  // ------------------------------------------------------------ on machine words

  /** A register as four octets. */
  datatype Word32 = Quad(a: bv8, b: bv8, c: bv8, d: bv8)

  function High(v: bv8): (s: seq<bool>)
    ensures |s| == 4
  {
    [v & 0x80 != 0, v & 0x40 != 0] + [v & 0x20 != 0, v & 0x10 != 0]
  }

  function Low(v: bv8): (s: seq<bool>)
    ensures |s| == 4
  {
    [v & 8 != 0, v & 4 != 0] + [v & 2 != 0, v & 1 != 0]
  }

  function Of8(v: bv8): (s: seq<bool>)
    ensures |s| == 8
  {
    High(v) + Low(v)
  }

  function Of(w: Word32): Register {
    Of8(w.a) + Of8(w.b) + Of8(w.c) + Of8(w.d)
  }

  function Plus(v: Word32, w: Word32): Word32 {
    Quad(v.a ^ w.a, v.b ^ w.b, v.c ^ w.c, v.d ^ w.d)
  }

  function Doubled(w: Word32): Word32 {
    Quad((w.a << 1) | (w.b >> 7), (w.b << 1) | (w.c >> 7), (w.c << 1) | (w.d >> 7), w.d << 1)
  }

  /** One turn of the register, octet by octet. */
  function Turn(w: Word32): Word32 {
    if w.a & 0x80 != 0 then Plus(Doubled(w), Quad(0x04, 0xC1, 0x1D, 0xB7)) else Doubled(w)
  }

  function Turns8(w: Word32): Word32 {
    Turn(Turn(Turn(Turn(Turn(Turn(Turn(Turn(w))))))))
  }

  lemma XorBits(v: bv8, w: bv8)
    ensures (v ^ w) & 0x80 != 0 <==> (v & 0x80 != 0) != (w & 0x80 != 0)
    ensures (v ^ w) & 0x40 != 0 <==> (v & 0x40 != 0) != (w & 0x40 != 0)
    ensures (v ^ w) & 0x20 != 0 <==> (v & 0x20 != 0) != (w & 0x20 != 0)
    ensures (v ^ w) & 0x10 != 0 <==> (v & 0x10 != 0) != (w & 0x10 != 0)
    ensures (v ^ w) & 8 != 0 <==> (v & 8 != 0) != (w & 8 != 0)
    ensures (v ^ w) & 4 != 0 <==> (v & 4 != 0) != (w & 4 != 0)
    ensures (v ^ w) & 2 != 0 <==> (v & 2 != 0) != (w & 2 != 0)
    ensures (v ^ w) & 1 != 0 <==> (v & 1 != 0) != (w & 1 != 0)
  {
  }

  lemma XorSnoc(a: seq<bool>, b: seq<bool>, x: bool, y: bool)
    requires |a| == |b|
    ensures Xor(a + [x], b + [y]) == Xor(a, b) + [x != y]
  {
  }

  lemma XorTwo(a: bool, b: bool, a': bool, b': bool)
    ensures Xor([a, b], [a', b']) == [a != a', b != b']
  {
    var x := Xor([a, b], [a', b']);
    assert x[0] == (a != a') && x[1] == (b != b');
  }

  lemma XorPairs(a: seq<bool>, b: seq<bool>, c: seq<bool>, d: seq<bool>, x: seq<bool>, y: seq<bool>)
    requires |a| == |c| && |b| == |d| && Xor(a, c) == x && Xor(b, d) == y
    ensures Xor(a + b, c + d) == x + y
  {
    hide Xor;
    XorParts(a, b, c, d);
  }

  lemma XorHigh(v: bv8, w: bv8)
    ensures High(v ^ w) == Xor(High(v), High(w))
  {
    hide Xor;
    XorBits(v, w);
    XorTwo(v & 0x80 != 0, v & 0x40 != 0, w & 0x80 != 0, w & 0x40 != 0);
    XorTwo(v & 0x20 != 0, v & 0x10 != 0, w & 0x20 != 0, w & 0x10 != 0);
    XorPairs([v & 0x80 != 0, v & 0x40 != 0], [v & 0x20 != 0, v & 0x10 != 0],
             [w & 0x80 != 0, w & 0x40 != 0], [w & 0x20 != 0, w & 0x10 != 0],
             [(v ^ w) & 0x80 != 0, (v ^ w) & 0x40 != 0], [(v ^ w) & 0x20 != 0, (v ^ w) & 0x10 != 0]);
  }

  lemma XorLow(v: bv8, w: bv8)
    ensures Low(v ^ w) == Xor(Low(v), Low(w))
  {
    hide Xor;
    XorBits(v, w);
    XorTwo(v & 8 != 0, v & 4 != 0, w & 8 != 0, w & 4 != 0);
    XorTwo(v & 2 != 0, v & 1 != 0, w & 2 != 0, w & 1 != 0);
    XorPairs([v & 8 != 0, v & 4 != 0], [v & 2 != 0, v & 1 != 0], [w & 8 != 0, w & 4 != 0], [w & 2 != 0, w & 1 != 0],
             [(v ^ w) & 8 != 0, (v ^ w) & 4 != 0], [(v ^ w) & 2 != 0, (v ^ w) & 1 != 0]);
  }

  lemma XorOctets(v: bv8, w: bv8)
    ensures Of8(v ^ w) == Xor(Of8(v), Of8(w))
  {
    hide Xor, High, Low;
    XorHigh(v, w);
    XorLow(v, w);
    XorPairs(High(v), Low(v), High(w), Low(w), High(v ^ w), Low(v ^ w));
  }

  lemma XorParts(a: seq<bool>, b: seq<bool>, c: seq<bool>, d: seq<bool>)
    requires |a| == |c| && |b| == |d|
    ensures Xor(a + b, c + d) == Xor(a, c) + Xor(b, d)
  {
  }

  lemma XorFour(
      a: seq<bool>, b: seq<bool>, c: seq<bool>, d: seq<bool>,
      a': seq<bool>, b': seq<bool>, c': seq<bool>, d': seq<bool>,
      x: seq<bool>, y: seq<bool>, z: seq<bool>, t: seq<bool>)
    requires |a| == |a'| && |b| == |b'| && |c| == |c'| && |d| == |d'|
    requires Xor(a, a') == x && Xor(b, b') == y && Xor(c, c') == z && Xor(d, d') == t
    ensures Xor(a + b + c + d, a' + b' + c' + d') == x + y + z + t
  {
    hide Xor;
    XorPairs(a, b, a', b', x, y);
    XorPairs(a + b, c, a' + b', c', x + y, z);
    XorPairs(a + b + c, d, a' + b' + c', d', x + y + z, t);
  }

  lemma PlusIsXor(v: Word32, w: Word32)
    ensures Of(Plus(v, w)) == Xor(Of(v), Of(w))
  {
    hide Of8, Xor;
    XorOctets(v.a, w.a);
    XorOctets(v.b, w.b);
    XorOctets(v.c, w.c);
    XorOctets(v.d, w.d);
    var p := Plus(v, w);
    XorFour(Of8(v.a), Of8(v.b), Of8(v.c), Of8(v.d), Of8(w.a), Of8(w.b), Of8(w.c), Of8(w.d),
            Of8(p.a), Of8(p.b), Of8(p.c), Of8(p.d));
  }

  lemma DoubledBits(v: bv8, w: bv8)
    ensures var x := (v << 1) | (w >> 7);
      && (x & 0x80 != 0 <==> v & 0x40 != 0) && (x & 0x40 != 0 <==> v & 0x20 != 0)
      && (x & 0x20 != 0 <==> v & 0x10 != 0) && (x & 0x10 != 0 <==> v & 8 != 0)
      && (x & 8 != 0 <==> v & 4 != 0) && (x & 4 != 0 <==> v & 2 != 0)
      && (x & 2 != 0 <==> v & 1 != 0) && (x & 1 != 0 <==> w & 0x80 != 0)
  {
  }

  lemma Regroup(a: bool, b: bool, c: bool, d: bool, e: bool, f: bool, g: bool, h: bool, i: bool)
    ensures ([a, b] + [c, d] + ([e, f] + [g, h]))[1..] + [i] == [b, c] + [d, e] + ([f, g] + [h, i])
  {
    HalfShifted(a, b, c, d);
    HalfShifted(e, f, g, h);
    HalfJoined(b, c, d, e);
    HalfJoined(f, g, h, i);
    Shifted([a, b] + [c, d], [e, f] + [g, h]);
    assert [e] + [f, g, h] == [e, f, g, h];
  }

  lemma HalfShifted(a: bool, b: bool, c: bool, d: bool)
    ensures [a, b] + [c, d] == [a, b, c, d]
    ensures ([a, b] + [c, d])[1..] == [b, c, d]
  {
  }

  lemma HalfJoined(b: bool, c: bool, d: bool, e: bool)
    ensures [b, c, d] + [e] == [b, c] + [d, e]
  {
  }

  lemma Shifted(s: seq<bool>, t: seq<bool>)
    requires s != [] && t != []
    ensures (s + t)[1..] == s[1..] + [t[0]] + t[1..]
  {
  }

  lemma DoubledOctet(v: bv8, w: bv8)
    ensures Of8((v << 1) | (w >> 7)) == Of8(v)[1..] + [Of8(w)[0]]
  {
    DoubledBits(v, w);
    Regroup(v & 0x80 != 0, v & 0x40 != 0, v & 0x20 != 0, v & 0x10 != 0, v & 8 != 0, v & 4 != 0, v & 2 != 0, v & 1 != 0,
            w & 0x80 != 0);
  }

  lemma LastOctet(v: bv8)
    ensures Of8(v << 1) == Of8(v)[1..] + [false]
  {
    DoubledOctet(v, 0);
    assert v << 1 == (v << 1) | ((0 as bv8) >> 7);
    hide Of8;
    assert !Of8(0)[0] by { ZeroLead(); }
  }

  lemma ZeroLead()
    ensures !Of8(0)[0]
  {
  }

  lemma FourShifted(a: seq<bool>, b: seq<bool>, c: seq<bool>, d: seq<bool>)
    requires |a| == |b| == |c| == |d| == 8
    ensures (a + b + c + d)[1..] + [false]
         == (a[1..] + [b[0]]) + (b[1..] + [c[0]]) + (c[1..] + [d[0]]) + (d[1..] + [false])
  {
    assert a + b + c + d == [a[0]] + ((a[1..] + [b[0]]) + (b[1..] + [c[0]]) + (c[1..] + [d[0]]) + d[1..]);
  }

  lemma DoubledIsShifted(w: Word32)
    ensures Of(Doubled(w)) == Of(w)[1..] + [false]
  {
    hide Of8;
    DoubledOctet(w.a, w.b);
    DoubledOctet(w.b, w.c);
    DoubledOctet(w.c, w.d);
    LastOctet(w.d);
    FourShifted(Of8(w.a), Of8(w.b), Of8(w.c), Of8(w.d));
  }

  lemma Octet04()
    ensures Bits(0x04) == Of8(0x04)
  {
    assert Bits(0x04) == [false, false, false, false, false, true, false, false];
  }

  lemma OctetC1()
    ensures Bits(0xC1) == Of8(0xC1)
  {
    assert Bits(0xC1) == [true, true, false, false, false, false, false, true];
  }

  lemma Octet1D()
    ensures Bits(0x1D) == Of8(0x1D)
  {
    assert Bits(0x1D) == [false, false, false, true, true, true, false, true];
  }

  lemma OctetB7()
    ensures Bits(0xB7) == Of8(0xB7)
  {
    assert Bits(0xB7) == [true, false, true, true, false, true, true, true];
  }

  lemma Octet03()
    ensures Bits(0x03) == Of8(0x03)
  {
    assert Bits(0x03) == [false, false, false, false, false, false, true, true];
  }

  lemma Octet76()
    ensures Bits(0x76) == Of8(0x76)
  {
    assert Bits(0x76) == [false, true, true, true, false, true, true, false];
  }

  lemma OctetE6()
    ensures Bits(0xE6) == Of8(0xE6)
  {
    assert Bits(0xE6) == [true, true, true, false, false, true, true, false];
  }

  lemma OctetE7()
    ensures Bits(0xE7) == Of8(0xE7)
  {
    assert Bits(0xE7) == [true, true, true, false, false, true, true, true];
  }

  lemma Octet2A()
    ensures Bits(0x2A) == Of8(0x2A)
  {
    assert Bits(0x2A) == [false, false, true, false, true, false, true, false];
  }

  lemma OctetB1()
    ensures Bits(0xB1) == Of8(0xB1)
  {
    assert Bits(0xB1) == [true, false, true, true, false, false, false, true];
  }

  lemma OctetB2()
    ensures Bits(0xB2) == Of8(0xB2)
  {
    assert Bits(0xB2) == [true, false, true, true, false, false, true, false];
  }

  lemma PolynomialQuad()
    ensures POLYNOMIAL() == Of(Quad(0x04, 0xC1, 0x1D, 0xB7))
  {
    hide Bits, Of8;
    Octet04();
    OctetC1();
    Octet1D();
    OctetB7();
  }

  /** A turn of the octets is a turn of the register. */
  lemma TurnIsShift(w: Word32)
    ensures ShiftBit(Of(w)) == Of(Turn(w))
  {
    assert Of(w)[0] <==> w.a & 0x80 != 0;
    hide Of, POLYNOMIAL, Xor, Plus, Doubled;
    DoubledIsShifted(w);
    PlusIsXor(Doubled(w), Quad(0x04, 0xC1, 0x1D, 0xB7));
    PolynomialQuad();
  }

  lemma TwoTurns(v: Word32, n: nat, w: Word32)
    requires ShiftBits(Of(v), n) == Of(w)
    ensures ShiftBits(Of(v), n + 2) == Of(Turn(Turn(w)))
  {
    hide Of, Turn, ShiftBit;
    TurnIsShift(w);
    TurnIsShift(Turn(w));
    assert ShiftBits(Of(v), n + 1) == Of(Turn(w));
  }

  lemma Turns8AreShifts(v: Word32)
    ensures ShiftBits(Of(v), 8) == Of(Turns8(v))
  {
    hide Of, Turn, ShiftBit;
    TwoTurns(v, 0, v);
    var w := Turn(Turn(v));
    TwoTurns(v, 2, w);
    var x := Turn(Turn(w));
    TwoTurns(v, 4, x);
    TwoTurns(v, 6, Turn(Turn(x)));
  }

  /** One byte of data on the octets of the register. */
  lemma Absorbed(w: Word32, b: byte, v: bv8)
    requires Bits(b) == Of8(v)
    ensures CrcFrom(Of(w), [b]) == Of(Turns8(w.(a := w.a ^ v)))
  {
    OneAbsorbed(Of(w), b);
    assert Of8(0) == Zeros(8);
    assert Place(Bits(b), 0) == Of(Quad(v, 0, 0, 0));
    hide Of, ShiftBits, Turns8, CrcFrom, Place, Xor, Bits;
    PlusIsXor(w, Quad(v, 0, 0, 0));
    assert Plus(w, Quad(v, 0, 0, 0)) == w.(a := w.a ^ v) by { PlusTop(w, v); }
    Turns8AreShifts(w.(a := w.a ^ v));
  }

  lemma PlusTop(w: Word32, v: bv8)
    ensures Plus(w, Quad(v, 0, 0, 0)) == w.(a := w.a ^ v)
  {
  }

  lemma OctetBits(b: byte)
    ensures Octet(Bits(b)) == b
  {
    assert Pow2(8) == 256;
    ValueBinary(b, 8);
  }

  lemma BigEndianBack(a: byte, b: byte, c: byte, d: byte)
    ensures BE32(FromBE32(a, b, c, d)) == [a, b, c, d]
  {
    var r := FromBE32(a, b, c, d);
    assert r[..8] == Bits(a) && r[8..16] == Bits(b) && r[16..24] == Bits(c) && r[24..] == Bits(d);
    hide Bits, Octet;
    OctetBits(a);
    OctetBits(b);
    OctetBits(c);
    OctetBits(d);
  }

  lemma OnesQuad()
    ensures ALL_ONES() == Of(Quad(0xFF, 0xFF, 0xFF, 0xFF))
  {
  }

  /** The octets of a register over the first bytes of some data. */
  predicate Reached(data: seq<byte>, w: Word32) {
    Checksum(data) == Of(w)
  }

  lemma NextReached(data: seq<byte>, w: Word32, b: byte, v: bv8, next: Word32)
    requires Reached(data, w) && Bits(b) == Of8(v) && Turns8(w.(a := w.a ^ v)) == next
    ensures Reached(data + [b], next)
  {
    hide Of, CrcFrom, Turns8, Bits, Of8;
    CrcConcat(ALL_ONES(), data, [b]);
    Absorbed(w, b, v);
  }

  lemma NothingReached()
    ensures Reached([], Quad(0xFF, 0xFF, 0xFF, 0xFF))
  {
    OnesQuad();
  }

  lemma Digit0(data: seq<byte>)
    requires Reached(data, Quad(0xFF, 0xFF, 0xFF, 0xFF))
    ensures Reached(data + [0x31], Quad(0x9E, 0xFB, 0xCF, 0x93))
  {
    hide Reached;
    NextReached(data, Quad(0xFF, 0xFF, 0xFF, 0xFF), 0x31, 0x31, Quad(0x9E, 0xFB, 0xCF, 0x93));
  }

  lemma Digit1(data: seq<byte>)
    requires Reached(data, Quad(0x9E, 0xFB, 0xCF, 0x93))
    ensures Reached(data + [0x32], Quad(0x3F, 0xEC, 0x5E, 0x6A))
  {
    hide Reached;
    NextReached(data, Quad(0x9E, 0xFB, 0xCF, 0x93), 0x32, 0x32, Quad(0x3F, 0xEC, 0x5E, 0x6A));
  }

  lemma Digit2(data: seq<byte>)
    requires Reached(data, Quad(0x3F, 0xEC, 0x5E, 0x6A))
    ensures Reached(data + [0x33], Quad(0xD9, 0x52, 0xF1, 0x64))
  {
    hide Reached;
    NextReached(data, Quad(0x3F, 0xEC, 0x5E, 0x6A), 0x33, 0x33, Quad(0xD9, 0x52, 0xF1, 0x64));
  }

  lemma Digit3(data: seq<byte>)
    requires Reached(data, Quad(0xD9, 0x52, 0xF1, 0x64))
    ensures Reached(data + [0x34], Quad(0xA6, 0x95, 0xC4, 0xAA))
  {
    hide Reached;
    NextReached(data, Quad(0xD9, 0x52, 0xF1, 0x64), 0x34, 0x34, Quad(0xA6, 0x95, 0xC4, 0xAA));
  }

  lemma Digit4(data: seq<byte>)
    requires Reached(data, Quad(0xA6, 0x95, 0xC4, 0xAA))
    ensures Reached(data + [0x35], Quad(0xBD, 0x9A, 0xB7, 0x47))
  {
    hide Reached;
    NextReached(data, Quad(0xA6, 0x95, 0xC4, 0xAA), 0x35, 0x35, Quad(0xBD, 0x9A, 0xB7, 0x47));
  }

  lemma Digit5(data: seq<byte>)
    requires Reached(data, Quad(0xBD, 0x9A, 0xB7, 0x47))
    ensures Reached(data + [0x36], Quad(0xD8, 0xF0, 0x6C, 0x8F))
  {
    hide Reached;
    NextReached(data, Quad(0xBD, 0x9A, 0xB7, 0x47), 0x36, 0x36, Quad(0xD8, 0xF0, 0x6C, 0x8F));
  }

  lemma Digit6(data: seq<byte>)
    requires Reached(data, Quad(0xD8, 0xF0, 0x6C, 0x8F))
    ensures Reached(data + [0x37], Quad(0x0D, 0x8A, 0x14, 0xC4))
  {
    hide Reached;
    NextReached(data, Quad(0xD8, 0xF0, 0x6C, 0x8F), 0x37, 0x37, Quad(0x0D, 0x8A, 0x14, 0xC4));
  }

  lemma Digit7(data: seq<byte>)
    requires Reached(data, Quad(0x0D, 0x8A, 0x14, 0xC4))
    ensures Reached(data + [0x38], Quad(0x49, 0xE3, 0xC2, 0xFB))
  {
    hide Reached;
    NextReached(data, Quad(0x0D, 0x8A, 0x14, 0xC4), 0x38, 0x38, Quad(0x49, 0xE3, 0xC2, 0xFB));
  }

  lemma Digit8(data: seq<byte>)
    requires Reached(data, Quad(0x49, 0xE3, 0xC2, 0xFB))
    ensures Reached(data + [0x39], Quad(0x03, 0x76, 0xE6, 0xE7))
  {
    hide Reached;
    NextReached(data, Quad(0x49, 0xE3, 0xC2, 0xFB), 0x39, 0x39, Quad(0x03, 0x76, 0xE6, 0xE7));
  }

  lemma DigitEnd(data: seq<byte>)
    requires Reached(data, Quad(0x03, 0x76, 0xE6, 0xE7))
    ensures BE32(Checksum(data)) == [0x03, 0x76, 0xE6, 0xE7]
  {
    hide Bits, Of8, BE32, CrcFrom;
    Octet03();
    Octet76();
    OctetE6();
    OctetE7();
    assert Of(Quad(0x03, 0x76, 0xE6, 0xE7)) == FromBE32(0x03, 0x76, 0xE6, 0xE7);
    hide Of, FromBE32;
    BigEndianBack(0x03, 0x76, 0xE6, 0xE7);
  }

  /** The catalogued check value: the digits 1 to 9 have the checksum 0x0376E6E7. */
  lemma CheckValue()
    ensures BE32(Checksum([0x31, 0x32, 0x33, 0x34, 0x35, 0x36, 0x37, 0x38, 0x39]))
         == [0x03, 0x76, 0xE6, 0xE7]
  {
    hide Of, CrcFrom, Turns8, Of8, BE32, FromBE32, Reached;
    var d: seq<byte> := [0x31, 0x32, 0x33, 0x34, 0x35, 0x36, 0x37, 0x38, 0x39];
    assert Reached([], Quad(0xFF, 0xFF, 0xFF, 0xFF)) by { NothingReached(); }
    Digit0(d[..0]);
    assert d[..0] + [d[0]] == d[..1];
    Digit1(d[..1]);
    assert d[..1] + [d[1]] == d[..2];
    Digit2(d[..2]);
    assert d[..2] + [d[2]] == d[..3];
    Digit3(d[..3]);
    assert d[..3] + [d[3]] == d[..4];
    Digit4(d[..4]);
    assert d[..4] + [d[4]] == d[..5];
    Digit5(d[..5]);
    assert d[..5] + [d[5]] == d[..6];
    Digit6(d[..6]);
    assert d[..6] + [d[6]] == d[..7];
    Digit7(d[..7]);
    assert d[..7] + [d[7]] == d[..8];
    Digit8(d[..8]);
    assert d[..8] + [d[8]] == d[..9];
    assert d[..9] == d;
    DigitEnd(d);
  }

  lemma Pat0(data: seq<byte>)
    requires Reached(data, Quad(0xFF, 0xFF, 0xFF, 0xFF))
    ensures Reached(data + [0x00], Quad(0x4E, 0x08, 0xBF, 0xB4))
  {
    hide Reached;
    NextReached(data, Quad(0xFF, 0xFF, 0xFF, 0xFF), 0x00, 0x00, Quad(0x4E, 0x08, 0xBF, 0xB4));
  }

  lemma Pat1(data: seq<byte>)
    requires Reached(data, Quad(0x4E, 0x08, 0xBF, 0xB4))
    ensures Reached(data + [0xB0], Quad(0xBD, 0x89, 0xE9, 0x03))
  {
    hide Reached;
    NextReached(data, Quad(0x4E, 0x08, 0xBF, 0xB4), 0xB0, 0xB0, Quad(0xBD, 0x89, 0xE9, 0x03));
  }

  lemma Pat2(data: seq<byte>)
    requires Reached(data, Quad(0xBD, 0x89, 0xE9, 0x03))
    ensures Reached(data + [0x0D], Quad(0x34, 0xD7, 0x8E, 0x7E))
  {
    hide Reached;
    NextReached(data, Quad(0xBD, 0x89, 0xE9, 0x03), 0x0D, 0x0D, Quad(0x34, 0xD7, 0x8E, 0x7E));
  }

  lemma Pat3(data: seq<byte>)
    requires Reached(data, Quad(0x34, 0xD7, 0x8E, 0x7E))
    ensures Reached(data + [0x00], Quad(0x10, 0xB8, 0x65, 0x4C))
  {
    hide Reached;
    NextReached(data, Quad(0x34, 0xD7, 0x8E, 0x7E), 0x00, 0x00, Quad(0x10, 0xB8, 0x65, 0x4C));
  }

  lemma Pat4(data: seq<byte>)
    requires Reached(data, Quad(0x10, 0xB8, 0x65, 0x4C))
    ensures Reached(data + [0x01], Quad(0xF0, 0xB5, 0x8A, 0xC7))
  {
    hide Reached;
    NextReached(data, Quad(0x10, 0xB8, 0x65, 0x4C), 0x01, 0x01, Quad(0xF0, 0xB5, 0x8A, 0xC7));
  }

  lemma Pat5(data: seq<byte>)
    requires Reached(data, Quad(0xF0, 0xB5, 0x8A, 0xC7))
    ensures Reached(data + [0xC1], Quad(0x65, 0x79, 0xB7, 0x27))
  {
    hide Reached;
    NextReached(data, Quad(0xF0, 0xB5, 0x8A, 0xC7), 0xC1, 0xC1, Quad(0x65, 0x79, 0xB7, 0x27));
  }

  lemma Pat6(data: seq<byte>)
    requires Reached(data, Quad(0x65, 0x79, 0xB7, 0x27))
    ensures Reached(data + [0x00], Quad(0xC2, 0xD7, 0x8A, 0xFC))
  {
    hide Reached;
    NextReached(data, Quad(0x65, 0x79, 0xB7, 0x27), 0x00, 0x00, Quad(0xC2, 0xD7, 0x8A, 0xFC));
  }

  lemma Pat7(data: seq<byte>)
    requires Reached(data, Quad(0xC2, 0xD7, 0x8A, 0xFC))
    ensures Reached(data + [0x00], Quad(0x83, 0x82, 0x57, 0xF7))
  {
    hide Reached;
    NextReached(data, Quad(0xC2, 0xD7, 0x8A, 0xFC), 0x00, 0x00, Quad(0x83, 0x82, 0x57, 0xF7));
  }

  lemma Pat8(data: seq<byte>)
    requires Reached(data, Quad(0x83, 0x82, 0x57, 0xF7))
    ensures Reached(data + [0x00], Quad(0xE6, 0x18, 0x31, 0x37))
  {
    hide Reached;
    NextReached(data, Quad(0x83, 0x82, 0x57, 0xF7), 0x00, 0x00, Quad(0xE6, 0x18, 0x31, 0x37));
  }

  lemma Pat9(data: seq<byte>)
    requires Reached(data, Quad(0xE6, 0x18, 0x31, 0x37))
    ensures Reached(data + [0x01], Quad(0xC3, 0xDF, 0x41, 0x7C))
  {
    hide Reached;
    NextReached(data, Quad(0xE6, 0x18, 0x31, 0x37), 0x01, 0x01, Quad(0xC3, 0xDF, 0x41, 0x7C));
  }

  lemma Pat10(data: seq<byte>)
    requires Reached(data, Quad(0xC3, 0xDF, 0x41, 0x7C))
    ensures Reached(data + [0xF0], Quad(0x06, 0x30, 0x37, 0x49))
  {
    hide Reached;
    NextReached(data, Quad(0xC3, 0xDF, 0x41, 0x7C), 0xF0, 0xF0, Quad(0x06, 0x30, 0x37, 0x49));
  }

  lemma Pat11(data: seq<byte>)
    requires Reached(data, Quad(0x06, 0x30, 0x37, 0x49))
    ensures Reached(data + [0x00], Quad(0x2A, 0xB1, 0x04, 0xB2))
  {
    hide Reached;
    NextReached(data, Quad(0x06, 0x30, 0x37, 0x49), 0x00, 0x00, Quad(0x2A, 0xB1, 0x04, 0xB2));
  }

  lemma PatEnd(data: seq<byte>)
    requires Reached(data, Quad(0x2A, 0xB1, 0x04, 0xB2))
    ensures BE32(Checksum(data)) == [0x2A, 0xB1, 0x04, 0xB2]
  {
    hide Bits, Of8, BE32, CrcFrom;
    Octet2A();
    OctetB1();
    Octet04();
    OctetB2();
    assert Of(Quad(0x2A, 0xB1, 0x04, 0xB2)) == FromBE32(0x2A, 0xB1, 0x04, 0xB2);
    hide Of, FromBE32;
    BigEndianBack(0x2A, 0xB1, 0x04, 0xB2);
  }

  /** The checksum of the PAT of program 1 with its PMT on PID 0x1000. */
  lemma PatChecksum()
    ensures BE32(Checksum([0x00, 0xB0, 0x0D, 0x00, 0x01, 0xC1, 0x00, 0x00, 0x00, 0x01, 0xF0, 0x00]))
         == [0x2A, 0xB1, 0x04, 0xB2]
  {
    hide Of, CrcFrom, Turns8, Of8, BE32, FromBE32, Reached;
    var d: seq<byte> := [0x00, 0xB0, 0x0D, 0x00, 0x01, 0xC1, 0x00, 0x00, 0x00, 0x01, 0xF0, 0x00];
    assert Reached([], Quad(0xFF, 0xFF, 0xFF, 0xFF)) by { NothingReached(); }
    Pat0(d[..0]);
    assert d[..0] + [d[0]] == d[..1];
    Pat1(d[..1]);
    assert d[..1] + [d[1]] == d[..2];
    Pat2(d[..2]);
    assert d[..2] + [d[2]] == d[..3];
    Pat3(d[..3]);
    assert d[..3] + [d[3]] == d[..4];
    Pat4(d[..4]);
    assert d[..4] + [d[4]] == d[..5];
    Pat5(d[..5]);
    assert d[..5] + [d[5]] == d[..6];
    Pat6(d[..6]);
    assert d[..6] + [d[6]] == d[..7];
    Pat7(d[..7]);
    assert d[..7] + [d[7]] == d[..8];
    Pat8(d[..8]);
    assert d[..8] + [d[8]] == d[..9];
    Pat9(d[..9]);
    assert d[..9] + [d[9]] == d[..10];
    Pat10(d[..10]);
    assert d[..10] + [d[10]] == d[..11];
    Pat11(d[..11]);
    assert d[..11] + [d[11]] == d[..12];
    assert d[..12] == d;
    PatEnd(d);
  }
}
