/** The CRC-32 of the PNG writer (setup/lib/teams-manifest.ts).

    The reference is the bit-serial register of RFC 2083 section 3.4: the register starts as
    all ones, the bits of each byte enter least significant first, and the result is the ones
    complement of the register.  The program instead looks whole bytes up in a table. */
module Crc32 {
  type Byte = bv8

  const POLYNOMIAL: bv32 := 0xedb88320
  const ALL_ONES: bv32 := 0xffff_ffff

  // The word operations.  Proofs by induction hide their bodies, so that the bit-vector
  // reasoning stays inside the small lemmas that follow them.

  function Xor(a: bv32, b: bv32): bv32 { a ^ b }
  function Half(a: bv32): bv32 { a >> 1 }
  function Byte1Up(a: bv32): bv32 { a << 8 }
  function Byte1Down(a: bv32): bv32 { a >> 8 }
  function Low(a: bv32): bv32 { a & 0xff }
  function Bit0(a: bv32): bv32 { a & 1 }
  function Wide(b: Byte): bv32 { b as bv32 }

  /** One step of the table recipe. */
  function ShiftBit(c: bv32): bv32 {
    if Bit0(c) != 0 then Xor(POLYNOMIAL, Half(c)) else Half(c)
  }

  // ---------------------------------------------------------------- reference

  /** One bit enters the register. */
  function FeedBit(c: bv32, bit: bv32): bv32 {
    if Bit0(Xor(c, bit)) == 1 then Xor(POLYNOMIAL, Half(c)) else Half(c)
  }

  /** The k lowest bits of x enter the register, least significant first. */
  function FeedBits(c: bv32, x: bv32, k: nat): bv32
    decreases k
  {
    if k == 0 then c else FeedBits(FeedBit(c, Bit0(x)), Half(x), k - 1)
  }

  function Feed(c: bv32, s: seq<Byte>): bv32
    decreases |s|
  {
    if s == [] then c else Feed(FeedBits(c, Wide(s[0]), 8), s[1..])
  }

  /** The CRC of RFC 2083 section 3.4. */
  function Crc(s: seq<Byte>): bv32 {
    Xor(Feed(ALL_ONES, s), ALL_ONES)
  }

  // ------------------------------------------------------------ known values

  /** One byte, bit by bit. */
  function FeedByte(c: bv32, b: Byte): bv32 {
    var x := b as bv32;
    var c1 := FeedBit(c, x & 1);
    var c2 := FeedBit(c1, (x >> 1) & 1);
    var c3 := FeedBit(c2, (x >> 2) & 1);
    var c4 := FeedBit(c3, (x >> 3) & 1);
    var c5 := FeedBit(c4, (x >> 4) & 1);
    var c6 := FeedBit(c5, (x >> 5) & 1);
    var c7 := FeedBit(c6, (x >> 6) & 1);
    FeedBit(c7, (x >> 7) & 1)
  }

  lemma BitsOf(x: bv32)
    ensures
      var x1 := Half(x); var x2 := Half(x1); var x3 := Half(x2); var x4 := Half(x3);
      var x5 := Half(x4); var x6 := Half(x5); var x7 := Half(x6);
      && Bit0(x) == x & 1 && Bit0(x1) == (x >> 1) & 1 && Bit0(x2) == (x >> 2) & 1 && Bit0(x3) == (x >> 3) & 1
      && Bit0(x4) == (x >> 4) & 1 && Bit0(x5) == (x >> 5) & 1 && Bit0(x6) == (x >> 6) & 1 && Bit0(x7) == (x >> 7) & 1
  {
  }

  lemma ByteIsEightBits(c: bv32, b: Byte)
    ensures FeedBits(c, Wide(b), 8) == FeedByte(c, b)
  {
    hide FeedBit, Bit0, Half;
    var x := Wide(b);
    BitsOf(x);
    var x1 := Half(x); var x2 := Half(x1); var x3 := Half(x2); var x4 := Half(x3); var x5 := Half(x4);
    var c2 := FeedBit(FeedBit(c, Bit0(x)), Bit0(x1));
    var c4 := FeedBit(FeedBit(c2, Bit0(x2)), Bit0(x3));
    var c6 := FeedBit(FeedBit(c4, Bit0(x4)), Bit0(x5));
    assert FeedBits(c, x, 8) == FeedBits(c2, x2, 6) == FeedBits(c4, x4, 4) == FeedBits(c6, Half(x5), 2);
  }

  lemma FeedFront(c: bv32, s: seq<Byte>, i: nat)
    requires i < |s|
    ensures Feed(c, s[i..]) == Feed(FeedByte(c, s[i]), s[i + 1..])
  {
    hide FeedByte, FeedBits;
    ByteIsEightBits(c, s[i]);
    assert s[i..][0] == s[i] && s[i..][1..] == s[i + 1..];
  }

  lemma FeedNothing(c: bv32)
    ensures Feed(c, []) == c
  {
  }

  lemma CheckValueSteps()
    ensures FeedByte(0xffff_ffff, 0x31) == 0x7c23_1048
    ensures FeedByte(0x7c23_1048, 0x32) == 0xb0ac_bb32
    ensures FeedByte(0xb0ac_bb32, 0x33) == 0x77b7_9c2d
    ensures FeedByte(0x77b7_9c2d, 0x34) == 0x641c_1f5c
    ensures FeedByte(0x641c_1f5c, 0x35) == 0x340a_c5e3
    ensures FeedByte(0x340a_c5e3, 0x36) == 0xf68d_2c9e
    ensures FeedByte(0xf68d_2c9e, 0x37) == 0xaffc_9660
    ensures FeedByte(0xaffc_9660, 0x38) == 0x651f_2550
    ensures FeedByte(0x651f_2550, 0x39) == 0x340b_c6d9
  {
  }

  /** The check value of CRC-32, that of the nine digits 1 to 9. */
  lemma CheckValue()
    ensures Crc([0x31, 0x32, 0x33, 0x34, 0x35, 0x36, 0x37, 0x38, 0x39]) == 0xcbf4_3926
  {
    hide FeedByte, Feed;
    CheckValueSteps();
    var s: seq<Byte> := [0x31, 0x32, 0x33, 0x34, 0x35, 0x36, 0x37, 0x38, 0x39];
    FeedFront(0xffff_ffff, s, 0);
    FeedFront(0x7c23_1048, s, 1);
    FeedFront(0xb0ac_bb32, s, 2);
    FeedFront(0x77b7_9c2d, s, 3);
    FeedFront(0x641c_1f5c, s, 4);
    FeedFront(0x340a_c5e3, s, 5);
    FeedFront(0xf68d_2c9e, s, 6);
    FeedFront(0xaffc_9660, s, 7);
    FeedFront(0x651f_2550, s, 8);
    FeedNothing(0x340b_c6d9);
    assert s[0..] == s && s[9..] == [];
  }

  lemma EndChunkCrcSteps()
    ensures FeedByte(0xffff_ffff, 0x49) == 0x22fd_e946
    ensures FeedByte(0x22fd_e946, 0x45) == 0x992b_ac53
    ensures FeedByte(0x992b_ac53, 0x4e) == 0x639f_4775
    ensures FeedByte(0x639f_4775, 0x44) == 0x51bd_9f7d
  {
  }

  /** The CRC that ends every PNG file, that of the type IEND alone. */
  lemma EndChunkCrc()
    ensures Crc([0x49, 0x45, 0x4e, 0x44]) == 0xae42_6082
  {
    hide FeedByte, Feed;
    EndChunkCrcSteps();
    var s: seq<Byte> := [0x49, 0x45, 0x4e, 0x44];
    FeedFront(0xffff_ffff, s, 0);
    FeedFront(0x22fd_e946, s, 1);
    FeedFront(0x992b_ac53, s, 2);
    FeedFront(0x639f_4775, s, 3);
    FeedNothing(0x51bd_9f7d);
    assert s[0..] == s && s[4..] == [];
  }

  /** The constant is the polynomial of RFC 2083 section 3.4, its coefficients from x^0 in the highest bit down
      to x^31 in the lowest. */
  lemma PolynomialIs()
    ensures POLYNOMIAL ==
      (1 << 31) | (1 << 30) | (1 << 29) | (1 << 27) | (1 << 26) | (1 << 24) | (1 << 23) |
      (1 << 21) | (1 << 20) | (1 << 19) | (1 << 15) | (1 << 9) | (1 << 8) | (1 << 5)
  {
  }

  // -------------------------------------------------------- bit-vector facts

  lemma XorLaws(a: bv32, b: bv32, c: bv32)
    ensures Xor(Xor(a, b), c) == Xor(a, Xor(b, c))
    ensures Xor(a, b) == Xor(b, a)
    ensures Xor(a, 0) == a
    ensures Xor(a, Xor(a, b)) == b
  {
  }

  lemma HalfXor(a: bv32, b: bv32)
    ensures Half(Xor(a, b)) == Xor(Half(a), Half(b))
  {
  }

  lemma Bit0Xor(a: bv32, b: bv32)
    ensures Bit0(Xor(a, Bit0(b))) == Bit0(Xor(a, b))
    ensures Bit0(b) == 0 ==> Bit0(Xor(a, b)) == Bit0(a)
    ensures Bit0(a) == 0 || Bit0(a) == 1
  {
  }

  lemma FeedBitIsShift(c: bv32, x: bv32)
    ensures Xor(FeedBit(c, Bit0(x)), Half(x)) == ShiftBit(Xor(c, x))
  {
    hide Xor, Half, Bit0;
    HalfXor(c, x);
    Bit0Xor(c, x);
    Bit0Xor(Xor(c, x), x);
    XorLaws(POLYNOMIAL, Half(c), Half(x));
  }

  lemma ShiftBitLinear(a: bv32, b: bv32)
    requires Bit0(b) == 0
    ensures ShiftBit(Xor(a, b)) == Xor(ShiftBit(a), Half(b))
  {
    hide Xor, Half, Bit0;
    HalfXor(a, b);
    Bit0Xor(a, b);
    XorLaws(POLYNOMIAL, Half(a), Half(b));
  }

  lemma ShiftBitInjective(a: bv32, b: bv32)
    requires ShiftBit(a) == ShiftBit(b)
    ensures a == b
  {
  }

  lemma SplitLowByte(c: bv32)
    ensures c == Xor(Low(c), Byte1Up(Byte1Down(c))) && Byte1Down(c) <= 0xff_ffff
  {
  }

  lemma DownIgnoresByte(c: bv32, b: Byte)
    ensures Byte1Down(Xor(c, Wide(b))) == Byte1Down(c)
  {
  }

  // ------------------------------------------------------ the recipe, k times

  function ShiftBits(c: bv32, k: nat): bv32
    decreases k
  {
    if k == 0 then c else ShiftBits(ShiftBit(c), k - 1)
  }

  ghost function Drop(x: bv32, k: nat): bv32
    decreases k
  {
    if k == 0 then x else Drop(Half(x), k - 1)
  }

  ghost predicate LowZeros(x: bv32, k: nat)
    decreases k
  {
    k == 0 || (Bit0(x) == 0 && LowZeros(Half(x), k - 1))
  }

  lemma {:induction false} ShiftBitsAdd(c: bv32, j: nat, k: nat)
    ensures ShiftBits(ShiftBits(c, j), k) == ShiftBits(c, j + k)
    decreases j
  {
    hide ShiftBit;
    if j > 0 {
      ShiftBitsAdd(ShiftBit(c), j - 1, k);
    }
  }

  lemma {:induction false} ShiftBitsInjective(a: bv32, b: bv32, k: nat)
    requires ShiftBits(a, k) == ShiftBits(b, k)
    ensures a == b
    decreases k
  {
    hide ShiftBit;
    if k > 0 {
      ShiftBitsInjective(ShiftBit(a), ShiftBit(b), k - 1);
      ShiftBitInjective(a, b);
    }
  }

  lemma {:induction false} FeedBitsIsShift(c: bv32, x: bv32, k: nat)
    ensures Xor(FeedBits(c, x, k), Drop(x, k)) == ShiftBits(Xor(c, x), k)
    decreases k
  {
    hide Xor, Half, Bit0, ShiftBit, FeedBit;
    if k > 0 {
      FeedBitIsShift(c, x);
      FeedBitsIsShift(FeedBit(c, Bit0(x)), Half(x), k - 1);
    }
  }

  lemma {:induction false} ShiftBitsLinear(a: bv32, b: bv32, k: nat)
    requires LowZeros(b, k)
    ensures ShiftBits(Xor(a, b), k) == Xor(ShiftBits(a, k), Drop(b, k))
    decreases k
  {
    hide Xor, Half, Bit0, ShiftBit;
    if k > 0 {
      ShiftBitLinear(a, b);
      ShiftBitsLinear(ShiftBit(a), Half(b), k - 1);
    }
  }

  // ------------------------------------------------------------ whole bytes

  lemma DropByte(b: Byte)
    ensures Drop(Wide(b), 8) == 0
  {
  }

  lemma FeedByteIsShift(c: bv32, b: Byte)
    ensures FeedBits(c, Wide(b), 8) == ShiftBits(Xor(c, Wide(b)), 8)
  {
    hide Xor, Wide, FeedBits, ShiftBits, Drop;
    FeedBitsIsShift(c, Wide(b), 8);
    DropByte(b);
    XorLaws(FeedBits(c, Wide(b), 8), 0, 0);
  }

  /** Up to eight single shifts, each by a constant. */
  function Up(x: bv32, k: nat): bv32
    requires k <= 8
  {
    match k
    case 0 => x
    case 1 => x << 1
    case 2 => x << 2
    case 3 => x << 3
    case 4 => x << 4
    case 5 => x << 5
    case 6 => x << 6
    case 7 => x << 7
    case _ => x << 8
  }

  lemma UpOne(x: bv32)
    requires x <= 0xff_ffff
    ensures Bit0(x << 1) == 0 && Half(x << 1) == x
  {
  }

  lemma UpTwo(x: bv32)
    requires x <= 0xff_ffff
    ensures Bit0(x << 2) == 0 && Half(x << 2) == x << 1
  {
  }

  lemma UpThree(x: bv32)
    requires x <= 0xff_ffff
    ensures Bit0(x << 3) == 0 && Half(x << 3) == x << 2
  {
  }

  lemma UpFour(x: bv32)
    requires x <= 0xff_ffff
    ensures Bit0(x << 4) == 0 && Half(x << 4) == x << 3
  {
  }

  lemma UpFive(x: bv32)
    requires x <= 0xff_ffff
    ensures Bit0(x << 5) == 0 && Half(x << 5) == x << 4
  {
  }

  lemma UpSix(x: bv32)
    requires x <= 0xff_ffff
    ensures Bit0(x << 6) == 0 && Half(x << 6) == x << 5
  {
  }

  lemma UpSeven(x: bv32)
    requires x <= 0xff_ffff
    ensures Bit0(x << 7) == 0 && Half(x << 7) == x << 6
  {
  }

  lemma UpEight(x: bv32)
    requires x <= 0xff_ffff
    ensures Bit0(x << 8) == 0 && Half(x << 8) == x << 7
  {
  }

  lemma UpIsEven(x: bv32, k: nat)
    requires x <= 0xff_ffff && 0 < k <= 8
    ensures Bit0(Up(x, k)) == 0 && Half(Up(x, k)) == Up(x, k - 1)
  {
    hide Bit0, Half;
    UpOne(x);
    UpTwo(x);
    UpThree(x);
    UpFour(x);
    UpFive(x);
    UpSix(x);
    UpSeven(x);
    UpEight(x);
  }

  lemma UpZero(x: bv32)
    ensures Up(x, 0) == x
  {
  }

  lemma {:induction false} UpDrops(x: bv32, k: nat)
    requires x <= 0xff_ffff && k <= 8
    ensures LowZeros(Up(x, k), k) && Drop(Up(x, k), k) == x
  {
    hide Bit0, Half, Up;
    if k == 0 {
      UpZero(x);
    } else {
      UpIsEven(x, k);
      UpDrops(x, k - 1);
    }
  }

  lemma ByteUp(x: bv32)
    requires x <= 0xff_ffff
    ensures LowZeros(Byte1Up(x), 8) && Drop(Byte1Up(x), 8) == x
  {
    hide LowZeros, Drop;
    UpDrops(x, 8);
  }

  /** One table step is eight bit steps. */
  lemma TableStep(c: bv32, b: Byte)
    ensures FeedBits(c, Wide(b), 8) == Xor(ShiftBits(Low(Xor(c, Wide(b))), 8), Byte1Down(c))
  {
    hide Xor, Wide, FeedBits, ShiftBits, Byte1Up, Byte1Down, Low, Drop, LowZeros;
    var y := Xor(c, Wide(b));
    FeedByteIsShift(c, b);
    SplitLowByte(y);
    ByteUp(Byte1Down(y));
    ShiftBitsLinear(Low(y), Byte1Up(Byte1Down(y)), 8);
    DownIgnoresByte(c, b);
  }

  lemma {:induction false} FeedConcat(c: bv32, s: seq<Byte>, t: seq<Byte>)
    ensures Feed(c, s + t) == Feed(Feed(c, s), t)
    decreases |s|
  {
    hide FeedBits, Wide;
    if s == [] {
      assert s + t == t;
    } else {
      assert (s + t)[1..] == s[1..] + t;
      FeedConcat(FeedBits(c, Wide(s[0]), 8), s[1..], t);
    }
  }

  // ------------------------------------------------------------- the program

  function ByteOf(n: int): Byte
    requires 0 <= n < 256
  {
    n as Byte
  }

  ghost predicate IsCrcTable(t: seq<bv32>) {
    |t| == 256 && forall n: int :: 0 <= n < 256 ==> t[n] == ShiftBits(Wide(ByteOf(n)), 8)
  }

  lemma {:induction false} ShiftBitsLast(c: bv32, k: nat)
    ensures ShiftBits(c, k + 1) == ShiftBit(ShiftBits(c, k))
  {
    hide ShiftBit;
    ShiftBitsAdd(c, k, 1);
    assert ShiftBits(ShiftBits(c, k), 1) == ShiftBits(ShiftBit(ShiftBits(c, k)), 0);
  }

  lemma ShiftBitsZero(c: bv32)
    ensures ShiftBits(c, 0) == c
  {
  }

  method MakeTable() returns (table: array<bv32>)
    ensures IsCrcTable(table[..])
  {
    hide Xor, Half, Bit0, Wide, ByteOf, ShiftBits;
    table := new bv32[256];
    for n := 0 to 256
      invariant forall m :: 0 <= m < n ==> table[m] == ShiftBits(Wide(ByteOf(m)), 8)
    {
      var start := Wide(ByteOf(n));
      var c := start;
      assert c == ShiftBits(start, 0) by { ShiftBitsZero(start); }
      for k := 0 to 8
        invariant c == ShiftBits(start, k)
        invariant forall m :: 0 <= m < n ==> table[m] == ShiftBits(Wide(ByteOf(m)), 8)
      {
        ShiftBitsLast(start, k);
        c := if Bit0(c) != 0 then Xor(POLYNOMIAL, Half(c)) else Half(c);
      }
      table[n] := c;
    }
  }

  lemma Narrow(c: bv32)
    ensures Low(c) == c & 0xff <= 0xff
  {
  }

  function LowByte(c: bv32): (b: Byte)
    ensures Wide(b) == Low(c)
  {
    Narrow(Low(c));
    Low(c) as Byte
  }

  lemma ByteOfInt(b: Byte)
    ensures 0 <= b as int < 256 && ByteOf(b as int) == b
  {
  }

  method ComputeCrc32(table: array<bv32>, buf: seq<Byte>) returns (r: bv32)
    requires IsCrcTable(table[..])
    ensures r == Crc(buf)
  {
    hide Xor, Byte1Down, Wide, ByteOf, FeedBits, ShiftBits, LowByte, Low;
    var c := ALL_ONES;
    for i := 0 to |buf|
      invariant c == Feed(ALL_ONES, buf[..i])
    {
      var low := LowByte(Xor(c, Wide(buf[i])));
      ByteOfInt(low);
      var n := low as int;
      assert table[n] == table[..][n];
      TableStep(c, buf[i]);
      FeedConcat(ALL_ONES, buf[..i], [buf[i]]);
      assert buf[..i + 1] == buf[..i] + [buf[i]];
      c := Xor(table[n], Byte1Down(c));
    }
    assert buf[..|buf|] == buf;
    r := Xor(c, ALL_ONES);
  }

  // -------------------------------------------------------- error detection

  lemma XorCancel(a: bv32, b: bv32, x: bv32)
    requires Xor(a, x) == Xor(b, x)
    ensures a == b
  {
    hide Xor;
    XorLaws(x, a, 0);
    XorLaws(x, b, 0);
    XorLaws(a, x, 0);
    XorLaws(b, x, 0);
  }

  lemma {:induction false} FeedInjective(c: bv32, d: bv32, s: seq<Byte>)
    requires Feed(c, s) == Feed(d, s)
    ensures c == d
    decreases |s|
  {
    hide Xor, Wide, FeedBits, ShiftBits;
    if s != [] {
      var x := Wide(s[0]);
      FeedInjective(FeedBits(c, x, 8), FeedBits(d, x, 8), s[1..]);
      FeedByteIsShift(c, s[0]);
      FeedByteIsShift(d, s[0]);
      ShiftBitsInjective(Xor(c, x), Xor(d, x), 8);
      XorCancel(c, d, x);
    }
  }

  /** At most four bytes as one word, first byte lowest. */
  ghost function Word(w: seq<Byte>): bv32
    requires |w| <= 4
  {
    if w == [] then 0 else Xor(Wide(w[0]), Byte1Up(Word(w[1..])))
  }

  lemma JoinBound(b: Byte, x: bv32)
    ensures x <= 0xffff ==> Xor(Wide(b), Byte1Up(x)) <= 0xff_ffff
    ensures x <= 0xff ==> Xor(Wide(b), Byte1Up(x)) <= 0xffff
    ensures x == 0 ==> Xor(Wide(b), Byte1Up(x)) <= 0xff
  {
  }

  lemma JoinInjective(a: Byte, x: bv32, b: Byte, y: bv32)
    requires x <= 0xff_ffff && y <= 0xff_ffff
    requires Xor(Wide(a), Byte1Up(x)) == Xor(Wide(b), Byte1Up(y))
    ensures a == b && x == y
  {
  }

  lemma {:induction false} WordBound(w: seq<Byte>)
    requires |w| <= 3
    ensures Word(w) <= 0xff_ffff
    ensures |w| <= 2 ==> Word(w) <= 0xffff
    ensures |w| <= 1 ==> Word(w) <= 0xff
    ensures |w| == 0 ==> Word(w) == 0
    decreases |w|
  {
    hide Xor, Wide, Byte1Up;
    if w != [] {
      WordBound(w[1..]);
      JoinBound(w[0], Word(w[1..]));
    }
  }

  lemma {:induction false} WordInjective(v: seq<Byte>, w: seq<Byte>)
    requires |v| == |w| <= 4 && Word(v) == Word(w)
    ensures v == w
    decreases |v|
  {
    hide Xor, Wide, Byte1Up;
    if v != [] {
      WordBound(v[1..]);
      WordBound(w[1..]);
      JoinInjective(v[0], Word(v[1..]), w[0], Word(w[1..]));
      WordInjective(v[1..], w[1..]);
      assert v == [v[0]] + v[1..] && w == [w[0]] + w[1..];
    }
  }

  /** Feeding up to four bytes is one shift of the register xor-ed with the word they form. */
  lemma {:induction false} FeedWord(c: bv32, w: seq<Byte>)
    requires |w| <= 4
    ensures Feed(c, w) == ShiftBits(Xor(c, Word(w)), 8 * |w|)
    decreases |w|
  {
    hide Xor, Wide, Byte1Up, FeedBits, ShiftBits, LowZeros, Drop;
    if w == [] {
      XorLaws(c, 0, 0);
      ShiftBitsZero(c);
    } else {
      var x, rest := Wide(w[0]), Word(w[1..]);
      var c' := FeedBits(c, x, 8);
      FeedByteIsShift(c, w[0]);
      FeedWord(c', w[1..]);
      WordBound(w[1..]);
      ByteUp(rest);
      ShiftBitsLinear(Xor(c, x), Byte1Up(rest), 8);
      XorLaws(c, x, Byte1Up(rest));
      ShiftBitsAdd(Xor(c, Word(w)), 8, 8 * |w[1..]|);
    }
  }

  /** Two buffers that differ only inside one window of at most four bytes never share a CRC. */
  lemma BurstsAreDetected(before: seq<Byte>, v: seq<Byte>, w: seq<Byte>, after: seq<Byte>)
    requires |v| == |w| <= 4 && v != w
    ensures Crc(before + v + after) != Crc(before + w + after)
  {
    hide Xor, Feed, ShiftBits, Word;
    var c := Feed(ALL_ONES, before);
    FeedConcat(ALL_ONES, before + v, after);
    FeedConcat(ALL_ONES, before, v);
    FeedConcat(ALL_ONES, before + w, after);
    FeedConcat(ALL_ONES, before, w);
    if Crc(before + v + after) == Crc(before + w + after) {
      XorCancel(Feed(ALL_ONES, before + v + after), Feed(ALL_ONES, before + w + after), ALL_ONES);
      FeedInjective(Feed(c, v), Feed(c, w), after);
      FeedWord(c, v);
      FeedWord(c, w);
      ShiftBitsInjective(Xor(c, Word(v)), Xor(c, Word(w)), 8 * |v|);
      XorLaws(c, Word(v), 0);
      XorLaws(c, Word(w), 0);
      WordInjective(v, w);
      assert false;
    }
  }

  /** The single-byte case, stated on positions. */
  lemma ByteErrorsAreDetected(s: seq<Byte>, i: nat, b: Byte)
    requires i < |s| && s[i] != b
    ensures Crc(s) != Crc(s[i := b])
  {
    hide Crc;
    assert s == s[..i] + [s[i]] + s[i + 1..];
    assert s[i := b] == s[..i] + [b] + s[i + 1..];
    BurstsAreDetected(s[..i], [s[i]], [b], s[i + 1..]);
  }
}
