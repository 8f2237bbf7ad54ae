/** The table-driven CRC of the PNG writer (scripts/dev-seed.ts, lines 96-107)
    against the bit-serial one (section 3.4 of RFC 2083). */
module Crc {

  const POLYNOMIAL: bv32 := 0xedb88320

  function Xor(a: bv32, b: bv32): bv32 { a ^ b }

  function Half(c: bv32): bv32 { c >> 1 }

  predicate Odd(c: bv32) { c & 1 == 1 }

  /** One shift of the register. */
  function Step(c: bv32): bv32 { if Odd(c) then Xor(POLYNOMIAL, Half(c)) else Half(c) }

  function Steps(c: bv32, n: nat): bv32
    decreases n
  {
    if n == 0 then c else Steps(Step(c), n - 1)
  }

  function Halves(c: bv32, n: nat): bv32
    decreases n
  {
    if n == 0 then c else Halves(Half(c), n - 1)
  }

  function LowestBit(c: bv32): bv32 { c & 1 }

  function LowByte(c: bv32): bv32 { c & 0xff }

  function HighBytes(c: bv32): bv32 { c & 0xffffff00 }

  function Upper(c: bv32): bv32 { c >> 8 }

  /** The register after the `n` lowest bits of `b`, lowest first, each combined
      with the register's lowest bit before its shift. */
  ghost function FeedBits(crc: bv32, b: bv32, n: nat): bv32
    decreases n
  {
    if n == 0 then crc else FeedBits(Step(Xor(crc, LowestBit(b))), Half(b), n - 1)
  }

  ghost function FeedByte(crc: bv32, b: bv8): bv32 { FeedBits(crc, b as bv32, 8) }

  ghost function Feed(crc: bv32, bytes: seq<bv8>): bv32 {
    if bytes == [] then crc else FeedByte(Feed(crc, bytes[..|bytes| - 1]), bytes[|bytes| - 1])
  }

  const ONES: bv32 := 0xffffffff

  /** The CRC, one bit at a time. */
  ghost function BitwiseCrc(bytes: seq<bv8>): bv32 { Xor(Feed(ONES, bytes), ONES) }

  // ---------------------------------------------------------------- bit facts

  lemma OddOfXor(x: bv32, y: bv32)
    ensures Odd(Xor(x, y)) <==> Odd(x) != Odd(y)
  {
    assert (x ^ y) & 1 == (x & 1) ^ (y & 1);
    assert (x & 1 == 0 || x & 1 == 1) && (y & 1 == 0 || y & 1 == 1);
  }

  lemma HalfOfXor(x: bv32, y: bv32)
    ensures Half(Xor(x, y)) == Xor(Half(x), Half(y))
  {
  }

  lemma XorAssociates(a: bv32, b: bv32, c: bv32)
    ensures Xor(Xor(a, b), c) == Xor(a, Xor(b, c))
  {
  }

  lemma XorCommutes(a: bv32, b: bv32)
    ensures Xor(a, b) == Xor(b, a)
  {
  }

  lemma XorCancels(a: bv32, b: bv32)
    ensures Xor(Xor(a, b), b) == a && Xor(a, 0) == a
  {
  }

  lemma XorBoth(p: bv32, a: bv32, b: bv32)
    ensures Xor(Xor(p, a), Xor(p, b)) == Xor(a, b)
  {
    hide Xor;
    XorCommutes(p, a);
    XorAssociates(a, p, Xor(p, b));
    XorCommutes(p, b);
    XorCommutes(p, Xor(b, p));
    XorCancels(b, p);
  }

  lemma SplitLowBit(b: bv32)
    ensures b == Xor(LowestBit(b), b & 0xfffffffe) && Half(b & 0xfffffffe) == Half(b) && !Odd(b & 0xfffffffe)
  {
  }

  lemma WideByte(b: bv8)
    ensures (b as bv32) & 0xffffff00 == 0 && Upper(b as bv32) == 0
  {
  }

  lemma SplitLowByte(c: bv32, b: bv32)
    requires b & 0xffffff00 == 0
    ensures Xor(c, b) == Xor(LowByte(Xor(c, b)), HighBytes(c))
  {
  }

  lemma HighBytesUpper(c: bv32)
    ensures LowByte(HighBytes(c)) == 0 && Upper(HighBytes(c)) == Upper(c)
  {
  }

  lemma LowByteClear(c: bv32)
    requires LowByte(c) == 0
    ensures !Odd(c) && !Odd(c >> 1) && !Odd(c >> 2) && !Odd(c >> 3)
    ensures !Odd(c >> 4) && !Odd(c >> 5) && !Odd(c >> 6) && !Odd(c >> 7)
  {
  }

  lemma HalfAgain(c: bv32)
    ensures Half(c) == c >> 1 && Half(c >> 1) == c >> 2 && Half(c >> 2) == c >> 3 && Half(c >> 3) == c >> 4
    ensures Half(c >> 4) == c >> 5 && Half(c >> 5) == c >> 6 && Half(c >> 6) == c >> 7 && Half(c >> 7) == c >> 8
  {
  }

  lemma Below256(c: bv32)
    ensures LowByte(c) < 256
  {
  }

  // ---------------------------------------------------------------- linearity

  lemma StepLinear(x: bv32, y: bv32)
    ensures Step(Xor(x, y)) == Xor(Step(x), Step(y))
  {
    hide Xor, Half, Odd;
    OddOfXor(x, y);
    HalfOfXor(x, y);
    var p, a, b := POLYNOMIAL, Half(x), Half(y);
    XorAssociates(p, a, b);
    XorBoth(p, a, b);
    XorCommutes(p, b);
    XorAssociates(a, b, p);
    XorCommutes(p, Xor(a, b));
  }

  lemma {:induction false} StepsLinear(x: bv32, y: bv32, n: nat)
    ensures Steps(Xor(x, y), n) == Xor(Steps(x, n), Steps(y, n))
    decreases n
  {
    hide Xor, Step;
    if n > 0 {
      StepLinear(x, y);
      StepsLinear(Step(x), Step(y), n - 1);
    }
  }

  /** Feeding the lowest bit is combining everything, shifting, and taking the rest
      out again. */
  lemma StepAbsorbs(crc: bv32, b: bv32)
    ensures Xor(Step(Xor(crc, LowestBit(b))), Half(b)) == Step(Xor(crc, b))
  {
    hide Xor, Half, Odd, LowestBit;
    var high := b & 0xfffffffe;
    SplitLowBit(b);
    XorAssociates(crc, LowestBit(b), high);
    StepLinear(Xor(crc, LowestBit(b)), high);
  }

  /** Feeding bits one by one is combining them all first and shifting, but for the
      bits that were never fed. */
  lemma {:induction false} FeedIsSteps(crc: bv32, b: bv32, n: nat)
    ensures FeedBits(crc, b, n) == Xor(Steps(Xor(crc, b), n), Halves(b, n))
    decreases n
  {
    hide Xor, Step, Half, LowestBit;
    if n == 0 {
      XorCancels(crc, b);
    } else {
      FeedIsSteps(Step(Xor(crc, LowestBit(b))), Half(b), n - 1);
      StepAbsorbs(crc, b);
    }
  }

  // -------------------------------------------------------------------- table

  lemma ClearStep(c: bv32, d: bv32, n: nat)
    requires !Odd(c) && d == Half(c)
    ensures Steps(c, n + 1) == Steps(d, n) && Halves(c, n + 1) == Halves(d, n)
  {
  }

  /** A register whose low byte is clear only shifts. */
  lemma HighOnlyShifts(c: bv32)
    requires LowByte(c) == 0
    ensures Steps(c, 8) == Upper(c)
  {
    LowByteClear(c);
    HalfAgain(c);
    hide Xor, Step, Half, Odd, LowByte;
    ClearStep(c, c >> 1, 7);
    ClearStep(c >> 1, c >> 2, 6);
    ClearStep(c >> 2, c >> 3, 5);
    ClearStep(c >> 3, c >> 4, 4);
    ClearStep(c >> 4, c >> 5, 3);
    ClearStep(c >> 5, c >> 6, 2);
    ClearStep(c >> 6, c >> 7, 1);
    ClearStep(c >> 7, c >> 8, 0);
  }

  lemma {:induction false} HalvesOfByte(b: bv8)
    ensures Halves(b as bv32, 8) == 0
  {
    var c := b as bv32;
    WideByte(b);
    HalfAgain(c);
    hide Half;
    assert Halves(c, 8) == Halves(c >> 1, 7) == Halves(c >> 2, 6) == Halves(c >> 3, 5) == Halves(c >> 4, 4);
    assert Halves(c >> 4, 4) == Halves(c >> 5, 3) == Halves(c >> 6, 2) == Halves(c >> 7, 1) == Halves(c >> 8, 0);
  }

  /** One table look-up does the work of eight bits. */
  lemma TableStep(crc: bv32, b: bv8)
    ensures FeedByte(crc, b) == Xor(Steps(LowByte(Xor(crc, b as bv32)), 8), Upper(crc))
  {
    hide Xor, Steps, Halves, FeedBits, LowByte, HighBytes, Upper;
    var w := b as bv32;
    FeedIsSteps(crc, w, 8);
    HalvesOfByte(b);
    XorCancels(Steps(Xor(crc, w), 8), 0);
    WideByte(b);
    SplitLowByte(crc, w);
    HighBytesUpper(crc);
    StepsLinear(LowByte(Xor(crc, w)), HighBytes(crc), 8);
    HighOnlyShifts(HighBytes(crc));
  }

  /** The table: entry `n` is `n` shifted eight times. */
  ghost predicate IsTable(table: seq<bv32>) {
    |table| == 256 && forall n :: 0 <= n < 256 ==> table[n] == Steps(n as bv32, 8)
  }

  lemma StepIs(c: bv32)
    ensures Step(c) == if Odd(c) then Xor(POLYNOMIAL, Half(c)) else Half(c)
  {
  }

  method TableEntry(n: bv32) returns (c: bv32)
    ensures c == Steps(n, 8)
  {
    hide Step;
    c := n;
    for k := 0 to 8
      invariant Steps(c, 8 - k) == Steps(n, 8)
    {
      assert Steps(c, 8 - k) == Steps(Step(c), 8 - (k + 1));
      StepIs(c);
      c := if Odd(c) then Xor(POLYNOMIAL, Half(c)) else Half(c);
    }
  }

  method MakeTable() returns (table: array<bv32>)
    ensures fresh(table) && IsTable(table[..])
  {
    hide Steps;
    table := new bv32[256];
    for n := 0 to 256
      invariant forall m :: 0 <= m < n ==> table[m] == Steps(m as bv32, 8)
    {
      var c := TableEntry(n as bv32);
      table[n] := c;
    }
  }

  lemma IndexRoundTrip(c: bv32)
    ensures LowByte(c) as int < 256 && (LowByte(c) as int) as bv32 == LowByte(c)
  {
    Below256(c);
    hide LowByte;
    SmallIndex(LowByte(c));
  }

  lemma SmallIndex(c: bv32)
    requires c < 256
    ensures c as int < 256 && (c as int) as bv32 == c
  {
  }

  method Crc32(bytes: seq<bv8>) returns (crc: bv32)
    ensures crc == BitwiseCrc(bytes)
  {
    hide Steps, FeedByte, Xor, LowByte, Upper;
    var table := MakeTable();
    crc := ONES;
    for i := 0 to |bytes|
      invariant IsTable(table[..])
      invariant crc == Feed(ONES, bytes[..i])
    {
      assert bytes[..i + 1][..i] == bytes[..i];
      TableStep(crc, bytes[i]);
      var mixed := Xor(crc, bytes[i] as bv32);
      IndexRoundTrip(mixed);
      var index := LowByte(mixed) as int;
      assert index as bv32 == LowByte(mixed);
      assert table[index] == table[..][index] == Steps(index as bv32, 8);
      crc := Xor(table[index], Upper(crc));
    }
    assert bytes[..|bytes|] == bytes;
    crc := Xor(crc, ONES);
  }

  // --------------------------------------------------------- a known check value

  lemma BitFed(crc: bv32, b: bv32, next: bv32, rest: bv32, n: nat)
    requires next == Step(Xor(crc, LowestBit(b))) && rest == Half(b)
    ensures FeedBits(crc, b, n + 1) == FeedBits(next, rest, n)
  {
  }

  lemma FeedNext(crc: bv32, bytes: seq<bv8>, b: bv8)
    ensures Feed(crc, []) == crc && Feed(crc, bytes + [b]) == FeedByte(Feed(crc, bytes), b)
  {
    hide FeedByte;
    assert (bytes + [b])[..|bytes|] == bytes;
  }

  lemma FedI()
    ensures FeedByte(0xffffffff, 73) == 0x22fde946
  {
    assert (73 as bv8) as bv32 == 0x49;
    BitFed(0xffffffff, 0x49, 0x7fffffff, 0x24, 7);
    BitFed(0x7fffffff, 0x24, 0xd2477cdf, 0x12, 6);
    BitFed(0xd2477cdf, 0x12, 0x849b3d4f, 0x9, 5);
    BitFed(0x849b3d4f, 0x9, 0x424d9ea7, 0x4, 4);
    BitFed(0x424d9ea7, 0x4, 0xcc9e4c73, 0x2, 3);
    BitFed(0xcc9e4c73, 0x2, 0x8bf7a519, 0x1, 2);
    BitFed(0x8bf7a519, 0x1, 0x45fbd28c, 0x0, 1);
    BitFed(0x45fbd28c, 0x0, 0x22fde946, 0x0, 0);
    hide Step, Xor, LowestBit, Half;
  }

  lemma FedE()
    ensures FeedByte(0x22fde946, 69) == 0x992bac53
  {
    assert (69 as bv8) as bv32 == 0x45;
    BitFed(0x22fde946, 0x45, 0xfcc67783, 0x22, 7);
    BitFed(0xfcc67783, 0x22, 0x93dbb8e1, 0x11, 6);
    BitFed(0x93dbb8e1, 0x11, 0x49eddc70, 0x8, 5);
    BitFed(0x49eddc70, 0x8, 0x24f6ee38, 0x4, 4);
    BitFed(0x24f6ee38, 0x4, 0x127b771c, 0x2, 3);
    BitFed(0x127b771c, 0x2, 0x93dbb8e, 0x1, 2);
    BitFed(0x93dbb8e, 0x1, 0xe9265ee7, 0x0, 1);
    BitFed(0xe9265ee7, 0x0, 0x992bac53, 0x0, 0);
    hide Step, Xor, LowestBit, Half;
  }

  lemma FedN()
    ensures FeedByte(0x992bac53, 78) == 0x639f4775
  {
    assert (78 as bv8) as bv32 == 0x4e;
    BitFed(0x992bac53, 0x4e, 0xa12d5509, 0x27, 7);
    BitFed(0xa12d5509, 0x27, 0x5096aa84, 0x13, 6);
    BitFed(0x5096aa84, 0x13, 0xc5f3d662, 0x9, 5);
    BitFed(0xc5f3d662, 0x9, 0x8f416811, 0x4, 4);
    BitFed(0x8f416811, 0x4, 0xaa183728, 0x2, 3);
    BitFed(0xaa183728, 0x2, 0x550c1b94, 0x1, 2);
    BitFed(0x550c1b94, 0x1, 0xc73e8eea, 0x0, 1);
    BitFed(0xc73e8eea, 0x0, 0x639f4775, 0x0, 0);
    hide Step, Xor, LowestBit, Half;
  }

  lemma FedD()
    ensures FeedByte(0x639f4775, 68) == 0x51bd9f7d
  {
    assert (68 as bv8) as bv32 == 0x44;
    BitFed(0x639f4775, 0x44, 0xdc77209a, 0x22, 7);
    BitFed(0xdc77209a, 0x22, 0x6e3b904d, 0x11, 6);
    BitFed(0x6e3b904d, 0x11, 0x371dc826, 0x8, 5);
    BitFed(0x371dc826, 0x8, 0x1b8ee413, 0x4, 4);
    BitFed(0x1b8ee413, 0x4, 0xe07ff129, 0x2, 3);
    BitFed(0xe07ff129, 0x2, 0x9d877bb4, 0x1, 2);
    BitFed(0x9d877bb4, 0x1, 0xa37b3efa, 0x0, 1);
    BitFed(0xa37b3efa, 0x0, 0x51bd9f7d, 0x0, 0);
    hide Step, Xor, LowestBit, Half;
  }

  /** The CRC of the four bytes of the type of the last chunk is the one every PNG file
      ends with. */
  lemma KnownCrc()
    ensures BitwiseCrc([73, 69, 78, 68]) == 0xae42_6082
  {
    FedI();
    FedE();
    FedN();
    FedD();
    assert Xor(0x51bd9f7d, ONES) == 0xae42_6082;
    hide FeedByte, Xor;
    var one, two, three: seq<bv8> := [73], [73, 69], [73, 69, 78];
    FeedNext(ONES, [], 73);
    assert [] + [73] == one;
    FeedNext(ONES, one, 69);
    assert one + [69] == two;
    FeedNext(ONES, two, 78);
    assert two + [78] == three;
    FeedNext(ONES, three, 68);
    assert three + [68] == [73, 69, 78, 68];
  }
}
