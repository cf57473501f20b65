/** The text checksum of `crc32.util.ts`: a table-driven CRC-32 over bytes.

    The reference is the bit-serial division of section 8 of RFC 1952: one message
    bit enters at the low end of the register, and the register is reduced by the
    reflected polynomial whenever a one bit falls out. */
module Crc32 {
  import opened Words

  const POLYNOMIAL: nat := 0xedb88320
  const ALL_ONES: nat := 0xffff_ffff
  const WORD_SIZE: nat := 0x1_0000_0000

  type Word = n: nat | n < WORD_SIZE
  type Byte = n: nat | n < 256

  // ---------- the bit-serial reference ----------

  /** One division step of the register, without input. */
  function Step(c: nat): nat {
    if c % 2 == 1 then Xor(POLYNOMIAL, c / 2) else c / 2
  }

  function Steps(c: nat, n: nat): nat
    decreases n
  {
    if n == 0 then c else Steps(Step(c), n - 1)
  }

  /** One message bit is added to the bit that is about to fall out. */
  function FeedBit(c: nat, bit: bool): nat {
    if (c % 2 == 1) != bit then Xor(POLYNOMIAL, c / 2) else c / 2
  }

  function FeedBits(c: nat, bits: seq<bool>): nat
    decreases |bits|
  {
    if bits == [] then c else FeedBits(FeedBit(c, bits[0]), bits[1..])
  }

  /** The low `n` bits of a number, least significant first. */
  function LowBits(r: nat, n: nat): (bits: seq<bool>)
    ensures |bits| == n
    decreases n
  {
    if n == 0 then [] else [r % 2 == 1] + LowBits(r / 2, n - 1)
  }

  /** The bits of a message in the order a bit-serial divider receives them. */
  function MessageBits(data: seq<Byte>): (bits: seq<bool>)
    ensures |bits| == 8 * |data|
  {
    if data == [] then [] else LowBits(data[0], 8) + MessageBits(data[1..])
  }

  /** The checksum by definition. */
  function BitSerialCrc(data: seq<Byte>): nat {
    Xor(FeedBits(ALL_ONES, MessageBits(data)), ALL_ONES)
  }

  // ---------- linearity, and what one byte does ----------

  lemma AddOnce(p: nat, x: nat, y: nat)
    ensures Xor(p, Xor(x, y)) == Xor(Xor(p, x), y) == Xor(x, Xor(p, y))
    ensures Xor(x, y) == Xor(Xor(p, x), Xor(p, y))
  {
    XorAssociates(p, x, y);
    XorAssociates(x, p, y);
    XorCommutes(p, x);
    XorInterchange(p, x, p, y);
    XorSelf(p);
    XorZero(Xor(x, y));
  }

  lemma StepIsLinear(x: nat, y: nat)
    ensures Step(Xor(x, y)) == Xor(Step(x), Step(y))
  {
    XorBit(x, y);
    AddOnce(POLYNOMIAL, x / 2, y / 2);
  }

  lemma {:induction false} StepsAreLinear(x: nat, y: nat, n: nat)
    ensures Steps(Xor(x, y), n) == Xor(Steps(x, n), Steps(y, n))
    decreases n
  {
    if n != 0 {
      StepIsLinear(x, y);
      StepsAreLinear(Step(x), Step(y), n - 1);
    }
  }

  /** Adding a word to the register beforehand is feeding its bits one by one. */
  lemma {:induction false} AddThenStep(c: nat, r: nat, n: nat)
    ensures Steps(Xor(c, r), n) == Xor(FeedBits(c, LowBits(r, n)), Shr(r, n))
    decreases n
  {
    if n != 0 {
      XorBit(c, r);
      XorAssociates(POLYNOMIAL, c / 2, r / 2);
      assert Step(Xor(c, r)) == Xor(FeedBit(c, r % 2 == 1), r / 2);
      AddThenStep(FeedBit(c, r % 2 == 1), r / 2, n - 1);
      assert LowBits(r, n)[1..] == LowBits(r / 2, n - 1);
    }
  }

  /** A byte-aligned word only slides down when eight bits are divided out of it. */
  lemma {:induction false} StepsOfAligned(h: nat, n: nat)
    ensures Steps(h * Pow2(n), n) == h
    decreases n
  {
    if n != 0 {
      var half := h * Pow2(n - 1);
      assert h * Pow2(n) == 2 * half;
      StepsOfAligned(h, n - 1);
    }
  }

  lemma XorOfDouble(low: nat, half: nat)
    requires Xor(low / 2, half) == low / 2 + half
    ensures Xor(low, 2 * half) == low + 2 * half
  {
    XorOnTop(low / 2, low % 2, half);
  }

  /** One bit under two words that share no bit. */
  lemma XorOnTop(upper: nat, bit: nat, half: nat)
    requires bit < 2 && Xor(upper, half) == upper + half
    ensures Xor(2 * upper + bit, 2 * half) == 2 * upper + bit + 2 * half
  {
    assert (2 * upper + bit) / 2 == upper && (2 * half) / 2 == half;
  }

  lemma {:induction false} XorDisjoint(low: nat, h: nat, n: nat)
    requires low < Pow2(n)
    ensures Xor(low, h * Pow2(n)) == low + h * Pow2(n)
    decreases n
  {
    if n == 0 {
      XorZero(h);
    } else {
      var half := h * Pow2(n - 1);
      assert h * Pow2(n) == 2 * half;
      XorDisjoint(low / 2, h, n - 1);
      XorOfDouble(low, half);
    }
  }

  /** For every register and byte, the byte-wise step is eight bit-wise ones. */
  lemma ByteStep(c: nat, b: Byte)
    ensures FeedBits(c, LowBits(b, 8)) == Xor(c / 256, Steps(Xor(c % 256, b), 8))
  {
    assert Pow2(8) == 256;
    var low, high := c % 256, c / 256 * 256;
    AddThenStep(c, b, 8);
    ShrOfSmall(b, 8);
    XorZero(FeedBits(c, LowBits(b, 8)));
    XorDisjoint(low, c / 256, 8);
    XorCommutes(low, high);
    XorAssociates(high, low, b);
    StepsAreLinear(high, Xor(low, b), 8);
    StepsOfAligned(c / 256, 8);
  }

  lemma {:induction false} FeedConcat(c: nat, p: seq<bool>, q: seq<bool>)
    ensures FeedBits(c, p + q) == FeedBits(FeedBits(c, p), q)
    decreases |p|
  {
    if p == [] {
      assert p + q == q;
    } else {
      assert (p + q)[1..] == p[1..] + q;
      FeedConcat(FeedBit(c, p[0]), p[1..], q);
    }
  }

  lemma FeedBitBound(c: nat, bit: bool)
    requires c < WORD_SIZE
    ensures FeedBit(c, bit) < WORD_SIZE
  {
    assert Pow2(32) == WORD_SIZE by { PowerOfWord(); }
    XorBound(POLYNOMIAL, c / 2, 32);
  }

  lemma PowerOfWord()
    ensures Pow2(31) == 0x8000_0000 && Pow2(32) == WORD_SIZE
  {
    assert Pow2(8) == 256 && Pow2(16) == 65536;
    assert Pow2(24) == 0x100_0000;
  }

  lemma {:induction false} FeedBound(c: nat, bits: seq<bool>)
    requires c < WORD_SIZE
    ensures FeedBits(c, bits) < WORD_SIZE
    decreases |bits|
  {
    if bits != [] {
      FeedBitBound(c, bits[0]);
      FeedBound(FeedBit(c, bits[0]), bits[1..]);
    }
  }

  // ---------- the table-driven form ----------

  ghost predicate IsEntry(i: nat, c: nat) { c == Steps(i, 8) }

  ghost predicate IsCrcTable(t: seq<Word>) {
    |t| == 256 && forall i :: 0 <= i < 256 ==> IsEntry(i, t[i])
  }

  /** The table of the module is filled in place on first use and then kept. */
  class ChecksumModule {
    var crcTable: array?<Word>

    ghost predicate Valid()
      reads this, crcTable
    {
      crcTable != null ==> IsCrcTable(crcTable[..])
    }

    constructor ()
      ensures Valid() && crcTable == null
    {
      crcTable := null;
    }

    static method TableEntry(i: Word) returns (c: Word)
      ensures c == Steps(i, 8)
    {
      c := i;
      for j := 0 to 8
        invariant Steps(c, 8 - j) == Steps(i, 8)
      {
        FeedBitBound(c, false);
        c := if c % 2 == 1 then Xor(POLYNOMIAL, c / 2) else c / 2;
      }
    }

    static method FillTable(table: array<Word>)
      requires table.Length == 256
      modifies table
      ensures IsCrcTable(table[..])
    {
      for i := 0 to 256
        invariant forall k :: 0 <= k < i ==> IsEntry(k, table[k])
      {
        var c := TableEntry(i);
        table[i] := c;
      }
    }

    method GetCrc32Table() returns (t: array<Word>)
      requires Valid()
      modifies this
      ensures Valid() && t == crcTable && IsCrcTable(t[..])
      ensures old(crcTable) != null ==> t == old(crcTable)
    {
      if crcTable != null {
        return crcTable;
      }
      t := new Word[256](_ => 0);
      FillTable(t);
      crcTable := t;
    }

    method Crc32(bytes: seq<Byte>) returns (r: Word)
      requires Valid()
      modifies this
      ensures Valid()
      ensures r == BitSerialCrc(bytes)
    {
      var table := GetCrc32Table();
      var crc: Word := ALL_ONES;
      for i := 0 to |bytes|
        invariant Valid() && crcTable == table && IsCrcTable(table[..])
        invariant FeedBits(crc, MessageBits(bytes[i..])) == FeedBits(ALL_ONES, MessageBits(bytes))
      {
        ghost var next := FeedBits(crc, LowBits(bytes[i], 8));
        ByteStep(crc, bytes[i]);
        FeedBound(crc, LowBits(bytes[i], 8));
        FeedConcat(crc, LowBits(bytes[i], 8), MessageBits(bytes[i + 1..]));
        assert bytes[i..][1..] == bytes[i + 1..];
        assert Pow2(8) == 256;
        XorBound(crc % 256, bytes[i], 8);
        var index := Xor(crc % 256, bytes[i]);
        assert IsEntry(index, table[..][index]);
        crc := Xor(crc / 256, table[index]);
      }
      PowerOfWord();
      XorBound(crc, ALL_ONES, 32);
      r := Xor(crc, ALL_ONES);
    }
  }

  // ---------- change detection ----------

  /** The register before a step can be recovered from the register after it and the bit. */
  lemma FeedBitInjective(c: nat, d: nat, bit: bool)
    requires c < WORD_SIZE && d < WORD_SIZE
    requires FeedBit(c, bit) == FeedBit(d, bit)
    ensures c == d
  {
    SameTap(c, bit, d, bit, 0);
    XorInjective(POLYNOMIAL, c / 2, d / 2);
  }

  /** The top bit of the register says whether the last step subtracted the polynomial. */
  lemma TopBitIsTap(c: nat, bit: bool)
    requires c < WORD_SIZE
    ensures Shr(FeedBit(c, bit), 31) == if (c % 2 == 1) != bit then 1 else 0
  {
    PowerOfWord();
    ShrOfSmall(c / 2, 31);
    ShrOfXor(POLYNOMIAL, c / 2, 31);
    assert Shr(POLYNOMIAL, 31) == 1 by {
      assert POLYNOMIAL == 0xedb88320;
      ShrTwice(POLYNOMIAL, 8, 8);
      ShrTwice(POLYNOMIAL, 16, 8);
      ShrTwice(POLYNOMIAL, 24, 7);
      assert Shr(POLYNOMIAL, 8) == 0xedb883;
      assert Shr(0xedb883, 8) == 0xedb8;
      assert Shr(0xedb8, 8) == 0xed;
      assert Shr(0xed, 7) == 1;
    }
    XorZero(1);
  }

  /** Registers that agree above bit `k <= 31` came from steps that reduced alike. */
  lemma SameTap(c: nat, b: bool, d: nat, e: bool, k: nat)
    requires c < WORD_SIZE && d < WORD_SIZE && k <= 31
    requires Shr(FeedBit(c, b), k) == Shr(FeedBit(d, e), k)
    ensures ((c % 2 == 1) != b) == ((d % 2 == 1) != e)
    ensures Shr(c, k + 1) == Shr(d, k + 1)
  {
    TopBitIsTap(c, b);
    TopBitIsTap(d, e);
    ShrTwice(FeedBit(c, b), k, 31 - k);
    ShrTwice(FeedBit(d, e), k, 31 - k);
    ShrOfXor(POLYNOMIAL, c / 2, k);
    ShrOfXor(POLYNOMIAL, d / 2, k);
    XorInjective(Shr(POLYNOMIAL, k), Shr(c / 2, k), Shr(d / 2, k));
  }

  lemma {:induction false} FeedInjective(c: nat, d: nat, bits: seq<bool>)
    requires c < WORD_SIZE && d < WORD_SIZE
    requires FeedBits(c, bits) == FeedBits(d, bits)
    ensures c == d
    decreases |bits|
  {
    if bits != [] {
      FeedBitBound(c, bits[0]);
      FeedBitBound(d, bits[0]);
      FeedInjective(FeedBit(c, bits[0]), FeedBit(d, bits[0]), bits[1..]);
      FeedBitInjective(c, d, bits[0]);
    }
  }

  /** Fewer than 32 bits cannot hide the high bits of the register they were fed to. */
  lemma {:induction false} SameEndSameHighBits(c: nat, v: seq<bool>, d: nat, w: seq<bool>)
    requires c < WORD_SIZE && d < WORD_SIZE && |v| == |w| <= 32
    requires FeedBits(c, v) == FeedBits(d, w)
    ensures Shr(c, |v|) == Shr(d, |w|)
    decreases |v|
  {
    if v != [] {
      FeedBitBound(c, v[0]);
      FeedBitBound(d, w[0]);
      SameEndSameHighBits(FeedBit(c, v[0]), v[1..], FeedBit(d, w[0]), w[1..]);
      SameTap(c, v[0], d, w[0], |v| - 1);
    }
  }

  /** At most 32 bits are fed to one register injectively. */
  lemma {:induction false} WindowInjective(c: nat, v: seq<bool>, w: seq<bool>)
    requires c < WORD_SIZE && |v| == |w| <= 32
    requires FeedBits(c, v) == FeedBits(c, w)
    ensures v == w
    decreases |v|
  {
    if v != [] {
      FeedBitBound(c, v[0]);
      FeedBitBound(c, w[0]);
      SameEndSameHighBits(FeedBit(c, v[0]), v[1..], FeedBit(c, w[0]), w[1..]);
      SameTap(c, v[0], c, w[0], |v| - 1);
      WindowInjective(FeedBit(c, v[0]), v[1..], w[1..]);
      assert v == [v[0]] + v[1..] && w == [w[0]] + w[1..];
    }
  }

  /** Burst detection: two messages that differ, and only inside one window of at most 32
      consecutive bits, never leave the same register. */
  lemma BurstDetected(c: Word, before: seq<bool>, v: seq<bool>, w: seq<bool>, after: seq<bool>)
    requires |v| == |w| <= 32 && v != w
    ensures FeedBits(c, before + v + after) != FeedBits(c, before + w + after)
  {
    var s := FeedBits(c, before);
    FeedBound(c, before);
    FeedConcat(c, before + v, after);
    FeedConcat(c, before, v);
    FeedConcat(c, before + w, after);
    FeedConcat(c, before, w);
    FeedBound(s, v);
    FeedBound(s, w);
    if FeedBits(c, before + v + after) == FeedBits(c, before + w + after) {
      FeedInjective(FeedBits(s, v), FeedBits(s, w), after);
      WindowInjective(s, v, w);
    }
  }

  lemma {:induction false} MessageBitsConcat(p: seq<Byte>, q: seq<Byte>)
    ensures MessageBits(p + q) == MessageBits(p) + MessageBits(q)
  {
    if p == [] {
      assert p + q == q;
    } else {
      assert (p + q)[1..] == p[1..] + q;
      MessageBitsConcat(p[1..], q);
      assert LowBits(p[0], 8) + (MessageBits(p[1..]) + MessageBits(q))
          == LowBits(p[0], 8) + MessageBits(p[1..]) + MessageBits(q);
    }
  }

  lemma {:induction false} LowBitsInjective(x: nat, y: nat, n: nat)
    requires x < Pow2(n) && y < Pow2(n) && LowBits(x, n) == LowBits(y, n)
    ensures x == y
    decreases n
  {
    if n != 0 {
      assert LowBits(x, n)[0] == LowBits(y, n)[0];
      assert LowBits(x / 2, n - 1) == LowBits(x, n)[1..] == LowBits(y, n)[1..] == LowBits(y / 2, n - 1);
      LowBitsInjective(x / 2, y / 2, n - 1);
    }
  }

  lemma {:induction false} MessageBitsInjective(p: seq<Byte>, q: seq<Byte>)
    requires |p| == |q| && MessageBits(p) == MessageBits(q)
    ensures p == q
  {
    if p != [] {
      assert Pow2(8) == 256;
      assert LowBits(p[0], 8) == MessageBits(p)[..8] == MessageBits(q)[..8] == LowBits(q[0], 8);
      assert MessageBits(p[1..]) == MessageBits(p)[8..] == MessageBits(q)[8..] == MessageBits(q[1..]);
      LowBitsInjective(p[0], q[0], 8);
      MessageBitsInjective(p[1..], q[1..]);
      assert p == [p[0]] + p[1..] && q == [q[0]] + q[1..];
    }
  }

  /** Change detection of the checksum: two byte strings of one length that differ, and only
      inside a window of at most four consecutive bytes, never have the same checksum. */
  lemma ChangeDetected(a: seq<Byte>, b: seq<Byte>, at: nat, width: nat)
    requires |a| == |b| && at + width <= |a| && width <= 4
    requires a[..at] == b[..at] && a[at + width..] == b[at + width..]
    requires a != b
    ensures BitSerialCrc(a) != BitSerialCrc(b)
  {
    var before, v, w, after := a[..at], a[at..at + width], b[at..at + width], a[at + width..];
    assert a == before + v + after && b == before + w + after;
    MessageBitsConcat(before + v, after);
    MessageBitsConcat(before, v);
    MessageBitsConcat(before + w, after);
    MessageBitsConcat(before, w);
    if MessageBits(v) == MessageBits(w) { MessageBitsInjective(v, w); }
    BurstDetected(ALL_ONES, MessageBits(before), MessageBits(v), MessageBits(w), MessageBits(after));
    var x, y := FeedBits(ALL_ONES, MessageBits(a)), FeedBits(ALL_ONES, MessageBits(b));
    XorCommutes(x, ALL_ONES);
    XorCommutes(y, ALL_ONES);
    XorInjective(ALL_ONES, x, y);
  }

  /** Four bytes is the limit: in every context one pattern of five bytes is not detected. */
  lemma FiveBytesCanCollide(before: seq<Byte>, after: seq<Byte>)
    ensures BitSerialCrc(before + [0, 0, 0, 0, 0] + after)
         == BitSerialCrc(before + [0x41, 0x06, 0x71, 0xdb, 0x01] + after)
  {
    FiveByteNumbers();
    BitsOfNumber([0, 0, 0, 0, 0]);
    BitsOfNumber([0x41, 0x06, 0x71, 0xdb, 0x01]);
    InvisiblePattern(FeedBits(ALL_ONES, MessageBits(before)));
    CrcInContext(before, [0, 0, 0, 0, 0], after);
    CrcInContext(before, [0x41, 0x06, 0x71, 0xdb, 0x01], after);
  }

  /** The 33 bits of the full polynomial divide out to nothing. */
  lemma InvisiblePattern(c: nat)
    ensures FeedBits(c, LowBits(0x1db71_0641, 40)) == FeedBits(c, LowBits(0, 40))
  {
    var pattern := 0x1db71_0641;
    PowerOfWord();
    assert Pow2(40) > pattern by { assert Pow2(34) == 4 * WORD_SIZE; assert Pow2(40) >= Pow2(34); }
    AddThenStep(c, pattern, 40);
    AddThenStep(c, 0, 40);
    ShrOfSmall(pattern, 40);
    ShrOfSmall(0, 40);
    XorZero(FeedBits(c, LowBits(pattern, 40)));
    XorZero(FeedBits(c, LowBits(0, 40)));
    StepsAreLinear(c, pattern, 40);
    XorSelf(POLYNOMIAL);
    assert pattern / 2 == POLYNOMIAL;
    assert Step(pattern) == 0;
    StepsOfAligned(0, 39);
    XorZero(Steps(c, 40));
    XorZero(c);
  }

  /** A message read as one little-endian number. */
  function Number(data: seq<Byte>): nat {
    if data == [] then 0 else data[0] + 256 * Number(data[1..])
  }

  lemma {:induction false} BitsOfNumber(data: seq<Byte>)
    ensures MessageBits(data) == LowBits(Number(data), 8 * |data|)
  {
    if data != [] {
      var n := 8 * (|data| - 1);
      BitsOfNumber(data[1..]);
      ByteSplit(data[0], Number(data[1..]), n);
      assert 8 * |data| == 8 + n;
    }
  }

  lemma ByteSplit(low: Byte, high: nat, n: nat)
    ensures LowBits(low + 256 * high, 8 + n) == LowBits(low, 8) + LowBits(high, n)
  {
    assert Pow2(8) == 256;
    LowBitsSplit(low, high, 8, n);
  }

  lemma FiveByteNumbers()
    ensures Number([0, 0, 0, 0, 0]) == 0
    ensures Number([0x41, 0x06, 0x71, 0xdb, 0x01]) == 0x1db71_0641
  {
    assert Number([0x71, 0xdb, 0x01]) == 0x1db71;
    assert [0x41, 0x06, 0x71, 0xdb, 0x01][1..][1..] == [0x71, 0xdb, 0x01];
    assert Number([0, 0, 0]) == 0;
    assert [0, 0, 0, 0, 0][1..][1..] == [0, 0, 0];
  }

  lemma CrcInContext(before: seq<Byte>, v: seq<Byte>, after: seq<Byte>)
    ensures FeedBits(ALL_ONES, MessageBits(before + v + after))
         == FeedBits(FeedBits(FeedBits(ALL_ONES, MessageBits(before)), MessageBits(v)), MessageBits(after))
  {
    MessageBitsConcat(before + v, after);
    MessageBitsConcat(before, v);
    FeedConcat(ALL_ONES, MessageBits(before) + MessageBits(v), MessageBits(after));
    FeedConcat(ALL_ONES, MessageBits(before), MessageBits(v));
  }

  lemma {:induction false} LowBitsSplit(low: nat, high: nat, m: nat, n: nat)
    requires low < Pow2(m)
    ensures LowBits(low + Pow2(m) * high, m + n) == LowBits(low, m) + LowBits(high, n)
    decreases m
  {
    if m != 0 {
      var r := low + Pow2(m) * high;
      assert Pow2(m) * high == 2 * (Pow2(m - 1) * high);
      assert r / 2 == low / 2 + Pow2(m - 1) * high && r % 2 == low % 2;
      LowBitsSplit(low / 2, high, m - 1, n);
    }
  }

  // ---------- a message and its checksum ----------

  lemma EmptyChecksum()
    ensures BitSerialCrc([]) == 0
  {
    XorSelf(ALL_ONES);
  }

  lemma ChecksumIsWord(m: seq<Byte>)
    ensures BitSerialCrc(m) < WORD_SIZE
  {
    PowerOfWord();
    FeedBound(ALL_ONES, MessageBits(m));
    XorBound(FeedBits(ALL_ONES, MessageBits(m)), ALL_ONES, 32);
  }

  function LowByte(n: nat): Byte { n % 256 }

  /** A word as four bytes, the lowest first. */
  function Trailer(r: Word): (t: seq<Byte>)
    ensures |t| == 4 && Number(t) == r
  {
    FourDigits(r);
    NumberOfFour(LowByte(r), LowByte(r / 256), LowByte(r / 256 / 256), LowByte(r / 256 / 256 / 256));
    [LowByte(r), LowByte(r / 256), LowByte(r / 256 / 256), LowByte(r / 256 / 256 / 256)]
  }

  lemma FourDigits(r: nat)
    requires r < WORD_SIZE
    ensures r == r % 256 + 256 * (r / 256 % 256 + 256 * (r / 256 / 256 % 256 + 256 * (r / 256 / 256 / 256 % 256)))
  {
    assert r / 256 / 256 / 256 < 256;
  }

  lemma NumberOfFour(a: nat, b: nat, c: nat, d: nat)
    requires a < 256 && b < 256 && c < 256 && d < 256
    ensures Number([a, b, c, d]) == a + 256 * (b + 256 * (c + 256 * d))
  {
    NumberOfOneMore(a, [b, c, d]);
    NumberOfOneMore(b, [c, d]);
    NumberOfOneMore(c, [d]);
    NumberOfOneMore(d, []);
  }

  lemma NumberOfOneMore(a: Byte, rest: seq<Byte>)
    ensures Number([a] + rest) == a + 256 * Number(rest)
  {
    assert ([a] + rest)[1..] == rest;
  }

  lemma TrailerBits(r: Word)
    ensures MessageBits(Trailer(r)) == LowBits(r, 32)
  {
    BitsOfNumber(Trailer(r));
  }

  /** Feeding the register its own complement leaves what does not depend on the register. */
  lemma FeedOwnComplement(c: Word)
    requires Xor(c, ALL_ONES) < WORD_SIZE
    ensures FeedBits(c, LowBits(Xor(c, ALL_ONES), 32)) == Steps(ALL_ONES, 32)
  {
    var r := Xor(c, ALL_ONES);
    PowerOfWord();
    AddThenStep(c, r, 32);
    ShrOfSmall(r, 32);
    XorZero(FeedBits(c, LowBits(r, 32)));
    XorCancels(c, ALL_ONES);
  }

  lemma OwnTrailerLeavesResidue(m: seq<Byte>)
    requires BitSerialCrc(m) < WORD_SIZE
    ensures BitSerialCrc(m + Trailer(BitSerialCrc(m))) == Xor(Steps(ALL_ONES, 32), ALL_ONES)
  {
    var c := FeedBits(ALL_ONES, MessageBits(m));
    FeedBound(ALL_ONES, MessageBits(m));
    MessageBitsConcat(m, Trailer(BitSerialCrc(m)));
    FeedConcat(ALL_ONES, MessageBits(m), MessageBits(Trailer(BitSerialCrc(m))));
    TrailerBits(BitSerialCrc(m));
    FeedOwnComplement(c);
  }

  lemma ZeroTrailer()
    ensures Trailer(0) == [0, 0, 0, 0]
  {}

  /** The checksum of four zero bytes is what a message followed by its own checksum has. */
  lemma Residue(m: seq<Byte>)
    requires BitSerialCrc(m) < WORD_SIZE
    ensures BitSerialCrc(m + Trailer(BitSerialCrc(m))) == BitSerialCrc([0, 0, 0, 0])
  {
    EmptyChecksum();
    OwnTrailerLeavesResidue(m);
    OwnTrailerLeavesResidue([]);
    ZeroTrailer();
    assert [] + Trailer(0) == [0, 0, 0, 0];
  }

  lemma OtherTrailerDiffers(m: seq<Byte>, t: seq<Byte>, own: seq<Byte>)
    requires |t| == |own| == 4 && t != own
    ensures BitSerialCrc(m + t) != BitSerialCrc(m + own)
  {
    var a, b := m + t, m + own;
    assert a[..|m|] == m == b[..|m|];
    assert a[|m| + 4..] == [] == b[|m| + 4..];
    assert a[|m|..] == t && b[|m|..] == own;
    ChangeDetected(a, b, |m|, 4);
  }

  /** The residue: four bytes appended to a message bring its checksum to that of four zero bytes
      exactly when they are the checksum of the message, its lowest byte first. */
  lemma OnlyTheChecksumFits(m: seq<Byte>, t: seq<Byte>)
    requires |t| == 4
    ensures BitSerialCrc(m) < WORD_SIZE
    ensures BitSerialCrc(m + t) == BitSerialCrc([0, 0, 0, 0]) <==> t == Trailer(BitSerialCrc(m))
  {
    ChecksumIsWord(m);
    Residue(m);
    if t != Trailer(BitSerialCrc(m)) { OtherTrailerDiffers(m, t, Trailer(BitSerialCrc(m))); }
  }

  /** The low bits of the register decide the next taps. */
  lemma StepLow(c: nat, n: nat, low: nat)
    requires c % Pow2(n + 1) == low
    ensures low % 2 == 0 ==> Step(c) % Pow2(n) == low / 2
    ensures low % 2 == 1 ==> Step(c) % Pow2(n) == Xor(POLYNOMIAL % Pow2(n), low / 2) % Pow2(n)
  {
    LowHalf(c, n + 1);
    XorLow(POLYNOMIAL, c / 2, n);
  }

  lemma Tap(c: nat, n: nat, m: nat, low: nat, next: nat)
    requires m == Pow2(n) && c % (2 * m) == low
    requires next == if low % 2 == 0 then low / 2 else Xor(POLYNOMIAL % m, low / 2) % m
    ensures Step(c) % m == next
  {
    StepLow(c, n, low);
  }

  lemma FirstTap(c: nat)
    requires c % 256 == 255
    ensures Step(c) % 128 == 95
  {
    assert Xor(1, 3) == 2;
    assert Xor(2, 7) == 5;
    assert Xor(4, 15) == 11;
    assert Xor(8, 31) == 23;
    assert Xor(16, 63) == 47;
    assert Xor(32, 127) == 95;
    Tap(c, 7, 128, 255, 95);
  }

  lemma SecondTap(c: nat)
    requires c % 128 == 95
    ensures Step(c) % 64 == 15
  {
    assert Xor(2, 2) == 0;
    assert Xor(4, 5) == 1;
    assert Xor(8, 11) == 3;
    assert Xor(16, 23) == 7;
    assert Xor(32, 47) == 15;
    Tap(c, 6, 64, 95, 15);
  }

  /** The polynomial has no low bits to add. */
  lemma PlainTap(c: nat, n: nat, m: nat, low: nat)
    requires m == Pow2(n) && POLYNOMIAL % m == 0 && c % (2 * m) == low < m
    ensures Step(c) % m == low / 2
  {
    var half := low / 2;
    XorZero(half);
    RemainderIs(half, 0, m, half);
    assert Pow2(n + 1) == 2 * m;
    StepLow(c, n, low);
    assert Xor(POLYNOMIAL % Pow2(n), half) == half;
  }

  lemma EarlyTaps(c: nat)
    requires c % 256 == 255
    ensures Steps(c, 3) % 32 == 7
  {
    FirstTap(c);
    SecondTap(Step(c));
    assert Pow2(5) == 32;
    PlainTap(Step(Step(c)), 5, 32, 15);
    ThreeSteps(c);
  }

  lemma MiddleTaps(c: nat)
    requires c % 32 == 7
    ensures Steps(c, 3) % 4 == 0
  {
    assert Pow2(4) == 16 && Pow2(3) == 8 && Pow2(2) == 4;
    PlainTap(c, 4, 16, 7);
    PlainTap(Step(c), 3, 8, 3);
    PlainTap(Step(Step(c)), 2, 4, 1);
    ThreeSteps(c);
  }

  lemma ThreeSteps(c: nat)
    ensures Steps(c, 3) == Step(Step(Step(c)))
  {
    assert Steps(Step(c), 2) == Steps(Step(Step(c)), 1);
    assert Steps(Step(Step(c)), 1) == Steps(Step(Step(Step(c))), 0);
  }

  lemma {:induction false} StepsCompose(c: nat, m: nat, n: nat)
    ensures Steps(c, m + n) == Steps(Steps(c, m), n)
    decreases m
  {
    if m != 0 { StepsCompose(Step(c), m - 1, n); }
  }

  lemma EvenAtLast(c: nat)
    requires c % 256 == 255
    ensures Steps(c, 8) == Steps(c, 6) / 4
  {
    EarlyTaps(c);
    StepsCompose(c, 3, 3);
    MiddleTaps(Steps(c, 3));
    StepsCompose(c, 6, 2);
    var d := Steps(c, 6);
    assert d % 2 == 0 && d / 2 % 2 == 0;
    assert Steps(d, 2) == Steps(Step(d), 1) == Step(Step(d));
  }

  /** Eight zero bits take a register of ones to another one. */
  lemma OnesMoveOn()
    ensures Steps(ALL_ONES, 8) != ALL_ONES
  {
    EvenAtLast(ALL_ONES);
    ZeroBits(ALL_ONES, 6);
    FeedBound(ALL_ONES, LowBits(0, 6));
  }

  lemma ZeroBits(c: nat, n: nat)
    ensures FeedBits(c, LowBits(0, n)) == Steps(c, n)
  {
    AddThenStep(c, 0, n);
    XorZero(c);
    ShrOfSmall(0, n);
    XorZero(FeedBits(c, LowBits(0, n)));
  }

  /** The register starts with ones so that leading zero bytes count. */
  lemma LeadingZerosCount(m: seq<Byte>)
    ensures BitSerialCrc([0] + m) != BitSerialCrc(m)
  {
    OnesMoveOn();
    ZeroBits(ALL_ONES, 8);
    assert MessageBits([0]) == LowBits(0, 8) + [] == LowBits(0, 8);
    MessageBitsConcat([0], m);
    FeedConcat(ALL_ONES, LowBits(0, 8), MessageBits(m));
    FeedBound(ALL_ONES, LowBits(0, 8));
    var x, y := FeedBits(Steps(ALL_ONES, 8), MessageBits(m)), FeedBits(ALL_ONES, MessageBits(m));
    if x == y { FeedInjective(Steps(ALL_ONES, 8), ALL_ONES, MessageBits(m)); }
    XorCommutes(x, ALL_ONES);
    XorCommutes(y, ALL_ONES);
    XorInjective(ALL_ONES, x, y);
  }
}
