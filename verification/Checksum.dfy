/**
 * The frame checksum: the table-driven POSIX cksum, and the reader's form of it, a reflected
 * CRC-32 over bit-reversed bytes. The two are equal on every byte string.
 */
module Checksum {

  type Byte = bv8

  // --- the POSIX form: most significant bit first -----------------------------------------

  const POLY: bv32 := 0x04C11DB7

  function ShiftLeft(c: bv32): bv32 {
    if c & 0x80000000 != 0 then (c << 1) ^ POLY else c << 1
  }

  function ShiftLeftBy(c: bv32, n: nat): bv32 {
    if n == 0 then c else ShiftLeft(ShiftLeftBy(c, n - 1))
  }

  /** The table entry of a byte: eight shifts of the byte placed in the top bits. */
  function Entry(b: Byte): bv32 {
    ShiftLeftBy((b as bv32) << 24, 8)
  }

  function TopByte(c: bv32): Byte {
    ((c >> 24) & 0xFF) as Byte
  }

  /** The 256 entries, built once. */
  function Table(): (t: seq<bv32>)
    ensures |t| == 256
  {
    seq(256, i requires 0 <= i < 256 => Entry(i as Byte))
  }

  function Feed(table: seq<bv32>, crc: bv32, b: Byte): bv32
    requires |table| == 256
  {
    (crc << 8) ^ table[(TopByte(crc) ^ b) as int]
  }

  function FeedAll(table: seq<bv32>, crc: bv32, data: seq<Byte>): bv32
    requires |table| == 256
  {
    if |data| == 0 then crc else Feed(table, FeedAll(table, crc, data[..|data| - 1]), data[|data| - 1])
  }

  /** The length as bytes, least significant first, without leading zeros. */
  function LengthBytes(n: nat): seq<Byte> {
    if n == 0 then [] else [(n % 256) as Byte] + LengthBytes(n / 256)
  }

  function Cksum(data: seq<Byte>): bv32 {
    !FeedAll(Table(), FeedAll(Table(), 0, data), LengthBytes(|data|))
  }

  // --- the reflected form: least significant bit first --------------------------------------

  const REFLECTED_POLY: bv32 := 0xEDB88320

  function ShiftRight(c: bv32): bv32 {
    if c & 1 != 0 then (c >> 1) ^ REFLECTED_POLY else c >> 1
  }

  function ShiftRightBy(c: bv32, n: nat): bv32 {
    if n == 0 then c else ShiftRight(ShiftRightBy(c, n - 1))
  }

  function ReflectedEntry(b: Byte): bv32 {
    ShiftRightBy(b as bv32, 8)
  }

  function LowByte(c: bv32): Byte {
    (c & 0xFF) as Byte
  }

  function ReflectedTable(): (t: seq<bv32>)
    ensures |t| == 256
  {
    seq(256, i requires 0 <= i < 256 => ReflectedEntry(i as Byte))
  }

  function ReflectedFeed(table: seq<bv32>, crc: bv32, b: Byte): bv32
    requires |table| == 256
  {
    table[(LowByte(crc) ^ b) as int] ^ (crc >> 8)
  }

  function ReflectedFeedAll(table: seq<bv32>, crc: bv32, data: seq<Byte>): bv32
    requires |table| == 256
  {
    if |data| == 0 then crc
    else ReflectedFeed(table, ReflectedFeedAll(table, crc, data[..|data| - 1]), data[|data| - 1])
  }

  /** crc32(data, start): the register is the complement of the value, going in and coming out. */
  function Crc32(data: seq<Byte>, start: bv32): bv32 {
    !ReflectedFeedAll(ReflectedTable(), !start, data)
  }

  // --- bit reversal ----------------------------------------------------------------------------

  function Reverse32(x: bv32): bv32 {
    var a := ((x & 0x55555555) << 1) | ((x >> 1) & 0x55555555);
    var b := ((a & 0x33333333) << 2) | ((a >> 2) & 0x33333333);
    var c := ((b & 0x0F0F0F0F) << 4) | ((b >> 4) & 0x0F0F0F0F);
    var d := ((c & 0x00FF00FF) << 8) | ((c >> 8) & 0x00FF00FF);
    (d << 16) | (d >> 16)
  }

  function Reverse8(x: Byte): Byte {
    var a := ((x & 0x55) << 1) | ((x >> 1) & 0x55);
    var b := ((a & 0x33) << 2) | ((a >> 2) & 0x33);
    (b << 4) | (b >> 4)
  }

  function ReverseEach(data: seq<Byte>): (r: seq<Byte>) {
    seq(|data|, i requires 0 <= i < |data| => Reverse8(data[i]))
  }

  function BitLength(n: nat): nat {
    if n == 0 then 0 else 1 + BitLength(n / 2)
  }

  /** n in exactly width bytes, least significant first. */
  function ToBytes(n: nat, width: nat): seq<Byte> {
    if width == 0 then [] else [(n % 256) as Byte] + ToBytes(n / 256, width - 1)
  }

  /** The bytes with their length behind them, in as few bytes as it needs. */
  function WithLength(data: seq<Byte>): seq<Byte> {
    var n := |data|;
    data + ToBytes(n, (BitLength(n) + 7) / 8)
  }

  /** The library call of the reader, on mirrored bytes. */
  function FastCrc(data: seq<Byte>): bv32 {
    Crc32(ReverseEach(WithLength(data)), 0xFFFFFFFF)
  }

  /** The reader's checksum. */
  function FastCksum(data: seq<Byte>): bv32 {
    Reverse32(FastCrc(data))
  }

  // --- one shift, one byte, one string -------------------------------------------------------

  lemma ReverseOfOneShift(c: bv32)
    ensures Reverse32(c >> 1) == Reverse32(c) << 1
  {
  }

  lemma ReverseOfEndBit(c: bv32)
    ensures c & 1 != 0 <==> Reverse32(c) & 0x80000000 != 0
  {
  }

  lemma ReverseOfPoly()
    ensures Reverse32(REFLECTED_POLY) == POLY
  {
  }

  /** Shifting right in mirror image is shifting left. */
  lemma ShiftsMirror(c: bv32)
    ensures Reverse32(ShiftRight(c)) == ShiftLeft(Reverse32(c))
  {
    ReverseOfOneShift(c);
    ReverseOfEndBit(c);
    ReverseOfPoly();
    ReverseIsLinear(c >> 1, REFLECTED_POLY);
  }

  lemma ReverseIsLinear(x: bv32, y: bv32)
    ensures Reverse32(x ^ y) == Reverse32(x) ^ Reverse32(y)
  {
  }

  lemma ReverseOfByte(b: Byte)
    ensures Reverse32(b as bv32) == (Reverse8(b) as bv32) << 24
  {
  }

  lemma ReverseOfLowByte(c: bv32)
    ensures Reverse8(LowByte(c)) == TopByte(Reverse32(c))
  {
  }

  lemma ReverseOfShift(c: bv32)
    ensures Reverse32(c >> 8) == Reverse32(c) << 8
  {
  }

  lemma Reverse8IsLinear(x: Byte, y: Byte)
    ensures Reverse8(x ^ y) == Reverse8(x) ^ Reverse8(y)
  {
  }

  lemma Reverse8Twice(x: Byte)
    ensures Reverse8(Reverse8(x)) == x
  {
  }

  lemma {:induction false} ManyShiftsMirror(c: bv32, n: nat)
    ensures Reverse32(ShiftRightBy(c, n)) == ShiftLeftBy(Reverse32(c), n)
  {
    if n > 0 {
      ManyShiftsMirror(c, n - 1);
      ShiftsMirror(ShiftRightBy(c, n - 1));
    }
  }

  /** The reflected table is the mirror image of the other. */
  lemma EntriesMirror(b: Byte)
    ensures Reverse32(ReflectedEntry(b)) == Entry(Reverse8(b))
  {
    ManyShiftsMirror(b as bv32, 8);
    ReverseOfByte(b);
  }

  lemma ByteRoundTrip(b: Byte)
    ensures (b as int) as Byte == b
  {
  }

  /** Each entry of one table is the mirror image of the mirrored entry of the other. */
  ghost predicate TablesMirror(left: seq<bv32>, right: seq<bv32>) {
    |left| == 256 && |right| == 256 && forall b: Byte :: Reverse32(right[b as int]) == left[Reverse8(b) as int]
  }

  lemma TheTablesMirror()
    ensures TablesMirror(Table(), ReflectedTable())
  {
    forall b: Byte ensures Reverse32(ReflectedTable()[b as int]) == Table()[Reverse8(b) as int] {
      ByteRoundTrip(b);
      ByteRoundTrip(Reverse8(b));
      EntriesMirror(b);
    }
  }

  lemma IndexMirrors(crc: bv32, b: Byte)
    ensures Reverse8(LowByte(crc) ^ Reverse8(b)) == TopByte(Reverse32(crc)) ^ b
  {
    Reverse8IsLinear(LowByte(crc), Reverse8(b));
    ReverseOfLowByte(crc);
    Reverse8Twice(b);
  }

  lemma MirroredSum(e: bv32, s: bv32, mirroredE: bv32, mirroredS: bv32)
    requires Reverse32(e) == mirroredE && Reverse32(s) == mirroredS
    ensures Reverse32(e ^ s) == mirroredS ^ mirroredE
  {
    ReverseIsLinear(e, s);
  }

  lemma FedEntry(left: seq<bv32>, right: seq<bv32>, crc: bv32, b: Byte)
    requires TablesMirror(left, right)
    ensures Reverse32(right[(LowByte(crc) ^ Reverse8(b)) as int]) == left[(TopByte(Reverse32(crc)) ^ b) as int]
  {
    IndexMirrors(crc, b);
  }

  lemma ReflectedFeedReversed(right: seq<bv32>, crc: bv32, b: Byte, e: bv32, s: bv32)
    requires |right| == 256
    requires Reverse32(right[(LowByte(crc) ^ b) as int]) == e && Reverse32(crc >> 8) == s
    ensures Reverse32(ReflectedFeed(right, crc, b)) == s ^ e
  {
    MirroredSum(right[(LowByte(crc) ^ b) as int], crc >> 8, e, s);
  }

  lemma FeedParts(left: seq<bv32>, crc: bv32, b: Byte, e: bv32, s: bv32)
    requires |left| == 256
    requires left[(TopByte(crc) ^ b) as int] == e && crc << 8 == s
    ensures Feed(left, crc, b) == s ^ e
  {
  }

  lemma FeedsMirrorAt(left: seq<bv32>, right: seq<bv32>, crc: bv32, b: Byte, e: bv32, s: bv32)
    requires |left| == |right| == 256
    requires Reverse32(right[(LowByte(crc) ^ Reverse8(b)) as int]) == e && Reverse32(crc >> 8) == s
    requires left[(TopByte(Reverse32(crc)) ^ b) as int] == e && Reverse32(crc) << 8 == s
    ensures Reverse32(ReflectedFeed(right, crc, Reverse8(b))) == Feed(left, Reverse32(crc), b)
  {
    ReflectedFeedReversed(right, crc, Reverse8(b), e, s);
    FeedParts(left, Reverse32(crc), b, e, s);
  }

  /** One byte: the mirrored register fed the mirrored byte. */
  lemma FeedsMirror(left: seq<bv32>, right: seq<bv32>, crc: bv32, b: Byte)
    requires TablesMirror(left, right)
    ensures Reverse32(ReflectedFeed(right, crc, Reverse8(b))) == Feed(left, Reverse32(crc), b)
  {
    FedEntry(left, right, crc, b);
    ReverseOfShift(crc);
    FeedsMirrorAt(left, right, crc, b, left[(TopByte(Reverse32(crc)) ^ b) as int], Reverse32(crc) << 8);
  }

  lemma {:induction false} StringsMirror(left: seq<bv32>, right: seq<bv32>, crc: bv32, data: seq<Byte>)
    requires TablesMirror(left, right)
    ensures Reverse32(ReflectedFeedAll(right, crc, ReverseEach(data))) == FeedAll(left, Reverse32(crc), data)
  {
    if |data| > 0 {
      var r := ReverseEach(data);
      assert r[..|r| - 1] == ReverseEach(data[..|data| - 1]);
      StringsMirror(left, right, crc, data[..|data| - 1]);
      FeedsMirror(left, right, ReflectedFeedAll(right, crc, r[..|r| - 1]), data[|data| - 1]);
    }
  }

  lemma {:induction false} FeedAllInTwo(table: seq<bv32>, crc: bv32, a: seq<Byte>, b: seq<Byte>)
    requires |table| == 256
    ensures FeedAll(table, crc, a + b) == FeedAll(table, FeedAll(table, crc, a), b)
  {
    if |b| == 0 {
      assert a + b == a;
    } else {
      assert (a + b)[..|a + b| - 1] == a + b[..|b| - 1];
      FeedAllInTwo(table, crc, a, b[..|b| - 1]);
    }
  }

  /** The minimal width in bytes. */
  lemma {:induction false} WidthShrinks(n: nat)
    requires n > 0
    ensures (BitLength(n) + 7) / 8 >= 1
    ensures (BitLength(n / 256) + 7) / 8 == (BitLength(n) + 7) / 8 - 1
  {
    if n < 256 {
      assert n / 256 == 0;
      BitsOfByte(n);
    } else {
      EightBitsFewer(n);
    }
  }

  lemma BitsOfByte(n: nat)
    requires 0 < n < 256
    ensures 1 <= BitLength(n) <= 8
  {
    BitLengthBelow(n, 8);
  }

  lemma {:induction false} BitLengthBelow(n: nat, k: nat)
    requires n < Pow2(k)
    ensures BitLength(n) <= k
  {
    if k > 0 && n > 0 {
      BitLengthBelow(n / 2, k - 1);
    }
  }

  function Pow2(k: nat): nat {
    if k == 0 then 1 else 2 * Pow2(k - 1)
  }

  lemma EightBitsFewer(n: nat)
    requires n >= 256
    ensures BitLength(n) == 8 + BitLength(n / 256)
  {
    var n1, n2, n3, n4 := n / 2, n / 4, n / 8, n / 16;
    assert n1 / 2 == n2 && n2 / 2 == n3 && n3 / 2 == n4;
    var n5, n6, n7, n8 := n / 32, n / 64, n / 128, n / 256;
    assert n4 / 2 == n5 && n5 / 2 == n6 && n6 / 2 == n7 && n7 / 2 == n8;
    assert BitLength(n) == 1 + BitLength(n1) == 2 + BitLength(n2) == 3 + BitLength(n3) == 4 + BitLength(n4);
    assert BitLength(n4) == 1 + BitLength(n5) == 2 + BitLength(n6) == 3 + BitLength(n7) == 4 + BitLength(n8);
  }

  lemma {:induction false} MinimalWidthBytes(n: nat)
    ensures ToBytes(n, (BitLength(n) + 7) / 8) == LengthBytes(n)
  {
    if n > 0 {
      WidthShrinks(n);
      MinimalWidthBytes(n / 256);
    }
  }

  lemma ReverseOfComplement(x: bv32, mirrored: bv32)
    requires Reverse32(x) == mirrored
    ensures Reverse32(!x) == !mirrored
  {
  }

  lemma ReverseOfSame(c: bv32, x: bv32, mirrored: bv32)
    requires c == x && Reverse32(x) == mirrored
    ensures Reverse32(c) == mirrored
  {
  }

  lemma ReverseOfZero()
    ensures Reverse32(0) == 0
  {
  }

  /** Started from all ones, the register starts at zero. */
  lemma CrcFromZero(data: seq<Byte>)
    ensures Crc32(data, 0xFFFFFFFF) == !ReflectedFeedAll(ReflectedTable(), 0, data)
  {
  }

  lemma RegistersMirror(data: seq<Byte>)
    ensures Reverse32(ReflectedFeedAll(ReflectedTable(), 0, ReverseEach(data))) == FeedAll(Table(), 0, data)
  {
    TheTablesMirror();
    StringsMirror(Table(), ReflectedTable(), 0, data);
    ReverseOfZero();
  }

  lemma CrcReversed(data: seq<Byte>, x: bv32, mirrored: bv32)
    requires Crc32(data, 0xFFFFFFFF) == x && Reverse32(x) == mirrored
    ensures Reverse32(Crc32(data, 0xFFFFFFFF)) == mirrored
  {
    ReverseOfSame(Crc32(data, 0xFFFFFFFF), x, mirrored);
  }

  lemma CrcMirrorsFrom(data: seq<Byte>, x: bv32, mirrored: bv32)
    requires ReflectedFeedAll(ReflectedTable(), 0, data) == x && Reverse32(x) == mirrored
    ensures Reverse32(Crc32(data, 0xFFFFFFFF)) == !mirrored
  {
    CrcFromZero(data);
    ReverseOfComplement(x, mirrored);
    CrcReversed(data, !x, !mirrored);
  }

  lemma CrcMirrorsAt(data: seq<Byte>, mirrored: bv32)
    requires Reverse32(ReflectedFeedAll(ReflectedTable(), 0, data)) == mirrored
    ensures Reverse32(Crc32(data, 0xFFFFFFFF)) == !mirrored
  {
    CrcMirrorsFrom(data, ReflectedFeedAll(ReflectedTable(), 0, data), mirrored);
  }

  lemma CrcMirrors(data: seq<Byte>, register: bv32)
    requires FeedAll(Table(), 0, data) == register
    ensures Reverse32(Crc32(ReverseEach(data), 0xFFFFFFFF)) == !register
  {
    assert Reverse32(ReflectedFeedAll(ReflectedTable(), 0, ReverseEach(data))) == register by {
      RegistersMirror(data);
    }
    CrcMirrorsAt(ReverseEach(data), register);
  }

  lemma WholeIs(data: seq<Byte>, width: nat, suffix: seq<Byte>)
    requires width == (BitLength(|data|) + 7) / 8 && ToBytes(|data|, width) == suffix
    ensures WithLength(data) == data + suffix
  {
  }

  lemma FastIsReversed(data: seq<Byte>, c: bv32, mirrored: bv32)
    requires FastCrc(data) == c && Reverse32(c) == mirrored
    ensures FastCksum(data) == mirrored
  {
    ReverseOfSame(FastCrc(data), c, mirrored);
  }

  lemma FastFrom(data: seq<Byte>, register: bv32)
    requires FeedAll(Table(), 0, WithLength(data)) == register
    ensures FastCksum(data) == !register
  {
    CrcMirrors(WithLength(data), register);
    FastIsReversed(data, FastCrc(data), !register);
  }

  lemma SlowFrom(data: seq<Byte>, suffix: seq<Byte>, first: bv32, register: bv32)
    requires LengthBytes(|data|) == suffix
    requires FeedAll(Table(), 0, data) == first && FeedAll(Table(), first, suffix) == register
    ensures Cksum(data) == !register
  {
  }

  /** The reader's checksum is the POSIX one, for every byte string, the empty one included. */
  lemma FastCksumIsCksum(data: seq<Byte>)
    ensures FastCksum(data) == Cksum(data)
  {
    var suffix := LengthBytes(|data|);
    var first := FeedAll(Table(), 0, data);
    MinimalWidthBytes(|data|);
    WholeIs(data, (BitLength(|data|) + 7) / 8, suffix);
    FeedAllInTwo(Table(), 0, data, suffix);
    FastFrom(data, FeedAll(Table(), 0, data + suffix));
    SlowFrom(data, suffix, first, FeedAll(Table(), first, suffix));
  }

  // --- the loops of the slow form ------------------------------------------------------------

  /** The table, built by nested loops: eight shifts of each index. */
  method BuildTable() returns (table: seq<bv32>)
    ensures table == Table()
  {
    table := [];
    for i := 0 to 256
      invariant |table| == i
      invariant forall k :: 0 <= k < i ==> table[k] == Entry(k as Byte)
    {
      var c := ((i as Byte) as bv32) << 24;
      for n := 0 to 8
        invariant c == ShiftLeftBy(((i as Byte) as bv32) << 24, n)
      {
        c := if c & 0x80000000 != 0 then (c << 1) ^ POLY else c << 1;
      }
      table := table + [c];
    }
  }

  lemma FeedOneMore(table: seq<bv32>, crc: bv32, fed: seq<Byte>, b: Byte)
    requires |table| == 256
    ensures FeedAll(table, crc, fed + [b]) == Feed(table, FeedAll(table, crc, fed), b)
  {
    assert (fed + [b])[..|fed|] == fed;
  }

  /** The bytes of the data, one after another. */
  method FeedData(table: seq<bv32>, data: seq<Byte>) returns (crc: bv32)
    requires |table| == 256
    ensures crc == FeedAll(table, 0, data)
  {
    crc := 0;
    for i := 0 to |data|
      invariant crc == FeedAll(table, 0, data[..i])
    {
      FeedOneMore(table, 0, data[..i], data[i]);
      assert data[..i + 1] == data[..i] + [data[i]];
      crc := Feed(table, crc, data[i]);
    }
    assert data[..|data|] == data;
  }

  /** The bytes of the length, least significant first, while any are left. */
  method FeedLength(table: seq<bv32>, start: bv32, length: nat) returns (crc: bv32)
    requires |table| == 256
    ensures crc == FeedAll(table, start, LengthBytes(length))
  {
    crc := start;
    var n := length;
    ghost var fed: seq<Byte> := [];
    while n > 0
      invariant crc == FeedAll(table, start, fed)
      invariant LengthBytes(length) == fed + LengthBytes(n)
    {
      var b := (n % 256) as Byte;
      FeedOneMore(table, start, fed, b);
      crc := Feed(table, crc, b);
      fed := fed + [b];
      n := n / 256;
    }
    assert fed == LengthBytes(length);
  }

  /** The bytes, then the bytes of the length, then the complement. */
  method ComputeCksum(data: seq<Byte>) returns (crc: bv32)
    ensures crc == Cksum(data)
  {
    var table := BuildTable();
    crc := FeedData(table, data);
    crc := FeedLength(table, crc, |data|);
    crc := !crc;
  }
}
