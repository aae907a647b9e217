/**
 The deleted bitset of an index segment and its file format: a version byte, the number of bits and
 the number of set bits as little-endian 32-bit numbers, then the bits in 64-bit blocks, first bit
 lowest, each block little-endian.
 */
module DeletedBitset {
  import opened Common

  type byte = b: nat | b < 256

  const VERSION: byte := 1
  const U32: nat := 0x1_0000_0000
  const HEADER: nat := 9

  // ------------------------------------------------------------------ bits and bytes

  /** The lowest `k` bits of `n`, lowest first. */
  function Bits(n: nat, k: nat): (s: seq<bool>)
    ensures |s| == k
  {
    if k == 0 then [] else [n % 2 == 1] + Bits(n / 2, k - 1)
  }

  function Pack(bits: seq<bool>): nat {
    if bits == [] then 0 else (if bits[0] then 1 else 0) + 2 * Pack(bits[1..])
  }

  /** The lowest `k` bytes of `n`, lowest first. */
  function Bytes(n: nat, k: nat): (s: seq<byte>)
    ensures |s| == k
  {
    if k == 0 then [] else [n % 256] + Bytes(n / 256, k - 1)
  }

  function FromBytes(s: seq<byte>): nat {
    if s == [] then 0 else s[0] + 256 * FromBytes(s[1..])
  }

  /** Bit `i` of a file body is bit `i % 8` of byte `i / 8`. */
  function BitsOf(s: seq<byte>): (bits: seq<bool>)
    ensures |bits| == 8 * |s|
  {
    if s == [] then [] else Bits(s[0], 8) + BitsOf(s[1..])
  }

  function Ones(bits: seq<bool>): (n: nat)
    ensures n <= |bits|
  {
    if bits == [] then 0 else (if bits[0] then 1 else 0) + Ones(bits[1..])
  }

  lemma {:induction false} PackRoundTrip(bits: seq<bool>)
    ensures Bits(Pack(bits), |bits|) == bits
  {
    if bits != [] {
      PackRoundTrip(bits[1..]);
      assert Pack(bits) / 2 == Pack(bits[1..]);
    }
  }

  function Shifted(n: nat, j: nat): nat {
    if j == 0 then n else 2 * Shifted(n, j - 1)
  }

  /** Peeling bits off a number and off its low part alike. */
  lemma {:induction false} LowBits(low: nat, high: nat, j: nat, k: nat)
    requires low < Shifted(1, j)
    ensures Bits(low + Shifted(high, j), j + k) == Bits(low, j) + Bits(high, k)
    decreases j
  {
    if j > 0 {
      var n := low + Shifted(high, j);
      assert n / 2 == low / 2 + Shifted(high, j - 1) && n % 2 == low % 2;
      LowBits(low / 2, high, j - 1, k);
    }
  }

  lemma Shift8(n: nat)
    ensures Shifted(n, 8) == 256 * n
  {
    assert Shifted(n, 4) == 2 * Shifted(n, 3) == 4 * Shifted(n, 2) == 8 * Shifted(n, 1);
    assert Shifted(n, 8) == 2 * Shifted(n, 7) == 4 * Shifted(n, 6) == 8 * Shifted(n, 5) == 16 * Shifted(n, 4);
  }

  lemma BitsSplit8(low: byte, high: nat, k: nat)
    ensures Bits(low + 256 * high, 8 + k) == Bits(low, 8) + Bits(high, k)
  {
    Shift8(1);
    Shift8(high);
    LowBits(low, high, 8, k);
  }

  lemma {:induction false} BytesBits(n: nat, k: nat)
    ensures BitsOf(Bytes(n, k)) == Bits(n, 8 * k)
  {
    if k > 0 {
      BytesBits(n / 256, k - 1);
      BitsSplit8(n % 256, n / 256, 8 * (k - 1));
      assert Bytes(n, k)[1..] == Bytes(n / 256, k - 1);
    }
  }

  lemma {:induction false} FromBytesBits(s: seq<byte>)
    ensures Bits(FromBytes(s), 8 * |s|) == BitsOf(s)
  {
    if s != [] {
      FromBytesBits(s[1..]);
      BitsSplit8(s[0], FromBytes(s[1..]), 8 * (|s| - 1));
    }
  }

  lemma {:induction false} BytesRoundTrip(s: seq<byte>)
    ensures Bytes(FromBytes(s), |s|) == s
  {
    if s != [] {
      BytesRoundTrip(s[1..]);
      assert FromBytes(s) / 256 == FromBytes(s[1..]);
    }
  }

  /** One more than the largest number of `k` bytes. */
  function Limit(k: nat): nat {
    if k == 0 then 1 else 256 * Limit(k - 1)
  }

  lemma {:induction false} NumberRoundTrip(n: nat, k: nat)
    requires n < Limit(k)
    ensures FromBytes(Bytes(n, k)) == n
  {
    if k > 0 {
      NumberRoundTrip(n / 256, k - 1);
      assert Bytes(n, k)[1..] == Bytes(n / 256, k - 1);
    }
  }

  lemma {:induction false} NumberBound(s: seq<byte>)
    ensures FromBytes(s) < Limit(|s|)
  {
    if s != [] {
      NumberBound(s[1..]);
    }
  }

  lemma Limit4()
    ensures Limit(4) == U32
  {
  }

  lemma BitsOfCons(x: byte, s: seq<byte>)
    ensures BitsOf([x] + s) == Bits(x, 8) + BitsOf(s)
  {
    assert ([x] + s)[1..] == s;
  }

  lemma Uncons(a: seq<byte>, b: seq<byte>)
    requires a != []
    ensures a == [a[0]] + a[1..] && a + b == [a[0]] + (a[1..] + b)
  {
  }

  lemma Regroup(a: seq<bool>, b: seq<bool>, c: seq<bool>)
    ensures a + (b + c) == (a + b) + c
  {
  }

  lemma {:induction false} BitsOfConcat(a: seq<byte>, b: seq<byte>)
    ensures BitsOf(a + b) == BitsOf(a) + BitsOf(b)
  {
    if a == [] {
      assert a + b == b;
    } else {
      BitsOfConcat(a[1..], b);
      BitsOfCons(a[0], a[1..] + b);
      BitsOfCons(a[0], a[1..]);
      Uncons(a, b);
      Regroup(Bits(a[0], 8), BitsOf(a[1..]), BitsOf(b));
    }
  }

  lemma {:induction false} BitsRoundTrip(n: nat, k: nat)
    requires n < Shifted(1, k)
    ensures Pack(Bits(n, k)) == n
  {
    if k > 0 {
      BitsRoundTrip(n / 2, k - 1);
      assert Bits(n, k)[1..] == Bits(n / 2, k - 1);
    }
  }

  /** A file body is determined by its bits. */
  lemma {:induction false} BitsOfInjective(a: seq<byte>, b: seq<byte>)
    requires BitsOf(a) == BitsOf(b)
    ensures a == b
  {
    if a != [] {
      assert |a| == |b|;
      Shift8(1);
      BitsRoundTrip(a[0], 8);
      BitsRoundTrip(b[0], 8);
      assert Bits(a[0], 8) == BitsOf(a)[..8] == BitsOf(b)[..8] == Bits(b[0], 8);
      assert BitsOf(a[1..]) == BitsOf(a)[8..] == BitsOf(b)[8..] == BitsOf(b[1..]);
      BitsOfInjective(a[1..], b[1..]);
    }
  }

  // ------------------------------------------------------------------ the bitset

  datatype Bitset = Bitset(deleted: seq<bool>, numDeleted: nat)

  ghost predicate Valid(b: Bitset) {
    b.numDeleted == Ones(b.deleted)
  }

  predicate IsDeleted(b: Bitset, id: nat) {
    id >= |b.deleted| || b.deleted[id]
  }

  function Zeros(n: nat): (s: seq<bool>)
    ensures |s| == n && forall i :: 0 <= i < n ==> !s[i]
  {
    seq(n, i => false)
  }

  function Resized(b: Bitset, size: nat): Bitset {
    b.(deleted := if size <= |b.deleted| then b.deleted[..size] else b.deleted + Zeros(size - |b.deleted|))
  }

  lemma {:induction false} OnesSplit(a: seq<bool>, b: seq<bool>)
    ensures Ones(a + b) == Ones(a) + Ones(b)
  {
    if a == [] {
      assert a + b == b;
    } else {
      OnesSplit(a[1..], b);
      assert (a + b)[1..] == a[1..] + b;
    }
  }

  lemma {:induction false} NoOnes(bits: seq<bool>)
    ensures Ones(bits) == 0 <==> forall i :: 0 <= i < |bits| ==> !bits[i]
  {
    if bits != [] {
      NoOnes(bits[1..]);
      assert bits == [bits[0]] + bits[1..];
    }
  }

  lemma OnesSet(bits: seq<bool>, i: nat)
    requires i < |bits| && !bits[i]
    ensures Ones(bits[i := true]) == Ones(bits) + 1
  {
    OnesSplit(bits[..i], [bits[i]] + bits[i + 1..]);
    OnesSplit(bits[..i], [true] + bits[i + 1..]);
    assert bits == bits[..i] + ([bits[i]] + bits[i + 1..]);
    assert bits[i := true] == bits[..i] + ([true] + bits[i + 1..]);
    assert ([bits[i]] + bits[i + 1..])[1..] == ([true] + bits[i + 1..])[1..] == bits[i + 1..];
  }

  /** The count survives a resize exactly when no set bit is cut off. */
  lemma ResizeKeepsCount(b: Bitset, size: nat)
    requires Valid(b)
    ensures Valid(Resized(b, size)) <==> forall i :: size <= i < |b.deleted| ==> !b.deleted[i]
  {
    if size <= |b.deleted| {
      OnesSplit(b.deleted[..size], b.deleted[size..]);
      assert b.deleted == b.deleted[..size] + b.deleted[size..];
      NoOnes(b.deleted[size..]);
      assert forall i :: size <= i < |b.deleted| ==> b.deleted[i] == b.deleted[size..][i - size];
    } else {
      OnesSplit(b.deleted, Zeros(size - |b.deleted|));
      NoOnes(Zeros(size - |b.deleted|));
    }
  }

  // ------------------------------------------------------------------ the file format

  function NumBlocks(bits: nat): nat {
    (bits + 63) / 64
  }

  function Padded(bits: seq<bool>): (p: seq<bool>)
    ensures |p| == 64 * NumBlocks(|bits|)
  {
    bits + Zeros(64 * NumBlocks(|bits|) - |bits|)
  }

  /** `file` is the file of `b`. */
  ghost predicate IsFile(file: seq<byte>, b: Bitset) {
    && |file| == HEADER + 8 * NumBlocks(|b.deleted|)
    && file[0] == VERSION
    && FromBytes(file[1..5]) == |b.deleted|
    && FromBytes(file[5..9]) == b.numDeleted
    && BitsOf(file[9..]) == Padded(b.deleted)
  }

  /** `input` starts with a file of `fileLen` bytes for `b`, whatever its padding bits are. */
  ghost predicate Holds(input: seq<byte>, fileLen: nat, b: Bitset) {
    && |input| >= fileLen == HEADER + 8 * NumBlocks(|b.deleted|)
    && input[0] == VERSION
    && FromBytes(input[1..5]) == |b.deleted|
    && FromBytes(input[5..9]) == b.numDeleted
    && BitsOf(input[9..fileLen])[..|b.deleted|] == b.deleted
    && Valid(b)
  }

  // ------------------------------------------------------------------ the format, byte by byte

  function Power(j: nat): (p: nat)
    ensures p > 0
  {
    if j == 0 then 1 else 2 * Power(j - 1)
  }

  /** A little-endian 32-bit number. */
  function U32At(s: seq<byte>, at: nat): nat
    requires at + 4 <= |s|
  {
    var a: nat, b: nat, c: nat, d: nat := s[at], s[at + 1], s[at + 2], s[at + 3];
    a + 0x100 * b + 0x1_0000 * c + 0x100_0000 * d
  }

  /** Bit `i` of the body is bit `i % 8` of the byte `i / 8` after the header. */
  predicate BitAt(s: seq<byte>, i: nat)
    requires 9 + i / 8 < |s|
  {
    s[9 + i / 8] / Power(i % 8) % 2 == 1
  }

  /** The file of a bitset: version 1, two 32-bit numbers, then the bits in whole blocks of eight bytes. */
  ghost predicate FileFormat(file: seq<byte>, b: Bitset) {
    && |file| == 9 + 8 * ((|b.deleted| + 63) / 64) && file[0] == 1
    && U32At(file, 1) == |b.deleted| && U32At(file, 5) == b.numDeleted
    && forall i: nat :: i < 8 * (|file| - 9) ==> (BitAt(file, i) <==> i < |b.deleted| && b.deleted[i])
  }

  lemma {:induction false} BitOfNumber(n: nat, k: nat, i: nat)
    requires i < k
    ensures Bits(n, k)[i] <==> n / Power(i) % 2 == 1
  {
    if i > 0 {
      BitOfNumber(n / 2, k - 1, i - 1);
      HalfFirst(n, Power(i - 1));
    }
  }

  lemma HalfFirst(n: nat, p: nat)
    requires p > 0
    ensures n / 2 / p == n / (2 * p)
  {
    var q, r := n / (2 * p), n % (2 * p);
    assert n == 2 * p * q + r;
    assert n / 2 == p * q + r / 2 && r / 2 < p by {
      assert 2 * p * q == 2 * (p * q);
    }
    QuotientIs(n / 2, p, q, r / 2);
  }

  lemma QuotientIs(n: nat, p: nat, q: nat, r: nat)
    requires r < p && n == p * q + r
    ensures n / p == q
  {
    var d := n / p;
    assert n == p * d + n % p;
    Steps(p, d, q);
    Steps(p, q, d);
  }

  lemma Steps(p: nat, a: nat, b: nat)
    ensures a < b ==> p * a + p <= p * b
  {
    assert a < b ==> p * (a + 1) <= p * b;
  }

  lemma {:induction false} BitOfByte(s: seq<byte>, i: nat)
    requires i < 8 * |s|
    ensures i / 8 < |s| && (BitsOf(s)[i] <==> s[i / 8] / Power(i % 8) % 2 == 1)
  {
    if i < 8 {
      BitOfNumber(s[0], 8, i);
    } else {
      BitOfByte(s[1..], i - 8);
      assert (i - 8) / 8 == i / 8 - 1 && (i - 8) % 8 == i % 8;
      assert BitsOf(s)[i] == BitsOf(s[1..])[i - 8];
    }
  }

  lemma FourBytes(s: seq<byte>, at: nat)
    requires at + 4 <= |s|
    ensures FromBytes(s[at..at + 4]) == U32At(s, at)
  {
    var t := s[at..at + 4];
    assert t[1..] == s[at + 1..at + 4] && t[1..][1..] == s[at + 2..at + 4];
    assert t[1..][1..][1..] == s[at + 3..at + 4] && t[1..][1..][1..][1..] == [];
    var b: nat, c: nat, d: nat := s[at + 1], s[at + 2], s[at + 3];
    assert FromBytes(s[at + 3..at + 4]) == d;
    assert FromBytes(s[at + 2..at + 4]) == c + 256 * d;
    assert FromBytes(s[at + 1..at + 4]) == b + 256 * (c + 256 * d);
  }

  lemma BodyBits(file: seq<byte>, bits: seq<bool>)
    requires |file| == 9 + 8 * NumBlocks(|bits|)
    ensures BitsOf(file[9..]) == Padded(bits) <==>
            forall i: nat :: i < 8 * (|file| - 9) ==> (BitAt(file, i) <==> i < |bits| && bits[i])
  {
    var body, padded := BitsOf(file[9..]), Padded(bits);
    forall i: nat | i < 8 * (|file| - 9)
      ensures body[i] == BitAt(file, i) && padded[i] == (i < |bits| && bits[i])
    {
      BitOfByte(file[9..], i);
    }
    if forall i: nat :: i < 8 * (|file| - 9) ==> (BitAt(file, i) <==> i < |bits| && bits[i]) {
      forall i | 0 <= i < |body| ensures body[i] == padded[i] {
        assert BitAt(file, i) <==> i < |bits| && bits[i];
      }
    }
  }

  /** What is written and read is that format. */
  lemma IsFileFormat(file: seq<byte>, b: Bitset)
    ensures IsFile(file, b) <==> FileFormat(file, b)
  {
    if |file| == 9 + 8 * NumBlocks(|b.deleted|) {
      FourBytes(file, 1);
      FourBytes(file, 5);
      BodyBits(file, b.deleted);
    }
  }

  /** The same for input that may go on after the file and may have anything in its padding. */
  ghost predicate InputFormat(input: seq<byte>, fileLen: nat, b: Bitset) {
    && |input| >= fileLen == 9 + 8 * ((|b.deleted| + 63) / 64) && input[0] == 1
    && U32At(input, 1) == |b.deleted| && U32At(input, 5) == b.numDeleted == Ones(b.deleted)
    && forall i: nat :: i < |b.deleted| ==> (BitAt(input, i) <==> b.deleted[i])
  }

  lemma FirstBits(input: seq<byte>, fileLen: nat, bits: seq<bool>)
    requires |input| >= fileLen == 9 + 8 * NumBlocks(|bits|)
    ensures BitsOf(input[9..fileLen])[..|bits|] == bits <==>
            forall i: nat :: i < |bits| ==> (BitAt(input, i) <==> bits[i])
  {
    var body := BitsOf(input[9..fileLen]);
    forall i: nat | i < |bits| ensures 9 + i / 8 < |input| && body[i] == BitAt(input, i) {
      BitOfByte(input[9..fileLen], i);
    }
    if forall i: nat :: i < |bits| ==> (BitAt(input, i) <==> bits[i]) {
      forall i | 0 <= i < |bits| ensures body[..|bits|][i] == bits[i] {
        assert BitAt(input, i) <==> bits[i];
      }
    }
  }

  lemma HoldsFormat(input: seq<byte>, fileLen: nat, b: Bitset)
    ensures Holds(input, fileLen, b) <==> InputFormat(input, fileLen, b)
  {
    if |input| >= fileLen == 9 + 8 * NumBlocks(|b.deleted|) {
      FourBytes(input, 1);
      FourBytes(input, 5);
      FirstBits(input, fileLen, b.deleted);
    }
  }

  /** The storage of a bit vector, as 64-bit numbers. */
  function RawBlocks(bits: seq<bool>): (blocks: seq<nat>)
    ensures |blocks| == NumBlocks(|bits|)
  {
    seq(NumBlocks(|bits|), j requires 0 <= j < NumBlocks(|bits|) => Pack(Padded(bits)[64 * j..64 * j + 64]))
  }

  class DeletedBitset {
    var deleted: seq<bool>
    var numDeleted: nat

    function Model(): Bitset
      reads this
    {
      Bitset(deleted, numDeleted)
    }

    constructor (count: nat)
      ensures Model() == Bitset(Zeros(count), 0) && Valid(Model())
    {
      deleted, numDeleted := Zeros(count), 0;
      NoOnes(Zeros(count));
    }

    method Resize(size: nat)
      modifies this
      ensures Model() == Resized(old(Model()), size)
      ensures forall id: nat :: IsDeleted(Model(), id) <==>
                                id >= size || (id < |old(deleted)| && IsDeleted(old(Model()), id))
    {
      deleted := if size <= |deleted| then deleted[..size] else deleted + Zeros(size - |deleted|);
    }

    /** Deleting twice, or out of range, fails and changes nothing. */
    method Delete(id: nat) returns (ok: bool)
      requires Valid(Model())
      modifies this
      ensures Valid(Model()) && |deleted| == |old(deleted)|
      ensures ok <==> !IsDeleted(old(Model()), id)
      ensures !ok ==> Model() == old(Model())
      ensures ok ==> forall x: nat :: IsDeleted(Model(), x) <==> x == id || IsDeleted(old(Model()), x)
    {
      ok := !IsDeleted(Model(), id);
      if ok {
        OnesSet(deleted, id);
        deleted := deleted[id := true];
        numDeleted := numDeleted + 1;
      }
    }

    method Write() returns (out: Option<seq<byte>>)
      ensures out.Some? <==> Valid(Model()) && |deleted| < U32
      ensures out.Some? ==> IsFile(out.value, Model()) && FileFormat(out.value, Model())
    {
      if numDeleted != Ones(deleted) || |deleted| >= U32 {
        return None;
      }
      var body := WriteBlocks(deleted);
      Fits(numDeleted);
      var file := [VERSION] + Bytes(|deleted|, 4) + Bytes(numDeleted % U32, 4) + body;
      FileAssembled(Model(), body, file);
      IsFileFormat(file, Model());
      out := Some(file);
    }
  }

  method WriteBlocks(bits: seq<bool>) returns (body: seq<byte>)
    ensures |body| == 8 * NumBlocks(|bits|) && BitsOf(body) == Padded(bits)
  {
    var blocks := RawBlocks(bits);
    body := [];
    for j := 0 to |blocks|
      invariant |body| == 8 * j && BitsOf(body) == Padded(bits)[..64 * j]
    {
      WriteBlock(Padded(bits), j, body);
      body := body + Bytes(blocks[j], 8);
    }
    assert Padded(bits)[..64 * |blocks|] == Padded(bits);
  }

  lemma TakeMore(bits: seq<bool>, a: nat, b: nat)
    requires a <= b <= |bits|
    ensures bits[..b] == bits[..a] + bits[a..b]
  {
  }

  lemma BlockBits(block: seq<bool>, k: nat)
    requires |block| == 8 * k
    ensures BitsOf(Bytes(Pack(block), k)) == block
  {
    PackRoundTrip(block);
    BytesBits(Pack(block), k);
  }

  lemma WriteBlock(bits: seq<bool>, j: nat, body: seq<byte>)
    requires 64 * j + 64 <= |bits| && BitsOf(body) == bits[..64 * j]
    ensures BitsOf(body + Bytes(Pack(bits[64 * j..64 * j + 64]), 8)) == bits[..64 * (j + 1)]
  {
    var block := bits[64 * j..64 * j + 64];
    BlockBits(block, 8);
    BitsOfConcat(body, Bytes(Pack(block), 8));
    TakeMore(bits, 64 * j, 64 * j + 64);
  }

  lemma Fits(n: nat)
    requires n < U32
    ensures n % U32 == n
  {
  }

  lemma FileAssembled(b: Bitset, body: seq<byte>, file: seq<byte>)
    requires Valid(b) && |b.deleted| < U32
    requires |body| == 8 * NumBlocks(|b.deleted|) && BitsOf(body) == Padded(b.deleted)
    requires file == [VERSION] + Bytes(|b.deleted|, 4) + Bytes(b.numDeleted, 4) + body
    ensures IsFile(file, b)
  {
    Limit4();
    NumberRoundTrip(|b.deleted|, 4);
    NumberRoundTrip(b.numDeleted, 4);
    assert file[1..5] == Bytes(|b.deleted|, 4) && file[5..9] == Bytes(b.numDeleted, 4) && file[9..] == body;
  }

  lemma ReadBlock(body: seq<byte>, j: nat)
    requires 8 * j + 8 <= |body|
    ensures BitsOf(body[..8 * (j + 1)]) == BitsOf(body[..8 * j]) + Bits(FromBytes(body[8 * j..8 * j + 8]), 64)
  {
    var block := body[8 * j..8 * j + 8];
    FromBytesBits(block);
    BitsOfConcat(body[..8 * j], block);
    assert body[..8 * (j + 1)] == body[..8 * j] + block;
  }

  /** `fileLen` is the file's length on disk; the reader may hold more or less. */
  method Load(fileLen: nat, input: seq<byte>) returns (r: Option<Bitset>)
    ensures r.Some? ==> Holds(input, fileLen, r.value) && InputFormat(input, fileLen, r.value)
    ensures r.None? ==> forall b :: !Holds(input, fileLen, b)
    ensures r.None? ==> forall b :: !InputFormat(input, fileLen, b)
  {
    forall b ensures Holds(input, fileLen, b) <==> InputFormat(input, fileLen, b) {
      HoldsFormat(input, fileLen, b);
    }
    if |input| < HEADER || input[0] != VERSION {
      return None;
    }
    var numBits := FromBytes(input[1..5]);
    var numDeleted := FromBytes(input[5..9]);
    if numDeleted > numBits || HEADER + 8 * NumBlocks(numBits) != fileLen || |input| < fileLen {
      return None;
    }
    var bits: seq<bool> := [];
    for j := 0 to NumBlocks(numBits)
      invariant |bits| == 64 * j && bits == BitsOf(input[9..][..8 * j])
    {
      ReadBlock(input[9..], j);
      bits := bits + Bits(FromBytes(input[9..][8 * j..8 * j + 8]), 64);
    }
    assert input[9..][..8 * NumBlocks(numBits)] == input[9..9 + 8 * NumBlocks(numBits)];
    var deleted := bits[..numBits];
    if Ones(deleted) != numDeleted {
      return None;
    }
    r := Some(Bitset(deleted, numDeleted));
  }

  // ------------------------------------------------------------------ round trips

  /** What Write makes, Load reads back, and nothing else. */
  lemma FileHolds(file: seq<byte>, b: Bitset)
    requires Valid(b) && IsFile(file, b)
    ensures Holds(file, |file|, b)
    ensures forall c :: Holds(file, |file|, c) ==> c == b
  {
    assert file[9..|file|] == file[9..];
    assert Padded(b.deleted)[..|b.deleted|] == b.deleted;
  }

  /** Equal numbers of equal length have equal bytes. */
  lemma SameHeader(f: seq<byte>, g: seq<byte>)
    requires |f| >= 9 && |g| >= 9 && f[0] == g[0]
    requires FromBytes(f[1..5]) == FromBytes(g[1..5]) && FromBytes(f[5..9]) == FromBytes(g[5..9])
    ensures f[..9] == g[..9]
  {
    BytesRoundTrip(f[1..5]);
    BytesRoundTrip(f[5..9]);
    BytesRoundTrip(g[1..5]);
    BytesRoundTrip(g[5..9]);
    Header(f);
    Header(g);
  }

  lemma Header(f: seq<byte>)
    requires |f| >= 9
    ensures f[..9] == [f[0]] + f[1..5] + f[5..9]
  {
  }

  /** What Load reads, Write makes again with the padding cleared: every bit is accounted for. */
  lemma RewriteClearsPadding(input: seq<byte>, fileLen: nat, b: Bitset, out: seq<byte>)
    requires Holds(input, fileLen, b) && IsFile(out, b)
    ensures |b.deleted| < U32 && |out| == fileLen && out[..9] == input[..9]
    ensures var before, after := BitsOf(input[9..fileLen]), BitsOf(out[9..]);
            |before| == |after| && forall i :: 0 <= i < |after| ==> (after[i] <==> i < |b.deleted| && before[i])
  {
    Limit4();
    NumberBound(input[1..5]);
    SameHeader(out, input);
    var before, after := BitsOf(input[9..fileLen]), BitsOf(out[9..]);
    forall i | 0 <= i < |after| ensures after[i] <==> i < |b.deleted| && before[i] {
      assert i < |b.deleted| ==> before[i] == before[..|b.deleted|][i];
    }
  }

  /** A bitset has one file. */
  lemma FileUnique(f: seq<byte>, g: seq<byte>, b: Bitset)
    requires IsFile(f, b) && IsFile(g, b)
    ensures f == g
  {
    BitsOfInjective(f[9..], g[9..]);
    SameHeader(f, g);
    assert f == f[..9] + f[9..] && g == g[..9] + g[9..];
  }
}
