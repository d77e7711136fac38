/** The network buffer (net/Buffer.cpp, include/libfm/fmnet/Buffer.h): a vector of bytes with a read and a write
    index.  What it means to its users is the byte queue `Contents`. */
module Buffer {

  newtype Byte = x: int | 0 <= x < 256

  const CHEAP_PREPEND: nat := 8
  const INITIAL_SIZE: nat := 1024
  const EXTRA_SIZE: nat := 65536

  const CR: Byte := 13
  const LF: Byte := 10

  // ---------------------------------------------------------------- searching

  /** `std::find`: the first index at which `b` stands, or the length. */
  function Find(s: seq<Byte>, b: Byte): (i: nat)
    ensures i <= |s| && (i < |s| ==> s[i] == b) && forall j :: 0 <= j < i ==> s[j] != b
  {
    if s == [] || s[0] == b then 0 else 1 + Find(s[1..], b)
  }

  /** `std::search` for "\r\n": the first index at which it stands, or the length. */
  function FindCrLf(s: seq<Byte>): (i: nat)
    ensures i <= |s| && (i < |s| ==> i + 1 < |s| && IsCrLf(s, i)) && forall j :: 0 <= j < i ==> !IsCrLf(s, j)
  {
    if s == [] || IsCrLf(s, 0) then 0
    else
      assert forall j :: 0 < j ==> IsCrLf(s, j) == IsCrLf(s[1..], j - 1);
      1 + FindCrLf(s[1..])
  }

  predicate IsCrLf(s: seq<Byte>, i: int) {
    0 <= i && i + 1 < |s| && s[i] == CR && s[i + 1] == LF
  }

  // ---------------------------------------------------------------- integers in network byte order

  function Pow256(n: nat): (p: int)
    ensures p > 0
  {
    if n == 0 then 1 else 256 * Pow256(n - 1)
  }

  /** The `n` low bytes of `x`, most significant first. */
  function ToBytes(x: nat, n: nat): (s: seq<Byte>)
    ensures |s| == n
  {
    if n == 0 then [] else ToBytes(x / 256, n - 1) + [(x % 256) as Byte]
  }

  function FromBytes(s: seq<Byte>): (x: nat)
    ensures x < Pow256(|s|)
  {
    if s == [] then 0 else 256 * FromBytes(s[..|s| - 1]) + s[|s| - 1] as int
  }

  /** Two's complement of width `n` bytes. */
  function ToUnsigned(x: int, n: nat): int {
    if x < 0 then x + Pow256(n) else x
  }

  function ToSigned(u: int, n: nat): int {
    if 2 * u >= Pow256(n) then u - Pow256(n) else u
  }

  predicate Fits(x: int, n: nat) {
    -Pow256(n) <= 2 * x < Pow256(n)
  }

  lemma {:induction false} BytesRoundTrip(x: nat, n: nat)
    requires x < Pow256(n)
    ensures FromBytes(ToBytes(x, n)) == x
  {
    if n > 0 {
      BytesRoundTrip(x / 256, n - 1);
      assert ToBytes(x, n)[..n - 1] == ToBytes(x / 256, n - 1);
    }
  }

  /** Every signed value of the width survives encoding and decoding. */
  lemma SignedRoundTrip(x: int, n: nat)
    requires Fits(x, n)
    ensures 0 <= ToUnsigned(x, n) && ToSigned(FromBytes(ToBytes(ToUnsigned(x, n), n)), n) == x
  {
    BytesRoundTrip(ToUnsigned(x, n), n);
  }

  /** The encoding is big-endian: byte `i` holds bits `8 * (n - 1 - i)` and up. */
  lemma {:induction false} BigEndianLayout(x: nat, n: nat, i: nat)
    requires i < n
    ensures ToBytes(x, n)[i] as int == x / Pow256(n - 1 - i) % 256
  {
    if i < n - 1 {
      BigEndianLayout(x / 256, n - 1, i);
      var p := Pow256(n - 2 - i);
      DivDiv(x, p);
    }
  }

  lemma DivDiv(x: nat, p: int)
    requires p > 0
    ensures x / 256 / p == x / (256 * p)
  {
    var q := x / (256 * p);
    var r := x % (256 * p);
    assert x == q * (256 * p) + r;
    var a, b := r / 256, r % 256;
    assert x / 256 == q * p + a by {
      assert x == 256 * (q * p + a) + b;
    }
    assert a < p;
    QuotientIs(x / 256, p, q, a);
  }

  lemma QuotientIs(y: int, p: int, q: int, r: int)
    requires p > 0 && y == q * p + r && 0 <= r < p
    ensures y / p == q
  {
    var d := y / p - q;
    assert y == (y / p) * p + y % p;
    assert d * p == r - y % p;
    if d > 0 { ProductAtLeast(d, p); } else if d < 0 { ProductAtLeast(-d, p); }
  }

  lemma ProductAtLeast(d: int, p: int)
    requires d > 0 && p > 0
    ensures d * p >= p
  {
  }

  lemma {:induction false} PowSplits(a: nat, b: nat)
    ensures Pow256(a + b) == Pow256(a) * Pow256(b)
  {
    if a > 0 {
      PowSplits(a - 1, b);
      assert Pow256(a) * Pow256(b) == 256 * (Pow256(a - 1) * Pow256(b));
    }
  }

  /** Adding a multiple of `256 * p` does not change the byte that starts at `p`. */
  lemma ByteShift(x: int, p: int, m: nat)
    requires p > 0
    ensures (x + 256 * p * m) / p % 256 == x / p % 256
  {
    var q, r := x / p, x % p;
    var y := x + 256 * p * m;
    assert y == (q + 256 * m) * p + r by {
      assert x == q * p + r;
      assert 256 * p * m == 256 * m * p;
    }
    QuotientIs(y, p, q + 256 * m, r);
  }

  /** The bytes of a signed value are those of its floor quotients: two's complement, most significant byte first. */
  lemma SignedLayout(x: int, n: nat, i: nat)
    requires Fits(x, n) && i < n
    ensures 0 <= ToUnsigned(x, n) && ToBytes(ToUnsigned(x, n), n)[i] as int == x / Pow256(n - 1 - i) % 256
  {
    hide ToBytes;
    var p := Pow256(n - 1 - i);
    BigEndianLayout(ToUnsigned(x, n), n, i);
    if x < 0 {
      PowSplits(n - 1 - i, i + 1);
      assert Pow256(n) == p * (256 * Pow256(i)) == 256 * p * Pow256(i);
      ByteShift(x, p, Pow256(i));
    }
  }

  /** The widths that are used: one, two, four and eight bytes. */
  lemma WidthsInBits(x: int)
    ensures Fits(x, 1) <==> -128 <= x < 128
    ensures Fits(x, 2) <==> -32768 <= x < 32768
    ensures Fits(x, 4) <==> -2147483648 <= x < 2147483648
    ensures Fits(x, 8) <==> -9223372036854775808 <= x < 9223372036854775808
  {
  }

  datatype ReadResult = Failed | Received(data: seq<Byte>)

  class Buffer {
    var buffer: seq<Byte>
    var readIndex: nat
    var writeIndex: nat

    predicate Valid()
      reads this
    {
      readIndex <= writeIndex <= |buffer| && CHEAP_PREPEND <= |buffer|
    }

    function Contents(): seq<Byte>
      requires Valid()
      reads this
    {
      buffer[readIndex..writeIndex]
    }

    function ReadableBytes(): int
      reads this
    {
      writeIndex - readIndex
    }

    function WritableBytes(): int
      reads this
    {
      |buffer| - writeIndex
    }

    function PrependableBytes(): nat
      reads this
    {
      readIndex
    }

    constructor (initialSize: nat)
      ensures Valid() && Contents() == [] && WritableBytes() == initialSize && PrependableBytes() == 8
    {
      buffer := seq(CHEAP_PREPEND + initialSize, _ => 0);
      readIndex, writeIndex := CHEAP_PREPEND, CHEAP_PREPEND;
    }

    method RetrieveAll()
      requires Valid()
      modifies this`readIndex, this`writeIndex
      ensures Valid() && Contents() == [] && PrependableBytes() == 8
    {
      readIndex, writeIndex := CHEAP_PREPEND, CHEAP_PREPEND;
    }

    /** Takes bytes from the front; an emptied buffer gets its whole space back. */
    method Retrieve(len: nat)
      requires Valid() && len <= |Contents()|
      modifies this`readIndex, this`writeIndex
      ensures Valid() && Contents() == old(Contents())[len..]
      ensures Contents() == [] ==> PrependableBytes() == CHEAP_PREPEND
      ensures Contents() != [] ==> WritableBytes() == old(WritableBytes())
    {
      if len < ReadableBytes() {
        readIndex := readIndex + len;
      } else {
        RetrieveAll();
      }
    }

    method RetrieveAsString(len: nat) returns (s: seq<Byte>)
      requires Valid() && len <= |Contents()|
      modifies this`readIndex, this`writeIndex
      ensures Valid() && s == old(Contents())[..len] && Contents() == old(Contents())[len..]
    {
      s := buffer[readIndex..readIndex + len];
      Retrieve(len);
    }

    /** Grows the vector, or slides the readable bytes down, when `len` bytes do not fit behind them.  Sliding never
        has to move bytes up, even after prepends. */
    method MakeSpace(len: nat)
      requires Valid() && WritableBytes() < len
      modifies this
      ensures Valid() && Contents() == old(Contents()) && WritableBytes() >= len
      ensures |buffer| == old(|buffer|) || |buffer| == old(writeIndex) + len
      ensures PrependableBytes() == old(PrependableBytes()) || PrependableBytes() == CHEAP_PREPEND
    {
      if WritableBytes() + PrependableBytes() < len + CHEAP_PREPEND {
        buffer := buffer + seq(writeIndex + len - |buffer|, _ => 0);
      } else {
        assert CHEAP_PREPEND < readIndex;
        var readable := ReadableBytes();
        buffer := buffer[..CHEAP_PREPEND] + buffer[readIndex..writeIndex] + buffer[CHEAP_PREPEND + readable..];
        readIndex := CHEAP_PREPEND;
        writeIndex := readIndex + readable;
      }
    }

    method EnsureWritableBytes(len: nat)
      requires Valid()
      modifies this
      ensures Valid() && Contents() == old(Contents()) && WritableBytes() >= len
      ensures old(WritableBytes()) >= len ==>
        buffer == old(buffer) && readIndex == old(readIndex) && writeIndex == old(writeIndex)
      ensures PrependableBytes() == old(PrependableBytes()) || PrependableBytes() == CHEAP_PREPEND
    {
      if WritableBytes() < len {
        MakeSpace(len);
      }
    }

    method Append(data: seq<Byte>)
      requires Valid()
      modifies this
      ensures Valid() && Contents() == old(Contents()) + data
      ensures WritableBytes() >= old(WritableBytes()) - |data|
      ensures |data| <= old(WritableBytes()) ==> WritableBytes() == old(WritableBytes()) - |data|
      ensures PrependableBytes() == old(PrependableBytes()) || PrependableBytes() == CHEAP_PREPEND
    {
      EnsureWritableBytes(|data|);
      buffer := buffer[..writeIndex] + data + buffer[writeIndex + |data|..];
      writeIndex := writeIndex + |data|;
    }

    method Prepend(data: seq<Byte>)
      requires Valid() && |data| <= PrependableBytes()
      modifies this`buffer, this`readIndex
      ensures Valid() && Contents() == data + old(Contents())
    {
      readIndex := readIndex - |data|;
      buffer := buffer[..readIndex] + data + buffer[readIndex + |data|..];
    }

    method UnWrite(len: nat)
      requires Valid() && len <= |Contents()|
      modifies this`writeIndex
      ensures Valid() && Contents() == old(Contents())[..|old(Contents())| - len]
    {
      writeIndex := writeIndex - len;
    }

    method Swap(other: Buffer)
      modifies this, other
      ensures buffer == old(other.buffer) && readIndex == old(other.readIndex) && writeIndex == old(other.writeIndex)
      ensures other.buffer == old(buffer) && other.readIndex == old(readIndex) && other.writeIndex == old(writeIndex)
    {
      buffer, other.buffer := other.buffer, buffer;
      readIndex, other.readIndex := other.readIndex, readIndex;
      writeIndex, other.writeIndex := other.writeIndex, writeIndex;
    }

    /** Moves the contents to a fresh vector. */
    method Shrink(reserve: nat)
      requires Valid()
      modifies this
      ensures Valid() && Contents() == old(Contents())
      ensures PrependableBytes() == CHEAP_PREPEND && WritableBytes() >= reserve
    {
      var other := new Buffer(INITIAL_SIZE);
      other.EnsureWritableBytes(ReadableBytes() + reserve);
      other.Append(Contents());
      Swap(other);
    }

    // -------------------------------------------------------------- integers

    method AppendInt(x: int, width: nat)
      requires Valid() && Fits(x, width)
      modifies this
      ensures Valid() && Contents() == old(Contents()) + ToBytes(ToUnsigned(x, width), width)
      ensures forall i :: 0 <= i < width ==>
        Contents()[|old(Contents())|..][i] as int == x / Pow256(width - 1 - i) % 256
    {
      forall i: nat | i < width
        ensures ToBytes(ToUnsigned(x, width), width)[i] as int == x / Pow256(width - 1 - i) % 256
      {
        SignedLayout(x, width, i);
      }
      Append(ToBytes(ToUnsigned(x, width), width));
    }

    method PrependInt(x: int, width: nat)
      requires Valid() && Fits(x, width) && width <= PrependableBytes()
      modifies this`buffer, this`readIndex
      ensures Valid() && Contents() == ToBytes(ToUnsigned(x, width), width) + old(Contents())
      ensures forall i :: 0 <= i < width ==> Contents()[i] as int == x / Pow256(width - 1 - i) % 256
    {
      forall i: nat | i < width
        ensures ToBytes(ToUnsigned(x, width), width)[i] as int == x / Pow256(width - 1 - i) % 256
      {
        SignedLayout(x, width, i);
      }
      Prepend(ToBytes(ToUnsigned(x, width), width));
    }

    method PeekInt(width: nat) returns (x: int)
      requires Valid() && width <= |Contents()|
      ensures x == ToSigned(FromBytes(Contents()[..width]), width)
    {
      x := ToSigned(FromBytes(buffer[readIndex..readIndex + width]), width);
      assert Contents()[..width] == buffer[readIndex..readIndex + width];
    }

    method ReadInt(width: nat) returns (x: int)
      requires Valid() && width <= |Contents()|
      modifies this`readIndex, this`writeIndex
      ensures Valid() && Contents() == old(Contents())[width..]
      ensures x == ToSigned(FromBytes(old(Contents())[..width]), width)
    {
      x := PeekInt(width);
      Retrieve(width);
    }

    // -------------------------------------------------------------- reading from a descriptor

    /** `readFd` as written.  `result` is what readv answers for the free space and, if that is small, a second
        vector of 64 KiB.  The comparison at net/Buffer.cpp:209 is always true, so the write index is advanced by
        all bytes received: the buffer is left valid exactly if they fit into the free space. */
    method ReadFdAsWritten(result: ReadResult)
      requires Valid()
      requires result.Received? ==>
        |result.data| <= WritableBytes() + if WritableBytes() < 65536 then 65536 else 0
      modifies this
      ensures result.Failed? ==> Valid() && Contents() == old(Contents())
      ensures result.Received? ==> (Valid() <==> |result.data| <= old(WritableBytes()))
      ensures result.Received? ==> writeIndex == old(writeIndex) + |result.data| && |buffer| == old(|buffer|)
      ensures result.Received? && Valid() ==> Contents() == old(Contents()) + result.data
    {
      if result.Received? {
        var writable := WritableBytes();
        var first := if |result.data| <= writable then result.data else result.data[..writable];
        buffer := buffer[..writeIndex] + first + buffer[writeIndex + |first|..];
        writeIndex := writeIndex + |result.data|;
      }
    }

    /** `readFd` as meant: bytes beyond the free space come from the second vector and are appended. */
    method ReadFd(result: ReadResult)
      requires Valid()
      requires result.Received? ==>
        |result.data| <= WritableBytes() + if WritableBytes() < 65536 then 65536 else 0
      modifies this
      ensures Valid() && Contents() == old(Contents()) + if result.Received? then result.data else []
    {
      if result.Received? {
        var writable := WritableBytes();
        var first := if |result.data| <= writable then result.data else result.data[..writable];
        buffer := buffer[..writeIndex] + first + buffer[writeIndex + |first|..];
        if |result.data| <= writable {
          writeIndex := writeIndex + |result.data|;
        } else {
          writeIndex := |buffer|;
          Append(result.data[writable..]);
        }
      }
    }

    // -------------------------------------------------------------- peekInt16 as written

    /** It copies four bytes into a 32-bit integer and converts its low half.  `outside` is the first byte of the copy
        that lies behind the vector: there is one exactly if the readable bytes and the free space behind them are fewer
        than four.  Otherwise, on a little-endian host, the value is right. */
    method PeekInt16AsWritten() returns (outside: int, x: int)
      requires Valid() && 2 <= |Contents()|
      ensures outside == if ReadableBytes() + WritableBytes() < 4 then ReadableBytes() + WritableBytes() else 4
      ensures outside == 4 ==> x == ToSigned(FromBytes(Contents()[..2]), 2)
    {
      var word: seq<Byte> := [];
      while |word| < 4 && readIndex + |word| < |buffer|
        invariant |word| <= 4 && readIndex + |word| <= |buffer|
        invariant word == buffer[readIndex..readIndex + |word|]
      {
        word := word + [buffer[readIndex + |word|]];
      }
      outside, x := |word|, 0;
      if outside == 4 {
        var low := HostWord(word[0], word[1], word[2], word[3]) % 65536;
        x := ToSigned(low % 256 * 256 + low / 256, 2);
        LowHalf(word[0], word[1], word[2], word[3]);
        TwoBytes(word[0], word[1]);
        assert Contents()[..2] == [word[0], word[1]];
      }
    }
  }

  /** Both happen.  A buffer filled to the end and drained to its last two bytes: the copy leaves the vector. */
  method PeekInt16Overruns(data: seq<Byte>) returns (b: Buffer, outside: int)
    requires 2 <= |data|
    ensures b.Valid() && b.Contents() == data[|data| - 2..] && outside == 2
  {
    b := new Buffer(|data|);
    b.Append(data);
    b.Retrieve(|data| - 2);
    var x;
    outside, x := b.PeekInt16AsWritten();
  }

  /** One byte more than the free space: the write index is left behind the vector. */
  method ReadFdOverruns(data: seq<Byte>) returns (b: Buffer)
    requires 1 <= |data| <= EXTRA_SIZE
    ensures !b.Valid() && b.writeIndex == |b.buffer| + 1
  {
    b := new Buffer(|data| - 1);
    b.ReadFdAsWritten(Received(data));
  }

  /** Four bytes in the memory of a little-endian host. */
  function HostWord(a: Byte, b: Byte, c: Byte, d: Byte): int {
    a as int + 256 * (b as int + 256 * (c as int + 256 * d as int))
  }

  lemma LowHalf(a: Byte, b: Byte, c: Byte, d: Byte)
    ensures HostWord(a, b, c, d) % 65536 == a as int + 256 * b as int
    ensures (a as int + 256 * b as int) % 256 == a as int && (a as int + 256 * b as int) / 256 == b as int
  {
  }

  lemma TwoBytes(a: Byte, b: Byte)
    ensures FromBytes([a, b]) == a as int * 256 + b as int
    ensures Pow256(2) == 65536
  {
    assert [a, b][..1] == [a] && [a][..0] == [];
    assert FromBytes([a]) == 256 * FromBytes([]) + a as int;
    assert Pow256(2) == 256 * Pow256(1) && Pow256(1) == 256 * Pow256(0);
  }

  /** Writing an integer and reading it back, from either end, through any reallocation: the value returns and the
      other readable bytes are unchanged. */
  method AppendThenRead(b: Buffer, x: int, width: nat) returns (before: seq<Byte>, y: int)
    requires b.Valid() && Fits(x, width)
    modifies b
    ensures b.Valid() && b.Contents() == [] && before == old(b.Contents()) && y == x
  {
    hide ToBytes, FromBytes, Pow256, ToUnsigned, ToSigned;
    SignedRoundTrip(x, width);
    var ahead := b.ReadableBytes();
    b.AppendInt(x, width);
    before := b.RetrieveAsString(ahead);
    assert b.Contents()[..width] == ToBytes(ToUnsigned(x, width), width);
    y := b.ReadInt(width);
  }

  method PrependThenRead(b: Buffer, x: int, width: nat) returns (y: int)
    requires b.Valid() && Fits(x, width) && width <= b.PrependableBytes()
    modifies b
    ensures b.Valid() && b.Contents() == old(b.Contents()) && y == x
  {
    hide ToBytes, FromBytes, Pow256, ToUnsigned, ToSigned;
    SignedRoundTrip(x, width);
    b.PrependInt(x, width);
    assert b.Contents()[..width] == ToBytes(ToUnsigned(x, width), width);
    y := b.ReadInt(width);
  }
}
