/** One line of the logger (util/LogLine.cpp): values are appended to a growing byte buffer as a type code and the
    value's own bytes, and decoded only when the line is printed.  Integers have the layout of a little-endian host. */
module LogLine {
  import opened Util
  import B = Buffer

  type Bytes = seq<B.Byte>

  /** A double is its bit pattern; a view is a length and an address. */
  datatype Value =
    | CharValue(c: B.Byte)
    | UInt32(n: nat)
    | UInt64(n: nat)
    | Int32(x: int)
    | Int64(x: int)
    | Double(bits: nat)
    | StrView(length: nat, address: nat)
    | RawStr(text: Bytes)

  datatype Header = Header(time: int, thread: int, level: B.Byte, file: Value, func: Value, line: nat, errno: int)

  const STACK_SIZE: nat := 104         // 128 less two sizes and an address
  const FIRST_HEAP_SIZE: nat := 512
  const HEADER_SIZE: nat := 53

  // ---------------------------------------------------------------- numbers in memory

  function Low(x: nat, n: nat): (s: Bytes)
    ensures |s| == n
    decreases n
  {
    if n == 0 then [] else [(x % 256) as B.Byte] + Low(x / 256, n - 1)
  }

  function FromLow(s: Bytes): nat {
    if s == [] then 0 else s[0] as nat + 256 * FromLow(s[1..])
  }

  lemma {:induction false} LowRoundTrip(x: nat, n: nat)
    requires x < B.Pow256(n)
    ensures FromLow(Low(x, n)) == x
    decreases n
  {
    if n > 0 {
      LowRoundTrip(x / 256, n - 1);
      assert Low(x, n)[1..] == Low(x / 256, n - 1);
    }
  }

  /** Little-endian: the byte at `i` holds bits `8 * i` and up. */
  lemma {:induction false} LowLayout(x: nat, n: nat, i: nat)
    requires i < n
    ensures Low(x, n)[i] as int == x / B.Pow256(i) % 256
    decreases n
  {
    if i > 0 {
      LowLayout(x / 256, n - 1, i - 1);
      B.DivDiv(x, B.Pow256(i - 1));
    }
  }

  function Signed(x: int, n: nat): Bytes
    requires B.Fits(x, n)
  {
    Low(B.ToUnsigned(x, n), n)
  }

  function FromSigned(s: Bytes): int { B.ToSigned(FromLow(s), |s|) }

  lemma SignedRoundTrip(x: int, n: nat)
    requires B.Fits(x, n)
    ensures FromSigned(Signed(x, n)) == x
  {
    LowRoundTrip(B.ToUnsigned(x, n), n);
  }

  // ---------------------------------------------------------------- values

  predicate Ok(v: Value) {
    match v
    case CharValue(_) => true
    case UInt32(n) => n < B.Pow256(4)
    case UInt64(n) => n < B.Pow256(8)
    case Int32(x) => B.Fits(x, 4)
    case Int64(x) => B.Fits(x, 8)
    case Double(bits) => bits < B.Pow256(8)
    case StrView(length, address) => length < B.Pow256(8) && address < B.Pow256(8)
    case RawStr(text) => text != [] && 0 !in text
  }

  function View(v: Value): Bytes
    requires v.StrView?
  {
    Low(v.length, 8) + Low(v.address, 8)
  }

  function Encode(v: Value): (s: Bytes)
    requires Ok(v)
    ensures s != []
  {
    match v
    case CharValue(c) => [0, c]
    case UInt32(n) => [1] + Low(n, 4)
    case UInt64(n) => [2] + Low(n, 8)
    case Int32(x) => [3] + Signed(x, 4)
    case Int64(x) => [4] + Signed(x, 8)
    case Double(bits) => [5] + Low(bits, 8)
    case StrView(_, _) => [6] + View(v)
    case RawStr(text) => [7] + text + [0]
  }

  /** How many bytes follow the type code; a raw string ends with its NUL. */
  function PayloadSize(data: Bytes): Option<nat>
    requires data != []
  {
    match data[0] as int
    case 0 => Some(1)
    case 1 => Some(4)
    case 2 => Some(8)
    case 3 => Some(4)
    case 4 => Some(8)
    case 5 => Some(8)
    case 6 => Some(16)
    case 7 => Some(B.Find(data[1..], 0) + 1)
    case _ => None
  }

  function FromPayload(code: B.Byte, s: Bytes): Value
    requires code < 8 && (code == 0 || code == 7 ==> s != []) && (code == 6 ==> |s| == 16)
  {
    match code as int
    case 0 => CharValue(s[0])
    case 1 => UInt32(FromLow(s))
    case 2 => UInt64(FromLow(s))
    case 3 => Int32(FromSigned(s))
    case 4 => Int64(FromSigned(s))
    case 5 => Double(FromLow(s))
    case 6 => StrView(FromLow(s[..8]), FromLow(s[8..]))
    case _ => RawStr(s[..|s| - 1])
  }

  /** The next value and the bytes it takes; nothing for an unknown code or a value cut short. */
  function DecodeOne(data: Bytes): Option<(Value, nat)>
    requires data != []
  {
    match PayloadSize(data)
    case None => None
    case Some(n) => if |data| < 1 + n then None else Some((FromPayload(data[0], data[1..1 + n]), 1 + n))
  }

  function Decode(data: Bytes): seq<Value>
    decreases |data|
  {
    if data == [] then []
    else
      match DecodeOne(data)
      case None => []
      case Some((v, n)) => [v] + Decode(data[n..])
  }

  function EncodeAll(values: seq<Value>): Bytes
    requires forall i :: 0 <= i < |values| ==> Ok(values[i])
  {
    if values == [] then [] else Encode(values[0]) + EncodeAll(values[1..])
  }

  lemma PayloadRoundTrip(v: Value)
    requires Ok(v)
    ensures FromPayload(Encode(v)[0], Encode(v)[1..]) == v
  {
    hide Low, FromLow, Signed, FromSigned, View, B.Pow256;
    match v {
      case CharValue(_) =>
      case UInt32(n) => CodeAndRest(1, Low(n, 4)); LowRoundTrip(n, 4);
      case UInt64(n) => CodeAndRest(2, Low(n, 8)); LowRoundTrip(n, 8);
      case Int32(x) => CodeAndRest(3, Signed(x, 4)); SignedRoundTrip(x, 4);
      case Int64(x) => CodeAndRest(4, Signed(x, 8)); SignedRoundTrip(x, 8);
      case Double(bits) => CodeAndRest(5, Low(bits, 8)); LowRoundTrip(bits, 8);
      case StrView(_, _) => CodeAndRest(6, View(v)); ViewRoundTrip(v);
      case RawStr(text) => TextRoundTrip(text);
    }
  }

  lemma CodeAndRest(code: B.Byte, rest: Bytes)
    ensures ([code] + rest)[0] == code && ([code] + rest)[1..] == rest
  {
  }

  lemma ViewRoundTrip(v: Value)
    requires Ok(v) && v.StrView?
    ensures |View(v)| == 16 && FromLow(View(v)[..8]) == v.length && FromLow(View(v)[8..]) == v.address
  {
    hide Low, FromLow, B.Pow256;
    LowRoundTrip(v.length, 8);
    LowRoundTrip(v.address, 8);
    assert View(v)[..8] == Low(v.length, 8) && View(v)[8..] == Low(v.address, 8);
  }

  lemma TextRoundTrip(text: Bytes)
    ensures (
      var s := ([7] + text + [0])[1..];
      s == text + [0] && s[..|s| - 1] == text)
  {
  }

  lemma SizeRoundTrip(v: Value, rest: Bytes)
    requires Ok(v)
    ensures PayloadSize(Encode(v) + rest) == Some(|Encode(v)| - 1)
  {
    hide Low, FromLow;
    if v.RawStr? {
      var tail := (Encode(v) + rest)[1..];
      assert tail == v.text + [0] + rest;
      assert tail[|v.text|] == 0 && forall j :: 0 <= j < |v.text| ==> tail[j] == v.text[j];
      assert B.Find(tail, 0) == |v.text|;
    }
  }

  lemma OneRoundTrip(v: Value, rest: Bytes)
    requires Ok(v)
    ensures DecodeOne(Encode(v) + rest) == Some((v, |Encode(v)|))
  {
    hide Encode, FromPayload, PayloadSize;
    var data := Encode(v) + rest;
    SizeRoundTrip(v, rest);
    PayloadRoundTrip(v);
    assert data[0] == Encode(v)[0] && data[1..|Encode(v)|] == Encode(v)[1..];
  }

  /** Decoding visits exactly the encoded values in order and stops exactly at the end. */
  lemma {:induction false} RoundTrip(values: seq<Value>)
    requires forall i :: 0 <= i < |values| ==> Ok(values[i])
    ensures Decode(EncodeAll(values)) == values
  {
    hide Encode, DecodeOne, Ok;
    if values != [] {
      var rest := EncodeAll(values[1..]);
      var data := Encode(values[0]) + rest;
      OneRoundTrip(values[0], rest);
      assert data[|Encode(values[0])|..] == rest;
      RoundTrip(values[1..]);
    }
  }

  lemma {:induction false} EncodeSnoc(values: seq<Value>, v: Value)
    requires Ok(v) && forall i :: 0 <= i < |values| ==> Ok(values[i])
    ensures EncodeAll(values + [v]) == EncodeAll(values) + Encode(v)
    decreases |values|
  {
    hide Encode, Ok;
    if values == [] {
      assert values + [v] == [v] && [v][1..] == [];
      assert EncodeAll([v]) == Encode(v) + EncodeAll([]);
    } else {
      assert (values + [v])[1..] == values[1..] + [v];
      EncodeSnoc(values[1..], v);
    }
  }

  // ---------------------------------------------------------------- the header

  predicate HeaderOk(h: Header) {
    && B.Fits(h.time, 8) && B.Fits(h.thread, 4) && h.line < B.Pow256(4) && B.Fits(h.errno, 4)
    && h.file.StrView? && Ok(h.file) && h.func.StrView? && Ok(h.func)
  }

  function EncodeHeader(h: Header): (s: Bytes)
    requires HeaderOk(h)
    ensures |s| == HEADER_SIZE <= STACK_SIZE
  {
    Signed(h.time, 8) + Signed(h.thread, 4) + [h.level] + View(h.file) + View(h.func) + Low(h.line, 4) +
    Signed(h.errno, 4)
  }

  lemma NothingLogged(h: Header)
    requires HeaderOk(h)
    ensures EncodeHeader(h) + EncodeAll([]) == [] + EncodeHeader(h)
  {
    hide EncodeHeader;
    assert EncodeAll([]) == [];
  }

  function DecodeHeader(s: Bytes): Header
    requires |s| == HEADER_SIZE
  {
    Header(FromSigned(s[..8]), FromSigned(s[8..12]), s[12],
           StrView(FromLow(s[13..21]), FromLow(s[21..29])),
           StrView(FromLow(s[29..37]), FromLow(s[37..45])),
           FromLow(s[45..49]), FromSigned(s[49..53]))
  }

  lemma HeaderRoundTrip(h: Header)
    requires HeaderOk(h)
    ensures DecodeHeader(EncodeHeader(h)) == h
  {
    hide Low, FromLow, FromSigned;
    var s := EncodeHeader(h);
    SignedRoundTrip(h.time, 8);
    SignedRoundTrip(h.thread, 4);
    LowRoundTrip(h.file.length, 8);
    LowRoundTrip(h.file.address, 8);
    LowRoundTrip(h.func.length, 8);
    LowRoundTrip(h.func.address, 8);
    LowRoundTrip(h.line, 4);
    SignedRoundTrip(h.errno, 4);
    var tail := Signed(h.errno, 4);
    assert s[49..53] == tail;
    hide Signed;
    assert s[..8] == Signed(h.time, 8) && s[8..12] == Signed(h.thread, 4);
    assert s[13..21] == Low(h.file.length, 8) && s[21..29] == Low(h.file.address, 8);
    assert s[29..37] == Low(h.func.length, 8) && s[37..45] == Low(h.func.address, 8);
    assert s[45..49] == Low(h.line, 4);
  }

  // ---------------------------------------------------------------- the line object

  function Max(a: nat, b: nat): nat { if a >= b then a else b }

  class LogLine {
    var usedBytes: nat
    var bufferSize: nat
    var heapBuffer: array?<B.Byte>
    const stackBuffer: array<B.Byte>
    ghost var header: Header
    ghost var logged: seq<Value>

    function Current(): array<B.Byte>
      reads this
    {
      if heapBuffer == null then stackBuffer else heapBuffer
    }

    ghost predicate Shape()
      reads this
    {
      && stackBuffer.Length == STACK_SIZE && heapBuffer != stackBuffer
      && bufferSize == Current().Length && usedBytes <= bufferSize
    }

    function Data(): Bytes
      requires Shape()
      reads this, stackBuffer, heapBuffer
    {
      Current()[..usedBytes]
    }

    ghost predicate Valid()
      reads this, stackBuffer, heapBuffer
    {
      && Shape()
      && (heapBuffer != null ==> bufferSize <= Max(FIRST_HEAP_SIZE, 2 * usedBytes))
      && HeaderOk(header) && (forall i :: 0 <= i < |logged| ==> Ok(logged[i]))
      && Data() == EncodeHeader(header) + EncodeAll(logged)
    }

    /** The header is written without a size check: it fits the buffer inside the object. */
    constructor (h: Header)
      requires HeaderOk(h)
      ensures Valid() && header == h && logged == [] && heapBuffer == null && fresh(stackBuffer) && bufferSize == 104
    {
      usedBytes, bufferSize, heapBuffer := 0, STACK_SIZE, null;
      stackBuffer := new B.Byte[STACK_SIZE](_ => 0);
      header, logged := h, [];
      new;
      hide EncodeHeader, HeaderOk;
      assert stackBuffer[..0] == [];
      Store(EncodeHeader(h));
      NothingLogged(h);
    }

    /** Copies bytes behind the used ones. */
    method Store(bytes: Bytes)
      requires Shape() && usedBytes + |bytes| <= bufferSize
      modifies this`usedBytes, stackBuffer, heapBuffer
      ensures Shape() && Data() == old(Data()) + bytes && usedBytes == old(usedBytes) + |bytes|
    {
      var b := Current();
      Copy(bytes, b, usedBytes);
      usedBytes := usedBytes + |bytes|;
    }

    /** Grows to 512 bytes, then by doubling, or at once to what is needed; what was stored stays. */
    method ResizeIfNeeded(needed: nat)
      requires Shape()
      modifies this`bufferSize, this`heapBuffer
      ensures Shape() && Data() == old(Data()) && usedBytes + needed <= bufferSize
      ensures bufferSize ==
              if old(usedBytes) + needed <= old(bufferSize) then old(bufferSize)
              else if old(heapBuffer) == null then Max(512, usedBytes + needed)
              else Max(2 * old(bufferSize), usedBytes + needed)
      ensures heapBuffer == old(heapBuffer) || fresh(heapBuffer)
      ensures bufferSize == old(bufferSize) ==> heapBuffer == old(heapBuffer)
      ensures bufferSize != old(bufferSize) ==>
        heapBuffer != null && bufferSize <= Max(FIRST_HEAP_SIZE, 2 * (usedBytes + needed))
    {
      var required := usedBytes + needed;
      if required <= bufferSize {
        return;
      }
      var held := Data();
      if heapBuffer == null {
        bufferSize := Max(FIRST_HEAP_SIZE, required);
      } else {
        bufferSize := Max(2 * bufferSize, required);
      }
      var grown := new B.Byte[bufferSize](_ => 0);
      Copy(held, grown, 0);
      heapBuffer := grown;
    }

    /** One value: its type code and its bytes. */
    method Append(v: Value)
      requires Valid() && Ok(v)
      modifies this, stackBuffer, heapBuffer
      ensures Valid() && header == old(header) && logged == old(logged) + [v]
      ensures heapBuffer == old(heapBuffer) || fresh(heapBuffer)
    {
      hide Encode, EncodeHeader, HeaderOk, Ok;
      ResizeIfNeeded(|Encode(v)|);
      Store(Encode(v));
      EncodeSnoc(logged, v);
      assert EncodeHeader(header) + EncodeAll(logged) + Encode(v) ==
             EncodeHeader(header) + (EncodeAll(logged) + Encode(v));
      logged := logged + [v];
    }

    /** A string is kept up to its first NUL; nothing is stored for an empty one. */
    method AppendString(text: Bytes)
      requires Valid()
      modifies this, stackBuffer, heapBuffer
      ensures Valid() && header == old(header)
      ensures logged == old(logged) + if text == [] || text[0] == 0 then [] else [RawStr(text[..B.Find(text, 0)])]
      ensures heapBuffer == old(heapBuffer) || fresh(heapBuffer)
    {
      var cut := text[..B.Find(text, 0)];
      if |cut| > 0 {
        Append(RawStr(cut));
      }
    }

    /** Prints the header and then value after value until the end of the used bytes. */
    method Stringify() returns (h: Header, values: seq<Value>)
      requires Valid()
      ensures h == header && values == logged
    {
      hide DecodeOne, EncodeHeader, DecodeHeader, HeaderOk, Ok, Encode;
      var data := Data();
      HeaderRoundTrip(header);
      RoundTrip(logged);
      assert data[..HEADER_SIZE] == EncodeHeader(header) && data[HEADER_SIZE..] == EncodeAll(logged);
      h := DecodeHeader(data[..HEADER_SIZE]);
      values := [];
      var b := HEADER_SIZE;
      while b < |data|
        invariant b <= |data|
        invariant values + Decode(data[b..]) == logged
      {
        var next := DecodeOne(data[b..]);
        if next.None? {
          return;
        }
        DecodeFits(data[b..]);
        assert data[b..][next.value.1..] == data[b + next.value.1..];
        values := values + [next.value.0];
        b := b + next.value.1;
      }
    }
  }

  lemma DecodeFits(data: Bytes)
    requires data != []
    ensures DecodeOne(data).Some? ==> 0 < DecodeOne(data).value.1 <= |data|
  {
  }

  method Copy(bytes: Bytes, to: array<B.Byte>, at: nat)
    requires at + |bytes| <= to.Length
    modifies to
    ensures to[..] == old(to[..at]) + bytes + old(to[at + |bytes|..])
  {
    var i := 0;
    while i < |bytes|
      invariant 0 <= i <= |bytes|
      invariant forall k :: 0 <= k < at ==> to[k] == old(to[k])
      invariant forall k :: 0 <= k < i ==> to[at + k] == bytes[k]
      invariant forall k :: at + i <= k < to.Length ==> to[k] == old(to[k])
    {
      to[at + i] := bytes[i];
      i := i + 1;
    }
  }
}
