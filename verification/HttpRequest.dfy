/** A parsed request (net/http/HttpRequest.cpp, include/libfm/fmnet/http/HttpRequest.h). */
module HttpRequest {
  import B = Buffer

  type Text = seq<B.Byte>

  const SP: B.Byte := 32
  const COLON: B.Byte := 58
  const QUESTION: B.Byte := 63

  datatype Method = InvalidMethod | Get | Post | Head | Put | Delete
  datatype Version = UnknownVersion | Http10 | Http11 | Http20

  datatype Request = Request(verb: Method, version: Version, path: Text, query: Text, headers: map<Text, Text>)

  const EMPTY: Request := Request(InvalidMethod, UnknownVersion, [], [], map[])

  const GET: Text := [71, 69, 84]
  const POST: Text := [80, 79, 83, 84]
  const HEAD: Text := [72, 69, 65, 68]
  const PUT: Text := [80, 85, 84]
  const DELETE: Text := [68, 69, 76, 69, 84, 69]

  function MethodText(m: Method): Text
    requires m != InvalidMethod
  {
    match m
    case Get => GET
    case Post => POST
    case Head => HEAD
    case Put => PUT
    case Delete => DELETE
  }

  /** The method whose text is `s`, if there is one. */
  function MethodOf(s: Text): (m: Method)
    ensures m != InvalidMethod ==> MethodText(m) == s
    ensures m == InvalidMethod ==> forall k: Method :: k != InvalidMethod ==> MethodText(k) != s
  {
    if s == GET then Get
    else if s == POST then Post
    else if s == HEAD then Head
    else if s == PUT then Put
    else if s == DELETE then Delete
    else InvalidMethod
  }

  lemma MethodRoundTrip(m: Method)
    requires m != InvalidMethod
    ensures MethodOf(MethodText(m)) == m && SP !in MethodText(m) && B.CR !in MethodText(m)
  {
    assert |GET| == 3 && |PUT| == 3 && |POST| == 4 && |HEAD| == 4 && |DELETE| == 6;
    assert GET[0] != PUT[0] && POST[0] != HEAD[0];
  }

  // ---------------------------------------------------------------- header fields

  /** `isspace` of the C locale. */
  predicate IsSpace(b: B.Byte) { b == 32 || 9 <= b <= 13 }

  predicate AllSpaces(s: Text) { forall i :: 0 <= i < |s| ==> IsSpace(s[i]) }

  predicate Trimmed(s: Text) {
    s != [] ==> !IsSpace(s[0]) && !IsSpace(s[|s| - 1])
  }

  function TrimLeft(s: Text): (t: Text)
    ensures t != [] ==> !IsSpace(t[0])
    ensures |t| <= |s| && s[|s| - |t|..] == t && AllSpaces(s[..|s| - |t|])
  {
    if s == [] || !IsSpace(s[0]) then s
    else
      var t := TrimLeft(s[1..]);
      OneMoreSpace(s, t);
      t
  }

  lemma OneMoreSpace(s: Text, t: Text)
    requires s != [] && IsSpace(s[0]) && |t| <= |s| - 1
    requires s[1..][|s| - 1 - |t|..] == t && AllSpaces(s[1..][..|s| - 1 - |t|])
    ensures s[|s| - |t|..] == t && AllSpaces(s[..|s| - |t|])
  {
    var n := |s| - 1 - |t|;
    assert s[n + 1..] == s[1..][n..];
    var before, inner := s[..n + 1], s[1..][..n];
    forall i | 0 <= i < |before|
      ensures IsSpace(before[i])
    {
      assert i > 0 ==> before[i] == inner[i - 1];
    }
  }

  function TrimRight(s: Text): (t: Text)
    ensures t != [] ==> !IsSpace(t[|t| - 1])
    ensures t <= s && AllSpaces(s[|t|..])
  {
    if s == [] || !IsSpace(s[|s| - 1]) then s
    else
      var t := TrimRight(s[..|s| - 1]);
      OneSpaceMore(s, t);
      t
  }

  lemma OneSpaceMore(s: Text, t: Text)
    requires s != [] && IsSpace(s[|s| - 1]) && t <= s[..|s| - 1] && AllSpaces(s[..|s| - 1][|t|..])
    ensures t <= s && AllSpaces(s[|t|..])
  {
    var after, inner := s[|t|..], s[..|s| - 1][|t|..];
    forall i | 0 <= i < |after|
      ensures IsSpace(after[i])
    {
      assert i < |after| - 1 ==> after[i] == inner[i];
    }
  }

  function Trim(s: Text): Text { TrimRight(TrimLeft(s)) }

  /** White space is the tab, the line feed, the vertical tab, the form feed, the carriage return and the blank. */
  lemma SpacesInBytes(b: B.Byte)
    ensures Trim([b]) == [] <==> b == 9 || b == 10 || b == 11 || b == 12 || b == 13 || b == 32
    ensures Trim([b]) == [] || Trim([b]) == [b]
  {
    assert [b][1..] == [] && [b][..0] == [];
  }

  /** Trimming takes away exactly the surrounding white space. */
  lemma TrimExactly(before: Text, value: Text, after: Text)
    requires AllSpaces(before) && AllSpaces(after) && Trimmed(value)
    ensures Trim(before + value + after) == value
  {
    assert before + value + after == before + (value + after);
    if value == [] {
      assert before + value + after == before + after;
      TrimSpaces(before + after, []);
    } else {
      TrimSpaces(before, value + after);
      TrimTail(value, after);
    }
  }

  lemma {:induction false} TrimSpaces(spaces: Text, rest: Text)
    requires AllSpaces(spaces) && (rest != [] ==> !IsSpace(rest[0]))
    ensures TrimLeft(spaces + rest) == rest
    decreases |spaces|
  {
    if spaces == [] {
      assert spaces + rest == rest;
    } else {
      assert (spaces + rest)[1..] == spaces[1..] + rest;
      TrimSpaces(spaces[1..], rest);
    }
  }

  lemma {:induction false} TrimTail(value: Text, spaces: Text)
    requires AllSpaces(spaces) && value != [] && !IsSpace(value[|value| - 1])
    ensures TrimRight(value + spaces) == value
    decreases |spaces|
  {
    if spaces == [] {
      assert value + spaces == value;
    } else {
      assert (value + spaces)[..|value + spaces| - 1] == value + spaces[..|spaces| - 1];
      TrimTail(value, spaces[..|spaces| - 1]);
    }
  }

  lemma SplitBack(s: Text, t: Text)
    requires |t| <= |s| && s[|s| - |t|..] == t
    ensures s == s[..|s| - |t|] + t
  {
  }

  lemma SplitFront(s: Text, t: Text)
    requires t <= s
    ensures s == t + s[|t|..]
  {
  }

  /** Every line splits into white space, the trimmed value and white space. */
  lemma TrimSplits(s: Text) returns (before: Text, after: Text)
    ensures s == before + Trim(s) + after && AllSpaces(before) && AllSpaces(after) && Trimmed(Trim(s))
  {
    hide TrimLeft, TrimRight, AllSpaces;
    var left := TrimLeft(s);
    var value := TrimRight(left);
    before := s[..|s| - |left|];
    after := left[|value|..];
    SplitBack(s, left);
    SplitFront(left, value);
    assert before + (value + after) == before + value + after;
    assert value != [] ==> value[0] == left[0];
  }

  /** The two loops of `addHeader`. */
  method TrimmedValue(s: Text) returns (value: Text)
    ensures value == Trim(s)
  {
    hide AllSpaces;
    value := s;
    while value != [] && IsSpace(value[0])
      invariant TrimLeft(value) == TrimLeft(s)
    {
      value := value[1..];
    }
    while value != [] && IsSpace(value[|value| - 1])
      invariant TrimRight(value) == Trim(s)
    {
      value := value[..|value| - 1];
    }
  }

  class HttpRequest {
    var verb: Method
    var version: Version
    var path: Text
    var query: Text
    var headers: map<Text, Text>
    var receivedTime: int

    function View(): Request
      reads this
    {
      Request(verb, version, path, query, headers)
    }

    constructor ()
      ensures View() == EMPTY
    {
      verb, version, path, query, headers, receivedTime := InvalidMethod, UnknownVersion, [], [], map[], 0;
    }

    method SetMethod(text: Text) returns (ok: bool)
      modifies this`verb
      ensures verb == MethodOf(text) && (ok <==> verb != InvalidMethod)
      ensures ok <==> exists m: Method :: m != InvalidMethod && MethodText(m) == text
    {
      verb := MethodOf(text);
      ok := verb != InvalidMethod;
    }

    /** Stores the field of a header line, trimmed, over any earlier one of the same name. */
    method AddHeader(line: Text, colon: nat)
      requires colon < |line|
      modifies this`headers
      ensures headers == old(headers)[line[..colon] := Trim(line[colon + 1..])]
    {
      var value := TrimmedValue(line[colon + 1..]);
      headers := headers[line[..colon] := value];
    }

    function GetHeader(field: Text): (value: Text)
      ensures field in headers ==> value == headers[field]
      ensures field !in headers ==> value == []
      reads this
    {
      if field in headers then headers[field] else []
    }

    method Clear()
      modifies this`verb, this`version, this`path, this`query, this`headers
      ensures View() == EMPTY
    {
      verb, version, path, query, headers := InvalidMethod, UnknownVersion, [], [], map[];
    }
  }

  /** A header line is found again under its name, trimmed, whatever was there before; no other field changes. */
  method AddThenGet(r: HttpRequest, line: Text, colon: nat, other: Text) returns (value: Text, otherValue: Text)
    requires colon < |line|
    modifies r`headers
    ensures value == Trim(line[colon + 1..])
    ensures other != line[..colon] ==> otherValue == old(r.GetHeader(other))
  {
    r.AddHeader(line, colon);
    value := r.GetHeader(line[..colon]);
    otherValue := r.GetHeader(other);
  }
}
