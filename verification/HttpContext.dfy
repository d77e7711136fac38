/** The incremental request parser (net/http/HttpContext.cpp).  `Parse` says what one call makes of the bytes in the
    buffer; the class consumes a `Buffer` step by step. */
module HttpContext {
  import B = Buffer
  import R = HttpRequest
  import opened Util

  type Text = R.Text

  datatype ParseState = RequestLine | Headers | Body | AllDone

  datatype Context = Context(state: ParseState, request: R.Request)

  const FRESH: Context := Context(RequestLine, R.EMPTY)

  /** `rest` is what stays in the buffer. */
  datatype Outcome = Outcome(context: Context, rest: Text, ok: bool)

  datatype LineResult = LineResult(request: R.Request, ok: bool)

  const HTTP: Text := [72, 84, 84, 80, 47]      // "HTTP/"

  function VersionOf(s: Text): R.Version {
    if |s| == 8 && s[..5] == HTTP && s[6] == 46 then
      if s[5] == 49 && s[7] == 49 then R.Http11
      else if s[5] == 49 && s[7] == 48 then R.Http10
      else if s[5] == 50 && s[7] == 48 then R.Http20
      else R.UnknownVersion
    else R.UnknownVersion
  }

  function VersionText(v: R.Version): Text
    requires v != R.UnknownVersion
  {
    match v
    case Http10 => HTTP + [49, 46, 48]
    case Http11 => HTTP + [49, 46, 49]
    case Http20 => HTTP + [50, 46, 48]
  }

  /** The path ends and the query begins at the first question mark; a target without one leaves the query alone. */
  function SetTarget(r: R.Request, target: Text): R.Request {
    var q := B.Find(target, R.QUESTION);
    if q < |target| then r.(path := target[..q], query := target[q..]) else r.(path := target)
  }

  /** Fields read before the line turns out to be bad are kept. */
  function ParseLine(r: R.Request, line: Text): LineResult {
    var sp := B.Find(line, R.SP);
    if sp == |line| then LineResult(r, false)
    else
      var r1 := r.(verb := R.MethodOf(line[..sp]));
      var rest := line[sp + 1..];
      var sp2 := B.Find(rest, R.SP);
      if r1.verb == R.InvalidMethod || sp2 == |rest| then LineResult(r1, false)
      else
        var r2 := SetTarget(r1, rest[..sp2]);
        var v := VersionOf(rest[sp2 + 1..]);
        if v == R.UnknownVersion then LineResult(r2, false) else LineResult(r2.(version := v), true)
  }

  function AddHeader(r: R.Request, line: Text, colon: nat): R.Request
    requires colon < |line|
  {
    r.(headers := r.headers[line[..colon] := R.Trim(line[colon + 1..])])
  }

  predicate Parsing(state: ParseState) { state == RequestLine || state == Headers }

  /** One pass through the loop; `more` says whether there is another. */
  datatype Round = Round(context: Context, rest: Text, ok: bool, more: bool)

  /** What a complete line does; `rest` follows it in `data`.  A header line without a colon, the empty one in
      particular, ends the headers; a bad request line stays in the buffer. */
  function LineRound(c: Context, line: Text, data: Text, rest: Text): Round
    requires Parsing(c.state)
  {
    if c.state == RequestLine then
      var l := ParseLine(c.request, line);
      if l.ok then Round(Context(Headers, l.request), rest, true, true)
      else Round(Context(RequestLine, l.request), data, false, false)
    else
      var colon := B.Find(line, R.COLON);
      if colon < |line| then Round(Context(Headers, AddHeader(c.request, line, colon)), rest, true, true)
      else Round(Context(AllDone, c.request), rest, true, false)
  }

  /** A pass that continues has taken at least the two bytes of a line end. */
  function OneRound(c: Context, data: Text): (r: Round)
    requires Parsing(c.state)
    ensures r.more ==> r.ok && Parsing(r.context.state) && |r.rest| + 2 <= |data|
  {
    var i := B.FindCrLf(data);
    if i == |data| then Round(c, data, true, false) else LineRound(c, data[..i], data, data[i + 2..])
  }

  /** A call with `data` in the buffer. */
  function Parse(c: Context, data: Text): Outcome
    requires Parsing(c.state)
    decreases |data|
  {
    var r := OneRound(c, data);
    if r.more then Parse(r.context, r.rest) else Outcome(r.context, r.rest, r.ok)
  }

  // ---------------------------------------------------------------- the parser object

  class HttpContext {
    var state: ParseState
    const request: R.HttpRequest

    function View(): Context
      reads this, request
    {
      Context(state, request.View())
    }

    constructor ()
      ensures View() == FRESH && fresh(request)
    {
      state := RequestLine;
      request := new R.HttpRequest();
    }

    method StoreTarget(target: Text)
      modifies request`path, request`query
      ensures request.View() == SetTarget(old(request.View()), target)
    {
      var question := B.Find(target, R.QUESTION);
      if question < |target| {
        request.path, request.query := target[..question], target[question..];
      } else {
        request.path := target;
      }
    }

    method ProcessRequestLine(line: Text) returns (ok: bool)
      modifies request`verb, request`version, request`path, request`query
      ensures ok == ParseLine(old(request.View()), line).ok
      ensures request.View() == ParseLine(old(request.View()), line).request
    {
      hide VersionOf, SetTarget, R.MethodOf, R.MethodText, B.Find;
      var space := B.Find(line, R.SP);
      ok := false;
      if space < |line| {
        var known := request.SetMethod(line[..space]);
        if known {
          var rest := line[space + 1..];
          var space2 := B.Find(rest, R.SP);
          if space2 < |rest| {
            StoreTarget(rest[..space2]);
            var v := VersionOf(rest[space2 + 1..]);
            if v != R.UnknownVersion {
              request.version := v;
              ok := true;
            }
          }
        }
      }
    }

    /** Takes complete lines until none is left, one is bad, or the headers end. */
    method ParseRequest(buffer: B.Buffer, time: int) returns (ok: bool)
      requires buffer.Valid() && Parsing(state)
      modifies this`state, request, buffer`readIndex, buffer`writeIndex
      ensures buffer.Valid()
      ensures Outcome(View(), buffer.Contents(), ok) == Parse(old(View()), old(buffer.Contents()))
      ensures request.receivedTime ==
              if old(state) == RequestLine && state != RequestLine then time else old(request.receivedTime)
    {
      hide OneRound;
      ok := true;
      var hasMore := true;
      while hasMore
        invariant buffer.Valid() && (hasMore ==> ok && Parsing(state))
        invariant hasMore ==> Parse(View(), buffer.Contents()) == Parse(old(View()), old(buffer.Contents()))
        invariant !hasMore ==> Outcome(View(), buffer.Contents(), ok) == Parse(old(View()), old(buffer.Contents()))
        invariant old(state) == Headers ==> state != RequestLine
        invariant request.receivedTime ==
                  if old(state) == RequestLine && state != RequestLine then time else old(request.receivedTime)
        decreases hasMore, |buffer.Contents()|
      {
        ok, hasMore := TakeLine(buffer, time);
      }
    }

    method TakeLine(buffer: B.Buffer, time: int) returns (ok: bool, hasMore: bool)
      requires buffer.Valid() && Parsing(state)
      modifies this`state, request, buffer`readIndex, buffer`writeIndex
      ensures buffer.Valid()
      ensures Round(View(), buffer.Contents(), ok, hasMore) == OneRound(old(View()), old(buffer.Contents()))
      ensures old(state) == Headers ==> state != RequestLine
      ensures request.receivedTime ==
              if old(state) == RequestLine && state != RequestLine then time else old(request.receivedTime)
    {
      hide ParseLine, R.Trim, B.FindCrLf, B.Find, B.IsCrLf;
      ok, hasMore := true, true;
      var data := buffer.Contents();
      var crlf := B.FindCrLf(data);
      if crlf == |data| {
        hasMore := false;
      } else if state == RequestLine {
        ok := ProcessRequestLine(data[..crlf]);
        if ok {
          request.receivedTime := time;
          buffer.Retrieve(crlf + 2);
          state := Headers;
        } else {
          hasMore := false;
        }
      } else {
        var colon := B.Find(data[..crlf], R.COLON);
        if colon < crlf {
          request.AddHeader(data[..crlf], colon);
        } else {
          state := AllDone;
          hasMore := false;
        }
        buffer.Retrieve(crlf + 2);
      }
    }

    /** `HttpServer::onMessage`: a bad request is answered with 400, a complete one is handed on and the parser starts
        anew, so that no call ever begins behind a complete request. */
    method OnMessage(buffer: B.Buffer, time: int) returns (bad: bool, complete: bool, handedOn: R.Request)
      requires buffer.Valid() && Parsing(state)
      modifies this`state, request, buffer`readIndex, buffer`writeIndex
      ensures buffer.Valid() && Parsing(state)
      ensures (
        var o := Parse(old(View()), old(buffer.Contents()));
        && bad == !o.ok && complete == (o.context.state == AllDone) && buffer.Contents() == o.rest
        && handedOn == o.context.request
        && View() == if complete then FRESH else o.context)
    {
      hide OneRound, Parse;
      var ok := ParseRequest(buffer, time);
      OutcomeStates(old(View()), old(buffer.Contents()));
      bad, complete, handedOn := !ok, state == AllDone, request.View();
      if complete {
        Reset();
      }
    }

    method Reset()
      modifies this`state, request`verb, request`version, request`path, request`query, request`headers
      ensures View() == FRESH
    {
      state := RequestLine;
      request.Clear();
    }
  }

  // ---------------------------------------------------------------- chunking

  /** More bytes behind a complete line change nothing about it. */
  lemma CrLfExtends(a: Text, b: Text)
    requires B.FindCrLf(a) < |a|
    ensures B.FindCrLf(a + b) == B.FindCrLf(a)
  {
    var i, j := B.FindCrLf(a), B.FindCrLf(a + b);
    assert B.IsCrLf(a, i);
    assert B.IsCrLf(a + b, i);
    assert forall k :: 0 <= k < i ==> B.IsCrLf(a + b, k) == B.IsCrLf(a, k);
  }

  lemma SplitAppend(a: Text, b: Text, i: nat)
    requires i + 2 <= |a|
    ensures (a + b)[..i] == a[..i] && (a + b)[i + 2..] == a[i + 2..] + b
  {
  }

  lemma RoundIs(c: Context, data: Text, i: nat)
    requires Parsing(c.state) && i == B.FindCrLf(data) < |data|
    ensures i + 2 <= |data| && OneRound(c, data) == LineRound(c, data[..i], data, data[i + 2..])
  {
  }

  lemma RoundExtends(c: Context, a: Text, b: Text)
    requires Parsing(c.state) && B.FindCrLf(a) < |a|
    ensures (
      var r := OneRound(c, a);
      OneRound(c, a + b) == Round(r.context, r.rest + b, r.ok, r.more))
  {
    CrLfExtends(a, b);
    var i := B.FindCrLf(a);
    RoundIs(c, a, i);
    RoundIs(c, a + b, i);
    hide OneRound, B.FindCrLf, B.IsCrLf, LineRound;
    SplitAppend(a, b, i);
    LineExtends(c, a[..i], a, a[i + 2..], b);
  }

  lemma LineExtends(c: Context, line: Text, data: Text, rest: Text, b: Text)
    requires Parsing(c.state)
    ensures (
      var r := LineRound(c, line, data, rest);
      LineRound(c, line, data + b, rest + b) == Round(r.context, r.rest + b, r.ok, r.more))
  {
  }

  /** Reading a bad line again finds the same fields and the same fault. */
  lemma BadLineAgain(r: R.Request, line: Text)
    requires !ParseLine(r, line).ok
    ensures ParseLine(ParseLine(r, line).request, line) == ParseLine(r, line)
  {
    hide VersionOf;
  }

  /** After a call that did not complete the request, going on with more bytes gives what one call on everything
      would have given; if the request was already complete the further bytes are left untouched. */
  lemma {:induction false} ChunkingInvariance(c: Context, a: Text, b: Text)
    requires Parsing(c.state)
    ensures (
      var first := Parse(c, a);
      && (Parsing(first.context.state) || first.context.state == AllDone)
      && (first.context.state == AllDone ==> Parse(c, a + b) == first.(rest := first.rest + b))
      && (Parsing(first.context.state) ==> Parse(c, a + b) == Parse(first.context, first.rest + b)))
    decreases |a|
  {
    if B.FindCrLf(a) < |a| {
      RoundExtends(c, a, b);
      var r := OneRound(c, a);
      hide B.FindCrLf;
      if r.more {
        hide OneRound;
        ChunkingInvariance(r.context, r.rest, b);
      } else if r.context.state != AllDone {
        BadLineAgain(c.request, a[..B.FindCrLf(a)]);
        RoundExtends(r.context, a, b);
      }
    }
  }

  /** The bytes of a connection arriving in any chunks.  A complete request leaves later bytes in the buffer. */
  function Feed(o: Outcome, chunks: seq<Text>): Outcome
    requires Parsing(o.context.state) || o.context.state == AllDone
    decreases |chunks|
  {
    if chunks == [] then o
    else if o.context.state == AllDone then Feed(o.(rest := o.rest + chunks[0]), chunks[1..])
    else
      ChunkingInvariance(o.context, o.rest + chunks[0], []);
      Feed(Parse(o.context, o.rest + chunks[0]), chunks[1..])
  }

  lemma {:induction false} FeedFrom(o: Outcome, chunks: seq<Text>)
    requires Parsing(o.context.state) ==> Parse(o.context, o.rest) == o
    requires Parsing(o.context.state) || o.context.state == AllDone
    ensures Feed(o, chunks) ==
            if o.context.state == AllDone then o.(rest := o.rest + Concat(chunks))
            else Parse(o.context, o.rest + Concat(chunks))
    decreases |chunks|
  {
    hide OneRound;
    if chunks == [] {
      assert o.rest + Concat(chunks) == o.rest;
    } else {
      var tail := Concat(chunks[1..]);
      assert o.rest + Concat(chunks) == (o.rest + chunks[0]) + tail;
      if o.context.state == AllDone {
        FeedFrom(o.(rest := o.rest + chunks[0]), chunks[1..]);
      } else {
        var p := Parse(o.context, o.rest + chunks[0]);
        ChunkingInvariance(o.context, o.rest + chunks[0], []);
        assert o.rest + chunks[0] + [] == o.rest + chunks[0];
        assert p.rest + [] == p.rest;
        ChunkingInvariance(o.context, o.rest + chunks[0], tail);
        FeedFrom(p, chunks[1..]);
      }
    }
  }

  /** However the bytes are cut up: the same state, the same fields, the same bytes left over. */
  lemma AnyChunking(c: Context, chunks: seq<Text>)
    requires Parsing(c.state)
    ensures Feed(Outcome(c, [], true), chunks) == Parse(c, Concat(chunks))
  {
    FeedFrom(Outcome(c, [], true), chunks);
    assert [] + Concat(chunks) == Concat(chunks);
  }

  lemma OutcomeStates(c: Context, data: Text)
    requires Parsing(c.state)
    ensures Parse(c, data).context.state != Body
    ensures !Parse(c, data).ok ==> Parse(c, data).context.state == RequestLine
  {
    hide Parse, OneRound;
    ChunkingInvariance(c, data, []);
    if !Parse(c, data).ok {
      FailsAtLine(c, data);
    }
  }

  lemma {:induction false} FailsAtLine(c: Context, data: Text)
    requires Parsing(c.state) && !Parse(c, data).ok
    ensures Parse(c, data).context.state == RequestLine
    decreases |data|
  {
    var r := OneRound(c, data);
    if r.more {
      FailsAtLine(r.context, r.rest);
    }
  }

  // ---------------------------------------------------------------- completeness

  /** A header field with white space around its value (section 3.2 of RFC 7230). */
  datatype Field = Field(name: Text, before: Text, value: Text, after: Text)

  predicate FieldOk(f: Field) {
    && R.COLON !in f.name && B.CR !in f.name && B.CR !in f.value && B.CR !in f.before && B.CR !in f.after
    && R.AllSpaces(f.before) && R.AllSpaces(f.after) && R.Trimmed(f.value)
  }

  /** A request line (section 3.1.1 of RFC 7230); a query begins with its question mark. */
  predicate LineOk(verb: R.Method, path: Text, query: Text, version: R.Version) {
    && verb != R.InvalidMethod && version != R.UnknownVersion
    && R.SP !in path && R.QUESTION !in path && B.CR !in path
    && R.SP !in query && B.CR !in query && (query != [] ==> query[0] == R.QUESTION)
  }

  const CRLF: Text := [B.CR, B.LF]

  function RenderLine(verb: R.Method, path: Text, query: Text, version: R.Version): Text
    requires LineOk(verb, path, query, version)
  {
    R.MethodText(verb) + [R.SP] + (path + query + [R.SP] + VersionText(version))
  }

  function RenderField(f: Field): Text { f.name + [R.COLON] + (f.before + f.value + f.after) }

  function RenderFields(fields: seq<Field>): Text {
    if fields == [] then CRLF else RenderField(fields[0]) + CRLF + RenderFields(fields[1..])
  }

  /** Later fields replace earlier ones of the same name. */
  function Collect(headers: map<Text, Text>, fields: seq<Field>): map<Text, Text>
    decreases |fields|
  {
    if fields == [] then headers else Collect(headers[fields[0].name := fields[0].value], fields[1..])
  }

  lemma {:induction false} CollectLast(headers: map<Text, Text>, fields: seq<Field>, i: nat)
    requires i < |fields| && forall j :: i < j < |fields| ==> fields[j].name != fields[i].name
    ensures fields[i].name in Collect(headers, fields) && Collect(headers, fields)[fields[i].name] == fields[i].value
    decreases |fields|
  {
    var next := headers[fields[0].name := fields[0].value];
    if i > 0 {
      CollectLast(next, fields[1..], i - 1);
    } else {
      CollectOther(next, fields[1..], fields[0].name);
    }
  }

  lemma {:induction false} CollectOther(headers: map<Text, Text>, fields: seq<Field>, name: Text)
    requires forall j :: 0 <= j < |fields| ==> fields[j].name != name
    ensures name in Collect(headers, fields) <==> name in headers
    ensures name in headers ==> Collect(headers, fields)[name] == headers[name]
    decreases |fields|
  {
    if fields != [] {
      CollectOther(headers[fields[0].name := fields[0].value], fields[1..], name);
    }
  }

  /** A byte that does not occur before its place is found there. */
  lemma FindAt(a: Text, b: B.Byte, rest: Text)
    requires b !in a
    ensures B.Find(a + [b] + rest, b) == |a|
    ensures (a + [b] + rest)[..|a|] == a && (a + [b] + rest)[|a| + 1..] == rest
  {
    var s := a + [b] + rest;
    assert s[|a|] == b;
    assert forall j :: 0 <= j < |a| ==> s[j] == a[j];
  }

  lemma FindNone(a: Text, b: B.Byte)
    requires b !in a
    ensures B.Find(a, b) == |a|
  {
  }

  lemma CrLfAt(line: Text, rest: Text)
    requires B.CR !in line
    ensures B.FindCrLf(line + CRLF + rest) == |line| < |line + CRLF + rest|
    ensures (line + CRLF + rest)[..|line|] == line && (line + CRLF + rest)[|line| + 2..] == rest
  {
    var s := line + CRLF + rest;
    assert B.IsCrLf(s, |line|);
    assert forall j :: 0 <= j < |line| ==> s[j] == line[j];
  }

  lemma VersionRoundTrip(v: R.Version)
    requires v != R.UnknownVersion
    ensures VersionOf(VersionText(v)) == v && B.CR !in VersionText(v)
  {
    var s := VersionText(v);
    assert s[..5] == HTTP;
  }

  lemma TargetParses(r: R.Request, path: Text, query: Text)
    requires R.QUESTION !in path && (query != [] ==> query[0] == R.QUESTION)
    ensures SetTarget(r, path + query) == if query == [] then r.(path := path) else r.(path := path, query := query)
  {
    if query == [] {
      assert path + query == path;
      FindNone(path, R.QUESTION);
    } else {
      assert path + query == path + [R.QUESTION] + query[1..];
      FindAt(path, R.QUESTION, query[1..]);
      assert (path + query)[|path|..] == query;
    }
  }

  lemma PartsParse(r: R.Request, m: Text, target: Text, version: Text)
    requires R.SP !in m && R.SP !in target
    requires R.MethodOf(m) != R.InvalidMethod && VersionOf(version) != R.UnknownVersion
    ensures ParseLine(r, m + [R.SP] + (target + [R.SP] + version)) ==
            LineResult(SetTarget(r.(verb := R.MethodOf(m)), target).(version := VersionOf(version)), true)
  {
    hide B.Find, VersionOf, R.MethodOf, SetTarget;
    FindAt(m, R.SP, target + [R.SP] + version);
    FindAt(target, R.SP, version);
  }

  lemma LineParses(r: R.Request, verb: R.Method, path: Text, query: Text, version: R.Version)
    requires LineOk(verb, path, query, version) && r.query == []
    ensures ParseLine(r, RenderLine(verb, path, query, version)) ==
            LineResult(R.Request(verb, version, path, query, r.headers), true)
  {
    hide ParseLine, VersionText, VersionOf, R.MethodText, R.MethodOf, SetTarget;
    R.MethodRoundTrip(verb);
    VersionRoundTrip(version);
    PartsParse(r, R.MethodText(verb), path + query, VersionText(version));
    TargetParses(r.(verb := verb), path, query);
  }

  lemma RenderLineWhole(verb: R.Method, path: Text, query: Text, version: R.Version)
    requires LineOk(verb, path, query, version)
    ensures B.CR !in RenderLine(verb, path, query, version)
  {
    R.MethodRoundTrip(verb);
    VersionRoundTrip(version);
    hide VersionText, R.MethodText;
  }

  lemma FieldParses(r: R.Request, f: Field)
    requires FieldOk(f)
    ensures (
      var line := RenderField(f);
      && B.CR !in line && B.Find(line, R.COLON) == |f.name| < |line|
      && AddHeader(r, line, |f.name|) == r.(headers := r.headers[f.name := f.value]))
  {
    hide R.Trim, B.Find;
    var tail := f.before + f.value + f.after;
    TrimsToValue(f);
    FindAt(f.name, R.COLON, tail);
    hide FieldOk;
    var line := f.name + [R.COLON] + tail;
    assert line[..|f.name|] == f.name && line[|f.name| + 1..] == tail;
  }

  lemma TrimsToValue(f: Field)
    requires FieldOk(f)
    ensures R.Trim(f.before + f.value + f.after) == f.value && R.COLON !in f.name
    ensures B.CR !in RenderField(f)
  {
    hide R.Trim;
    R.TrimExactly(f.before, f.value, f.after);
  }

  lemma {:induction false} FieldsParse(r: R.Request, fields: seq<Field>, extra: Text)
    requires forall i :: 0 <= i < |fields| ==> FieldOk(fields[i])
    ensures Parse(Context(Headers, r), RenderFields(fields) + extra) ==
            Outcome(Context(AllDone, r.(headers := Collect(r.headers, fields))), extra, true)
    decreases |fields|
  {
    hide FieldOk, B.FindCrLf, B.Find, R.Trim, RenderField, AddHeader;
    var data := RenderFields(fields) + extra;
    if fields == [] {
      assert data == [] + CRLF + extra;
      CrLfAt([], extra);
      FindNone([], R.COLON);
      assert r.headers == Collect(r.headers, fields);
    } else {
      var line := RenderField(fields[0]);
      var rest := RenderFields(fields[1..]) + extra;
      assert data == line + CRLF + rest;
      FieldParses(r, fields[0]);
      CrLfAt(line, rest);
      FieldsParse(r.(headers := r.headers[fields[0].name := fields[0].value]), fields[1..], extra);
    }
  }

  /** Every well-formed request is parsed to its fields, consuming exactly its own bytes. */
  lemma RequestParses(verb: R.Method, path: Text, query: Text, version: R.Version, fields: seq<Field>, extra: Text)
    requires LineOk(verb, path, query, version) && forall i :: 0 <= i < |fields| ==> FieldOk(fields[i])
    ensures Parse(FRESH, RenderLine(verb, path, query, version) + CRLF + RenderFields(fields) + extra) ==
            Outcome(Context(AllDone, R.Request(verb, version, path, query, Collect(map[], fields))), extra, true)
  {
    hide B.FindCrLf, B.Find, ParseLine, RenderLine;
    var line := RenderLine(verb, path, query, version);
    var rest := RenderFields(fields) + extra;
    assert line + CRLF + RenderFields(fields) + extra == line + CRLF + rest;
    LineParses(R.EMPTY, verb, path, query, version);
    RenderLineWhole(verb, path, query, version);
    CrLfAt(line, rest);
    FieldsParse(R.Request(verb, version, path, query, map[]), fields, extra);
  }

  /** In bytes, for every method and version: "/p?q" and the field "Host: a" with a tab before and a blank around its
      value. */
  lemma RequestInBytes(verb: R.Method, m: Text, version: R.Version, v: Text, extra: Text)
    requires
      || (verb == R.Get && m == [71, 69, 84])
      || (verb == R.Post && m == [80, 79, 83, 84])
      || (verb == R.Head && m == [72, 69, 65, 68])
      || (verb == R.Put && m == [80, 85, 84])
      || (verb == R.Delete && m == [68, 69, 76, 69, 84, 69])
    requires
      || (version == R.Http10 && v == [72, 84, 84, 80, 47, 49, 46, 48])
      || (version == R.Http11 && v == [72, 84, 84, 80, 47, 49, 46, 49])
      || (version == R.Http20 && v == [72, 84, 84, 80, 47, 50, 46, 48])
    ensures
      Parse(Context(RequestLine, R.Request(R.InvalidMethod, R.UnknownVersion, [], [], map[])),
            m + [32, 47, 112, 63, 113, 32] + v + [13, 10] +
            [72, 111, 115, 116, 58, 9, 32, 97, 32, 13, 10, 13, 10] + extra) ==
      Outcome(Context(AllDone, R.Request(verb, version, [47, 112], [63, 113], map[[72, 111, 115, 116] := [97]])),
              extra, true)
  {
    hide Parse, R.Trim;
    var f := Field([72, 111, 115, 116], [9, 32], [97], [32]);
    assert LineOk(verb, [47, 112], [63, 113], version);
    RequestParses(verb, [47, 112], [63, 113], version, [f], extra);
    LineInBytes(verb, m, version, v);
    FieldInBytes(f);
    var line, fields := m + [32, 47, 112, 63, 113, 32] + v, [72, 111, 115, 116, 58, 9, 32, 97, 32, 13, 10, 13, 10];
    assert RenderLine(verb, [47, 112], [63, 113], version) + CRLF + RenderFields([f]) + extra ==
           line + [13, 10] + fields + extra;
  }

  lemma LineInBytes(verb: R.Method, m: Text, version: R.Version, v: Text)
    requires verb != R.InvalidMethod && version != R.UnknownVersion
    requires m == R.MethodText(verb) && v == VersionText(version)
    ensures LineOk(verb, [47, 112], [63, 113], version)
    ensures RenderLine(verb, [47, 112], [63, 113], version) == m + [32, 47, 112, 63, 113, 32] + v
  {
    hide R.MethodText, VersionText;
    assert [47, 112] + [63, 113] + [R.SP] + v == [47, 112, 63, 113, 32] + v;
  }

  lemma FieldInBytes(f: Field)
    requires f == Field([72, 111, 115, 116], [9, 32], [97], [32])
    ensures FieldOk(f) && RenderFields([f]) == [72, 111, 115, 116, 58, 9, 32, 97, 32, 13, 10, 13, 10]
    ensures Collect(map[], [f]) == map[[72, 111, 115, 116] := [97]]
  {
    assert [f][1..] == [];
    assert RenderFields([f]) == RenderField(f) + CRLF + CRLF;
  }

  // ---------------------------------------------------------------- the loop as written

  datatype Loop = Loop(context: Context, data: Text, ok: bool, hasMore: bool)

  /** One pass of the loop at net/http/HttpContext.cpp:15-58: a bad request line clears `ok` but not `hasMore`, and the
      remaining states do nothing at all. */
  function WrittenRound(l: Loop): Loop
    requires l.hasMore
  {
    if !Parsing(l.context.state) then l
    else
      var r := OneRound(l.context, l.data);
      if B.FindCrLf(l.data) == |l.data| then l.(hasMore := false)
      else Loop(r.context, r.rest, if l.context.state == RequestLine then r.ok else l.ok, r.more || !r.ok)
  }

  function WrittenRounds(l: Loop, n: nat): Loop
    decreases n
  {
    if n == 0 || !l.hasMore then l else WrittenRounds(WrittenRound(l), n - 1)
  }

  ghost predicate Halts(c: Context, data: Text) {
    exists n: nat :: !WrittenRounds(Loop(c, data, true, true), n).hasMore
  }

  /** The caller's question before the call: no complete first line, or one that parses. */
  predicate StartsWell(c: Context, data: Text) {
    match c.state
    case RequestLine => B.FindCrLf(data) == |data| || ParseLine(c.request, data[..B.FindCrLf(data)]).ok
    case Headers => true
    case Body => false
    case AllDone => false
  }

  lemma {:induction false} StuckForever(l: Loop, n: nat)
    requires l.hasMore && !StartsWell(l.context, l.data)
    ensures WrittenRounds(l, n).hasMore
    decreases n
  {
    hide ParseLine;
    if n > 0 {
      if Parsing(l.context.state) {
        BadLineAgain(l.context.request, l.data[..B.FindCrLf(l.data)]);
      }
      StuckForever(WrittenRound(l), n - 1);
    }
  }

  lemma {:induction false} WrittenFinishes(l: Loop) returns (n: nat)
    requires l.hasMore && l.ok && StartsWell(l.context, l.data)
    ensures Parsing(l.context.state)
    ensures (
      var o := Parse(l.context, l.data);
      o.ok && WrittenRounds(l, n) == Loop(o.context, o.rest, true, false))
    decreases |l.data|
  {
    hide ParseLine, B.FindCrLf, R.Trim;
    var m := WrittenRound(l);
    if m.hasMore {
      n := WrittenFinishes(m);
      n := n + 1;
    } else {
      n := 1;
      assert WrittenRounds(m, 0) == m;
    }
  }

  /** The loop as written ends exactly if the first line is incomplete or good and the request not already complete;
      and then it does what the repaired one does. */
  lemma WrittenHaltsExactly(c: Context, data: Text)
    ensures Halts(c, data) <==> StartsWell(c, data)
    ensures Halts(c, data) ==> exists n: nat ::
              var o := Parse(c, data);
              WrittenRounds(Loop(c, data, true, true), n) == Loop(o.context, o.rest, true, false)
  {
    var l := Loop(c, data, true, true);
    if StartsWell(c, data) {
      var n := WrittenFinishes(l);
      assert !WrittenRounds(l, n).hasMore;
    } else {
      forall n: nat ensures WrittenRounds(l, n).hasMore {
        StuckForever(l, n);
      }
    }
  }

  /** And it does happen: an empty request line, for one, keeps the loop running for ever. */
  lemma EmptyLineNeverEnds(rest: Text)
    ensures !Halts(FRESH, CRLF + rest)
  {
    CrLfAt([], rest);
    assert [] + CRLF + rest == CRLF + rest;
    FindNone([], R.SP);
    WrittenHaltsExactly(FRESH, CRLF + rest);
  }
}
