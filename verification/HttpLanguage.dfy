/** Exactly which bytes the parser accepts (net/http/HttpContext.cpp:13-97), and which requests a connection's message
    handler passes on (net/http/HttpServer.cpp:59-70). */
module HttpLanguage {
  import opened Util
  import opened HttpContext
  import B = Buffer
  import R = HttpRequest

  // ---------------------------------------------------------------- request lines

  /** A method, a target without a space, a version. */
  predicate IsRequestLine(line: Text, m: R.Method, target: Text, v: R.Version) {
    && m != R.InvalidMethod && v != R.UnknownVersion && R.SP !in target
    && line == R.MethodText(m) + [R.SP] + (target + [R.SP] + VersionText(v))
  }

  lemma SplitAt(s: Text, b: B.Byte)
    requires B.Find(s, b) < |s|
    ensures (
      var i := B.Find(s, b);
      s == s[..i] + [b] + s[i + 1..] && b !in s[..i])
  {
  }

  lemma VersionTextOf(s: Text)
    requires VersionOf(s) != R.UnknownVersion
    ensures VersionText(VersionOf(s)) == s
  {
    assert s == s[..5] + [s[5], s[6], s[7]];
  }

  lemma AcceptedLine(r: R.Request, line: Text) returns (m: R.Method, target: Text, v: R.Version)
    requires ParseLine(r, line).ok
    ensures IsRequestLine(line, m, target, v)
  {
    hide VersionOf, VersionText, SetTarget, R.MethodText, R.MethodOf;
    var i := B.Find(line, R.SP);
    var rest := line[i + 1..];
    var j := B.Find(rest, R.SP);
    m, target, v := R.MethodOf(line[..i]), rest[..j], VersionOf(rest[j + 1..]);
    SplitAt(line, R.SP);
    SplitAt(rest, R.SP);
    VersionTextOf(rest[j + 1..]);
  }

  /** A request line is accepted if and only if it is one, whatever was parsed before. */
  lemma AcceptedLines(r: R.Request, line: Text)
    ensures ParseLine(r, line).ok <==> exists m, target, v :: IsRequestLine(line, m, target, v)
  {
    if ParseLine(r, line).ok {
      var m, target, v := AcceptedLine(r, line);
    }
    hide ParseLine;
    if m, target, v :| IsRequestLine(line, m, target, v) {
      R.MethodRoundTrip(m);
      VersionRoundTrip(v);
      PartsParse(r, R.MethodText(m), target, VersionText(v));
    }
  }

  // ---------------------------------------------------------------- whole requests

  predicate NoCrLf(line: Text) {
    forall i :: 0 <= i < |line| ==> !B.IsCrLf(line, i)
  }

  predicate IsFieldLine(line: Text) { NoCrLf(line) && R.COLON in line }

  /** What ends the headers: any line without a colon, of which the empty one is but one. */
  predicate IsLastLine(line: Text) { NoCrLf(line) && R.COLON !in line }

  function Lines(lines: seq<Text>): Text {
    if lines == [] then [] else lines[0] + CRLF + Lines(lines[1..])
  }

  /** The header block: field lines and the line that ends it. */
  predicate IsBlock(data: Text, fields: seq<Text>, last: Text, rest: Text) {
    && (forall i :: 0 <= i < |fields| ==> IsFieldLine(fields[i]))
    && IsLastLine(last)
    && data == Lines(fields) + (last + CRLF + rest)
  }

  lemma CrLfFound(line: Text, rest: Text)
    requires NoCrLf(line)
    ensures B.FindCrLf(line + CRLF + rest) == |line| < |line + CRLF + rest|
    ensures (line + CRLF + rest)[..|line|] == line && (line + CRLF + rest)[|line| + 2..] == rest
  {
    var s := line + CRLF + rest;
    assert B.IsCrLf(s, |line|);
    assert forall j :: 0 <= j < |line| - 1 ==> B.IsCrLf(s, j) == B.IsCrLf(line, j);
    assert |line| > 0 ==> s[|line|] == B.CR;
  }

  lemma CutAt(data: Text, i: nat)
    requires B.IsCrLf(data, i)
    ensures i + 2 <= |data| && data == data[..i] + CRLF + data[i + 2..]
  {
  }

  lemma NoCrLfBefore(data: Text, i: nat)
    requires i <= |data| && forall j :: 0 <= j < i ==> !B.IsCrLf(data, j)
    ensures NoCrLf(data[..i])
  {
    var line := data[..i];
    forall j | 0 <= j < |line|
      ensures !B.IsCrLf(line, j)
    {
      assert !B.IsCrLf(data, j);
    }
  }

  lemma CrLfSplits(data: Text)
    requires B.FindCrLf(data) < |data|
    ensures (
      var i := B.FindCrLf(data);
      i + 2 <= |data| && NoCrLf(data[..i]) && data == data[..i] + CRLF + data[i + 2..])
  {
    hide B.FindCrLf, B.IsCrLf, NoCrLf;
    CutAt(data, B.FindCrLf(data));
    NoCrLfBefore(data, B.FindCrLf(data));
  }

  lemma ColonFound(line: Text)
    ensures B.Find(line, R.COLON) < |line| <==> R.COLON in line
  {
  }

  lemma {:induction false} AcceptedBlock(c: Context, data: Text) returns (fields: seq<Text>, last: Text)
    requires c.state == Headers && Parse(c, data).context.state == AllDone
    ensures IsBlock(data, fields, last, Parse(c, data).rest) && Parse(c, data).ok
    decreases |data|
  {
    hide B.FindCrLf, B.Find, R.Trim, NoCrLf;
    CrLfSplits(data);
    var i := B.FindCrLf(data);
    ColonFound(data[..i]);
    var r := OneRound(c, data);
    if r.more {
      fields, last := AcceptedBlock(r.context, r.rest);
      fields := [data[..i]] + fields;
      LinesCons(data, i, fields, last, Parse(c, data).rest);
    } else {
      fields, last := [], data[..i];
      assert Lines([]) + (last + CRLF + r.rest) == last + CRLF + r.rest;
    }
  }

  lemma LinesCons(data: Text, i: nat, fields: seq<Text>, last: Text, rest: Text)
    requires i + 2 <= |data| && data == data[..i] + CRLF + data[i + 2..] && fields != [] && fields[0] == data[..i]
    requires data[i + 2..] == Lines(fields[1..]) + (last + CRLF + rest)
    ensures data == Lines(fields) + (last + CRLF + rest)
  {
  }

  lemma {:induction false} BlockAccepted(c: Context, data: Text, fields: seq<Text>, last: Text, rest: Text)
    requires c.state == Headers && IsBlock(data, fields, last, rest)
    ensures Parse(c, data).context.state == AllDone && Parse(c, data).rest == rest && Parse(c, data).ok
    decreases |fields|
  {
    hide B.FindCrLf, B.Find, R.Trim, NoCrLf;
    if fields == [] {
      assert data == last + CRLF + rest;
      CrLfFound(last, rest);
      ColonFound(last);
    } else {
      var tail := Lines(fields[1..]) + (last + CRLF + rest);
      assert data == fields[0] + CRLF + tail;
      assert IsFieldLine(fields[0]);
      CrLfFound(fields[0], tail);
      ColonFound(fields[0]);
      BlockAccepted(OneRound(c, data).context, tail, fields[1..], last, rest);
    }
  }

  /** The accepted language: a request line, field lines, and any line without a colon. */
  ghost predicate IsRequest(data: Text, rest: Text) {
    exists line, fields, last, block ::
      IsHead(data, line, block) && IsBlock(block, fields, last, rest)
  }

  ghost predicate IsHead(data: Text, line: Text, block: Text) {
    && NoCrLf(line) && data == line + CRLF + block
    && exists m, target, v :: IsRequestLine(line, m, target, v)
  }

  /** Bytes are parsed to a complete request, leaving `rest`, if and only if they are a request followed by `rest`.  The
      headers end at the first line without a colon, empty or not. */
  lemma AcceptedRequests(data: Text, rest: Text)
    ensures (Parse(FRESH, data).context.state == AllDone && Parse(FRESH, data).rest == rest) <==> IsRequest(data, rest)
  {
    hide IsBlock, NoCrLf, ParseLine, R.Trim, B.Find;
    if Parse(FRESH, data).context.state == AllDone && Parse(FRESH, data).rest == rest {
      CrLfSplits(data);
      var i := B.FindCrLf(data);
      AcceptedLines(R.EMPTY, data[..i]);
      var r := OneRound(FRESH, data);
      var fields, last := AcceptedBlock(r.context, r.rest);
      assert IsHead(data, data[..i], r.rest);
    }
    if IsRequest(data, rest) {
      var line, fields, last, block :| IsHead(data, line, block) && IsBlock(block, fields, last, rest);
      CrLfFound(line, block);
      AcceptedLines(R.EMPTY, line);
      hide B.FindCrLf;
      BlockAccepted(OneRound(FRESH, data).context, block, fields, last, rest);
    }
  }

  /** A non-empty line without a colon, which is no header field, completes the request all the same. */
  lemma ColonlessLineEnds(c: Context, line: Text, rest: Text)
    requires c.state == Headers && NoCrLf(line)
    ensures Parse(c, line + CRLF + rest) == Outcome(Context(AllDone, c.request), rest, true) <==> R.COLON !in line
  {
    hide B.FindCrLf, B.Find, R.Trim, NoCrLf;
    CrLfFound(line, rest);
    ColonFound(line);
    if R.COLON in line { RestShrinks(OneRound(c, line + CRLF + rest).context, rest); }
  }

  /** A call that completes a request takes at least a line end. */
  lemma {:induction false} RestShrinks(c: Context, data: Text)
    requires Parsing(c.state)
    ensures |Parse(c, data).rest| <= |data|
    ensures Parse(c, data).context.state == AllDone ==> |Parse(c, data).rest| + 2 <= |data|
    decreases |data|
  {
    hide B.Find, ParseLine, R.Trim;
    var r := OneRound(c, data);
    if r.more { RestShrinks(r.context, r.rest); }
  }

  // ---------------------------------------------------------------- sequences of messages

  /** The requests of a stream of bytes, up to the first incomplete or bad one. */
  function Requests(c: Context, data: Text): seq<R.Request>
    requires Parsing(c.state)
    decreases |data|
  {
    var o := Parse(c, data);
    RestShrinks(c, data);
    if o.context.state == AllDone then [o.context.request] + Requests(FRESH, o.rest) else []
  }

  lemma RequestsSplit(c: Context, a: Text, b: Text)
    requires Parsing(c.state)
    ensures (
      var o := Parse(c, a);
      if o.context.state == AllDone then Requests(c, a + b) == [o.context.request] + Requests(FRESH, o.rest + b)
      else Parsing(o.context.state) && Requests(c, a + b) == Requests(o.context, o.rest + b))
  {
    hide Parse;
    ChunkingInvariance(c, a, b);
    OutcomeStates(c, a);
  }

  /** What the message handler has passed on, its context, and the bytes left in the buffer. */
  datatype Served = Served(handed: seq<R.Request>, context: Context, rest: Text)

  /** The handler is called once for every chunk that arrives. */
  function Serve(c: Context, rest: Text, chunks: seq<Text>): Served
    requires Parsing(c.state)
    decreases |chunks|
  {
    if chunks == [] then Served([], c, rest)
    else
      var o := Parse(c, rest + chunks[0]);
      OutcomeStates(c, rest + chunks[0]);
      if o.context.state == AllDone then
        var more := Serve(FRESH, o.rest, chunks[1..]);
        more.(handed := [o.context.request] + more.handed)
      else Serve(o.context, o.rest, chunks[1..])
  }

  /** However the bytes are cut up, the requests passed on, followed by those still complete in the buffer, are the
      requests of the stream; each call passes on at most one. */
  lemma {:induction false} HandedOn(c: Context, rest: Text, chunks: seq<Text>)
    requires Parsing(c.state)
    ensures (
      var s := Serve(c, rest, chunks);
      && Parsing(s.context.state) && |s.handed| <= |chunks|
      && s.handed + Requests(s.context, s.rest) == Requests(c, rest + Concat(chunks)))
    decreases |chunks|
  {
    hide Parse, Requests;
    if chunks == [] {
      assert rest + Concat(chunks) == rest;
    } else {
      var a, tail := rest + chunks[0], Concat(chunks[1..]);
      assert rest + Concat(chunks) == a + tail;
      var o := Parse(c, a);
      RequestsSplit(c, a, tail);
      if o.context.state == AllDone {
        HandedOn(FRESH, o.rest, chunks[1..]);
        var s := Serve(FRESH, o.rest, chunks[1..]);
        assert [o.context.request] + s.handed + Requests(s.context, s.rest) ==
               [o.context.request] + (s.handed + Requests(s.context, s.rest));
      } else {
        HandedOn(o.context, o.rest, chunks[1..]);
      }
    }
  }

  /** Exactly when a complete request is held back: if what is left in the buffer is parsed to one. */
  lemma HeldBack(chunks: seq<Text>)
    ensures (
      var s := Serve(FRESH, [], chunks);
      && Parsing(s.context.state)
      && s.handed <= Requests(FRESH, Concat(chunks))
      && (s.handed == Requests(FRESH, Concat(chunks)) <==> Parse(s.context, s.rest).context.state != AllDone))
  {
    HandedOn(FRESH, [], chunks);
    assert [] + Concat(chunks) == Concat(chunks);
  }

  /** It happens: of two requests that arrive together the second one waits for more bytes. */
  lemma SecondWaits(first: Text, second: Text)
    requires Parse(FRESH, first).context.state == AllDone && Parse(FRESH, first).rest == []
    requires Parse(FRESH, second).context.state == AllDone
    ensures Serve(FRESH, [], [first + second]) == Served([Parse(FRESH, first).context.request], FRESH, second)
    ensures |Requests(FRESH, first + second)| >= 2
  {
    ChunkingInvariance(FRESH, first, second);
    RequestsSplit(FRESH, first, second);
    hide Parse;
    assert [] + (first + second) == first + second && [] + second == second;
    var chunks := [first + second];
    assert chunks[1..] == [];
    assert Serve(FRESH, second, []) == Served([], FRESH, second);
  }

  /** The handler on its objects: every chunk is appended to the input buffer and handled. */
  method ServeAll(context: HttpContext, buffer: B.Buffer, chunks: seq<Text>, time: int) returns (handed: seq<R.Request>)
    requires buffer.Valid() && Parsing(context.state)
    modifies context`state, context.request, buffer
    ensures buffer.Valid()
    ensures Served(handed, context.View(), buffer.Contents()) ==
            Serve(old(context.View()), old(buffer.Contents()), chunks)
    ensures Parsing(context.state)
    ensures handed + Requests(context.View(), buffer.Contents()) ==
            Requests(old(context.View()), old(buffer.Contents()) + Concat(chunks))
    decreases |chunks|
  {
    hide Parse, Requests;
    HandedOn(context.View(), buffer.Contents(), chunks);
    handed := [];
    if chunks != [] {
      buffer.Append(chunks[0]);
      var bad, complete, request := context.OnMessage(buffer, time);
      handed := ServeAll(context, buffer, chunks[1..], time);
      if complete {
        handed := [request] + handed;
      }
    }
  }
}
