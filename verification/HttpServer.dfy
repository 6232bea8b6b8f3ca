/** The request loop of net/http/HttpServer.cc: each chunk of input is parsed, answered, and
    the connection's parser is put back into its entry state. */
module HttpServers {

  import opened Common
  import opened RingBuffers
  import opened HttpRequests
  import opened HttpContexts
  import Connections
  import Polling

  /** What one message callback sends on the connection: nothing, a 400 followed by `shutdown`,
      or a response that is followed by `shutdown` when it closes the connection. */
  datatype Reply = Silent | BadRequest | Answer(close: bool)

  predicate Shuts(r: Reply) { r == BadRequest || r == Answer(true) }

  /** The parser's state, and whether the connection is still in `e_connected`: after a `shutdown`
      it goes on reading, but `send` does nothing. */
  datatype Context = Context(status: Status, req: Request, connected: bool)

  const ENTRY := Context(ParseLine, FRESH, true)

  /** An HTTP/1.0 request must ask to keep the connection, any other one to close it. */
  function Closes(q: Request): bool {
    var named := "Connection" in q.headers;
    match q.version
    case Http10 => !(named && q.headers["Connection"] == "Keep-Alive")
    case _ => named && q.headers["Connection"] == "close"
  }

  function ParseChunk(c: Context, chunk: string): Loop
    requires Live(c.status)
  {
    Parse(Loop(c.status, c.req, chunk, true, true))
  }

  /** The reply to what the parser has left behind. */
  function Judged(r: Loop): Reply {
    if !r.ok then BadRequest else if r.status == ParseOver then Answer(Closes(r.req)) else Silent
  }

  /** The reply `msg_cb` tries to send. */
  function Verdict(c: Context, chunk: string): Reply
    requires Live(c.status)
  {
    Judged(ParseChunk(c, chunk))
  }

  /** The context after a chunk, and the reply that is sent. */
  function Served(c: Context, chunk: string): (Context, Reply)
    requires Live(c.status)
  {
    var r, v := ParseChunk(c, chunk), Verdict(c, chunk);
    var connected := c.connected && !Shuts(v);
    (if v.Answer? then Context(ParseLine, FRESH, connected) else Context(r.status, r.req, connected),
     if c.connected then v else Silent)
  }

  /** Where every message callback of a server run starts: the request-line state, no header
      stored. Line fields may be left over from a rejected line. */
  predicate Entry(c: Context) {
    c.status == ParseLine && c.req.headers == map[]
  }

  lemma ServedKeepsEntry(c: Context, chunk: string)
    requires Entry(c)
    ensures Entry(Served(c, chunk).0)
  {
    var l := Loop(c.status, c.req, chunk, true, true);
    ParseExit(l);
    assert Parse(l).status == ParseLine ==> Parse(l) == Pass(l) by {
      if Pass(l).more {
        ParseExit(Pass(l));
      }
    }
  }

  lemma PassIgnoresQuery(q: Request, query: string, text: string)
    ensures var p := Pass(Loop(ParseHeader, q, text, true, true));
            Pass(Loop(ParseHeader, q.(query := query), text, true, true)) == p.(req := p.req.(query := query))
  {
  }

  lemma {:induction false} HeadersIgnoreQuery(q: Request, query: string, text: string)
    ensures var a := Parse(Loop(ParseHeader, q, text, true, true));
            var b := Parse(Loop(ParseHeader, q.(query := query), text, true, true));
            a.ok && b == a.(req := a.req.(query := query))
    decreases |text|
  {
    var l := Loop(ParseHeader, q, text, true, true);
    var p := Pass(l);
    PassProgress(l);
    PassIgnoresQuery(q, query, text);
    ParseUnfolds(l);
    ParseUnfolds(l.(req := q.(query := query)));
    if p.more {
      HeadersIgnoreQuery(p.req, query, p.text);
    }
  }

  /** Lines are accepted from any earlier request alike, but for a query left over. */
  lemma AcceptedAlike(q: Request, line: string)
    requires q.headers == map[]
    ensures LineResult(q, line).0 == LineResult(FRESH, line).0
    ensures LineResult(q, line).0 ==>
              var r := LineResult(FRESH, line).1;
              LineResult(q, line).1 == r.(query := LineResult(q, line).1.query)
  {
    LineAcceptedIff(q, line);
    LineAcceptedIff(FRESH, line);
    if WellFormedLine(line) {
      var m, target, d :| IsRequestLine(line, m, target, d);
      AcceptedLine(q, line, m, target, d);
      AcceptedLine(FRESH, line, m, target, d);
    }
  }

  /** The verdict when the chunk holds a complete first line. */
  lemma FirstLineDecides(c: Context, chunk: string, at: nat)
    requires Entry(c) && CrlfFrom(chunk, 0) == Some(at)
    ensures var (ok, q) := LineResult(c.req, chunk[..at]);
            var r := Parse(Loop(ParseHeader, q, chunk[at + 2..], true, true));
            Verdict(c, chunk) == if ok then Answer(Closes(r.req)) else BadRequest
  {
    var (ok, q) := LineResult(c.req, chunk[..at]);
    var l := Loop(ParseHeader, q, chunk[at + 2..], true, true);
    ParseExit(l);
    HeadersIgnoreQuery(q, q.query, chunk[at + 2..]);
    assert ok ==> Pass(Loop(c.status, c.req, chunk, true, true)) == l;
  }

  /** The verdict on a chunk does not depend on what the connection sent before. */
  lemma VerdictIsLocal(c: Context, chunk: string)
    requires Entry(c)
    ensures Verdict(c, chunk) == Verdict(ENTRY, chunk)
  {
    var crlf := CrlfFrom(chunk, 0);
    if crlf.Some? {
      var line := chunk[..crlf.value];
      FirstLineDecides(c, chunk, crlf.value);
      FirstLineDecides(ENTRY, chunk, crlf.value);
      AcceptedAlike(c.req, line);
      if LineResult(c.req, line).0 {
        HeadersIgnoreQuery(LineResult(FRESH, line).1, LineResult(c.req, line).1.query, chunk[crlf.value + 2..]);
      }
    }
  }

  /** A chunk gets the reply it would get on a new connection, or none once the connection has
      been shut down. */
  lemma ReplyIsLocal(c: Context, chunk: string)
    requires Entry(c)
    ensures Served(c, chunk).1 == if c.connected then Served(ENTRY, chunk).1 else Silent
    ensures Served(c, chunk).0.connected <==> c.connected && !Shuts(Served(ENTRY, chunk).1)
  {
    VerdictIsLocal(c, chunk);
  }

  /** Exactly when a chunk gets no reply, a 400 or an answer: on a connection not shut down it is
      judged by its first line alone, and it is ignored when it holds no complete line. */
  lemma ReplyExact(c: Context, chunk: string)
    requires Entry(c)
    ensures Served(c, chunk).1 == Silent <==> !c.connected || CrlfFrom(chunk, 0).None?
    ensures Served(c, chunk).1.Answer? <==>
            c.connected && CrlfFrom(chunk, 0).Some? && WellFormedLine(chunk[..CrlfFrom(chunk, 0).value])
  {
    var crlf := CrlfFrom(chunk, 0);
    if crlf.Some? {
      LineAcceptedIff(c.req, chunk[..crlf.value]);
      FirstLineDecides(c, chunk, crlf.value);
    }
  }

  /** After an answer the next chunk is parsed as on a new connection, leftovers and all; a refused
      line leaves behind the fields it has set. */
  lemma ContextAfter(c: Context, chunk: string, next: string)
    requires Entry(c)
    ensures Verdict(c, chunk).Answer? ==> ParseChunk(Served(c, chunk).0, next) == ParseChunk(ENTRY, next)
    ensures Verdict(c, chunk) == BadRequest ==>
              Served(c, chunk).0.req == LineResult(c.req, chunk[..CrlfFrom(chunk, 0).value]).1
  {
    if Verdict(c, chunk) == BadRequest {
      VerdictIsLocal(c, chunk);
      RefusedChunk(c, chunk);
    }
  }

  lemma RefusedChunk(c: Context, chunk: string)
    requires Entry(c) && Verdict(c, chunk) == BadRequest
    ensures CrlfFrom(chunk, 0).Some?
    ensures ParseChunk(c, chunk).req == LineResult(c.req, chunk[..CrlfFrom(chunk, 0).value]).1
  {
    var l := Loop(c.status, c.req, chunk, true, true);
    ParseUnfolds(l);
    if Pass(l).more {
      ParseExit(Pass(l));
    }
  }

  /** The replies to a sequence of chunks on one connection. */
  ghost function Replies(c: Context, chunks: seq<string>): (r: seq<Reply>)
    requires Entry(c)
    ensures |r| == |chunks|
    decreases |chunks|
  {
    if chunks == [] then [] else
      ServedKeepsEntry(c, chunks[0]);
      [Served(c, chunks[0]).1] + Replies(Served(c, chunks[0]).0, chunks[1..])
  }

  /** None of the chunks would get a closing reply. */
  predicate Lasting(chunks: seq<string>) {
    forall i :: 0 <= i < |chunks| ==> !Shuts(Served(ENTRY, chunks[i]).1)
  }

  /** Over every run, every callback is entered in a state the parser terminates from; each chunk
      up to and including the first with a closing reply gets the reply it would get alone on a
      new connection, and every later one gets none. */
  lemma {:induction false} ServerRun(c: Context, chunks: seq<string>)
    requires Entry(c)
    ensures forall i :: 0 <= i < |chunks| ==>
              Replies(c, chunks)[i] ==
              if c.connected && Lasting(chunks[..i]) then Served(ENTRY, chunks[i]).1 else Silent
    decreases |chunks|
  {
    if chunks != [] {
      var rest, next := chunks[1..], Served(c, chunks[0]).0;
      ServedKeepsEntry(c, chunks[0]);
      ReplyIsLocal(c, chunks[0]);
      ServerRun(next, rest);
      forall i | 0 < i < |chunks|
        ensures Replies(c, chunks)[i] ==
                if c.connected && Lasting(chunks[..i]) then Served(ENTRY, chunks[i]).1 else Silent
      {
        LastingCons(chunks, i);
        assert chunks[i] == rest[i - 1] && Replies(c, chunks)[i] == Replies(next, rest)[i - 1];
      }
    }
  }

  lemma LastingCons(chunks: seq<string>, i: nat)
    requires 0 < i <= |chunks|
    ensures Lasting(chunks[..i]) <==> !Shuts(Served(ENTRY, chunks[0]).1) && Lasting(chunks[1..][..i - 1])
  {
    var a, b := chunks[..i], chunks[1..][..i - 1];
    assert a[0] == chunks[0] && forall j :: 0 <= j < |b| ==> b[j] == a[j + 1];
    if Lasting(b) && !Shuts(Served(ENTRY, chunks[0]).1) {
      forall j | 0 <= j < |a|
        ensures !Shuts(Served(ENTRY, a[j]).1)
      {
        assert j > 0 ==> a[j] == b[j - 1];
      }
    }
  }

  /** A chunk without a complete line is dropped, not kept for the next one: what follows is
      served as if it had never arrived. */
  lemma PartialLineIsLost(c: Context, part: string)
    requires Entry(c) && CrlfFrom(part, 0).None?
    ensures Served(c, part) == (c, Silent)
  {
  }

  /** So a request survives being split inside its first line only when the second part alone
      begins with a request line. */
  lemma SplitRequest(a: string, b: string, c: nat)
    requires CrlfFrom(a, 0).None? && CrlfFrom(b, 0) == Some(c)
    ensures Replies(ENTRY, [a, b])[1].Answer? <==> WellFormedLine(b[..c])
  {
    ServerRun(ENTRY, [a, b]);
    ReplyExact(ENTRY, b);
  }

  // ----- a request in two chunks -----

  /** The chunk begins with a request line. */
  ghost predicate Accepts(chunk: string) {
    CrlfFrom(chunk, 0).Some? && WellFormedLine(chunk[..CrlfFrom(chunk, 0).value])
  }

  /** A CR at the end of one chunk and its LF at the start of the next. */
  predicate Straddles(a: string, b: string) {
    a != "" && b != "" && a[|a| - 1] == '\r' && b[0] == '\n'
  }

  /** Where the line ends of a text are, given a prefix and the rest. */
  lemma CrlfInParts(s: string, a: string, b: string, i: nat)
    requires a <= s && s[|a|..] == b && i + 1 < |s|
    ensures CrlfAt(s, i) <==>
            if i + 1 < |a| then CrlfAt(a, i) else if i < |a| then Straddles(a, b) else CrlfAt(b, i - |a|)
  {
    if i + 1 < |a| {
      assert s[i] == a[i] && s[i + 1] == a[i + 1];
    } else if i < |a| {
      assert s[i] == a[i] && s[i + 1] == b[0];
    } else {
      assert s[i] == b[i - |a|] && s[i + 1] == b[i - |a| + 1];
    }
  }

  lemma CrlfIs(s: string, c: Option<nat>)
    requires c.Some? ==> CrlfAt(s, c.value)
    requires forall i :: 0 <= i && CrlfAt(s, i) ==> c.Some? && c.value <= i
    ensures CrlfFrom(s, 0) == c
  {
  }

  lemma CrlfAppend(a: string, b: string)
    ensures CrlfFrom(a + b, 0) ==
            if CrlfFrom(a, 0).Some? then CrlfFrom(a, 0)
            else if Straddles(a, b) then Some(|a| - 1)
            else if CrlfFrom(b, 0).Some? then Some(|a| + CrlfFrom(b, 0).value)
            else None
  {
    var s, fa, fb := a + b, CrlfFrom(a, 0), CrlfFrom(b, 0);
    var c := if fa.Some? then fa
             else if Straddles(a, b) then Some(|a| - 1)
             else if fb.Some? then Some(|a| + fb.value)
             else None;
    if c.Some? {
      CrlfInParts(s, a, b, c.value);
    }
    forall i: nat | CrlfAt(s, i)
      ensures c.Some? && c.value <= i
    {
      CrlfInParts(s, a, b, i);
    }
    CrlfIs(s, c);
  }

  /** A header pass looks at the text only as far as its first line end. */
  lemma SameLinePass(q: Request, text: string, whole: string, c: nat, sep: nat)
    requires CrlfFrom(text, 0) == CrlfFrom(whole, 0) == Some(c)
    requires Find(text, 0, c, ':') == Find(whole, 0, c, ':') == sep && whole[..sep] == text[..sep]
    requires sep < c ==> whole[sep + 1..c] == text[sep + 1..c]
    ensures var l := Pass(Loop(ParseHeader, q, text, true, true));
            Pass(Loop(ParseHeader, q, whole, true, true)) == l.(text := whole[c + 2..])
            && l.text == text[c + 2..]
  {
  }

  lemma PrefixPass(q: Request, text: string, whole: string, c: nat)
    requires text <= whole && CrlfFrom(text, 0) == CrlfFrom(whole, 0) == Some(c)
    ensures var l := Pass(Loop(ParseHeader, q, text, true, true));
            Pass(Loop(ParseHeader, q, whole, true, true)) == l.(text := whole[c + 2..])
            && l.text == text[c + 2..]
  {
    SameSeparator(text, whole, c);
    SameLinePass(q, text, whole, c, Find(text, 0, c, ':'));
  }

  lemma RestAppend(text: string, whole: string, k: nat)
    requires text <= whole && k <= |text|
    ensures whole[k..] == text[k..] + whole[|text|..]
  {
  }

  lemma SamePass(q: Request, text: string, whole: string)
    requires text <= whole && CrlfFrom(whole, 0) == CrlfFrom(text, 0)
    ensures var l := Pass(Loop(ParseHeader, q, text, true, true));
            Pass(Loop(ParseHeader, q, whole, true, true)) == l.(text := l.text + whole[|text|..])
  {
    var crlf := CrlfFrom(text, 0);
    RestAppend(text, whole, if crlf.Some? then crlf.value + 2 else 0);
    if crlf.Some? {
      PrefixPass(q, text, whole, crlf.value);
    }
  }

  lemma PassKeepsTail(q: Request, text: string)
    ensures var rest := Pass(Loop(ParseHeader, q, text, true, true)).text;
            |rest| <= |text| && rest == text[|text| - |rest|..]
  {
  }

  /** Bytes without a line end add no header, unless they complete one. */
  lemma {:induction false} SameHeaders(q: Request, text: string, b: string)
    requires CrlfFrom(b, 0).None? && !Straddles(text, b)
    ensures Parse(Loop(ParseHeader, q, text + b, true, true)).req == Parse(Loop(ParseHeader, q, text, true, true)).req
    decreases |text|
  {
    var whole := text + b;
    CrlfAppend(text, b);
    assert whole[|text|..] == b;
    SamePass(q, text, whole);
    var l := Loop(ParseHeader, q, text, true, true);
    var p := Pass(l);
    PassProgress(l);
    PassKeepsTail(q, text);
    ParseUnfolds(l);
    ParseUnfolds(l.(text := whole));
    if p.more {
      assert p == Loop(ParseHeader, p.req, p.text, true, true);
      SameHeaders(p.req, p.text, b);
    }
  }

  lemma SameSeparator(text: string, whole: string, c: nat)
    requires c <= |text| && text <= whole
    ensures var sep := Find(text, 0, c, ':');
            && Find(whole, 0, c, ':') == sep
            && whole[..sep] == text[..sep]
            && (sep < c ==> whole[sep + 1..c] == text[sep + 1..c])
  {
    FindFirst(whole, 0, c, ':', Find(text, 0, c, ':'));
  }

  /** A request line has its two spaces after the method and before the version, and no other. */
  lemma SpacesOf(line: string, m: Method, target: string, d: char, k: nat)
    requires IsRequestLine(line, m, target, d) && k < |line|
    ensures |line| == |MethodText(m)| + |target| + 10
    ensures line[k] == ' ' <==> k == |MethodText(m)| || k == |line| - 9
    ensures k < |MethodText(m)| ==> line[k] == MethodText(m)[k]
  {
    var name, rest := MethodText(m), target + " " + (HTTP1 + [d]);
    assert ' ' !in name && ' ' !in HTTP1 + [d];
    if k < |name| {
      assert line[k] == name[k];
    } else if k > |name| {
      assert line[k] == rest[k - |name| - 1];
      if k - |name| - 1 < |target| {
        assert rest[k - |name| - 1] == target[k - |name| - 1];
      } else if k - |name| - 1 > |target| {
        assert rest[k - |name| - 1] == (HTTP1 + [d])[k - |name| - 2 - |target|];
      }
    }
  }

  /** No method's name ends in another one's: the first byte already differs. */
  lemma NoMethodEndsInAnother(m: Method, n: Method, k: nat)
    requires m != Invalid && n != Invalid
    requires |MethodText(n)| == k + |MethodText(m)| && MethodText(n)[k] == MethodText(m)[0]
    ensures k == 0
  {
  }

  lemma LineSpaces(line: string) returns (m: Method)
    requires WellFormedLine(line)
    ensures m != Invalid && |line| >= |MethodText(m)| + 10 && line[..|MethodText(m)|] == MethodText(m)
    ensures forall k :: 0 <= k < |line| ==> (line[k] == ' ' <==> k == |MethodText(m)| || k == |line| - 9)
  {
    var target, d;
    m, target, d :| IsRequestLine(line, m, target, d);
    forall k | 0 <= k < |line|
      ensures |line| == |MethodText(m)| + |target| + 10
      ensures line[k] == ' ' <==> k == |MethodText(m)| || k == |line| - 9
      ensures k < |MethodText(m)| ==> line[k] == MethodText(m)[k]
    {
      SpacesOf(line, m, target, d, k);
    }
  }

  /** A request line loses its form when bytes are put before it. */
  lemma NoRequestLineInsideAnother(whole: string, k: nat)
    requires k <= |whole| && WellFormedLine(whole) && WellFormedLine(whole[k..])
    ensures k == 0
  {
    var line := whole[k..];
    var m := LineSpaces(line);
    var n := LineSpaces(whole);
    var i := |MethodText(m)|;
    assert whole[k + i] == line[i] && whole[|whole| - 9] == line[|line| - 9];
    assert k + i == |MethodText(n)|;
    assert whole[..k + i][k] == whole[k] == line[0] == line[..i][0];
    NoMethodEndsInAnother(m, n, k);
  }

  lemma FirstByteAccepted(chunk: string)
    requires Accepts(chunk)
    ensures chunk != "" && chunk[0] != '\n'
  {
    var line := chunk[..CrlfFrom(chunk, 0).value];
    var m := LineSpaces(line);
    assert chunk[0] == line[0] == line[..|MethodText(m)|][0];
  }

  lemma FirstLineAppend(a: string, b: string, c: nat)
    requires CrlfFrom(a, 0).None? && !Straddles(a, b) && CrlfFrom(b, 0) == Some(c)
    ensures CrlfFrom(a + b, 0) == Some(|a| + c)
    ensures (a + b)[..|a| + c][|a|..] == b[..c]
  {
    CrlfAppend(a, b);
  }

  /** A request cut inside its first line is never answered both ways. */
  lemma CutLineNotAccepted(a: string, b: string)
    requires CrlfFrom(a, 0).None? && a != "" && Accepts(b)
    ensures !Accepts(a + b)
  {
    FirstByteAccepted(b);
    var c := CrlfFrom(b, 0).value;
    FirstLineAppend(a, b, c);
    if Accepts(a + b) {
      NoRequestLineInsideAnother((a + b)[..|a| + c], |a|);
    }
  }

  /** The replies that are sent. */
  function Audible(rs: seq<Reply>): seq<Reply> {
    if rs == [] then [] else (if rs[0] == Silent then [] else [rs[0]]) + Audible(rs[1..])
  }

  lemma TwoReplies(a: string, b: string)
    ensures var x, y := Served(ENTRY, a).1, Served(ENTRY, b).1;
            && Replies(ENTRY, [a, b]) == [x, if Shuts(x) then Silent else y]
            && Audible(Replies(ENTRY, [a, b])) == Audible([x]) + if Shuts(x) then [] else Audible([y])
    ensures Replies(ENTRY, [a + b]) == [Served(ENTRY, a + b).1]
  {
    ServerRun(ENTRY, [a, b]);
    ServerRun(ENTRY, [a + b]);
    assert [a, b][..1] == [a] && [a, b][..0] == [] && [a + b][..0] == [];
    assert Lasting([a]) <==> !Shuts(Served(ENTRY, [a][0]).1);
    AudiblePair(Replies(ENTRY, [a, b])[0], Replies(ENTRY, [a, b])[1]);
  }

  lemma AudiblePair(x: Reply, y: Reply)
    ensures Audible([x]) == if x == Silent then [] else [x]
    ensures Audible([x, y]) == Audible([x]) + Audible([y])
  {
    assert [x, y][1..] == [y] && [x][1..] == [] && [y][1..] == [];
  }

  // ----- how an answer closes, read off the text -----

  function ConnectionIn(h: map<string, string>): string {
    if "Connection" in h then h["Connection"] else ""
  }

  /** The value of the header line `fields[..c]` if it is a `Connection` line, else `v`. */
  function ConnectionAt(fields: string, c: nat, v: string): string
    requires c <= |fields|
  {
    var sep := Find(fields, 0, c, ':');
    if sep < c && fields[..sep] == "Connection" then TrimLeft(fields[sep + 1..c]) else v
  }

  /** The end of the first line of a header text, if the line is complete and has a colon. */
  function FieldEnd(fields: string): (r: Option<nat>)
    ensures r.Some? ==> r.value + 2 <= |fields|
  {
    match CrlfFrom(fields, 0)
    case None => None
    case Some(c) => if Find(fields, 0, c, ':') < c then Some(c) else None
  }

  /** The value of the last complete `Connection` line of a header text, up to its first line
      without a colon; `v` if there is none. */
  function LastConnection(fields: string, v: string): string
    decreases |fields|
  {
    match FieldEnd(fields)
    case None => v
    case Some(c) => LastConnection(fields[c + 2..], ConnectionAt(fields, c, v))
  }

  /** A line of HTTP/1.0 needs `Keep-Alive` to stay open, one of HTTP/1.1 `close` to be closed. */
  predicate ClosesWith(line: string, value: string) {
    if line != "" && line[|line| - 1] == '0' then value != "Keep-Alive" else value == "close"
  }

  predicate AnswerCloses(chunk: string)
    requires CrlfFrom(chunk, 0).Some?
  {
    var c := CrlfFrom(chunk, 0).value;
    ClosesWith(chunk[..c], LastConnection(chunk[c + 2..], ""))
  }

  lemma StoredConnection(h: map<string, string>, name: string, value: string)
    ensures ConnectionIn(h[name := value]) == if name == "Connection" then value else ConnectionIn(h)
  {
  }

  lemma StepConnection(fields: string, c: nat, v: string)
    requires FieldEnd(fields) == Some(c)
    ensures LastConnection(fields, v) == LastConnection(fields[c + 2..], ConnectionAt(fields, c, v))
  {
  }

  lemma FieldPasses(q: Request, fields: string, c: nat)
    requires FieldEnd(fields) == Some(c)
    ensures var p := Pass(Loop(ParseHeader, q, fields, true, true));
            && p == Loop(ParseHeader, p.req, fields[c + 2..], true, true) && p.req.version == q.version
            && ConnectionIn(p.req.headers) == ConnectionAt(fields, c, ConnectionIn(q.headers))
  {
    var sep := Find(fields, 0, c, ':');
    StoredConnection(q.headers, fields[..sep], TrimLeft(fields[sep + 1..c]));
  }

  lemma NoFieldStops(q: Request, fields: string)
    requires FieldEnd(fields).None?
    ensures var p := Pass(Loop(ParseHeader, q, fields, true, true));
            !p.more && p.req == q
  {
  }

  lemma {:induction false} ParsedConnection(q: Request, fields: string)
    ensures var r := Parse(Loop(ParseHeader, q, fields, true, true)).req;
            r.version == q.version && ConnectionIn(r.headers) == LastConnection(fields, ConnectionIn(q.headers))
    decreases |fields|
  {
    var l := Loop(ParseHeader, q, fields, true, true);
    var p := Pass(l);
    ParseUnfolds(l);
    match FieldEnd(fields)
    case None => NoFieldStops(q, fields);
    case Some(c) =>
      FieldPasses(q, fields, c);
      StepConnection(fields, c, ConnectionIn(q.headers));
      ParsedConnection(p.req, p.text);
  }

  lemma LastByteOf(line: string, m: Method, target: string, d: char)
    requires IsRequestLine(line, m, target, d)
    ensures line != "" && line[|line| - 1] == d
  {
    var tail := HTTP1 + [d];
    var rest := target + " " + tail;
    assert rest[|rest| - 1] == tail[|tail| - 1] == d;
    assert line[|line| - 1] == rest[|rest| - 1];
  }

  lemma LineVersion(line: string) returns (q: Request)
    requires WellFormedLine(line)
    ensures LineResult(FRESH, line) == (true, q)
    ensures q.headers == map[] && q.version == if line != "" && line[|line| - 1] == '0' then Http10 else Http11
  {
    var m, target, d :| IsRequestLine(line, m, target, d);
    AcceptedLine(FRESH, line, m, target, d);
    LastByteOf(line, m, target, d);
    q := LineResult(FRESH, line).1;
  }

  lemma ClosesRule(q: Request, line: string)
    requires q.version == if line != "" && line[|line| - 1] == '0' then Http10 else Http11
    ensures Closes(q) <==> ClosesWith(line, ConnectionIn(q.headers))
  {
  }

  lemma HeadersClose(q: Request, line: string, fields: string)
    requires q.version == (if line != "" && line[|line| - 1] == '0' then Http10 else Http11) && q.headers == map[]
    ensures Closes(Parse(Loop(ParseHeader, q, fields, true, true)).req) == ClosesWith(line, LastConnection(fields, ""))
  {
    ParsedConnection(q, fields);
    ClosesRule(Parse(Loop(ParseHeader, q, fields, true, true)).req, line);
  }

  lemma AcceptedVerdict(chunk: string, c: nat, q: Request)
    requires CrlfFrom(chunk, 0) == Some(c) && LineResult(FRESH, chunk[..c]) == (true, q)
    ensures Verdict(ENTRY, chunk) == Answer(Closes(Parse(Loop(ParseHeader, q, chunk[c + 2..], true, true)).req))
  {
    FirstLineDecides(ENTRY, chunk, c);
  }

  lemma AcceptedForm(chunk: string, c: nat, line: string, q: Request)
    requires CrlfFrom(chunk, 0) == Some(c) && line == chunk[..c] && LineResult(FRESH, line) == (true, q)
    requires q.headers == map[] && q.version == if line != "" && line[|line| - 1] == '0' then Http10 else Http11
    ensures Verdict(ENTRY, chunk) == Answer(AnswerCloses(chunk))
  {
    AcceptedVerdict(chunk, c, q);
    HeadersClose(q, line, chunk[c + 2..]);
  }

  /** The reply to one chunk, by its text alone. */
  lemma ReplyForm(chunk: string)
    ensures Served(ENTRY, chunk).1 ==
            if CrlfFrom(chunk, 0).None? then Silent
            else if Accepts(chunk) then Answer(AnswerCloses(chunk))
            else BadRequest
  {
    ReplyExact(ENTRY, chunk);
    if Accepts(chunk) {
      var c := CrlfFrom(chunk, 0).value;
      var q := LineVersion(chunk[..c]);
      AcceptedForm(chunk, c, chunk[..c], q);
    }
  }

  /** A request cut inside its headers is answered on the headers of the first part. If that
      closes the connection nothing more is sent; else the second part is taken for a new request,
      and refused when it holds a line but does not begin with a request line. */
  lemma SplitInHeaders(a: string, b: string)
    requires Accepts(a)
    ensures var rs := Replies(ENTRY, [a, b]);
            && rs[0] == Answer(AnswerCloses(a))
            && (rs[1] == BadRequest <==> !AnswerCloses(a) && CrlfFrom(b, 0).Some? && !Accepts(b))
            && (rs[1] == Silent <==> AnswerCloses(a) || CrlfFrom(b, 0).None?)
  {
    TwoReplies(a, b);
    ReplyForm(a);
    ReplyForm(b);
  }

  lemma PartsAppend(a: string, b: string, c: nat)
    requires c + 2 <= |a|
    ensures (a + b)[..c] == a[..c] && (a + b)[c + 2..] == a[c + 2..] + b
  {
    RestAppend(a, a + b, c + 2);
  }

  lemma ConnectionUnchanged(fields: string, b: string)
    requires CrlfFrom(b, 0).None? && !Straddles(fields, b)
    ensures LastConnection(fields + b, "") == LastConnection(fields, "")
  {
    SameHeaders(FRESH, fields, b);
    ParsedConnection(FRESH, fields);
    ParsedConnection(FRESH, fields + b);
  }

  lemma TailStraddles(a: string, b: string, k: nat)
    requires k <= |a| && !Straddles(a, b)
    ensures !Straddles(a[k..], b)
  {
  }

  /** The line of a header text that is not complete yet, unless a line without a colon came
      before it. */
  function Pending(fields: string): Option<string>
    decreases |fields|
  {
    match FieldEnd(fields)
    case None => if CrlfFrom(fields, 0).None? then Some(fields) else None
    case Some(c) => Pending(fields[c + 2..])
  }

  function CompletedBy(pending: Option<string>, v: string): string {
    if pending.None? || pending.value == "" then v else ConnectionAt(pending.value, |pending.value| - 1, v)
  }

  /** The value that an LF gives the `Connection` field by completing the pending line, `v` if it
      does not complete such a line. */
  function CompletedConnection(fields: string, v: string): string {
    CompletedBy(Pending(fields), v)
  }

  lemma CrlfShift(b: string, i: nat)
    requires b != ""
    ensures CrlfAt(b[1..], i) <==> CrlfAt(b, i + 1)
  {
  }

  lemma TailNoCrlf(b: string)
    requires b != "" && CrlfFrom(b, 0).None?
    ensures CrlfFrom(b[1..], 0).None?
  {
    forall i: nat
      ensures !CrlfAt(b[1..], i)
    {
      CrlfShift(b, i);
    }
  }

  /** One line of a header text, seen as a prefix of a longer one. */
  lemma SameConnectionAt(fields: string, whole: string, c: nat, v: string)
    requires c <= |fields| && fields <= whole
    ensures Find(whole, 0, c, ':') == Find(fields, 0, c, ':') && ConnectionAt(whole, c, v) == ConnectionAt(fields, c, v)
  {
    SameSeparator(fields, whole, c);
  }

  lemma CompletedHere(fields: string, b: string, v: string)
    requires CrlfFrom(b, 0).None? && Straddles(fields, b) && CrlfFrom(fields, 0).None?
    ensures LastConnection(fields + b, v) == ConnectionAt(fields, |fields| - 1, v)
            == CompletedConnection(fields, LastConnection(fields, v))
  {
    var whole, end := fields + b, |fields| - 1;
    CrlfAppend(fields, b);
    SameConnectionAt(fields, whole, end, v);
    assert whole[end + 2..] == b[1..];
    TailNoCrlf(b);
  }

  lemma PendingAfter(fields: string, c: nat, b: string)
    requires CrlfFrom(fields, 0) == Some(c) && Straddles(fields, b)
    ensures Straddles(fields[c + 2..], b)
  {
    assert fields[c + 1] == '\n' && fields[|fields| - 1] == '\r';
  }

  lemma StepPending(fields: string, c: nat)
    requires FieldEnd(fields) == Some(c)
    ensures Pending(fields) == Pending(fields[c + 2..])
  {
  }

  /** A complete header line counts alike with and without the bytes that follow. */
  lemma ConnectionRest(fields: string, b: string, c: nat, v: string)
    requires CrlfFrom(fields, 0) == Some(c) && Find(fields, 0, c, ':') != c
    ensures var rest, v1 := fields[c + 2..], ConnectionAt(fields, c, v);
            && LastConnection(fields + b, v) == LastConnection(rest + b, v1)
            && CompletedConnection(fields, LastConnection(fields, v)) ==
               CompletedConnection(rest, LastConnection(rest, v1))
  {
    CrlfAppend(fields, b);
    SameConnectionAt(fields, fields + b, c, v);
    PartsAppend(fields, b, c);
    StepConnection(fields, c, v);
    StepConnection(fields + b, c, v);
    StepPending(fields, c);
  }

  lemma NoColonEnds(fields: string, b: string, c: nat, v: string)
    requires CrlfFrom(fields, 0) == Some(c) && Find(fields, 0, c, ':') == c
    ensures LastConnection(fields + b, v) == CompletedConnection(fields, LastConnection(fields, v))
  {
    CrlfAppend(fields, b);
    SameConnectionAt(fields, fields + b, c, v);
  }

  lemma {:induction false} ConnectionCompleted(fields: string, b: string, v: string)
    requires CrlfFrom(b, 0).None? && Straddles(fields, b)
    ensures LastConnection(fields + b, v) == CompletedConnection(fields, LastConnection(fields, v))
    decreases |fields|
  {
    if CrlfFrom(fields, 0).None? {
      CompletedHere(fields, b, v);
    } else {
      var c := CrlfFrom(fields, 0).value;
      if Find(fields, 0, c, ':') == c {
        NoColonEnds(fields, b, c, v);
      } else {
        var rest, v1 := fields[c + 2..], ConnectionAt(fields, c, v);
        PendingAfter(fields, c, b);
        ConnectionRest(fields, b, c, v);
        ConnectionCompleted(rest, b, v1);
      }
    }
  }

  lemma ClosesAppend(a: string, b: string, c: nat)
    requires CrlfFrom(a, 0) == Some(c)
    ensures CrlfFrom(a + b, 0) == Some(c)
    ensures AnswerCloses(a + b) == ClosesWith(a[..c], LastConnection(a[c + 2..] + b, ""))
    ensures Accepts(a + b) <==> Accepts(a)
  {
    CrlfAppend(a, b);
    PartsAppend(a, b, c);
  }

  lemma LateTail(tail: string, b: string)
    requires CrlfFrom(b, 0).None?
    ensures var before := LastConnection(tail, "");
            LastConnection(tail + b, "") == if Straddles(tail, b) then CompletedConnection(tail, before) else before
  {
    if Straddles(tail, b) {
      ConnectionCompleted(tail, b, "");
    } else {
      ConnectionUnchanged(tail, b);
    }
  }

  /** Late bytes without a line end change how an answer closes exactly if they begin with the LF
      that completes a `Connection` line whose value closes differently from the one in force. */
  lemma LateBytesIff(a: string, b: string, c: nat)
    requires CrlfFrom(a, 0) == Some(c) && CrlfFrom(b, 0).None?
    ensures CrlfFrom(a + b, 0) == Some(c)
    ensures var line, tail := a[..c], a[c + 2..];
            var before := LastConnection(tail, "");
            AnswerCloses(a + b) != AnswerCloses(a) <==>
            Straddles(a, b) && ClosesWith(line, CompletedConnection(tail, before)) != ClosesWith(line, before)
  {
    ClosesAppend(a, b, c);
    LateTail(a[c + 2..], b);
    if Straddles(a, b) {
      PendingAfter(a, c, b);
    } else {
      TailStraddles(a, b, c + 2);
    }
  }

  /** One reply after another, or one alone: when the same is heard. */
  lemma SameHeard(x: Reply, y: Reply, z: Reply)
    ensures Audible([x]) + (if Shuts(x) then [] else Audible([y])) == Audible([z])
            <==> if x == Silent then y == z else x == z && (Shuts(x) || y == Silent)
  {
    AudiblePair(x, y);
    AudiblePair(y, z);
    AudiblePair(z, x);
  }

  /** Exactly when a text sent in two chunks gets the replies it would get in one. A cut in the
      first line is harmless only if neither way accepts a line. A refused first line closes the
      connection, so it does not matter where the rest is cut. After an accepted one both texts must
      close alike, and if they do not close, the second part must hold no line end. */
  lemma SplitHarmlessIff(a: string, b: string)
    ensures Audible(Replies(ENTRY, [a, b])) == Audible(Replies(ENTRY, [a + b]))
            <==>
            if a == "" then true
            else if CrlfFrom(a, 0).None? then
              !Accepts(b) && !Accepts(a + b) && (CrlfFrom(b, 0).None? <==> CrlfFrom(a + b, 0).None?)
            else if !Accepts(a) then true
            else
              && CrlfFrom(a + b, 0).Some? && AnswerCloses(a) == AnswerCloses(a + b)
              && (AnswerCloses(a) || CrlfFrom(b, 0).None?)
  {
    TwoReplies(a, b);
    SameHeard(Served(ENTRY, a).1, Served(ENTRY, b).1, Served(ENTRY, a + b).1);
    ReplyForm(a);
    ReplyForm(b);
    ReplyForm(a + b);
    if a == "" {
      assert a + b == b;
    } else if CrlfFrom(a, 0).None? {
      if Accepts(b) {
        CutLineNotAccepted(a, b);
      }
    } else {
      ClosesAppend(a, b, CrlfFrom(a, 0).value);
    }
  }

  // ----- the replies on the connection -----

  /** What is sent for each reply. */
  datatype Texts = Texts(bad: string, keep: string, close: string)

  function TextOf(t: Texts, r: Reply): string {
    match r
    case Silent => ""
    case BadRequest => t.bad
    case Answer(close) => if close then t.close else t.keep
  }

  /** The calls that `msg_cb` makes on the connection for a verdict. */
  function ReplyOps(t: Texts, r: Reply, budget: Option<nat>): seq<Connections.Op> {
    (if r == Silent then [] else [Connections.Send(TextOf(t, r), budget)])
    + (if Shuts(r) then [Connections.Shutdown] else [])
  }

  lemma DoOne<C>(s: Connections.Conn<C>, a: Connections.Op)
    ensures Connections.DoAll(s, [a]) == Connections.Do(s, a)
  {
    assert [a][1..] == [];
  }

  lemma DoTwo<C>(s: Connections.Conn<C>, a: Connections.Op, b: Connections.Op)
    ensures Connections.DoAll(s, [a, b]) == Connections.Do(Connections.Do(s, a), b)
  {
    assert [a, b][1..] == [b];
    DoOne(Connections.Do(s, a), b);
  }

  lemma ReplyUnfolds<C>(s: Connections.Conn<C>, t: Texts, r: Reply, budget: Option<nat>)
    ensures Connections.DoAll(s, ReplyOps(t, r, budget)) ==
            var s1 := if r == Silent then s else Connections.Sent(s, TextOf(t, r), budget);
            if Shuts(r) then Connections.ShutDown(s1) else s1
  {
    var send := Connections.Send(TextOf(t, r), budget);
    if Shuts(r) {
      assert ReplyOps(t, r, budget) == [send, Connections.Shutdown];
      DoTwo(s, send, Connections.Shutdown);
    } else if r != Silent {
      assert ReplyOps(t, r, budget) == [send];
      DoOne(s, send);
    }
  }

  /** `connected` is the status of the connection: a reply goes out exactly while it is connected,
      and it stays so exactly if the reply does not shut it down. */
  lemma ReplyReaches<C>(s: Connections.Conn<C>, t: Texts, r: Reply, budget: Option<nat>)
    requires Connections.Good(s)
    ensures var n := Connections.DoAll(s, ReplyOps(t, r, budget));
            && Connections.Good(n)
            && (s.status != Connections.Connected ==> n == s)
            && (s.status == Connections.Connected ==> n.Open())
            && (n.status == Connections.Connected <==> s.status == Connections.Connected && !Shuts(r))
            && (s.status == Connections.Connected && budget.Some? ==> n.accepted == s.accepted + TextOf(t, r))
            && n.inp == s.inp
  {
    ReplyUnfolds(s, t, r, budget);
    if r != Silent {
      SentReply(s, TextOf(t, r), budget);
      if Shuts(r) {
        Connections.ShutdownKeeps(Connections.Sent(s, TextOf(t, r), budget));
      }
    }
  }

  lemma SentReply<C>(s: Connections.Conn<C>, msg: string, budget: Option<nat>)
    requires Connections.Good(s)
    ensures var n := Connections.Sent(s, msg, budget);
            && Connections.Good(n) && n.status == s.status && n.inp == s.inp
            && (s.status == Connections.Connected && budget.Some? ==> n.accepted == s.accepted + msg)
  {
    Connections.SendKeeps(s, msg, budget);
    if msg != "" {
      Connections.MessageTakenIff(s, msg, budget);
    }
  }

  /** The arrival of a chunk: it is read, the parser empties the buffer, and the reply is sent. */
  function Arrival(t: Texts, r: Reply, chunk: string, budget: Option<nat>): Connections.Event {
    Connections.Dispatch({Polling.In}, Some(chunk), [Connections.Consume(|chunk|)] + ReplyOps(t, r, budget), None)
  }

  predicate Ready<C(==)>(s: Connections.Conn<C>) {
    Connections.Good(s) && s.Open() && s.inp == ""
  }

  lemma ArrivalUnfolds<C>(s: Connections.Conn<C>, t: Texts, r: Reply, chunk: string, budget: Option<nat>)
    requires Ready(s) && chunk != ""
    ensures Connections.Legal(s, Arrival(t, r, chunk, budget))
    ensures Connections.Next(s, Arrival(t, r, chunk, budget)) ==
            Connections.DoAll(
              s.(received := s.received + chunk, consumed := s.consumed + chunk), ReplyOps(t, r, budget))
  {
    var ops := [Connections.Consume(|chunk|)] + ReplyOps(t, r, budget);
    Connections.DispatchUnfolds(s, {Polling.In}, Some(chunk), ops, None);
    assert Polling.In in {Polling.In} * {Polling.In, Polling.Pri, Polling.Hup};
    var s1 := Connections.ReadHandled(s, Some(chunk));
    assert s1.inp == chunk && chunk[..|chunk|] == chunk && chunk[|chunk|..] == "";
    assert ops[1..] == ReplyOps(t, r, budget);
    assert Connections.Consumed(s1, |chunk|) == s.(received := s.received + chunk, consumed := s.consumed + chunk);
  }

  lemma ArrivalKeeps<C>(s: Connections.Conn<C>, t: Texts, r: Reply, chunk: string, budget: nat)
    requires Ready(s) && chunk != ""
    ensures var n := Connections.Next(s, Arrival(t, r, chunk, Some(budget)));
            && Ready(n)
            && (n.status == Connections.Connected <==> s.status == Connections.Connected && !Shuts(r))
            && n.accepted == s.accepted + if s.status == Connections.Connected then TextOf(t, r) else ""
  {
    ArrivalUnfolds(s, t, r, chunk, Some(budget));
    ReadKeepsReady(s, chunk);
    ReplyReaches(s.(received := s.received + chunk, consumed := s.consumed + chunk), t, r, Some(budget));
  }

  lemma ReadKeepsReady<C>(s: Connections.Conn<C>, chunk: string)
    requires Ready(s)
    ensures Ready(s.(received := s.received + chunk, consumed := s.consumed + chunk))
  {
    assert s.consumed + "" == s.received && s.consumed + chunk + "" == s.received + chunk;
  }

  /** What one chunk makes a connected connection accept for sending, by the chunk's text: nothing
      without a complete line, the 400 for a first line that is no request line, and otherwise the
      closing or the other answer; and whether the connection is then shut down. */
  lemma TextForChunk<C>(s: Connections.Conn<C>, c: Context, chunk: string, t: Texts, budget: nat)
    requires Ready(s) && Entry(c) && s.status == Connections.Connected && chunk != ""
    ensures var n := Connections.Next(s, Arrival(t, Verdict(c, chunk), chunk, Some(budget)));
            var crlf := CrlfFrom(chunk, 0);
            if crlf.None? then n.accepted == s.accepted && n.status == Connections.Connected
            else if !WellFormedLine(chunk[..crlf.value]) then
              n.accepted == s.accepted + t.bad && n.status == Connections.Disconnecting
            else if AnswerCloses(chunk) then
              n.accepted == s.accepted + t.close && n.status == Connections.Disconnecting
            else n.accepted == s.accepted + t.keep && n.status == Connections.Connected
  {
    VerdictIsLocal(c, chunk);
    ReplyForm(chunk);
    ArrivalKeeps(s, t, Verdict(c, chunk), chunk, budget);
  }

  /** The arrivals of a run of chunks, with what `msg_cb` tries to send for each. */
  ghost function Arrivals(c: Context, chunks: seq<string>, t: Texts, budgets: seq<nat>): seq<Connections.Event>
    requires Entry(c) && |budgets| == |chunks|
    decreases |chunks|
  {
    if chunks == [] then [] else
      ServedKeepsEntry(c, chunks[0]);
      [Arrival(t, Verdict(c, chunks[0]), chunks[0], Some(budgets[0]))]
      + Arrivals(Served(c, chunks[0]).0, chunks[1..], t, budgets[1..])
  }

  function AllTexts(t: Texts, rs: seq<Reply>): string {
    if rs == [] then "" else TextOf(t, rs[0]) + AllTexts(t, rs[1..])
  }

  /** On a connection whose direct writes do not fail, whatever part of them is taken at once, a
      run of chunks is a legal run of the connection, and what the connection accepts for sending
      is exactly the replies, in order. */
  lemma {:induction false} RepliesReachTheConnection<C>(
    s: Connections.Conn<C>, c: Context, chunks: seq<string>, t: Texts, budgets: seq<nat>)
    requires Ready(s) && Entry(c) && (s.status == Connections.Connected <==> c.connected)
    requires |budgets| == |chunks| && "" !in chunks
    ensures var es := Arrivals(c, chunks, t, budgets);
            && Connections.LegalRun(s, es)
            && Connections.Run(s, es).accepted == s.accepted + AllTexts(t, Replies(c, chunks))
    decreases |chunks|
  {
    if chunks != [] {
      var v, c1 := Verdict(c, chunks[0]), Served(c, chunks[0]).0;
      var e := Arrival(t, v, chunks[0], Some(budgets[0]));
      ServedKeepsEntry(c, chunks[0]);
      ArrivalUnfolds(s, t, v, chunks[0], Some(budgets[0]));
      ArrivalKeeps(s, t, v, chunks[0], budgets[0]);
      RepliesReachTheConnection(Connections.Next(s, e), c1, chunks[1..], t, budgets[1..]);
      var rest, rs := Arrivals(c1, chunks[1..], t, budgets[1..]), Replies(c1, chunks[1..]);
      var said := Served(c, chunks[0]).1;
      RunArrival(s, e, rest, TextOf(t, said), AllTexts(t, rs));
      AllTextsCons(t, said, rs);
    }
  }

  lemma AllTextsCons(t: Texts, r: Reply, rs: seq<Reply>)
    ensures AllTexts(t, [r] + rs) == TextOf(t, r) + AllTexts(t, rs)
  {
    assert ([r] + rs)[1..] == rs;
  }

  lemma RunArrival<C>(s: Connections.Conn<C>, e: Connections.Event, rest: seq<Connections.Event>, x: string, y: string)
    requires Connections.Legal(s, e) && Connections.LegalRun(Connections.Next(s, e), rest)
    requires Connections.Next(s, e).accepted == s.accepted + x
    requires Connections.Run(Connections.Next(s, e), rest).accepted == Connections.Next(s, e).accepted + y
    ensures Connections.LegalRun(s, [e] + rest)
    ensures Connections.Run(s, [e] + rest).accepted == s.accepted + (x + y)
  {
    assert ([e] + rest)[0] == e && ([e] + rest)[1..] == rest;
    assert s.accepted + x + y == s.accepted + (x + y);
  }

  lemma AllConsumed<C>(s: Connections.Conn<C>)
    ensures Connections.Consumed(s, |s.inp|) == s.(consumed := s.consumed + s.inp, inp := "")
  {
  }

  class HttpServer {
    const texts: Texts

    constructor (texts: Texts)
      ensures this.texts == texts
    {
      this.texts := texts;
    }

    /** `conn_cb` for a new connection gives it a zero-initialised parser. */
    method ConnCb() returns (context: HttpContext)
      ensures fresh(context) && fresh(context.request)
      ensures Context(context.status, context.request.View(), true) == ENTRY
    {
      context := new HttpContext();
    }

    /** `send` and, if the connection is to be closed, `shutdown`. */
    method Say(conn: Connections.TcpConnection, reply: Reply, budget: Option<nat>)
      requires conn.Valid() && Connections.Good(conn.View())
      modifies conn, conn.socket, conn.channel, conn.poller, conn.output, conn.output.buffer
      ensures conn.Valid()
      ensures conn.View() == Connections.DoAll(old(conn.View()), ReplyOps(texts, reply, budget))
    {
      ghost var s := conn.View();
      ReplyUnfolds(s, texts, reply, budget);
      if reply != Silent {
        Connections.SendKeeps(s, TextOf(texts, reply), budget);
        conn.Send(TextOf(texts, reply), budget);
        if Shuts(reply) {
          conn.Shutdown();
        }
      }
    }

    method RequestCb(conn: Connections.TcpConnection, request: HttpRequest, budget: Option<nat>)
      requires conn.Valid() && Connections.Good(conn.View())
      modifies conn, conn.socket, conn.channel, conn.poller, conn.output, conn.output.buffer
      ensures conn.Valid() && request.View() == old(request.View())
      ensures conn.View() ==
              Connections.DoAll(old(conn.View()), ReplyOps(texts, Answer(Closes(request.View())), budget))
    {
      var connection := request.Lookup("Connection");
      var close := connection == "close" || (request.version == Http10 && connection != "Keep-Alive");
      Say(conn, Answer(close), budget);
    }

    /** The parser empties the connection's input buffer. */
    method ParseInput(conn: Connections.TcpConnection, context: HttpContext) returns (ok: bool)
      requires Live(context.status) && conn.Valid()
      modifies conn`consumed, conn.input, context, context.request
      ensures conn.Valid()
      ensures conn.View() == Connections.Consumed(old(conn.View()), |old(conn.View()).inp|)
      ensures var r := ParseChunk(
                         Context(old(context.status), old(context.request.View()), true), old(conn.View()).inp);
              ok == r.ok && context.status == r.status && context.request.View() == r.req
    {
      ghost var s := conn.View();
      var text := conn.input.Readable();
      ok := context.ParseReq(conn.input);
      conn.consumed := conn.consumed + text;
      AllConsumed(s);
    }

    /** `msg_cb`: the input is consumed, the reply to it is sent if the connection still sends,
        and the parser is ready for the next chunk. */
    method MsgCb(conn: Connections.TcpConnection, context: HttpContext, budget: Option<nat>)
      requires Live(context.status) && conn.Valid() && Connections.Good(conn.View())
      modifies conn, conn.socket, conn.channel, conn.poller, conn.output, conn.output.buffer, conn.input
      modifies context, context.request
      ensures conn.Valid()
      ensures var s := old(conn.View());
              var c := Context(old(context.status), old(context.request.View()), s.status == Connections.Connected);
              var (n, _) := Served(c, s.inp);
              && context.status == n.status && context.request.View() == n.req
              && conn.View() == Connections.DoAll(
                                Connections.Consumed(s, |s.inp|), ReplyOps(texts, Verdict(c, s.inp), budget))
    {
      ghost var r := ParseChunk(Context(context.status, context.request.View(), true), conn.View().inp);
      Connections.ConsumeKeeps(conn.View(), |conn.View().inp|);
      var ok := ParseInput(conn, context);
      Respond(conn, context, ok, budget, r);
    }

    /** The three ways `msg_cb` goes on after parsing. */
    method Respond(conn: Connections.TcpConnection, context: HttpContext, ok: bool, budget: Option<nat>, ghost r: Loop)
      requires ok == r.ok && context.status == r.status && context.request.View() == r.req
      requires conn.Valid() && Connections.Good(conn.View())
      modifies conn, conn.socket, conn.channel, conn.poller, conn.output, conn.output.buffer
      modifies context, context.request
      ensures conn.Valid()
      ensures conn.View() == Connections.DoAll(old(conn.View()), ReplyOps(texts, Judged(r), budget))
      ensures (context.status, context.request.View()) ==
              if Judged(r).Answer? then (ParseLine, FRESH) else (r.status, r.req)
    {
      if !ok {
        Say(conn, BadRequest, budget);
      } else if context.IsParseFinish() {
        RequestCb(conn, context.request, budget);
        context.Reset();
      } else {
        Say(conn, Silent, budget);
      }
    }
  }
}
