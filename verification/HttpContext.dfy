/** The request parser of net/http/HttpContext.cc: a loop driven by the parse state that
    consumes the input buffer. `Pass` is one iteration of the loop seen on values. */
module HttpContexts {

  import opened Common
  import opened RingBuffers
  import opened HttpRequests

  datatype Status = ParseLine | ParseHeader | ParseBody | ParseOver

  const CRLF := "\r\n"
  const HTTP1 := "HTTP/1."

  /** The target is split at its first `?`, which stays with the query. */
  function WithTarget(q: Request, target: string): Request {
    var cut := Find(target, 0, |target|, '?');
    if cut != |target| then q.(path := target[..cut], query := target[cut..])
    else q.(path := target)
  }

  /** The version is judged by the last character of the line, which is the second space
      itself when nothing follows it. */
  function WithVersion(q: Request, tail: string): (bool, Request) {
    var ok := |tail| == 8 && tail[..7] == HTTP1;
    var last := if tail == "" then ' ' else tail[|tail| - 1];
    if last == '1' then (ok, q.(version := Http11))
    else if last == '0' then (ok, q.(version := Http10))
    else (false, q)
  }

  function AfterMethod(q: Request, line: string, start: nat): (bool, Request)
    requires start <= |line|
  {
    var space := Find(line, start, |line|, ' ');
    if space == |line| then (false, q)
    else WithVersion(WithTarget(q, line[start..space]), line[space + 1..])
  }

  /** `parse_line` on the request being filled: success, and the fields set on the way there,
      which stay set when a later part of the line is rejected. */
  function LineResult(q: Request, line: string): (bool, Request) {
    var sp1 := Find(line, 0, |line|, ' ');
    if sp1 == |line| then (false, q)
    else
      var q1 := q.(method_ := MethodOf(line[..sp1]));
      if q1.method_ == Invalid then (false, q1)
      else
        AfterMethod(q1, line, sp1 + 1)
  }

  /** State of the parsing loop: the parse state, the request, the unread bytes, `ok` and
      `has_more`. */
  datatype Loop = Loop(status: Status, req: Request, text: string, ok: bool, more: bool)

  function Pass(l: Loop): Loop {
    match l.status
    case ParseLine =>
      (match CrlfFrom(l.text, 0)
       case None => l.(more := false)
       case Some(c) =>
         var (ok, q) := LineResult(l.req, l.text[..c]);
         if ok then Loop(ParseHeader, q, l.text[c + 2..], true, true)
         else Loop(ParseLine, q, l.text, false, false))
    case ParseHeader =>
      (match CrlfFrom(l.text, 0)
       case None => l.(status := ParseOver, more := false)
       case Some(c) =>
         var sep := Find(l.text, 0, c, ':');
         if sep != c then
           l.(req := l.req.(headers := l.req.headers[l.text[..sep] := TrimLeft(l.text[sep + 1..c])]),
              text := l.text[c + 2..])
         else l.(status := ParseOver, text := l.text[c + 2..], more := false))
    case _ => l
  }

  predicate Live(s: Status) { s == ParseLine || s == ParseHeader }

  /** Each pass either stops or consumes at least two bytes and stays in a live state. */
  lemma PassProgress(l: Loop)
    requires l.more && Live(l.status)
    ensures Pass(l).more ==> Live(Pass(l).status) && |Pass(l).text| + 2 <= |l.text|
  {
  }

  function Iterate(l: Loop, n: nat): Loop
    decreases n
  {
    if n == 0 || !l.more then l else Iterate(Pass(l), n - 1)
  }

  /** The whole loop. */
  function Parse(l: Loop): (r: Loop)
    requires Live(l.status)
    ensures !r.more
    decreases |l.text|, l.more
  {
    if !l.more then l else
      var p := Pass(l);
      if p.more then Parse(p) else p
  }

  lemma ParseUnfolds(l: Loop)
    requires l.more && Live(l.status)
    ensures Parse(l) == if Pass(l).more then Parse(Pass(l)) else Pass(l)
  {
  }

  lemma {:induction false} ParseIsIterated(l: Loop)
    requires Live(l.status)
    ensures exists n: nat :: Iterate(l, n) == Parse(l)
    decreases |l.text|, l.more
  {
    if !l.more {
      assert Iterate(l, 0) == Parse(l);
    } else if Pass(l).more {
      ParseIsIterated(Pass(l));
      var n: nat :| Iterate(Pass(l), n) == Parse(Pass(l));
      assert Iterate(l, n + 1) == Parse(l);
    } else {
      assert Iterate(Pass(l), 0) == Pass(l);
      assert Iterate(l, 1) == Parse(l);
    }
  }

  lemma {:induction false} DeadStateSpins(l: Loop, n: nat)
    requires l.more && !Live(l.status)
    ensures Iterate(l, n) == l
  {
    if n > 0 {
      DeadStateSpins(l, n - 1);
    }
  }

  /** The loop ends exactly when it is entered in the request-line or header state: entered in
      `e_parse_body` or `e_parse_over` it never stops. */
  lemma ParseTerminatesIff(status: Status, q: Request, text: string)
    ensures (exists n: nat :: !Iterate(Loop(status, q, text, true, true), n).more) <==> Live(status)
  {
    var l := Loop(status, q, text, true, true);
    if Live(status) {
      ParseIsIterated(l);
    } else {
      forall n: nat
        ensures Iterate(l, n).more
      {
        DeadStateSpins(l, n);
      }
    }
  }

  /** The loop leaves `e_parse_line` only by accepting a request line; it can end only there or
      in `e_parse_over`, and fails only in `e_parse_line`. */
  lemma {:induction false} ParseExit(l: Loop)
    requires Live(l.status) && l.more && l.ok
    ensures Parse(l).status == ParseLine || Parse(l).status == ParseOver
    ensures !Parse(l).ok ==> Parse(l).status == ParseLine
    ensures l.status == ParseHeader ==> Parse(l).status == ParseOver
    decreases |l.text|
  {
    if Pass(l).more {
      ParseExit(Pass(l));
    }
  }

  // ----- request lines -----

  predicate IsRequestLine(line: string, m: Method, target: string, d: char) {
    && m != Invalid
    && ' ' !in target
    && (d == '0' || d == '1')
    && line == MethodText(m) + " " + (target + " " + ("HTTP/1." + [d]))
  }

  ghost predicate WellFormedLine(line: string) {
    exists m, target, d :: IsRequestLine(line, m, target, d)
  }

  lemma FindFirst(s: string, from: nat, end: nat, c: char, at: nat)
    requires from <= at <= end <= |s|
    requires at < end ==> s[at] == c
    requires forall i :: from <= i < at ==> s[i] != c
    ensures Find(s, from, end, c) == at
    decreases at - from
  {
    if from < at {
      FindFirst(s, from + 1, end, c, at);
    }
  }

  function SplitPath(target: string): string { target[..Find(target, 0, |target|, '?')] }

  function SplitQuery(target: string): string { target[Find(target, 0, |target|, '?')..] }

  lemma Cut(pre: string, rest: string, s: string)
    requires s == pre + " " + rest && ' ' !in pre
    ensures |s| == |pre| + 1 + |rest| && s[..|pre|] == pre && s[|pre| + 1..] == rest
    ensures Find(s, 0, |s|, ' ') == |pre|
  {
    assert s[|pre|] == ' ';
    forall i | 0 <= i < |pre|
      ensures s[i] != ' '
    {
      assert s[i] == pre[i];
    }
    FindFirst(s, 0, |s|, ' ', |pre|);
  }

  lemma FindShift(s: string, from: nat, end: nat, c: char)
    requires from <= end <= |s|
    ensures Find(s, from, end, c) == from + Find(s[from..end], 0, end - from, c)
  {
    var at := Find(s[from..end], 0, end - from, c);
    forall i | from <= i < from + at
      ensures s[i] != c
    {
      assert s[i] == s[from..end][i - from];
    }
    FindFirst(s, from, end, c, from + at);
  }

  lemma Sliced(s: string, a: nat, k: nat)
    requires a + k <= |s|
    ensures s[a..][..k] == s[a..a + k] && s[a..][k..] == s[a + k..]
  {
  }

  lemma CutAt(line: string, a: nat, target: string, tail: string)
    requires a <= |line| && line[a..] == target + " " + tail && ' ' !in target
    ensures Find(line, a, |line|, ' ') == a + |target| < |line|
    ensures line[a..a + |target|] == target && line[a + |target| + 1..] == tail
  {
    Cut(target, tail, line[a..]);
    FindShift(line, a, |line|, ' ');
    Sliced(line, a, |target|);
    Sliced(line, a, |target| + 1);
  }

  lemma SpacesAt(pre: string, target: string, tail: string, line: string)
    requires ' ' !in pre && ' ' !in target && line == pre + " " + (target + " " + tail)
    ensures Find(line, 0, |line|, ' ') == |pre| < |line|
    ensures Find(line, |pre| + 1, |line|, ' ') == |pre| + 1 + |target| < |line|
  {
    Cut(pre, target + " " + tail, line);
    CutAt(line, |pre| + 1, target, tail);
  }

  lemma PiecesAt(pre: string, target: string, tail: string, line: string)
    requires ' ' !in pre && ' ' !in target && line == pre + " " + (target + " " + tail)
    ensures |line| > |pre| + 1 + |target| && line[..|pre|] == pre
    ensures line[|pre| + 1..|pre| + 1 + |target|] == target
    ensures line[|pre| + 1 + |target| + 1..] == tail
  {
    Cut(pre, target + " " + tail, line);
    CutAt(line, |pre| + 1, target, tail);
  }

  lemma ResultAt(q: Request, line: string, sp1: nat, sp2: nat)
    requires sp1 == Find(line, 0, |line|, ' ') < |line|
    requires sp2 == Find(line, sp1 + 1, |line|, ' ') < |line|
    requires MethodOf(line[..sp1]) != Invalid
    ensures LineResult(q, line) ==
            WithVersion(WithTarget(q.(method_ := MethodOf(line[..sp1])), line[sp1 + 1..sp2]), line[sp2 + 1..])
  {
  }

  /** `parse_line` on `pre SP target SP tail`. */
  lemma LineParts(q: Request, pre: string, target: string, tail: string, line: string)
    requires ' ' !in pre && ' ' !in target && line == pre + " " + (target + " " + tail)
    requires MethodOf(pre) != Invalid
    ensures LineResult(q, line) == WithVersion(WithTarget(q.(method_ := MethodOf(pre)), target), tail)
  {
    var sp1, sp2 := |pre|, |pre| + 1 + |target|;
    PiecesAt(pre, target, tail, line);
    SpacesAt(pre, target, tail, line);
    assert line[..sp1] == pre && line[sp1 + 1..sp2] == target && line[sp2 + 1..] == tail;
    ResultAt(q, line, sp1, sp2);
  }

  /** The exact fields an accepted line leaves in the request. A line without `?` keeps the
      query the request already had. */
  lemma AcceptedLine(q: Request, line: string, m: Method, target: string, d: char)
    requires IsRequestLine(line, m, target, d)
    ensures LineResult(q, line) ==
            (true, Request(m, if d == '1' then Http11 else Http10, SplitPath(target),
                           if '?' in target then SplitQuery(target) else q.query, q.headers))
  {
    MethodRoundTrip(m, MethodText(m));
    assert ' ' !in MethodText(m);
    LineParts(q, MethodText(m), target, HTTP1 + [d], line);
    FilledByTarget(q.(method_ := m), target, d);
  }

  lemma FilledByTarget(q: Request, target: string, d: char)
    requires d == '0' || d == '1'
    ensures WithVersion(WithTarget(q, target), HTTP1 + [d]) ==
            (true, Request(q.method_, if d == '1' then Http11 else Http10, SplitPath(target),
                           if '?' in target then SplitQuery(target) else q.query, q.headers))
  {
    var tail := HTTP1 + [d];
    assert tail[..7] == HTTP1 && tail[7] == d;
    assert '?' !in target ==> SplitPath(target) == target;
  }

  /** A line without a space changes nothing, and one whose method is unknown sets the method to
      invalid and nothing else. */
  lemma RejectedEarly(q: Request, line: string, sp: nat)
    requires sp == Find(line, 0, |line|, ' ')
    ensures sp == |line| ==> LineResult(q, line) == (false, q)
    ensures sp < |line| && MethodOf(line[..sp]) == Invalid ==> LineResult(q, line) == (false, q.(method_ := Invalid))
    ensures sp < |line| && MethodOf(line[..sp]) != Invalid && ' ' !in line[sp + 1..] ==>
              LineResult(q, line) == (false, q.(method_ := MethodOf(line[..sp])))
  {
    if sp < |line| && ' ' !in line[sp + 1..] {
      forall i | sp + 1 <= i < |line|
        ensures line[i] != ' '
      {
        assert line[i] == line[sp + 1..][i - sp - 1];
      }
      FindFirst(line, sp + 1, |line|, ' ', |line|);
    }
  }

  /** A line that is rejected only for its version leaves its method, path and query behind. */
  lemma RejectedLeaves(q: Request, m: Method, target: string, tail: string, line: string)
    requires m != Invalid && ' ' !in target && line == MethodText(m) + " " + (target + " " + tail)
    requires !(|tail| == 8 && tail[..7] == "HTTP/1." && (tail[7] == '0' || tail[7] == '1'))
    ensures var (ok, n) := LineResult(q, line);
            && !ok && n.method_ == m && n.path == SplitPath(target) && n.headers == q.headers
            && n.query == if '?' in target then SplitQuery(target) else q.query
  {
    MethodRoundTrip(m, MethodText(m));
    assert ' ' !in MethodText(m);
    LineParts(q, MethodText(m), target, tail, line);
    RejectedByVersion(q.(method_ := m), target, tail);
  }

  lemma RejectedByVersion(q: Request, target: string, tail: string)
    requires !(|tail| == 8 && tail[..7] == "HTTP/1." && (tail[7] == '0' || tail[7] == '1'))
    ensures var (ok, n) := WithVersion(WithTarget(q, target), tail);
            && !ok && n.method_ == q.method_ && n.path == SplitPath(target) && n.headers == q.headers
            && n.query == if '?' in target then SplitQuery(target) else q.query
  {
    assert '?' !in target ==> SplitPath(target) == target;
  }

  /** So a rejected line with a query gives its query to the next line that has none. */
  lemma StaleQueryIsReachable(m: Method, target: string, tail: string, line: string, n: Method, path: string, d: char, next: string)
    requires m != Invalid && ' ' !in target && '?' in target && line == MethodText(m) + " " + (target + " " + tail)
    requires !(|tail| == 8 && tail[..7] == "HTTP/1." && (tail[7] == '0' || tail[7] == '1'))
    requires IsRequestLine(next, n, path, d) && '?' !in path
    ensures var q := LineResult(FRESH, line).1;
            LineResult(q, next).0 && LineResult(q, next).1.query == SplitQuery(target) != ""
  {
    RejectedLeaves(FRESH, m, target, tail, line);
    AcceptedLine(LineResult(FRESH, line).1, next, n, path, d);
  }

  lemma Rejoined(s: string, i: nat, j: nat)
    requires i < j < |s| && s[i] == ' ' && s[j] == ' '
    ensures s == s[..i] + " " + (s[i + 1..j] + " " + s[j + 1..])
  {
    assert s[i + 1..] == s[i + 1..j] + " " + s[j + 1..];
  }

  lemma ShapeIsRequestLine(line: string, sp1: nat, sp2: nat)
    requires sp1 < sp2 < |line| && line[sp1] == ' ' && line[sp2] == ' ' && ' ' !in line[sp1 + 1..sp2]
    requires MethodOf(line[..sp1]) != Invalid
    requires |line| - sp2 == 9 && line[sp2 + 1..][..7] == HTTP1 && (line[sp2 + 8] == '0' || line[sp2 + 8] == '1')
    ensures WellFormedLine(line)
  {
    var m, target, tail := MethodOf(line[..sp1]), line[sp1 + 1..sp2], line[sp2 + 1..];
    MethodRoundTrip(m, line[..sp1]);
    assert tail == tail[..7] + [line[sp2 + 8]];
    Rejoined(line, sp1, sp2);
    assert IsRequestLine(line, m, target, line[sp2 + 8]);
  }

  lemma RejectedOtherwise(q: Request, line: string)
    requires LineResult(q, line).0
    ensures WellFormedLine(line)
  {
    var sp1 := Find(line, 0, |line|, ' ');
    var sp2 := Find(line, sp1 + 1, |line|, ' ');
    ShapeIsRequestLine(line, sp1, sp2);
  }

  /** `parse_line` succeeds exactly on `method SP target SP HTTP/1.(0|1)` with a known method and
      a space-free (possibly empty) target. */
  lemma LineAcceptedIff(q: Request, line: string)
    ensures LineResult(q, line).0 <==> WellFormedLine(line)
  {
    if LineResult(q, line).0 {
      RejectedOtherwise(q, line);
    } else if WellFormedLine(line) {
      var m, target, d :| IsRequestLine(line, m, target, d);
      AcceptedLine(q, line, m, target, d);
    }
  }

  function VersionText(v: Version): string {
    match v
    case Http10 => HTTP1 + "0"
    case Http11 => HTTP1 + "1"
    case Unknown => ""
  }

  function PrintLine(q: Request): string {
    MethodText(q.method_) + " " + (q.path + q.query + " " + VersionText(q.version))
  }

  /** Reprinting an accepted line gives the line back exactly when the line carries a query or
      the request had none before: a stale query of an earlier line is not cleared. */
  lemma LineReprints(q: Request, line: string)
    requires LineResult(q, line).0
    ensures PrintLine(LineResult(q, line).1) == line <==> '?' in line || q.query == ""
  {
    LineAcceptedIff(q, line);
    var m, target, d :| IsRequestLine(line, m, target, d);
    AcceptedLine(q, line, m, target, d);
    MarkOnlyInTarget(line, m, target, d);
    var query := if '?' in target then SplitQuery(target) else q.query;
    ReprintedTarget(MethodText(m), target, query, HTTP1 + [d]);
  }

  lemma MarkOnlyInTarget(line: string, m: Method, target: string, d: char)
    requires IsRequestLine(line, m, target, d)
    ensures '?' in line <==> '?' in target
  {
    assert '?' !in MethodText(m) && '?' !in HTTP1;
  }

  lemma ReprintedTarget(name: string, target: string, query: string, tail: string)
    requires '?' in target ==> query == SplitQuery(target)
    ensures name + " " + (SplitPath(target) + query + " " + tail) == name + " " + (target + " " + tail)
            <==> '?' in target || query == ""
  {
    var a, b := SplitPath(target) + query + " " + tail, target + " " + tail;
    assert SplitPath(target) + SplitQuery(target) == target;
    assert '?' !in target ==> SplitPath(target) == target;
    if '?' !in target && query != "" {
      assert |name + " " + a| == |name + " " + b| + |query|;
    }
  }

  /** Fields a request line can carry. */
  predicate PrintableLine(q: Request) {
    && q.method_ != Invalid && q.version != Unknown
    && ' ' !in q.path && '?' !in q.path && ' ' !in q.query
    && (q.query == "" || q.query[0] == '?')
    && NoCrlf(q.path) && NoCrlf(q.query)
  }

  /** Parsing the printed line of a request gives its line fields back. */
  lemma PrintedLineParses(q: Request)
    requires PrintableLine(q)
    ensures LineResult(FRESH, PrintLine(q)) == (true, q.(headers := map[]))
  {
    var d := if q.version == Http11 then '1' else '0';
    var target := q.path + q.query;
    assert VersionText(q.version) == HTTP1 + [d];
    assert IsRequestLine(PrintLine(q), q.method_, target, d);
    AcceptedLine(FRESH, PrintLine(q), q.method_, target, d);
    FindFirst(target, 0, |target|, '?', |q.path|);
    assert target[..|q.path|] == q.path && target[|q.path|..] == q.query;
    assert q.query != "" ==> target[|q.path|] == '?';
  }

  // ----- whole requests -----

  predicate NoCrlf(s: string) {
    forall i: nat :: i < |s| ==> !CrlfAt(s, i)
  }

  /** The first CRLF after a CRLF-free text is the one put there. */
  lemma FirstCrlf(line: string, rest: string)
    requires NoCrlf(line)
    ensures CrlfFrom(line + CRLF + rest, 0) == Some(|line|)
    ensures (line + CRLF + rest)[..|line|] == line && (line + CRLF + rest)[|line| + 2..] == rest
  {
    var s := line + CRLF + rest;
    assert CrlfAt(s, |line|);
    forall i | 0 <= i < |line|
      ensures !CrlfAt(s, i)
    {
      assert !CrlfAt(line, i) && s[i] == line[i];
    }
  }

  type Field = (string, string)

  predicate PrintableField(f: Field) {
    && ':' !in f.0 && NoCrlf(f.0) && NoCrlf(f.1)
    && (f.1 == "" || f.1[0] != ' ')
  }

  function FieldLine(f: Field): string { f.0 + ": " + f.1 }

  function PrintFields(fs: seq<Field>): string {
    if fs == [] then "" else FieldLine(fs[0]) + CRLF + PrintFields(fs[1..])
  }

  /** A request with its header fields in the order given, a blank line, and a body. */
  function PrintRequest(q: Request, fs: seq<Field>, body: string): string {
    PrintLine(q) + CRLF + (PrintFields(fs) + (CRLF + body))
  }

  function StoreFields(h: map<string, string>, fs: seq<Field>): map<string, string>
    decreases |fs|
  {
    if fs == [] then h else StoreFields(h[fs[0].0 := fs[0].1], fs[1..])
  }

  lemma FieldPass(q: Request, f: Field, rest: string)
    requires PrintableField(f)
    ensures Pass(Loop(ParseHeader, q, FieldLine(f) + CRLF + rest, true, true)) ==
            Loop(ParseHeader, q.(headers := q.headers[f.0 := f.1]), rest, true, true)
  {
    var line := FieldLine(f);
    var text := line + CRLF + rest;
    assert NoCrlf(line) by {
      forall i | 0 <= i < |line| - 1
        ensures !CrlfAt(line, i)
      {
        if i < |f.0| - 1 {
          assert !CrlfAt(f.0, i) && line[i] == f.0[i] && line[i + 1] == f.0[i + 1];
        } else if i >= |f.0| + 2 {
          var k := i - |f.0| - 2;
          assert !CrlfAt(f.1, k) && line[i] == f.1[k] && line[i + 1] == f.1[k + 1];
        }
      }
    }
    FirstCrlf(line, rest);
    FindFirst(text, 0, |line|, ':', |f.0|);
    assert text[..|f.0|] == f.0;
    var value := text[|f.0| + 1..|line|];
    assert value == " " + f.1 && value[1..] == f.1;
    assert TrimLeft(value) == TrimLeft(f.1) == f.1;
  }

  lemma {:induction false} FieldsParse(q: Request, fs: seq<Field>, body: string)
    requires forall i :: 0 <= i < |fs| ==> PrintableField(fs[i])
    ensures Parse(Loop(ParseHeader, q, PrintFields(fs) + (CRLF + body), true, true)) ==
            Loop(ParseOver, q.(headers := StoreFields(q.headers, fs)), body, true, false)
    decreases |fs|
  {
    var l := Loop(ParseHeader, q, PrintFields(fs) + (CRLF + body), true, true);
    if fs == [] {
      assert l.text == "" + CRLF + body;
      FirstCrlf("", body);
    } else {
      var rest := PrintFields(fs[1..]) + (CRLF + body);
      assert l.text == FieldLine(fs[0]) + CRLF + rest;
      FieldPass(q, fs[0], rest);
      FieldsParse(q.(headers := q.headers[fs[0].0 := fs[0].1]), fs[1..], body);
    }
  }

  /** Parsing a printed request from a reset context consumes it up to the body and leaves its
      line fields and, in order, its header fields in the request. */
  lemma PrintThenParse(q: Request, fs: seq<Field>, body: string)
    requires PrintableLine(q)
    requires forall i :: 0 <= i < |fs| ==> PrintableField(fs[i])
    ensures Parse(Loop(ParseLine, FRESH, PrintRequest(q, fs, body), true, true)) ==
            Loop(ParseOver, q.(headers := StoreFields(map[], fs)), body, true, false)
  {
    var line := PrintLine(q);
    var rest := PrintFields(fs) + (CRLF + body);
    PrintedLineNoCrlf(q);
    FirstCrlf(line, rest);
    PrintedLineParses(q);
    FieldsParse(q.(headers := map[]), fs, body);
  }

  lemma PrintedLineNoCrlf(q: Request)
    requires PrintableLine(q)
    ensures NoCrlf(PrintLine(q))
  {
    var name, end := MethodText(q.method_), VersionText(q.version);
    var line := PrintLine(q);
    var p, k, e := |name| + 1, |name| + 1 + |q.path|, |name| + 1 + |q.path| + |q.query|;
    assert '\r' !in name && '\n' !in end;
    forall i | 0 <= i < |line| - 1
      ensures !CrlfAt(line, i)
    {
      if i < |name| {
        assert line[i] == name[i];
      } else if p <= i < k - 1 {
        assert !CrlfAt(q.path, i - p) && line[i] == q.path[i - p] && line[i + 1] == q.path[i + 1 - p];
      } else if k <= i < e - 1 {
        assert !CrlfAt(q.query, i - k) && line[i] == q.query[i - k] && line[i + 1] == q.query[i + 1 - k];
      } else if i == k - 1 && k < e {
        assert line[i + 1] == q.query[0];
      } else if i >= e {
        assert line[i + 1] == end[i + 1 - e - 1];
      }
    }
  }

  /** With distinct names every name ends up with its own value, and there are no others. */
  lemma {:induction false} DistinctFieldsKept(h: map<string, string>, fs: seq<Field>)
    requires forall i, j :: 0 <= i < j < |fs| ==> fs[i].0 != fs[j].0
    ensures forall i :: 0 <= i < |fs| ==> fs[i].0 in StoreFields(h, fs) && StoreFields(h, fs)[fs[i].0] == fs[i].1
    ensures forall k :: k in StoreFields(h, fs) && (forall i :: 0 <= i < |fs| ==> fs[i].0 != k) ==>
              k in h && StoreFields(h, fs)[k] == h[k]
    ensures forall k :: k in h && (forall i :: 0 <= i < |fs| ==> fs[i].0 != k) ==>
              k in StoreFields(h, fs) && StoreFields(h, fs)[k] == h[k]
    decreases |fs|
  {
    if fs != [] {
      var h' := h[fs[0].0 := fs[0].1];
      var tail := fs[1..];
      DistinctFieldsKept(h', tail);
      var m := StoreFields(h', tail);
      assert fs[0].0 in m && m[fs[0].0] == fs[0].1 by {
        forall i | 0 <= i < |tail| ensures tail[i].0 != fs[0].0 { assert tail[i] == fs[i + 1]; }
      }
      forall i | 0 <= i < |fs|
        ensures fs[i].0 in m && m[fs[i].0] == fs[i].1
      {
        if i > 0 { assert fs[i] == tail[i - 1]; }
      }
      forall k | forall i :: 0 <= i < |fs| ==> fs[i].0 != k
        ensures k in m <==> k in h
        ensures k in m ==> m[k] == h[k]
      {
        forall i | 0 <= i < |tail| ensures tail[i].0 != k { assert tail[i] == fs[i + 1]; }
        assert fs[0].0 != k;
      }
    }
  }

  /** The fields are those of the header map, each once. */
  predicate Lists(fs: seq<Field>, h: map<string, string>) {
    && (forall i, j :: 0 <= i < j < |fs| ==> fs[i].0 != fs[j].0)
    && (forall i :: 0 <= i < |fs| ==> fs[i].0 in h && h[fs[i].0] == fs[i].1)
    && (forall k :: k in h ==> exists i :: 0 <= i < |fs| && fs[i].0 == k)
  }

  lemma ListedFieldsStored(fs: seq<Field>, h: map<string, string>)
    requires Lists(fs, h)
    ensures StoreFields(map[], fs) == h
  {
    var m := StoreFields(map[], fs);
    DistinctFieldsKept(map[], fs);
    forall k
      ensures k in m <==> k in h
      ensures k in m ==> m[k] == h[k]
    {
    }
  }

  /** Parsing a printed request gives back the request itself, header map included, in whatever
      order its fields were printed, and leaves the body. */
  lemma RequestRoundTrip(q: Request, fs: seq<Field>, body: string)
    requires PrintableLine(q) && Lists(fs, q.headers)
    requires forall i :: 0 <= i < |fs| ==> PrintableField(fs[i])
    ensures Parse(Loop(ParseLine, FRESH, PrintRequest(q, fs, body), true, true)) ==
            Loop(ParseOver, q, body, true, false)
  {
    PrintThenParse(q, fs, body);
    ListedFieldsStored(fs, q.headers);
  }

  lemma MarkInTarget(line: string, from: nat, end: nat, target: string)
    requires from <= end <= |line| && target == line[from..end]
    ensures Find(line, from, end, '?') == from + Find(target, 0, |target|, '?')
    ensures var cut := Find(target, 0, |target|, '?');
            line[from..from + cut] == target[..cut] && line[from + cut..end] == target[cut..]
  {
    FindShift(line, from, end, '?');
    SubSlices(line, from, end, Find(target, 0, |target|, '?'));
  }

  lemma SubSlices(s: string, from: nat, end: nat, cut: nat)
    requires from + cut <= end <= |s|
    ensures s[from..end][..cut] == s[from..from + cut] && s[from..end][cut..] == s[from + cut..end]
  {
  }

  lemma TailOfLine(line: string, from: nat)
    requires 0 < from <= |line|
    ensures |line| - from == 8 ==> line[from..|line| - 1] == line[from..][..7]
    ensures line[|line| - 1] == if line[from..] == "" then line[from - 1] else line[from..][|line| - from - 1]
  {
  }

  class HttpContext {
    var status: Status
    const request: HttpRequest

    constructor ()
      ensures status == ParseLine && fresh(request) && request.View() == FRESH
    {
      status := ParseLine;
      request := new HttpRequest();
    }

    predicate IsParseFinish()
      reads this
    {
      status == ParseOver
    }

    method Reset()
      modifies this, request
      ensures status == ParseLine && request.View() == FRESH
    {
      status := ParseLine;
      var tmp := new HttpRequest();
      request.Swap(tmp);
    }

    method LineParser(line: string) returns (ok: bool)
      modifies request
      ensures (ok, request.View()) == LineResult(old(request.View()), line)
    {
      ok := false;
      var space := Find(line, 0, |line|, ' ');
      if space == |line| {
        return;
      }
      var known := request.SetMethod(line[..space]);
      if !known {
        return;
      }
      var start := space + 1;
      space := Find(line, start, |line|, ' ');
      if space != |line| {
        TargetParser(line, start, space);
        ok := VersionParser(line, space + 1);
      }
    }

    method TargetParser(line: string, start: nat, space: nat)
      requires start <= space <= |line|
      modifies request`path, request`query
      ensures request.View() == WithTarget(old(request.View()), line[start..space])
    {
      MarkInTarget(line, start, space, line[start..space]);
      var mark := Find(line, start, space, '?');
      if mark != space {
        request.path := line[start..mark];
        request.query := line[mark..space];
      } else {
        request.path := line[start..space];
      }
    }

    method VersionParser(line: string, start: nat) returns (ok: bool)
      requires 0 < start <= |line| && line[start - 1] == ' '
      modifies request`version
      ensures (ok, request.View()) == WithVersion(old(request.View()), line[start..])
    {
      TailOfLine(line, start);
      ok := |line| - start == 8 && line[start..|line| - 1] == HTTP1;
      if line[|line| - 1] == '1' {
        request.version := Http11;
      } else if line[|line| - 1] == '0' {
        request.version := Http10;
      } else {
        ok := false;
      }
    }

    /** `read_skip_until`, as far as the parser can see it. */
    static method SkipBytes(buf: RingBuffer, n: nat)
      requires buf.Valid() && n <= |buf.Readable()|
      modifies buf
      ensures buf.Valid() && buf.buffer == old(buf.buffer)
      ensures buf.Readable() == old(buf.Readable())[n..]
    {
      buf.ReadSkip(n);
    }

    /** One pass in the request-line state. */
    method LineStep(buf: RingBuffer) returns (ok: bool, more: bool)
      requires status == ParseLine && buf.Valid()
      modifies this, request, buf
      ensures buf.Valid() && buf.buffer == old(buf.buffer)
      ensures Loop(status, request.View(), buf.Readable(), ok, more) ==
              Pass(Loop(ParseLine, old(request.View()), old(buf.Readable()), true, true))
    {
      ok, more := true, false;
      var crlf := buf.FindCrlf();
      if crlf.Some? {
        var text := buf.Readable();
        ok := LineParser(text[..crlf.value]);
        if ok {
          SkipBytes(buf, crlf.value + 2);
          status := ParseHeader;
          more := true;
        }
      }
    }

    method StoreHeader(text: string, separator: nat, crlf: nat)
      requires separator < crlf < |text| && text[crlf] == '\r'
      modifies request
      ensures request.View() == old(request.View()).(
                                  headers := old(request.View()).headers[
                                  text[..separator] := TrimLeft(text[separator + 1..crlf])])
    {
      HeaderValueAtCr(text, separator, crlf);
      request.Header(text, 0, separator, crlf);
    }

    /** One pass in the header state. */
    method HeaderStep(buf: RingBuffer) returns (more: bool)
      requires status == ParseHeader && buf.Valid()
      modifies this, request, buf
      ensures buf.Valid() && buf.buffer == old(buf.buffer)
      ensures Loop(status, request.View(), buf.Readable(), true, more) ==
              Pass(Loop(ParseHeader, old(request.View()), old(buf.Readable()), true, true))
    {
      more := true;
      var crlf := buf.FindCrlf();
      if crlf.Some? {
        var text := buf.Readable();
        var separator := Find(text, 0, crlf.value, ':');
        if separator != crlf.value {
          StoreHeader(text, separator, crlf.value);
        } else {
          status := ParseOver;
          more := false;
        }
        SkipBytes(buf, crlf.value + 2);
      } else {
        status := ParseOver;
        more := false;
      }
    }

    /** One pass of the loop of `parse_req`; `l` and `n` are the loop's state before and after. */
    method Step(buf: RingBuffer, ghost l: Loop) returns (ok: bool, more: bool, ghost n: Loop)
      requires buf.Valid() && Live(status) && l == Loop(status, request.View(), buf.Readable(), true, true)
      modifies this, request, buf
      ensures buf.Valid() && buf.buffer == old(buf.buffer)
      ensures n == Loop(status, request.View(), buf.Readable(), ok, more)
      ensures more ==> ok && Live(status) && |n.text| < |l.text|
      ensures Parse(l) == if more then Parse(n) else n
    {
      PassProgress(l);
      ParseUnfolds(l);
      n := Pass(l);
      if status == ParseLine {
        ok, more := LineStep(buf);
      } else {
        ok := true;
        more := HeaderStep(buf);
      }
    }

    /** `parse_req`: entered in a live state it terminates, empties the buffer and ends where
        `Parse` does. Entered in another state the source loops forever. */
    method ParseReq(buf: RingBuffer) returns (ok: bool)
      requires Live(status) && buf.Valid()
      modifies this, request, buf
      ensures buf.Valid() && buf.buffer == old(buf.buffer) && buf.Readable() == "" && buf.readStart == PREPEND
      ensures var r := Parse(Loop(old(status), old(request.View()), old(buf.Readable()), true, true));
              ok == r.ok && status == r.status && request.View() == r.req
    {
      ok := true;
      var more := true;
      ghost var l := Loop(status, request.View(), buf.Readable(), ok, more);
      ghost var all := Parse(l);
      while more
        invariant buf.Valid() && buf.buffer == old(buf.buffer)
        invariant l == Loop(status, request.View(), buf.Readable(), ok, more)
        invariant if more then ok && Live(status) && Parse(l) == all else l == all
        decreases more, |l.text|
      {
        ok, more, l := Step(buf, l);
      }
      buf.ReadSkipAll();
    }
  }
}
