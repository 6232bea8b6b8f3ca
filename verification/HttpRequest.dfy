/** The parsed request of net/http/HttpRequest.h: the fields the parser fills in, as a value
    (`Request`) and as the class that is filled in place. */
module HttpRequests {

  datatype Method = Invalid | Get | Post | Head | Put | Delete

  datatype Version = Unknown | Http10 | Http11

  datatype Request = Request(
    method_: Method, version: Version, path: string, query: string, headers: map<string, string>)

  const FRESH := Request(Invalid, Unknown, "", "", map[])

  function MethodOf(s: string): Method {
    if s == "GET" then Get
    else if s == "POST" then Post
    else if s == "HEAD" then Head
    else if s == "PUT" then Put
    else if s == "DELETE" then Delete
    else Invalid
  }

  function MethodText(m: Method): string {
    match m
    case Get => "GET"
    case Post => "POST"
    case Head => "HEAD"
    case Put => "PUT"
    case Delete => "DELETE"
    case Invalid => "UNKNOWN"
  }

  /** The five methods the parser knows. */
  lemma KnownMethods(s: string)
    ensures MethodOf("GET") == Get && MethodOf("POST") == Post && MethodOf("HEAD") == Head
    ensures MethodOf("PUT") == Put && MethodOf("DELETE") == Delete
    ensures MethodOf(s) != Invalid <==> s in {"GET", "POST", "HEAD", "PUT", "DELETE"}
    ensures MethodText(Invalid) == "UNKNOWN"
  {
  }

  /** Naming a method and recognising its name undo each other. */
  lemma MethodRoundTrip(m: Method, s: string)
    ensures MethodOf(s) == m != Invalid <==> s == MethodText(m) && m != Invalid
  {
    assert MethodText(Invalid) != "GET" && MethodText(Invalid) != "POST" && MethodText(Invalid) != "HEAD";
  }

  /** `std::find` on `[from, end)`. */
  function Find(s: string, from: nat, end: nat, c: char): (r: nat)
    requires from <= end <= |s|
    ensures from <= r <= end
    ensures r < end ==> s[r] == c
    ensures forall i :: from <= i < r ==> s[i] != c
    decreases end - from
  {
    if from == end || s[from] == c then from else Find(s, from + 1, end, c)
  }

  /** The text without its leading spaces. */
  function TrimLeft(s: string): string {
    if s != "" && s[0] == ' ' then TrimLeft(s[1..]) else s
  }

  function Spaces(n: nat): string { seq(n, i => ' ') }

  /** All leading spaces are dropped, and nothing else. */
  lemma {:induction false} TrimLeftExact(s: string)
    ensures TrimLeft(s) == "" || TrimLeft(s)[0] != ' '
    ensures |TrimLeft(s)| <= |s| && s == Spaces(|s| - |TrimLeft(s)|) + TrimLeft(s)
    decreases |s|
  {
    if s != "" && s[0] == ' ' {
      TrimLeftExact(s[1..]);
      var k := |s[1..]| - |TrimLeft(s)|;
      assert s == [s[0]] + s[1..] && Spaces(k + 1) == [' '] + Spaces(k);
    }
  }

  /** The first, and the last, position of `text[from..end]`, end included, that is no space. */
  function FirstInk(text: string, from: nat, end: nat): (r: nat)
    requires from <= end < |text| && exists k :: from <= k <= end && text[k] != ' '
    ensures from <= r <= end && text[r] != ' '
    decreases end - from
  {
    if text[from] != ' ' then from else FirstInk(text, from + 1, end)
  }

  function LastInk(text: string, from: nat, end: nat): (r: nat)
    requires from <= end < |text| && exists k :: from <= k <= end && text[k] != ' '
    ensures from <= r <= end && text[r] != ' '
    decreases end - from
  {
    if text[end] != ' ' then end else LastInk(text, from, end - 1)
  }

  /** What `header` stores for the line `text[..end]` whose colon is at `separator`. */
  function HeaderValue(text: string, separator: nat, end: nat): string
    requires separator < end < |text| && exists k :: separator < k <= end && text[k] != ' '
  {
    var first := FirstInk(text, separator + 1, end);
    text[first..LastInk(text, first, end)]
  }

  /** The parser passes the CR as `end`, so the trailing-space loop sees no space: leading
      spaces are dropped and trailing spaces stay in the value. */
  lemma {:induction false} HeaderValueAtCr(text: string, separator: nat, end: nat)
    requires separator < end < |text| && text[end] == '\r'
    ensures HeaderValue(text, separator, end) == TrimLeft(text[separator + 1..end])
    decreases end - separator
  {
    var rest := text[separator + 1..end];
    if rest != "" && rest[0] == ' ' {
      HeaderValueAtCr(text, separator + 1, end);
      assert rest[1..] == text[separator + 2..end];
    }
  }

  class HttpRequest {
    var method_: Method
    var version: Version
    var path: string
    var query: string
    var time: int
    var headers: map<string, string>

    ghost function View(): Request
      reads this
    {
      Request(method_, version, path, query, headers)
    }

    constructor ()
      ensures View() == FRESH
    {
      method_, version, path, query, headers := Invalid, Unknown, "", "", map[];
    }

    method SetMethod(s: string) returns (known: bool)
      modifies this`method_
      ensures View() == old(View()).(method_ := MethodOf(s))
      ensures known <==> MethodOf(s) != Invalid
    {
      if s == "GET" {
        method_ := Get;
      } else if s == "POST" {
        method_ := Post;
      } else if s == "HEAD" {
        method_ := Head;
      } else if s == "PUT" {
        method_ := Put;
      } else if s == "DELETE" {
        method_ := Delete;
      } else {
        method_ := Invalid;
      }
      known := method_ != Invalid;
    }

    /** One header line `text[start..end]` with its colon at `separator`. */
    method Header(text: string, start: nat, separator: nat, end: nat)
      requires start <= separator < end < |text|
      requires exists k :: separator < k <= end && text[k] != ' '
      modifies this`headers
      ensures View() == old(View()).(
                        headers := old(headers)[text[start..separator] := HeaderValue(text, separator, end)])
    {
      var key := text[start..separator];
      var from, upto := separator + 1, end;
      while from <= upto && text[from] == ' '
        invariant separator < from <= upto
        invariant exists k :: from <= k <= end && text[k] != ' '
        invariant FirstInk(text, separator + 1, end) == FirstInk(text, from, end)
      {
        from := from + 1;
      }
      while from <= upto && text[upto] == ' '
        invariant from <= upto <= end
        invariant LastInk(text, from, end) == LastInk(text, from, upto)
      {
        upto := upto - 1;
      }
      assert HeaderValue(text, separator, end) == text[from..upto];
      headers := headers[key := if from == upto then "" else text[from..upto]];
    }

    /** The value stored for a name, or the empty string. */
    function Lookup(key: string): string
      reads this
    {
      if key in headers then headers[key] else ""
    }

    method Swap(rhs: HttpRequest)
      modifies this, rhs
      ensures View() == old(rhs.View()) && rhs.View() == old(View())
      ensures time == old(rhs.time) && rhs.time == old(time)
    {
      method_, rhs.method_ := rhs.method_, method_;
      version, rhs.version := rhs.version, version;
      path, rhs.path := rhs.path, path;
      query, rhs.query := rhs.query, query;
      time, rhs.time := rhs.time, time;
      headers, rhs.headers := rhs.headers, headers;
    }
  }
}
