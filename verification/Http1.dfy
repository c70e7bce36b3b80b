/** The first lines of HTTP/1 messages (the value functions at the end of internal/l7/correlator.go). */
module Http1 {
  import opened Base

  type Text = seq<byte>

  const SPACE: byte := 32
  const SLASH: byte := 47
  const QUESTION: byte := 63

  /** The bytes of an ASCII literal. */
  function Ascii(s: string): (t: Text)
    ensures |t| == |s|
  {
    seq(|s|, i requires 0 <= i < |s| => (s[i] as int % 256) as byte)
  }

  const CRLF: Text := [13, 10]
  const HEADER_END: Text := [13, 10, 13, 10]

  /** Where `part` first occurs. */
  function IndexOf(s: Text, part: Text): (r: Option<nat>)
    ensures r.Some? ==> r.value + |part| <= |s| && s[r.value..r.value + |part|] == part
    decreases |s|
  {
    if |s| < |part| then None
    else if s[..|part|] == part then Some(0)
    else if s == [] then None
    else
      match IndexOf(s[1..], part)
      case None => None
      case Some(i) => Some(i + 1)
  }

  function FirstLine(payload: Text): Text {
    match IndexOf(payload, CRLF)
    case None => payload
    case Some(end) => payload[..end]
  }

  /** No byte of s is b. */
  predicate Lacks(s: Text, b: byte) {
    forall i :: 0 <= i < |s| ==> s[i] != b
  }

  /** Where byte b first occurs, or the length. */
  function Find(s: Text, b: byte): (n: nat)
    ensures n <= |s| && (n < |s| ==> s[n] == b)
    ensures forall i :: 0 <= i < n ==> s[i] != b
    decreases |s|
  {
    if s == [] || s[0] == b then 0 else 1 + Find(s[1..], b)
  }

  /** strings.SplitN(line, " ", 3). */
  function Parts(line: Text): (ps: seq<Text>)
    ensures 1 <= |ps| <= 3
  {
    var n := Find(line, SPACE);
    if n == |line| then [line]
    else
      var rest := line[n + 1..];
      var k := Find(rest, SPACE);
      if k == |rest| then [line[..n], rest] else [line[..n], rest[..k], rest[k + 1..]]
  }

  predicate IsMethod(m: Text) {
    m in [Ascii("GET"), Ascii("POST"), Ascii("PUT"), Ascii("DELETE"), Ascii("HEAD"), Ascii("OPTIONS"),
          Ascii("PATCH"), Ascii("TRACE"), Ascii("CONNECT")]
  }

  /** The path of a request target: no query, at most maxPath bytes. */
  function PathOf(target: Text, maxPath: nat): (path: Text)
    ensures |path| <= maxPath
  {
    var path := target[..Find(target, QUESTION)];
    if |path| > maxPath then path[..maxPath] else path
  }

  datatype Request = Request(method_: Text, path: Text)

  function ParseRequest(payload: Text, maxPath: nat): Option<Request> {
    var parts := Parts(FirstLine(payload));
    if |parts| != 3 || !(Ascii("HTTP/1.") <= parts[2]) || !IsMethod(parts[0]) then None
    else
      var path := parts[1][..Find(parts[1], QUESTION)];
      if path == [] || path[0] != SLASH then None else Some(Request(parts[0], PathOf(parts[1], maxPath)))
  }

  /** Another request begins behind the first header block. */
  predicate Pipelined(payload: Text, maxPath: nat) {
    match IndexOf(payload, HEADER_END)
    case None => false
    case Some(end) => ParseRequest(payload[end + 4..], maxPath).Some?
  }

  predicate IsDigit(b: byte) {
    48 <= b <= 57
  }

  function DecimalValue(s: Text): nat {
    if s == [] then 0 else 10 * DecimalValue(s[..|s| - 1]) + (s[|s| - 1] as int % 16)
  }

  /** strconv.ParseUint(s, 10, 16), kept when it is an HTTP status. */
  function Status(s: Text): (r: Option<nat>)
    ensures r.Some? ==> 100 <= r.value <= 599
  {
    if s == [] || !(forall i :: 0 <= i < |s| ==> IsDigit(s[i])) then None
    else if 100 <= DecimalValue(s) <= 599 then Some(DecimalValue(s)) else None
  }

  function ParseResponse(payload: Text): (r: Option<nat>)
    ensures r.Some? ==> 100 <= r.value <= 599
  {
    var parts := Parts(FirstLine(payload));
    if |parts| < 2 || !(Ascii("HTTP/1.") <= parts[0]) || |parts[1]| != 3 then None else Status(parts[1])
  }

  // ---------- What is recognized ----------

  /** Splitting undoes joining three parts of which the first two hold no space. */
  lemma PartsOfJoined(a: Text, b: Text, c: Text)
    requires Lacks(a, SPACE) && Lacks(b, SPACE)
    ensures Parts(a + [SPACE] + b + [SPACE] + c) == [a, b, c]
  {
    var line, rest := a + [SPACE] + b + [SPACE] + c, b + [SPACE] + c;
    assert line == a + [SPACE] + rest;
    FindAfter(a, SPACE, rest);
    assert rest == b + [SPACE] + c;
    FindAfter(b, SPACE, c);
  }

  lemma FindAfter(a: Text, b: byte, rest: Text)
    requires Lacks(a, b)
    ensures var s := a + [b] + rest; Find(s, b) == |a| && s[..|a|] == a && s[|a| + 1..] == rest
  {
    var s := a + [b] + rest;
    assert s[|a|] == b;
    assert forall i :: 0 <= i < |a| ==> s[i] == a[i];
  }

  lemma SplitAt(s: Text, n: nat)
    requires n < |s|
    ensures s == s[..n] + [s[n]] + s[n + 1..]
  {
  }

  lemma Reassociate(a: Text, b: Text, c: Text, d: Text)
    ensures a + b + (c + b + d) == a + b + c + b + d
  {
  }

  lemma JoinedFromParts(line: Text)
    requires |Parts(line)| == 3
    ensures var p := Parts(line); line == p[0] + [SPACE] + p[1] + [SPACE] + p[2] && Lacks(p[0], SPACE) && Lacks(p[1], SPACE)
  {
    var n := Find(line, SPACE);
    var rest := line[n + 1..];
    var k := Find(rest, SPACE);
    SplitAt(line, n);
    SplitAt(rest, k);
    Reassociate(line[..n], [SPACE], rest[..k], rest[k + 1..]);
  }

  /** The line is a request line for this target: method, target and version, single spaces. */
  predicate IsRequestLine(line: Text, m: Text, target: Text, version: Text) {
    && line == m + [SPACE] + target + [SPACE] + (Ascii("HTTP/1.") + version)
    && IsMethod(m) && Lacks(target, SPACE) && target != [] && target[0] == SLASH
  }

  lemma LettersOnly(s: string)
    requires forall i :: 0 <= i < |s| ==> 'A' <= s[i] <= 'Z'
    ensures Lacks(Ascii(s), SPACE)
  {
  }

  lemma MethodsHaveNoSpace(m: Text)
    requires IsMethod(m)
    ensures Lacks(m, SPACE)
  {
    hide Ascii, Lacks;
    LettersOnly("GET");
    LettersOnly("POST");
    LettersOnly("PUT");
    LettersOnly("DELETE");
    LettersOnly("HEAD");
    LettersOnly("OPTIONS");
    LettersOnly("PATCH");
    LettersOnly("TRACE");
    LettersOnly("CONNECT");
  }

  lemma TargetPath(target: Text)
    ensures (var path := target[..Find(target, QUESTION)]; path != [] && path[0] == SLASH) <==> target != [] && target[0] == SLASH
  {
  }

  lemma RequestHasLine(payload: Text, maxPath: nat)
    requires ParseRequest(payload, maxPath).Some?
    ensures var r := ParseRequest(payload, maxPath).value;
            exists target, version :: IsRequestLine(FirstLine(payload), r.method_, target, version) && r.path == PathOf(target, maxPath)
  {
    hide FirstLine, PathOf, IsMethod, Parts, Ascii;
    var line, http := FirstLine(payload), Ascii("HTTP/1.");
    var p := Parts(line);
    JoinedFromParts(line);
    TargetPath(p[1]);
    var version := p[2][|http|..];
    assert p[2] == http + version;
    assert IsRequestLine(line, p[0], p[1], version);
  }

  lemma LineIsRequest(payload: Text, maxPath: nat, m: Text, target: Text, version: Text)
    requires IsRequestLine(FirstLine(payload), m, target, version)
    ensures ParseRequest(payload, maxPath) == Some(Request(m, PathOf(target, maxPath)))
  {
    MethodsHaveNoSpace(m);
    hide FirstLine, PathOf, IsMethod, Parts, Ascii;
    PartsOfJoined(m, target, Ascii("HTTP/1.") + version);
    TargetPath(target);
  }

  /** A payload parses as a request exactly when its first line is a request line, and then to that
      line's method and bounded path. */
  lemma RequestExactly(payload: Text, maxPath: nat, m: Text, path: Text)
    ensures ParseRequest(payload, maxPath) == Some(Request(m, path)) <==>
            exists target, version :: IsRequestLine(FirstLine(payload), m, target, version) && path == PathOf(target, maxPath)
  {
    hide ParseRequest, IsRequestLine, FirstLine, PathOf;
    if ParseRequest(payload, maxPath) == Some(Request(m, path)) {
      RequestHasLine(payload, maxPath);
    }
    if target, version :| IsRequestLine(FirstLine(payload), m, target, version) && path == PathOf(target, maxPath) {
      LineIsRequest(payload, maxPath, m, target, version);
    }
  }
}
