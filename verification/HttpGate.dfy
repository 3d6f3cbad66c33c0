/** firmware/devices_badge/conference_http_gate.h: the header grammar of the setup portal
    (sections 3, 5 and 6.3 of RFC 9112, restricted to what the portal serves). */
module HttpGate {
  import opened Wrappers

  const HEADER_LIMIT := 4096
  const LINE_LIMIT := 512
  const PATH_LIMIT := 384
  const IMAGE_LIMIT := 131072
  const CLOCK_LIMIT := 512
  const FORM_LIMIT := 2048
  const CRLF := ['\r', '\n']

  datatype Request = Request(post: bool, path: string, nonce: string, bodyLength: nat)

  const NO_REQUEST := Request(false, "", "", 0)

  // ---------------------------------------------------------------- scanning

  predicate Crlf(s: string, i: nat) { i + 2 <= |s| && s[i] == '\r' && s[i + 1] == '\n' }

  predicate NoCrlf(s: string) { forall i | 0 <= i < |s| :: !Crlf(s, i) }

  /** Position of the first CRLF at or after p. */
  function LineEnd(s: string, p: nat): (e: Option<nat>)
    requires p <= |s|
    ensures e.Some? ==> p <= e.value && Crlf(s, e.value)
    decreases |s| - p
  {
    if p + 1 >= |s| then None else if Crlf(s, p) then Some(p) else LineEnd(s, p + 1)
  }

  lemma {:induction false} LineEndIs(s: string, p: nat, e: nat)
    requires p <= e && Crlf(s, e) && forall i | p <= i < e :: !Crlf(s, i)
    ensures LineEnd(s, p) == Some(e)
    decreases e - p
  {
    if p < e { LineEndIs(s, p + 1, e); }
  }

  lemma {:induction false} LineEndIsFirst(s: string, p: nat)
    requires p <= |s|
    ensures LineEnd(s, p).Some? ==> forall i | p <= i < LineEnd(s, p).value :: !Crlf(s, i)
    ensures LineEnd(s, p).None? ==> forall i | p <= i < |s| :: !Crlf(s, i)
    decreases |s| - p
  {
    if p + 1 < |s| && !Crlf(s, p) { LineEndIsFirst(s, p + 1); }
  }

  /** Position of the first occurrence of a character at or after p. */
  function Index(s: string, p: nat, c: char): (i: Option<nat>)
    requires p <= |s|
    ensures i.Some? ==> p <= i.value < |s|
    decreases |s| - p
  {
    if p == |s| then None else if s[p] == c then Some(p) else Index(s, p + 1, c)
  }

  predicate Blank(c: char) { c == ' ' || c == '\t' }

  function TrimLeft(s: string): string {
    if |s| > 0 && Blank(s[0]) then TrimLeft(s[1..]) else s
  }

  function TrimRight(s: string): string {
    if |s| > 0 && Blank(s[|s| - 1]) then TrimRight(s[..|s| - 1]) else s
  }

  function Trim(s: string): string { TrimRight(TrimLeft(s)) }

  function Lower(c: char): char {
    if 'A' <= c <= 'Z' then ((c as int) + 32) as char else c
  }

  predicate SameName(a: string, b: string) {
    |a| == |b| && forall i | 0 <= i < |a| :: Lower(a[i]) == Lower(b[i])
  }

  predicate NameChar(c: char) { 'a' <= c <= 'z' || 'A' <= c <= 'Z' || '0' <= c <= '9' || c == '-' }

  predicate ValueChar(c: char) { (c as int >= 32 || c == '\t') && c as int != 127 }

  predicate PathChar(c: char) { 32 < c as int < 127 }

  predicate PathOk(path: string) { forall i | 0 <= i < |path| :: PathChar(path[i]) }

  predicate Digit(c: char) { '0' <= c <= '9' }

  predicate HexChar(c: char) { '0' <= c <= '9' || 'a' <= c <= 'f' }

  // ---------------------------------------------------------------- the request line

  type Status = code: int | 400 <= code < 600 witness 400

  datatype Line = Bad(code: Status) | Good(post: bool, path: string)

  predicate ImageRoute(path: string) { path == "/image" }

  predicate Route(path: string) { path == "/image" || path == "/save" || path == "/cancel" || path == "/clock" }

  function RequestLine(first: string): Line {
    if |first| > LINE_LIMIT then Bad(400)
    else
      match Index(first, 0, ' ')
      case None => Bad(400)
      case Some(space) =>
        var word := first[..space];
        if word != "GET" && word != "POST" then Bad(405) else Target(word == "POST", first[space + 1..])
  }

  function Target(post: bool, rest: string): Line {
    match Index(rest, 0, ' ')
    case None => Bad(400)
    case Some(last) =>
      var path, version := rest[..last], rest[last + 1..];
      if last == 0 || last > PATH_LIMIT || path[0] != '/' then Bad(400)
      else if version != "HTTP/1.1" && version != "HTTP/1.0" then Bad(400)
      else if !PathOk(path) then Bad(400)
      else if post && !Route(path) then Bad(404)
      else Good(post, path)
  }

  // ---------------------------------------------------------------- the header lines

  datatype Seen = Seen(length: Option<nat>, typed: Option<bool>, nonce: Option<string>, host: bool)
  datatype Fold = Reject(code: Status) | Accept(seen: Seen)
  datatype Number = Wrong(code: Status) | Right(value: nat)

  const NOTHING_SEEN := Seen(None, None, None, false)

  function DigitValue(c: char): nat
    requires Digit(c)
  {
    c as int - '0' as int
  }

  function ParseLength(v: string): Number {
    if |v| == 0 then Right(0)
    else
      match ParseLength(v[..|v| - 1])
      case Wrong(code) => Wrong(code)
      case Right(n) =>
        var c := v[|v| - 1];
        if !Digit(c) then Wrong(400)
        else if n * 10 + DigitValue(c) > IMAGE_LIMIT then Wrong(413)
        else Right(n * 10 + DigitValue(c))
  }

  function MediaType(image: bool): string { if image then "image/jpeg" else "application/json" }

  predicate Nonce(v: string) { |v| == 32 && forall i | 0 <= i < 32 :: HexChar(v[i]) }

  /** The name and trimmed value of a line with a colon. */
  function NameOf(line: string): string {
    match Index(line, 0, ':')
    case None => ""
    case Some(colon) => line[..colon]
  }

  function ValueOf(line: string): string {
    match Index(line, 0, ':')
    case None => ""
    case Some(colon) => Trim(line[colon + 1..])
  }

  predicate NameOk(name: string) { name != "" && forall i | 0 <= i < |name| :: NameChar(name[i]) }

  predicate ValueOk(v: string) { forall i | 0 <= i < |v| :: ValueChar(v[i]) }

  predicate LineOk(line: string) {
    Index(line, 0, ':').Some? && NameOk(NameOf(line)) && ValueOk(ValueOf(line))
  }

  function Length(seen: Seen, v: string): Fold {
    if seen.length.Some? || v == "" then Reject(400)
    else
      match ParseLength(v)
      case Wrong(code) => Reject(code)
      case Right(n) => Accept(seen.(length := Some(n)))
  }

  /** The headers the gate looks at; their names are compared without regard to case. */
  datatype Field = TransferEncoding | Expect | ContentLength | ContentType | ConferenceNonce | Host | Other

  function FieldNamed(name: string): Field {
    if SameName(name, "Transfer-Encoding") then TransferEncoding
    else if SameName(name, "Expect") then Expect
    else if SameName(name, "Content-Length") then ContentLength
    else if SameName(name, "Content-Type") then ContentType
    else if SameName(name, "X-Conference-Nonce") then ConferenceNonce
    else if SameName(name, "Host") then Host
    else Other
  }

  function FieldOf(line: string): Field { FieldNamed(NameOf(line)) }

  /** What one header says, given what the lines before it said. */
  function Told(seen: Seen, field: Field, v: string, image: bool): Fold {
    match field
    case TransferEncoding => Reject(400)
    case Expect => Reject(417)
    case ContentLength => Length(seen, v)
    case ContentType => if seen.typed.Some? then Reject(400) else Accept(seen.(typed := Some(v == MediaType(image))))
    case ConferenceNonce =>
      if seen.nonce.Some? then Reject(400)
      else if !Nonce(v) then Reject(403)
      else Accept(seen.(nonce := Some(v)))
    case Host => if seen.host then Reject(400) else Accept(seen.(host := true))
    case Other => Accept(seen)
  }

  function Header(seen: Seen, line: string, image: bool): Fold {
    if LineOk(line) then Told(seen, FieldOf(line), ValueOf(line), image) else Reject(400)
  }

  /** What reading one more line does to what was learned. */
  type Step = (Seen, string) -> Fold

  function HeaderStep(image: bool): Step { (seen: Seen, line: string) => Header(seen, line, image) }

  function Headers(lines: seq<string>, step: Step): Fold {
    if |lines| == 0 then Accept(NOTHING_SEEN)
    else
      match Headers(lines[..|lines| - 1], step)
      case Reject(code) => Reject(code)
      case Accept(seen) => step(seen, lines[|lines| - 1])
  }

  /** The header block from position p, given what the lines before it said. */
  function Walk(s: string, p: nat, seen: Seen, step: Step): Fold
    requires p <= |s|
    decreases |s| - p
  {
    if p == |s| then Accept(seen)
    else
      match LineEnd(s, p)
      case None => Reject(400)
      case Some(e) =>
        if e == p then if e + 2 == |s| then Accept(seen) else Reject(400)
        else
          var fold := step(seen, s[p..e]);
          if fold.Reject? then fold else Walk(s, e + 2, fold.seen, step)
  }

  function BodyLimit(path: string): nat {
    if ImageRoute(path) then IMAGE_LIMIT else if path == "/clock" then CLOCK_LIMIT else FORM_LIMIT
  }

  function Judge(post: bool, path: string, seen: Seen): (int, Request) {
    var length := if seen.length.Some? then seen.length.value else 0;
    var request := Request(post, path, if seen.nonce.Some? then seen.nonce.value else "", length);
    if !post then if length > 0 then (413, NO_REQUEST) else (0, request)
    else if length == 0 then (411, NO_REQUEST)
    else if length > BodyLimit(path) then (413, NO_REQUEST)
    else if seen.typed != Some(true) then (415, NO_REQUEST)
    else (0, request)
  }

  predicate EndsBlank(s: string) { |s| >= 4 && Crlf(s, |s| - 4) && Crlf(s, |s| - 2) }

  function Finished(post: bool, path: string, fold: Fold): (int, Request) {
    match fold
    case Reject(code) => (code, NO_REQUEST)
    case Accept(seen) => Judge(post, path, seen)
  }

  /** The verdict on a message whose header lines start at p. */
  function Verdict(line: Line, s: string, p: nat): (int, Request)
    requires p <= |s|
  {
    match line
    case Bad(code) => (code, NO_REQUEST)
    case Good(post, path) => Finished(post, path, Walk(s, p, NOTHING_SEEN, HeaderStep(ImageRoute(path))))
  }

  /** The whole decision: a status code, 0 for an accepted request. */
  function Inspected(s: string): (int, Request) {
    if |s| > HEADER_LIMIT then (431, NO_REQUEST)
    else if !EndsBlank(s) then (400, NO_REQUEST)
    else
      match LineEnd(s, 0)
      case None => (400, NO_REQUEST)
      case Some(e) => Verdict(RequestLine(s[..e]), s, e + 2)
  }

  // ---------------------------------------------------------------- what an acceptable header says

  /** The values given for a header, in order. */
  function Values(lines: seq<string>, field: Field): seq<string> {
    if |lines| == 0 then []
    else
      var rest, last := Values(lines[..|lines| - 1], field), lines[|lines| - 1];
      if FieldOf(last) == field then rest + [ValueOf(last)] else rest
  }

  predicate Decimal(v: string) {
    v != "" && forall i | 0 <= i < |v| :: Digit(v[i])
  }

  function ValueOfDecimal(v: string): nat
    requires forall i | 0 <= i < |v| :: Digit(v[i])
  {
    if |v| == 0 then 0 else ValueOfDecimal(v[..|v| - 1]) * 10 + DigitValue(v[|v| - 1])
  }

  predicate LengthOk(v: string) { Decimal(v) && ValueOfDecimal(v) <= IMAGE_LIMIT }

  predicate LinesOk(lines: seq<string>) {
    forall line | line in lines :: LineOk(line)
  }

  /** The header grammar without any order: well-formed lines, no transfer coding or expectation,
      and each of the four headers at most once with a usable value. */
  predicate Acceptable(lines: seq<string>) {
    && LinesOk(lines)
    && Values(lines, TransferEncoding) == [] && Values(lines, Expect) == []
    && |Values(lines, ContentLength)| <= 1 && |Values(lines, ContentType)| <= 1
    && |Values(lines, ConferenceNonce)| <= 1 && |Values(lines, Host)| <= 1
    && (Values(lines, ContentLength) != [] ==> LengthOk(Values(lines, ContentLength)[0]))
    && (Values(lines, ConferenceNonce) != [] ==> Nonce(Values(lines, ConferenceNonce)[0]))
  }

  function Summary(lines: seq<string>, image: bool): Seen
    requires Acceptable(lines)
  {
    var length := Values(lines, ContentLength);
    var typed := Values(lines, ContentType);
    var nonce := Values(lines, ConferenceNonce);
    Seen(if length == [] then None else Some(ValueOfDecimal(length[0])),
         if typed == [] then None else Some(typed[0] == MediaType(image)),
         if nonce == [] then None else Some(nonce[0]),
         Values(lines, Host) != [])
  }

  lemma {:induction false} ParseLengthIsDecimal(v: string)
    ensures ParseLength(v).Right? <==> (forall i | 0 <= i < |v| :: Digit(v[i])) && ValueOfDecimal(v) <= IMAGE_LIMIT
    ensures ParseLength(v).Right? ==> ParseLength(v).value == ValueOfDecimal(v)
  {
    if |v| > 0 {
      var w := v[..|v| - 1];
      ParseLengthIsDecimal(w);
      if forall i | 0 <= i < |v| :: Digit(v[i]) {
        assert forall i | 0 <= i < |w| :: Digit(w[i]) by { assert forall i | 0 <= i < |w| :: w[i] == v[i]; }
      }
    }
  }

  lemma LastLine(init: seq<string>, line: string)
    ensures LinesOk(init + [line]) <==> LinesOk(init) && LineOk(line)
    ensures forall field :: Values(init + [line], field) ==
              Values(init, field) + (if FieldOf(line) == field then [ValueOf(line)] else [])
  {
    assert (init + [line])[..|init|] == init;
    assert line in init + [line];
    assert forall l | l in init :: l in init + [line];
  }

  lemma HeaderAccepted(init: seq<string>, line: string, image: bool)
    requires Acceptable(init)
    ensures Header(Summary(init, image), line, image).Accept? <==> Acceptable(init + [line])
  {
    LastLine(init, line);
    ParseLengthIsDecimal(ValueOf(line));
  }

  lemma HeaderSummed(init: seq<string>, line: string, image: bool)
    requires Acceptable(init) && Acceptable(init + [line]) && Header(Summary(init, image), line, image).Accept?
    ensures Header(Summary(init, image), line, image).seen == Summary(init + [line], image)
  {
    LastLine(init, line);
    ParseLengthIsDecimal(ValueOf(line));
  }

  lemma HeaderAcceptsIff(init: seq<string>, line: string, image: bool)
    requires Acceptable(init)
    ensures Header(Summary(init, image), line, image).Accept? <==> Acceptable(init + [line])
    ensures Acceptable(init + [line]) ==> Header(Summary(init, image), line, image).seen == Summary(init + [line], image)
  {
    HeaderAccepted(init, line, image);
    if Acceptable(init + [line]) { HeaderSummed(init, line, image); }
  }

  /** The order-free grammar is exactly what the line-by-line fold accepts, and what it learns. */
  lemma {:induction false} FoldAcceptsIff(lines: seq<string>, image: bool)
    ensures Headers(lines, HeaderStep(image)).Accept? <==> Acceptable(lines)
    ensures Acceptable(lines) ==> Headers(lines, HeaderStep(image)).seen == Summary(lines, image)
  {
    if |lines| > 0 {
      var init, line := lines[..|lines| - 1], lines[|lines| - 1];
      assert lines == init + [line];
      FoldAcceptsIff(init, image);
      LastLine(init, line);
      if Acceptable(init) { HeaderAcceptsIff(init, line, image); }
    }
  }

  // ---------------------------------------------------------------- messages and their lines

  /** The lines of a header block, each ended by CRLF, and the blank line. */
  function Block(lines: seq<string>): string {
    if |lines| == 0 then CRLF else lines[0] + CRLF + Block(lines[1..])
  }

  function Message(first: string, lines: seq<string>): string { first + CRLF + Block(lines) }

  predicate Separate(lines: seq<string>) {
    forall line | line in lines :: line != "" && NoCrlf(line)
  }

  function FirstOf(s: string): string {
    match LineEnd(s, 0)
    case None => ""
    case Some(e) => s[..e]
  }

  function LinesFrom(s: string, p: nat): seq<string>
    requires p <= |s|
    decreases |s| - p
  {
    match LineEnd(s, p)
    case None => []
    case Some(e) => if e == p then [] else [s[p..e]] + LinesFrom(s, e + 2)
  }

  function LinesOf(s: string): seq<string> {
    match LineEnd(s, 0)
    case None => []
    case Some(e) => LinesFrom(s, e + 2)
  }

  lemma LineEndOfLine(s: string, p: nat, line: string, rest: string)
    requires p <= |s| && s[p..] == line + CRLF + rest && NoCrlf(line)
    ensures LineEnd(s, p) == Some(p + |line|)
    ensures s[p..p + |line|] == line && s[p + |line| + 2..] == rest
  {
    var e := p + |line|;
    assert s[p..][|line|] == '\r' && s[p..][|line| + 1] == '\n';
    assert s[p..e] == line by { assert s[p..][..|line|] == line; }
    assert s[e + 2..] == rest by { assert s[p..][|line| + 2..] == rest; }
    assert Crlf(s, e);
    forall i | p <= i < e
      ensures !Crlf(s, i)
    {
      assert !Crlf(line, i - p);
      assert s[i] == s[p..e][i - p];
      if i + 1 < e { assert s[i + 1] == s[p..e][i + 1 - p]; }
    }
    LineEndIs(s, p, e);
  }

  lemma WalkLine(s: string, p: nat, line: string, rest: string, seen: Seen, step: Step)
    requires p <= |s| && s[p..] == line + CRLF + rest && NoCrlf(line) && line != ""
    ensures s[p + |line| + 2..] == rest
    ensures Walk(s, p, seen, step) ==
              if step(seen, line).Reject? then step(seen, line) else Walk(s, p + |line| + 2, step(seen, line).seen, step)
  {
    LineEndOfLine(s, p, line, rest);
  }

  lemma WalkBlank(s: string, p: nat, seen: Seen, step: Step)
    requires p <= |s| && s[p..] == CRLF
    ensures Walk(s, p, seen, step) == Accept(seen)
  {
    assert s[p..] == "" + CRLF + "";
    LineEndOfLine(s, p, "", "");
  }

  /** Reading a rendered block line by line is folding over the lines. */
  lemma {:induction false} WalkBlock(s: string, p: nat, lines: seq<string>, done: seq<string>, seen: Seen, step: Step)
    requires p <= |s| && s[p..] == Block(lines)
    requires Separate(lines) && Headers(done, step) == Accept(seen)
    ensures Walk(s, p, seen, step) == Headers(done + lines, step)
    decreases |lines|
  {
    if |lines| == 0 {
      assert done + lines == done;
      WalkBlank(s, p, seen, step);
    } else {
      var line, rest := lines[0], lines[1..];
      BlockFirst(lines);
      WalkLine(s, p, line, Block(rest), seen, step);
      HeadersOfNext(done, line, rest, step);
      assert done + [line] + rest == done + lines;
      var fold := step(seen, line);
      if fold.Accept? { WalkBlock(s, p + |line| + 2, rest, done + [line], fold.seen, step); }
    }
  }

  lemma BlockFirst(lines: seq<string>)
    requires |lines| > 0 && Separate(lines)
    ensures Block(lines) == lines[0] + CRLF + Block(lines[1..])
    ensures lines[0] != "" && NoCrlf(lines[0]) && Separate(lines[1..])
  {
    assert lines[0] in lines;
    assert forall line | line in lines[1..] :: line in lines;
  }

  lemma HeadersOfNext(done: seq<string>, line: string, rest: seq<string>, step: Step)
    requires Headers(done, step).Accept?
    ensures Headers(done + [line], step) == step(Headers(done, step).seen, line)
    ensures Headers(done + [line], step).Reject? ==> Headers(done + [line] + rest, step) == Headers(done + [line], step)
  {
    assert (done + [line])[..|done|] == done;
    if Headers(done + [line], step).Reject? { RejectionStays(done + [line], rest, step); }
  }

  lemma {:induction false} RejectionStays(done: seq<string>, more: seq<string>, step: Step)
    requires Headers(done, step).Reject?
    ensures Headers(done + more, step) == Headers(done, step)
  {
    if |more| == 0 {
      assert done + more == done;
    } else {
      assert (done + more)[..|done + more| - 1] == done + more[..|more| - 1];
      RejectionStays(done, more[..|more| - 1], step);
    }
  }

  lemma SplitAt(s: string, p: nat, e: nat)
    requires p <= e && Crlf(s, e)
    ensures s[p..] == s[p..e] + CRLF + s[e + 2..]
  {
  }

  /** Where a line of a message may start: its end is a blank line. */
  predicate Tail(s: string, p: nat) {
    EndsBlank(s) && (p == |s| - 2 || p <= |s| - 4)
  }

  lemma AfterLine(s: string, p: nat)
    requires Tail(s, p)
    ensures LineEnd(s, p).Some? && NoCrlf(s[p..LineEnd(s, p).value])
    ensures LineEnd(s, p) == Some(p) || Tail(s, LineEnd(s, p).value + 2)
  {
    LineEndIsFirst(s, p);
    assert Crlf(s, |s| - 2);
    var e := LineEnd(s, p).value;
    forall i | 0 <= i < e - p
      ensures !Crlf(s[p..e], i)
    {
      assert !Crlf(s, p + i);
    }
  }

  /** An accepted block is the rendering of its lines. */
  lemma {:induction false} AcceptedBlock(s: string, p: nat, seen: Seen, step: Step)
    requires Tail(s, p) && Walk(s, p, seen, step).Accept?
    ensures Rendered(s, p, LinesFrom(s, p))
    decreases |s| - p
  {
    AfterLine(s, p);
    var e := LineEnd(s, p).value;
    if e == p {
      assert s[p..] == CRLF;
    } else {
      AcceptedBlock(s, e + 2, step(seen, s[p..e]).seen, step);
      OneMoreLine(s, p, e, LinesFrom(s, e + 2));
    }
  }

  ghost predicate Rendered(s: string, p: nat, lines: seq<string>)
    requires p <= |s|
  {
    s[p..] == Block(lines) && Separate(lines)
  }

  lemma OneMoreLine(s: string, p: nat, e: nat, lines: seq<string>)
    requires p < e && Crlf(s, e) && NoCrlf(s[p..e]) && Rendered(s, e + 2, lines)
    ensures Rendered(s, p, [s[p..e]] + lines)
  {
    SplitAt(s, p, e);
    FirstOfBlock(s[p..e], lines);
  }

  lemma FirstOfBlock(line: string, lines: seq<string>)
    ensures Block([line] + lines) == line + CRLF + Block(lines)
    ensures line != "" && NoCrlf(line) && Separate(lines) ==> Separate([line] + lines)
  {
    assert ([line] + lines)[1..] == lines;
  }

  // ---------------------------------------------------------------- what acceptance means

  /** The verdict on a request line and header lines. */
  function VerdictOnLines(line: Line, lines: seq<string>): (int, Request) {
    match line
    case Bad(code) => (code, NO_REQUEST)
    case Good(post, path) => Finished(post, path, Headers(lines, HeaderStep(ImageRoute(path))))
  }

  lemma {:induction false} BlockEnds(lines: seq<string>)
    ensures |Block(lines)| >= 2 && Crlf(Block(lines), |Block(lines)| - 2)
    ensures |lines| > 0 ==> EndsBlank(Block(lines))
  {
    if |lines| > 0 { BlockEnds(lines[1..]); }
  }

  lemma MessageEndsBlank(first: string, lines: seq<string>)
    ensures EndsBlank(Message(first, lines))
  {
    BlockEnds(lines);
  }

  /** The verdict on a rendered message is the verdict on its lines. */
  lemma MessageVerdict(first: string, lines: seq<string>)
    requires NoCrlf(first) && Separate(lines) && |Message(first, lines)| <= HEADER_LIMIT
    ensures Inspected(Message(first, lines)) == VerdictOnLines(RequestLine(first), lines)
  {
    var s := Message(first, lines);
    MessageEndsBlank(first, lines);
    assert s[0..] == first + CRLF + Block(lines);
    LineEndOfLine(s, 0, first, Block(lines));
    BlockVerdict(RequestLine(first), s, |first| + 2, lines);
  }

  lemma BlockVerdict(line: Line, s: string, p: nat, lines: seq<string>)
    requires p <= |s| && s[p..] == Block(lines) && Separate(lines)
    ensures Verdict(line, s, p) == VerdictOnLines(line, lines)
  {
    if line.Good? {
      WalkBlock(s, p, lines, [], NOTHING_SEEN, HeaderStep(ImageRoute(line.path)));
      assert [] + lines == lines;
    }
  }

  lemma VerdictAccepts(line: Line, s: string, p: nat)
    requires Tail(s, p) && Verdict(line, s, p).0 == 0
    ensures line.Good? && s[p..] == Block(LinesFrom(s, p)) && Separate(LinesFrom(s, p)) && Acceptable(LinesFrom(s, p))
  {
    var lines := LinesFrom(s, p);
    AcceptedBlock(s, p, NOTHING_SEEN, HeaderStep(ImageRoute(line.path)));
    BlockVerdict(line, s, p, lines);
    FoldAcceptsIff(lines, ImageRoute(line.path));
  }

  lemma RequestLineFacts(first: string)
    ensures RequestLine(first).Good? && RequestLine(first).post ==> Route(RequestLine(first).path)
  {
  }

  /** Every accepted header is the rendering of a request line and of lines in the order-free
      grammar. */
  lemma AcceptedIsMessage(s: string)
    requires Inspected(s).0 == 0
    ensures s == Message(FirstOf(s), LinesOf(s)) && NoCrlf(FirstOf(s)) && Separate(LinesOf(s))
    ensures RequestLine(FirstOf(s)).Good? && Acceptable(LinesOf(s))
  {
    AfterLine(s, 0);
    var e := LineEnd(s, 0).value;
    assert s[0..e] == s[..e];
    VerdictAccepts(RequestLine(s[..e]), s, e + 2);
    SplitMessage(s, e, LinesFrom(s, e + 2));
  }

  lemma SplitMessage(s: string, e: nat, lines: seq<string>)
    requires Crlf(s, e) && s[e + 2..] == Block(lines)
    ensures s == Message(s[..e], lines)
  {
    SplitAt(s, 0, e);
    assert s[0..] == s && s[0..e] == s[..e];
  }

  /** What an accepted request promises its handler: the path and method of the request line, at most
      one Content-Length, whose decimal value is the body length, positive and within the limit of the
      route for a POST with the right media type, and zero for a GET; and a well-formed nonce if any. */
  ghost predicate Promises(line: Line, lines: seq<string>, r: Request) {
    var lengths := Values(lines, ContentLength);
    && line == Good(r.post, r.path)
    && Values(lines, TransferEncoding) == [] && |lengths| <= 1
    && (lengths == [] ==> r.bodyLength == 0)
    && (lengths != [] ==> Decimal(lengths[0]) && ValueOfDecimal(lengths[0]) == r.bodyLength)
    && (r.post ==> |lengths| == 1 && 0 < r.bodyLength <= BodyLimit(r.path)
                   && Values(lines, ContentType) == [MediaType(ImageRoute(r.path))])
    && (!r.post ==> r.bodyLength == 0)
    && (r.nonce == "" || Nonce(r.nonce))
    && Values(lines, ConferenceNonce) == (if r.nonce == "" then [] else [r.nonce])
  }

  lemma LinesPromise(line: Line, lines: seq<string>)
    requires line.Good? && Acceptable(lines) && VerdictOnLines(line, lines).0 == 0
    ensures Promises(line, lines, VerdictOnLines(line, lines).1)
  {
    FoldAcceptsIff(lines, ImageRoute(line.path));
  }

  lemma AcceptanceMeans(s: string)
    requires Inspected(s).0 == 0
    ensures Promises(RequestLine(FirstOf(s)), LinesOf(s), Inspected(s).1)
    ensures Inspected(s).1.post ==> Route(Inspected(s).1.path)
  {
    AcceptedIsMessage(s);
    MessageVerdict(FirstOf(s), LinesOf(s));
    LinesPromise(RequestLine(FirstOf(s)), LinesOf(s));
    RequestLineFacts(FirstOf(s));
  }

  /** The request that a request line and acceptable lines stand for, and the conditions on it. */
  predicate Suits(lines: seq<string>, r: Request)
    requires Acceptable(lines)
  {
    var lengths, nonces := Values(lines, ContentLength), Values(lines, ConferenceNonce);
    && r.bodyLength == (if lengths == [] then 0 else ValueOfDecimal(lengths[0]))
    && r.nonce == (if nonces == [] then "" else nonces[0])
    && (if r.post then
          0 < r.bodyLength <= BodyLimit(r.path) && Values(lines, ContentType) == [MediaType(ImageRoute(r.path))]
        else r.bodyLength == 0)
  }

  lemma JudgedIff(line: Line, lines: seq<string>, r: Request)
    ensures VerdictOnLines(line, lines) == (0, r) <==>
              line == Good(r.post, r.path) && Acceptable(lines) && Suits(lines, r)
  {
    if line.Good? {
      FoldAcceptsIff(lines, ImageRoute(line.path));
    }
  }

  /** The whole decision on any message: it is accepted as request r if and only if its request line
      is good, its lines are in the order-free grammar, and length, limit and media type suit. */
  lemma AcceptedIff(first: string, lines: seq<string>, r: Request)
    requires NoCrlf(first) && Separate(lines)
    ensures Inspected(Message(first, lines)) == (0, r) <==>
              && |Message(first, lines)| <= HEADER_LIMIT
              && RequestLine(first) == Good(r.post, r.path) && Acceptable(lines) && Suits(lines, r)
  {
    if |Message(first, lines)| <= HEADER_LIMIT {
      MessageVerdict(first, lines);
      JudgedIff(RequestLine(first), lines, r);
    }
  }

  // ---------------------------------------------------------------- order of the header lines

  lemma {:induction false} ValuesOfConcat(a: seq<string>, b: seq<string>, field: Field)
    ensures Values(a + b, field) == Values(a, field) + Values(b, field)
  {
    if |b| == 0 {
      assert a + b == a;
    } else {
      assert (a + b)[..|a + b| - 1] == a + b[..|b| - 1];
      ValuesOfConcat(a, b[..|b| - 1], field);
    }
  }

  lemma {:induction false} SizeOfConcat(a: seq<string>, b: seq<string>)
    ensures |Block(a + b)| + 2 == |Block(a)| + |Block(b)|
  {
    if |a| == 0 {
      assert a + b == b;
    } else {
      assert (a + b)[1..] == a[1..] + b;
      SizeOfConcat(a[1..], b);
    }
  }

  lemma SameMembers(a: seq<string>, b: seq<string>)
    requires multiset(a) == multiset(b)
    ensures forall line | line in a :: line in b
    ensures forall line | line in b :: line in a
  {
    forall line | line in a ensures line in b { assert line in multiset(b); }
    forall line | line in b ensures line in a { assert line in multiset(a); }
  }

  lemma SplitSeq(b: seq<string>, k: nat)
    requires k < |b|
    ensures b == b[..k] + [b[k]] + b[k + 1..]
  {
  }

  lemma Removed(a: seq<string>, init: seq<string>, line: string, b: seq<string>, before: seq<string>, after: seq<string>)
    requires multiset(a) == multiset(b) && a == init + [line] && b == before + [line] + after
    ensures multiset(init) == multiset(before + after)
  {
    assert multiset(a) == multiset(init) + multiset{line};
    assert multiset(b) == multiset(before) + multiset{line} + multiset(after);
    assert multiset(before + after) == multiset(before) + multiset(after);
    assert multiset(init) == multiset(a) - multiset{line};
  }

  /** Reordering lines keeps the values given for each header and the size of the block. */
  lemma {:induction false} Reordered(a: seq<string>, b: seq<string>, field: Field)
    requires multiset(a) == multiset(b)
    ensures multiset(Values(a, field)) == multiset(Values(b, field)) && |Block(a)| == |Block(b)|
    decreases |a|
  {
    assert |a| == |multiset(a)| == |multiset(b)| == |b|;
    if |a| > 0 {
      var init, line := a[..|a| - 1], a[|a| - 1];
      assert a == init + [line];
      SameMembers(a, b);
      assert line in a;
      var k: nat :| k < |b| && b[k] == line;
      var before, after := b[..k], b[k + 1..];
      SplitSeq(b, k);
      Removed(a, init, line, b, before, after);
      Reordered(init, before + after, field);
      Around(before, line, after, field);
      Around(init, line, [], field);
      assert init + [line] + [] == a && init + [] == init;
    }
  }

  /** Inserting a line adds its value and its size wherever it is inserted. */
  lemma Around(before: seq<string>, line: string, after: seq<string>, field: Field)
    ensures multiset(Values(before + [line] + after, field)) ==
              multiset(Values(before + after, field)) + multiset(Values([line], field))
    ensures |Block(before + [line] + after)| == |Block(before + after)| + |line| + 2
  {
    ValuesOfConcat(before + [line], after, field);
    ValuesOfConcat(before, [line], field);
    ValuesOfConcat(before, after, field);
    SizeOfConcat(before + [line], after);
    SizeOfConcat(before, [line]);
    SizeOfConcat(before, after);
  }

  lemma ShortMultisets(a: seq<string>, b: seq<string>)
    requires multiset(a) == multiset(b) && |a| <= 1
    ensures a == b
  {
    assert |a| == |multiset(a)| == |multiset(b)| == |b|;
    if |a| == 1 { assert a[0] in multiset(b); }
  }

  lemma SameAcceptance(a: seq<string>, b: seq<string>, image: bool)
    requires multiset(a) == multiset(b) && Acceptable(a)
    ensures Acceptable(b) && Summary(a, image) == Summary(b, image)
  {
    forall field: Field | field != Other
      ensures Values(a, field) == Values(b, field)
    {
      Reordered(a, b, field);
      ShortMultisets(Values(a, field), Values(b, field));
    }
    SameMembers(a, b);
  }

  lemma VerdictIgnoresOrder(line: Line, a: seq<string>, b: seq<string>)
    requires multiset(a) == multiset(b)
    ensures VerdictOnLines(line, a).0 == 0 ==> VerdictOnLines(line, a) == VerdictOnLines(line, b)
  {
    if line.Good? {
      FoldAcceptsIff(a, ImageRoute(line.path));
      FoldAcceptsIff(b, ImageRoute(line.path));
      if Acceptable(a) { SameAcceptance(a, b, ImageRoute(line.path)); }
    }
  }

  /** Whatever the order of its header lines, a request is accepted or refused alike, and when
      accepted it is read as the same request. */
  lemma OrderDoesNotMatter(first: string, a: seq<string>, b: seq<string>)
    requires NoCrlf(first) && Separate(a) && multiset(a) == multiset(b)
    ensures Inspected(Message(first, a)).0 == 0 <==> Inspected(Message(first, b)).0 == 0
    ensures Inspected(Message(first, a)).0 == 0 ==> Inspected(Message(first, a)) == Inspected(Message(first, b))
  {
    SameMembers(a, b);
    Reordered(a, b, Other);
    if |Message(first, a)| <= HEADER_LIMIT {
      MessageVerdict(first, a);
      MessageVerdict(first, b);
      VerdictIgnoresOrder(RequestLine(first), a, b);
      VerdictIgnoresOrder(RequestLine(first), b, a);
    }
  }

  // ---------------------------------------------------------------- rendering a request

  function Printed(n: nat): string {
    if n < 10 then [('0' as int + n) as char] else Printed(n / 10) + [('0' as int + n % 10) as char]
  }

  lemma {:induction false} PrintedIsDecimal(n: nat)
    ensures Decimal(Printed(n)) && ValueOfDecimal(Printed(n)) == n
  {
    if n >= 10 {
      PrintedIsDecimal(n / 10);
      var v := Printed(n);
      assert v[..|v| - 1] == Printed(n / 10);
    } else {
      assert Printed(n)[..0] == [];
    }
  }

  /** A value that survives trimming and the character check. */
  predicate PlainValue(v: string) {
    && ValueOk(v)
    && (v != "" ==> !Blank(v[0]) && !Blank(v[|v| - 1]))
  }

  function HeaderText(name: string, value: string): string { name + ": " + value }

  lemma {:induction false} IndexIs(s: string, p: nat, i: nat, c: char)
    requires p <= i < |s| && s[i] == c && forall k | p <= k < i :: s[k] != c
    ensures Index(s, p, c) == Some(i)
    decreases i - p
  {
    if p < i { IndexIs(s, p + 1, i, c); }
  }

  lemma IndexAfter(name: string, c: char, rest: string)
    requires c !in name
    ensures Index(name + [c] + rest, 0, c) == Some(|name|)
    ensures (name + [c] + rest)[..|name|] == name && (name + [c] + rest)[|name| + 1..] == rest
  {
    var s := name + [c] + rest;
    assert forall k | 0 <= k < |name| :: s[k] == name[k];
    IndexIs(s, 0, |name|, c);
  }

  lemma NoReturnNoCrlf(s: string)
    requires '\r' !in s
    ensures NoCrlf(s)
  {
  }

  lemma HeaderTextReads(name: string, value: string)
    requires NameOk(name) && PlainValue(value)
    ensures var line := HeaderText(name, value);
            NameOf(line) == name && ValueOf(line) == value && LineOk(line) && line != "" && NoCrlf(line)
  {
    var line := HeaderText(name, value);
    assert line == name + [':'] + (" " + value);
    IndexAfter(name, ':', " " + value);
    assert line[..|name|] == name && line[|name| + 1..] == " " + value;
    assert (" " + value)[1..] == value;
    assert TrimLeft(" " + value) == TrimLeft(value) == value;
    assert TrimRight(value) == value;
    assert '\r' !in line by {
      assert forall c | c in name :: NameChar(c);
      assert forall c | c in value :: ValueChar(c);
    }
    NoReturnNoCrlf(line);
  }

  predicate ValidRequest(r: Request) {
    && 0 < |r.path| <= PATH_LIMIT && r.path[0] == '/' && PathOk(r.path)
    && (r.nonce == "" || Nonce(r.nonce))
    && (if r.post then Route(r.path) && 0 < r.bodyLength <= BodyLimit(r.path) else r.bodyLength == 0)
  }

  function RequestText(r: Request): string {
    (if r.post then "POST" else "GET") + [' '] + (r.path + [' '] + "HTTP/1.1")
  }

  /** The header lines that a request cannot do without. */
  function BodyLines(r: Request): seq<string> {
    if !r.post then []
    else [HeaderText("Content-Length", Printed(r.bodyLength)), HeaderText("Content-Type", MediaType(ImageRoute(r.path)))]
  }

  function NonceLines(r: Request): seq<string> {
    if r.nonce == "" then [] else [HeaderText("X-Conference-Nonce", r.nonce)]
  }

  function NeededLines(r: Request): seq<string> { BodyLines(r) + NonceLines(r) }

  /** Lines that a client may add: any well-formed headers of other names, and at most one Host. */
  predicate Harmless(extra: seq<string>) {
    && (forall line | line in extra :: LineOk(line) && NoCrlf(line) && FieldOf(line) in {Other, Host})
    && |Values(extra, Host)| <= 1
  }

  lemma TargetReads(post: bool, path: string)
    requires 0 < |path| <= PATH_LIMIT && path[0] == '/' && PathOk(path) && (post ==> Route(path))
    ensures Target(post, path + [' '] + "HTTP/1.1") == Good(post, path)
  {
    var rest := path + [' '] + "HTTP/1.1";
    assert ' ' !in path by { assert forall c | c in path :: PathChar(c); }
    IndexAfter(path, ' ', "HTTP/1.1");
    assert rest[..|path|] == path && rest[|path| + 1..] == "HTTP/1.1";
  }

  lemma WordReads(word: string, rest: string)
    requires word == "GET" || word == "POST"
    requires |rest| <= LINE_LIMIT - 5
    ensures RequestLine(word + [' '] + rest) == Target(word == "POST", rest)
  {
    var first := word + [' '] + rest;
    IndexAfter(word, ' ', rest);
    assert first[..|word|] == word && first[|word| + 1..] == rest;
  }

  lemma RequestTextIsOneLine(r: Request)
    requires PathOk(r.path)
    ensures NoCrlf(RequestText(r))
  {
    assert '\r' !in r.path by { assert forall c | c in r.path :: PathChar(c); }
    NoReturnNoCrlf(RequestText(r));
  }

  lemma RequestTextReads(r: Request)
    requires ValidRequest(r)
    ensures RequestLine(RequestText(r)) == Good(r.post, r.path) && NoCrlf(RequestText(r))
  {
    TargetReads(r.post, r.path);
    if r.post {
      WordReads("POST", r.path + [' '] + "HTTP/1.1");
    } else {
      WordReads("GET", r.path + [' '] + "HTTP/1.1");
    }
    RequestTextIsOneLine(r);
  }

  lemma DecimalIsPlain(n: nat)
    ensures PlainValue(Printed(n))
  {
    PrintedIsDecimal(n);
    assert forall i | 0 <= i < |Printed(n)| :: Digit(Printed(n)[i]);
  }

  lemma NonceIsPlain(nonce: string)
    requires Nonce(nonce)
    ensures PlainValue(nonce)
  {
    assert forall i | 0 <= i < |nonce| :: HexChar(nonce[i]);
  }

  lemma ValuesOfOne(line: string, field: Field)
    ensures Values([line], field) == if FieldOf(line) == field then [ValueOf(line)] else []
  {
    assert [line][..0] == [];
  }

  lemma ValuesOfTwo(a: string, b: string, field: Field)
    ensures Values([a, b], field) == Values([a], field) + Values([b], field)
  {
    assert [a, b] == [a] + [b];
    ValuesOfConcat([a], [b], field);
  }

  ghost predicate Reads(line: string, field: Field, value: string) {
    FieldOf(line) == field && ValueOf(line) == value && LineOk(line) && line != "" && NoCrlf(line)
  }

  lemma KnownHeaderReads(name: string, field: Field, value: string)
    requires NameOk(name) && FieldNamed(name) == field && PlainValue(value)
    ensures Reads(HeaderText(name, value), field, value)
  {
    HeaderTextReads(name, value);
  }

  lemma LengthReads(n: nat)
    ensures Reads(HeaderText("Content-Length", Printed(n)), ContentLength, Printed(n))
  {
    DecimalIsPlain(n);
    KnownHeaderReads("Content-Length", ContentLength, Printed(n));
  }

  lemma TypeReads(image: bool)
    ensures Reads(HeaderText("Content-Type", MediaType(image)), ContentType, MediaType(image))
  {
    KnownHeaderReads("Content-Type", ContentType, MediaType(image));
  }

  lemma NonceReads(nonce: string)
    requires Nonce(nonce)
    ensures Reads(HeaderText("X-Conference-Nonce", nonce), ConferenceNonce, nonce)
  {
    NonceIsPlain(nonce);
    KnownHeaderReads("X-Conference-Nonce", ConferenceNonce, nonce);
  }

  lemma BodyLinesSay(r: Request, field: Field)
    requires r.post
    ensures LinesOk(BodyLines(r)) && Separate(BodyLines(r))
    ensures Values(BodyLines(r), field) ==
              if field == ContentLength then [Printed(r.bodyLength)]
              else if field == ContentType then [MediaType(ImageRoute(r.path))] else []
  {
    var lines := BodyLines(r);
    LengthReads(r.bodyLength);
    TypeReads(ImageRoute(r.path));
    ValuesOfTwo(lines[0], lines[1], field);
    ValuesOfOne(lines[0], field);
    ValuesOfOne(lines[1], field);
  }

  lemma NonceLinesSay(r: Request, field: Field)
    requires r.nonce == "" || Nonce(r.nonce)
    ensures LinesOk(NonceLines(r)) && Separate(NonceLines(r))
    ensures Values(NonceLines(r), field) == if field == ConferenceNonce && r.nonce != "" then [r.nonce] else []
  {
    if r.nonce != "" {
      NonceReads(r.nonce);
      ValuesOfOne(NonceLines(r)[0], field);
    }
  }

  lemma {:induction false} HarmlessSaysNothing(extra: seq<string>, field: Field)
    requires forall line | line in extra :: FieldOf(line) in {Other, Host}
    requires field !in {Other, Host}
    ensures Values(extra, field) == []
  {
    if |extra| > 0 {
      HarmlessSaysNothing(extra[..|extra| - 1], field);
      assert extra[|extra| - 1] in extra;
    }
  }

  /** What the needed lines and any harmless ones say together about one header. */
  lemma TogetherSay(r: Request, extra: seq<string>, field: Field)
    requires ValidRequest(r) && Harmless(extra)
    ensures var lines := NeededLines(r) + extra;
            && LinesOk(lines) && Separate(lines)
            && Values(lines, field) == Values(BodyLines(r), field) + Values(NonceLines(r), field) + Values(extra, field)
            && (field !in {Other, Host} ==> Values(extra, field) == [])
  {
    ValuesOfConcat(NeededLines(r), extra, field);
    ValuesOfConcat(BodyLines(r), NonceLines(r), field);
    if r.post { BodyLinesSay(r, field); }
    NonceLinesSay(r, field);
    if field !in {Other, Host} { HarmlessSaysNothing(extra, field); }
  }

  /** The values of the headers that the gate acts on. */
  function Said(r: Request, field: Field): seq<string> {
    if field == ContentLength && r.post then [Printed(r.bodyLength)]
    else if field == ContentType && r.post then [MediaType(ImageRoute(r.path))]
    else if field == ConferenceNonce && r.nonce != "" then [r.nonce]
    else []
  }

  lemma TogetherSuit(r: Request, extra: seq<string>)
    requires ValidRequest(r) && Harmless(extra)
    ensures Acceptable(NeededLines(r) + extra) && Suits(NeededLines(r) + extra, r)
  {
    TogetherSaid(r, extra, TransferEncoding);
    TogetherSaid(r, extra, Expect);
    TogetherSaid(r, extra, ContentLength);
    TogetherSaid(r, extra, ContentType);
    TogetherSaid(r, extra, ConferenceNonce);
    TogetherSaid(r, extra, Host);
    SaidSuits(r, NeededLines(r) + extra);
  }

  /** These are the values the gate asks for. */
  lemma SaidSuits(r: Request, lines: seq<string>)
    requires ValidRequest(r) && LinesOk(lines) && |Values(lines, Host)| <= 1
    requires Values(lines, TransferEncoding) == Said(r, TransferEncoding) && Values(lines, Expect) == Said(r, Expect)
    requires Values(lines, ContentLength) == Said(r, ContentLength) && Values(lines, ContentType) == Said(r, ContentType)
    requires Values(lines, ConferenceNonce) == Said(r, ConferenceNonce)
    ensures Acceptable(lines) && Suits(lines, r)
  {
    PrintedIsDecimal(r.bodyLength);
  }

  lemma TogetherSaid(r: Request, extra: seq<string>, field: Field)
    requires ValidRequest(r) && Harmless(extra)
    ensures var lines := NeededLines(r) + extra;
            && LinesOk(lines)
            && (field == Host ==> |Values(lines, field)| <= 1)
            && (field !in {Other, Host} ==> Values(lines, field) == Said(r, field))
  {
    TogetherSay(r, extra, field);
    if r.post { BodyLinesSay(r, field); }
    NonceLinesSay(r, field);
  }

  /** Rendering a valid request with whatever harmless headers, in any order, and inspecting it gives
      back the method, path, nonce and length. */
  lemma RenderedRequestIsRecovered(r: Request, extra: seq<string>, lines: seq<string>)
    requires ValidRequest(r) && Harmless(extra)
    requires multiset(lines) == multiset(NeededLines(r) + extra)
    requires |Message(RequestText(r), lines)| <= HEADER_LIMIT
    ensures Inspected(Message(RequestText(r), lines)) == (0, r)
  {
    var ordered := NeededLines(r) + extra;
    TogetherSuit(r, extra);
    TogetherSay(r, extra, Other);
    RequestTextReads(r);
    SameMembers(lines, ordered);
    JudgedIff(Good(r.post, r.path), ordered, r);
    VerdictIgnoresOrder(Good(r.post, r.path), ordered, lines);
    MessageVerdict(RequestText(r), lines);
  }

  // ---------------------------------------------------------------- the loops of inspect

  /** lineEnd: the position of the first CRLF at or after begin. */
  method FindCrlf(s: string, begin: nat) returns (e: Option<nat>)
    requires begin <= |s|
    ensures e == LineEnd(s, begin)
  {
    var p := begin;
    while p + 1 < |s|
      invariant begin <= p <= |s|
      invariant LineEnd(s, begin) == LineEnd(s, p)
    {
      if s[p] == '\r' && s[p + 1] == '\n' { return Some(p); }
      p := p + 1;
    }
    e := None;
  }

  /** memchr over one line. */
  method FindChar(s: string, c: char) returns (i: Option<nat>)
    ensures i == Index(s, 0, c)
  {
    var p := 0;
    while p < |s|
      invariant p <= |s|
      invariant Index(s, 0, c) == Index(s, p, c)
    {
      if s[p] == c { return Some(p); }
      p := p + 1;
    }
    i := None;
  }

  lemma SliceLess(s: string, i: nat, j: nat)
    requires i < j <= |s|
    ensures s[i..j][..j - i - 1] == s[i..j - 1] && s[i..j][j - i - 1] == s[j - 1]
  {
  }

  /** The value between the colon and the end of the line, blanks moved off from both sides. */
  method TrimBlanks(s: string) returns (v: string)
    ensures v == Trim(s)
  {
    var value, tail := 0, |s|;
    while value < tail && Blank(s[value])
      invariant value <= tail == |s|
      invariant TrimLeft(s) == TrimLeft(s[value..])
    {
      assert s[value..][1..] == s[value + 1..];
      value := value + 1;
    }
    assert TrimLeft(s) == s[value..] == s[value..tail];
    while tail > value && Blank(s[tail - 1])
      invariant value <= tail <= |s|
      invariant TrimRight(s[value..]) == TrimRight(s[value..tail])
    {
      SliceLess(s, value, tail);
      tail := tail - 1;
    }
    v := s[value..tail];
  }

  lemma {:induction false} ParsePrefix(v: string, k: nat)
    requires k <= |v| && ParseLength(v[..k]).Wrong?
    ensures ParseLength(v) == ParseLength(v[..k])
  {
    if k < |v| {
      assert v[..|v| - 1][..k] == v[..k];
      ParsePrefix(v[..|v| - 1], k);
    } else {
      assert v[..k] == v;
    }
  }

  /** The decimal loop; it stops before the number could leave 32 bits. */
  method ReadLength(v: string) returns (n: Number)
    ensures n == ParseLength(v)
  {
    var total: nat := 0;
    for i := 0 to |v|
      invariant ParseLength(v[..i]) == Right(total)
    {
      assert v[..i + 1][..i] == v[..i];
      if !Digit(v[i]) {
        ParsePrefix(v, i + 1);
        return Wrong(400);
      }
      total := total * 10 + DigitValue(v[i]);
      if total > IMAGE_LIMIT {
        ParsePrefix(v, i + 1);
        return Wrong(413);
      }
    }
    assert v[..|v|] == v;
    n := Right(total);
  }

  method ReadTold(seen: Seen, field: Field, v: string, image: bool) returns (fold: Fold)
    ensures fold == Told(seen, field, v, image)
  {
    match field {
      case TransferEncoding => return Reject(400);
      case Expect => return Reject(417);
      case ContentLength =>
        if seen.length.Some? || v == "" { return Reject(400); }
        var length := ReadLength(v);
        return if length.Wrong? then Reject(length.code) else Accept(seen.(length := Some(length.value)));
      case ContentType =>
        if seen.typed.Some? { return Reject(400); }
        return Accept(seen.(typed := Some(v == MediaType(image))));
      case ConferenceNonce =>
        if seen.nonce.Some? { return Reject(400); }
        if !Nonce(v) { return Reject(403); }
        return Accept(seen.(nonce := Some(v)));
      case Host => return if seen.host then Reject(400) else Accept(seen.(host := true));
      case Other => return Accept(seen);
    }
  }

  ghost predicate Steps(step: Step, image: bool) {
    forall seen, line {:trigger Header(seen, line, image)} :: step(seen, line) == Header(seen, line, image)
  }

  method ReadHeader(seen: Seen, line: string, image: bool, ghost step: Step) returns (fold: Fold)
    requires Steps(step, image)
    ensures fold == step(seen, line)
  {
    assert step(seen, line) == Header(seen, line, image);
    var colon := FindChar(line, ':');
    if colon.None? { return Reject(400); }
    var name := line[..colon.value];
    if !NameOk(name) { return Reject(400); }
    var v := TrimBlanks(line[colon.value + 1..]);
    if !ValueOk(v) { return Reject(400); }
    fold := ReadTold(seen, FieldNamed(name), v, image);
  }

  /** The loop over the header lines. */
  method ReadHeaders(bytes: string, begin: nat, image: bool, ghost step: Step) returns (fold: Fold)
    requires begin <= |bytes| && Steps(step, image)
    ensures fold == Walk(bytes, begin, NOTHING_SEEN, step)
  {
    var line, seen := begin, NOTHING_SEEN;
    while line < |bytes|
      invariant begin <= line <= |bytes|
      invariant Walk(bytes, begin, NOTHING_SEEN, step) == Walk(bytes, line, seen, step)
      decreases |bytes| - line
    {
      var finish := FindCrlf(bytes, line);
      if finish.None? { return Reject(400); }
      if finish.value == line { return if line + 2 == |bytes| then Accept(seen) else Reject(400); }
      fold := ReadHeader(seen, bytes[line..finish.value], image, step);
      if fold.Reject? { return; }
      seen, line := fold.seen, finish.value + 2;
    }
    fold := Accept(seen);
  }

  method Inspect(bytes: string) returns (code: int, request: Request)
    ensures (code, request) == Inspected(bytes)
  {
    if |bytes| > HEADER_LIMIT { return 431, NO_REQUEST; }
    if !EndsBlank(bytes) { return 400, NO_REQUEST; }
    var first := FindCrlf(bytes, 0);
    if first.None? { return 400, NO_REQUEST; }
    var line := ReadRequestLine(bytes[..first.value]);
    if line.Bad? { return line.code, NO_REQUEST; }
    var fold := ReadHeaders(bytes, first.value + 2, ImageRoute(line.path), HeaderStep(ImageRoute(line.path)));
    var verdict := Finished(line.post, line.path, fold);
    return verdict.0, verdict.1;
  }

  method ReadRequestLine(first: string) returns (line: Line)
    ensures line == RequestLine(first)
  {
    if |first| > LINE_LIMIT { return Bad(400); }
    var space := FindChar(first, ' ');
    if space.None? { return Bad(400); }
    var word := first[..space.value];
    if word != "GET" && word != "POST" { return Bad(405); }
    line := ReadTarget(word == "POST", first[space.value + 1..]);
  }

  method ReadTarget(post: bool, rest: string) returns (line: Line)
    ensures line == Target(post, rest)
  {
    var last := FindChar(rest, ' ');
    if last.None? { return Bad(400); }
    var path, version := rest[..last.value], rest[last.value + 1..];
    if last.value == 0 || last.value > PATH_LIMIT || path[0] != '/' { return Bad(400); }
    if version != "HTTP/1.1" && version != "HTTP/1.0" { return Bad(400); }
    for p := 0 to |path|
      invariant forall i | 0 <= i < p :: PathChar(path[i])
    {
      if !PathChar(path[p]) { return Bad(400); }
    }
    if post && !Route(path) { return Bad(404); }
    line := Good(post, path);
  }
}
