/** firmware/devices_badge/voice_reply_ui.h: how a reply is escaped, wrapped and paged for
    review.  `NextToken` and `ScanText` work as the source does, on offsets and one line
    buffer; the functions before them say what comes out. */
module ReplyText {
  newtype byte = x: int | 0 <= x < 256

  const COLUMNS := 30
  const LINES := 6
  const MAX_TEXT_BYTES := 8192

  // ---------------------------------------------------------------- tokens

  predicate Tail(b: byte) { 0x80 <= b <= 0xBF }

  /** The multi-byte forms of section 4 of RFC 3629. */
  predicate WellFormed(s: seq<byte>) {
    || (|s| == 2 && 0xC2 <= s[0] <= 0xDF && Tail(s[1]))
    || (|s| == 3 && s[0] == 0xE0 && 0xA0 <= s[1] <= 0xBF && Tail(s[2]))
    || (|s| == 3 && (0xE1 <= s[0] <= 0xEC || 0xEE <= s[0] <= 0xEF) && Tail(s[1]) && Tail(s[2]))
    || (|s| == 3 && s[0] == 0xED && 0x80 <= s[1] <= 0x9F && Tail(s[2]))
    || (|s| == 4 && s[0] == 0xF0 && 0x90 <= s[1] <= 0xBF && Tail(s[2]) && Tail(s[3]))
    || (|s| == 4 && 0xF1 <= s[0] <= 0xF3 && Tail(s[1]) && Tail(s[2]) && Tail(s[3]))
    || (|s| == 4 && s[0] == 0xF4 && 0x80 <= s[1] <= 0x8F && Tail(s[2]) && Tail(s[3]))
  }

  /** The code point a well-formed run stands for (section 3 of RFC 3629). */
  function CodePoint(s: seq<byte>): (point: nat)
    requires WellFormed(s)
    ensures 0x80 <= point <= 0x10FFFF && !(0xD800 <= point <= 0xDFFF)
  {
    if |s| == 2 then (s[0] as nat - 0xC0) * 0x40 + (s[1] as nat - 0x80)
    else if |s| == 3 then (s[0] as nat - 0xE0) * 0x1000 + (s[1] as nat - 0x80) * 0x40 + (s[2] as nat - 0x80)
    else (s[0] as nat - 0xF0) * 0x40000 + (s[1] as nat - 0x80) * 0x1000 + (s[2] as nat - 0x80) * 0x40 + (s[3] as nat - 0x80)
  }

  predicate RunAt(text: seq<byte>, at: nat, length: nat) {
    at + length <= |text| && WellFormed(text[at..at + length])
  }

  function HexDigit(n: nat): char
    requires n < 16
  {
    "0123456789ABCDEF"[n]
  }

  /** printf's %0*X with a minimum width. */
  function Hex(n: nat, width: nat): string
    decreases n + width
  {
    if n == 0 && width == 0 then ""
    else Hex(n / 16, if width == 0 then 0 else width - 1) + [HexDigit(n % 16)]
  }

  function CodePointToken(point: nat): string { "[U+" + Hex(point, 4) + "]" }

  function ByteToken(b: byte): string { "[0x" + Hex(b as nat, 2) + "]" }

  predicate Plain(b: byte) { 32 <= b <= 126 || b == 10 }

  datatype Step = Step(token: string, next: nat, escaped: bool)

  /** What the reader sees for the bytes at an offset: printable ASCII and newlines as they are,
      CR LF as one newline, a well-formed run as its code point, anything else byte by byte. */
  function Token(text: seq<byte>, at: nat): (step: Step)
    requires at < |text|
    ensures at < step.next <= |text| && 0 < |step.token| <= 11
  {
    var lead := text[at];
    HexLength(lead as nat, 2);
    if Plain(lead) then Step([lead as char], at + 1, false)
    else if lead == 13 && at + 1 < |text| && text[at + 1] == 10 then Step("\n", at + 2, false)
    else if RunAt(text, at, 2) then Run(text, at, 2)
    else if RunAt(text, at, 3) then Run(text, at, 3)
    else if RunAt(text, at, 4) then Run(text, at, 4)
    else Step(ByteToken(lead), at + 1, true)
  }

  function Run(text: seq<byte>, at: nat, length: nat): (step: Step)
    requires 0 < length && RunAt(text, at, length)
    ensures step.next == at + length && 0 < |step.token| <= 11
  {
    var point := CodePoint(text[at..at + length]);
    HexLength(point, 4);
    Step(CodePointToken(point), at + length, true)
  }

  function MaxWidth(n: nat, width: nat): nat {
    var digits := if n < 16 then 1 else if n < 256 then 2 else if n < 4096 then 3
                  else if n < 65536 then 4 else if n < 1048576 then 5 else 6;
    if digits < width then width else digits
  }

  lemma HexLength(n: nat, width: nat)
    requires n <= 0x10FFFF && 0 < width
    ensures |Hex(n, width)| == MaxWidth(n, width)
    decreases n + width
  {
    if n < 16 && width == 1 {
      assert Hex(n / 16, 0) == "";
    } else if width == 1 {
      assert Hex(n / 16, 0) == Hex(n / 16, 1);
      HexLength(n / 16, 1);
    } else {
      HexLength(n / 16, width - 1);
    }
  }

  function HexValue(s: string): int
  {
    if |s| == 0 then 0
    else
      var c := s[|s| - 1];
      16 * HexValue(s[..|s| - 1]) + if '0' <= c <= '9' then c as int - '0' as int else c as int - 'A' as int + 10
  }

  /** The printed number determines the code point, so distinct characters stay distinct. */
  lemma {:induction false} HexReads(n: nat, width: nat)
    ensures HexValue(Hex(n, width)) == n
    decreases n + width
  {
    if !(n == 0 && width == 0) {
      var rest := Hex(n / 16, if width == 0 then 0 else width - 1);
      HexReads(n / 16, if width == 0 then 0 else width - 1);
      assert Hex(n, width)[..|rest|] == rest;
    }
  }

  /** At most one length can be well formed at an offset: the lead byte fixes it. */
  lemma RunLengthUnique(text: seq<byte>, at: nat, m: nat, n: nat)
    requires RunAt(text, at, m) && RunAt(text, at, n)
    ensures m == n
  {
    assert text[at..at + m][0] == text[at] == text[at..at + n][0];
  }

  /** A multi-byte run is shown as a code point exactly when some run there is well formed; it is
      then consumed whole, and otherwise exactly one byte is shown. */
  lemma TokenShowsExactlyWellFormedRuns(text: seq<byte>, at: nat)
    requires at < |text| && text[at] >= 128
    ensures (exists n :: RunAt(text, at, n)) <==> Token(text, at).token[..3] == "[U+"
    ensures forall n | RunAt(text, at, n) ::
              Token(text, at).next == at + n && Token(text, at).token == CodePointToken(CodePoint(text[at..at + n]))
    ensures (forall n :: !RunAt(text, at, n)) ==> Token(text, at) == Step(ByteToken(text[at]), at + 1, true)
  {
    forall n | RunAt(text, at, n)
      ensures Token(text, at) == Run(text, at, n)
    {
      assert n == 2 || n == 3 || n == 4;
      if RunAt(text, at, 2) { RunLengthUnique(text, at, n, 2); }
      if RunAt(text, at, 3) { RunLengthUnique(text, at, n, 3); }
      if RunAt(text, at, 4) { RunLengthUnique(text, at, n, 4); }
    }
    assert ByteToken(text[at])[..3] == "[0x";
    forall n | RunAt(text, at, n)
      ensures Token(text, at).token[..3] == "[U+"
    {
      assert CodePointToken(CodePoint(text[at..at + n]))[..3] == "[U+";
    }
  }

  // The shifts and masks of the decoder, on numbers.

  function RunLength(lead: byte): nat {
    if 0xC2 <= lead <= 0xDF then 2 else if 0xE0 <= lead <= 0xEF then 3 else if 0xF0 <= lead <= 0xF4 then 4 else 0
  }

  function LeadBits(lead: byte, length: nat): nat {
    if length == 2 then lead as nat % 0x20 else if length == 3 then lead as nat % 0x10
    else if length == 4 then lead as nat % 0x08 else lead as nat
  }

  function Append6(point: nat, b: byte): nat { point * 0x40 + b as nat % 0x40 }

  /** The bits gathered from the first bytes of a run announced to have `length` bytes. */
  function Bits(s: seq<byte>, length: nat): nat
    requires 0 < |s|
  {
    if |s| == 1 then LeadBits(s[0], length) else Append6(Bits(s[..|s| - 1], length), s[|s| - 1])
  }

  predicate InRange(length: nat, point: nat) {
    !((length == 3 && point < 0x800) || (length == 4 && point < 0x10000) ||
      point > 0x10FFFF || 0xD800 <= point <= 0xDFFF)
  }

  lemma TailBits(b: byte)
    requires Tail(b)
    ensures b as nat % 0x40 == b as nat - 0x80
  {
  }

  lemma LeadingBits(b: byte)
    ensures RunLength(b) == 2 ==> LeadBits(b, 2) == b as nat - 0xC0
    ensures RunLength(b) == 3 ==> LeadBits(b, 3) == b as nat - 0xE0
    ensures RunLength(b) == 4 ==> LeadBits(b, 4) == b as nat - 0xF0
  {
  }

  lemma BitsNext(s: seq<byte>, n: nat, length: nat)
    requires 1 <= n < |s| && Tail(s[n])
    ensures Bits(s[..n + 1], length) == Bits(s[..n], length) * 0x40 + (s[n] as nat - 0x80)
  {
    assert s[..n + 1][..n] == s[..n];
    TailBits(s[n]);
  }

  lemma BitsOf(s: seq<byte>, bits: nat)
    requires 2 <= |s| <= 4 && RunLength(s[0]) == |s| && LeadBits(s[0], |s|) == bits
    requires forall i | 1 <= i < |s| :: Tail(s[i])
    ensures |s| == 2 ==> Bits(s, 2) == bits * 0x40 + (s[1] as nat - 0x80)
    ensures |s| == 3 ==> Bits(s, 3) == (bits * 0x40 + (s[1] as nat - 0x80)) * 0x40 + (s[2] as nat - 0x80)
    ensures |s| == 4 ==>
              Bits(s, 4) == ((bits * 0x40 + (s[1] as nat - 0x80)) * 0x40 + (s[2] as nat - 0x80)) * 0x40 + (s[3] as nat - 0x80)
  {
    var length := |s|;
    assert s[..length] == s;
    assert Bits(s[..1], length) == bits;
    BitsNext(s, 1, length);
    if length > 2 { BitsNext(s, 2, length); }
    if length > 3 { BitsNext(s, 3, length); }
  }

  /** The decoder's checks accept exactly the well-formed runs and yield their code point. */
  lemma DecoderAgrees(s: seq<byte>)
    requires 0 < |s| && |s| == RunLength(s[0])
    ensures (forall i | 1 <= i < |s| :: Tail(s[i])) && InRange(|s|, Bits(s, |s|)) <==> WellFormed(s)
    ensures WellFormed(s) ==> Bits(s, |s|) == CodePoint(s)
  {
    if forall i | 1 <= i < |s| :: Tail(s[i]) {
      LeadingBits(s[0]);
      BitsOf(s, LeadBits(s[0], |s|));
    }
  }

  lemma BitsGrow(text: seq<byte>, start: nat, i: nat, length: nat)
    requires start + i < |text| && 1 <= i
    ensures Bits(text[start..start + i + 1], length) == Append6(Bits(text[start..start + i], length), text[start + i])
  {
    assert text[start..start + i + 1][..i] == text[start..start + i];
  }

  predicate TailsFollow(text: seq<byte>, start: nat, length: nat) {
    0 < length && start + length <= |text| && forall j | start < j < start + length :: Tail(text[j])
  }

  /** The loop over the bytes announced by the lead byte. */
  method ReadRun(text: seq<byte>, start: nat, length: nat) returns (valid: bool, point: nat)
    requires start < |text|
    ensures valid == TailsFollow(text, start, length)
    ensures valid ==> point == Bits(text[start..start + length], length)
  {
    point := LeadBits(text[start], length);
    valid := 0 < length && start + length <= |text|;
    if !valid { return; }
    for i: nat := 1 to length
      invariant valid && point == Bits(text[start..start + i], length)
      invariant forall j | start < j < start + i :: Tail(text[j])
    {
      if text[start + i] / 0x40 != 2 {
        assert !Tail(text[start + i]);
        return false, point;
      }
      BitsGrow(text, start, i, length);
      point := Append6(point, text[start + i]);
    }
  }

  lemma RunIff(text: seq<byte>, start: nat, length: nat)
    requires start < |text| && length == RunLength(text[start])
    ensures TailsFollow(text, start, length) && InRange(length, Bits(text[start..start + length], length)) <==>
              RunAt(text, start, length)
    ensures RunAt(text, start, length) ==> Bits(text[start..start + length], length) == CodePoint(text[start..start + length])
  {
    if 0 < length && start + length <= |text| {
      var s := text[start..start + length];
      assert forall j | start < j < start + length :: s[j - start] == text[j];
      assert forall j | 1 <= j < length :: s[j] == text[start + j];
      DecoderAgrees(s);
    }
  }

  method NextToken(text: seq<byte>, start: nat) returns (offset: nat, token: string, escaped: bool)
    requires start < |text|
    ensures Step(token, offset, escaped) == Token(text, start)
  {
    var lead := text[start];
    if 32 <= lead <= 126 || lead == 10 {
      return start + 1, [lead as char], false;
    }
    if lead == 13 && start + 1 < |text| && text[start + 1] == 10 {
      return start + 2, "\n", false;
    }
    var length := RunLength(lead);
    var valid, point := ReadRun(text, start, length);
    if valid && !InRange(length, point) {
      valid := false;
    }
    LeadFixesLength(text, start);
    RunIff(text, start, length);
    if valid {
      return start + length, CodePointToken(point), true;
    }
    return start + 1, ByteToken(lead), true;
  }

  lemma LeadFixesLength(text: seq<byte>, at: nat)
    requires at < |text|
    ensures forall n | RunAt(text, at, n) :: n == RunLength(text[at]) && 0 < n
  {
    forall n | RunAt(text, at, n)
      ensures n == RunLength(text[at]) && 0 < n
    {
      assert text[at..at + n][0] == text[at];
    }
  }

  // ---------------------------------------------------------------- lines

  /** Everything the reader sees from an offset on, before wrapping. */
  function Escape(text: seq<byte>, at: nat): string
    requires at <= |text|
    decreases |text| - at
  {
    if at == |text| then "" else Token(text, at).token + Escape(text, Token(text, at).next)
  }

  predicate Escapes(text: seq<byte>, at: nat)
    requires at <= |text|
    decreases |text| - at
  {
    at < |text| && (Token(text, at).escaped || Escapes(text, Token(text, at).next))
  }

  /** Lines already emitted, and the one being filled. */
  datatype Layout = Layout(done: seq<string>, line: string)

  function LastSpace(line: string): (space: int)
    ensures -1 <= space < |line|
    ensures 0 <= space ==> line[space] == ' '
    ensures forall j | space < j < |line| :: line[j] != ' '
  {
    if |line| == 0 then -1 else if line[|line| - 1] == ' ' then |line| - 1 else LastSpace(line[..|line| - 1])
  }

  /** Make room in a full line: break at its last space, or else at the edge. */
  function Break(l: Layout): Layout {
    var space := LastSpace(l.line);
    if space > 0 then Layout(l.done + [l.line[..space]], l.line[space + 1..])
    else Layout(l.done + [l.line], "")
  }

  function Put(l: Layout, ch: char): Layout {
    if ch == '\n' then Layout(l.done + [l.line], "")
    else if |l.line| == COLUMNS then
      var room := Break(l);
      if ch == ' ' && |room.line| == 0 then room else room.(line := room.line + [ch])
    else l.(line := l.line + [ch])
  }

  function Flow(l: Layout, stream: string): Layout
    decreases |stream|
  {
    if |stream| == 0 then l else Flow(Put(l, stream[0]), stream[1..])
  }

  function Finish(l: Layout): (lines: seq<string>)
    ensures 0 < |lines|
  {
    if |l.line| > 0 || |l.done| == 0 then l.done + [l.line] else l.done
  }

  /** The one list of lines that all pages are cut from. */
  function Lines(text: seq<byte>): (lines: seq<string>)
    ensures 0 < |lines|
  {
    Finish(Flow(Layout([], ""), Escape(text, 0)))
  }

  function PageCount(lines: nat): nat { (lines + LINES - 1) / LINES }

  /** The lines shown on a page. */
  function Page(lines: seq<string>, page: nat): seq<string> {
    var first := page * LINES;
    if |lines| <= first then [] else if |lines| <= first + LINES then lines[first..] else lines[first..first + LINES]
  }

  function Pages(lines: seq<string>, count: nat): seq<string> {
    if count == 0 then [] else Pages(lines, count - 1) + Page(lines, count - 1)
  }

  lemma {:induction false} PagesArePrefix(lines: seq<string>, count: nat)
    ensures Pages(lines, count) == if |lines| <= count * LINES then lines else lines[..count * LINES]
  {
    if count > 0 {
      PagesArePrefix(lines, count - 1);
    }
  }

  /** The pages cut the lines without gap or overlap, and none of them is empty. */
  lemma PagesPartitionTheLines(text: seq<byte>)
    ensures var lines := Lines(text);
            && Pages(lines, PageCount(|lines|)) == lines
            && (forall p | 0 <= p < PageCount(|lines|) :: 0 < |Page(lines, p)| <= LINES)
            && (forall p: nat | PageCount(|lines|) <= p :: Page(lines, p) == [])
  {
    PagesArePrefix(Lines(text), PageCount(|Lines(text)|));
  }

  predicate FitsLayout(l: Layout) {
    |l.line| <= COLUMNS && forall i | 0 <= i < |l.done| :: |l.done[i]| <= COLUMNS
  }

  lemma AppendFits(done: seq<string>, line: string)
    requires forall i | 0 <= i < |done| :: |done[i]| <= COLUMNS
    requires |line| <= COLUMNS
    ensures forall i | 0 <= i < |done + [line]| :: |(done + [line])[i]| <= COLUMNS
  {
  }

  lemma BreakFits(l: Layout)
    requires FitsLayout(l) && |l.line| == COLUMNS
    ensures FitsLayout(Break(l)) && |Break(l).line| < COLUMNS
  {
    AppendFits(l.done, l.line);
    if LastSpace(l.line) > 0 {
      AppendFits(l.done, l.line[..LastSpace(l.line)]);
    }
  }

  lemma PutFits(l: Layout, ch: char)
    requires FitsLayout(l)
    ensures FitsLayout(Put(l, ch))
  {
    if ch == '\n' {
      AppendFits(l.done, l.line);
    } else if |l.line| == COLUMNS {
      BreakFits(l);
    }
  }

  lemma {:induction false} FlowFits(l: Layout, stream: string)
    requires FitsLayout(l)
    ensures FitsLayout(Flow(l, stream))
    decreases |stream|
  {
    if |stream| > 0 {
      PutFits(l, stream[0]);
      FlowFits(Put(l, stream[0]), stream[1..]);
    }
  }

  lemma LinesFitTheScreen(text: seq<byte>, i: nat)
    requires i < |Lines(text)|
    ensures |Lines(text)[i]| <= COLUMNS
  {
    FlowFits(Layout([], ""), Escape(text, 0));
  }

  /** What is left of a text when its spaces and newlines are dropped. */
  function Ink(s: string): string {
    if |s| == 0 then "" else Ink(s[..|s| - 1]) + if s[|s| - 1] == ' ' || s[|s| - 1] == '\n' then "" else [s[|s| - 1]]
  }

  function InkOf(lines: seq<string>): string {
    if |lines| == 0 then "" else InkOf(lines[..|lines| - 1]) + Ink(lines[|lines| - 1])
  }

  lemma {:induction false} InkAppend(a: string, b: string)
    ensures Ink(a + b) == Ink(a) + Ink(b)
    decreases |b|
  {
    if |b| == 0 {
      assert a + b == a;
    } else {
      InkAppend(a, b[..|b| - 1]);
      assert (a + b)[..|a + b| - 1] == a + b[..|b| - 1];
    }
  }

  lemma InkOfAppend(lines: seq<string>, line: string)
    ensures InkOf(lines + [line]) == InkOf(lines) + Ink(line)
  {
    assert (lines + [line])[..|lines|] == lines;
  }

  function LayoutInk(l: Layout): string { InkOf(l.done) + Ink(l.line) }

  lemma BreakKeepsInk(l: Layout)
    ensures LayoutInk(Break(l)) == LayoutInk(l)
  {
    var space := LastSpace(l.line);
    if space > 0 {
      var rest := l.line[space + 1..];
      assert l.line == l.line[..space] + [' '] + rest;
      InkAppend(l.line[..space] + [' '], rest);
      InkAppend(l.line[..space], [' ']);
      assert Ink([' ']) == "" by { assert [' '][..0] == ""; }
      InkOfAppend(l.done, l.line[..space]);
    } else {
      InkOfAppend(l.done, l.line);
    }
  }

  lemma PutKeepsInk(l: Layout, ch: char)
    ensures LayoutInk(Put(l, ch)) == LayoutInk(l) + Ink([ch])
  {
    assert [ch][..0] == "";
    InkAppend(l.line, [ch]);
    if ch == '\n' {
      InkOfAppend(l.done, l.line);
    } else if |l.line| == COLUMNS {
      BreakKeepsInk(l);
      InkAppend(Break(l).line, [ch]);
    }
  }

  lemma {:induction false} FlowKeepsInk(l: Layout, stream: string)
    ensures LayoutInk(Flow(l, stream)) == LayoutInk(l) + Ink(stream)
    decreases |stream|
  {
    if |stream| > 0 {
      PutKeepsInk(l, stream[0]);
      FlowKeepsInk(Put(l, stream[0]), stream[1..]);
      assert stream == [stream[0]] + stream[1..];
      InkAppend([stream[0]], stream[1..]);
    }
  }

  /** Nothing visible is lost, added or reordered by wrapping and paging. */
  lemma LinesHoldEveryVisibleCharacter(text: seq<byte>)
    ensures InkOf(Lines(text)) == Ink(Escape(text, 0))
  {
    var l := Flow(Layout([], ""), Escape(text, 0));
    FlowKeepsInk(Layout([], ""), Escape(text, 0));
    InkOfAppend(l.done, l.line);
    assert LayoutInk(Layout([], "")) == "";
    assert |l.line| == 0 ==> Ink(l.line) == "" && LayoutInk(l) == InkOf(l.done);
  }

  // ---------------------------------------------------------------- the scanner

  /** What the screen gets: the lines of one page, the number of pages, and whether any byte had
      to be escaped. */
  datatype TextPage = TextPage(lines: seq<string>, pages: nat, page: nat, escaped: bool, complete: bool)

  /** Copy an emitted line into the page if it belongs there. */
  method Emit(lines: seq<string>, lineCount: nat, requestedPage: nat, line: array<char>, count: nat, ghost done: seq<string>)
    returns (kept: seq<string>)
    requires count <= line.Length && lineCount == |done| && lines == Page(done, requestedPage)
    ensures kept == Page(done + [line[..count]], requestedPage)
  {
    kept := lines;
    if lineCount / LINES == requestedPage {
      kept := lines + [line[..count]];
    }
  }

  /** memmove of the text after the break to the front of the line. */
  method ShiftLeft(line: array<char>, from: nat, used: nat)
    requires from <= used <= line.Length
    modifies line
    ensures line[..used - from] == old(line[from..used])
  {
    var i := 0;
    while i < used - from
      invariant 0 <= i <= used - from
      invariant line[..i] == old(line[from..from + i])
      invariant forall j | i <= j < line.Length :: line[j] == old(line[j])
    {
      line[i] := line[from + i];
      i := i + 1;
    }
  }

  method FindSpace(line: array<char>, used: nat) returns (space: int)
    requires used <= line.Length
    ensures space == LastSpace(line[..used])
  {
    space := -1;
    var j := 0;
    while j < used
      invariant 0 <= j <= used
      invariant space == LastSpace(line[..j])
    {
      assert line[..j + 1][..j] == line[..j];
      if line[j] == ' ' {
        space := j;
      }
      j := j + 1;
    }
  }

  /** One character of the inner loop: `line[..used]` is the line being filled. */
  method PutChar(line: array<char>, used: nat, ch: char, lines: seq<string>, lineCount: nat, requestedPage: nat,
                 ghost done: seq<string>)
    returns (newLines: seq<string>, newCount: nat, newUsed: nat, ghost newDone: seq<string>)
    requires used <= COLUMNS < line.Length && lineCount == |done| && lines == Page(done, requestedPage)
    modifies line
    ensures newUsed <= COLUMNS && newCount == |newDone| && newLines == Page(newDone, requestedPage)
    ensures Layout(newDone, line[..newUsed]) == Put(Layout(done, old(line[..used])), ch)
  {
    newLines, newCount, newUsed, newDone := lines, lineCount, used, done;
    ghost var l := Layout(done, line[..used]);
    if ch == '\n' {
      newLines := Emit(lines, lineCount, requestedPage, line, used, done);
      newDone, newCount, newUsed := done + [line[..used]], lineCount + 1, 0;
      assert line[..0] == [];
      return;
    }
    if used == COLUMNS {
      var space := FindSpace(line, used);
      if space > 0 {
        newLines := Emit(lines, lineCount, requestedPage, line, space, done);
        assert l.line[..space] == line[..space] && l.line[space + 1..] == line[space + 1..used];
        newDone, newCount := done + [line[..space]], lineCount + 1;
        ShiftLeft(line, space + 1, used);
        newUsed := used - space - 1;
      } else {
        newLines := Emit(lines, lineCount, requestedPage, line, used, done);
        newDone, newCount, newUsed := done + [line[..used]], lineCount + 1, 0;
        assert line[..0] == [];
      }
      assert Layout(newDone, line[..newUsed]) == Break(l);
      if ch == ' ' && newUsed == 0 {
        return;
      }
    }
    ghost var before := line[..newUsed];
    line[newUsed] := ch;
    newUsed := newUsed + 1;
    assert line[..newUsed] == before + [ch];
  }

  /** The inner loop: the characters of one token go into the line. */
  method PutToken(line: array<char>, used: nat, token: string, lines: seq<string>, lineCount: nat, requestedPage: nat,
                  ghost done: seq<string>, ghost rest: string)
    returns (newLines: seq<string>, newCount: nat, newUsed: nat, ghost newDone: seq<string>)
    requires used <= COLUMNS < line.Length && lineCount == |done| && lines == Page(done, requestedPage)
    modifies line
    ensures newUsed <= COLUMNS && newCount == |newDone| && newLines == Page(newDone, requestedPage)
    ensures Flow(Layout(newDone, line[..newUsed]), rest) == Flow(Layout(done, old(line[..used])), token + rest)
  {
    newLines, newCount, newUsed, newDone := lines, lineCount, used, done;
    ghost var total := Flow(Layout(done, line[..used]), token + rest);
    assert token[0..] == token;
    for i := 0 to |token|
      invariant 0 <= newUsed <= COLUMNS < line.Length
      invariant newCount == |newDone| && newLines == Page(newDone, requestedPage)
      invariant Flow(Layout(newDone, line[..newUsed]), token[i..] + rest) == total
    {
      FlowStep(Layout(newDone, line[..newUsed]), token[i..] + rest);
      assert (token[i..] + rest)[1..] == token[i + 1..] + rest;
      newLines, newCount, newUsed, newDone := PutChar(line, newUsed, token[i], newLines, newCount, requestedPage, newDone);
    }
    assert token[|token|..] + rest == rest;
  }

  method ScanText(text: seq<byte>, requestedPage: nat) returns (result: TextPage)
    ensures result == TextPage(Page(Lines(text), requestedPage), PageCount(|Lines(text)|), requestedPage,
                               Escapes(text, 0), true)
  {
    var line := new char[COLUMNS + 1];
    var lines: seq<string>, used, lineCount, offset, escaped := [], 0, 0, 0, false;
    ghost var done: seq<string> := [];
    ghost var total := Flow(Layout([], ""), Escape(text, 0));
    assert line[..0] == [];
    while offset < |text|
      invariant 0 <= offset <= |text| && 0 <= used <= COLUMNS < line.Length
      invariant lineCount == |done| && lines == Page(done, requestedPage)
      invariant Flow(Layout(done, line[..used]), Escape(text, offset)) == total
      invariant escaped || Escapes(text, offset) <==> Escapes(text, 0)
      decreases |text| - offset
    {
      var next, token, shown := NextToken(text, offset);
      lines, lineCount, used, done := PutToken(line, used, token, lines, lineCount, requestedPage, done, Escape(text, next));
      offset := next;
      escaped := escaped || shown;
    }
    assert total == Layout(done, line[..used]);
    if used > 0 || lineCount == 0 {
      lines := Emit(lines, lineCount, requestedPage, line, used, done);
      lineCount := lineCount + 1;
    }
    return TextPage(lines, (lineCount + LINES - 1) / LINES, requestedPage, escaped, true);
  }

  lemma FlowStep(l: Layout, stream: string)
    requires 0 < |stream|
    ensures Flow(l, stream) == Flow(Put(l, stream[0]), stream[1..])
  {
  }

  function Ascii(s: string): seq<byte> {
    seq(|s|, i requires 0 <= i < |s| => (s[i] as int % 256) as byte)
  }

  const OVERFLOW := Ascii("This text exceeds the device's review limit. Record a shorter reply.")

  /** The page to draw: a page past the end falls back to the last one, and a text beyond the
      review limit is replaced by a notice and marked incomplete. */
  method Paginate(text: seq<byte>, requestedPage: int) returns (result: TextPage)
    ensures var source := if |text| <= MAX_TEXT_BYTES then text else OVERFLOW;
            var pages := PageCount(|Lines(source)|);
            && result.pages == pages
            && result.page == (if requestedPage < 0 then 0 else if requestedPage < pages then requestedPage else pages - 1)
            && result.lines == Page(Lines(source), result.page)
            && (result.complete <==> |text| <= MAX_TEXT_BYTES)
  {
    var complete := |text| <= MAX_TEXT_BYTES;
    var source := if complete then text else OVERFLOW;
    var page := if requestedPage > 0 then requestedPage else 0;
    result := ScanText(source, page);
    if page >= result.pages {
      result := ScanText(source, result.pages - 1);
    }
    result := result.(complete := complete);
  }
}
