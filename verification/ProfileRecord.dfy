/** firmware/factory_badge/main/services.cpp: what a badge profile may hold, and its record on flash
    with the two older layouts.  Characters stand for bytes. */
module ProfileRecord {
  import opened Wrappers
  import opened SocialNetworks

  const METADATA := 768
  const VERSION := 3
  const MAX_NAME := 120
  const MAX_COUNT := 60

  // ---------------------------------------------------------------- names

  /** The shape of a code point: lead bits and the number of continuation bytes. */
  datatype Lead = NoLead | Lead(bits: nat, extra: nat)

  function LeadOf(c: nat): Lead {
    if c < 0x80 then Lead(c, 0)
    else if 0xc2 <= c <= 0xdf then Lead(c - 0xc0, 1)
    else if 0xe0 <= c <= 0xef then Lead(c - 0xe0, 2)
    else if 0xf0 <= c <= 0xf4 then Lead(c - 0xf0, 3)
    else NoLead
  }

  predicate Continuation(c: char) { 0x80 <= c as int < 0xc0 }

  /** The code point from lead bits and n continuation bytes starting at i. */
  function Tail(s: string, i: nat, bits: nat, n: nat): Option<nat>
    requires i + n <= |s|
    decreases n
  {
    if n == 0 then Some(bits)
    else if !Continuation(s[i]) then None
    else Tail(s, i + 1, bits * 64 + (s[i] as int - 0x80), n - 1)
  }

  /** Neither overlong, nor a surrogate, nor past the last code point, nor a control or direction
      character. */
  predicate CodeOk(cp: nat, extra: nat) {
    && (extra == 1 ==> cp >= 0x80) && (extra == 2 ==> cp >= 0x800) && (extra == 3 ==> cp >= 0x10000)
    && Shown(cp)
  }

  predicate Shown(cp: nat) {
    && cp <= 0x10ffff && !(0xd800 <= cp <= 0xdfff) && 32 <= cp && !(127 <= cp <= 159)
    && cp != 0x2028 && cp != 0x2029 && !(0x202a <= cp <= 0x202e) && !(0x2066 <= cp <= 0x2069)
  }

  /** The loop over the name from byte i, after count code points. */
  predicate Scan(s: string, i: nat, count: nat)
    requires i <= |s|
    decreases |s| - i
  {
    if i == |s| then true
    else
      var lead := LeadOf(s[i] as int);
      && lead.Lead? && i + 1 + lead.extra <= |s|
      && var cp := Tail(s, i + 1, lead.bits, lead.extra);
         cp.Some? && CodeOk(cp.value, lead.extra) && count + 1 <= MAX_COUNT && Scan(s, i + 1 + lead.extra, count + 1)
  }

  /** name_valid: the trimmed name, or None. */
  function Name(input: string): Option<string> {
    if |input| > 160 || |Trim(input)| > MAX_NAME || !Scan(Trim(input), 0, 0) then None else Some(Trim(input))
  }

  /** UTF-8, section 3 of RFC 3629. */
  function Utf8(cp: nat): (u: string)
    requires cp <= 0x10ffff
    ensures |u| == 1 + Extra(cp)
  {
    if cp < 0x80 then [cp as char]
    else if cp < 0x800 then [(0xc0 + cp / 64) as char, (0x80 + cp % 64) as char]
    else if cp < 0x10000 then [(0xe0 + cp / 4096) as char, (0x80 + cp / 64 % 64) as char, (0x80 + cp % 64) as char]
    else [(0xf0 + cp / 262144) as char, (0x80 + cp / 4096 % 64) as char, (0x80 + cp / 64 % 64) as char, (0x80 + cp % 64) as char]
  }

  /** A code point a name may show. */
  type Code = cp: nat | Shown(cp) witness 65

  function Text(cps: seq<Code>): string {
    if |cps| == 0 then "" else Utf8(cps[0]) + Text(cps[1..])
  }

  function Extra(cp: nat): nat { if cp < 0x80 then 0 else if cp < 0x800 then 1 else if cp < 0x10000 then 2 else 3 }

  lemma Join(q: nat, r: nat)
    requires r < 64
    ensures (q * 64 + r) / 64 == q && (q * 64 + r) % 64 == r
  {
  }

  lemma Nested(cp: nat)
    ensures cp / 64 / 64 == cp / 4096 && cp / 4096 / 64 == cp / 262144
  {
  }

  ghost predicate Reads(s: string, i: nat, cp: nat)
    requires i < |s|
  {
    var lead := LeadOf(s[i] as int);
    && lead.Lead? && i + 1 + lead.extra <= |s| && lead.extra == Extra(cp)
    && Tail(s, i + 1, lead.bits, lead.extra) == Some(cp) && CodeOk(cp, lead.extra)
  }

  lemma ReadsTwo(s: string, i: nat, cp: nat)
    requires Shown(cp) && 0x80 <= cp < 0x800 && i + 2 <= |s|
    requires s[i] as int == 0xc0 + cp / 64 && s[i + 1] as int == 0x80 + cp % 64
    ensures Reads(s, i, cp)
  {
    assert Tail(s, i + 2, cp, 0) == Some(cp);
  }

  lemma ReadsThree(s: string, i: nat, cp: nat)
    requires Shown(cp) && 0x800 <= cp < 0x10000 && i + 3 <= |s|
    requires s[i] as int == 0xe0 + cp / 4096 && s[i + 1] as int == 0x80 + cp / 64 % 64 && s[i + 2] as int == 0x80 + cp % 64
    ensures Reads(s, i, cp)
  {
    Nested(cp);
    assert Tail(s, i + 3, cp, 0) == Some(cp);
    assert Tail(s, i + 2, cp / 64, 1) == Some(cp);
  }

  lemma ReadsFour(s: string, i: nat, cp: nat)
    requires Shown(cp) && 0x10000 <= cp && i + 4 <= |s|
    requires s[i] as int == 0xf0 + cp / 262144 && s[i + 1] as int == 0x80 + cp / 4096 % 64
    requires s[i + 2] as int == 0x80 + cp / 64 % 64 && s[i + 3] as int == 0x80 + cp % 64
    ensures Reads(s, i, cp)
  {
    Nested(cp);
    assert Tail(s, i + 4, cp, 0) == Some(cp);
    assert Tail(s, i + 3, cp / 64, 1) == Some(cp);
    assert Tail(s, i + 2, cp / 4096, 2) == Some(cp);
  }

  /** One step of the loop reads an encoded code point back. */
  lemma StepReads(s: string, i: nat, cp: nat)
    requires i < |s| && Shown(cp) && i + |Utf8(cp)| <= |s| && s[i..i + |Utf8(cp)|] == Utf8(cp)
    ensures Reads(s, i, cp)
  {
    var u := Utf8(cp);
    var part := s[i..i + |u|];
    assert s[i] == part[0];
    if 0x80 <= cp < 0x800 {
      assert s[i + 1] == part[1];
      ReadsTwo(s, i, cp);
    } else if 0x800 <= cp < 0x10000 {
      assert s[i + 1] == part[1] && s[i + 2] == part[2];
      ReadsThree(s, i, cp);
    } else if 0x10000 <= cp {
      assert s[i + 1] == part[1] && s[i + 2] == part[2] && s[i + 3] == part[3];
      ReadsFour(s, i, cp);
    }
  }

  lemma TwoBytes(a: nat, b: nat)
    requires a < 32 && b < 64 && Shown(a * 64 + b) && 0x80 <= a * 64 + b
    ensures Utf8(a * 64 + b) == [(0xc0 + a) as char, (0x80 + b) as char]
  {
    Join(a, b);
  }

  lemma ThreeBytes(a: nat, b: nat, c: nat)
    requires a < 16 && b < 64 && c < 64 && Shown((a * 64 + b) * 64 + c) && 0x800 <= (a * 64 + b) * 64 + c
    ensures Utf8((a * 64 + b) * 64 + c) == [(0xe0 + a) as char, (0x80 + b) as char, (0x80 + c) as char]
  {
    Join(a, b);
    Join(a * 64 + b, c);
    Nested((a * 64 + b) * 64 + c);
  }

  lemma FourBytes(a: nat, b: nat, c: nat, d: nat)
    requires a < 8 && b < 64 && c < 64 && d < 64
    requires Shown(((a * 64 + b) * 64 + c) * 64 + d) && 0x10000 <= ((a * 64 + b) * 64 + c) * 64 + d
    ensures Utf8(((a * 64 + b) * 64 + c) * 64 + d) ==
              [(0xf0 + a) as char, (0x80 + b) as char, (0x80 + c) as char, (0x80 + d) as char]
  {
    Join(a, b);
    Join(a * 64 + b, c);
    Join((a * 64 + b) * 64 + c, d);
    Nested(((a * 64 + b) * 64 + c) * 64 + d);
  }

  /** A step of the loop that succeeds. */
  predicate Steps(s: string, i: nat)
    requires i < |s|
  {
    var lead := LeadOf(s[i] as int);
    && lead.Lead? && i + 1 + lead.extra <= |s|
    && Tail(s, i + 1, lead.bits, lead.extra).Some? && CodeOk(Tail(s, i + 1, lead.bits, lead.extra).value, lead.extra)
  }

  function CodeAt(s: string, i: nat): (cp: nat)
    requires i < |s| && Steps(s, i)
    ensures Shown(cp)
  {
    Tail(s, i + 1, LeadOf(s[i] as int).bits, LeadOf(s[i] as int).extra).value
  }

  lemma TailValue(s: string, i: nat, bits: nat, n: nat)
    requires i + n <= |s| && n <= 3 && Tail(s, i, bits, n).Some?
    ensures forall k | i <= k < i + n :: Continuation(s[k])
    ensures n == 1 ==> Tail(s, i, bits, n).value == bits * 64 + (s[i] as int - 0x80)
    ensures n == 2 ==> Tail(s, i, bits, n).value == (bits * 64 + (s[i] as int - 0x80)) * 64 + (s[i + 1] as int - 0x80)
    ensures n == 3 ==> Tail(s, i, bits, n).value ==
                         ((bits * 64 + (s[i] as int - 0x80)) * 64 + (s[i + 1] as int - 0x80)) * 64 + (s[i + 2] as int - 0x80)
    decreases n
  {
    if n > 0 { TailValue(s, i + 1, bits * 64 + (s[i] as int - 0x80), n - 1); }
  }

  lemma TwoIsEncoded(s: string, i: nat)
    requires i < |s| && Steps(s, i) && LeadOf(s[i] as int).extra == 1
    ensures s[i..i + 2] == Utf8(CodeAt(s, i))
  {
    var lead := LeadOf(s[i] as int);
    TailValue(s, i + 1, lead.bits, 1);
    TwoBytes(lead.bits, s[i + 1] as int - 0x80);
    assert s[i..i + 2] == [s[i], s[i + 1]];
  }

  lemma ThreeIsEncoded(s: string, i: nat)
    requires i < |s| && Steps(s, i) && LeadOf(s[i] as int).extra == 2
    ensures s[i..i + 3] == Utf8(CodeAt(s, i))
  {
    var lead := LeadOf(s[i] as int);
    TailValue(s, i + 1, lead.bits, 2);
    ThreeBytes(lead.bits, s[i + 1] as int - 0x80, s[i + 2] as int - 0x80);
    assert s[i..i + 3] == [s[i], s[i + 1], s[i + 2]];
  }

  lemma FourIsEncoded(s: string, i: nat)
    requires i < |s| && Steps(s, i) && LeadOf(s[i] as int).extra == 3
    ensures s[i..i + 4] == Utf8(CodeAt(s, i))
  {
    var lead := LeadOf(s[i] as int);
    TailValue(s, i + 1, lead.bits, 3);
    FourBytes(lead.bits, s[i + 1] as int - 0x80, s[i + 2] as int - 0x80, s[i + 3] as int - 0x80);
    assert s[i..i + 4] == [s[i], s[i + 1], s[i + 2], s[i + 3]];
  }

  /** A step that succeeds read the encoding of its code point. */
  lemma StepIsEncoded(s: string, i: nat)
    requires i < |s| && Steps(s, i)
    ensures s[i..i + 1 + LeadOf(s[i] as int).extra] == Utf8(CodeAt(s, i))
  {
    var extra := LeadOf(s[i] as int).extra;
    if extra == 1 { TwoIsEncoded(s, i); }
    else if extra == 2 { ThreeIsEncoded(s, i); }
    else if extra == 3 { FourIsEncoded(s, i); }
    else { assert s[i..i + 1] == [s[i]]; }
  }

  // ---------------------------------------------------------------- a name is text of shown code points

  lemma Cut(s: string, i: nat, u: string, rest: string)
    requires i <= |s| && s[i..] == u + rest
    ensures i + |u| <= |s| && s[i..i + |u|] == u && s[i + |u|..] == rest
  {
    assert s[i..][..|u|] == u && s[i..][|u|..] == rest;
  }

  lemma TextStep(s: string, i: nat, cps: seq<Code>)
    requires i <= |s| && s[i..] == Text(cps) && |cps| > 0
    ensures i + |Utf8(cps[0])| <= |s| && s[i..i + |Utf8(cps[0])|] == Utf8(cps[0])
    ensures s[i + |Utf8(cps[0])|..] == Text(cps[1..])
  {
    Cut(s, i, Utf8(cps[0]), Text(cps[1..]));
  }

  lemma {:induction false} ScanReads(s: string, i: nat, count: nat, cps: seq<Code>)
    requires i <= |s| && s[i..] == Text(cps) && count + |cps| <= MAX_COUNT
    ensures Scan(s, i, count)
    decreases |cps|
  {
    if |cps| > 0 {
      TextStep(s, i, cps);
      StepReads(s, i, cps[0]);
      ScanReads(s, i + |Utf8(cps[0])|, count + 1, cps[1..]);
    }
  }

  lemma {:induction false} ScanIsText(s: string, i: nat, count: nat) returns (cps: seq<Code>)
    requires i <= |s| && Scan(s, i, count) && count <= MAX_COUNT
    ensures s[i..] == Text(cps) && count + |cps| <= MAX_COUNT
    decreases |s| - i
  {
    if i == |s| {
      cps := [];
    } else {
      assert Steps(s, i);
      var n := 1 + LeadOf(s[i] as int).extra;
      var rest := ScanIsText(s, i + n, count + 1);
      StepIsEncoded(s, i);
      var cp: Code := CodeAt(s, i);
      cps := [cp] + rest;
      assert cps[1..] == rest;
      assert s[i..] == s[i..i + n] + s[i + n..];
    }
  }

  /** A name is accepted exactly when, trimmed, it is the UTF-8 text of at most 60 shown code points in
      at most 120 bytes. */
  lemma NameIsTextIff(input: string)
    ensures Name(input).Some? <==>
              |input| <= 160 && |Trim(input)| <= MAX_NAME && exists cps: seq<Code> :: |cps| <= MAX_COUNT && Trim(input) == Text(cps)
    ensures Name(input).Some? ==> Name(input).value == Trim(input)
  {
    var s := Trim(input);
    assert s[0..] == s;
    if Scan(s, 0, 0) {
      var cps := ScanIsText(s, 0, 0);
      assert |cps| <= MAX_COUNT && s == Text(cps);
    }
    forall cps: seq<Code> | |cps| <= MAX_COUNT && s == Text(cps)
      ensures Scan(s, 0, 0)
    {
      ScanReads(s, 0, 0, cps);
    }
  }

  // ---------------------------------------------------------------- the record

  datatype Profile = Profile(name: string, network: int, handle: string, company: string)

  predicate NameStored(s: string) { Name(s) == Some(s) }

  predicate ValidProfile(p: Profile) {
    && NameStored(p.name) && NameStored(p.company)
    && if p.network < 0 then p.handle == "" else Valid(p.network, p.handle)
  }

  function PutShort(n: nat): string
    requires n < 65536
  {
    [(n % 256) as char, (n / 256) as char]
  }

  function GetShort(a: char, b: char): nat { a as int + 256 * (b as int) }

  /** put_fields: each field after its length, or None past the metadata limit. */
  function Put(fields: seq<string>): Option<string> {
    if |fields| == 0 then Some("")
    else
      match Put(fields[..|fields| - 1])
      case None => None
      case Some(done) =>
        var field := fields[|fields| - 1];
        if |done| + 2 + |field| > METADATA then None else Some(done + PutShort(|field|) + field)
  }

  /** get_fields from position used on; a NUL inside a field is refused. */
  function Get(bytes: string, used: nat, count: nat): Option<seq<string>>
    requires used <= |bytes|
    decreases count
  {
    if count == 0 then if used == |bytes| then Some([]) else None
    else if used + 2 > |bytes| then None
    else
      var n := GetShort(bytes[used], bytes[used + 1]);
      if n > |bytes| - used - 2 || NUL in bytes[used + 2..used + 2 + n] then None
      else
        match Get(bytes, used + 2 + n, count - 1)
        case None => None
        case Some(rest) => Some([bytes[used + 2..used + 2 + n]] + rest)
  }

  /** The network with a key, or -1. */
  function Find(key: string): int {
    if key == "linkedin" then 0 else if key == "x" then 1 else if key == "github" then 2
    else if key == "huggingface" then 3 else if key == "youtube" then 4 else if key == "url" then 5 else -1
  }

  function KeyOf(network: int): string
    requires network < COUNT
  {
    if network < 0 then "" else Key(RuleOf(network))
  }

  function FieldsOf(p: Profile): seq<string>
    requires p.network < COUNT
  {
    [p.name, KeyOf(p.network), p.handle, p.company]
  }

  function Encode(p: Profile): Option<string> {
    if !ValidProfile(p) then None else Put(FieldsOf(p))
  }

  function Checked(p: Profile): Option<Profile> { if ValidProfile(p) then Some(p) else None }

  function FromFields(fields: seq<string>): Option<Profile>
    requires |fields| == 4
  {
    var network := if fields[1] == "" then -1 else Find(fields[1]);
    if fields[1] != "" && network < 0 then None else Checked(Profile(fields[0], network, fields[2], fields[3]))
  }

  /** The legacy slots from slot i on: every filled one must be valid, the first is the account. */
  function Slots(urls: seq<string>, i: nat, network: int, handle: string): Option<(int, string)>
    requires |urls| == 3 && i <= 3
    decreases 3 - i
  {
    if i == 3 then Some((network, handle))
    else if urls[i] == "" then Slots(urls, i + 1, network, handle)
    else
      var slot := if i == 0 then 2 else if i == 1 then 1 else 0;
      var found := Handle(slot, urls[i]);
      if found == "" then None
      else if network < 0 then Slots(urls, i + 1, slot, found)
      else Slots(urls, i + 1, network, handle)
  }

  function FromLegacy(fields: seq<string>): Option<Profile>
    requires |fields| == 4 || |fields| == 5
  {
    match Slots(fields[1..4], 0, -1, "")
    case None => None
    case Some(account) => Checked(Profile(fields[0], account.0, account.1, if |fields| == 5 then fields[4] else ""))
  }

  function Decode(bytes: string, version: int): Option<Profile> {
    if version < 1 || version > VERSION || |bytes| > METADATA then None
    else
      var count := if version == 2 then 5 else 4;
      match Get(bytes, 0, count)
      case None => None
      case Some(fields) =>
        if |fields| != count then None else if version == VERSION then FromFields(fields) else FromLegacy(fields)
  }

  // ---------------------------------------------------------------- fields

  lemma ShortRoundTrip(n: nat)
    requires n < 65536
    ensures GetShort(PutShort(n)[0], PutShort(n)[1]) == n
  {
  }

  /** A field whose length fits its two-byte prefix. */
  type Field = f: string | |f| < 65536 witness ""

  predicate NulFree(fields: seq<Field>) { |fields| > 0 ==> NUL !in fields[0] && NulFree(fields[1..]) }

  /** The record of fields without a size limit. */
  function Joined(fields: seq<Field>): string {
    if |fields| == 0 then "" else PutShort(|fields[0]|) + fields[0] + Joined(fields[1..])
  }

  lemma {:induction false} JoinedLast(fields: seq<Field>, f: Field)
    ensures Joined(fields + [f]) == Joined(fields) + (PutShort(|f|) + f)
  {
    if |fields| == 0 {
      assert fields + [f] == [f];
      assert Joined([f][1..]) == "";
    } else {
      assert (fields + [f])[1..] == fields[1..] + [f];
      JoinedLast(fields[1..], f);
    }
  }

  /** put_fields writes the joined fields exactly when they fit. */
  lemma {:induction false} PutIsJoined(fields: seq<Field>)
    ensures Put(fields).Some? <==> |Joined(fields)| <= METADATA
    ensures Put(fields).Some? ==> Put(fields).value == Joined(fields)
  {
    if |fields| > 0 {
      var init, f := fields[..|fields| - 1], fields[|fields| - 1];
      assert fields == init + [f];
      JoinedLast(init, f);
      PutIsJoined(init);
    }
  }

  lemma GetOne(bytes: string, used: nat, f: Field, rest: string)
    requires used <= |bytes| && bytes[used..] == PutShort(|f|) + f + rest
    ensures used + 2 + |f| <= |bytes| && GetShort(bytes[used], bytes[used + 1]) == |f|
    ensures bytes[used + 2..used + 2 + |f|] == f && bytes[used + 2 + |f|..] == rest
  {
    assert PutShort(|f|) + f + rest == PutShort(|f|) + (f + rest);
    Cut(bytes, used, PutShort(|f|), f + rest);
    assert bytes[used..used + 2][0] == bytes[used] && bytes[used..used + 2][1] == bytes[used + 1];
    ShortRoundTrip(|f|);
    Cut(bytes, used + 2, f, rest);
  }

  /** One turn of get_fields. */
  lemma GetStep(bytes: string, used: nat, count: nat, f: Field)
    requires used + 2 + |f| <= |bytes| && GetShort(bytes[used], bytes[used + 1]) == |f|
    requires bytes[used + 2..used + 2 + |f|] == f
    ensures Get(bytes, used, count + 1) ==
              if NUL in f || Get(bytes, used + 2 + |f|, count).None? then None
              else Some([f] + Get(bytes, used + 2 + |f|, count).value)
  {
  }

  function ReadBack(fields: seq<Field>): Option<seq<string>> { if NulFree(fields) then Some(fields) else None }

  lemma GetOfJoinedStep(bytes: string, used: nat, f: Field, rest: seq<Field>)
    requires used <= |bytes| && bytes[used..] == PutShort(|f|) + f + Joined(rest)
    requires used + 2 + |f| <= |bytes| ==> Get(bytes, used + 2 + |f|, |rest|) == ReadBack(rest)
    ensures Get(bytes, used, |rest| + 1) == ReadBack([f] + rest)
  {
    GetOne(bytes, used, f, Joined(rest));
    GetStep(bytes, used, |rest|, f);
    assert ([f] + rest)[1..] == rest;
  }

  /** Reading back what was joined gives the fields, exactly when none has a NUL. */
  lemma {:induction false} GetOfJoined(bytes: string, used: nat, fields: seq<Field>, count: nat)
    requires used <= |bytes| && bytes[used..] == Joined(fields) && count == |fields|
    ensures Get(bytes, used, count) == ReadBack(fields)
    decreases count
  {
    if count > 0 {
      var f, rest := fields[0], fields[1..];
      assert fields == [f] + rest;
      GetOne(bytes, used, f, Joined(rest));
      GetOfJoined(bytes, used + 2 + |f|, rest, count - 1);
      GetOfJoinedStep(bytes, used, f, rest);
    }
  }

  predicate Octets(s: string) { forall i | 0 <= i < |s| :: s[i] as int < 256 }

  lemma ShortIsPrinted(a: char, b: char)
    requires a as int < 256 && b as int < 256
    ensures GetShort(a, b) < 65536 && PutShort(GetShort(a, b)) == [a, b]
  {
  }

  lemma JoinOne(bytes: string, used: nat, f: Field, rest: seq<Field>)
    requires used + 2 + |f| <= |bytes| && bytes[used + 2..used + 2 + |f|] == f
    requires bytes[used] as int < 256 && bytes[used + 1] as int < 256 && GetShort(bytes[used], bytes[used + 1]) == |f|
    requires bytes[used + 2 + |f|..] == Joined(rest)
    ensures bytes[used..] == Joined([f] + rest)
  {
    ShortIsPrinted(bytes[used], bytes[used + 1]);
    assert ([f] + rest)[1..] == rest;
    assert bytes[used..] == [bytes[used], bytes[used + 1]] + f + bytes[used + 2 + |f|..];
  }

  /** What was read is what joining it would have written. */
  lemma {:induction false} JoinedOfGet(bytes: string, used: nat, count: nat) returns (fields: seq<Field>)
    requires used <= |bytes| && Octets(bytes) && Get(bytes, used, count).Some?
    ensures Get(bytes, used, count) == Some(fields)
    ensures |fields| == count && NulFree(fields) && bytes[used..] == Joined(fields)
    decreases count
  {
    if count == 0 {
      fields := [];
    } else {
      var n := GetShort(bytes[used], bytes[used + 1]);
      ShortIsPrinted(bytes[used], bytes[used + 1]);
      var f: Field := bytes[used + 2..used + 2 + n];
      GetStep(bytes, used, count - 1, f);
      var rest := JoinedOfGet(bytes, used + 2 + n, count - 1);
      JoinOne(bytes, used, f, rest);
      fields := [f] + rest;
      assert fields[1..] == rest;
    }
  }

  // ---------------------------------------------------------------- round trips

  lemma {:induction false} TextHasNoNul(cps: seq<Code>)
    ensures NUL !in Text(cps)
  {
    if |cps| > 0 { TextHasNoNul(cps[1..]); }
  }

  lemma NameIsPlain(s: string)
    requires NameStored(s)
    ensures NUL !in s && |s| <= MAX_NAME
  {
    NameIsTextIff(s);
    var cps: seq<Code> :| |cps| <= MAX_COUNT && Trim(s) == Text(cps);
    TextHasNoNul(cps);
  }

  lemma HandleIsShort(network: int, h: string)
    requires Valid(network, h)
    ensures |h| <= MAX_URL && h != ""
  {
  }

  lemma KeysAreFound(network: int)
    requires 0 <= network < COUNT
    ensures Find(Key(RuleOf(network))) == network && Key(RuleOf(network)) != "" && NUL !in Key(RuleOf(network))
    ensures |Key(RuleOf(network))| <= 11
  {
  }

  lemma FoundIsKey(key: string)
    requires Find(key) >= 0
    ensures Find(key) < COUNT && Key(RuleOf(Find(key))) == key
  {
  }

  lemma JoinedNext(f: Field, rest: seq<Field>)
    ensures |Joined([f] + rest)| == 2 + |f| + |Joined(rest)|
    ensures NulFree([f] + rest) <==> NUL !in f && NulFree(rest)
  {
    assert ([f] + rest)[1..] == rest;
  }

  lemma JoinedOfFour(a: Field, b: Field, c: Field, d: Field)
    ensures |Joined([a, b, c, d])| == 8 + |a| + |b| + |c| + |d|
    ensures NulFree([a, b, c, d]) <==> NUL !in a && NUL !in b && NUL !in c && NUL !in d
  {
    JoinedNext(d, []);
    JoinedNext(c, [d]);
    JoinedNext(b, [c, d]);
    JoinedNext(a, [b, c, d]);
    assert [d] + [] == [d] && [c] + [d] == [c, d] && [b] + [c, d] == [b, c, d] && [a] + [b, c, d] == [a, b, c, d];
  }

  lemma FieldsAreSmall(p: Profile)
    requires ValidProfile(p)
    ensures var key := KeyOf(p.network);
            && |p.name| <= MAX_NAME && |p.company| <= MAX_NAME && |p.handle| <= MAX_URL && |key| <= 11
            && NUL !in p.name && NUL !in p.company && NUL !in key
            && (key == "" <==> p.network < 0)
  {
    NameIsPlain(p.name);
    NameIsPlain(p.company);
    if p.network >= 0 {
      HandleIsShort(p.network, p.handle);
      KeysAreFound(p.network);
    }
  }

  /** A valid profile always fits: at most 439 of the 768 bytes. */
  lemma EncodeFits(p: Profile)
    requires ValidProfile(p)
    ensures Encode(p).Some? && |Encode(p).value| <= 439
    ensures forall f | f in FieldsOf(p) :: |f| < 65536
    ensures Encode(p).value == Joined(FieldsOf(p))
  {
    FieldsAreSmall(p);
    JoinedOfFour(p.name, KeyOf(p.network), p.handle, p.company);
    PutIsJoined(FieldsOf(p));
  }

  /** The profile as it is stored: every negative network is "none". */
  function Stored(p: Profile): Profile { p.(network := if p.network < 0 then -1 else p.network) }

  lemma FieldsReadBack(p: Profile)
    requires ValidProfile(p)
    ensures FromFields(FieldsOf(p)) == Some(Stored(p))
  {
    FieldsAreSmall(p);
    if p.network >= 0 { KeysAreFound(p.network); }
  }

  /** Decoding what was encoded gives the profile back exactly when its handle has no NUL (which the
      handle check lets through and the field reader refuses) and its network is not below -1 (every
      negative network is stored as none). */
  lemma DecodeOfEncodeIff(p: Profile)
    requires ValidProfile(p)
    ensures Encode(p).Some?
    ensures Decode(Encode(p).value, VERSION) == (if NUL !in p.handle then Some(Stored(p)) else None)
    ensures Decode(Encode(p).value, VERSION) == Some(p) <==> NUL !in p.handle && p.network >= -1
  {
    EncodeFits(p);
    FieldsAreSmall(p);
    JoinedOfFour(p.name, KeyOf(p.network), p.handle, p.company);
    var bytes := Encode(p).value;
    assert bytes[0..] == bytes;
    GetOfJoined(bytes, 0, FieldsOf(p), 4);
    FieldsReadBack(p);
  }

  lemma FieldsWriteBack(fields: seq<Field>)
    requires |fields| == 4 && NulFree(fields) && FromFields(fields).Some?
    ensures var p := FromFields(fields).value;
            ValidProfile(p) && p.network >= -1 && NUL !in p.handle && FieldsOf(p) == fields
  {
    if fields[1] != "" { FoundIsKey(fields[1]); }
    NulFreeAt(fields, 2);
    assert fields == [fields[0], fields[1], fields[2], fields[3]];
  }

  /** Encoding what was decoded gives the record back byte for byte. */
  lemma EncodeOfDecode(bytes: string)
    requires Octets(bytes) && Decode(bytes, VERSION).Some?
    ensures var p := Decode(bytes, VERSION).value;
            ValidProfile(p) && p.network >= -1 && NUL !in p.handle && Encode(p) == Some(bytes)
  {
    var fields := JoinedOfGet(bytes, 0, 4);
    assert bytes[0..] == bytes;
    FieldsWriteBack(fields);
    EncodeFits(FromFields(fields).value);
  }

  // ---------------------------------------------------------------- migration

  predicate Within(a: string, b: string) { forall c | c in a :: c in b }

  lemma {:induction false} TrimsWithin(s: string)
    ensures Within(TrimLeft(s), s) && Within(TrimRight(s), s)
    decreases |s|
  {
    if |s| > 0 && s[0] == ' ' { TrimsWithin(s[1..]); }
    if |s| > 0 && s[|s| - 1] == ' ' { TrimsWithin(s[..|s| - 1]); }
  }

  lemma {:induction false} StripWithin(h: string, inputs: seq<string>)
    ensures Within(WithoutPrefix(h, inputs), h)
  {
    if |inputs| > 0 && !(inputs[0] <= h) { StripWithin(h, inputs[1..]); }
  }

  lemma HandleWithin(network: int, input: string)
    requires 0 <= network < COUNT && !RuleOf(network).Url?
    ensures Within(Handle(network, input), input)
  {
    var trimmed := Trim(input);
    TrimsWithin(input);
    TrimsWithin(TrimLeft(input));
    StripWithin(trimmed, Inputs(RuleOf(network)));
    var h := WithoutPrefix(trimmed, Inputs(RuleOf(network)));
    assert Within(h[..FindAny(h, 0, "?#")], h);
    assert Within(Bare(RuleOf(network), trimmed), h);
  }

  /** No account, or one in its canonical form without a NUL. */
  predicate Canonical(network: int, handle: string) {
    if network == -1 then handle == "" else 0 <= network < COUNT && Valid(network, handle) && NUL !in handle
  }

  /** The account taken from the legacy slots is canonical for its network and has no NUL. */
  lemma {:induction false} SlotsAreCanonical(urls: seq<string>, i: nat, network: int, handle: string)
    requires |urls| == 3 && i <= 3 && Slots(urls, i, network, handle).Some?
    requires forall k | 0 <= k < 3 :: NUL !in urls[k]
    requires Canonical(network, handle)
    ensures Canonical(Slots(urls, i, network, handle).value.0, Slots(urls, i, network, handle).value.1)
    decreases 3 - i
  {
    if i < 3 {
      var slot := if i == 0 then 2 else if i == 1 then 1 else 0;
      if urls[i] == "" || network >= 0 {
        SlotsAreCanonical(urls, i + 1, network, handle);
      } else {
        var found := Handle(slot, urls[i]);
        HandleWithin(slot, urls[i]);
        HandleIsCanonical(slot, urls[i]);
        SlotsAreCanonical(urls, i + 1, slot, found);
      }
    }
  }

  lemma {:induction false} NulFreeAt(fields: seq<Field>, k: nat)
    requires NulFree(fields) && k < |fields|
    ensures NUL !in fields[k]
  {
    if k > 0 { NulFreeAt(fields[1..], k - 1); }
  }

  lemma LegacyIsCanonical(fields: seq<Field>)
    requires |fields| == 4 || |fields| == 5
    requires NulFree(fields) && FromLegacy(fields).Some?
    ensures var p := FromLegacy(fields).value;
            ValidProfile(p) && p.network >= -1 && NUL !in p.handle
  {
    NulFreeAt(fields, 1);
    NulFreeAt(fields, 2);
    NulFreeAt(fields, 3);
    var urls := fields[1..4];
    assert urls[0] == fields[1] && urls[1] == fields[2] && urls[2] == fields[3];
    SlotsAreCanonical(urls, 0, -1, "");
  }

  /** Every accepted record of version 1 or 2 becomes a valid profile that survives encoding in the
      current version unchanged. */
  lemma MigrationSurvives(bytes: string, version: int)
    requires Octets(bytes) && version < VERSION && Decode(bytes, version).Some?
    ensures var p := Decode(bytes, version).value;
            && ValidProfile(p) && p.network >= -1 && NUL !in p.handle
            && Encode(p).Some? && Decode(Encode(p).value, VERSION) == Some(p)
  {
    var fields := JoinedOfGet(bytes, 0, if version == 2 then 5 else 4);
    LegacyIsCanonical(fields);
    DecodeOfEncodeIff(Decode(bytes, version).value);
  }

  // ---------------------------------------------------------------- the loops

  /** name_valid with its cursor and its count of code points. */
  method ReadName(input: string) returns (name: Option<string>)
    ensures name == Name(input)
  {
    if |input| > 160 { return None; }
    var s := TrimSpaces(input);
    if |s| > MAX_NAME { return None; }
    var i: nat, count: nat := 0, 0;
    while i < |s|
      invariant i <= |s|
      invariant Scan(s, 0, 0) == Scan(s, i, count)
    {
      var lead := LeadOf(s[i] as int);
      if lead.NoLead? || i + 1 + lead.extra > |s| { return None; }
      var cp := Tail(s, i + 1, lead.bits, lead.extra);
      if cp.None? || !CodeOk(cp.value, lead.extra) || count + 1 > MAX_COUNT { return None; }
      i, count := i + 1 + lead.extra, count + 1;
    }
    name := Some(s);
  }

  lemma {:induction false} PutFails(fields: seq<string>, k: nat)
    requires k <= |fields| && Put(fields[..k]).None?
    ensures Put(fields).None?
  {
    if k == |fields| {
      assert fields[..k] == fields;
    } else {
      assert fields[..|fields| - 1][..k] == fields[..k];
      PutFails(fields[..|fields| - 1], k);
    }
  }

  method PutFields(fields: seq<string>) returns (bytes: Option<string>)
    ensures bytes == Put(fields)
  {
    var used := "";
    for i := 0 to |fields|
      invariant Put(fields[..i]) == Some(used) && |used| <= METADATA
    {
      assert fields[..i + 1][..i] == fields[..i];
      if |used| + 2 + |fields[i]| > METADATA {
        PutFails(fields, i + 1);
        return None;
      }
      used := used + PutShort(|fields[i]|) + fields[i];
    }
    assert fields[..|fields|] == fields;
    bytes := Some(used);
  }

  function Prepended(done: seq<string>, rest: Option<seq<string>>): Option<seq<string>> {
    if rest.Some? then Some(done + rest.value) else None
  }

  lemma PrependedOne(done: seq<string>, f: string, rest: Option<seq<string>>)
    ensures Prepended([], rest) == rest
    ensures Prepended(done, Prepended([f], rest)) == Prepended(done + [f], rest)
  {
    if rest.Some? { assert [] + rest.value == rest.value && done + ([f] + rest.value) == done + [f] + rest.value; }
  }

  method GetFields(bytes: string, count: nat) returns (fields: Option<seq<string>>)
    ensures fields == Get(bytes, 0, count)
  {
    var used: nat, done: seq<string> := 0, [];
    PrependedOne([], "", Get(bytes, 0, count));
    for i := 0 to count
      invariant used <= |bytes|
      invariant Get(bytes, 0, count) == Prepended(done, Get(bytes, used, count - i))
    {
      if used + 2 > |bytes| { return None; }
      var n := GetShort(bytes[used], bytes[used + 1]);
      used := used + 2;
      if n > |bytes| - used || NUL in bytes[used..used + n] { return None; }
      PrependedOne(done, bytes[used..used + n], Get(bytes, used + n, count - i - 1));
      done := done + [bytes[used..used + n]];
      used := used + n;
    }
    assert done + [] == done;
    fields := if used == |bytes| then Some(done) else None;
  }
}
