/** firmware/factory_badge/main/social_networks.h: one social account, its canonical handle and URL,
    and the photo provider recognized from a link.  Characters stand for bytes. */
module SocialNetworks {
  import opened Wrappers

  datatype Rule = LinkedIn | X | GitHub | HuggingFace | YouTube | Url

  const COUNT := 6
  const MAX_URL := 180
  const MAX_INPUT := 260
  const NUL := '\0'

  function RuleOf(network: int): Rule
    requires 0 <= network < COUNT
  {
    if network == 0 then LinkedIn else if network == 1 then X else if network == 2 then GitHub
    else if network == 3 then HuggingFace else if network == 4 then YouTube else Url
  }

  function Key(rule: Rule): string {
    match rule
    case LinkedIn => "linkedin"
    case X => "x"
    case GitHub => "github"
    case HuggingFace => "huggingface"
    case YouTube => "youtube"
    case Url => "url"
  }

  function Prefix(rule: Rule): string {
    match rule
    case LinkedIn => "https://linkedin.com/in/"
    case X => "https://x.com/"
    case GitHub => "https://github.com/"
    case HuggingFace => "https://huggingface.co/"
    case YouTube => "https://youtube.com/@"
    case Url => ""
  }

  /** Accepted pasted profile-URL prefixes, tried in order. */
  function Inputs(rule: Rule): seq<string> {
    match rule
    case LinkedIn => ["https://www.linkedin.com/in/", "https://linkedin.com/in/", "linkedin.com/in/", "www.linkedin.com/in/"]
    case X => ["https://x.com/", "https://twitter.com/", "https://www.x.com/", "https://www.twitter.com/"]
    case GitHub => ["https://github.com/", "https://www.github.com/", "github.com/"]
    case HuggingFace => ["https://huggingface.co/", "huggingface.co/"]
    case YouTube => ["https://www.youtube.com/@", "https://youtube.com/@", "youtube.com/@", "www.youtube.com/@"]
    case Url => []
  }

  // ---------------------------------------------------------------- characters

  predicate LowerAlnum(c: char) { 'a' <= c <= 'z' || '0' <= c <= '9' }

  predicate Alnum(c: char) { LowerAlnum(c) || 'A' <= c <= 'Z' }

  function LowerChar(c: char): char { if 'A' <= c <= 'Z' then (c as int + 32) as char else c }

  function Lower(s: string): (l: string)
    ensures |l| == |s| && forall i | 0 <= i < |s| :: l[i] == LowerChar(s[i])
  {
    seq(|s|, i requires 0 <= i < |s| => LowerChar(s[i]))
  }

  /** strchr also finds the terminator of its text. */
  predicate Found(extra: string, c: char) { c in extra || c == NUL }

  predicate AllowedChars(s: string, extra: string) {
    forall i | 0 <= i < |s| :: Alnum(s[i]) || Found(extra, s[i])
  }

  predicate Chars(s: string, min: nat, max: nat, extra: string, alnumFirst: bool) {
    && min <= |s| <= max && (alnumFirst ==> |s| > 0 && Alnum(s[0]))
    && AllowedChars(s, extra)
  }

  /** Position of the first character of a set at or after p, or the end. */
  function FindAny(s: string, p: nat, stops: string): (i: nat)
    requires p <= |s|
    ensures p <= i <= |s| && (i < |s| ==> s[i] in stops) && forall k | p <= k < i :: s[k] !in stops
    decreases |s| - p
  {
    if p == |s| || s[p] in stops then p else FindAny(s, p + 1, stops)
  }

  predicate LabelChar(c: char) { LowerAlnum(c) || c == '-' }

  predicate LabelOk(s: string) {
    0 < |s| <= 63 && s[0] != '-' && s[|s| - 1] != '-' && forall i | 0 <= i < |s| :: LabelChar(s[i])
  }

  /** The loop over the labels from position start on. */
  predicate Labels(s: string, start: nat)
    requires start <= |s|
    decreases |s| - start
  {
    var end := FindAny(s, start, ".");
    LabelOk(s[start..end]) && (end == |s| || Labels(s, end + 1))
  }

  predicate Domain(s: string, max: nat) { s != "" && |s| <= max && '.' in s && Labels(s, 0) }

  predicate GitHubHandle(h: string) {
    Chars(h, 1, 39, "-", true) && h[|h| - 1] != '-' && forall i | 0 <= i < |h| - 1 :: !(h[i] == '-' && h[i + 1] == '-')
  }

  predicate XHandle(h: string) { Chars(h, 1, 15, "_", false) }

  predicate LinkedInHandle(h: string) { Chars(h, 1, 100, "-_", false) }

  predicate HuggingFaceHandle(h: string) { Chars(h, 1, 96, "-_.", true) }

  predicate YouTubeHandle(h: string) { Chars(h, 3, 30, "-_.", false) }

  predicate LinkChar(c: char) { ' ' < c && c as int < 127 && c !in "\"'<>\\`" }

  function HostEnd(u: string): (e: nat)
    requires 8 <= |u|
    ensures 8 <= e <= |u|
  {
    FindAny(u, 8, "/?#")
  }

  const HTTPS := "https://"

  predicate Link(u: string) {
    && HTTPS <= u && |u| <= MAX_URL && (forall i | 0 <= i < |u| :: LinkChar(u[i]))
    && Domain(Lower(u[8..HostEnd(u)]), 253)
  }

  predicate ValidFor(rule: Rule, h: string) {
    match rule
    case LinkedIn => LinkedInHandle(h)
    case X => XHandle(h)
    case GitHub => GitHubHandle(h)
    case HuggingFace => HuggingFaceHandle(h)
    case YouTube => YouTubeHandle(h)
    case Url => Link(h)
  }

  predicate Valid(network: int, h: string) { 0 <= network < COUNT && ValidFor(RuleOf(network), h) }

  // ---------------------------------------------------------------- canonical forms

  function TrimLeft(s: string): string { if |s| > 0 && s[0] == ' ' then TrimLeft(s[1..]) else s }

  function TrimRight(s: string): string { if |s| > 0 && s[|s| - 1] == ' ' then TrimRight(s[..|s| - 1]) else s }

  function Trim(s: string): string { TrimRight(TrimLeft(s)) }

  function WithoutPrefix(h: string, inputs: seq<string>): string {
    if |inputs| == 0 then h
    else if inputs[0] <= h then h[|inputs[0]|..]
    else WithoutPrefix(h, inputs[1..])
  }

  function WithoutSlash(h: string): string { if |h| > 0 && h[|h| - 1] == '/' then h[..|h| - 1] else h }

  function WithoutAt(h: string): string { if |h| > 0 && h[0] == '@' then h[1..] else h }

  function Bare(rule: Rule, trimmed: string): string {
    var h := WithoutPrefix(trimmed, Inputs(rule));
    WithoutAt(WithoutSlash(h[..FindAny(h, 0, "?#")]))
  }

  function Secured(h: string): string {
    if "http://" <= Lower(h) then HTTPS + h[7..]
    else if HTTPS <= Lower(h) then HTTPS + h[8..]
    else if h != "" then HTTPS + h
    else h
  }

  /** The stored value for an input, or "" when it is not valid for the network. */
  function Handle(network: int, input: string): string {
    if !(0 <= network < COUNT) || |input| > MAX_INPUT then ""
    else
      var rule := RuleOf(network);
      var h := if rule.Url? then Secured(Trim(input)) else Bare(rule, Trim(input));
      if ValidFor(rule, h) then h else ""
  }

  function UrlOf(network: int, h: string): string {
    if !Valid(network, h) then "" else Prefix(RuleOf(network)) + h
  }

  // ---------------------------------------------------------------- photo sources

  datatype Source = Source(provider: Option<string>, handle: string)

  function TrimSlashes(s: string): string { if |s| > 0 && s[|s| - 1] == '/' then TrimSlashes(s[..|s| - 1]) else s }

  /** The part of a link that names the profile: without scheme, query, fragment or final slashes. */
  function Rest(link: string): string
    requires 8 <= |link|
  {
    var rest := link[8..];
    TrimSlashes(rest[..FindAny(rest, 0, "?#")])
  }

  function HostOf(rest: string): string {
    var host := Lower(rest[..FindAny(rest, 0, "/")]);
    if "www." <= host then host[4..] else host
  }

  function PathOf(rest: string): string {
    var slash := FindAny(rest, 0, "/");
    if slash == |rest| then "" else rest[slash + 1..]
  }

  /** One path segment after a prefix. */
  function Single(path: string, prefix: string): string {
    if prefix <= path && '/' !in path[|prefix|..] then path[|prefix|..] else ""
  }

  const SUBSTACK := ".substack.com"

  function Recognized(host: string, path: string): Source {
    if host == "linkedin.com" && LinkedInHandle(Single(path, "in/")) then Source(Some("linkedin"), Single(path, "in/"))
    else if (host == "x.com" || host == "twitter.com") && XHandle(Single(path, "")) then Source(Some("x"), Single(path, ""))
    else if host == "github.com" && GitHubHandle(Single(path, "")) then Source(Some("github"), Single(path, ""))
    else if host == "huggingface.co" && HuggingFaceHandle(Single(path, "")) then Source(Some("huggingface"), Single(path, ""))
    else if host == "youtube.com" && YouTubeHandle(Single(path, "@")) then Source(Some("youtube"), Single(path, "@"))
    else RecognizedMore(host, path)
  }

  function RecognizedMore(host: string, path: string): Source {
    if host == "bsky.app" && Domain(Lower(Single(path, "profile/")), 253) then Source(Some("bluesky"), Lower(Single(path, "profile/")))
    else if host == "gitlab.com" && Chars(Single(path, ""), 2, 64, "-_.", true) then Source(Some("gitlab"), Single(path, ""))
    else if host == "dribbble.com" && Chars(Single(path, ""), 2, 32, "-_", true) then Source(Some("dribbble"), Single(path, ""))
    else if (host == "threads.net" || host == "threads.com") && Chars(Single(path, "@"), 1, 30, "._", false) then
      Source(Some("threads"), Single(path, "@"))
    else if |host| > |SUBSTACK| && host[|host| - |SUBSTACK|..] == SUBSTACK
            && '.' !in host[..|host| - |SUBSTACK|] && Domain(host, 253) then
      Source(Some("substack"), host[..|host| - |SUBSTACK|])
    else Source(None, "")
  }

  function Recognize(link: string): Source {
    if !Link(link) then Source(None, "") else Recognized(HostOf(Rest(link)), PathOf(Rest(link)))
  }

  function PhotoSource(network: int, h: string): Source {
    if !Valid(network, h) then Source(None, "")
    else if RuleOf(network).Url? then Recognize(h)
    else Source(Some(Key(RuleOf(network))), h)
  }

  // ---------------------------------------------------------------- a handle is its own canonical form

  /** The characters of a named network's handle are none of those the canonical form removes. */
  predicate Plain(h: string) {
    h != "" && forall i | 0 <= i < |h| :: h[i] != ' ' && h[i] != '/' && h[i] != '?' && h[i] != '#' && h[i] != '@'
  }

  lemma CharsArePlain(h: string, extra: string)
    requires h != "" && AllowedChars(h, extra)
    requires forall c | c in extra :: c == '-' || c == '_' || c == '.'
    ensures Plain(h)
  {
  }

  lemma ValidIsPlain(rule: Rule, h: string)
    requires ValidFor(rule, h) && !rule.Url?
    ensures Plain(h) && |h| <= 100
  {
    match rule
    case LinkedIn => CharsArePlain(h, "-_");
    case X => CharsArePlain(h, "_");
    case GitHub => CharsArePlain(h, "-");
    case HuggingFace => CharsArePlain(h, "-_.");
    case YouTube => CharsArePlain(h, "-_.");
  }

  lemma TrimNothing(s: string)
    requires s != "" ==> s[0] != ' ' && s[|s| - 1] != ' '
    ensures Trim(s) == s
  {
  }

  lemma {:induction false} NoPrefixMatches(h: string, inputs: seq<string>)
    requires '/' !in h && forall p | p in inputs :: '/' in p
    ensures WithoutPrefix(h, inputs) == h
  {
    if |inputs| > 0 {
      assert inputs[0] in inputs;
      var k :| 0 <= k < |inputs[0]| && inputs[0][k] == '/';
      if k < |h| { assert h[k] in h; }
      NoPrefixMatches(h, inputs[1..]);
    }
  }

  lemma InputsHaveSlashes(rule: Rule)
    ensures forall p | p in Inputs(rule) :: '/' in p
  {
  }

  /** What is left of a plain handle once cut, stripped and dropped of '@' is the handle. */
  lemma PlainStays(h: string)
    requires Plain(h)
    ensures WithoutAt(WithoutSlash(h[..FindAny(h, 0, "?#")])) == h
  {
    assert FindAny(h, 0, "?#") == |h|;
    assert h[..|h|] == h;
  }

  /** The profile URL of a handle is one of the accepted inputs, and its prefix is the one removed. */
  lemma OwnPrefixMatches(rule: Rule, h: string)
    requires !rule.Url?
    ensures WithoutPrefix(Prefix(rule) + h, Inputs(rule)) == h
  {
    var u, inputs := Prefix(rule) + h, Inputs(rule);
    match rule
    case LinkedIn =>
      assert inputs[0][8] == 'w' && u[8] == 'l';
      assert inputs[1..][0] == Prefix(rule);
    case YouTube =>
      assert inputs[0][8] == 'w' && u[8] == 'y';
      assert inputs[1..][0] == Prefix(rule);
    case X => case GitHub => case HuggingFace =>
  }

  lemma SecuredLink(u: string)
    requires HTTPS <= u
    ensures Secured(u) == u
  {
    assert Lower(u)[4] == 's';
    assert Lower(u)[..8] == HTTPS;
    assert u == HTTPS + u[8..];
  }

  lemma BareHandle(rule: Rule, h: string)
    requires !rule.Url? && Plain(h)
    ensures Trim(h) == h && Bare(rule, h) == h
  {
    TrimNothing(h);
    InputsHaveSlashes(rule);
    NoPrefixMatches(h, Inputs(rule));
    PlainStays(h);
  }

  lemma BareUrl(rule: Rule, h: string)
    requires !rule.Url? && Plain(h)
    ensures Trim(Prefix(rule) + h) == Prefix(rule) + h && Bare(rule, Prefix(rule) + h) == h
    ensures |Prefix(rule)| <= 24
  {
    var u := Prefix(rule) + h;
    assert u[0] == 'h' && u[|u| - 1] == h[|h| - 1];
    TrimNothing(u);
    OwnPrefixMatches(rule, h);
    PlainStays(h);
  }

  lemma HandleOfNamed(network: int, input: string, h: string)
    requires Valid(network, h) && !RuleOf(network).Url? && |input| <= MAX_INPUT
    requires Trim(input) == input && Bare(RuleOf(network), input) == h
    ensures Handle(network, input) == h
  {
  }

  lemma HandleOfLink(network: int, u: string)
    requires Valid(network, u) && RuleOf(network).Url?
    ensures Handle(network, u) == u
  {
    assert LinkChar(u[0]) && LinkChar(u[|u| - 1]);
    TrimNothing(u);
    SecuredLink(u);
  }

  lemma UrlIsPrefixed(network: int, h: string)
    requires Valid(network, h)
    ensures UrlOf(network, h) == Prefix(RuleOf(network)) + h
    ensures RuleOf(network).Url? ==> UrlOf(network, h) == h
  {
  }

  /** A stored handle, and its profile URL, are read back as that handle. */
  lemma HandleRoundTrip(network: int, h: string)
    requires Valid(network, h)
    ensures Handle(network, h) == h && Handle(network, UrlOf(network, h)) == h
  {
    var rule := RuleOf(network);
    UrlIsPrefixed(network, h);
    if rule.Url? {
      HandleOfLink(network, h);
    } else {
      ValidIsPlain(rule, h);
      BareHandle(rule, h);
      HandleOfNamed(network, h, h);
      BareUrl(rule, h);
      HandleOfNamed(network, Prefix(rule) + h, h);
    }
  }

  /** Whatever the input, a nonempty result is valid for the network and its own canonical form. */
  lemma HandleIsCanonical(network: int, input: string)
    requires Handle(network, input) != ""
    ensures Valid(network, Handle(network, input))
    ensures Handle(network, Handle(network, input)) == Handle(network, input)
  {
    HandleRoundTrip(network, Handle(network, input));
  }

  // ---------------------------------------------------------------- recognizing a profile URL

  /** A lowercase host without "www.". */
  predicate HostName(host: string) {
    host != "" && !("www." <= host) && forall i | 0 <= i < |host| :: LowerAlnum(host[i]) || host[i] == '-' || host[i] == '.'
  }

  /** A path as printed behind a host: it neither ends the link early nor is trimmed. */
  predicate PathText(path: string) {
    path != "" && path[|path| - 1] != '/' && forall i | 0 <= i < |path| :: path[i] != '?' && path[i] != '#'
  }

  function LinkText(host: string, path: string): string { HTTPS + host + "/" + path }

  lemma LowerHost(host: string)
    requires HostName(host)
    ensures Lower(host) == host
  {
  }

  lemma HostEndOf(host: string, path: string)
    requires HostName(host)
    ensures HostEnd(LinkText(host, path)) == 8 + |host|
    ensures LinkText(host, path)[8..8 + |host|] == host
  {
    var u := LinkText(host, path);
    assert u[8..8 + |host|] == host;
    assert forall k | 8 <= k < 8 + |host| :: u[k] == host[k - 8];
    assert u[8 + |host|] == '/';
  }

  lemma RestOf(host: string, path: string)
    requires HostName(host) && PathText(path)
    ensures Rest(LinkText(host, path)) == host + "/" + path
  {
    var rest := host + "/" + path;
    assert LinkText(host, path)[8..] == rest;
    assert FindAny(rest, 0, "?#") == |rest|;
    assert rest[..|rest|] == rest && rest[|rest| - 1] == path[|path| - 1];
  }

  lemma PartsOf(host: string, path: string)
    requires HostName(host)
    ensures HostOf(host + "/" + path) == host && PathOf(host + "/" + path) == path
  {
    var rest := host + "/" + path;
    assert forall k | 0 <= k < |host| :: rest[k] == host[k];
    assert rest[|host|] == '/';
    assert FindAny(rest, 0, "/") == |host|;
    assert rest[..|host|] == host && rest[|host| + 1..] == path;
    LowerHost(host);
  }

  /** A link printed from a host and a path is recognized from these parts. */
  lemma RecognizedParts(host: string, path: string)
    requires HostName(host) && Domain(host, 253) && PathText(path) && 9 + |host| + |path| <= MAX_URL
    requires forall i | 0 <= i < |path| :: LinkChar(path[i])
    ensures Recognize(LinkText(host, path)) == Recognized(host, path)
  {
    var u := LinkText(host, path);
    HostEndOf(host, path);
    LowerHost(host);
    LinkTextIsPrintable(host, path);
    RestOf(host, path);
    PartsOf(host, path);
  }

  lemma LinkTextIsPrintable(host: string, path: string)
    requires HostName(host) && forall i | 0 <= i < |path| :: LinkChar(path[i])
    ensures HTTPS <= LinkText(host, path) && forall i | 0 <= i < |LinkText(host, path)| :: LinkChar(LinkText(host, path)[i])
  {
    var u := LinkText(host, path);
    assert forall c | c in HTTPS :: LinkChar(c);
    assert forall c | c in host :: LinkChar(c);
    forall i | 0 <= i < |u|
      ensures LinkChar(u[i])
    {
      if i < 8 { assert u[i] == HTTPS[i]; }
      else if i < 8 + |host| { assert u[i] == host[i - 8]; }
      else if i == 8 + |host| { assert u[i] == '/'; }
      else { assert u[i] == path[i - 9 - |host|]; }
    }
  }

  function HostFor(rule: Rule): string {
    match rule
    case LinkedIn => "linkedin.com"
    case X => "x.com"
    case GitHub => "github.com"
    case HuggingFace => "huggingface.co"
    case YouTube => "youtube.com"
    case Url => ""
  }

  function Before(rule: Rule): string {
    if rule.LinkedIn? then "in/" else if rule.YouTube? then "@" else ""
  }

  /** A host of two labels is a domain. */
  lemma TwoLabels(a: string, b: string)
    requires LabelOk(a) && LabelOk(b)
    ensures Domain(a + "." + b, 253) && (!("www." <= a + "." + b) ==> HostName(a + "." + b))
  {
    var s := a + "." + b;
    assert s[|a|] == '.';
    assert forall k | 0 <= k < |a| :: s[k] == a[k];
    assert FindAny(s, 0, ".") == |a| && s[0..|a|] == a;
    var rest := |a| + 1;
    assert forall k | rest <= k < |s| :: s[k] == b[k - rest];
    assert FindAny(s, rest, ".") == |s| && s[rest..|s|] == b;
  }

  ghost predicate GoodHost(host: string) { HostName(host) && Domain(host, 253) && |host| <= 14 }

  lemma TwoLabelHost(host: string, a: string, b: string)
    requires LabelOk(a) && LabelOk(b) && host == a + "." + b && a[0] != 'w' && |host| <= 14
    ensures GoodHost(host)
  {
    TwoLabels(a, b);
    assert host[0] == a[0];
  }

  lemma LinkedInHost()
    ensures GoodHost("linkedin.com")
  {
    TwoLabelHost("linkedin.com", "linkedin", "com");
  }

  lemma XHost()
    ensures GoodHost("x.com")
  {
    TwoLabelHost("x.com", "x", "com");
  }

  lemma GitHubHost()
    ensures GoodHost("github.com")
  {
    TwoLabelHost("github.com", "github", "com");
  }

  lemma HuggingFaceHost()
    ensures GoodHost("huggingface.co")
  {
    TwoLabelHost("huggingface.co", "huggingface", "co");
  }

  lemma YouTubeHost()
    ensures GoodHost("youtube.com")
  {
    TwoLabelHost("youtube.com", "youtube", "com");
  }

  lemma HostsAreDomains(rule: Rule)
    requires !rule.Url?
    ensures GoodHost(HostFor(rule))
  {
    match rule
    case LinkedIn => LinkedInHost();
    case X => XHost();
    case GitHub => GitHubHost();
    case HuggingFace => HuggingFaceHost();
    case YouTube => YouTubeHost();
  }

  lemma PlainPrefixText(rule: Rule)
    requires rule.X? || rule.GitHub? || rule.HuggingFace?
    ensures Prefix(rule) == HTTPS + HostFor(rule) + "/"
  {
    match rule
    case X => case GitHub => case HuggingFace =>
  }

  lemma LinkedInPrefixText()
    ensures Prefix(LinkedIn) == HTTPS + HostFor(LinkedIn) + "/" + Before(LinkedIn)
  {
  }

  lemma YouTubePrefixText()
    ensures Prefix(YouTube) == HTTPS + HostFor(YouTube) + "/" + Before(YouTube)
  {
  }

  lemma PrefixText(rule: Rule)
    requires !rule.Url?
    ensures Prefix(rule) == HTTPS + HostFor(rule) + "/" + Before(rule)
  {
    if rule.LinkedIn? { LinkedInPrefixText(); }
    else if rule.YouTube? { YouTubePrefixText(); }
    else {
      PlainPrefixText(rule);
      assert Before(rule) == "";
    }
  }

  lemma Regrouped(a: string, b: string, c: string, d: string)
    ensures a + b + "/" + c + d == a + b + "/" + (c + d)
  {
  }

  lemma UrlText(rule: Rule, h: string)
    requires !rule.Url?
    ensures Prefix(rule) + h == LinkText(HostFor(rule), Before(rule) + h)
  {
    PrefixText(rule);
    Regrouped(HTTPS, HostFor(rule), Before(rule), h);
  }

  lemma OwnPathIsSingle(rule: Rule, h: string)
    requires !rule.Url? && ValidFor(rule, h)
    ensures Single(Before(rule) + h, Before(rule)) == h
    ensures Recognized(HostFor(rule), Before(rule) + h) == Source(Some(Key(rule)), h)
  {
    ValidIsPlain(rule, h);
    assert (Before(rule) + h)[|Before(rule)|..] == h;
    DifferentHosts(rule);
  }

  lemma DifferentHosts(rule: Rule)
    ensures rule != LinkedIn ==> HostFor(rule) != "linkedin.com"
    ensures rule != X ==> HostFor(rule) != "x.com" && HostFor(rule) != "twitter.com"
    ensures rule != GitHub ==> HostFor(rule) != "github.com"
    ensures rule != HuggingFace ==> HostFor(rule) != "huggingface.co"
  {
  }

  /** The characters of a NUL-free handle can be printed in a link. */
  lemma HandleIsPrintable(rule: Rule, h: string)
    requires !rule.Url? && ValidFor(rule, h) && NUL !in h
    ensures forall i | 0 <= i < |h| :: LinkChar(h[i])
  {
    forall i | 0 <= i < |h|
      ensures LinkChar(h[i])
    {
      assert h[i] in h;
      assert Alnum(h[i]) || h[i] == '-' || h[i] == '_' || h[i] == '.';
    }
  }

  lemma PathOfHandle(rule: Rule, h: string)
    requires !rule.Url? && ValidFor(rule, h) && NUL !in h
    ensures PathText(Before(rule) + h) && forall i | 0 <= i < |Before(rule) + h| :: LinkChar((Before(rule) + h)[i])
  {
    ValidIsPlain(rule, h);
    HandleIsPrintable(rule, h);
    var path, n := Before(rule) + h, |Before(rule)|;
    assert forall i | n <= i < |path| :: path[i] == h[i - n];
    assert path[|path| - 1] == h[|h| - 1];
  }

  /** Scanning a profile URL finds the account it was made for: the same provider and handle, exactly
      when the handle has no NUL (which strchr lets through). */
  lemma RecognizeFindsAccountIff(network: int, h: string)
    requires Valid(network, h) && !RuleOf(network).Url?
    ensures Recognize(UrlOf(network, h)) == Source(Some(Key(RuleOf(network))), h) <==> NUL !in h
  {
    var rule := RuleOf(network);
    UrlIsPrefixed(network, h);
    if NUL in h {
      NulIsNoLink(Prefix(rule), h);
    } else {
      ValidIsPlain(rule, h);
      HostsAreDomains(rule);
      UrlText(rule, h);
      PathOfHandle(rule, h);
      RecognizedParts(HostFor(rule), Before(rule) + h);
      OwnPathIsSingle(rule, h);
    }
  }

  lemma NulIsNoLink(prefix: string, h: string)
    requires NUL in h
    ensures Recognize(prefix + h) == Source(None, "")
  {
    var i :| 0 <= i < |h| && h[i] == NUL;
    var u := prefix + h;
    assert u[|prefix| + i] == NUL && !LinkChar(u[|prefix| + i]);
  }

  // ---------------------------------------------------------------- the loops

  method CheckChars(s: string, min: nat, max: nat, extra: string, alnumFirst: bool) returns (ok: bool)
    ensures ok == Chars(s, min, max, extra, alnumFirst)
  {
    if |s| < min || |s| > max || (alnumFirst && (|s| == 0 || !Alnum(s[0]))) { return false; }
    for i := 0 to |s|
      invariant forall k | 0 <= k < i :: Alnum(s[k]) || Found(extra, s[k])
    {
      if !Alnum(s[i]) && !Found(extra, s[i]) { return false; }
    }
    ok := true;
  }

  method CheckLabel(s: string, start: nat, end: nat) returns (ok: bool)
    requires start <= end <= |s|
    ensures ok == LabelOk(s[start..end])
  {
    if end == start || end - start > 63 || s[start] == '-' || s[end - 1] == '-' { return false; }
    for i := start to end
      invariant forall k | start <= k < i :: LabelChar(s[k])
    {
      if !LabelChar(s[i]) {
        assert s[start..end][i - start] == s[i];
        return false;
      }
    }
    ok := true;
  }

  method CheckDomain(s: string, max: nat) returns (ok: bool)
    ensures ok == Domain(s, max)
  {
    if s == "" || |s| > max || '.' !in s { return false; }
    var start: nat := 0;
    while start <= |s|
      invariant start <= |s| + 1
      invariant start <= |s| ==> Labels(s, 0) == Labels(s, start)
      invariant start == |s| + 1 ==> Labels(s, 0)
    {
      var end := FindAny(s, start, ".");
      var good := CheckLabel(s, start, end);
      if !good { return false; }
      start := end + 1;
    }
    ok := true;
  }

  method TrimSpaces(input: string) returns (s: string)
    ensures s == Trim(input)
  {
    s := input;
    while |s| > 0 && s[0] == ' '
      invariant TrimLeft(input) == TrimLeft(s)
    {
      s := s[1..];
    }
    while |s| > 0 && s[|s| - 1] == ' '
      invariant Trim(input) == TrimRight(s)
    {
      s := s[..|s| - 1];
    }
  }

  /** handle: the input edited step by step. */
  method ReadHandle(network: int, input: string) returns (handle: string)
    ensures handle == Handle(network, input)
  {
    if network < 0 || network >= COUNT || |input| > MAX_INPUT { return ""; }
    var h := TrimSpaces(input);
    var rule := RuleOf(network);
    if rule.Url? {
      h := Secured(h);
    } else {
      h := StripPrefix(h, Inputs(rule));
      h := h[..FindAny(h, 0, "?#")];
      if h != "" && h[|h| - 1] == '/' { h := h[..|h| - 1]; }
      if h != "" && h[0] == '@' { h := h[1..]; }
    }
    handle := if ValidFor(rule, h) then h else "";
  }

  method StripPrefix(h: string, inputs: seq<string>) returns (r: string)
    ensures r == WithoutPrefix(h, inputs)
  {
    for i := 0 to |inputs|
      invariant WithoutPrefix(h, inputs) == WithoutPrefix(h, inputs[i..])
    {
      assert inputs[i..][0] == inputs[i] && inputs[i..][1..] == inputs[i + 1..];
      if inputs[i] <= h { return h[|inputs[i]|..]; }
    }
    r := h;
  }
}
