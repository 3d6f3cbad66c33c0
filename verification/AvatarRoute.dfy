/** services/avatar/src/route.ts: the grammar of photo requests, and that it serves every photo source
    the badge can name. */
module AvatarRoute {
  import opened Wrappers
  import opened SocialNetworks

  /** decodeURIComponent; None stands for the exception on a malformed escape. */
  type Decoder = string -> Option<string>

  datatype Request = Request(network: string, handle: string)

  /** What parse does: null, a request, or an uncaught exception. */
  datatype Outcome = Refused | Accepted(request: Request) | Thrown

  predicate AllOf(h: string, extra: string) { forall i | 0 <= i < |h| :: LowerAlnum(h[i]) || h[i] in extra }

  /** label: a letter or digit, then up to 61 label characters and a letter or digit. */
  predicate LabelPattern(s: string) {
    1 <= |s| <= 63 && LowerAlnum(s[0]) && LowerAlnum(s[|s| - 1]) && AllOf(s, "-")
  }

  /** (label.)+label, from position p on; `dotted` says that a label and its dot came before. */
  predicate DottedPattern(s: string, p: nat, dotted: bool)
    requires p <= |s|
    decreases |s| - p
  {
    var end := FindAny(s, p, ".");
    LabelPattern(s[p..end]) && if end == |s| then dotted else DottedPattern(s, end + 1, true)
  }

  predicate GitHubPattern(h: string) {
    1 <= |h| <= 39 && LowerAlnum(h[0]) &&
    forall i | 1 <= i < |h| :: LowerAlnum(h[i]) || (h[i] == '-' && i + 1 < |h| && LowerAlnum(h[i + 1]))
  }

  predicate FirstThen(h: string, min: nat, max: nat, extra: string) {
    min <= |h| <= max && |h| > 0 && LowerAlnum(h[0]) && AllOf(h, extra)
  }

  /** The one name of `[a-z]+` that the table, an object literal, inherits: its value is no pattern. */
  const INHERITED := "constructor"

  /** The table's own patterns; another network has none. */
  predicate Accepts(network: string, h: string) {
    if network == "linkedin" then 1 <= |h| <= 100 && AllOf(h, "_-")
    else if network == "x" then 1 <= |h| <= 15 && AllOf(h, "_")
    else if network == "github" then GitHubPattern(h)
    else if network == "huggingface" then FirstThen(h, 1, 96, "._-")
    else if network == "youtube" then 3 <= |h| <= 30 && AllOf(h, "._-")
    else AcceptsMore(network, h)
  }

  predicate AcceptsMore(network: string, h: string) {
    if network == "bluesky" then 1 <= |h| <= 253 && DottedPattern(h, 0, false)
    else if network == "gitlab" then FirstThen(h, 2, 64, "._-")
    else if network == "substack" then LabelPattern(h)
    else if network == "dribbble" then FirstThen(h, 2, 32, "_-")
    else if network == "threads" then 1 <= |h| <= 30 && AllOf(h, "._")
    else false
  }

  predicate LowerLetters(s: string) { s != "" && forall i | 0 <= i < |s| :: 'a' <= s[i] <= 'z' }

  function Parsed(pathname: string, decode: Decoder): Outcome {
    if !("/v1/" <= pathname) then Refused else Segments(pathname[4..], decode)
  }

  function Segments(rest: string, decode: Decoder): Outcome {
    var slash := FindAny(rest, 0, "/");
    if slash == |rest| || !LowerLetters(rest[..slash]) then Refused
    else if rest[slash + 1..] == "" || '/' in rest[slash + 1..] then Refused
    else
      match decode(rest[slash + 1..])
      case None => Refused
      case Some(text) =>
        var handle := Lower(WithoutAt(text));
        if rest[..slash] == INHERITED then Thrown
        else if Accepts(rest[..slash], handle) then Accepted(Request(rest[..slash], handle))
        else Refused
  }

  lemma FirstSlash(network: string, segment: string)
    requires '/' !in network
    ensures var rest := network + "/" + segment;
            FindAny(rest, 0, "/") == |network| && rest[..|network|] == network && rest[|network| + 1..] == segment
  {
    var rest := network + "/" + segment;
    assert forall k | 0 <= k < |network| :: rest[k] == network[k];
    assert rest[|network|] == '/';
  }

  /** parse throws if and only if the network is the inherited name and its segment decodes. */
  lemma ThrowsIff(pathname: string, decode: Decoder)
    ensures Parsed(pathname, decode) == Thrown <==>
              exists segment :: pathname == PathFor(INHERITED, segment) && segment != "" && '/' !in segment && decode(segment).Some?
  {
    if Parsed(pathname, decode) == Thrown {
      var rest := pathname[4..];
      var slash := FindAny(rest, 0, "/");
      var segment := rest[slash + 1..];
      assert pathname == "/v1/" + rest && rest == rest[..slash] + "/" + segment;
      assert pathname == PathFor(INHERITED, segment);
    }
    forall segment | pathname == PathFor(INHERITED, segment) && segment != "" && '/' !in segment && decode(segment).Some?
      ensures Parsed(pathname, decode) == Thrown
    {
      FirstSlash(INHERITED, segment);
      assert pathname[4..] == INHERITED + "/" + segment;
    }
  }

  // ---------------------------------------------------------------- every photo source is served

  /** decodeURIComponent leaves text without '%' alone. */
  ghost predicate DecodesPlainText(decode: Decoder) {
    forall s: string {:trigger decode(s)} :: '%' !in s ==> decode(s) == Some(s)
  }

  function PathFor(provider: string, handle: string): string { "/v1/" + (provider + "/" + handle) }

  /** A handle that travels unchanged as a path segment. */
  predicate Segment(h: string) { h != "" && h[0] != '@' && '/' !in h && '%' !in h }

  lemma ParsedSegment(provider: string, h: string, decode: Decoder)
    requires LowerLetters(provider) && Segment(h) && DecodesPlainText(decode)
    ensures Parsed(PathFor(provider, h), decode) ==
              if provider == INHERITED then Thrown
              else if Accepts(provider, Lower(h)) then Accepted(Request(provider, Lower(h))) else Refused
  {
    var rest := provider + "/" + h;
    assert PathFor(provider, h)[4..] == rest;
    FirstSlash(provider, h);
  }

  lemma LowerOfAllowed(h: string, extra: string, pattern: string)
    requires AllowedChars(h, extra) && NUL !in h
    requires forall c | c in extra :: c in pattern && !('A' <= c <= 'Z')
    ensures AllOf(Lower(h), pattern)
  {
    forall i | 0 <= i < |h|
      ensures LowerAlnum(Lower(h)[i]) || Lower(h)[i] in pattern
    {
      assert h[i] in h;
    }
  }

  lemma NulIsRefused(h: string, pattern: string)
    requires NUL in h && NUL !in pattern
    ensures !AllOf(Lower(h), pattern)
  {
    var i :| 0 <= i < |h| && h[i] == NUL;
    assert Lower(h)[i] == NUL;
  }

  lemma AllowedIsSegment(h: string, extra: string)
    requires h != "" && AllowedChars(h, extra) && forall c | c in extra :: c == '-' || c == '_' || c == '.'
    ensures Segment(h)
  {
  }

  lemma GitHubIsServed(h: string)
    requires GitHubHandle(h)
    ensures GitHubPattern(Lower(h)) <==> NUL !in h
  {
    var l := Lower(h);
    if NUL in h {
      var i :| 0 <= i < |h| && h[i] == NUL;
      assert l[i] == NUL;
    } else {
      forall i | 1 <= i < |l|
        ensures LowerAlnum(l[i]) || (l[i] == '-' && i + 1 < |l| && LowerAlnum(l[i + 1]))
      {
        assert h[i] in h;
        if i + 1 < |h| { assert h[i + 1] in h; }
      }
      assert h[0] in h;
    }
  }

  /** A named network's handle is accepted exactly when it has no NUL. */
  lemma NamedIsServed(rule: Rule, h: string)
    requires !rule.Url? && ValidFor(rule, h)
    ensures Accepts(Key(rule), Lower(h)) <==> NUL !in h
    ensures Segment(h) && LowerLetters(Key(rule)) && Key(rule) != INHERITED
  {
    ValidIsPlain(rule, h);
    match rule
    case LinkedIn => AllowedIsSegment(h, "-_"); if NUL in h { NulIsRefused(h, "_-"); } else { LowerOfAllowed(h, "-_", "_-"); }
    case X => AllowedIsSegment(h, "_"); if NUL in h { NulIsRefused(h, "_"); } else { LowerOfAllowed(h, "_", "_"); }
    case GitHub => AllowedIsSegment(h, "-"); GitHubIsServed(h);
    case HuggingFace => AllowedIsSegment(h, "-_."); if NUL in h { NulIsRefused(h, "._-"); } else { LowerOfAllowed(h, "-_.", "._-"); }
    case YouTube => AllowedIsSegment(h, "-_."); if NUL in h { NulIsRefused(h, "._-"); } else { LowerOfAllowed(h, "-_.", "._-"); }
  }

  lemma LabelIsPattern(s: string)
    ensures LabelOk(s) <==> LabelPattern(s)
  {
    if 0 < |s| {
      assert LabelOk(s) ==> LabelChar(s[0]) && LabelChar(s[|s| - 1]);
    }
  }

  /** The label loop of the badge and the pattern of the relay agree. */
  lemma {:induction false} LabelsArePattern(s: string, start: nat, dotted: bool)
    requires start <= |s|
    ensures DottedPattern(s, start, dotted) <==> Labels(s, start) && (dotted || FindAny(s, start, ".") < |s|)
    decreases |s| - start
  {
    var end := FindAny(s, start, ".");
    LabelIsPattern(s[start..end]);
    if end < |s| { LabelsArePattern(s, end + 1, true); }
  }

  lemma {:induction false} LabelsAreLower(s: string, start: nat, i: nat)
    requires start <= i < |s| && Labels(s, start)
    ensures LabelChar(s[i]) || s[i] == '.'
    decreases |s| - start
  {
    var end := FindAny(s, start, ".");
    if i < end { assert s[start..end][i - start] == s[i]; } else if end < i { LabelsAreLower(s, end + 1, i); }
  }

  /** The badge's domain check and the relay's domain pattern are the same. */
  lemma DomainIsPattern(s: string)
    ensures Domain(s, 253) <==> Accepts("bluesky", s)
  {
    LabelsArePattern(s, 0, false);
    if '.' in s {
      var i :| 0 <= i < |s| && s[i] == '.';
      assert FindAny(s, 0, ".") <= i;
    }
  }

  lemma DomainIsServed(s: string)
    requires Domain(s, 253)
    ensures Accepts("bluesky", s) && Lower(s) == s && Segment(s)
  {
    forall i | 0 <= i < |s|
      ensures LabelChar(s[i]) || s[i] == '.'
    {
      LabelsAreLower(s, 0, i);
    }
    DomainIsPattern(s);
  }

  lemma SubstackIsServed(host: string, name: string)
    requires |host| > |SUBSTACK| && host[|host| - |SUBSTACK|..] == SUBSTACK && name == host[..|host| - |SUBSTACK|]
    requires '.' !in name && Domain(host, 253)
    ensures Accepts("substack", Lower(name)) && Lower(name) == name && Segment(name)
  {
    assert host[|name|] == SUBSTACK[0];
    assert forall k | 0 <= k < |name| :: host[k] == name[k];
    assert FindAny(host, 0, ".") == |name| && host[0..|name|] == name;
    LabelIsPattern(name);
    assert forall i | 0 <= i < |name| :: LabelChar(name[i]);
  }

  predicate Printable(s: string) { forall i | 0 <= i < |s| :: LinkChar(s[i]) }

  lemma SinglePrints(path: string, prefix: string)
    requires Printable(path)
    ensures NUL !in Single(path, prefix)
  {
  }

  ghost predicate Served(source: Source) {
    source.provider.Some? ==>
      LowerLetters(source.provider.value) && Segment(source.handle) && Accepts(source.provider.value, Lower(source.handle))
  }

  lemma SegmentIsServed(rule: Rule, h: string)
    requires !rule.Url? && ValidFor(rule, h) && NUL !in h
    ensures Served(Source(Some(Key(rule)), h))
  {
    NamedIsServed(rule, h);
  }

  lemma CharsAreServed(provider: string, h: string, min: nat, max: nat, extra: string, first: bool)
    requires
      || (provider == "gitlab" && (min, max, extra, first) == (2, 64, "-_.", true))
      || (provider == "dribbble" && (min, max, extra, first) == (2, 32, "-_", true))
      || (provider == "threads" && (min, max, extra, first) == (1, 30, "._", false))
    requires Chars(h, min, max, extra, first) && NUL !in h
    ensures Served(Source(Some(provider), h))
  {
    AllowedIsSegment(h, extra);
    if provider == "gitlab" { LowerOfAllowed(h, extra, "._-"); }
    else if provider == "dribbble" { LowerOfAllowed(h, extra, "_-"); }
    else { LowerOfAllowed(h, extra, "._"); }
  }

  lemma RecognizedMoreIsServed(host: string, path: string)
    requires Printable(path)
    ensures Served(RecognizedMore(host, path))
  {
    SinglePrints(path, "");
    SinglePrints(path, "@");
    if host == "bsky.app" && Domain(Lower(Single(path, "profile/")), 253) {
      BlueskyIsServed(Lower(Single(path, "profile/")));
    } else if host == "gitlab.com" && Chars(Single(path, ""), 2, 64, "-_.", true) {
      CharsAreServed("gitlab", Single(path, ""), 2, 64, "-_.", true);
    } else if host == "dribbble.com" && Chars(Single(path, ""), 2, 32, "-_", true) {
      CharsAreServed("dribbble", Single(path, ""), 2, 32, "-_", true);
    } else if (host == "threads.net" || host == "threads.com") && Chars(Single(path, "@"), 1, 30, "._", false) {
      CharsAreServed("threads", Single(path, "@"), 1, 30, "._", false);
    } else {
      SubstackPartIsServed(host);
    }
  }

  lemma BlueskyIsServed(s: string)
    requires Domain(s, 253)
    ensures Served(Source(Some("bluesky"), s))
  {
    DomainIsServed(s);
  }

  lemma SubstackPartIsServed(host: string)
    ensures |host| > |SUBSTACK| && host[|host| - |SUBSTACK|..] == SUBSTACK && '.' !in host[..|host| - |SUBSTACK|] && Domain(host, 253) ==>
              Served(Source(Some("substack"), host[..|host| - |SUBSTACK|]))
  {
    if |host| > |SUBSTACK| && host[|host| - |SUBSTACK|..] == SUBSTACK && '.' !in host[..|host| - |SUBSTACK|] && Domain(host, 253) {
      SubstackIsServed(host, host[..|host| - |SUBSTACK|]);
    }
  }

  lemma RecognizedIsServed(host: string, path: string)
    requires Printable(path)
    ensures Served(Recognized(host, path))
  {
    SinglePrints(path, "in/");
    SinglePrints(path, "");
    SinglePrints(path, "@");
    if host == "linkedin.com" && LinkedInHandle(Single(path, "in/")) {
      SegmentIsServed(LinkedIn, Single(path, "in/"));
    } else if (host == "x.com" || host == "twitter.com") && XHandle(Single(path, "")) {
      SegmentIsServed(X, Single(path, ""));
    } else if host == "github.com" && GitHubHandle(Single(path, "")) {
      SegmentIsServed(GitHub, Single(path, ""));
    } else if host == "huggingface.co" && HuggingFaceHandle(Single(path, "")) {
      SegmentIsServed(HuggingFace, Single(path, ""));
    } else if host == "youtube.com" && YouTubeHandle(Single(path, "@")) {
      SegmentIsServed(YouTube, Single(path, "@"));
    } else {
      RecognizedMoreIsServed(host, path);
    }
  }

  lemma {:induction false} TrimmedPrints(s: string)
    requires Printable(s)
    ensures Printable(TrimSlashes(s))
  {
    if |s| > 0 && s[|s| - 1] == '/' { TrimmedPrints(s[..|s| - 1]); }
  }

  lemma PathPrints(link: string)
    requires Link(link)
    ensures Printable(PathOf(Rest(link)))
  {
    var rest := link[8..];
    assert Printable(rest[..FindAny(rest, 0, "?#")]);
    TrimmedPrints(rest[..FindAny(rest, 0, "?#")]);
  }

  lemma InheritedHasNoPattern(h: string)
    ensures !Accepts(INHERITED, h)
  {
  }

  /** A source made for the relay is answered as its pattern says, and never with an exception. */
  lemma AnswerIs(source: Source, decode: Decoder)
    requires source.provider.Some? && LowerLetters(source.provider.value) && Segment(source.handle)
    requires DecodesPlainText(decode) && source.provider.value != INHERITED
    ensures var answer := Parsed(PathFor(source.provider.value, source.handle), decode);
            var handle := Lower(source.handle);
            answer == if Accepts(source.provider.value, handle) then Accepted(Request(source.provider.value, handle)) else Refused
  {
    ParsedSegment(source.provider.value, source.handle, decode);
  }

  lemma NamedSource(network: int, h: string)
    requires Valid(network, h) && !RuleOf(network).Url? && PhotoSource(network, h).provider.Some?
    ensures var source := PhotoSource(network, h);
            && LowerLetters(source.provider.value) && Segment(source.handle) && source.provider.value != INHERITED
            && (Accepts(source.provider.value, Lower(source.handle)) <==> NUL !in h)
  {
    NamedIsServed(RuleOf(network), h);
  }

  lemma LinkSource(network: int, h: string)
    requires Valid(network, h) && RuleOf(network).Url? && PhotoSource(network, h).provider.Some?
    ensures var source := PhotoSource(network, h);
            && NUL !in h && LowerLetters(source.provider.value) && Segment(source.handle) && source.provider.value != INHERITED
            && Accepts(source.provider.value, Lower(source.handle))
  {
    PathPrints(h);
    RecognizedIsServed(HostOf(Rest(h)), PathOf(Rest(h)));
    InheritedHasNoPattern(Lower(PhotoSource(network, h).handle));
    assert NUL !in h by { assert forall c | c in h :: LinkChar(c); }
  }

  /** Every photo source the badge names is served by the relay as that provider and the lowercased
      handle.  The one exception is a NUL, which strchr admits into a named network's handle: such a
      source is refused. */
  lemma PhotoSourceIsServedIff(network: int, h: string, decode: Decoder)
    requires Valid(network, h) && DecodesPlainText(decode) && PhotoSource(network, h).provider.Some?
    ensures var source := PhotoSource(network, h);
            var answer := Parsed(PathFor(source.provider.value, source.handle), decode);
            && (answer == Accepted(Request(source.provider.value, Lower(source.handle))) <==> NUL !in h)
            && (answer == Refused <==> NUL in h)
  {
    if RuleOf(network).Url? { LinkSource(network, h); } else { NamedSource(network, h); }
    AnswerIs(PhotoSource(network, h), decode);
  }
}
