/** firmware/devices_badge/conference_transport.h: one HTTP request per connection, received in
    whatever chunks the socket delivers, and one reply, sent in whatever pieces it accepts. */
module ConferenceTransport {
  import opened Wrappers
  import opened HttpGate

  const IO_BUDGET := 2048

  /** A reply as the handlers give it. */
  datatype Reply = Reply(code: int, media: string, body: string, redirect: bool)

  /** What the header handler does: allow the body, queue a reply, or neither. */
  datatype Action = ReadBody | Respond(reply: Reply) | Nothing

  datatype Handlers = Handlers(headers: Request -> Action, body: (Request, string) -> Reply)

  /** One connection while it receives: header bytes, body bytes, a queued reply, or closed because the
      handler did nothing. */
  datatype Conn =
    | InHeaders(header: string)
    | InBody(request: Request, body: string)
    | Replying(request: Request, received: string, reply: Reply)
    | Dropped

  const TOO_LARGE := Reply(431, "application/json", "{\"message\":\"Request headers too large.\"}", false)

  function Rejection(code: int): Reply {
    Reply(code, "application/json", "{\"message\":\"Request rejected. Reload setup.\"}", false)
  }

  /** A complete header: the gate decides, then the handler. */
  function Headed(h: Handlers, header: string): Conn {
    var (code, request) := Inspected(header);
    if code != 0 then Replying(NO_REQUEST, "", Rejection(code)) else Handled(h, request)
  }

  function Handled(h: Handlers, request: Request): Conn {
    match h.headers(request)
    case ReadBody => if request.post && request.bodyLength > 0 then InBody(request, "") else Dropped
    case Respond(reply) => Replying(request, "", reply)
    case Nothing => Dropped
  }

  /** One received byte. */
  function Byte(h: Handlers, c: Conn, b: char): Conn {
    match c
    case InHeaders(header) =>
      if |header| == HEADER_LIMIT then Replying(NO_REQUEST, "", TOO_LARGE)
      else if EndsBlank(header + [b]) then Headed(h, header + [b])
      else InHeaders(header + [b])
    case InBody(request, body) =>
      if |body| + 1 == request.bodyLength then Replying(request, body + [b], h.body(request, body + [b]))
      else InBody(request, body + [b])
    case Replying(_, _, _) => c
    case Dropped => c
  }

  function Feed(h: Handlers, c: Conn, bytes: string): Conn {
    if |bytes| == 0 then c else Byte(h, Feed(h, c, bytes[..|bytes| - 1]), bytes[|bytes| - 1])
  }

  /** A connection that receives one chunk after the other. */
  function FeedAll(h: Handlers, c: Conn, chunks: seq<string>): Conn {
    if |chunks| == 0 then c else Feed(h, FeedAll(h, c, chunks[..|chunks| - 1]), chunks[|chunks| - 1])
  }

  function Joined(chunks: seq<string>): string {
    if |chunks| == 0 then "" else Joined(chunks[..|chunks| - 1]) + chunks[|chunks| - 1]
  }

  // ---------------------------------------------------------------- the one-shot reading

  /** The length of the shortest prefix that ends in a blank line. */
  function HeaderEnd(s: string): Option<nat> {
    if |s| == 0 then None
    else if HeaderEnd(s[..|s| - 1]).Some? then HeaderEnd(s[..|s| - 1])
    else if EndsBlank(s) then Some(|s|)
    else None
  }

  /** The request read at once from everything that was sent. */
  function OneShot(h: Handlers, s: string): Conn {
    var end := HeaderEnd(s);
    if end.Some? && end.value <= |s| && end.value <= HEADER_LIMIT then WithBody(h, Headed(h, s[..end.value]), s[end.value..])
    else if |s| > HEADER_LIMIT then Replying(NO_REQUEST, "", TOO_LARGE)
    else InHeaders(s)
  }

  /** Exactly Content-Length bytes are the body; what follows is ignored. */
  function WithBody(h: Handlers, c: Conn, rest: string): Conn {
    if !c.InBody? then c
    else if |rest| < c.request.bodyLength then InBody(c.request, rest)
    else Replying(c.request, rest[..c.request.bodyLength], h.body(c.request, rest[..c.request.bodyLength]))
  }

  lemma {:induction false} HeaderEndIsFirst(s: string)
    ensures HeaderEnd(s).Some? ==> 4 <= HeaderEnd(s).value <= |s| && EndsBlank(s[..HeaderEnd(s).value])
    ensures forall k | 0 <= k <= |s| && EndsBlank(s[..k]) :: HeaderEnd(s).Some? && HeaderEnd(s).value <= k
  {
    if |s| > 0 {
      var init := s[..|s| - 1];
      HeaderEndIsFirst(init);
      assert s[..|s|] == s;
      forall k | 0 <= k <= |s| && EndsBlank(s[..k])
        ensures HeaderEnd(s).Some? && HeaderEnd(s).value <= k
      {
        if k < |s| { assert init[..k] == s[..k]; }
      }
      if HeaderEnd(init).Some? { assert init[..HeaderEnd(init).value] == s[..HeaderEnd(init).value]; }
    }
  }

  /** One more byte on the wire is one more byte into the machine. */
  lemma OneShotNext(h: Handlers, s: string, b: char)
    ensures OneShot(h, s + [b]) == Byte(h, OneShot(h, s), b)
  {
    var t := s + [b];
    assert t[..|t| - 1] == s;
    HeaderEndIsFirst(s);
    var end := HeaderEnd(s);
    if end.Some? {
      var k := end.value;
      assert t[..k] == s[..k] && t[k..] == s[k..] + [b];
      if k <= HEADER_LIMIT { BodyNext(h, Headed(h, s[..k]), s[k..], b); }
    } else if EndsBlank(t) && |t| <= HEADER_LIMIT {
      assert t[..|t|] == t && t[|t|..] == "";
      HeadedStarts(h, t);
    }
  }

  lemma HeadedStarts(h: Handlers, header: string)
    ensures var c := Headed(h, header);
            (c.InBody? ==> c.body == "" && 0 < c.request.bodyLength) && !c.InHeaders? && WithBody(h, c, "") == c
  {
  }

  lemma BodyNext(h: Handlers, c: Conn, rest: string, b: char)
    requires c.InBody? ==> 0 < c.request.bodyLength
    requires !c.InHeaders?
    ensures WithBody(h, c, rest + [b]) == Byte(h, WithBody(h, c, rest), b)
  {
    if c.InBody? && c.request.bodyLength <= |rest| {
      assert (rest + [b])[..c.request.bodyLength] == rest[..c.request.bodyLength];
    } else if c.InBody? && c.request.bodyLength == |rest| + 1 {
      assert (rest + [b])[..c.request.bodyLength] == rest + [b];
    }
  }

  lemma FeedLast(h: Handlers, c: Conn, s: string, b: char)
    ensures Feed(h, c, s + [b]) == Byte(h, Feed(h, c, s), b)
  {
    assert (s + [b])[..|s + [b]| - 1] == s;
  }

  lemma NothingReceived(h: Handlers)
    ensures Feed(h, InHeaders(""), "") == OneShot(h, "")
  {
  }

  lemma {:induction false} FeedIsOneShot(h: Handlers, s: string)
    ensures Feed(h, InHeaders(""), s) == OneShot(h, s)
  {
    if |s| == 0 {
      NothingReceived(h);
    } else {
      var t, b := s[..|s| - 1], s[|s| - 1];
      FeedIsOneShot(h, t);
      OneShotNext(h, t, b);
      FeedLast(h, InHeaders(""), t, b);
      assert s == t + [b];
    }
  }

  lemma {:induction false} FeedAppend(h: Handlers, c: Conn, a: string, b: string)
    ensures Feed(h, c, a + b) == Feed(h, Feed(h, c, a), b)
  {
    if |b| == 0 {
      assert a + b == a;
    } else {
      assert (a + b)[..|a + b| - 1] == a + b[..|b| - 1];
      FeedAppend(h, c, a, b[..|b| - 1]);
    }
  }

  lemma FeedOne(h: Handlers, c: Conn, b: char)
    ensures Feed(h, c, [b]) == Byte(h, c, b)
  {
    FeedLast(h, c, "", b);
    assert "" + [b] == [b];
  }

  lemma FeedSlice(h: Handlers, c: Conn, s: string, i: nat, j: nat)
    requires i <= j <= |s|
    ensures Feed(h, Feed(h, c, s[..i]), s[i..j]) == Feed(h, c, s[..j])
  {
    FeedAppend(h, c, s[..i], s[i..j]);
    assert s[..i] + s[i..j] == s[..j];
  }

  lemma {:induction false} ChunksJoin(h: Handlers, c: Conn, chunks: seq<string>)
    ensures FeedAll(h, c, chunks) == Feed(h, c, Joined(chunks))
  {
    if |chunks| > 0 {
      ChunksJoin(h, c, chunks[..|chunks| - 1]);
      FeedAppend(h, c, Joined(chunks[..|chunks| - 1]), chunks[|chunks| - 1]);
    }
  }

  /** However a request is cut into chunks, the connection reads the same request, hands over the same
      body and queues the same reply as a reading of the whole stream at once. */
  lemma ChunkingDoesNotMatter(h: Handlers, chunks: seq<string>)
    ensures FeedAll(h, InHeaders(""), chunks) == OneShot(h, Joined(chunks))
  {
    ChunksJoin(h, InHeaders(""), chunks);
    FeedIsOneShot(h, Joined(chunks));
  }

  lemma SameStreamSameReply(h: Handlers, a: seq<string>, b: seq<string>)
    requires Joined(a) == Joined(b)
    ensures FeedAll(h, InHeaders(""), a) == FeedAll(h, InHeaders(""), b)
  {
    ChunkingDoesNotMatter(h, a);
    ChunkingDoesNotMatter(h, b);
  }

  /** A body handed over is exactly Content-Length bytes, directly after an accepted header. */
  lemma BodyIsContentLength(h: Handlers, chunks: seq<string>)
    ensures var c := FeedAll(h, InHeaders(""), chunks);
            c.Replying? && c.received != "" ==>
              exists header, rest ::
                && Joined(chunks) == header + c.received + rest
                && Inspected(header) == (0, c.request) && |header| <= HEADER_LIMIT
                && c.request.post && |c.received| == c.request.bodyLength
                && h.headers(c.request) == ReadBody && c.reply == h.body(c.request, c.received)
  {
    var s, c := Joined(chunks), FeedAll(h, InHeaders(""), chunks);
    ChunkingDoesNotMatter(h, chunks);
    HeaderEndIsFirst(s);
    if c.Replying? && c.received != "" {
      var k := HeaderEnd(s).value;
      assert s == s[..k] + c.received + s[k + |c.received|..] by {
        assert s == s[..k] + s[k..];
        assert s[k..] == s[k..][..|c.received|] + s[k + |c.received|..];
      }
    }
  }

  // ---------------------------------------------------------------- the reply

  /** What was sent: from the two response strings, and on the wire. */
  datatype Sending = Sending(headers: string, body: string, headerSent: nat, bodySent: nat, wire: string, closed: bool)

  function Queued(headers: string, body: string): Sending { Sending(headers, body, 0, 0, "", false) }

  function Offered(s: Sending): string {
    if s.headerSent < |s.headers| then s.headers[s.headerSent..]
    else if s.bodySent <= |s.body| then s.body[s.bodySent..]
    else ""
  }

  function Min(a: nat, b: nat): nat { if a < b then a else b }

  /** sendResponse when the socket takes `sent` of the bytes it is offered; a full socket takes none now
      and an error (a negative count) closes the connection. */
  function SendNext(s: Sending, sent: int, again: bool): Sending {
    var text := Offered(s);
    if s.closed then s
    else if text == "" then s.(closed := true)
    else if sent <= 0 || sent > Min(|text|, IO_BUDGET) then if sent < 0 && again then s else s.(closed := true)
    else
      var headers := s.headerSent < |s.headers|;
      var next := s.(headerSent := if headers then s.headerSent + sent else s.headerSent,
                     bodySent := if headers then s.bodySent else s.bodySent + sent,
                     wire := s.wire + text[..sent]);
      next.(closed := next.headerSent == |s.headers| && next.bodySent == |s.body|)
  }

  function SendAll(s: Sending, sends: seq<(int, bool)>): Sending {
    if |sends| == 0 then s
    else SendNext(SendAll(s, sends[..|sends| - 1]), sends[|sends| - 1].0, sends[|sends| - 1].1)
  }

  predicate SendingOk(s: Sending) {
    && s.headerSent <= |s.headers| && s.bodySent <= |s.body|
    && (s.bodySent > 0 ==> s.headerSent == |s.headers|)
    && s.wire == s.headers[..s.headerSent] + s.body[..s.bodySent]
  }

  lemma SendKeeps(s: Sending, sent: int, again: bool)
    requires SendingOk(s)
    ensures SendingOk(SendNext(s, sent, again))
    ensures SendNext(s, sent, again).headers == s.headers && SendNext(s, sent, again).body == s.body
  {
    var text := Offered(s);
    if !s.closed && text != "" && 0 < sent <= Min(|text|, IO_BUDGET) {
      if s.headerSent < |s.headers| {
        assert s.headers[..s.headerSent] + text[..sent] == s.headers[..s.headerSent + sent];
        assert s.body[..s.bodySent] == "";
      } else {
        assert s.body[..s.bodySent] + text[..sent] == s.body[..s.bodySent + sent];
      }
    }
  }

  lemma {:induction false} SendAllKeeps(headers: string, body: string, sends: seq<(int, bool)>)
    ensures var s := SendAll(Queued(headers, body), sends);
            SendingOk(s) && s.headers == headers && s.body == body
  {
    if |sends| > 0 {
      SendAllKeeps(headers, body, sends[..|sends| - 1]);
      SendKeeps(SendAll(Queued(headers, body), sends[..|sends| - 1]), sends[|sends| - 1].0, sends[|sends| - 1].1);
    }
  }

  lemma WireIsPrefix(s: Sending)
    requires SendingOk(s)
    ensures s.wire == (s.headers + s.body)[..s.headerSent + s.bodySent]
  {
  }

  /** Whatever the socket accepts at each step, the wire carries a prefix of the reply, in order and
      without repetition, and all of it exactly when both strings are used up. */
  lemma ReplyIsSentInOrder(headers: string, body: string, sends: seq<(int, bool)>)
    ensures var s := SendAll(Queued(headers, body), sends);
            && s.wire <= headers + body
            && (s.wire == headers + body <==> s.headerSent == |headers| && s.bodySent == |body|)
  {
    SendAllKeeps(headers, body, sends);
    WireIsPrefix(SendAll(Queued(headers, body), sends));
  }

  // ---------------------------------------------------------------- the same, filling buffers

  datatype Phase = Idle | Headers | Body | Response

  lemma {:induction false} FinishedIgnores(h: Handlers, c: Conn, more: string)
    requires c.Replying? || c.Dropped?
    ensures Feed(h, c, more) == c
  {
    if |more| > 0 { FinishedIgnores(h, c, more[..|more| - 1]); }
  }

  lemma {:induction false} BodyCollects(h: Handlers, request: Request, body: string, more: string)
    requires |body| + |more| <= request.bodyLength && |body| < request.bodyLength
    ensures Feed(h, InBody(request, body), more) ==
              if |body| + |more| < request.bodyLength then InBody(request, body + more)
              else Replying(request, body + more, h.body(request, body + more))
  {
    if |more| == 0 {
      assert body + more == body;
    } else {
      BodyCollects(h, request, body, more[..|more| - 1]);
      assert body + more == body + more[..|more| - 1] + [more[|more| - 1]];
    }
  }

  /** The receive buffers of one connection; `collected` remembers the body a reply has released. */
  class Connection {
    const handlers: Handlers
    var phase: Phase
    var header: array<char>
    var headerLength: nat
    var request: Request
    var body: array<char>
    var bodyLength: nat
    var reply: Reply
    ghost var collected: string

    ghost predicate Valid()
      reads this
    {
      && header.Length == HEADER_LIMIT + 1 && headerLength <= HEADER_LIMIT && header != body
      && (phase == Body ==> body.Length == request.bodyLength + 1 && bodyLength < request.bodyLength)
    }

    ghost function View(): Conn
      requires Valid()
      reads this, header, body
    {
      match phase
      case Idle => Dropped
      case Headers => InHeaders(header[..headerLength])
      case Body => InBody(request, body[..bodyLength])
      case Response => Replying(request, collected, reply)
    }

    constructor (handlers: Handlers)
      ensures Valid() && fresh(header) && fresh(body) && View() == InHeaders("")
      ensures this.handlers == handlers
    {
      this.handlers := handlers;
      phase, headerLength, request, bodyLength, collected := Headers, 0, NO_REQUEST, 0, "";
      reply := TOO_LARGE;
      header := new char[HEADER_LIMIT + 1];
      body := new char[0];
    }

    method QueueReply(reply: Reply)
      requires Valid()
      modifies this
      ensures Valid() && header == old(header) && body == old(body)
      ensures phase == Response && this.reply == reply && request == old(request) && collected == old(collected)
    {
      this.reply, phase, bodyLength := reply, Response, 0;
    }

    /** The header is complete: gate, handler, and a buffer of Content-Length + 1 bytes. */
    method FinishHeader()
      requires Valid() && phase == Headers
      modifies this
      ensures Valid() && header == old(header) && (body == old(body) || fresh(body))
      ensures View() == Headed(handlers, old(header[..headerLength]))
    {
      var code, parsed := Inspect(header[..headerLength]);
      request, collected := parsed, "";
      if code != 0 {
        request := NO_REQUEST;
        QueueReply(Rejection(code));
        return;
      }
      match handlers.headers(parsed) {
        case ReadBody =>
          if parsed.post && parsed.bodyLength > 0 {
            body := new char[parsed.bodyLength + 1];
            bodyLength, phase := 0, Body;
          } else {
            phase := Idle;
          }
        case Respond(reply) => QueueReply(reply);
        case Nothing => phase := Idle;
      }
    }

    /** One byte of the header. */
    method ReceiveHeaderByte(b: char)
      requires Valid() && phase == Headers
      modifies this, header
      ensures Valid() && header == old(header) && (body == old(body) || fresh(body))
      ensures View() == Byte(handlers, old(View()), b)
    {
      if headerLength == HEADER_LIMIT {
        request, collected := NO_REQUEST, "";
        QueueReply(TOO_LARGE);
        return;
      }
      ghost var before := header[..headerLength];
      header[headerLength] := b;
      headerLength := headerLength + 1;
      assert header[..headerLength] == before + [b];
      if EndsBlank(header[..headerLength]) { FinishHeader(); }
    }

    /** memcpy to the end of the body received so far. */
    method CopyBody(incoming: string, copied: nat)
      requires copied <= |incoming| && bodyLength + copied <= body.Length
      modifies body
      ensures body[..bodyLength + copied] == old(body[..bodyLength]) + incoming[..copied]
    {
      for i := 0 to copied
        invariant body[..bodyLength + i] == old(body[..bodyLength]) + incoming[..i]
      {
        body[bodyLength + i] := incoming[i];
        assert incoming[..i + 1] == incoming[..i] + [incoming[i]];
      }
    }

    /** As many of the bytes at hand as the body still needs. */
    method ReceiveBody(incoming: string) returns (copied: nat)
      requires Valid() && phase == Body && |incoming| > 0
      modifies this, body
      ensures Valid() && header == old(header) && body == old(body)
      ensures 0 < copied <= |incoming| && View() == Feed(handlers, old(View()), incoming[..copied])
    {
      var remaining := request.bodyLength - bodyLength;
      copied := if remaining < |incoming| then remaining else |incoming|;
      BodyCollects(handlers, request, body[..bodyLength], incoming[..copied]);
      CopyBody(incoming, copied);
      if copied == remaining {
        collected := body[..bodyLength + copied];
        QueueReply(handlers.body(request, body[..bodyLength + copied]));
      } else {
        bodyLength := bodyLength + copied;
      }
    }

    /** The body of the receive loop: one byte of the header, or a stretch of the body. */
    method Consume(incoming: string, offset: nat) returns (next: nat)
      requires Valid() && offset < |incoming| && (phase == Headers || phase == Body)
      modifies this, header, body
      ensures Valid() && header == old(header) && (body == old(body) || fresh(body))
      ensures offset < next <= |incoming| && View() == Feed(handlers, old(View()), incoming[offset..next])
    {
      ghost var before := View();
      if phase == Headers {
        ReceiveHeaderByte(incoming[offset]);
        next := offset + 1;
        FeedOne(handlers, before, incoming[offset]);
        assert incoming[offset..next] == [incoming[offset]];
      } else {
        var copied := ReceiveBody(incoming[offset..]);
        next := offset + copied;
        assert incoming[offset..][..copied] == incoming[offset..next];
      }
    }

    /** The receiving part of tick: the chunk the socket returned, at most IO_BUDGET bytes of it. */
    method Tick(incoming: string)
      requires Valid()
      modifies this, header, body
      ensures Valid() && header == old(header) && (body == old(body) || fresh(body))
      ensures View() == Feed(handlers, old(View()), incoming)
    {
      var offset := 0;
      ghost var start := View();
      while offset < |incoming| && (phase == Headers || phase == Body)
        invariant offset <= |incoming| && Valid()
        invariant header == old(header) && (body == old(body) || fresh(body))
        invariant View() == Feed(handlers, start, incoming[..offset])
        decreases |incoming| - offset
      {
        var next := Consume(incoming, offset);
        FeedSlice(handlers, start, incoming, offset, next);
        offset := next;
      }
      FeedSlice(handlers, start, incoming, offset, |incoming|);
      assert incoming[..|incoming|] == incoming;
      if offset < |incoming| { FinishedIgnores(handlers, View(), incoming[offset..|incoming|]); }
    }
  }
}
