/** firmware/devices_badge/voice_reply_state.h and voice_reply.h: the device's half of sending a
    reply.  `Device` is the controller's whole state, and each function below is one entry point
    called by the main loop; Wi-Fi, sign-in, storage and the HTTP worker answer through arguments. */
module VoiceReply {
  import opened Wrappers
  import L = Ledger
  import T = ReplyText

  type Id = L.Id
  type Account = string

  // ---------------------------------------------------------------- the send gate

  datatype SendState = EMPTY | DRAFT | IN_FLIGHT | UNCERTAIN | SENT | FAILED
  datatype Verdict = ReceiptSent | ReceiptFailed | ReceiptUnknown
  datatype Gate = Gate(state: SendState, reviewed: bool)

  predicate Undecided(g: Gate) { g.state == IN_FLIGHT || g.state == UNCERTAIN }

  predicate CanSend(g: Gate, live: bool, eligible: bool) { g.state == DRAFT && g.reviewed && live && eligible }

  function OnReceipt(g: Gate, verdict: Verdict): Gate {
    if !Undecided(g) then g
    else g.(state := if verdict == ReceiptSent then SENT else if verdict == ReceiptFailed then FAILED else UNCERTAIN)
  }

  function OnTransportLost(g: Gate): Gate {
    if g.state == IN_FLIGHT then g.(state := UNCERTAIN) else g
  }

  class VoiceSendGate {
    var state: SendState
    var reviewed: bool

    function Value(): Gate
      reads this
    {
      Gate(state, reviewed)
    }

    constructor ()
      ensures Value() == Gate(EMPTY, false)
    {
      state, reviewed := EMPTY, false;
    }

    /** A new draft is refused while a send is undecided, and is never born reviewed. */
    method SetDraft() returns (accepted: bool)
      modifies this
      ensures accepted <==> !Undecided(old(Value()))
      ensures Value() == if accepted then Gate(DRAFT, false) else old(Value())
    {
      if state == IN_FLIGHT || state == UNCERTAIN {
        return false;
      }
      state, reviewed := DRAFT, false;
      return true;
    }

    method ReviewedAllPages()
      modifies this`reviewed
      ensures reviewed == (old(reviewed) || state == DRAFT)
    {
      if state == DRAFT {
        reviewed := true;
      }
    }

    method BeginSend(live: bool, eligible: bool) returns (begun: bool)
      modifies this`state
      ensures begun <==> old(CanSend(Value(), live, eligible))
      ensures state == if begun then IN_FLIGHT else old(state)
    {
      if !(state == DRAFT && reviewed && live && eligible) {
        return false;
      }
      state := IN_FLIGHT;
      return true;
    }

    method TransportUncertain()
      modifies this`state
      ensures Value() == OnTransportLost(old(Value()))
    {
      if state == IN_FLIGHT {
        state := UNCERTAIN;
      }
    }

    method RestorePending()
      modifies this
      ensures Value() == Gate(UNCERTAIN, false)
    {
      state, reviewed := UNCERTAIN, false;
    }

    method Receipt(verdict: Verdict)
      modifies this`state
      ensures Value() == OnReceipt(old(Value()), verdict)
    {
      if state != IN_FLIGHT && state != UNCERTAIN {
        return;
      }
      match verdict {
        case ReceiptSent => state := SENT;
        case ReceiptFailed => state := FAILED;
        case ReceiptUnknown => state := UNCERTAIN;
      }
    }
  }

  // ---------------------------------------------------------------- the controller's state

  datatype Stage = Loading | Inbox | Recording | Transcribing | Review | Sending | Done | Error
  datatype Kind = NoRequest | InboxRequest | Transcription | ReplySend | ReplyStatus

  /** The saved intent to send: which key, from which account, to whom. */
  datatype PendingSend = PendingSend(key: L.Key, owner: Account, target: Id, sender: Id, connection: Id)

  /** The "voice_pending" preference.  Of a record that fails its checks start-up may still keep the
      fields it could read, and a valid record is kept whole. */
  datatype Flash = Absent | Saved(record: PendingSend) | Corrupt(kept: Option<PendingSend>)

  /** The request being made, and the body of a send. */
  datatype Link = Link(kind: Kind, started: bool, body: seq<T.byte>)

  /** Whose inbox is shown, and its mentions. */
  datatype Session = Session(owner: Option<Account>, sender: Id, connection: Id, mentions: seq<Id>, index: nat,
                             postingAllowed: bool)
  datatype View = View(stage: Stage, textPage: nat, canSend: bool, uncertain: bool, armed: bool)
  datatype Draft = Draft(transcript: seq<T.byte>, reviewedThrough: nat, valid: bool)

  datatype Device = Device(
    flash: Flash, pending: Option<PendingSend>, blocked: bool, gate: Gate, link: Link, session: Session,
    view: View, draft: Draft, onScreen: bool, capturing: bool, localCheck: bool)

  /** Who is signed in, and whether requests can be made at all. */
  datatype Env = Env(account: Option<Account>, live: bool)

  /** settings.remove and settings.putString may fail with or without having taken effect. */
  datatype RemoveResult = Removed | NotRemoved | RemovedUnreported
  datatype PersistResult = Stored | NotStored | StoredUnreported | Torn(kept: Option<PendingSend>)

  /** The request handed to the HTTP worker. */
  datatype Request = Request(owner: Account, key: L.Key, target: Id, sender: Id, connection: Id, text: seq<T.byte>)

  datatype Response = Response(
    code: int, receipt: Option<L.Receipt>, contextOk: bool,
    ready: bool, canSend: bool, sender: Id, connection: Id, items: seq<Id>, itemsOk: bool,
    transcribed: bool, transcript: seq<T.byte>, replyValid: bool)

  /** What Wi-Fi, the recorder and the HTTP worker report during one pass of the main loop. */
  datatype Pass = Pass(httpBusy: bool, sameKind: bool, enqueued: bool, refused: Response, finished: Option<Response>,
                       taken: Option<nat>, micFailed: bool, remove: RemoveResult)

  const MAX_MENTIONS := 5
  const MAX_TRANSCRIPT_BYTES := 3000
  const MIN_CAPTURE_MS := 350

  predicate VoiceId(value: Id, limit: nat) {
    0 < |value| <= limit && forall i | 0 <= i < |value| :: L.KeyChar(value[i])
  }

  predicate Same(d: Device, env: Env) { d.session.owner.Some? && d.session.owner == env.account }

  predicate PendingMatches(d: Device, env: Env) { d.pending.Some? && env.account == Some(d.pending.value.owner) }

  predicate Unresolved(d: Device) { d.blocked || d.pending.Some? || Undecided(d.gate) }

  predicate Eligible(d: Device, env: Env) {
    d.session.postingAllowed && d.draft.valid && 0 < |d.session.mentions| && VoiceId(d.session.sender, 32) &&
    VoiceId(d.session.connection, 128) && Same(d, env) && !Unresolved(d)
  }

  /** The condition the Send button is drawn with. */
  predicate OffersSend(d: Device, env: Env) {
    CanSend(d.gate, env.live && Same(d, env),
            d.session.postingAllowed && d.draft.valid && 0 < |d.session.mentions| && !Unresolved(d))
  }

  /** The pages of a transcript; transcripts are far below the limit of the overflow notice. */
  function Pages(transcript: seq<T.byte>): (pages: nat)
    ensures 0 < pages
  {
    T.PageCount(|T.Lines(transcript)|)
  }

  // ---------------------------------------------------------------- entry points

  const IDLE := Link(NoRequest, false, [])
  const NO_SESSION := Session(None, "", "", [], 0, false)

  function ToStage(d: Device, stage: Stage): Device { d.(view := View(stage, 0, false, false, false)) }

  function ToError(d: Device, uncertain: bool): Device { d.(view := View(Error, 0, false, uncertain, false)) }

  function ClearInbox(d: Device): Device { d.(session := NO_SESSION.(owner := d.session.owner)) }

  function Wipe(d: Device): Device { d.(draft := d.draft.(transcript := [])) }

  function ShowMention(d: Device): Device {
    ToStage(d.(draft := d.draft.(transcript := [], valid := false)), Inbox)
  }

  function Queue(d: Device, kind: Kind): Device { d.(link := d.link.(kind := kind, started := false)) }

  /** Erase the saved key; if storage refuses, block every later send. */
  function ForgetPending(d: Device, remove: RemoveResult): Device {
    if d.flash.Absent? || remove == Removed then d.(flash := Absent, pending := None)
    else d.(flash := if remove == RemovedUnreported then Absent else d.flash, blocked := true)
  }

  function CancelRequest(d: Device, remove: RemoveResult): Device {
    var d' := if d.link.kind != ReplySend then d
              else if d.link.started then d.(gate := OnTransportLost(d.gate))
              else ForgetPending(d.(gate := OnReceipt(d.gate, ReceiptFailed)), remove);
    d'.(link := IDLE)
  }

  /** Start-up: a saved intent comes back as uncertain, an invalid one blocks sending. */
  function Setup(flash: Flash): Device {
    Device(flash, if flash.Saved? then Some(flash.record) else if flash.Corrupt? then flash.kept else None, flash.Corrupt?,
           if flash.Absent? then Gate(EMPTY, false) else Gate(UNCERTAIN, false),
           IDLE, NO_SESSION, View(Loading, 0, false, false, false), Draft([], 0, false), false, false, false)
  }

  function RefreshInbox(d: Device, env: Env): Device {
    if Unresolved(d) then ToError(d, true)
    else if !env.live || env.account.None? then ToError(d, false)
    else Queue(ToStage(d.(session := NO_SESSION.(owner := env.account)), Loading), InboxRequest)
  }

  function Enter(d: Device, env: Env): Device {
    var d' := d.(onScreen := true);
    if Unresolved(d') then ToError(d', true) else RefreshInbox(d', env)
  }

  function Leave(d: Device, remove: RemoveResult): Device {
    Wipe(CancelRequest(d.(capturing := false), remove)).(session := NO_SESSION, localCheck := false, onScreen := false)
  }

  function StartRecording(d: Device, env: Env, ready: bool, microphone: bool): Device {
    if !ready || !env.live || !Same(d, env) || Unresolved(d) || d.link.kind != NoRequest then d
    else
      var d' := d.(draft := Draft([], 0, false));
      if microphone then ToStage(d'.(capturing := true), Recording) else ToError(d', false)
  }

  function PersistedFlash(flash: Flash, record: PendingSend, result: PersistResult): Flash {
    match result
    case Stored => Saved(record)
    case NotStored => flash
    case StoredUnreported => Saved(record)
    case Torn(kept) => Corrupt(kept)
  }

  /** Save the fresh key first, and queue the request only once it is saved. */
  function BeginSend(d: Device, env: Env, key: L.Key, fits: bool, result: PersistResult, stillLive: bool): Device {
    if !CanSend(d.gate, env.live, Eligible(d, env)) || d.session.index >= |d.session.mentions| then d
    else if !fits then ToError(d, false)
    else
      var record := PendingSend(key, d.session.owner.value, d.session.mentions[d.session.index],
                                d.session.sender, d.session.connection);
      var d' := d.(link := d.link.(body := d.draft.transcript), pending := Some(record),
                   flash := PersistedFlash(d.flash, record, result));
      if result != Stored then ToError(d'.(blocked := true, gate := Gate(UNCERTAIN, false)), true)
      else if !stillLive then ToError(d', true)
      else Queue(ToStage(d'.(gate := d.gate.(state := IN_FLIGHT)), Sending), ReplySend)
  }

  /** A receipt counts only if it names the pending key, target and sender, for its own account. */
  predicate Matches(d: Device, env: Env, receipt: Option<L.Receipt>) {
    receipt.Some? && PendingMatches(d, env) && receipt.value.key == d.pending.value.key &&
    receipt.value.targetId == d.pending.value.target && receipt.value.senderId == d.pending.value.sender
  }

  function ReceiptResult(d: Device, env: Env, code: int, receipt: Option<L.Receipt>, remove: RemoveResult): Device {
    if Matches(d, env, receipt) && receipt.value.state == L.Sent && 200 <= code < 300 then
      ToStage(Wipe(ForgetPending(d.(gate := OnReceipt(d.gate, ReceiptSent)), remove)), Done)
    else if Matches(d, env, receipt) && receipt.value.state == L.Failed && code > 0 then
      ToError(ForgetPending(d.(gate := OnReceipt(d.gate, ReceiptFailed)), remove), false)
    else ToError(d.(gate := OnReceipt(OnTransportLost(d.gate), ReceiptUnknown)), true)
  }

  function ConsumeInbox(d: Device, r: Response): Device {
    var d' := d.(session := d.session.(postingAllowed := r.canSend));
    if r.code != 200 || !r.ready then ShowMention(d')
    else if !VoiceId(r.sender, 32) || !VoiceId(r.connection, 128) || |r.items| > MAX_MENTIONS || !r.itemsOk then
      ToError(ClearInbox(d'), false)
    else
      ShowMention(d'.(session := d'.session.(sender := r.sender, connection := r.connection,
                                             mentions := d.session.mentions + r.items)))
  }

  /** A transcript becomes an unreviewed draft; nothing of an earlier review carries over. */
  function ConsumeTranscript(d: Device, r: Response): Device {
    if r.code == 200 && r.transcribed && 0 < |r.transcript| <= MAX_TRANSCRIPT_BYTES then
      if Undecided(d.gate) then ToError(d, true)
      else ToStage(d.(gate := Gate(DRAFT, false), draft := Draft(r.transcript, 0, r.replyValid)), Review)
    else ToError(d, false)
  }

  function Consume(d: Device, env: Env, kind: Kind, r: Response, remove: RemoveResult): Device {
    if kind == ReplySend || kind == ReplyStatus then ReceiptResult(d, env, r.code, r.receipt, remove)
    else if !(r.contextOk && Same(d, env)) then ToError(d, false)
    else if kind == InboxRequest then ConsumeInbox(d, r)
    else ConsumeTranscript(d, r)
  }

  /** The capture half of a pass; true when the pass ends there. */
  function HandleCapture(d: Device, env: Env, p: Pass): (Device, bool) {
    if !d.capturing then (d, false)
    else if !d.localCheck && !env.live then (ToError(d.(capturing := false), false), true)
    else if p.taken.Some? then
      if d.localCheck then (ShowMention(d.(capturing := false, localCheck := false)), true)
      else if p.taken.value < MIN_CAPTURE_MS then (ToError(d.(capturing := false), false), true)
      else (Queue(ToStage(d.(capturing := false), Transcribing), Transcription), false)
    else if p.micFailed then (ToError(d.(capturing := false), false), false)
    else (d, false)
  }

  function Interrupted(d: Device, remove: RemoveResult): Device {
    var d' := CancelRequest(d, remove);
    ToError(d', Unresolved(d'))
  }

  /** The request half: start it, watch it, or consume its result. */
  function HandleRequest(d: Device, env: Env, p: Pass): Device {
    if d.link.kind == NoRequest then d
    else if !d.link.started then
      if !env.live then Interrupted(d, p.remove)
      else if p.httpBusy then d
      else if p.enqueued then d.(link := d.link.(started := true))
      else if d.link.kind == ReplySend then Interrupted(d, p.remove)
      else Consume(d.(link := IDLE), env, d.link.kind, p.refused.(code := -1, receipt := None, contextOk := false), p.remove)
    else if !p.sameKind then Interrupted(d, p.remove)
    else if p.finished.None? then d
    else Consume(d.(link := IDLE), env, d.link.kind, p.finished.value, p.remove)
  }

  predicate LostContext(d: Device, env: Env) {
    !Same(d, env) && (d.session.owner.Some? || d.capturing || d.link.kind != NoRequest)
  }

  function Handle(d: Device, env: Env, p: Pass): Device {
    if !d.onScreen then d
    else if LostContext(d, env) then
      var d' := CancelRequest(d.(capturing := false), p.remove);
      ToError(Wipe(d').(session := NO_SESSION), Unresolved(d'))
    else
      var (d', ended) := HandleCapture(d, env, p);
      if ended then d' else HandleRequest(d', env, p)
  }

  /** The request a pass of the main loop hands to the HTTP worker, if any. */
  function Enqueues(d: Device, env: Env, p: Pass): Option<Request> {
    if !d.onScreen || LostContext(d, env) || HandleCapture(d, env, p).1 then None
    else
      var d' := HandleCapture(d, env, p).0;
      if d'.link.kind == ReplySend && !d'.link.started && env.live && !p.httpBusy && p.enqueued && d'.pending.Some? then
        var record := d'.pending.value;
        Some(Request(record.owner, record.key, record.target, record.sender, record.connection, d'.link.body))
      else None
  }

  /** A drawn page counts as covered only when every page before it was. */
  function Through(textPage: nat, reviewedThrough: nat): nat {
    if textPage <= reviewedThrough && reviewedThrough < textPage + 1 then textPage + 1 else reviewedThrough
  }

  function Reviewed(g: Gate, covered: bool): Gate {
    if covered && g.state == DRAFT then g.(reviewed := true) else g
  }

  function Covered(d: Device): Device {
    var through := Through(d.view.textPage, d.draft.reviewedThrough);
    d.(draft := d.draft.(reviewedThrough := through), gate := Reviewed(d.gate, through >= Pages(d.draft.transcript)))
  }

  function Render(d: Device, env: Env): Device {
    if d.onScreen && d.view.stage == Review then
      var d' := Covered(d);
      d'.(view := d'.view.(canSend := OffersSend(d', env)))
    else d
  }

  /** Send reacts only to a contact that began and ended on an enabled Send button. */
  predicate SendHit(d: Device) {
    d.onScreen && d.view.stage == Review && d.view.canSend && 0 < |d.draft.transcript| <= T.MAX_TEXT_BYTES
  }

  // ---------------------------------------------------------------- events

  datatype Event =
    | Reboot
    | EnterReplies(env: Env)
    | LeaveReplies(remove: RemoveResult)
    | Touch(onSend: bool)
    | Tap(action: Action)
    | Hold(env: Env, ready: bool, microphone: bool)
    | MicTest(microphone: bool)
    | Loop(env: Env, pass: Pass)
    | Draw(env: Env)

  /** What a tap hits, with what the handler then needs from outside. */
  datatype Action =
    | More(otherPages: nat)
    | CancelCapture(remove: RemoveResult)
    | SendReply(env: Env, key: L.Key, fits: bool, result: PersistResult, stillLive: bool)
    | CheckStatus(env: Env)
    | Turn(forward: bool)
    | RecordAgain
    | Refresh(env: Env, fallback: bool)

  function Turned(session: Session, forward: bool): nat {
    if |session.mentions| == 0 then session.index
    else (session.index + |session.mentions| + (if forward then 1 else -1)) % |session.mentions|
  }

  /** Which stages offer an action at all. */
  predicate Offered(d: Device, action: Action) {
    match action
    case More(_) => true
    case CancelCapture(_) => d.view.stage == Recording || d.view.stage == Transcribing
    case SendReply(_, _, _, _, _) => SendHit(d)
    case CheckStatus(_) => d.view.stage == Error && d.view.uncertain
    case Turn(_) => d.view.stage == Inbox
    case RecordAgain => d.view.stage == Review
    case Refresh(_, _) =>
      || (d.view.stage == Error && !d.view.uncertain)
      || d.view.stage == Done
      || (d.view.stage == Inbox && |d.session.mentions| == 0)
  }

  predicate Idle(d: Device) { d.link.kind == NoRequest && !Unresolved(d) }

  function Tapped(d0: Device, action: Action): Device {
    var d := d0.(view := d0.view.(armed := false));
    match action
    case More(otherPages) =>
      var pages := if d.view.stage == Review then Pages(d.draft.transcript) else if otherPages == 0 then 1 else otherPages;
      d.(view := d.view.(textPage := (d.view.textPage + 1) % pages))
    case CancelCapture(remove) => ShowMention(CancelRequest(d.(capturing := false), remove))
    case SendReply(env, key, fits, result, stillLive) =>
      if d0.view.armed then BeginSend(d, env, key, fits, result, stillLive) else d
    case CheckStatus(env) =>
      if d.blocked || !PendingMatches(d, env) || !env.live then ToError(d, true)
      else Queue(ToStage(d.(session := d.session.(owner := env.account)), Sending), ReplyStatus)
    case Turn(forward) =>
      if Idle(d) then ShowMention(d.(session := d.session.(index := Turned(d.session, forward)))) else d
    case RecordAgain => if Idle(d) then ShowMention(d) else d
    case Refresh(env, fallback) =>
      if !Idle(d) then d else if fallback then ShowMention(d) else RefreshInbox(d, env)
  }

  function Next(d: Device, e: Event): Device {
    match e
    case Reboot => Setup(d.flash)
    case EnterReplies(env) => Enter(d, env)
    case LeaveReplies(remove) => if d.onScreen then Leave(d, remove) else d
    case Touch(onSend) => d.(view := d.view.(armed := onSend && SendHit(d)))
    case Tap(action) =>
      if d.onScreen && Offered(d, action) then Tapped(d, action) else d.(view := d.view.(armed := false))
    case Hold(env, ready, microphone) =>
      if d.onScreen && (d.view.stage == Inbox || d.view.stage == Review) then StartRecording(d, env, ready, microphone) else d
    case MicTest(microphone) =>
      if d.onScreen && Idle(d) && microphone then ToStage(d.(localCheck := true, capturing := true), Recording) else d
    case Loop(env, pass) => Handle(d, env, pass)
    case Draw(env) => Render(d, env)
  }

  /** The request an event hands to the HTTP worker, if any. */
  function Enqueued(d: Device, e: Event): Option<Request> {
    if e.Loop? then Enqueues(d, e.env, e.pass) else None
  }
}
