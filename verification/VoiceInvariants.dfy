/** What every event of the controller keeps: the saved record and its copy in memory, and how far
    the review of the present transcript has come. */
module VoiceInvariants {
  import opened Wrappers
  import opened VoiceReply
  import L = Ledger
  import T = ReplyText

  /** This pass turns a recording into the transcript under review. */
  predicate Arrives(d: Device, e: Event) {
    e.Loop? && d.onScreen && !LostContext(d, e.env) && !HandleCapture(d, e.env, e.pass).1 &&
    var d' := HandleCapture(d, e.env, e.pass).0;
    && d'.link.kind == Transcription && d'.link.started && e.pass.sameKind && e.pass.finished.Some?
    && e.pass.finished.value.contextOk && Next(d, e).view.stage == Review
  }

  function DrawnAfter(d: Device, drawn: set<nat>, e: Event): set<nat> {
    if Arrives(d, e) then {}
    else if e.Draw? && d.onScreen && d.view.stage == Review then drawn + {d.view.textPage}
    else drawn
  }

  ghost predicate AllDrawn(transcript: seq<T.byte>, drawn: set<nat>) {
    forall page: nat | page < Pages(transcript) :: page in drawn
  }

  /** The saved record, its copy in memory, and what may be done with them. */
  predicate RecordOk(d: Device) {
    && (d.flash.Saved? ==> d.pending == Some(d.flash.record))
    && (d.flash.Corrupt? ==> d.blocked)
    && (d.link.kind == ReplySend || d.link.kind == ReplyStatus ==>
          d.pending.Some? && d.session.owner == Some(d.pending.value.owner))
    && (d.link.kind == ReplySend ==> d.flash == Saved(d.pending.value))
  }

  /** While a transcript is under review, coverage never runs ahead of the pages drawn. */
  ghost predicate ReviewOk(d: Device, drawn: set<nat>) {
    d.onScreen && d.view.stage == Review ==>
      && d.view.textPage < Pages(d.draft.transcript)
      && 0 < |d.draft.transcript| <= MAX_TRANSCRIPT_BYTES
      && (forall page: nat | page < d.draft.reviewedThrough :: page in drawn)
      && (d.gate.state == DRAFT && d.gate.reviewed ==> Pages(d.draft.transcript) <= d.draft.reviewedThrough)
  }

  // ---------------------------------------------------------------- the record

  lemma ForgetKeepsRecord(d: Device, remove: RemoveResult)
    requires RecordOk(d) && d.link == IDLE
    ensures RecordOk(ForgetPending(d, remove)) && ForgetPending(d, remove).link == IDLE
  {
  }

  lemma ReceiptKeepsRecord(d: Device, env: Env, code: int, receipt: Option<L.Receipt>, remove: RemoveResult)
    requires RecordOk(d) && d.link == IDLE
    ensures RecordOk(ReceiptResult(d, env, code, receipt, remove)) && ReceiptResult(d, env, code, receipt, remove).link == IDLE
  {
    if Matches(d, env, receipt) && receipt.value.state == L.Sent && 200 <= code < 300 {
      ForgetKeepsRecord(d.(gate := OnReceipt(d.gate, ReceiptSent)), remove);
    } else if Matches(d, env, receipt) && receipt.value.state == L.Failed && code > 0 {
      ForgetKeepsRecord(d.(gate := OnReceipt(d.gate, ReceiptFailed)), remove);
    }
  }

  predicate SameRecord(d: Device, d': Device) {
    d'.flash == d.flash && d'.pending == d.pending && d'.blocked == d.blocked
  }

  lemma InboxKeepsRecord(d: Device, r: Response)
    ensures SameRecord(d, ConsumeInbox(d, r)) && ConsumeInbox(d, r).link == d.link
  {
  }

  lemma TranscriptKeepsRecord(d: Device, r: Response)
    ensures SameRecord(d, ConsumeTranscript(d, r)) && ConsumeTranscript(d, r).link == d.link
  {
  }

  lemma ConsumeKeepsRecord(d: Device, env: Env, kind: Kind, r: Response, remove: RemoveResult)
    requires RecordOk(d) && d.link == IDLE
    ensures RecordOk(Consume(d, env, kind, r, remove)) && Consume(d, env, kind, r, remove).link == IDLE
  {
    if kind == ReplySend || kind == ReplyStatus {
      ReceiptKeepsRecord(d, env, r.code, r.receipt, remove);
    } else if r.contextOk && Same(d, env) {
      InboxKeepsRecord(d, r);
      TranscriptKeepsRecord(d, r);
    }
  }

  lemma CancelKeepsRecord(d: Device, remove: RemoveResult)
    requires RecordOk(d)
    ensures RecordOk(CancelRequest(d, remove)) && CancelRequest(d, remove).link == IDLE
  {
  }

  lemma InterruptedKeepsRecord(d: Device, remove: RemoveResult)
    requires RecordOk(d)
    ensures RecordOk(Interrupted(d, remove))
  {
    CancelKeepsRecord(d, remove);
  }

  lemma RequestKeepsRecord(d: Device, env: Env, p: Pass)
    requires RecordOk(d)
    ensures RecordOk(HandleRequest(d, env, p))
  {
    var cleared := d.(link := IDLE);
    InterruptedKeepsRecord(d, p.remove);
    ConsumeKeepsRecord(cleared, env, d.link.kind, p.refused.(code := -1, receipt := None, contextOk := false), p.remove);
    if p.finished.Some? { ConsumeKeepsRecord(cleared, env, d.link.kind, p.finished.value, p.remove); }
  }

  lemma CaptureKeepsRecord(d: Device, env: Env, p: Pass)
    requires RecordOk(d)
    ensures var d' := HandleCapture(d, env, p).0;
            RecordOk(d') && SameRecord(d, d') && d'.session == d.session && (d'.link == d.link || d'.link.kind == Transcription)
  {
  }

  lemma HandleKeepsRecord(d: Device, env: Env, p: Pass)
    requires RecordOk(d)
    ensures RecordOk(Handle(d, env, p))
  {
    if d.onScreen {
      if LostContext(d, env) {
        CancelKeepsRecord(d.(capturing := false), p.remove);
      } else {
        CaptureKeepsRecord(d, env, p);
        RequestKeepsRecord(HandleCapture(d, env, p).0, env, p);
      }
    }
  }

  lemma TapKeepsRecord(d: Device, action: Action)
    requires RecordOk(d) && d.onScreen && Offered(d, action)
    ensures RecordOk(Tapped(d, action))
  {
  }

  lemma NextKeepsRecord(d: Device, e: Event)
    requires RecordOk(d)
    ensures RecordOk(Next(d, e))
  {
    match e
    case Loop(env, pass) => HandleKeepsRecord(d, env, pass);
    case Tap(action) => if d.onScreen && Offered(d, action) { TapKeepsRecord(d, action); }
    case _ =>
  }

  // ---------------------------------------------------------------- the review

  ghost predicate ButtonOk(d: Device) {
    d.onScreen && d.view.canSend ==> d.view.stage == Review && d.gate.state == DRAFT && d.gate.reviewed
  }

  /** Off the review screen there is nothing to keep. */
  predicate Elsewhere(d: Device) {
    d.onScreen ==> d.view.stage != Review && !d.view.canSend
  }

  predicate SameReview(d: Device, d': Device) {
    && d'.view.stage == d.view.stage && d'.view.textPage == d.view.textPage && d'.view.canSend == d.view.canSend
    && d'.draft == d.draft && d'.gate == d.gate && d'.onScreen == d.onScreen
  }

  /** A transcript that has just arrived: nothing of it has been reviewed. */
  predicate Fresh(d: Device) {
    && d.view == View(Review, 0, false, false, false) && d.gate == Gate(DRAFT, false)
    && d.draft.reviewedThrough == 0 && 0 < |d.draft.transcript| <= MAX_TRANSCRIPT_BYTES
  }

  lemma ReceiptReview(d: Device, env: Env, code: int, receipt: Option<L.Receipt>, remove: RemoveResult)
    ensures Elsewhere(ReceiptResult(d, env, code, receipt, remove))
  {
  }

  lemma InboxReview(d: Device, r: Response)
    ensures Elsewhere(ConsumeInbox(d, r))
  {
  }

  lemma TranscriptReview(d: Device, r: Response)
    ensures Elsewhere(ConsumeTranscript(d, r)) || Fresh(ConsumeTranscript(d, r))
  {
  }

  lemma ConsumeReview(d: Device, env: Env, kind: Kind, r: Response, remove: RemoveResult)
    ensures Elsewhere(Consume(d, env, kind, r, remove)) ||
            (Fresh(Consume(d, env, kind, r, remove)) &&
             kind != ReplySend && kind != ReplyStatus && kind != InboxRequest && r.contextOk)
  {
    ReceiptReview(d, env, r.code, r.receipt, remove);
    InboxReview(d, r);
    TranscriptReview(d, r);
  }

  predicate Finishes(d: Device, p: Pass) {
    d.link.kind != NoRequest && d.link.started && p.sameKind && p.finished.Some?
  }

  lemma RequestReview(d: Device, env: Env, p: Pass)
    ensures var d' := HandleRequest(d, env, p);
            || Elsewhere(d')
            || (!Finishes(d, p) && SameReview(d, d'))
            || (Finishes(d, p) && d.link.kind == Transcription && p.finished.value.contextOk && Fresh(d'))
  {
    var cleared := d.(link := IDLE);
    if Finishes(d, p) {
      ConsumeReview(cleared, env, d.link.kind, p.finished.value, p.remove);
    } else if d.link.kind != NoRequest && !d.link.started && env.live && !p.httpBusy && !p.enqueued && d.link.kind != ReplySend {
      ConsumeReview(cleared, env, d.link.kind, p.refused.(code := -1, receipt := None, contextOk := false), p.remove);
    } else {
      assert Elsewhere(Interrupted(d, p.remove));
    }
  }

  lemma HandleKeepsReview(d: Device, env: Env, p: Pass, drawn: set<nat>)
    requires ReviewOk(d, drawn) && ButtonOk(d)
    ensures ReviewOk(Handle(d, env, p), DrawnAfter(d, drawn, Loop(env, p))) && ButtonOk(Handle(d, env, p))
  {
    if d.onScreen && !LostContext(d, env) && !HandleCapture(d, env, p).1 {
      var d1 := HandleCapture(d, env, p).0;
      assert SameReview(d, d1) || Elsewhere(d1);
      RequestReview(d1, env, p);
      PassReview(d, env, p, drawn);
    } else {
      assert !Arrives(d, Loop(env, p));
      assert !d.onScreen || Elsewhere(Handle(d, env, p));
    }
  }

  lemma PassReview(d: Device, env: Env, p: Pass, drawn: set<nat>)
    requires ReviewOk(d, drawn) && ButtonOk(d)
    requires d.onScreen && !LostContext(d, env) && !HandleCapture(d, env, p).1
    requires var d1 := HandleCapture(d, env, p).0;
             var d' := HandleRequest(d1, env, p);
             && (SameReview(d, d1) || Elsewhere(d1))
             && (|| Elsewhere(d')
                 || (!Finishes(d1, p) && SameReview(d1, d'))
                 || (Finishes(d1, p) && d1.link.kind == Transcription && p.finished.value.contextOk && Fresh(d')))
    ensures ReviewOk(Handle(d, env, p), DrawnAfter(d, drawn, Loop(env, p))) && ButtonOk(Handle(d, env, p))
  {
    var d1 := HandleCapture(d, env, p).0;
    var d' := HandleRequest(d1, env, p);
    assert Handle(d, env, p) == d';
    if Elsewhere(d') {
    } else if Finishes(d1, p) {
      assert Arrives(d, Loop(env, p));
      FreshReview(d');
    } else {
      assert !Arrives(d, Loop(env, p));
      assert SameReview(d, d');
      SameReviewOk(d, d', drawn);
    }
  }

  lemma FreshReview(d: Device)
    requires Fresh(d)
    ensures ReviewOk(d, {}) && ButtonOk(d)
  {
  }

  lemma SameReviewOk(d: Device, d': Device, drawn: set<nat>)
    requires SameReview(d, d') && ReviewOk(d, drawn) && ButtonOk(d)
    ensures ReviewOk(d', drawn) && ButtonOk(d')
  {
  }

  lemma TapKeepsReview(d: Device, action: Action, drawn: set<nat>)
    requires ReviewOk(d, drawn) && ButtonOk(d) && d.onScreen && Offered(d, action)
    ensures ReviewOk(Tapped(d, action), drawn) && ButtonOk(Tapped(d, action))
  {
    match action
    case More(_) =>
    case _ => assert SameReview(d, Tapped(d, action)) || Elsewhere(Tapped(d, action));
  }

  lemma DrawKeepsReview(d: Device, env: Env, drawn: set<nat>)
    requires ReviewOk(d, drawn) && ButtonOk(d)
    ensures ReviewOk(Render(d, env), DrawnAfter(d, drawn, Draw(env))) && ButtonOk(Render(d, env))
  {
  }

  lemma NextKeepsReview(d: Device, e: Event, drawn: set<nat>)
    requires ReviewOk(d, drawn) && ButtonOk(d)
    ensures ReviewOk(Next(d, e), DrawnAfter(d, drawn, e)) && ButtonOk(Next(d, e))
  {
    match e
    case Loop(env, pass) => HandleKeepsReview(d, env, pass, drawn);
    case Tap(action) => if d.onScreen && Offered(d, action) { TapKeepsReview(d, action, drawn); }
    case Draw(env) => DrawKeepsReview(d, env, drawn);
    case EnterReplies(env) => assert Elsewhere(Enter(d, env));
    case LeaveReplies(remove) => assert d.onScreen ==> Elsewhere(Leave(d, remove));
    case _ =>
  }

  // ---------------------------------------------------------------- the saved key

  predicate Names(record: PendingSend, receipt: L.Receipt) {
    receipt.key == record.key && receipt.targetId == record.target && receipt.senderId == record.sender
  }

  predicate Unsent(d: Device) { d.link.kind == ReplySend && !d.link.started }

  /** The pass brings a final receipt for exactly this record, over its own account. */
  predicate BringsVerdict(d: Device, record: PendingSend, p: Pass) {
    && p.finished.Some? && p.finished.value.receipt.Some?
    && L.Final(p.finished.value.receipt.value.state) && Names(record, p.finished.value.receipt.value)
    && d.session.owner == Some(record.owner)
  }

  lemma CancelErases(d: Device, remove: RemoveResult)
    requires RecordOk(d) && CancelRequest(d, remove).flash != d.flash
    ensures Unsent(d)
  {
  }

  lemma RequestErases(d: Device, env: Env, p: Pass)
    requires RecordOk(d) && d.flash.Saved? && HandleRequest(d, env, p).flash != d.flash
    ensures Unsent(d) || BringsVerdict(d, d.flash.record, p)
  {
    var cleared := d.(link := IDLE);
    InboxKeepsRecord(cleared, p.refused.(code := -1, receipt := None, contextOk := false));
    TranscriptKeepsRecord(cleared, p.refused.(code := -1, receipt := None, contextOk := false));
    if p.finished.Some? {
      InboxKeepsRecord(cleared, p.finished.value);
      TranscriptKeepsRecord(cleared, p.finished.value);
    }
    if Interrupted(d, p.remove).flash != d.flash {
      CancelErases(d, p.remove);
    }
  }

  lemma HandleErases(d: Device, env: Env, p: Pass)
    requires RecordOk(d) && d.flash.Saved? && Handle(d, env, p).flash != d.flash
    ensures Unsent(d) || BringsVerdict(d, d.flash.record, p)
  {
    if LostContext(d, env) {
      CancelErases(d.(capturing := false), p.remove);
    } else {
      var d1 := HandleCapture(d, env, p).0;
      CaptureKeepsRecord(d, env, p);
      RequestErases(d1, env, p);
    }
  }

  /** The saved key disappears only when its request was never handed over, or when a final
      receipt for it has just come in. */
  lemma KeyErasedOnlyWhen(d: Device, e: Event)
    requires RecordOk(d) && d.flash.Saved? && Next(d, e).flash != d.flash
    ensures Unsent(d) || (e.Loop? && BringsVerdict(d, d.flash.record, e.pass))
  {
    match e
    case Loop(env, pass) => HandleErases(d, env, pass);
    case LeaveReplies(remove) => CancelErases(d.(capturing := false), remove);
    case Tap(action) => if action.CancelCapture? {
      CancelErases(d.(view := d.view.(armed := false)).(capturing := false), action.remove);
    }
    case _ =>
  }

  predicate SendsKey(e: Event, key: L.Key) { e.Tap? && e.action.SendReply? && e.action.key == key }

  lemma HandleSavesNothing(d: Device, env: Env, p: Pass)
    requires RecordOk(d)
    ensures var d' := Handle(d, env, p);
            && (d'.flash.Saved? ==> d'.flash == d.flash)
            && (d'.pending.Some? ==> d'.pending == d.pending)
            && (d'.link.kind == ReplySend ==> d.link.kind == ReplySend && d'.link.body == d.link.body)
            && (Unsent(d') ==> Unsent(d) && Enqueues(d, env, p).None?)
  {
    if d.onScreen && !LostContext(d, env) {
      var d1 := HandleCapture(d, env, p).0;
      CaptureKeepsRecord(d, env, p);
      RequestSavesNothing(d1, env, p);
    }
  }

  predicate SavesNothing(d: Device, d': Device) {
    (d'.flash.Saved? ==> d'.flash == d.flash) && (d'.pending.Some? ==> d'.pending == d.pending)
  }

  lemma ConsumeSavesNothing(d: Device, env: Env, kind: Kind, r: Response, remove: RemoveResult)
    requires RecordOk(d) && d.link == IDLE
    ensures SavesNothing(d, Consume(d, env, kind, r, remove)) && Consume(d, env, kind, r, remove).link == IDLE
  {
    ConsumeKeepsRecord(d, env, kind, r, remove);
    if kind == ReplySend || kind == ReplyStatus {
      ReceiptSavesNothing(d, env, r.code, r.receipt, remove);
    } else if r.contextOk && Same(d, env) {
      InboxKeepsRecord(d, r);
      TranscriptKeepsRecord(d, r);
    }
  }

  lemma ReceiptSavesNothing(d: Device, env: Env, code: int, receipt: Option<L.Receipt>, remove: RemoveResult)
    ensures SavesNothing(d, ReceiptResult(d, env, code, receipt, remove))
  {
    ForgetSavesNothing(d.(gate := OnReceipt(d.gate, ReceiptSent)), remove);
    ForgetSavesNothing(d.(gate := OnReceipt(d.gate, ReceiptFailed)), remove);
  }

  lemma ForgetSavesNothing(d: Device, remove: RemoveResult)
    ensures SavesNothing(d, ForgetPending(d, remove))
  {
  }

  lemma RequestSavesNothing(d: Device, env: Env, p: Pass)
    requires RecordOk(d)
    ensures var d' := HandleRequest(d, env, p);
            && SavesNothing(d, d')
            && (d'.link.kind == ReplySend ==> d.link.kind == ReplySend && d'.link.body == d.link.body)
            && (Unsent(d') ==> Unsent(d) && !(env.live && !p.httpBusy && p.enqueued))
  {
    var cleared := d.(link := IDLE);
    if Finishes(d, p) {
      ConsumeSavesNothing(cleared, env, d.link.kind, p.finished.value, p.remove);
    } else if d.link.kind != NoRequest && !d.link.started && env.live && !p.httpBusy && !p.enqueued && d.link.kind != ReplySend {
      ConsumeSavesNothing(cleared, env, d.link.kind, p.refused.(code := -1, receipt := None, contextOk := false), p.remove);
    } else {
      CancelSavesNothing(d, p.remove);
    }
  }

  /** A key is saved, and a send queued, only by the explicit Send that made the key. */
  lemma KeySavedOnlyBySend(d: Device, e: Event)
    requires RecordOk(d)
    ensures var d' := Next(d, e);
            && (d'.flash.Saved? && d'.flash != d.flash ==> SendsKey(e, d'.flash.record.key))
            && (Unsent(d') ==> (Unsent(d) && d'.pending == d.pending && Enqueued(d, e).None?) ||
                               (d'.pending.Some? && SendsKey(e, d'.pending.value.key)))
            && (d'.link.kind == ReplySend ==>
                  (d.link.kind == ReplySend && d'.link.body == d.link.body) ||
                  (SendHit(d) && e.Tap? && d'.link.body == d.draft.transcript))
  {
    NextKeepsRecord(d, e);
    match e
    case Loop(env, pass) => HandleSavesNothing(d, env, pass);
    case Tap(action) => if d.onScreen && Offered(d, action) { TapSaves(d, action); }
    case _ =>
  }

  lemma TapSaves(d: Device, action: Action)
    requires RecordOk(d) && d.onScreen && Offered(d, action)
    ensures var d' := Tapped(d, action);
            && (d'.flash.Saved? && d'.flash != d.flash ==> SendsKey(Tap(action), d'.flash.record.key))
            && (Unsent(d') ==> (Unsent(d) && d'.pending == d.pending) ||
                               (d'.pending.Some? && SendsKey(Tap(action), d'.pending.value.key)))
            && (d'.link.kind == ReplySend ==>
                  (d.link.kind == ReplySend && d'.link.body == d.link.body) ||
                  (SendHit(d) && d'.link.body == d.draft.transcript))
  {
    var released := d.(view := d.view.(armed := false));
    match action
    case SendReply(env, key, fits, result, stillLive) => SendSaves(released, env, key, fits, result, stillLive);
    case CancelCapture(remove) => CancelSavesNothing(released.(capturing := false), remove);
    case _ => OtherTapsSaveNothing(d, action);
  }

  lemma OtherTapsSaveNothing(d: Device, action: Action)
    requires !action.SendReply? && !action.CancelCapture?
    ensures var d' := Tapped(d, action);
            SameRecord(d, d') && (d'.link == d.link || d'.link.kind == ReplyStatus || d'.link.kind == InboxRequest)
  {
  }

  lemma CancelSavesNothing(d: Device, remove: RemoveResult)
    ensures SavesNothing(d, CancelRequest(d, remove)) && CancelRequest(d, remove).link == IDLE
  {
  }

  lemma SendSaves(d: Device, env: Env, key: L.Key, fits: bool, result: PersistResult, stillLive: bool)
    requires RecordOk(d)
    ensures var d' := BeginSend(d, env, key, fits, result, stillLive);
            && (d'.flash.Saved? && d'.flash != d.flash ==> d'.flash.record.key == key)
            && (Unsent(d') ==> (Unsent(d) && d'.pending == d.pending) || (d'.pending.Some? && d'.pending.value.key == key))
            && (d'.link.kind == ReplySend ==>
                  (d.link.kind == ReplySend && d'.link.body == d.link.body) || d'.link.body == d.draft.transcript)
  {
  }

  /** What is handed to the worker is the saved record and the approved text; and the record stays. */
  lemma EnqueuedIsTheRecord(d: Device, e: Event)
    requires RecordOk(d) && Enqueued(d, e).Some?
    ensures var r := Enqueued(d, e).value;
            && Unsent(d) && d.flash.Saved? && d.pending == Some(d.flash.record)
            && r == Request(d.flash.record.owner, d.flash.record.key, d.flash.record.target, d.flash.record.sender,
                            d.flash.record.connection, d.link.body)
            && Next(d, e).flash == d.flash && !Unsent(Next(d, e))
  {
    var d1 := HandleCapture(d, e.env, e.pass).0;
    CaptureKeepsRecord(d, e.env, e.pass);
  }
}
