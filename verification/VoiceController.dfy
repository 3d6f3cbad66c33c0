/** firmware/devices_badge/voice_reply.h: the entry points that decide about the saved key and about
    the review, updating the controller's globals step by step. */
module VoiceController {
  import opened Wrappers
  import opened VoiceReply
  import opened VoiceInvariants
  import L = Ledger
  import T = ReplyText

  // ---------------------------------------------------------------- what each entry point promises

  /** A send that was handed over keeps its record and becomes uncertain; only one that was not is
      given up, and nothing is saved. */
  ghost predicate CancelPromise(d: Device, d': Device) {
    && (RecordOk(d) ==> RecordOk(d'))
    && d'.link == IDLE && (d.link.kind == ReplySend ==> d'.gate.state != IN_FLIGHT)
    && (d.link.kind == ReplySend && d.link.started ==>
          SameRecord(d, d') && (d.gate.state == IN_FLIGHT ==> d'.gate.state == UNCERTAIN))
    && (!SameRecord(d, d') ==> Unsent(d))
    && (d'.flash.Saved? ==> d'.flash == d.flash)
  }

  /** A request is queued only for a reviewed and eligible draft, after its record was stored, with
      the text on screen and the mention shown; if storage fails nothing is queued and every later
      send is blocked. */
  ghost predicate SendPromise(d: Device, d': Device, env: Env, key: L.Key, result: PersistResult) {
    && (RecordOk(d) ==> RecordOk(d'))
    && (!SameRecord(d, d') || d'.gate != d.gate ==> d.gate == Gate(DRAFT, true) && Eligible(d, env) && env.live)
    && (d'.link.kind == ReplySend && d.link.kind != ReplySend ==> result == Stored && QueuedFor(d, d', key))
    && (d'.pending != d.pending && result != Stored ==> d'.blocked && d'.link.kind == d.link.kind)
    && d'.session == d.session && d'.draft == d.draft
  }

  predicate QueuedFor(d: Device, d': Device, key: L.Key) {
    && d'.gate.state == IN_FLIGHT && !d'.link.started && d'.link.body == d.draft.transcript
    && d.session.owner.Some? && d.session.index < |d.session.mentions|
    && d'.flash == Saved(PendingSend(key, d.session.owner.value, d.session.mentions[d.session.index],
                                     d.session.sender, d.session.connection))
  }

  /** Only a final receipt for exactly the saved key, target, sender and account ends a send; any
      other answer keeps the record and leaves the send undecided. */
  ghost predicate ReceivePromise(d: Device, d': Device, env: Env, receipt: Option<L.Receipt>) {
    && (RecordOk(d) && d.link == IDLE ==> RecordOk(d'))
    && (!SameRecord(d, d') ==> Matches(d, env, receipt) && L.Final(receipt.value.state))
    && EndsOnlyByVerdict(d, d', env, receipt)
  }

  predicate EndsOnlyByVerdict(d: Device, d': Device, env: Env, receipt: Option<L.Receipt>) {
    && (Undecided(d.gate) && !Undecided(d'.gate) ==>
          Matches(d, env, receipt) && receipt.value.state == if d'.gate.state == SENT then L.Sent else L.Failed)
    && d'.gate.reviewed == d.gate.reviewed && d'.session == d.session && d'.link == d.link
  }

  /** The pages drawn stay the exact measure of the review, which grows by the next page only; Send
      is offered once all pages were drawn. */
  ghost predicate ReviewPromise(d: Device, d': Device, drawn: set<nat>) {
    && ReviewOk(d', drawn) && ButtonOk(d')
    && d.draft.reviewedThrough <= d'.draft.reviewedThrough <= d.draft.reviewedThrough + 1
    && (d'.draft.reviewedThrough > d.draft.reviewedThrough ==> d'.draft.reviewedThrough == d.view.textPage + 1)
    && (d'.onScreen && d'.view.canSend ==> AllDrawn(d'.draft.transcript, drawn))
  }

  lemma CancelKeepsPromise(d: Device, remove: RemoveResult)
    ensures CancelPromise(d, CancelRequest(d, remove))
  {
  }

  lemma SendKeepsPromise(d: Device, env: Env, key: L.Key, fits: bool, result: PersistResult, stillLive: bool)
    ensures SendPromise(d, BeginSend(d, env, key, fits, result, stillLive), env, key, result)
  {
  }

  lemma ForgetFrame(d: Device, remove: RemoveResult)
    ensures var d' := ForgetPending(d, remove); d'.gate == d.gate && d'.session == d.session && d'.link == d.link
  {
  }

  lemma ReceiveEndsOnlyByVerdict(d: Device, env: Env, code: int, receipt: Option<L.Receipt>, remove: RemoveResult)
    ensures EndsOnlyByVerdict(d, ReceiptResult(d, env, code, receipt, remove), env, receipt)
  {
    var sent := Matches(d, env, receipt) && receipt.value.state == L.Sent && 200 <= code < 300;
    var failed := Matches(d, env, receipt) && receipt.value.state == L.Failed && code > 0;
    var verdict := if sent then ReceiptSent else ReceiptFailed;
    ForgetFrame(d.(gate := OnReceipt(d.gate, verdict)), remove);
    var d' := ReceiptResult(d, env, code, receipt, remove);
    assert d'.gate == if sent || failed then OnReceipt(d.gate, verdict) else OnReceipt(OnTransportLost(d.gate), ReceiptUnknown);
  }

  lemma ReceiveKeepsPromise(d: Device, env: Env, code: int, receipt: Option<L.Receipt>, remove: RemoveResult)
    ensures ReceivePromise(d, ReceiptResult(d, env, code, receipt, remove), env, receipt)
  {
    if RecordOk(d) && d.link == IDLE {
      ReceiptKeepsRecord(d, env, code, receipt, remove);
    }
    ReceiveEndsOnlyByVerdict(d, env, code, receipt, remove);
  }

  lemma RenderKeepsPromise(d: Device, env: Env, drawn: set<nat>)
    requires ReviewOk(d, drawn) && ButtonOk(d)
    ensures ReviewPromise(d, Render(d, env), DrawnAfter(d, drawn, Draw(env)))
  {
    DrawKeepsReview(d, env, drawn);
  }

  // ---------------------------------------------------------------- the globals, updated in place

  class Controller {
    var flash: Flash
    var pending: Option<PendingSend>
    var storageBlocked: bool
    const gate: VoiceSendGate
    var link: Link
    var session: Session
    var view: View
    var draft: Draft
    var onScreen: bool
    var captureExpected: bool
    var localCheck: bool

    ghost function State(): Device
      reads this, gate
    {
      Device(flash, pending, storageBlocked, gate.Value(), link, session, view, draft, onScreen, captureExpected, localCheck)
    }

    /** Start-up: whatever survived in flash, no send is possible before it is resolved. */
    constructor (saved: Flash)
      ensures State() == Setup(saved) && RecordOk(State())
      ensures saved != Absent ==> Unresolved(State()) && gate.state == UNCERTAIN
      ensures fresh(gate)
    {
      gate := new VoiceSendGate();
      flash, pending, storageBlocked, link, session := saved, None, false, IDLE, NO_SESSION;
      view, draft := View(Loading, 0, false, false, false), Draft([], 0, false);
      onScreen, captureExpected, localCheck := false, false, false;
      new;
      match saved {
        case Absent =>
        case Saved(record) =>
          pending := Some(record);
          gate.RestorePending();
        case Corrupt(kept) =>
          pending, storageBlocked := kept, true;
          gate.RestorePending();
      }
    }

    method SetStage(next: Stage)
      modifies this`view
      ensures view == View(next, 0, false, false, false)
    {
      view := View(next, 0, false, false, false);
    }

    method SetError(unresolved: bool)
      modifies this`view
      ensures view == View(Error, 0, false, unresolved, false)
    {
      SetStage(Error);
      view := view.(uncertain := unresolved);
    }

    /** The saved key is gone from flash and memory, or it stays in memory and every later send is
        blocked. */
    method Forget(remove: RemoveResult) returns (forgotten: bool)
      modifies this`flash, this`pending, this`storageBlocked
      ensures State() == ForgetPending(old(State()), remove)
      ensures if forgotten then flash == Absent && pending == None else storageBlocked && pending == old(pending)
    {
      if flash != Absent {
        if remove != Removed {
          if remove == RemovedUnreported {
            flash := Absent;
          }
          storageBlocked := true;
          return false;
        }
        flash := Absent;
      }
      pending := None;
      return true;
    }

    method Cancel(remove: RemoveResult)
      modifies this`flash, this`pending, this`storageBlocked, this`link, gate`state
      ensures State() == CancelRequest(old(State()), remove)
      ensures CancelPromise(old(State()), State())
    {
      ghost var d := State();
      if link.kind == ReplySend {
        if link.started {
          gate.TransportUncertain();
        } else {
          gate.Receipt(ReceiptFailed);
          var _ := Forget(remove);
        }
      }
      link := IDLE;
      assert State() == CancelRequest(d, remove);
      CancelKeepsPromise(d, remove);
    }

    /** The record is stored before the request is queued. */
    method Persist(record: PendingSend, result: PersistResult)
      modifies this`flash, this`pending, this`link
      ensures pending == Some(record) && flash == PersistedFlash(old(flash), record, result)
      ensures link == old(link).(body := draft.transcript)
    {
      link := link.(body := draft.transcript);
      pending, flash := Some(record), PersistedFlash(flash, record, result);
    }

    /** The guard of the Send button's action. */
    method MaySend(env: Env) returns (may: bool)
      ensures may <==> CanSend(gate.Value(), env.live, Eligible(State(), env)) && session.index < |session.mentions|
    {
      var eligible := session.postingAllowed && draft.valid && 0 < |session.mentions| && VoiceId(session.sender, 32)
                      && VoiceId(session.connection, 128) && session.owner.Some? && session.owner == env.account
                      && !storageBlocked && pending.None? && gate.state != IN_FLIGHT && gate.state != UNCERTAIN;
      may := gate.state == DRAFT && gate.reviewed && env.live && eligible && session.index < |session.mentions|;
    }

    method Send(env: Env, key: L.Key, fits: bool, result: PersistResult, stillLive: bool)
      modifies this, gate
      ensures State() == BeginSend(old(State()), env, key, fits, result, stillLive)
      ensures SendPromise(old(State()), State(), env, key, result)
    {
      ghost var d := State();
      var may := MaySend(env);
      if may {
        if fits { Submit(key, result, stillLive); } else { SetError(false); }
      }
      assert State() == BeginSend(d, env, key, fits, result, stillLive);
      SendKeepsPromise(d, env, key, fits, result, stillLive);
    }

    /** The record first; the request is queued only if it was stored and the gate still lets it. */
    method Submit(key: L.Key, result: PersistResult, stillLive: bool)
      requires session.owner.Some? && session.index < |session.mentions| && gate.Value() == Gate(DRAFT, true)
      modifies this, gate
      ensures var d := old(State());
              var record := PendingSend(key, d.session.owner.value, d.session.mentions[d.session.index],
                                        d.session.sender, d.session.connection);
              var d' := d.(link := d.link.(body := d.draft.transcript), pending := Some(record),
                           flash := PersistedFlash(d.flash, record, result));
              State() == if result != Stored then ToError(d'.(blocked := true, gate := Gate(UNCERTAIN, false)), true)
                         else if !stillLive then ToError(d', true)
                         else Queue(ToStage(d'.(gate := d.gate.(state := IN_FLIGHT)), Sending), ReplySend)
    {
      Persist(PendingSend(key, session.owner.value, session.mentions[session.index], session.sender, session.connection), result);
      if result != Stored {
        storageBlocked := true;
        gate.RestorePending();
        SetError(true);
        return;
      }
      var begun := gate.BeginSend(stillLive, true);
      if !begun {
        SetError(true);
        return;
      }
      SetStage(Sending);
      link := link.(kind := ReplySend, started := false);
    }

    /** A final receipt: the verdict first, then the saved key. */
    method Conclude(verdict: Verdict, remove: RemoveResult)
      modifies this`flash, this`pending, this`storageBlocked, gate`state
      ensures var d := old(State()); State() == ForgetPending(d.(gate := OnReceipt(d.gate, verdict)), remove)
    {
      gate.Receipt(verdict);
      var _ := Forget(remove);
    }

    method Finish(remove: RemoveResult)
      modifies this, gate`state
      ensures var d := old(State());
              State() == ToStage(Wipe(ForgetPending(d.(gate := OnReceipt(d.gate, ReceiptSent)), remove)), Done)
    {
      Conclude(ReceiptSent, remove);
      draft := draft.(transcript := []);
      SetStage(Done);
    }

    method GiveUp(remove: RemoveResult)
      modifies this, gate`state
      ensures var d := old(State());
              State() == ToError(ForgetPending(d.(gate := OnReceipt(d.gate, ReceiptFailed)), remove), false)
    {
      Conclude(ReceiptFailed, remove);
      SetError(false);
    }

    method LeaveOpen()
      modifies this`view, gate`state
      ensures var d := old(State());
              State() == ToError(d.(gate := OnReceipt(OnTransportLost(d.gate), ReceiptUnknown)), true)
    {
      gate.TransportUncertain();
      gate.Receipt(ReceiptUnknown);
      SetError(true);
    }

    method Receive(env: Env, code: int, receipt: Option<L.Receipt>, remove: RemoveResult)
      modifies this, gate`state
      ensures State() == ReceiptResult(old(State()), env, code, receipt, remove)
      ensures ReceivePromise(old(State()), State(), env, receipt)
    {
      ghost var d := State();
      var matches := receipt.Some? && pending.Some? && env.account == Some(pending.value.owner)
                     && receipt.value.key == pending.value.key && receipt.value.targetId == pending.value.target
                     && receipt.value.senderId == pending.value.sender;
      assert matches == Matches(d, env, receipt);
      if matches && receipt.value.state == L.Sent && 200 <= code < 300 {
        Finish(remove);
      } else if matches && receipt.value.state == L.Failed && code > 0 {
        GiveUp(remove);
      } else {
        LeaveOpen();
      }
      assert State() == ReceiptResult(d, env, code, receipt, remove);
      ReceiveKeepsPromise(d, env, code, receipt, remove);
    }

    method Cover()
      requires |draft.transcript| <= T.MAX_TEXT_BYTES
      modifies this`draft, gate`reviewed
      ensures State() == Covered(old(State()))
    {
      if view.textPage <= draft.reviewedThrough && draft.reviewedThrough < view.textPage + 1 {
        draft := draft.(reviewedThrough := view.textPage + 1);
      }
      var drawing := T.Paginate(draft.transcript, view.textPage);
      if draft.reviewedThrough >= drawing.pages {
        gate.ReviewedAllPages();
      }
    }

    /** Drawing: advance the coverage, then decide what the button shows. */
    method DrawReview(env: Env, ghost drawn: set<nat>)
      requires ReviewOk(State(), drawn) && ButtonOk(State())
      modifies this`draft, this`view, gate`reviewed
      ensures State() == Render(old(State()), env)
      ensures ReviewPromise(old(State()), State(), DrawnAfter(old(State()), drawn, Draw(env)))
    {
      ghost var d := State();
      if onScreen && view.stage == Review {
        Cover();
        var offered := gate.state == DRAFT && gate.reviewed && env.live && session.owner.Some? && session.owner == env.account
                       && session.postingAllowed && draft.valid && 0 < |session.mentions|
                       && !storageBlocked && pending.None? && gate.state != IN_FLIGHT && gate.state != UNCERTAIN;
        view := view.(canSend := offered);
      }
      assert State() == Render(d, env);
      RenderKeepsPromise(d, env, drawn);
    }
  }
}
