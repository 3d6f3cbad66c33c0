/** The device, the ledgers it talks to, and everything that can go wrong between them: reboots,
    cancels, lost and late replies, storage failures, sign-in changes, and ledger crashes. */
module ReplySystem {
  import opened VoiceReply
  import opened VoiceInvariants
  import L = Ledger
  import R = LedgerRuns
  import T = ReplyText

  /** `wire` holds every request ever handed to the HTTP worker; each may reach its ledger at
      any later time, any number of times, or never.  `released` holds the receipts that have
      left a ledger; a reply leaves once storage has flushed the version it was read from.
      `others` are send keys drawn by other devices of the same accounts.
      `drawn` are the pages of the present transcript drawn since it arrived, `approved` the
      transcripts that were once drawn in full. */
  datatype System = System(d: Device, ledgers: map<Account, R.World>, wire: set<Request>,
                           released: set<(Account, L.Receipt)>, others: set<L.Key>,
                           drawn: set<nat>, approved: set<seq<T.byte>>)

  datatype Event =
    | OnDevice(e: VoiceReply.Event)
    | OnLedger(account: Account, le: R.Event)
    | Release(account: Account, call: nat)
    | OtherKey(key: L.Key)

  const BOOT := System(Setup(Absent), map[], {}, {}, {}, {}, {})

  function LedgerOf(s: System, account: Account): R.World {
    if account in s.ledgers then s.ledgers[account] else R.START
  }

  /** A fresh send key has never been handed out before, and a receipt in a response comes from
      the ledger of the account the request was made with. */
  predicate Admissible(s: System, e: VoiceReply.Event) {
    match e
    case Tap(SendReply(_, key, _, _, _)) => key !in s.others && forall r | r in s.wire :: r.key != key
    case Loop(_, pass) =>
      pass.finished.Some? && pass.finished.value.receipt.Some? && s.d.session.owner.Some? ==>
        (s.d.session.owner.value, pass.finished.value.receipt.value) in s.released
    case _ => true
  }

  /** The bytes of a request's text, as chars; their decoding at the gateway is left out. */
  function Text(bytes: seq<T.byte>): string { seq(|bytes|, i requires 0 <= i < |bytes| => (bytes[i] as int) as char) }

  /** What the gateway's send is called with when request r arrives. */
  function InputOf(r: Request): L.SendInput { L.SendInput(r.target, Text(r.text), r.sender, r.connection) }

  ghost predicate CameFrom(s: System, account: Account, key: L.Key, input: L.SendInput, r: Request) {
    r in s.wire && r.owner == account && r.key == key && InputOf(r) == input
  }

  /** A send reaches a ledger only as a request of this device, or with the key of another one. */
  ghost predicate Arrives(s: System, account: Account, key: L.Key, input: L.SendInput) {
    key in s.others || exists r :: CameFrom(s, account, key, input, r)
  }

  ghost function Step(s: System, e: Event): System {
    match e
    case OnDevice(de) =>
      if !Admissible(s, de) then s
      else
        var drawn := DrawnAfter(s.d, s.drawn, de);
        var d := Next(s.d, de);
        var sent := Enqueued(s.d, de);
        s.(d := d, wire := if sent.Some? then s.wire + {sent.value} else s.wire, drawn := drawn,
           approved := if d.onScreen && d.view.stage == Review && AllDrawn(d.draft.transcript, drawn)
                       then s.approved + {d.draft.transcript} else s.approved)
    case OnLedger(account, le) =>
      if le.Send? && !Arrives(s, account, le.key, le.input) then s
      else s.(ledgers := s.ledgers[account := R.Next(LedgerOf(s, account), le)])
    case Release(account, call) =>
      var w := LedgerOf(s, account);
      if call in w.calls && w.calls[call].Replied? && w.calls[call].outcome.Known? && w.calls[call].asOf <= w.durable then
        s.(released := s.released + {(account, w.calls[call].outcome.receipt)})
      else s
    case OtherKey(key) =>
      if NeverEnqueued(s, key) && (s.d.flash.Saved? ==> s.d.flash.record.key != key) then s.(others := s.others + {key}) else s
  }

  ghost function Run(s: System, es: seq<Event>): System
    decreases |es|
  {
    if |es| == 0 then s else Run(Step(s, es[0]), es[1..])
  }

  // ---------------------------------------------------------------- who still waits

  ghost predicate SettledBy(s: System, owner: Account, key: L.Key, target: Id, sender: Id, receipt: L.Receipt) {
    && L.Final(receipt.state) && receipt.key == key && receipt.targetId == target && receipt.senderId == sender
    && R.StoredSince(LedgerOf(s, owner), LedgerOf(s, owner).durable, receipt)
  }

  /** The owner's ledger holds, in every version that can survive, a sent or failed receipt for
      exactly this key, target and sender. */
  ghost predicate Settled(s: System, owner: Account, key: L.Key, target: Id, sender: Id) {
    exists receipt :: SettledBy(s, owner, key, target, sender, receipt)
  }

  ghost predicate Answered(s: System, r: Request) { Settled(s, r.owner, r.key, r.target, r.sender) }

  predicate Describes(p: PendingSend, r: Request) {
    p.key == r.key && p.owner == r.owner && p.target == r.target && p.sender == r.sender
  }

  predicate NeverEnqueued(s: System, key: L.Key) { forall r | r in s.wire :: r.key != key }

  ghost predicate WireOk(s: System) {
    && (forall r | r in s.wire :: Answered(s, r) || (s.d.flash.Saved? && Describes(s.d.flash.record, r)))
    && (s.d.link.kind == ReplySend && !s.d.link.started && s.d.pending.Some? ==> NeverEnqueued(s, s.d.pending.value.key))
  }

  ghost predicate LedgersOk(s: System) {
    && (forall a | a in s.ledgers :: R.Inv(s.ledgers[a]))
    && (forall a, receipt | (a, receipt) in s.released && L.Final(receipt.state) ::
          R.StoredSince(LedgerOf(s, a), LedgerOf(s, a).durable, receipt))
  }

  ghost predicate Inv(s: System) {
    && RecordOk(s.d)
    && WireOk(s)
    && LedgersOk(s)
    && ReviewOk(s.d, s.drawn)
    && (s.d.onScreen && s.d.view.canSend ==> s.d.view.stage == Review && s.d.gate.state == DRAFT && s.d.gate.reviewed)
    && (s.d.onScreen && s.d.view.stage == Review && AllDrawn(s.d.draft.transcript, s.drawn) ==> s.d.draft.transcript in s.approved)
    && (s.d.link.kind == ReplySend ==> s.d.link.body in s.approved)
  }

  // ---------------------------------------------------------------- preservation

  lemma LedgerKeepsSettled(s: System, account: Account, le: R.Event, owner: Account, key: L.Key, target: Id, sender: Id)
    requires LedgersOk(s) && Settled(s, owner, key, target, sender)
    ensures Settled(Step(s, OnLedger(account, le)), owner, key, target, sender)
  {
    var receipt :| SettledBy(s, owner, key, target, sender, receipt);
    R.StartOk();
    if owner == account {
      R.NextKeepsFinal(LedgerOf(s, account), le, LedgerOf(s, account).durable, receipt);
    }
    assert SettledBy(Step(s, OnLedger(account, le)), owner, key, target, sender, receipt);
  }

  lemma LedgerKeeps(s: System, account: Account, le: R.Event)
    requires Inv(s)
    ensures Inv(Step(s, OnLedger(account, le)))
  {
    var s' := Step(s, OnLedger(account, le));
    if s' != s { LedgerStepKeeps(s, account, le, s'); }
  }

  lemma LedgerStepKeeps(s: System, account: Account, le: R.Event, s': System)
    requires Inv(s) && s' == Step(s, OnLedger(account, le)) != s
    ensures Inv(s')
  {
    R.StartOk();
    R.NextKeeps(LedgerOf(s, account), le);
    forall a, receipt | (a, receipt) in s'.released && L.Final(receipt.state)
      ensures R.StoredSince(LedgerOf(s', a), LedgerOf(s', a).durable, receipt)
    {
      if a == account {
        R.NextKeepsFinal(LedgerOf(s, account), le, LedgerOf(s, account).durable, receipt);
      }
    }
    LedgerKeepsWire(s, account, le, s');
  }

  lemma LedgerKeepsWire(s: System, account: Account, le: R.Event, s': System)
    requires Inv(s) && s' == Step(s, OnLedger(account, le)) != s
    ensures WireOk(s')
  {
    assert s'.wire == s.wire && s'.d == s.d;
    forall r | r in s.wire
      ensures Answered(s', r) || (s.d.flash.Saved? && Describes(s.d.flash.record, r))
    {
      if Answered(s, r) {
        LedgerKeepsSettled(s, account, le, r.owner, r.key, r.target, r.sender);
      }
    }
  }

  lemma ReleaseKeeps(s: System, account: Account, call: nat)
    requires Inv(s)
    ensures Inv(Step(s, Release(account, call)))
  {
    var s' := Step(s, Release(account, call));
    var w := LedgerOf(s, account);
    R.StartOk();
    if s' != s {
      assert R.CallOk(w, w.calls[call]);
      assert forall r | r in s.wire && Answered(s, r) :: Answered(s', r) by {
        AnsweredSame(s, s');
      }
    }
  }

  lemma AnsweredSame(s: System, s': System)
    requires s'.ledgers == s.ledgers
    ensures forall r | Answered(s, r) :: Answered(s', r)
  {
    forall r | Answered(s, r)
      ensures Answered(s', r)
    {
      var receipt :| SettledBy(s, r.owner, r.key, r.target, r.sender, receipt);
      assert SettledBy(s', r.owner, r.key, r.target, r.sender, receipt);
    }
  }

  /** A released final receipt naming the record settles it. */
  lemma VerdictSettles(s: System, e: VoiceReply.Event)
    requires Inv(s) && Admissible(s, e) && s.d.flash.Saved?
    requires e.Loop? && BringsVerdict(s.d, s.d.flash.record, e.pass)
    ensures var p := s.d.flash.record; Settled(s, p.owner, p.key, p.target, p.sender)
  {
    var p := s.d.flash.record;
    assert SettledBy(s, p.owner, p.key, p.target, p.sender, e.pass.finished.value.receipt.value);
  }

  lemma DeviceKeepsWire(s: System, e: VoiceReply.Event)
    requires Inv(s) && Admissible(s, e)
    ensures WireOk(Step(s, OnDevice(e)))
  {
    var s' := Step(s, OnDevice(e));
    AnsweredSame(s, s');
    KeySavedOnlyBySend(s.d, e);
    if Enqueued(s.d, e).Some? {
      EnqueuedIsTheRecord(s.d, e);
    }
    forall r | r in s'.wire
      ensures Answered(s', r) || (s'.d.flash.Saved? && Describes(s'.d.flash.record, r))
    {
      if r in s.wire && !Answered(s, r) && s'.d.flash != s.d.flash {
        KeyErasedOnlyWhen(s.d, e);
        if !Unsent(s.d) {
          VerdictSettles(s, e);
        }
      }
    }
  }

  lemma DeviceKeepsApproved(s: System, e: VoiceReply.Event)
    requires Inv(s) && Admissible(s, e)
    ensures var s' := Step(s, OnDevice(e)); s'.d.link.kind == ReplySend ==> s'.d.link.body in s'.approved
  {
    KeySavedOnlyBySend(s.d, e);
  }

  lemma DeviceKeeps(s: System, e: VoiceReply.Event)
    requires Inv(s)
    ensures Inv(Step(s, OnDevice(e)))
  {
    if Admissible(s, e) {
      var s' := Step(s, OnDevice(e));
      NextKeepsRecord(s.d, e);
      NextKeepsReview(s.d, e, s.drawn);
      DeviceKeepsWire(s, e);
      DeviceKeepsApproved(s, e);
    }
  }

  lemma StepKeeps(s: System, e: Event)
    requires Inv(s)
    ensures Inv(Step(s, e))
  {
    match e
    case OnDevice(de) => DeviceKeeps(s, de);
    case OnLedger(account, le) => LedgerKeeps(s, account, le);
    case Release(account, call) => ReleaseKeeps(s, account, call);
    case OtherKey(key) => if Step(s, e) != s { OtherKeyKeeps(s, e); }
  }

  lemma OtherKeyKeeps(s: System, e: Event)
    requires Inv(s) && e.OtherKey?
    ensures Inv(Step(s, e))
  {
    AnsweredSame(s, Step(s, e));
  }

  lemma {:induction false} RunKeeps(s: System, es: seq<Event>)
    requires Inv(s)
    ensures Inv(Run(s, es))
    decreases |es|
  {
    if |es| > 0 {
      StepKeeps(s, es[0]);
      RunKeeps(Step(s, es[0]), es[1..]);
    }
  }

  // ---------------------------------------------------------------- what holds in every run

  /** The device gives up its saved key only if the request never left it, or its ledger holds,
      beyond any crash, a sent or failed receipt for exactly that key, target and sender. */
  lemma KeyErasedOnlyWhenSafe(es: seq<Event>, e: Event)
    ensures var s := Run(BOOT, es);
            var s' := Step(s, e);
            s.d.flash.Saved? && s'.d.flash != s.d.flash ==>
              var p := s.d.flash.record;
              NeverEnqueued(s, p.key) || Settled(s', p.owner, p.key, p.target, p.sender)
  {
    RunKeeps(BOOT, es);
    var s := Run(BOOT, es);
    var s' := Step(s, e);
    if s.d.flash.Saved? && s'.d.flash != s.d.flash {
      var p := s.d.flash.record;
      KeyErasedOnlyWhen(s.d, e.e);
      if !Unsent(s.d) {
        VerdictSettles(s, e.e);
        var receipt :| SettledBy(s, p.owner, p.key, p.target, p.sender, receipt);
        assert SettledBy(s', p.owner, p.key, p.target, p.sender, receipt);
      }
    }
  }

  /** At any time at most one request is unresolved, and the device still knows its key, its
      account, its target and its sender. */
  lemma AtMostOneUnresolvedRequest(es: seq<Event>, a: Request, b: Request)
    requires var s := Run(BOOT, es); a in s.wire && b in s.wire && !Answered(s, a) && !Answered(s, b)
    ensures a.key == b.key
    ensures var s := Run(BOOT, es); s.d.flash.Saved? && Describes(s.d.flash.record, a) && Unresolved(s.d)
  {
    RunKeeps(BOOT, es);
  }

  /** A key is handed to the network at most once: no reboot, status check or error resends it. */
  lemma KeyEnqueuedAtMostOnce(es: seq<Event>, e: VoiceReply.Event)
    ensures var s := Run(BOOT, es);
            Admissible(s, e) && Enqueued(s.d, e).Some? ==> NeverEnqueued(s, Enqueued(s.d, e).value.key)
  {
    RunKeeps(BOOT, es);
    if Enqueued(Run(BOOT, es).d, e).Some? {
      EnqueuedIsTheRecord(Run(BOOT, es).d, e);
    }
  }

  /** Send is enabled only when every page of the transcript on screen has been drawn since that
      transcript arrived. */
  lemma SendEnabledOnlyAfterFullReview(es: seq<Event>)
    ensures var s := Run(BOOT, es);
            s.d.onScreen && s.d.view.canSend ==>
              s.d.view.stage == Review && AllDrawn(s.d.draft.transcript, s.drawn)
  {
    RunKeeps(BOOT, es);
  }

  /** Whatever text leaves the device was, word for word, once drawn in full for review. */
  lemma OnlyReviewedTextIsEnqueued(es: seq<Event>, e: VoiceReply.Event)
    ensures var s := Run(BOOT, es);
            Enqueued(s.d, e).Some? ==> Enqueued(s.d, e).value.text in s.approved
  {
    RunKeeps(BOOT, es);
    if Enqueued(Run(BOOT, es).d, e).Some? {
      EnqueuedIsTheRecord(Run(BOOT, es).d, e);
    }
  }

  // ---------------------------------------------------------------- what the provider gets

  /** Every call at work and every POST of a ledger carries a request that arrived there. */
  ghost predicate LedgerTraced(s: System, account: Account) {
    var w := LedgerOf(s, account);
    && (forall id | id in w.calls && R.HasInput(w.calls[id]) :: Arrives(s, account, w.calls[id].key, w.calls[id].input))
    && (forall p | 0 <= p < |w.posts| :: Arrives(s, account, w.posts[p].key, w.posts[p].input))
  }

  ghost predicate WireTraced(s: System) {
    && (forall r | r in s.wire :: r.text in s.approved && r.key !in s.others)
    && (s.d.flash.Saved? ==> s.d.flash.record.key !in s.others)
  }

  ghost predicate Traced(s: System) { WireTraced(s) && forall account :: LedgerTraced(s, account) }

  /** More requests and more keys of others only add to what may have arrived. */
  lemma ArrivesLater(s: System, s': System, account: Account, key: L.Key, input: L.SendInput)
    requires Arrives(s, account, key, input) && s.wire <= s'.wire && s.others <= s'.others
    ensures Arrives(s', account, key, input)
  {
    if key !in s.others {
      var r :| CameFrom(s, account, key, input, r);
      assert CameFrom(s', account, key, input, r);
    }
  }

  lemma SameLedgersTraced(s: System, s': System)
    requires Traced(s) && s'.ledgers == s.ledgers && s.wire <= s'.wire && s.others <= s'.others
    ensures forall account :: LedgerTraced(s', account)
  {
    forall account
      ensures LedgerTraced(s', account)
    {
      var w := LedgerOf(s, account);
      assert LedgerTraced(s, account);
      forall id | id in w.calls && R.HasInput(w.calls[id])
        ensures Arrives(s', account, w.calls[id].key, w.calls[id].input)
      {
        ArrivesLater(s, s', account, w.calls[id].key, w.calls[id].input);
      }
      forall p | 0 <= p < |w.posts|
        ensures Arrives(s', account, w.posts[p].key, w.posts[p].input)
      {
        ArrivesLater(s, s', account, w.posts[p].key, w.posts[p].input);
      }
    }
  }

  /** One event of a ledger hands on the requests of its calls unchanged. */
  lemma LedgerEventTraced(s: System, account: Account, le: R.Event)
    requires LedgerTraced(s, account) && (le.Send? ==> Arrives(s, account, le.key, le.input))
    ensures var w := R.Next(LedgerOf(s, account), le);
            && (forall id | id in w.calls && R.HasInput(w.calls[id]) :: Arrives(s, account, w.calls[id].key, w.calls[id].input))
            && (forall p | 0 <= p < |w.posts| :: Arrives(s, account, w.posts[p].key, w.posts[p].input))
  {
    var w := LedgerOf(s, account);
    var w' := R.Next(w, le);
    forall id | id in w'.calls && R.HasInput(w'.calls[id])
      ensures Arrives(s, account, w'.calls[id].key, w'.calls[id].input)
    {
      R.CallsComeFromSends(w, le, id);
    }
    forall p | 0 <= p < |w'.posts|
      ensures Arrives(s, account, w'.posts[p].key, w'.posts[p].input)
    {
      R.PostsComeFromCalls(w, le, p);
    }
  }

  lemma LedgerKeepsTraced(s: System, account: Account, le: R.Event)
    requires Traced(s)
    ensures Traced(Step(s, OnLedger(account, le)))
  {
    var s' := Step(s, OnLedger(account, le));
    if s' != s {
      assert LedgerTraced(s, account);
      LedgerEventTraced(s, account, le);
      forall a
        ensures LedgerTraced(s', a)
      {
        assert LedgerTraced(s, a);
        var w := LedgerOf(s', a);
        forall id | id in w.calls && R.HasInput(w.calls[id])
          ensures Arrives(s', a, w.calls[id].key, w.calls[id].input)
        {
          ArrivesLater(s, s', a, w.calls[id].key, w.calls[id].input);
        }
        forall p | 0 <= p < |w.posts|
          ensures Arrives(s', a, w.posts[p].key, w.posts[p].input)
        {
          ArrivesLater(s, s', a, w.posts[p].key, w.posts[p].input);
        }
      }
    }
  }

  /** Only reviewed text is put on the wire, under a key that is nobody else's. */
  lemma DeviceKeepsTraced(s: System, e: VoiceReply.Event)
    requires Inv(s) && Traced(s)
    ensures Traced(Step(s, OnDevice(e)))
  {
    var s' := Step(s, OnDevice(e));
    if Admissible(s, e) {
      KeySavedOnlyBySend(s.d, e);
      if Enqueued(s.d, e).Some? {
        EnqueuedIsTheRecord(s.d, e);
      }
      SameLedgersTraced(s, s');
    }
  }

  lemma StepKeepsTraced(s: System, e: Event)
    requires Inv(s) && Traced(s)
    ensures Traced(Step(s, e))
  {
    match e
    case OnDevice(de) => DeviceKeepsTraced(s, de);
    case OnLedger(account, le) => LedgerKeepsTraced(s, account, le);
    case Release(_, _) => SameLedgersTraced(s, Step(s, e));
    case OtherKey(_) => SameLedgersTraced(s, Step(s, e));
  }

  lemma {:induction false} RunKeepsTraced(s: System, es: seq<Event>)
    requires Inv(s) && Traced(s)
    ensures Inv(Run(s, es)) && Traced(Run(s, es))
    decreases |es|
  {
    if |es| > 0 {
      StepKeeps(s, es[0]);
      StepKeepsTraced(s, es[0]);
      RunKeepsTraced(Step(s, es[0]), es[1..]);
    }
  }

  /** From the screen to the provider: every POST that a ledger makes, except under the key of another
      device, is the request that this device made under that key, for that account, target and
      sender, and its text was drawn in full for review before. */
  lemma EveryPostWasReviewed(es: seq<Event>, account: Account, p: nat)
    requires p < |LedgerOf(Run(BOOT, es), account).posts|
    ensures var s := Run(BOOT, es);
            var post := LedgerOf(s, account).posts[p];
            post.key in s.others ||
            exists r :: CameFrom(s, account, post.key, post.input, r) && r.text in s.approved
  {
    RunKeepsTraced(BOOT, es);
    var s := Run(BOOT, es);
    assert LedgerTraced(s, account);
    var post := LedgerOf(s, account).posts[p];
    if post.key !in s.others {
      var r :| CameFrom(s, account, post.key, post.input, r);
      assert r in s.wire && r.text in s.approved;
    }
  }
}
