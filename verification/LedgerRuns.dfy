/** Every run of one ReplyLedger object: concurrent calls cut at their awaits, storage that
    flushes late, and crashes that lose the unflushed writes and all calls in flight. */
module LedgerRuns {
  import opened Wrappers
  import opened Ledger

  /** A POST handed to the provider; `rejected` once the provider has certainly refused it. */
  datatype Post = Post(input: SendInput, key: Key, rejected: bool)

  /** The three provider awaits between the reservation and the POST. */
  datatype Stage = AtAccess | AtSender | AtTarget

  /** What a caller gets back: a receipt, no receipt, or a refusal that carries no receipt. */
  datatype Outcome = Known(receipt: Receipt) | NotFound | Refused

  /** A call stopped at one of its awaits.  `upto` is the version its sync() waits for, `asOf`
      the version its reply was read from. */
  datatype Call =
    | Hashing(input: SendInput, key: Key, fingerprint: string)
    | Reserving(input: SendInput, key: Key, receipt: Receipt, upto: nat)
    | Preparing(input: SendInput, key: Key, stage: Stage)
    | Posting(input: SendInput, key: Key, post: nat)
    | Settling(receipt: Receipt, upto: nat)
    | Replied(outcome: Outcome, asOf: nat)

  /** `versions` are the states of the tables since the start, the last one in memory;
      versions up to `durable` are on disk. */
  datatype RawWorld = RawWorld(versions: seq<Tables>, durable: nat, calls: map<nat, Call>, posts: seq<Post>)
  type World = w: RawWorld | w.durable < |w.versions| witness RawWorld([EMPTY], 0, map[], [])

  datatype Event =
    | Send(id: nat, input: SendInput, key: Key, fingerprint: string)
    | Query(id: nat, key: Key, now: nat)
    | Permitted(bucket: string, now: nat)
    | Hashed(id: nat, now: nat)
    | Persist(upto: nat)
    | Synced(id: nat, textOk: bool, now: nat)
    | Accessed(id: nat, connection: Option<string>, now: nat)
    | Identified(id: nat, sender: Option<Id>, now: nat)
    | Verified(id: nat, eligible: bool, timeLeft: int, now: nat)
    | Answered(id: nat, answer: Answer, now: nat)
    | Crash

  const START: World := RawWorld([EMPTY], 0, map[], [])
  const POST_RESERVE_MS := 5000

  function Last(w: World): nat { |w.versions| - 1 }

  function Memory(w: World): Tables { w.versions[Last(w)] }

  function Push(w: World, t: Tables): World { w.(versions := w.versions + [t]) }

  function Set(w: World, id: nat, call: Call): World { w.(calls := w.calls[id := call]) }

  /** The catch block before dispatch: record the failure and wait for storage. */
  function Abandon(w: World, id: nat, key: Key, input: SendInput, error: string, now: nat): World {
    var receipt := Failure(key, input, error);
    var w' := Push(w, Save(Memory(w), receipt, now));
    Set(w', id, Settling(receipt, Last(w')))
  }

  /** How a lookup's call goes on: wait for storage, or reply at once. */
  function AfterLookup(found: Lookup, version: nat): Call {
    match found
    case Found(receipt, true) => Settling(receipt, version)
    case Found(receipt, false) => Replied(Known(receipt), version)
    case Missing => Replied(NotFound, version)
    case InvalidKey => Replied(Refused, version)
  }

  /** sync() resolves, once storage has caught up with the call. */
  function Resume(w: World, id: nat, textOk: bool, now: nat): World
    requires id in w.calls
  {
    match w.calls[id]
    case Reserving(input, key, receipt, upto) =>
      if w.durable < upto then w
      else if receipt.state == Failed then Set(w, id, Replied(Known(receipt), upto))
      else if !textOk then Abandon(w, id, key, input, "reply_too_long_or_invalid", now)
      else Set(w, id, Preparing(input, key, AtAccess))
    case Settling(receipt, upto) =>
      if w.durable < upto then w else Set(w, id, Replied(Known(receipt), upto))
    case _ => w
  }

  function Next(w: World, e: Event): World {
    match e
    case Send(id, input, key, fingerprint) =>
      if id in w.calls then w
      else Set(w, id, if ValidKey(key) then Hashing(input, key, fingerprint) else Replied(Refused, Last(w)))
    case Query(id, key, now) =>
      if id in w.calls then w
      else
        var (t, found) := Status(Memory(w), key, now);
        var w' := Push(w, t);
        Set(w', id, AfterLookup(found, Last(w')))
    case Permitted(bucket, now) => Push(w, Permit(Memory(w), bucket, now).0)
    case Hashed(id, now) =>
      if id in w.calls && w.calls[id].Hashing? then
        var call := w.calls[id];
        var (t, admission) := Admit(Memory(w), call.key, call.fingerprint, call.input, now);
        var w' := Push(w, t);
        match admission
        case Conflict => Set(w', id, Replied(Refused, Last(w')))
        case RateLimited => Set(w', id, Replied(Refused, Last(w')))
        case Existing(found) => Set(w', id, AfterLookup(found, Last(w')))
        case Admitted(receipt) => Set(w', id, Reserving(call.input, call.key, receipt, Last(w')))
      else w
    case Persist(upto) => if w.durable <= upto < |w.versions| then w.(durable := upto) else w
    case Synced(id, textOk, now) => if id in w.calls then Resume(w, id, textOk, now) else w
    case Accessed(id, connection, now) =>
      if id in w.calls && w.calls[id].Preparing? && w.calls[id].stage == AtAccess then
        var call := w.calls[id];
        if connection.None? then Abandon(w, id, call.key, call.input, "service_unavailable", now)
        else if connection.value != call.input.connectionId then
          Abandon(w, id, call.key, call.input, "x_connection_changed", now)
        else Set(w, id, call.(stage := AtSender))
      else w
    case Identified(id, sender, now) =>
      if id in w.calls && w.calls[id].Preparing? && w.calls[id].stage == AtSender then
        var call := w.calls[id];
        if sender.None? then Abandon(w, id, call.key, call.input, "service_unavailable", now)
        else if sender.value != call.input.senderId then
          Abandon(w, id, call.key, call.input, "x_sender_changed", now)
        else Set(w, id, call.(stage := AtTarget))
      else w
    case Verified(id, eligible, timeLeft, now) =>
      if id in w.calls && w.calls[id].Preparing? && w.calls[id].stage == AtTarget then
        var call := w.calls[id];
        if !eligible then Abandon(w, id, call.key, call.input, "reply_not_eligible", now)
        else if timeLeft < POST_RESERVE_MS then
          Abandon(w, id, call.key, call.input, "preparation_deadline", now)
        else
          var post := Post(call.input, call.key, false);
          Set(w.(posts := w.posts + [post]), id, Posting(call.input, call.key, |w.posts|))
      else w
    case Answered(id, answer, now) =>
      if id in w.calls && w.calls[id].Posting? && w.calls[id].post < |w.posts| then
        Conclude(w, id, answer, now)
      else w
    case Crash => w.(versions := w.versions[..w.durable + 1], calls := map[])
  }

  function MarkAnswered(w: World, post: nat, answer: Answer): World
    requires post < |w.posts|
  {
    w.(posts := w.posts[post := w.posts[post].(rejected := DefinitelyRejected(answer))])
  }

  /** The provider has answered: record the verdict and wait for storage. */
  function Conclude(w: World, id: nat, answer: Answer, now: nat): World
    requires id in w.calls && w.calls[id].Posting? && w.calls[id].post < |w.posts|
  {
    var call := w.calls[id];
    var receipt := Verdict(call.key, call.input, answer);
    var w1 := MarkAnswered(w, call.post, answer);
    var w' := Push(w1, Save(Memory(w1), receipt, now));
    Set(w', id, Settling(receipt, Last(w')))
  }

  function Run(w: World, es: seq<Event>): World
    decreases |es|
  {
    if |es| == 0 then w else Run(Next(w, es[0]), es[1..])
  }

  // ---------------------------------------------------------------- the invariant

  ghost predicate OwnedSince(w: World, since: nat, key: Key, input: SendInput) {
    forall i | since <= i < |w.versions| :: Owns(w.versions[i], key, input)
  }

  ghost predicate StoredSince(w: World, since: nat, receipt: Receipt) {
    forall i | since <= i < |w.versions| :: Stored(w.versions[i], receipt)
  }

  ghost predicate NeverPosted(w: World, key: Key) {
    forall i | 0 <= i < |w.posts| :: w.posts[i].key != key
  }

  /** A call that may still post, or has posted, for its key. */
  predicate Working(call: Call, key: Key) {
    match call
    case Reserving(_, k, receipt, _) => k == key && receipt.state == Pending
    case Preparing(_, k, _) => k == key
    case Posting(_, k, _) => k == key
    case _ => false
  }

  ghost predicate ReplyStored(w: World, receipt: Receipt, since: nat) {
    since < |w.versions| && (Final(receipt.state) ==> StoredSince(w, since, receipt))
  }

  ghost predicate CallOk(w: World, call: Call) {
    match call
    case Hashing(_, key, _) => ValidKey(key)
    case Reserving(input, key, receipt, upto) =>
      && upto < |w.versions|
      && (if receipt.state == Pending then OwnedSince(w, upto, key, input) && NeverPosted(w, key)
          else receipt.state == Failed && StoredSince(w, upto, receipt))
    case Preparing(input, key, _) => OwnedSince(w, w.durable, key, input) && NeverPosted(w, key)
    case Posting(input, key, post) =>
      && OwnedSince(w, w.durable, key, input)
      && post < |w.posts| && w.posts[post] == Post(input, key, false)
    case Settling(receipt, upto) => ReplyStored(w, receipt, upto)
    case Replied(Known(receipt), asOf) => ReplyStored(w, receipt, asOf)
    case Replied(_, _) => true
  }

  /** A POST not certainly refused keeps its receipt live in every version that can survive. */
  predicate PostHeld(t: Tables, post: Post) {
    && post.key in t.receipts
    && PairOf(t.receipts[post.key]) == (post.input.senderId, post.input.targetId)
    && (!post.rejected ==> Live(t.receipts[post.key].state))
  }

  ghost predicate PostsHeld(w: World) {
    forall p, i | 0 <= p < |w.posts| && w.durable <= i < |w.versions| :: PostHeld(w.versions[i], w.posts[p])
  }

  predicate SamePair(a: Post, b: Post) {
    a.input.senderId == b.input.senderId && a.input.targetId == b.input.targetId
  }

  /** An earlier POST to the same target was refused before a later one was made, and no key
      was ever posted twice. */
  ghost predicate AtMostOnce(posts: seq<Post>) {
    && (forall i, j | 0 <= i < j < |posts| &&
          SamePair(posts[i], posts[j]) :: posts[i].rejected)
    && (forall i, j | 0 <= i < j < |posts| :: posts[i].key != posts[j].key)
  }

  ghost predicate OneWorker(w: World) {
    forall a, b, key | a in w.calls && b in w.calls && Working(w.calls[a], key) && Working(w.calls[b], key) :: a == b
  }

  ghost predicate CallsOk(w: World) {
    forall id | id in w.calls :: CallOk(w, w.calls[id])
  }

  ghost predicate VersionsOk(w: World) {
    forall i | 0 <= i < |w.versions| :: Consistent(w.versions[i])
  }

  ghost predicate Inv(w: World) {
    && VersionsOk(w)
    && CallsOk(w)
    && OneWorker(w)
    && PostsHeld(w)
    && AtMostOnce(w.posts)
  }

  // ---------------------------------------------------------------- preservation

  lemma OwnedLater(w: World, t: Tables, free: Option<Key>, since: nat, key: Key, input: SendInput)
    requires OwnedSince(w, since, key, input) && since < |w.versions|
    requires Evolves(Memory(w), t, free) && free != Some(key)
    ensures OwnedSince(Push(w, t), since, key, input)
  {
    assert Owns(w.versions[Last(w)], key, input);
  }

  lemma StoredLater(w: World, t: Tables, free: Option<Key>, since: nat, receipt: Receipt)
    requires VersionsOk(w) && Evolves(Memory(w), t, free)
    requires Final(receipt.state) && since < |w.versions| && StoredSince(w, since, receipt)
    ensures StoredSince(Push(w, t), since, receipt)
  {
    assert Stored(w.versions[Last(w)], receipt) && Consistent(w.versions[Last(w)]);
  }

  /** Appending the next state of the tables keeps what a call relies on, unless the call is
      the one working on the freed key. */
  lemma PushKeepsCall(w: World, t: Tables, free: Option<Key>, call: Call)
    requires VersionsOk(w) && CallOk(w, call)
    requires Evolves(Memory(w), t, free)
    requires free.Some? ==> !Working(call, free.value)
    ensures CallOk(Push(w, t), call)
  {
    match call
    case Reserving(input, key, receipt, upto) =>
      if receipt.state == Pending { OwnedLater(w, t, free, upto, key, input); } else { StoredLater(w, t, free, upto, receipt); }
    case Preparing(input, key, _) => OwnedLater(w, t, free, w.durable, key, input);
    case Posting(input, key, _) => OwnedLater(w, t, free, w.durable, key, input);
    case Settling(receipt, upto) => if Final(receipt.state) { StoredLater(w, t, free, upto, receipt); }
    case Replied(Known(receipt), asOf) => if Final(receipt.state) { StoredLater(w, t, free, asOf, receipt); }
    case _ =>
  }

  /** Rows that change through one stretch still hold every unrefused POST. */
  lemma PushKeepsPosts(w: World, t: Tables, free: Option<Key>)
    requires PostsHeld(w) && Evolves(Memory(w), t, free)
    requires forall p | 0 <= p < |w.posts| && Some(w.posts[p].key) == free && !w.posts[p].rejected ::
               w.posts[p].key in t.receipts && Live(t.receipts[w.posts[p].key].state)
    ensures PostsHeld(Push(w, t))
  {
    var w' := Push(w, t);
    forall p, i | 0 <= p < |w'.posts| && w'.durable <= i < |w'.versions|
      ensures PostHeld(w'.versions[i], w'.posts[p])
    {
      if i < |w.versions| {
        assert PostHeld(w.versions[i], w.posts[p]);
      } else {
        assert PostHeld(w.versions[Last(w)], w.posts[p]);
      }
    }
  }

  lemma PushKeepsVersions(w: World, t: Tables)
    requires VersionsOk(w) && Consistent(t)
    ensures VersionsOk(Push(w, t))
  {
  }

  lemma OneWorkerAfterSet(w: World, w': World, id: nat, call: Call)
    requires OneWorker(w) && w'.calls == w.calls[id := call]
    requires forall key, other | Working(call, key) && other in w.calls && other != id :: !Working(w.calls[other], key)
    ensures OneWorker(w')
  {
  }

  lemma CallOkIgnoresCalls(w: World, w': World, call: Call)
    requires w.versions == w'.versions && w.durable == w'.durable && w.posts == w'.posts && CallOk(w, call)
    ensures CallOk(w', call)
  {
  }

  /** A stretch that frees no key, followed by the calling call's next await. */
  lemma StretchKeeps(w: World, t: Tables, id: nat, call: Call)
    requires Inv(w) && Consistent(t) && Evolves(Memory(w), t, None)
    requires CallOk(Push(w, t), call)
    requires forall key, other | Working(call, key) && other in w.calls && other != id :: !Working(w.calls[other], key)
    ensures Inv(Set(Push(w, t), id, call))
  {
    var w' := Set(Push(w, t), id, call);
    forall other | other in w'.calls
      ensures CallOk(w', w'.calls[other])
    {
      if other == id {
        CallOkIgnoresCalls(Push(w, t), w', call);
      } else {
        PushKeepsCall(w, t, None, w.calls[other]);
        CallOkIgnoresCalls(Push(w, t), w', w.calls[other]);
      }
    }
    PushKeepsPosts(w, t, None);
    PushKeepsVersions(w, t);
    OneWorkerAfterSet(w, w', id, call);
  }

  lemma SettleKeepsCalls(w: World, t: Tables, id: nat, receipt: Receipt, free: Option<Key>)
    requires VersionsOk(w) && OneWorker(w) && id in w.calls && Working(w.calls[id], receipt.key)
    requires forall other | other in w.calls && other != id :: CallOk(w, w.calls[other])
    requires Evolves(Memory(w), t, free) && Stored(t, receipt)
    requires free == None || free == Some(receipt.key)
    ensures CallsOk(Set(Push(w, t), id, Settling(receipt, |w.versions|)))
  {
    var w1 := Push(w, t);
    var w' := Set(w1, id, Settling(receipt, |w.versions|));
    forall other | other in w'.calls
      ensures CallOk(w', w'.calls[other])
    {
      if other != id {
        assert Working(w.calls[other], receipt.key) ==> other == id;
        PushKeepsCall(w, t, free, w.calls[other]);
        CallOkIgnoresCalls(w1, w', w.calls[other]);
      } else {
        assert w'.versions[|w.versions|] == t;
      }
    }
  }

  /** Tables in which the verdict of a call is stored. */
  ghost predicate Settles(w: World, t: Tables, receipt: Receipt, free: Option<Key>) {
    && Consistent(t) && Evolves(Memory(w), t, free) && Stored(t, receipt)
    && (free == None || free == Some(receipt.key))
    && (forall p | 0 <= p < |w.posts| && Some(w.posts[p].key) == free && !w.posts[p].rejected ::
          w.posts[p].key in t.receipts && Live(t.receipts[w.posts[p].key].state))
  }

  lemma SettleKeepsAt(w: World, t: Tables, id: nat, receipt: Receipt, free: Option<Key>)
    requires VersionsOk(w) && PostsHeld(w) && OneWorker(w) && AtMostOnce(w.posts)
    requires id in w.calls && Working(w.calls[id], receipt.key)
    requires forall other | other in w.calls && other != id :: CallOk(w, w.calls[other])
    requires Settles(w, t, receipt, free)
    ensures Inv(Set(Push(w, t), id, Settling(receipt, |w.versions|)))
  {
    SettleKeepsCalls(w, t, id, receipt, free);
    SettleKeepsRest(w, t, id, receipt, free);
  }

  function Freed(receipt: Receipt): Option<Key> { if Open(receipt.state) then None else Some(receipt.key) }

  /** A POST that was not refused keeps a live receipt when its verdict is stored. */
  lemma SaveSettles(w: World, receipt: Receipt, now: nat)
    requires VersionsOk(w)
    requires receipt.key in Memory(w).receipts && Open(Memory(w).receipts[receipt.key].state)
    requires PairOf(Memory(w).receipts[receipt.key]) == (receipt.senderId, receipt.targetId)
    requires receipt.state == Failed ==>
               forall p | 0 <= p < |w.posts| && w.posts[p].key == receipt.key :: w.posts[p].rejected
    ensures Settles(w, Save(Memory(w), receipt, now), receipt, Freed(receipt))
  {
    SaveKeeps(Memory(w), receipt, now);
  }

  /** Recording the verdict of the one call working on a key. */
  lemma SettleKeeps(w: World, id: nat, receipt: Receipt, now: nat)
    requires VersionsOk(w) && PostsHeld(w) && OneWorker(w) && AtMostOnce(w.posts)
    requires id in w.calls && Working(w.calls[id], receipt.key)
    requires forall other | other in w.calls && other != id :: CallOk(w, w.calls[other])
    requires receipt.key in Memory(w).receipts && Open(Memory(w).receipts[receipt.key].state)
    requires PairOf(Memory(w).receipts[receipt.key]) == (receipt.senderId, receipt.targetId)
    requires receipt.state == Failed ==>
               forall p | 0 <= p < |w.posts| && w.posts[p].key == receipt.key :: w.posts[p].rejected
    ensures var w' := Push(w, Save(Memory(w), receipt, now));
            Inv(Set(w', id, Settling(receipt, Last(w'))))
  {
    var t := Save(Memory(w), receipt, now);
    SaveSettles(w, receipt, now);
    SettleKeepsAt(w, t, id, receipt, Freed(receipt));
    assert Last(Push(w, t)) == |w.versions|;
  }

  lemma SettleKeepsRest(w: World, t: Tables, id: nat, receipt: Receipt, free: Option<Key>)
    requires VersionsOk(w) && PostsHeld(w) && OneWorker(w) && AtMostOnce(w.posts)
    requires id in w.calls && Working(w.calls[id], receipt.key)
    requires Consistent(t) && Evolves(Memory(w), t, free)
    requires forall p | 0 <= p < |w.posts| && Some(w.posts[p].key) == free && !w.posts[p].rejected ::
               w.posts[p].key in t.receipts && Live(t.receipts[w.posts[p].key].state)
    ensures var w' := Set(Push(w, t), id, Settling(receipt, |w.versions|));
            VersionsOk(w') && PostsHeld(w') && OneWorker(w') && AtMostOnce(w'.posts)
  {
    PushKeepsPosts(w, t, free);
    PushKeepsVersions(w, t);
    OneWorkerAfterSet(Push(w, t), Set(Push(w, t), id, Settling(receipt, |w.versions|)), id, Settling(receipt, |w.versions|));
  }

  lemma AbandonKeeps(w: World, id: nat, key: Key, input: SendInput, error: string, now: nat)
    requires Inv(w) && id in w.calls && Working(w.calls[id], key)
    requires Owns(Memory(w), key, input) && NeverPosted(w, key)
    ensures Inv(Abandon(w, id, key, input, error, now))
  {
    SettleKeeps(w, id, Failure(key, input, error), now);
  }

  lemma WorkerOwns(w: World, id: nat, key: Key)
    requires CallsOk(w) && id in w.calls && Working(w.calls[id], key)
    ensures Owns(Memory(w), key, w.calls[id].input)
  {
    assert CallOk(w, w.calls[id]);
    assert Memory(w) == w.versions[Last(w)];
  }

  /** A key without a receipt was never posted and nobody works on it. */
  lemma NewKeyNeverPosted(w: World, key: Key)
    requires Inv(w) && key !in Memory(w).receipts
    ensures NeverPosted(w, key)
    ensures forall id | id in w.calls :: !Working(w.calls[id], key)
  {
    forall p | 0 <= p < |w.posts|
      ensures w.posts[p].key != key
    {
      assert PostHeld(w.versions[Last(w)], w.posts[p]);
    }
    forall id | id in w.calls
      ensures !Working(w.calls[id], key)
    {
      if Working(w.calls[id], key) {
        WorkerOwns(w, id, key);
      }
    }
  }

  lemma LookupReplyOk(w: World, t: Tables, found: Lookup)
    requires found.Found? ==> Stored(t, found.receipt)
    ensures CallOk(Push(w, t), AfterLookup(found, Last(Push(w, t))))
    ensures forall key :: !Working(AfterLookup(found, Last(Push(w, t))), key)
  {
    assert Push(w, t).versions[Last(Push(w, t))] == t;
  }

  lemma HashedKeeps(w: World, id: nat, now: nat)
    requires Inv(w)
    ensures Inv(Next(w, Hashed(id, now)))
  {
    if id in w.calls && w.calls[id].Hashing? {
      var call := w.calls[id];
      var (t, admission) := Admit(Memory(w), call.key, call.fingerprint, call.input, now);
      AdmitKeeps(Memory(w), call.key, call.fingerprint, call.input, now);
      var w' := Push(w, t);
      match admission
      case Conflict => StretchKeeps(w, t, id, Replied(Refused, Last(w')));
      case RateLimited => StretchKeeps(w, t, id, Replied(Refused, Last(w')));
      case Existing(found) =>
        LookupReplyOk(w, t, found);
        StretchKeeps(w, t, id, AfterLookup(found, Last(w')));
      case Admitted(receipt) =>
        NewKeyNeverPosted(w, call.key);
        assert w'.versions[Last(w')] == t;
        assert CallOk(w', Reserving(call.input, call.key, receipt, Last(w')));
        StretchKeeps(w, t, id, Reserving(call.input, call.key, receipt, Last(w')));
    }
  }

  lemma QueryKeeps(w: World, id: nat, key: Key, now: nat)
    requires Inv(w)
    ensures Inv(Next(w, Query(id, key, now)))
  {
    if id !in w.calls {
      var (t, found) := Status(Memory(w), key, now);
      StatusKeeps(Memory(w), key, now);
      LookupReplyOk(w, t, found);
      StretchKeeps(w, t, id, AfterLookup(found, Last(Push(w, t))));
    }
  }

  /** Only the call changes. */
  lemma SetKeeps(w: World, id: nat, call: Call)
    requires Inv(w) && CallOk(w, call)
    requires forall key, other | Working(call, key) && other in w.calls && other != id :: !Working(w.calls[other], key)
    ensures Inv(Set(w, id, call))
  {
    var w' := Set(w, id, call);
    forall other | other in w'.calls
      ensures CallOk(w', w'.calls[other])
    {
      CallOkIgnoresCalls(w, w', w'.calls[other]);
    }
    OneWorkerAfterSet(w, w', id, call);
  }

  lemma SendKeeps(w: World, id: nat, input: SendInput, key: Key, fingerprint: string)
    requires Inv(w)
    ensures Inv(Next(w, Send(id, input, key, fingerprint)))
  {
    if id !in w.calls {
      SetKeeps(w, id, if ValidKey(key) then Hashing(input, key, fingerprint) else Replied(Refused, Last(w)));
    }
  }

  lemma PermittedKeeps(w: World, bucket: string, now: nat)
    requires Inv(w)
    ensures Inv(Next(w, Permitted(bucket, now)))
  {
    var t := Permit(Memory(w), bucket, now).0;
    assert Consistent(Memory(w));
    forall id | id in w.calls
      ensures CallOk(Push(w, t), w.calls[id])
    {
      PushKeepsCall(w, t, None, w.calls[id]);
    }
    PushKeepsPosts(w, t, None);
  }

  lemma PersistKeeps(w: World, upto: nat)
    requires Inv(w)
    ensures Inv(Next(w, Persist(upto)))
  {
    var w' := Next(w, Persist(upto));
    forall id | id in w'.calls
      ensures CallOk(w', w'.calls[id])
    {
      assert CallOk(w, w.calls[id]);
    }
  }

  lemma SyncedKeeps(w: World, id: nat, textOk: bool, now: nat)
    requires Inv(w)
    ensures Inv(Next(w, Synced(id, textOk, now)))
  {
    if id in w.calls {
      assert CallOk(w, w.calls[id]);
      match w.calls[id]
      case Reserving(input, key, receipt, upto) =>
        if upto <= w.durable {
          if receipt.state == Failed {
            SetKeeps(w, id, Replied(Known(receipt), upto));
          } else if !textOk {
            WorkerOwns(w, id, key);
            AbandonKeeps(w, id, key, input, "reply_too_long_or_invalid", now);
          } else {
            assert Working(w.calls[id], key);
            SetKeeps(w, id, Preparing(input, key, AtAccess));
          }
        }
      case Settling(receipt, upto) =>
        if upto <= w.durable {
          SetKeeps(w, id, Replied(Known(receipt), upto));
        }
      case _ =>
    }
  }

  /** A call that is preparing may always be abandoned. */
  lemma MayAbandon(w: World, id: nat, error: string, now: nat)
    requires Inv(w) && id in w.calls && w.calls[id].Preparing?
    ensures Inv(Abandon(w, id, w.calls[id].key, w.calls[id].input, error, now))
  {
    var call := w.calls[id];
    assert CallOk(w, call) && Working(call, call.key);
    WorkerOwns(w, id, call.key);
    AbandonKeeps(w, id, call.key, call.input, error, now);
  }

  /** And it may always go on to the next await. */
  lemma MayGoOn(w: World, id: nat, stage: Stage)
    requires Inv(w) && id in w.calls && w.calls[id].Preparing?
    ensures Inv(Set(w, id, w.calls[id].(stage := stage)))
  {
    var call := w.calls[id];
    assert CallOk(w, call) && Working(call, call.key);
    SetKeeps(w, id, call.(stage := stage));
  }

  lemma AccessedKeeps(w: World, id: nat, connection: Option<string>, now: nat)
    requires Inv(w)
    ensures Inv(Next(w, Accessed(id, connection, now)))
  {
    if id in w.calls && w.calls[id].Preparing? {
      MayAbandon(w, id, "service_unavailable", now);
      MayAbandon(w, id, "x_connection_changed", now);
      MayGoOn(w, id, AtSender);
    }
  }

  lemma IdentifiedKeeps(w: World, id: nat, sender: Option<Id>, now: nat)
    requires Inv(w)
    ensures Inv(Next(w, Identified(id, sender, now)))
  {
    if id in w.calls && w.calls[id].Preparing? {
      MayAbandon(w, id, "service_unavailable", now);
      MayAbandon(w, id, "x_sender_changed", now);
      MayGoOn(w, id, AtTarget);
    }
  }

  /** Dispatch: holding the guard, every earlier POST to the target has been refused. */
  lemma DispatchKeeps(w: World, id: nat)
    requires Inv(w) && id in w.calls && w.calls[id].Preparing?
    ensures var call := w.calls[id];
            var post := Post(call.input, call.key, false);
            Inv(Set(w.(posts := w.posts + [post]), id, Posting(call.input, call.key, |w.posts|)))
  {
    var call := w.calls[id];
    assert CallOk(w, call) && Working(call, call.key);
    var post := Post(call.input, call.key, false);
    var w' := Set(w.(posts := w.posts + [post]), id, Posting(call.input, call.key, |w.posts|));
    forall other | other in w'.calls
      ensures CallOk(w', w'.calls[other])
    {
      if other != id {
        assert CallOk(w, w.calls[other]);
        assert !Working(w.calls[other], call.key);
      }
    }
    forall p | 0 <= p < |w.posts| && SamePair(w.posts[p], post)
      ensures w.posts[p].rejected
    {
      var t := w.versions[Last(w)];
      assert PostHeld(t, w.posts[p]) && Owns(t, call.key, call.input);
      if !w.posts[p].rejected {
        LiveReceiptsHaveDistinctTargets(t, w.posts[p].key, call.key);
      }
    }
    forall p, i | 0 <= p < |w'.posts| && w'.durable <= i < |w'.versions|
      ensures PostHeld(w'.versions[i], w'.posts[p])
    {
      if p < |w.posts| {
        assert PostHeld(w.versions[i], w.posts[p]);
      } else {
        assert Owns(w.versions[i], call.key, call.input);
      }
    }
  }

  lemma VerifiedKeeps(w: World, id: nat, eligible: bool, timeLeft: int, now: nat)
    requires Inv(w)
    ensures Inv(Next(w, Verified(id, eligible, timeLeft, now)))
  {
    if id in w.calls && w.calls[id].Preparing? {
      MayAbandon(w, id, "reply_not_eligible", now);
      MayAbandon(w, id, "preparation_deadline", now);
      DispatchKeeps(w, id);
    }
  }

  lemma MarkKeeps(w: World, id: nat, answer: Answer)
    requires Inv(w) && id in w.calls && w.calls[id].Posting?
    ensures var call := w.calls[id];
            && call.post < |w.posts|
            && var w1 := MarkAnswered(w, call.post, answer);
            && (forall other | other in w.calls && other != id :: CallOk(w1, w.calls[other]))
            && PostsHeld(w1) && AtMostOnce(w1.posts)
            && (forall p | 0 <= p < |w1.posts| && w1.posts[p].key == call.key :: p == call.post)
  {
    var call := w.calls[id];
    assert CallOk(w, call) && Working(call, call.key);
    var w1 := MarkAnswered(w, call.post, answer);
    forall other | other in w.calls && other != id
      ensures CallOk(w1, w.calls[other])
    {
      assert CallOk(w, w.calls[other]);
      assert !Working(w.calls[other], call.key);
    }
    forall p, i | 0 <= p < |w1.posts| && w1.durable <= i < |w1.versions|
      ensures PostHeld(w1.versions[i], w1.posts[p])
    {
      assert PostHeld(w.versions[i], w.posts[p]);
    }
  }

  lemma ConcludeKeeps(w: World, id: nat, answer: Answer, now: nat)
    requires Inv(w) && id in w.calls && w.calls[id].Posting? && w.calls[id].post < |w.posts|
    ensures Inv(Conclude(w, id, answer, now))
  {
    var call := w.calls[id];
    WorkerOwns(w, id, call.key);
    MarkKeeps(w, id, answer);
    SettleKeeps(MarkAnswered(w, call.post, answer), id, Verdict(call.key, call.input, answer), now);
  }

  lemma CrashKeeps(w: World)
    requires Inv(w)
    ensures Inv(Next(w, Crash))
  {
    var w' := Next(w, Crash);
    assert w'.versions[w'.durable] == w.versions[w.durable];
  }

  lemma NextKeeps(w: World, e: Event)
    requires Inv(w)
    ensures Inv(Next(w, e))
  {
    match e
    case Send(id, input, key, fingerprint) => SendKeeps(w, id, input, key, fingerprint);
    case Query(id, key, now) => QueryKeeps(w, id, key, now);
    case Permitted(bucket, now) => PermittedKeeps(w, bucket, now);
    case Hashed(id, now) => HashedKeeps(w, id, now);
    case Persist(upto) => PersistKeeps(w, upto);
    case Synced(id, textOk, now) => SyncedKeeps(w, id, textOk, now);
    case Accessed(id, connection, now) => AccessedKeeps(w, id, connection, now);
    case Identified(id, sender, now) => IdentifiedKeeps(w, id, sender, now);
    case Verified(id, eligible, timeLeft, now) => VerifiedKeeps(w, id, eligible, timeLeft, now);
    case Answered(id, answer, now) =>
      if id in w.calls && w.calls[id].Posting? && w.calls[id].post < |w.posts| {
        ConcludeKeeps(w, id, answer, now);
      }
    case Crash => CrashKeeps(w);
  }

  // ---------------------------------------------------------------- what holds in every run

  lemma StartOk()
    ensures Inv(START)
  {
  }

  lemma {:induction false} RunKeeps(w: World, es: seq<Event>)
    requires Inv(w)
    ensures Inv(Run(w, es))
    decreases |es|
  {
    if |es| > 0 {
      NextKeeps(w, es[0]);
      RunKeeps(Next(w, es[0]), es[1..]);
    }
  }

  /** Whatever calls overlap, whenever storage flushes and wherever the object crashes: of all
      POSTs for one sender and target at most the latest has not been definitively refused, and
      no key is ever posted twice. */
  lemma AtMostOneUnrefusedPost(es: seq<Event>)
    ensures AtMostOnce(Run(START, es).posts)
  {
    StartOk();
    RunKeeps(START, es);
  }

  predicate Guards(t: Tables, post: Post) {
    var pair := (post.input.senderId, post.input.targetId);
    pair in t.targets && t.targets[pair] == post.key
  }

  /** What holds when `post` is handed to the provider after the POSTs of w. */
  ghost predicate MayDispatch(w: World, post: Post) {
    && (forall p | 0 <= p < |w.posts| && SamePair(w.posts[p], post) :: w.posts[p].rejected)
    && (forall p | 0 <= p < |w.posts| :: w.posts[p].key != post.key)
    && (forall i | w.durable <= i < |w.versions| :: Guards(w.versions[i], post))
  }

  /** A dispatch appends one POST and changes no table. */
  lemma DispatchAppends(w: World, e: Event)
    requires |Next(w, e).posts| > |w.posts|
    ensures var w' := Next(w, e);
            && |w'.posts| == |w.posts| + 1 && w'.posts[..|w.posts|] == w.posts && !w'.posts[|w.posts|].rejected
            && w'.versions == w.versions && w'.durable == w.durable
  {
  }

  lemma AppendedMayDispatch(w: World, w': World)
    requires Inv(w') && w'.versions == w.versions && w'.durable == w.durable
    requires |w'.posts| == |w.posts| + 1 && w'.posts[..|w.posts|] == w.posts && !w'.posts[|w.posts|].rejected
    ensures MayDispatch(w, w'.posts[|w.posts|])
  {
    var post := w'.posts[|w.posts|];
    assert forall p | 0 <= p < |w.posts| :: w'.posts[p] == w'.posts[..|w.posts|][p];
    forall i | w.durable <= i < |w.versions|
      ensures Guards(w.versions[i], post)
    {
      assert PostHeld(w'.versions[i], post) && Consistent(w'.versions[i]);
    }
  }

  /** The POST is only made once every earlier POST for the pair has been refused, by a call
      whose reservation is on disk. */
  lemma DispatchOnlyAfterRefusal(es: seq<Event>, e: Event)
    requires |Next(Run(START, es), e).posts| > |Run(START, es).posts|
    ensures var w := Run(START, es);
            var w' := Next(w, e);
            |w'.posts| == |w.posts| + 1 && MayDispatch(w, w'.posts[|w.posts|])
  {
    var w := Run(START, es);
    StartOk();
    RunKeeps(START, es);
    NextKeeps(w, e);
    DispatchAppends(w, e);
    AppendedMayDispatch(w, Next(w, e));
  }

  /** In memory and on disk alike, the guards are exactly the live receipts. */
  lemma GuardsAreExactlyTheLiveReceipts(es: seq<Event>, i: nat, sender: Id, target: Id, key: Key)
    requires i < |Run(START, es).versions|
    ensures var t := Run(START, es).versions[i];
            ((sender, target) in t.targets && t.targets[(sender, target)] == key) <==>
            (key in t.receipts && t.receipts[key].sender == sender && t.receipts[key].target == target &&
             t.receipts[key].state in {Pending, Unknown, Sent})
  {
    StartOk();
    RunKeeps(START, es);
    assert Consistent(Run(START, es).versions[i]);
  }

  /** Saving the receipt of the call at work evolves the tables. */
  lemma WorkerSaves(w: World, id: nat, receipt: Receipt, now: nat)
    requires Inv(w) && id in w.calls && Working(w.calls[id], receipt.key)
    requires receipt.senderId == w.calls[id].input.senderId && receipt.targetId == w.calls[id].input.targetId
    ensures Evolves(Memory(w), Save(Memory(w), receipt, now), Some(receipt.key))
  {
    WorkerOwns(w, id, receipt.key);
    SaveKeeps(Memory(w), receipt, now);
  }

  lemma AbandonKeepsFinal(w: World, id: nat, error: string, now: nat, since: nat, receipt: Receipt)
    requires Inv(w) && Final(receipt.state) && since < |w.versions| && StoredSince(w, since, receipt)
    requires id in w.calls && !w.calls[id].Hashing? && !w.calls[id].Settling? && !w.calls[id].Replied?
    requires Working(w.calls[id], w.calls[id].key)
    ensures StoredSince(Abandon(w, id, w.calls[id].key, w.calls[id].input, error, now), since, receipt)
  {
    var failure := Failure(w.calls[id].key, w.calls[id].input, error);
    WorkerSaves(w, id, failure, now);
    StoredLater(w, Save(Memory(w), failure, now), Some(failure.key), since, receipt);
  }

  lemma ConcludeKeepsFinal(w: World, id: nat, answer: Answer, now: nat, since: nat, receipt: Receipt)
    requires Inv(w) && Final(receipt.state) && since < |w.versions| && StoredSince(w, since, receipt)
    requires id in w.calls && w.calls[id].Posting? && w.calls[id].post < |w.posts|
    ensures StoredSince(Conclude(w, id, answer, now), since, receipt)
  {
    var call := w.calls[id];
    var verdict := Verdict(call.key, call.input, answer);
    var t := Save(Memory(w), verdict, now);
    WorkerSaves(w, id, verdict, now);
    StoredLater(w, t, Some(verdict.key), since, receipt);
    ConcludePushes(w, id, answer, now);
  }

  lemma ConcludePushes(w: World, id: nat, answer: Answer, now: nat)
    requires id in w.calls && w.calls[id].Posting? && w.calls[id].post < |w.posts|
    ensures Conclude(w, id, answer, now).versions ==
              Push(w, Save(Memory(w), Verdict(w.calls[id].key, w.calls[id].input, answer), now)).versions
  {
    assert MarkAnswered(w, w.calls[id].post, answer).versions == w.versions;
  }

  lemma ResumeKeepsFinal(w: World, id: nat, textOk: bool, now: nat, since: nat, receipt: Receipt)
    requires Inv(w) && Final(receipt.state) && since < |w.versions| && StoredSince(w, since, receipt)
    requires id in w.calls
    ensures StoredSince(Resume(w, id, textOk, now), since, receipt)
  {
    assert CallOk(w, w.calls[id]);
    if w.calls[id].Reserving? && w.calls[id].receipt.state == Pending {
      AbandonKeepsFinal(w, id, "reply_too_long_or_invalid", now, since, receipt);
    }
  }

  ghost predicate FinalSince(w: World, since: nat, receipt: Receipt) {
    Final(receipt.state) && since < |w.versions| && StoredSince(w, since, receipt)
  }

  lemma MayAbandonFinal(w: World, id: nat, error: string, now: nat, since: nat, receipt: Receipt)
    requires Inv(w) && FinalSince(w, since, receipt) && id in w.calls && w.calls[id].Preparing?
    ensures StoredSince(Abandon(w, id, w.calls[id].key, w.calls[id].input, error, now), since, receipt)
  {
    AbandonKeepsFinal(w, id, error, now, since, receipt);
  }

  lemma PreparingKeepsFinal(w: World, e: Event, since: nat, receipt: Receipt)
    requires Inv(w) && FinalSince(w, since, receipt)
    requires e.Accessed? || e.Identified? || e.Verified?
    ensures StoredSince(Next(w, e), since, receipt)
  {
    if e.id in w.calls && w.calls[e.id].Preparing? {
      MayAbandonFinal(w, e.id, "service_unavailable", e.now, since, receipt);
      if e.Accessed? {
        MayAbandonFinal(w, e.id, "x_connection_changed", e.now, since, receipt);
      } else if e.Identified? {
        MayAbandonFinal(w, e.id, "x_sender_changed", e.now, since, receipt);
      } else {
        MayAbandonFinal(w, e.id, "reply_not_eligible", e.now, since, receipt);
        MayAbandonFinal(w, e.id, "preparation_deadline", e.now, since, receipt);
      }
    }
  }

  lemma QueryKeepsFinal(w: World, id: nat, key: Key, now: nat, since: nat, receipt: Receipt)
    requires VersionsOk(w) && FinalSince(w, since, receipt)
    ensures StoredSince(Next(w, Query(id, key, now)), since, receipt)
  {
    assert Consistent(w.versions[Last(w)]);
    StatusKeeps(Memory(w), key, now);
    StoredLater(w, Status(Memory(w), key, now).0, None, since, receipt);
  }

  lemma PermittedKeepsFinal(w: World, bucket: string, now: nat, since: nat, receipt: Receipt)
    requires VersionsOk(w) && FinalSince(w, since, receipt)
    ensures StoredSince(Next(w, Permitted(bucket, now)), since, receipt)
  {
    StoredLater(w, Permit(Memory(w), bucket, now).0, None, since, receipt);
  }

  lemma HashedPushes(w: World, id: nat, now: nat)
    requires id in w.calls && w.calls[id].Hashing?
    ensures var call := w.calls[id];
            Next(w, Hashed(id, now)).versions ==
              Push(w, Admit(Memory(w), call.key, call.fingerprint, call.input, now).0).versions
  {
  }

  lemma HashedKeepsFinal(w: World, id: nat, now: nat, since: nat, receipt: Receipt)
    requires VersionsOk(w) && FinalSince(w, since, receipt)
    ensures StoredSince(Next(w, Hashed(id, now)), since, receipt)
  {
    if id in w.calls && w.calls[id].Hashing? {
      var call := w.calls[id];
      assert Consistent(w.versions[Last(w)]);
      AdmitKeeps(Memory(w), call.key, call.fingerprint, call.input, now);
      StoredLater(w, Admit(Memory(w), call.key, call.fingerprint, call.input, now).0, None, since, receipt);
      HashedPushes(w, id, now);
    }
  }

  lemma NextKeepsFinal(w: World, e: Event, since: nat, receipt: Receipt)
    requires Inv(w) && Final(receipt.state) && since < |w.versions| && StoredSince(w, since, receipt)
    ensures StoredSince(Next(w, e), since, receipt) && w.durable <= Next(w, e).durable
  {
    if e.Query? {
      QueryKeepsFinal(w, e.id, e.key, e.now, since, receipt);
    } else if e.Permitted? {
      PermittedKeepsFinal(w, e.bucket, e.now, since, receipt);
    } else if e.Hashed? {
      HashedKeepsFinal(w, e.id, e.now, since, receipt);
    } else if e.Synced? {
      if e.id in w.calls {
        ResumeKeepsFinal(w, e.id, e.textOk, e.now, since, receipt);
      }
    } else if e.Accessed? || e.Identified? || e.Verified? {
      PreparingKeepsFinal(w, e, since, receipt);
    } else if e.Answered? {
      if e.id in w.calls && w.calls[e.id].Posting? && w.calls[e.id].post < |w.posts| {
        ConcludeKeepsFinal(w, e.id, e.answer, e.now, since, receipt);
      }
    }
  }

  /** Sent and failed absorb: once in every version that can survive, no later call, status
      check or crash changes the receipt. */
  lemma {:induction false} FinalReceiptsAbsorb(w: World, es: seq<Event>, receipt: Receipt)
    requires Inv(w) && Final(receipt.state) && StoredSince(w, w.durable, receipt)
    ensures StoredSince(Run(w, es), Run(w, es).durable, receipt)
    decreases |es|
  {
    if |es| > 0 {
      NextKeepsFinal(w, es[0], w.durable, receipt);
      NextKeeps(w, es[0]);
      FinalReceiptsAbsorb(Next(w, es[0]), es[1..], receipt);
    }
  }

  /** A final receipt is never overwritten: a version that has it is followed by versions that do. */
  ghost predicate FinalsStay(w: World) {
    forall i, receipt: Receipt | 0 <= i < |w.versions| && Final(receipt.state) && Stored(w.versions[i], receipt) ::
      StoredSince(w, i, receipt)
  }

  /** An event adds at most one version and changes no earlier one. */
  lemma VersionsGrow(w: World, e: Event)
    ensures var w' := Next(w, e);
            && |w'.versions| <= |w.versions| + 1
            && forall i | 0 <= i < |w.versions| && i < |w'.versions| :: w'.versions[i] == w.versions[i]
  {
  }

  lemma FinalsCarry(w: World, w': World)
    requires FinalsStay(w) && |w'.versions| <= |w.versions| + 1
    requires forall i | 0 <= i < |w.versions| && i < |w'.versions| :: w'.versions[i] == w.versions[i]
    requires forall i, receipt: Receipt | 0 <= i < |w.versions| && Final(receipt.state) && StoredSince(w, i, receipt) ::
               StoredSince(w', i, receipt)
    ensures FinalsStay(w')
  {
    forall i, receipt: Receipt | 0 <= i < |w'.versions| && Final(receipt.state) && Stored(w'.versions[i], receipt)
      ensures StoredSince(w', i, receipt)
    {
      if i < |w.versions| {
        assert Stored(w.versions[i], receipt);
        assert StoredSince(w, i, receipt);
      }
    }
  }

  lemma NextKeepsFinals(w: World, e: Event)
    requires Inv(w) && FinalsStay(w)
    ensures FinalsStay(Next(w, e))
  {
    forall i: nat, receipt: Receipt | i < |w.versions| && Final(receipt.state) && StoredSince(w, i, receipt)
      ensures StoredSince(Next(w, e), i, receipt)
    {
      NextKeepsFinal(w, e, i, receipt);
    }
    VersionsGrow(w, e);
    FinalsCarry(w, Next(w, e));
  }

  lemma {:induction false} RunKeepsFinals(w: World, es: seq<Event>)
    requires Inv(w) && FinalsStay(w)
    ensures Inv(Run(w, es)) && FinalsStay(Run(w, es))
    decreases |es|
  {
    if |es| > 0 {
      NextKeeps(w, es[0]);
      NextKeepsFinals(w, es[0]);
      RunKeepsFinals(Next(w, es[0]), es[1..]);
    }
  }

  /** The version that wrote the receipt now stored in the last one. */
  function WrittenAt(versions: seq<Tables>, receipt: Receipt): nat {
    if |versions| == 0 then 0
    else if |versions| > 1 && Stored(versions[|versions| - 2], receipt) then WrittenAt(versions[..|versions| - 1], receipt)
    else |versions| - 1
  }

  lemma {:induction false} WrittenAtIs(versions: seq<Tables>, receipt: Receipt)
    requires |versions| > 0 && Stored(versions[|versions| - 1], receipt)
    ensures WrittenAt(versions, receipt) < |versions|
    ensures forall i | WrittenAt(versions, receipt) <= i < |versions| :: Stored(versions[i], receipt)
    ensures 0 < WrittenAt(versions, receipt) ==> !Stored(versions[WrittenAt(versions, receipt) - 1], receipt)
  {
    if |versions| > 1 && Stored(versions[|versions| - 2], receipt) {
      WrittenAtIs(versions[..|versions| - 1], receipt);
    }
  }

  /** Every later run still has the receipt. */
  ghost predicate Lasts(w: World, receipt: Receipt) {
    forall es :: Stored(Memory(Run(w, es)), receipt)
  }

  lemma FlushedReceiptLasts(w: World, receipt: Receipt)
    requires Inv(w) && Final(receipt.state) && StoredSince(w, w.durable, receipt)
    ensures Lasts(w, receipt)
  {
    forall es
      ensures Stored(Memory(Run(w, es)), receipt)
    {
      FinalReceiptsAbsorb(w, es, receipt);
      var v := Run(w, es);
      assert Stored(v.versions[Last(v)], receipt);
    }
  }

  lemma UnflushedReceiptIsLost(w: World, receipt: Receipt)
    requires !Stored(w.versions[w.durable], receipt)
    ensures !Lasts(w, receipt)
  {
    RunSplits(w, [Crash]);
    assert Run(w, [Crash]) == Next(w, Crash);
    assert Next(w, Crash).versions[w.durable] == w.versions[w.durable];
    assert !Stored(Memory(Run(w, [Crash])), receipt);
  }

  /** In every run, a final receipt lasts if and only if storage has flushed the version that
      wrote it. */
  lemma FinalReceiptLastsIffFlushed(es: seq<Event>, receipt: Receipt)
    requires Final(receipt.state) && Stored(Memory(Run(START, es)), receipt)
    ensures var w := Run(START, es); Lasts(w, receipt) <==> WrittenAt(w.versions, receipt) <= w.durable
  {
    StartOk();
    RunKeepsFinals(START, es);
    var w := Run(START, es);
    var written := WrittenAt(w.versions, receipt);
    WrittenAtIs(w.versions, receipt);
    if written <= w.durable {
      FlushedReceiptLasts(w, receipt);
    } else {
      assert Stored(w.versions[w.durable], receipt) ==> StoredSince(w, w.durable, receipt);
      UnflushedReceiptIsLost(w, receipt);
    }
  }

  /** What a reply promises: the version it was read from is no older than the write of its receipt.
      So a reply that is held until its version is flushed, as every reply of send is, reports a
      receipt that lasts; and a reply whose receipt was not yet flushed does not. */
  lemma ReplyLastsIffFlushed(es: seq<Event>, id: nat)
    requires var w := Run(START, es);
             id in w.calls && w.calls[id].Replied? && w.calls[id].outcome.Known? && Final(w.calls[id].outcome.receipt.state)
    ensures var w := Run(START, es);
            var receipt := w.calls[id].outcome.receipt;
            && WrittenAt(w.versions, receipt) <= w.calls[id].asOf
            && (w.calls[id].asOf <= w.durable ==> Lasts(w, receipt) && StoredSince(w, w.durable, receipt))
            && (Lasts(w, receipt) <==> WrittenAt(w.versions, receipt) <= w.durable)
  {
    StartOk();
    RunKeeps(START, es);
    var w := Run(START, es);
    var receipt := w.calls[id].outcome.receipt;
    assert CallOk(w, w.calls[id]) && StoredSince(w, w.calls[id].asOf, receipt);
    assert Stored(w.versions[Last(w)], receipt);
    WrittenAtIs(w.versions, receipt);
    FinalReceiptLastsIffFlushed(es, receipt);
  }

  // ---------------------------------------------------------------- where a POST comes from

  /** A call that still carries the request it was made with. */
  predicate HasInput(call: Call) { call.Hashing? || call.Reserving? || call.Preparing? || call.Posting? }

  predicate SameRequest(call: Call, key: Key, input: SendInput) {
    HasInput(call) && call.key == key && call.input == input
  }

  /** The request of a call is the one that send was called with, at every await. */
  lemma CallsComeFromSends(w: World, e: Event, id: nat)
    requires id in Next(w, e).calls && HasInput(Next(w, e).calls[id])
    ensures var call := Next(w, e).calls[id];
            || (id in w.calls && SameRequest(w.calls[id], call.key, call.input))
            || (e.Send? && e.key == call.key && e.input == call.input)
  {
    match e
    case Synced(i, textOk, now) => if i in w.calls { ResumeKeepsRequests(w, i, textOk, now, id); }
    case Accessed(_, _, _) => PreparingKeepsRequests(w, e, id);
    case Identified(_, _, _) => PreparingKeepsRequests(w, e, id);
    case Verified(_, _, _, _) => PreparingKeepsRequests(w, e, id);
    case _ =>
  }

  lemma PreparingKeepsRequests(w: World, e: Event, id: nat)
    requires e.Accessed? || e.Identified? || e.Verified?
    requires id in Next(w, e).calls && HasInput(Next(w, e).calls[id])
    ensures var call := Next(w, e).calls[id]; id in w.calls && SameRequest(w.calls[id], call.key, call.input)
  {
  }

  lemma ResumeKeepsRequests(w: World, i: nat, textOk: bool, now: nat, id: nat)
    requires i in w.calls && id in Resume(w, i, textOk, now).calls && HasInput(Resume(w, i, textOk, now).calls[id])
    ensures var call := Resume(w, i, textOk, now).calls[id];
            id in w.calls && SameRequest(w.calls[id], call.key, call.input)
  {
  }

  /** A POST carries the request of a call, word for word, and keeps it. */
  lemma PostsComeFromCalls(w: World, e: Event, p: nat)
    requires p < |Next(w, e).posts|
    ensures var post := Next(w, e).posts[p];
            || (p < |w.posts| && w.posts[p].key == post.key && w.posts[p].input == post.input)
            || (exists id :: id in w.calls && SameRequest(w.calls[id], post.key, post.input))
  {
    if e.Verified? && e.id in w.calls && w.calls[e.id].Preparing? {
      var call := w.calls[e.id];
      assert SameRequest(call, call.key, call.input);
    }
  }

  ghost predicate SentIn(es: seq<Event>, key: Key, input: SendInput) {
    exists i :: 0 <= i < |es| && es[i].Send? && es[i].key == key && es[i].input == input
  }

  /** Every request at work and every POST goes back to a send. */
  ghost predicate AllSentIn(w: World, es: seq<Event>) {
    && (forall id | id in w.calls && HasInput(w.calls[id]) :: SentIn(es, w.calls[id].key, w.calls[id].input))
    && (forall p | 0 <= p < |w.posts| :: SentIn(es, w.posts[p].key, w.posts[p].input))
  }

  lemma SentLater(past: seq<Event>, e: Event, key: Key, input: SendInput)
    requires SentIn(past, key, input) || (e.Send? && e.key == key && e.input == input)
    ensures SentIn(past + [e], key, input)
  {
    if SentIn(past, key, input) {
      var i :| 0 <= i < |past| && past[i].Send? && past[i].key == key && past[i].input == input;
      assert (past + [e])[i] == past[i];
    } else {
      assert (past + [e])[|past|] == e;
    }
  }

  lemma NextAllSent(w: World, past: seq<Event>, e: Event)
    requires AllSentIn(w, past)
    ensures AllSentIn(Next(w, e), past + [e])
  {
    var w' := Next(w, e);
    forall id | id in w'.calls && HasInput(w'.calls[id])
      ensures SentIn(past + [e], w'.calls[id].key, w'.calls[id].input)
    {
      CallsComeFromSends(w, e, id);
      SentLater(past, e, w'.calls[id].key, w'.calls[id].input);
    }
    forall p | 0 <= p < |w'.posts|
      ensures SentIn(past + [e], w'.posts[p].key, w'.posts[p].input)
    {
      PostsComeFromCalls(w, e, p);
      SentLater(past, e, w'.posts[p].key, w'.posts[p].input);
    }
  }

  lemma {:induction false} RunAllSent(w: World, past: seq<Event>, es: seq<Event>)
    requires AllSentIn(w, past)
    ensures AllSentIn(Run(w, es), past + es)
    decreases |es|
  {
    if |es| == 0 {
      assert past + es == past;
    } else {
      NextAllSent(w, past, es[0]);
      RunAllSent(Next(w, es[0]), past + [es[0]], es[1..]);
      assert past + [es[0]] + es[1..] == past + es;
    }
  }

  /** In every run, a POST carries the key and the request that send was called with, word for word. */
  lemma EveryPostWasSent(es: seq<Event>, p: nat)
    requires p < |Run(START, es).posts|
    ensures SentIn(es, Run(START, es).posts[p].key, Run(START, es).posts[p].input)
  {
    RunAllSent(START, [], es);
    assert [] + es == es;
  }

  // ---------------------------------------------------------------- a reply before its flush

  const KEY0: Key := "0123456789abcdef"
  const INPUT0 := SendInput("1", "hi", "2", "c")
  const FAILED0 := Failure(KEY0, INPUT0, "service_unavailable")
  const PENDING0 := EMPTY.(receipts := map[KEY0 := Row("f", "2", "1", Pending, Base(KEY0, INPUT0), 1)],
                           targets := map[("2", "1") := KEY0],
                           limits := map["admission" := Quota(0, 1), "send" := Quota(0, 1)])
  const SAVED0 := Save(PENDING0, FAILED0, 3)

  lemma FirstReservation()
    ensures ValidKey(KEY0)
    ensures Admit(EMPTY, KEY0, "f", INPUT0, 1) == (PENDING0, Admitted(Base(KEY0, INPUT0)))
  {
    var t1 := EMPTY.(limits := map["admission" := Quota(0, 1)]);
    assert Consume(EMPTY, "admission", NEW_RECEIPTS_HOURLY_LIMIT, 3_600_000, 1) == (t1, true);
    assert Consume(t1, "send", 6, 60_000, 1) == (t1.(limits := PENDING0.limits), true);
  }

  lemma FirstFailure()
    ensures ValidKey(KEY0)
    ensures Status(SAVED0, KEY0, 4) == (SAVED0, Found(FAILED0, false))
  {
    assert SAVED0.receipts[KEY0].receipt == FAILED0 && SAVED0.receipts[KEY0].state == Failed;
  }

  /** After `es`, call `id` has a reply with a failed receipt whose version is not flushed yet; a
      crash turns the receipt back to pending. */
  predicate LosesReply(es: seq<Event>, id: nat, receipt: Receipt) {
    var w := Run(START, es);
    && id in w.calls && w.calls[id] == Replied(Known(receipt), Last(w)) && receipt.state == Failed && w.durable < Last(w)
    && var t := Memory(Next(w, Crash));
    && receipt.key in t.receipts && t.receipts[receipt.key].state == Pending
  }

  lemma LostReplySteps() returns (es: seq<Event>, w6: World)
    ensures w6 == Run(START, es)
    ensures w6.versions == [EMPTY, PENDING0, SAVED0, SAVED0] && w6.durable == 1
    ensures 1 in w6.calls && w6.calls[1] == Replied(Known(FAILED0), 3)
  {
    var w3 := ReservedRun();
    var w4: World := w3.(calls := map[0 := Preparing(INPUT0, KEY0, AtAccess)]);
    w6 := LostReplyRun(w4);
    Reserved(w3, w4);
    es := [Send(0, INPUT0, KEY0, "f"), Hashed(0, 1), Persist(1), Synced(0, true, 2), Accessed(0, None, 3), Query(1, KEY0, 4)];
    SixSteps(START, es[0], es[1], es[2], es[3], es[4], es[5]);
  }

  /** A status check answers from memory without waiting for storage.  Without the platform's output
      gate, which holds a reply until its version is flushed, this run would report a failed receipt
      although a crash can bring the pending one back. */
  lemma UnflushedStatusReplyCanBeLost()
    ensures exists es, id, receipt :: LosesReply(es, id, receipt)
  {
    var es, w6 := LostReplySteps();
    LostOnCrash(w6);
    assert LosesReply(es, 1, FAILED0);
  }

  lemma Reserved(w3: World, w4: World)
    requires w3 == RawWorld([EMPTY, PENDING0], 1, map[0 := Reserving(INPUT0, KEY0, Base(KEY0, INPUT0), 1)], [])
    requires w4 == w3.(calls := map[0 := Preparing(INPUT0, KEY0, AtAccess)])
    ensures Next(w3, Synced(0, true, 2)) == w4
  {
  }

  lemma LostOnCrash(w: World)
    requires w.versions == [EMPTY, PENDING0, SAVED0, SAVED0] && w.durable == 1
    ensures Memory(Next(w, Crash)) == PENDING0
    ensures FAILED0.key in PENDING0.receipts && PENDING0.receipts[FAILED0.key].state == Pending
  {
  }

  lemma ReservedRun() returns (w3: World)
    ensures w3 == RawWorld([EMPTY, PENDING0], 1, map[0 := Reserving(INPUT0, KEY0, Base(KEY0, INPUT0), 1)], [])
    ensures w3 == Next(Next(Next(START, Send(0, INPUT0, KEY0, "f")), Hashed(0, 1)), Persist(1))
  {
    FirstReservation();
    var w1: World := RawWorld([EMPTY], 0, map[0 := Hashing(INPUT0, KEY0, "f")], []);
    assert Next(START, Send(0, INPUT0, KEY0, "f")) == w1;
    var w2: World := RawWorld([EMPTY, PENDING0], 0, map[0 := Reserving(INPUT0, KEY0, Base(KEY0, INPUT0), 1)], []);
    assert Memory(w1) == EMPTY;
    assert Next(w1, Hashed(0, 1)) == w2;
    w3 := w2.(durable := 1);
  }

  lemma LostReplyRun(w4: World) returns (w6: World)
    requires w4 == RawWorld([EMPTY, PENDING0], 1, map[0 := Preparing(INPUT0, KEY0, AtAccess)], [])
    ensures w6 == Next(Next(w4, Accessed(0, None, 3)), Query(1, KEY0, 4))
    ensures w6.versions == [EMPTY, PENDING0, SAVED0, SAVED0] && w6.durable == 1
    ensures 1 in w6.calls && w6.calls[1] == Replied(Known(FAILED0), 3)
  {
    FirstFailure();
    var w5: World := RawWorld([EMPTY, PENDING0, SAVED0], 1, map[0 := Settling(FAILED0, 2)], []);
    assert Memory(w4) == PENDING0;
    assert Next(w4, Accessed(0, None, 3)) == w5;
    assert Memory(w5) == SAVED0;
    w6 := Next(w5, Query(1, KEY0, 4));
  }

  lemma SixSteps(w: World, a: Event, b: Event, c: Event, d: Event, e: Event, f: Event)
    ensures Run(w, [a, b, c, d, e, f]) == Next(Next(Next(Next(Next(Next(w, a), b), c), d), e), f)
  {
    var w1 := Next(w, a);
    var w2 := Next(w1, b);
    var w3 := Next(w2, c);
    assert [a, b, c, d, e, f][1..] == [b, c, d, e, f] && [b, c, d, e, f][1..] == [c, d, e, f];
    assert [c, d, e, f][1..] == [d, e, f] && [d, e, f][1..] == [e, f] && [e, f][1..] == [f];
    RunSplits(w, [a, b, c, d, e, f]);
    RunSplits(w1, [b, c, d, e, f]);
    RunSplits(w2, [c, d, e, f]);
    RunSplits(w3, [d, e, f]);
    RunSplits(Next(w3, d), [e, f]);
    RunSplits(Next(Next(w3, d), e), [f]);
  }

  lemma RunSplits(w: World, es: seq<Event>)
    requires |es| > 0
    ensures Run(w, es) == Run(Next(w, es[0]), es[1..])
  {
  }
}
