/** gateway/src/ledger.ts: the tables of one ReplyLedger object and the stretches of code that
    run between two awaits.  `Tables` is the whole SQL state; every function below is one
    synchronous stretch on it, and the class performs the same stretch in place. */
module Ledger {
  import opened Wrappers

  type Key = string
  type Id = string

  datatype SendInput = SendInput(targetId: Id, text: string, senderId: Id, connectionId: string)
  datatype ReceiptState = Pending | Unknown | Sent | Failed
  datatype Receipt = Receipt(state: ReceiptState, key: Key, targetId: Id, senderId: Id,
                             post: Option<Id>, error: Option<string>)
  datatype Row = Row(fingerprint: string, sender: Id, target: Id, state: ReceiptState,
                     receipt: Receipt, updated: nat)
  datatype Quota = Quota(period: nat, count: nat)
  datatype Tables = Tables(receipts: map<Key, Row>, targets: map<(Id, Id), Key>, limits: map<string, Quota>)

  const AUDIO_DAILY_LIMIT := 40
  const NEW_RECEIPTS_HOURLY_LIMIT := 60
  const RETAINED_RECEIPT_LIMIT := 10_000
  const STALE_MS := 90_000
  const EMPTY := Tables(map[], map[], map[])

  predicate KeyChar(c: char) {
    'A' <= c <= 'Z' || 'a' <= c <= 'z' || '0' <= c <= '9' || c == '_' || c == '-'
  }

  predicate ValidKey(key: Key) {
    16 <= |key| <= 80 && forall i | 0 <= i < |key| :: KeyChar(key[i])
  }

  /** What a status lookup answers; `sync` says that it waits for storage before answering. */
  datatype Lookup = InvalidKey | Missing | Found(receipt: Receipt, sync: bool)

  /** How a send whose request has been hashed is admitted. */
  datatype Admission = Conflict | Existing(lookup: Lookup) | RateLimited | Admitted(receipt: Receipt)

  /** The provider's answer to the one POST. */
  datatype Answer = Response(status: int, post: Option<Id>, error: string) | Threw

  function Base(key: Key, input: SendInput): Receipt {
    Receipt(Pending, key, input.targetId, input.senderId, None, None)
  }

  function Failure(key: Key, input: SendInput, error: string): Receipt {
    Base(key, input).(state := Failed, error := Some(error))
  }

  /** 4xx other than 408, 409 and 425: the provider certainly did not create the post. */
  predicate DefinitelyRejected(answer: Answer) {
    answer.Response? && 400 <= answer.status < 500 && answer.status !in {408, 409, 425}
  }

  function Verdict(key: Key, input: SendInput, answer: Answer): Receipt {
    if answer.Response? && answer.status == 201 && answer.post.Some? then
      Base(key, input).(state := Sent, post := answer.post)
    else if DefinitelyRejected(answer) then
      Failure(key, input, answer.error)
    else
      Base(key, input).(state := Unknown, error := Some("send_status_unknown"))
  }

  function Period(now: nat, window: nat): nat
    requires window > 0
  {
    now / window
  }

  function Used(t: Tables, bucket: string, period: nat): nat {
    if bucket in t.limits && t.limits[bucket].period == period then t.limits[bucket].count else 0
  }

  predicate Allowed(t: Tables, bucket: string, limit: nat, window: nat, now: nat)
    requires window > 0
  {
    Used(t, bucket, Period(now, window)) < limit
  }

  /** A quota touches neither receipts nor guards. */
  function Charged(t: Tables, bucket: string, limit: nat, window: nat, now: nat): (charged: Tables)
    requires window > 0
    ensures charged.receipts == t.receipts && charged.targets == t.targets
  {
    var period := Period(now, window);
    if Allowed(t, bucket, limit, window, now) then
      t.(limits := t.limits[bucket := Quota(period, Used(t, bucket, period) + 1)])
    else t
  }

  /** A fixed-window quota: refuse at the limit, otherwise count one more. */
  function Consume(t: Tables, bucket: string, limit: nat, window: nat, now: nat): (Tables, bool)
    requires window > 0
  {
    (Charged(t, bucket, limit, window, now), Allowed(t, bucket, limit, window, now))
  }

  /** Audio is charged against the day first, and nothing more when the day is used up. */
  function Permit(t: Tables, bucket: string, now: nat): (Tables, bool) {
    var perMinute := if bucket == "audio" then 4 else if bucket == "inbox" then 12 else 60;
    if bucket == "audio" then
      var (charged, today) := Consume(t, "audio_daily", AUDIO_DAILY_LIMIT, 86_400_000, now);
      if today then Consume(charged, bucket, perMinute, 60_000, now) else (charged, false)
    else Consume(t, bucket, perMinute, 60_000, now)
  }

  /** UPDATE the row, and on failure DELETE only this receipt's own guard. */
  function Save(t: Tables, receipt: Receipt, now: nat): Tables {
    var pair := (receipt.senderId, receipt.targetId);
    t.(receipts := if receipt.key in t.receipts
                   then t.receipts[receipt.key :=
                          t.receipts[receipt.key].(state := receipt.state, receipt := receipt, updated := now)]
                   else t.receipts,
       targets := if receipt.state == Failed && pair in t.targets && t.targets[pair] == receipt.key
                  then t.targets - {pair}
                  else t.targets)
  }

  function Status(t: Tables, key: Key, now: nat): (Tables, Lookup) {
    if !ValidKey(key) then (t, InvalidKey)
    else if key !in t.receipts then (t, Missing)
    else
      var row := t.receipts[key];
      if row.state == Pending && now - row.updated > STALE_MS then
        var stale := row.receipt.(state := Unknown, error := Some("send_status_unknown"));
        (Save(t, stale, now), Found(stale, true))
      else (t, Found(row.receipt, false))
  }

  /** The stretch from the digest to the reservation. */
  function Admit(t: Tables, key: Key, fingerprint: string, input: SendInput, now: nat): (Tables, Admission) {
    if key in t.receipts then
      if t.receipts[key].fingerprint != fingerprint then (t, Conflict)
      else
        var (next, found) := Status(t, key, now);
        (next, Existing(found))
    else if |t.receipts| >= RETAINED_RECEIPT_LIMIT then (t, RateLimited)
    else
      var (t1, admitted) := Consume(t, "admission", NEW_RECEIPTS_HOURLY_LIMIT, 3_600_000, now);
      if !admitted then (t1, RateLimited)
      else
        var pair := (input.senderId, input.targetId);
        var (t2, allowed) := Consume(t1, "send", 6, 60_000, now);
        var receipt := if pair in t2.targets then Failure(key, input, "target_already_handled")
                       else if !allowed then Failure(key, input, "send_rate_limited")
                       else Base(key, input);
        var row := Row(fingerprint, input.senderId, input.targetId, receipt.state, receipt, now);
        (t2.(receipts := t2.receipts[key := row],
             targets := if receipt.state == Pending then t2.targets[pair := key] else t2.targets),
         Admitted(receipt))
  }

  /** The object itself: the SQL tables as fields, changed in place. */
  class ReplyLedger {
    var receipts: map<Key, Row>
    var targets: map<(Id, Id), Key>
    var limits: map<string, Quota>

    function Rows(): Tables
      reads this
    {
      Tables(receipts, targets, limits)
    }

    constructor ()
      ensures Rows() == EMPTY
    {
      receipts, targets, limits := map[], map[], map[];
    }

    method ConsumeQuota(bucket: string, limit: nat, window: nat, now: nat) returns (allowed: bool)
      requires window > 0
      modifies this`limits
      ensures (Rows(), allowed) == Consume(old(Rows()), bucket, limit, window, now)
    {
      var period := now / window;
      var count := 0;
      if bucket in limits && limits[bucket].period == period {
        count := limits[bucket].count;
      }
      if count >= limit {
        return false;
      }
      limits := limits[bucket := Quota(period, count + 1)];
      return true;
    }

    method PermitBucket(bucket: string, now: nat) returns (allowed: bool)
      modifies this`limits
      ensures (Rows(), allowed) == Permit(old(Rows()), bucket, now)
    {
      if bucket == "audio" {
        var today := ConsumeQuota("audio_daily", AUDIO_DAILY_LIMIT, 86_400_000, now);
        if !today {
          return false;
        }
      }
      allowed := ConsumeQuota(bucket, if bucket == "audio" then 4 else if bucket == "inbox" then 12 else 60, 60_000, now);
    }

    method SaveReceipt(receipt: Receipt, now: nat)
      modifies this`receipts, this`targets
      ensures Rows() == Save(old(Rows()), receipt, now)
    {
      if receipt.key in receipts {
        receipts := receipts[receipt.key :=
          receipts[receipt.key].(state := receipt.state, receipt := receipt, updated := now)];
      }
      var pair := (receipt.senderId, receipt.targetId);
      if receipt.state == Failed && pair in targets && targets[pair] == receipt.key {
        targets := targets - {pair};
      }
    }

    method LookUp(key: Key, now: nat) returns (found: Lookup)
      modifies this`receipts, this`targets
      ensures (Rows(), found) == Status(old(Rows()), key, now)
    {
      if !ValidKey(key) {
        return InvalidKey;
      }
      if key !in receipts {
        return Missing;
      }
      var row := receipts[key];
      if row.state == Pending && now - row.updated > STALE_MS {
        var stale := row.receipt.(state := Unknown, error := Some("send_status_unknown"));
        SaveReceipt(stale, now);
        return Found(stale, true);
      }
      return Found(row.receipt, false);
    }

    method Reserve(key: Key, fingerprint: string, input: SendInput, now: nat) returns (admission: Admission)
      modifies this
      ensures (Rows(), admission) == Admit(old(Rows()), key, fingerprint, input, now)
    {
      if key in receipts {
        if receipts[key].fingerprint != fingerprint {
          return Conflict;
        }
        var found := LookUp(key, now);
        return Existing(found);
      }
      if |receipts| >= RETAINED_RECEIPT_LIMIT {
        return RateLimited;
      }
      var admitted := ConsumeQuota("admission", NEW_RECEIPTS_HOURLY_LIMIT, 3_600_000, now);
      if !admitted {
        return RateLimited;
      }
      var pair := (input.senderId, input.targetId);
      var guarded := pair in targets;
      var allowed := ConsumeQuota("send", 6, 60_000, now);
      var receipt := Base(key, input);
      if guarded {
        receipt := Failure(key, input, "target_already_handled");
      } else if !allowed {
        receipt := Failure(key, input, "send_rate_limited");
      }
      receipts := receipts[key := Row(fingerprint, input.senderId, input.targetId, receipt.state, receipt, now)];
      if receipt.state == Pending {
        targets := targets[pair := key];
      }
      return Admitted(receipt);
    }

    /** The stretch that follows the provider's answer, up to the last sync. */
    method Settle(key: Key, input: SendInput, answer: Answer, now: nat) returns (receipt: Receipt)
      modifies this`receipts, this`targets
      ensures receipt == Verdict(key, input, answer)
      ensures Rows() == Save(old(Rows()), receipt, now)
    {
      receipt := Base(key, input).(state := Unknown, error := Some("send_status_unknown"));
      match answer {
        case Threw =>
        case Response(status, post, error) =>
          if status == 201 && post.Some? {
            receipt := Base(key, input).(state := Sent, post := post);
          } else if 400 <= status < 500 && status !in {408, 409, 425} {
            receipt := Failure(key, input, error);
          }
      }
      SaveReceipt(receipt, now);
    }
  }

  /** A receipt that still needs, or has taken, the right to post to its target. */
  predicate Live(state: ReceiptState) {
    state != Failed
  }

  predicate Open(state: ReceiptState) {
    state == Pending || state == Unknown
  }

  function PairOf(row: Row): (Id, Id) {
    (row.sender, row.target)
  }

  predicate RowConsistent(key: Key, row: Row) {
    && row.receipt.key == key
    && row.receipt.state == row.state
    && row.receipt.senderId == row.sender
    && row.receipt.targetId == row.target
  }

  /** The guard table is exactly the live receipts, indexed by who replies to what. */
  ghost predicate Consistent(t: Tables) {
    && (forall key | key in t.receipts :: RowConsistent(key, t.receipts[key]))
    && (forall key | key in t.receipts && Live(t.receipts[key].state) ::
          PairOf(t.receipts[key]) in t.targets && t.targets[PairOf(t.receipts[key])] == key)
    && (forall pair | pair in t.targets :: t.targets[pair] in t.receipts &&
          Live(t.receipts[t.targets[pair]].state) && PairOf(t.receipts[t.targets[pair]]) == pair)
  }

  /** `key` is the open receipt that may still post for `input`. */
  predicate Owns(t: Tables, key: Key, input: SendInput) {
    key in t.receipts && Open(t.receipts[key].state) &&
    t.receipts[key].sender == input.senderId && t.receipts[key].target == input.targetId
  }

  predicate Stored(t: Tables, receipt: Receipt) {
    receipt.key in t.receipts && t.receipts[receipt.key].receipt == receipt
  }

  predicate Final(state: ReceiptState) {
    state == Sent || state == Failed
  }

  /** One stretch of code later: no row disappears or changes its pair, final rows are
      untouched, and open rows other than `free` stay open. */
  ghost predicate Evolves(t: Tables, t': Tables, free: Option<Key>) {
    forall key | key in t.receipts ::
      && key in t'.receipts
      && PairOf(t'.receipts[key]) == PairOf(t.receipts[key])
      && t'.receipts[key].fingerprint == t.receipts[key].fingerprint
      && (Final(t.receipts[key].state) ==> t'.receipts[key] == t.receipts[key])
      && (Open(t.receipts[key].state) && free != Some(key) ==> Open(t'.receipts[key].state))
  }

  /** No two live receipts ever hold the same sender and target. */
  lemma LiveReceiptsHaveDistinctTargets(t: Tables, k1: Key, k2: Key)
    requires Consistent(t) && k1 in t.receipts && k2 in t.receipts
    requires Live(t.receipts[k1].state) && Live(t.receipts[k2].state)
    requires PairOf(t.receipts[k1]) == PairOf(t.receipts[k2])
    ensures k1 == k2
  {
    assert t.targets[PairOf(t.receipts[k1])] == k1;
  }

  predicate SavesRow(t: Tables, receipt: Receipt) {
    && receipt.key in t.receipts && Open(t.receipts[receipt.key].state)
    && PairOf(t.receipts[receipt.key]) == (receipt.senderId, receipt.targetId)
  }

  lemma SaveConsistent(t: Tables, receipt: Receipt, now: nat)
    requires Consistent(t) && SavesRow(t, receipt)
    ensures Consistent(Save(t, receipt, now))
  {
    var t' := Save(t, receipt, now);
    forall key | key in t'.receipts && Live(t'.receipts[key].state)
      ensures PairOf(t'.receipts[key]) in t'.targets && t'.targets[PairOf(t'.receipts[key])] == key
    {
      assert key in t.receipts && PairOf(t.receipts[key]) in t.targets;
    }
    forall pair | pair in t'.targets
      ensures t'.targets[pair] in t'.receipts &&
              Live(t'.receipts[t'.targets[pair]].state) && PairOf(t'.receipts[t'.targets[pair]]) == pair
    {
      assert pair in t.targets;
    }
  }

  lemma SaveKeeps(t: Tables, receipt: Receipt, now: nat)
    requires Consistent(t) && SavesRow(t, receipt)
    ensures Consistent(Save(t, receipt, now))
    ensures Evolves(t, Save(t, receipt, now), if Open(receipt.state) then None else Some(receipt.key))
    ensures Stored(Save(t, receipt, now), receipt)
  {
    SaveConsistent(t, receipt, now);
  }

  lemma StatusKeeps(t: Tables, key: Key, now: nat)
    requires Consistent(t)
    ensures Consistent(Status(t, key, now).0) && Evolves(t, Status(t, key, now).0, None)
    ensures var found := Status(t, key, now).1;
            found.Found? ==> found.receipt.key == key && Stored(Status(t, key, now).0, found.receipt)
  {
    if ValidKey(key) && key in t.receipts {
      var row := t.receipts[key];
      assert RowConsistent(key, row);
      if row.state == Pending && now - row.updated > STALE_MS {
        SaveKeeps(t, row.receipt.(state := Unknown, error := Some("send_status_unknown")), now);
      }
    }
  }

  lemma StatusOnlySaves(t: Tables, key: Key, now: nat)
    requires Consistent(t) && ValidKey(key) && key in t.receipts
    ensures var (next, found) := Status(t, key, now);
            found.Found? && next.receipts.Keys == t.receipts.Keys && next.targets == t.targets
  {
    assert RowConsistent(key, t.receipts[key]);
  }

  /** A repeated key never makes a second receipt: the same request gets the stored receipt, a
      different one a conflict, and neither changes which receipts and guards exist. */
  lemma RepeatedKeyNeverReservesAgain(t: Tables, key: Key, fingerprint: string, input: SendInput, now: nat)
    requires Consistent(t) && ValidKey(key) && key in t.receipts
    ensures var (next, admission) := Admit(t, key, fingerprint, input, now);
            && !admission.Admitted?
            && next.receipts.Keys == t.receipts.Keys && next.targets == t.targets
            && (admission.Conflict? <==> t.receipts[key].fingerprint != fingerprint)
            && (!admission.Conflict? ==> admission.Existing? && admission.lookup.Found? &&
                                         Stored(next, admission.lookup.receipt))
  {
    StatusOnlySaves(t, key, now);
    StatusKeeps(t, key, now);
  }

  lemma InsertKeeps(t: Tables, key: Key, row: Row)
    requires Consistent(t) && key !in t.receipts && RowConsistent(key, row)
    requires row.state == Failed || (row.state == Pending && PairOf(row) !in t.targets)
    ensures var t' := t.(receipts := t.receipts[key := row],
                         targets := if row.state == Pending then t.targets[PairOf(row) := key] else t.targets);
            Consistent(t') && Evolves(t, t', None)
  {
    var t' := t.(receipts := t.receipts[key := row],
                 targets := if row.state == Pending then t.targets[PairOf(row) := key] else t.targets);
    forall k | k in t'.receipts && Live(t'.receipts[k].state)
      ensures PairOf(t'.receipts[k]) in t'.targets && t'.targets[PairOf(t'.receipts[k])] == k
    {
      if k != key {
        assert k in t.receipts && PairOf(t.receipts[k]) in t.targets;
      }
    }
    forall p | p in t'.targets
      ensures t'.targets[p] in t'.receipts &&
              Live(t'.receipts[t'.targets[p]].state) && PairOf(t'.receipts[t'.targets[p]]) == p
    {
      if t'.targets[p] != key {
        assert p in t.targets;
      }
    }
  }

  /** A new key: at most quotas change, or its own receipt is inserted. */
  lemma NewKeyKeeps(t: Tables, key: Key, fingerprint: string, input: SendInput, now: nat)
    requires Consistent(t) && key !in t.receipts
    ensures var (next, admission) := Admit(t, key, fingerprint, input, now);
            Consistent(next) && Evolves(t, next, None) && (admission.RateLimited? || admission.Admitted?)
  {
    var (t1, _) := Consume(t, "admission", NEW_RECEIPTS_HOURLY_LIMIT, 3_600_000, now);
    var (t2, _) := Consume(t1, "send", 6, 60_000, now);
    var (next, admission) := Admit(t, key, fingerprint, input, now);
    if admission.Admitted? {
      var receipt := admission.receipt;
      InsertKeeps(t2, key, Row(fingerprint, input.senderId, input.targetId, receipt.state, receipt, now));
    }
  }

  lemma NewReceipt(t: Tables, key: Key, fingerprint: string, input: SendInput, now: nat)
    requires key !in t.receipts && Admit(t, key, fingerprint, input, now).1.Admitted?
    ensures var (next, admission) := Admit(t, key, fingerprint, input, now);
            var receipt := admission.receipt;
            && Stored(next, receipt) && receipt.key == key && (receipt.state == Pending || receipt.state == Failed)
            && (receipt.state == Pending ==> Owns(next, key, input))
            && ((input.senderId, input.targetId) in t.targets ==> receipt.state == Failed)
  {
  }

  lemma KnownKeyKeeps(t: Tables, key: Key, fingerprint: string, input: SendInput, now: nat)
    requires Consistent(t) && key in t.receipts
    ensures var (next, admission) := Admit(t, key, fingerprint, input, now);
            && Consistent(next) && Evolves(t, next, None) && !admission.Admitted?
            && (admission.Existing? && admission.lookup.Found? ==>
                  admission.lookup.receipt.key == key && Stored(next, admission.lookup.receipt))
  {
    StatusKeeps(t, key, now);
  }

  /** Admission keeps the tables consistent.  A new key gets its own receipt; it may go on to
      post only when no guard held the target, and then it holds the only guard for it. */
  lemma AdmitKeeps(t: Tables, key: Key, fingerprint: string, input: SendInput, now: nat)
    requires Consistent(t)
    ensures var (next, admission) := Admit(t, key, fingerprint, input, now);
            && Consistent(next) && Evolves(t, next, None)
            && (admission.Admitted? ==>
                  && key !in t.receipts && Stored(next, admission.receipt) && admission.receipt.key == key
                  && (admission.receipt.state == Pending || admission.receipt.state == Failed)
                  && (admission.receipt.state == Pending ==> Owns(next, key, input))
                  && ((input.senderId, input.targetId) in t.targets ==> admission.receipt.state == Failed))
            && (admission.Existing? && admission.lookup.Found? ==>
                  admission.lookup.receipt.key == key && Stored(next, admission.lookup.receipt))
  {
    if key in t.receipts {
      KnownKeyKeeps(t, key, fingerprint, input, now);
    } else {
      NewKeyKeeps(t, key, fingerprint, input, now);
      if Admit(t, key, fingerprint, input, now).1.Admitted? { NewReceipt(t, key, fingerprint, input, now); }
    }
  }
}
