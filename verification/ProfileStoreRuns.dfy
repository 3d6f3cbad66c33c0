/** Every sequence of store operations, with power lost after any durable write. */
module ProfileStoreRuns {
  import opened Wrappers
  import opened ProfileStore

  datatype Op =
    | MountOp(io: MountIo)
    | LoadOp(p: Provider, owner: string, workspace: string, works: bool)
    | SaveOp(p: Provider, record: Record, saveIo: SaveIo)
    | RemoveOp(p: Provider, removeIo: RemoveIo)
    | ClearOp(clearIo: FlagIo, files: (RemoveIo, RemoveIo, RemoveIo))

  /** An operation that completes, or one that power loss interrupts after `cut` of its writes. */
  datatype Event = Event(op: Op, cut: Option<nat>)

  function Apply(s: Store, op: Op): Store {
    match op
    case MountOp(io) => Mount(s, io).0
    case LoadOp(p, owner, workspace, works) => Load(s, p, owner, workspace, works).0
    case SaveOp(p, record, io) => Save(s, p, record, io).0
    case RemoveOp(p, io) => Remove(s, p, io).0
    case ClearOp(io, files) => Clear(s, io, files).0
  }

  function PoweredUp(disk: Disk): Store { Store(disk, POWER_UP, [disk]) }

  function Step(s: Store, e: Event): Store {
    var s' := Apply(s.(trail := [s.disk]), e.op);
    if e.cut.Some? && e.cut.value < |s'.trail| then PoweredUp(s'.trail[e.cut.value]) else s'
  }

  function Run(s: Store, es: seq<Event>): Store
    decreases |es|
  {
    if |es| == 0 then s else Run(Step(s, es[0]), es[1..])
  }

  // ---------------------------------------------------------------- one operation

  predicate Blocks(disk: Disk, p: Provider) { disk.block.Some? && p in disk.block.value }

  predicate Saves(op: Op, p: Provider) { op.SaveOp? && op.p == p }

  predicate Removes(op: Op, p: Provider) { (op.RemoveOp? && op.p == p) || op.ClearOp? }

  predicate SameFile(p: Provider, before: Disk, after: Disk) {
    (p in before.current <==> p in after.current) && (p in before.current ==> after.current[p] == before.current[p])
  }

  /** What the file of a provider may hold once an operation has begun: what it held, nothing if the
      operation removes this provider or formats, or the record being saved for it. */
  predicate FileOk(op: Op, p: Provider, before: Disk, after: Disk) {
    || SameFile(p, before, after)
    || (p !in after.current && (Removes(op, p) || (op.MountOp? && after.formats > before.formats)))
    || InPlace(op, p, after)
  }

  /** A format erases files, is only begun while the flag is missing, and leaves the flag set. */
  predicate FormatOk(op: Op, before: Disk, after: Disk) {
    && (before.init.Some? ==> after.init == before.init && after.formats == before.formats)
    && before.formats <= after.formats <= before.formats + 1
    && (after.formats > before.formats ==> after.init.Some?)
  }

  /** A durable block that memory knows of outlives every operation but a save of the same
      provider, and that clears it only when the saved record is completely in place. */
  predicate BlockOk(s: Store, op: Op, p: Provider, after: Disk) {
    Blocks(s.disk, p) && p in s.memory.blocked ==> Blocks(after, p) || InPlace(op, p, after)
  }

  predicate InPlace(op: Op, p: Provider, disk: Disk) {
    Saves(op, p) && p in disk.current && disk.current[p] == Whole(op.record)
  }

  ghost predicate Between(s: Store, op: Op, after: Disk) {
    && FormatOk(op, s.disk, after)
    && (forall p: Provider :: FileOk(op, p, s.disk, after))
    && (forall p: Provider :: BlockOk(s, op, p, after))
  }

  ghost predicate AllBetween(s: Store, op: Op, now: Store) {
    Between(s, op, now.disk) && forall i | 0 <= i < |now.trail| :: Between(s, op, now.trail[i])
  }

  /** One more write: files change as the operation may, and a known block stays. */
  lemma Derive(s: Store, op: Op, before: Disk, after: Disk)
    requires Between(s, op, before)
    requires after.init == before.init && after.formats == before.formats
    requires forall p: Provider :: FileOk(op, p, before, after)
    requires forall p: Provider | p in s.memory.blocked && Blocks(before, p) :: Blocks(after, p) || InPlace(op, p, after)
    ensures Between(s, op, after)
  {
    forall p: Provider
      ensures FileOk(op, p, s.disk, after) && BlockOk(s, op, p, after)
    {
      assert FileOk(op, p, s.disk, before) && FileOk(op, p, before, after);
      assert BlockOk(s, op, p, before);
    }
  }

  lemma MountBetween(s: Store, op: Op)
    requires op.MountOp? && AllBetween(s, op, s)
    ensures AllBetween(s, op, Mount(s, op.io).0)
  {
    if s.disk.init.None? {
      var s1 := WriteInit(s, op.io.initWrite);
      forall p: Provider
        ensures BlockOk(s, op, p, s1.disk) && BlockOk(s, op, p, Format(s1).disk)
      {
      }
      assert Between(s, op, s1.disk);
      if op.io.initWrite != NotWritten {
        assert Between(s, op, Format(s1).disk);
      }
    }
  }

  lemma RemoveFilesBetween(s: Store, op: Op, now: Store, p: Provider, io: RemoveIo)
    requires AllBetween(s, op, now) && Removes(op, p)
    ensures AllBetween(s, op, RemoveFiles(now, p, io))
    ensures RemoveFiles(now, p, io).memory == now.memory
  {
    var s1 := if io.removesCurrent && p in now.disk.current then Write(now, now.disk.(current := now.disk.current - {p})) else now;
    Derive(s, op, now.disk, s1.disk);
    Derive(s, op, s1.disk, s1.disk.(temporary := s1.disk.temporary - {p}));
  }

  lemma SetBlockedBetween(s: Store, op: Op, now: Store, value: Mask, io: FlagIo)
    requires AllBetween(s, op, now)
    requires forall p: Provider | p in s.memory.blocked :: p in value || InPlace(op, p, now.disk)
    ensures AllBetween(s, op, SetBlocked(now, value, io).0)
    ensures SetBlocked(now, value, io).0.disk.current == now.disk.current
  {
    Derive(s, op, now.disk, now.disk.(block := Some(value)));
  }

  lemma RemoveBetween(s: Store, op: Op)
    requires op.RemoveOp? && AllBetween(s, op, s)
    ensures AllBetween(s, op, Remove(s, op.p, op.removeIo).0)
  {
    var s1 := s.(memory := s.memory.(saved := s.memory.saved - {op.p}));
    SetBlockedBetween(s, op, s1, s.memory.blocked + {op.p}, op.removeIo.block);
    RemoveFilesBetween(s, op, SetBlocked(s1, s.memory.blocked + {op.p}, op.removeIo.block).0, op.p, op.removeIo);
  }

  lemma ClearBetween(s: Store, op: Op)
    requires op.ClearOp? && AllBetween(s, op, s)
    ensures AllBetween(s, op, Clear(s, op.clearIo, op.files).0)
  {
    var s1 := s.(memory := s.memory.(saved := {}));
    SetBlockedBetween(s, op, s1, ALL, op.clearIo);
    var s2 := SetBlocked(s1, ALL, op.clearIo).0;
    RemoveFilesBetween(s, op, s2, 0, op.files.0);
    RemoveFilesBetween(s, op, RemoveFiles(s2, 0, op.files.0), 1, op.files.1);
    RemoveFilesBetween(s, op, RemoveFiles(RemoveFiles(s2, 0, op.files.0), 1, op.files.1), 2, op.files.2);
  }

  lemma ReplaceBetween(s: Store, op: Op, now: Store)
    requires op.SaveOp? && AllBetween(s, op, now)
    ensures var (r, ok) := Replace(now, op.p, op.record, op.saveIo);
            && AllBetween(s, op, r)
            && (ok ==> InPlace(op, op.p, r.disk) && r.memory == now.memory)
  {
    var p := op.p;
    var s1 := Write(now, now.disk.(temporary := now.disk.temporary[p := Broken]));
    Derive(s, op, now.disk, s1.disk);
    Derive(s, op, now.disk, s1.disk.(temporary := s1.disk.temporary - {p}));
    var s2 := Write(s1, s1.disk.(temporary := s1.disk.temporary[p := op.saveIo.lands]));
    Derive(s, op, now.disk, s2.disk);
    Derive(s, op, now.disk, s2.disk.(temporary := s2.disk.temporary - {p}));
    if op.saveIo.verifies && op.saveIo.lands == Whole(op.record) {
      var s3 := Write(s2, s2.disk.(current := s2.disk.current[p := s2.disk.temporary[p]], temporary := s2.disk.temporary - {p}));
      Derive(s, op, now.disk, s3.disk);
    }
  }

  lemma SaveBetween(s: Store, op: Op)
    requires op.SaveOp? && AllBetween(s, op, s)
    ensures AllBetween(s, op, Save(s, op.p, op.record, op.saveIo).0)
  {
    var (p, record, io) := (op.p, op.record, op.saveIo);
    if s.memory.ready && io.valid {
      var previous := ReadRecord(s.disk.current, p, record.owner, record.workspace, io.readsPrevious);
      var changes := previous.Some? && previous.value.remoteId != record.remoteId;
      SetBlockedBetween(s, op, s, s.memory.blocked + {p}, io.block);
      var (s1, blocked) := if changes then SetBlocked(s, s.memory.blocked + {p}, io.block) else (s, true);
      if blocked {
        assert s.memory.blocked <= s1.memory.blocked;
        ReplaceBetween(s, op, s1);
        var (s2, replaced) := Replace(s1, p, record, io);
        if previous == Some(record) {
          SetBlockedBetween(s, op, s1, s1.memory.blocked - {p}, io.unblock);
        } else if replaced {
          SetBlockedBetween(s, op, s2, s2.memory.blocked - {p}, io.unblock);
        }
      }
    }
  }

  lemma ApplyBetween(s: Store, op: Op)
    requires AllBetween(s, op, s)
    ensures AllBetween(s, op, Apply(s, op))
  {
    match op
    case MountOp(_) => MountBetween(s, op);
    case LoadOp(_, _, _, _) =>
    case SaveOp(_, _, _) => SaveBetween(s, op);
    case RemoveOp(_, _) => RemoveBetween(s, op);
    case ClearOp(_, _) => ClearBetween(s, op);
  }

  /** Power may be lost after any write of any operation: each file is then what it was, or gone if
      this operation removes it or formats, or exactly the record being saved; never a mixture. */
  lemma EveryInterruptionIsClean(s: Store, op: Op, i: nat)
    requires i < |Apply(s.(trail := [s.disk]), op).trail|
    ensures Between(s, op, Apply(s.(trail := [s.disk]), op).trail[i])
  {
    var s0 := s.(trail := [s.disk]);
    assert AllBetween(s0, op, s0);
    ApplyBetween(s0, op);
    BetweenIgnoresTrail(s0, s, op, Apply(s0, op).trail[i]);
  }

  /** And so it is when the operation completes. */
  lemma CompletionIsClean(s: Store, op: Op)
    ensures Between(s, op, Apply(s.(trail := [s.disk]), op).disk)
  {
    var s0 := s.(trail := [s.disk]);
    assert AllBetween(s0, op, s0);
    ApplyBetween(s0, op);
    BetweenIgnoresTrail(s0, s, op, Apply(s0, op).disk);
  }

  lemma BetweenIgnoresTrail(s0: Store, s: Store, op: Op, disk: Disk)
    requires s0.disk == s.disk && s0.memory == s.memory && Between(s0, op, disk)
    ensures Between(s, op, disk)
  {
    forall p: Provider
      ensures BlockOk(s, op, p, disk)
    {
      assert BlockOk(s0, op, p, disk);
    }
  }

  lemma StepBetween(s: Store, e: Event)
    ensures Between(s, e.op, Step(s, e).disk)
  {
    var s' := Apply(s.(trail := [s.disk]), e.op);
    CompletionIsClean(s, e.op);
    if e.cut.Some? && e.cut.value < |s'.trail| {
      EveryInterruptionIsClean(s, e.op, e.cut.value);
    }
  }

  // ---------------------------------------------------------------- whole runs

  /** Formatting happens at most once over all boots. */
  lemma {:induction false} FormatsAtMostOnce(s: Store, es: seq<Event>)
    requires s.disk.formats == 0 || (s.disk.formats == 1 && s.disk.init.Some?)
    ensures Run(s, es).disk.formats <= 1
    decreases |es|
  {
    if |es| > 0 {
      StepBetween(s, es[0]);
      FormatsAtMostOnce(Step(s, es[0]), es[1..]);
    }
  }

  /** The block of p is on disk and the mask in memory has it too. */
  predicate Known(s: Store, p: Provider) { Blocks(s.disk, p) && p in s.memory.blocked }

  lemma SaveRemembers(s: Store, op: Op, p: Provider)
    requires Known(s, p) && op.SaveOp?
    ensures p in Apply(s, op).memory.blocked || InPlace(op, p, Apply(s, op).disk)
  {
    var (q, record, io) := (op.p, op.record, op.saveIo);
    var previous := ReadRecord(s.disk.current, q, record.owner, record.workspace, io.readsPrevious);
    var changes := previous.Some? && previous.value.remoteId != record.remoteId;
    var (s1, blocked) := if changes then SetBlocked(s, s.memory.blocked + {q}, io.block) else (s, true);
    ReplaceTrail(s1, q, record, io);
  }

  /** Whatever an operation does, a known block stays in memory until its own record is in place. */
  lemma ApplyRemembers(s: Store, op: Op, p: Provider)
    requires Known(s, p)
    ensures p in Apply(s, op).memory.blocked || InPlace(op, p, Apply(s, op).disk)
  {
    match op
    case SaveOp(_, _, _) => SaveRemembers(s, op, p);
    case RemoveOp(q, io) => RemoveRemembers(s, p, q, io);
    case ClearOp(io, files) => ClearRemembers(s, p, io, files);
    case _ =>
  }

  lemma RemoveFilesMemory(s: Store, p: Provider, io: RemoveIo)
    ensures RemoveFiles(s, p, io).memory == s.memory && RemoveFiles(s, p, io).disk.block == s.disk.block
  {
  }

  lemma RemoveRemembers(s: Store, p: Provider, q: Provider, io: RemoveIo)
    requires p in s.memory.blocked
    ensures p in Remove(s, q, io).0.memory.blocked
  {
    RemoveFilesMemory(SetBlocked(s.(memory := s.memory.(saved := s.memory.saved - {q})), s.memory.blocked + {q}, io.block).0, q, io);
  }

  lemma ClearRemembers(s: Store, p: Provider, io: FlagIo, files: (RemoveIo, RemoveIo, RemoveIo))
    requires p in s.memory.blocked
    ensures p in Clear(s, io, files).0.memory.blocked
  {
    var s2 := SetBlocked(s.(memory := s.memory.(saved := {})), ALL, io).0;
    RemoveFilesMemory(s2, 0, files.0);
    RemoveFilesMemory(RemoveFiles(s2, 0, files.0), 1, files.1);
    RemoveFilesMemory(RemoveFiles(RemoveFiles(s2, 0, files.0), 1, files.1), 2, files.2);
  }

  lemma StepKnown(s: Store, e: Event, p: Provider)
    requires Known(s, p)
    ensures Known(Step(s, e), p) || InPlace(e.op, p, Step(s, e).disk)
  {
    StepBetween(s, e);
    assert BlockOk(s, e.op, p, Step(s, e).disk);
    StepRemembers(s, e, p);
  }

  /** Starting up, memory takes every provider for blocked. */
  lemma StepRemembers(s: Store, e: Event, p: Provider)
    requires Known(s, p)
    ensures p in Step(s, e).memory.blocked || InPlace(e.op, p, Step(s, e).disk)
  {
    ApplyRemembers(s.(trail := [s.disk]), e.op, p);
    StepIs(s, e);
  }

  lemma StepIs(s: Store, e: Event)
    ensures Step(s, e) == Apply(s.(trail := [s.disk]), e.op) || Step(s, e).memory == POWER_UP
  {
  }

  ghost predicate SavedIn(es: seq<Event>, p: Provider, record: Record) {
    exists i :: 0 <= i < |es| && Saves(es[i].op, p) && es[i].op.record == record
  }

  /** The file of p, if it is whole, holds a record saved in `es`. */
  ghost predicate FileSavedIn(disk: Disk, p: Provider, es: seq<Event>) {
    p in disk.current && disk.current[p].Whole? ==> SavedIn(es, p, disk.current[p].record)
  }

  lemma SavedLater(past: seq<Event>, e: Event, p: Provider, record: Record)
    requires SavedIn(past, p, record)
    ensures SavedIn(past + [e], p, record)
  {
    var i :| 0 <= i < |past| && Saves(past[i].op, p) && past[i].op.record == record;
    assert (past + [e])[i] == past[i];
  }

  lemma SavedNow(past: seq<Event>, e: Event, p: Provider)
    requires Saves(e.op, p)
    ensures SavedIn(past + [e], p, e.op.record)
  {
    assert (past + [e])[|past|] == e;
  }

  lemma StepFile(s: Store, p: Provider, past: seq<Event>, e: Event)
    requires FileSavedIn(s.disk, p, past)
    ensures FileSavedIn(Step(s, e).disk, p, past + [e])
  {
    StepBetween(s, e);
    assert FileOk(e.op, p, s.disk, Step(s, e).disk);
    var after := Step(s, e).disk.current;
    if p in after && after[p].Whole? {
      if p in s.disk.current && s.disk.current[p] == after[p] {
        SavedLater(past, e, p, after[p].record);
      } else {
        SavedNow(past, e, p);
      }
    }
  }

  lemma {:induction false} RunRenewed(s: Store, p: Provider, past: seq<Event>, es: seq<Event>)
    requires Known(s, p) || FileSavedIn(s.disk, p, past)
    ensures Known(Run(s, es), p) || FileSavedIn(Run(s, es).disk, p, past + es)
    decreases |es|
  {
    if |es| == 0 {
      assert past + es == past;
    } else {
      var s' := Step(s, es[0]);
      if FileSavedIn(s.disk, p, past) {
        StepFile(s, p, past, es[0]);
      } else {
        StepKnown(s, es[0], p);
        if InPlace(es[0].op, p, s'.disk) {
          SavedNow(past, es[0], p);
        }
      }
      RunRenewed(s', p, past + [es[0]], es[1..]);
      assert past + [es[0]] + es[1..] == past + es;
    }
  }

  /** Once the block of a provider is on disk and in memory, no run of operations, failures,
      interruptions and boots ever loads anything for it except a record saved in that run: a
      revoked identity never reappears. */
  lemma RevokedRecordNeverReappears(s: Store, p: Provider, es: seq<Event>, owner: string, workspace: string, works: bool)
    requires Known(s, p)
    ensures var loaded := Load(Run(s, es), p, owner, workspace, works).1;
            loaded.Some? ==> SavedIn(es, p, loaded.value) && loaded.value.owner == owner && loaded.value.workspace == workspace
  {
    RunRenewed(s, p, [], es);
    assert [] + es == es;
  }

  /** What a caller sees: once a removal or a clearing reported success, the profile is gone for
      every later run. */
  lemma RemovedForGood(s: Store, op: Op, p: Provider, es: seq<Event>, owner: string, workspace: string, works: bool)
    requires (op.RemoveOp? && op.p == p && Remove(s, p, op.removeIo).1) || (op.ClearOp? && Clear(s, op.clearIo, op.files).1)
    ensures var loaded := Load(Run(Apply(s, op), es), p, owner, workspace, works).1;
            loaded.Some? ==> SavedIn(es, p, loaded.value)
  {
    SuccessIsKnown(s, op, p);
    RevokedRecordNeverReappears(Apply(s, op), p, es, owner, workspace, works);
  }

  lemma SuccessIsKnown(s: Store, op: Op, p: Provider)
    requires (op.RemoveOp? && op.p == p && Remove(s, p, op.removeIo).1) || (op.ClearOp? && Clear(s, op.clearIo, op.files).1)
    ensures Known(Apply(s, op), p)
  {
    if op.RemoveOp? {
      var s1 := SetBlocked(s.(memory := s.memory.(saved := s.memory.saved - {p})), s.memory.blocked + {p}, op.removeIo.block).0;
      RemoveFilesMemory(s1, p, op.removeIo);
    } else {
      var s2 := SetBlocked(s.(memory := s.memory.(saved := {})), ALL, op.clearIo).0;
      RemoveFilesMemory(s2, 0, op.files.0);
      RemoveFilesMemory(RemoveFiles(s2, 0, op.files.0), 1, op.files.1);
      RemoveFilesMemory(RemoveFiles(RemoveFiles(s2, 0, op.files.0), 1, op.files.1), 2, op.files.2);
    }
  }

  predicate NoSave(es: seq<Event>, p: Provider) {
    forall i | 0 <= i < |es| :: !Saves(es[i].op, p)
  }

  ghost predicate Reappears(s: Store, p: Provider, record: Record, es: seq<Event>) {
    NoSave(es, p) && Load(Run(s, es), p, record.owner, record.workspace, true).1 == Some(record)
  }

  /** A partition that mounts without a format, and flags within their range. */
  predicate Mountable(s: Store) { s.disk.init == Some(1) && s.memory.blocked <= ALL }

  const FLAG_OK := FlagIo(true, Written)
  const MOUNT := Event(MountOp(MountIo(true, true, true, Written, true, true, true)), None)
  const POWER_OFF := Event(LoadOp(0, "", "", true), Some(0))

  /** The guarantee over runs, exactly: a blocked record can be loaded again without being saved if
      and only if the mask in memory misses its bit. */
  lemma BlockedRecordReappearsIff(s: Store, p: Provider, record: Record)
    requires Mountable(s) && Blocks(s.disk, p) && p in s.disk.current && s.disk.current[p] == Whole(record)
    ensures (exists es :: Reappears(s, p, record, es)) <==> p !in s.memory.blocked
  {
    if p in s.memory.blocked {
      forall es | Reappears(s, p, record, es)
        ensures false
      {
        RevokedRecordNeverReappears(s, p, es, record.owner, record.workspace, true);
      }
    } else {
      StaleMaskRevives(s, p, record);
    }
  }

  /** The run behind it: removing any other provider writes the stale mask. */
  lemma StaleMaskRevives(s: Store, p: Provider, record: Record)
    requires Mountable(s) && Blocks(s.disk, p) && p in s.disk.current && s.disk.current[p] == Whole(record)
    requires p !in s.memory.blocked
    ensures exists es :: Reappears(s, p, record, es)
  {
    var q: Provider := if p == 0 then 1 else 0;
    var remove := Event(RemoveOp(q, RemoveIo(FLAG_OK, false, false)), None);
    var s1 := Step(s, remove);
    var mask := s.memory.blocked + {q};
    assert s1.disk == s.disk.(block := Some(mask));
    var s2 := Step(s1, POWER_OFF);
    assert s2 == PoweredUp(s1.disk);
    var s3 := Step(s2, MOUNT);
    assert s3 == Store(s1.disk, Memory(true, true, mask, {}), [s1.disk]);
    RunOne(s, remove, [POWER_OFF, MOUNT]);
    RunOne(s1, POWER_OFF, [MOUNT]);
    RunOne(s2, MOUNT, []);
    assert [remove] + [POWER_OFF, MOUNT] == [remove, POWER_OFF, MOUNT];
    assert Run(s, [remove, POWER_OFF, MOUNT]) == s3;
    assert Reappears(s, p, record, [remove, POWER_OFF, MOUNT]);
  }

  /** Some state that power loss can leave behind during a save of p still offers `present`. */
  ghost predicate StillOffered(s: Store, p: Provider, record: Record, io: SaveIo, present: Record) {
    var trail := Save(s.(trail := [s.disk]), p, record, io).0.trail;
    exists i :: 0 < i < |trail| && Offers(trail[i], p, present)
  }

  predicate Offers(disk: Disk, p: Provider, record: Record) {
    !Blocks(disk, p) && p in disk.current && disk.current[p] == Whole(record)
  }

  /** The record to be replaced is found: it can be read and has the same owner and workspace. */
  predicate Found(present: Record, record: Record, io: SaveIo) {
    io.readsPrevious && present.owner == record.owner && present.workspace == record.workspace
  }

  /** Replacing an identity that is found blocks first: every state that power loss can leave
      behind is blocked or holds the new record. */
  lemma ReplacedIdentityNeverLoads(s: Store, p: Provider, record: Record, io: SaveIo, i: nat)
    requires s.memory.ready && io.valid
    requires p in s.disk.current && s.disk.current[p].Whole? && s.disk.current[p].record.remoteId != record.remoteId
    requires Found(s.disk.current[p].record, record, io)
    requires 0 < i < |Save(s.(trail := [s.disk]), p, record, io).0.trail|
    ensures var disk := Save(s.(trail := [s.disk]), p, record, io).0.trail[i];
            !Blocks(disk, p) ==> p in disk.current && disk.current[p] == Whole(record)
  {
    var s0 := s.(trail := [s.disk]);
    var (s1, blocked) := SetBlocked(s0, s0.memory.blocked + {p}, io.block);
    assert forall j | 0 < j < |s1.trail| :: Blocks(s1.trail[j], p);
    FoundIsBlockedFirst(s0, p, record, io);
    if blocked { BlockedOrInPlace(s1, p, record, io); }
  }

  /** Replacing a record that is found: the block, and only then the new file. */
  lemma FoundIsBlockedFirst(s: Store, p: Provider, record: Record, io: SaveIo)
    requires s.memory.ready && io.valid
    requires p in s.disk.current && s.disk.current[p].Whole? && s.disk.current[p].record.remoteId != record.remoteId
    requires Found(s.disk.current[p].record, record, io)
    ensures var (s1, blocked) := SetBlocked(s, s.memory.blocked + {p}, io.block);
            && Save(s, p, record, io).0 == (if blocked then ReplaceThenUnblock(s1, p, record, io) else s1)
            && (blocked ==> Blocks(s1.disk, p))
  {
  }

  lemma BlockedOrInPlace(s: Store, p: Provider, record: Record, io: SaveIo)
    requires Blocks(s.disk, p)
    ensures var trail := ReplaceThenUnblock(s, p, record, io).trail;
            && |s.trail| <= |trail| && (forall j | 0 <= j < |s.trail| :: trail[j] == s.trail[j])
            && forall j | |s.trail| <= j < |trail| ::
                 !Blocks(trail[j], p) ==> p in trail[j].current && trail[j].current[p] == Whole(record)
  {
    ReplaceTrail(s, p, record, io);
  }

  function ReplaceThenUnblock(s: Store, p: Provider, record: Record, io: SaveIo): Store {
    var (s', replaced) := Replace(s, p, record, io);
    if replaced then Unblock(s', p, io.unblock).0 else s'
  }

  /** Exactly when the old record is not found, and was not blocked already, it stays on offer
      while the new file is being written. */
  lemma ReplacedIdentityOfferedIff(s: Store, p: Provider, record: Record, io: SaveIo)
    requires p in s.disk.current && s.disk.current[p].Whole? && s.disk.current[p].record.remoteId != record.remoteId
    ensures var present := s.disk.current[p].record;
            StillOffered(s, p, record, io, present) <==>
              s.memory.ready && io.valid && !Found(present, record, io) && !Blocks(s.disk, p) && io.opens
  {
    var present := s.disk.current[p].record;
    var trail := Save(s.(trail := [s.disk]), p, record, io).0.trail;
    if !s.memory.ready || !io.valid {
      assert trail == [s.disk];
    } else if Found(present, record, io) {
      forall i | 0 < i < |trail|
        ensures !Offers(trail[i], p, present)
      {
        ReplacedIdentityNeverLoads(s, p, record, io, i);
      }
    } else {
      UnreadIsWritten(s, p, record, io);
      if Blocks(s.disk, p) {
        BlockedOrInPlace(s.(trail := [s.disk]), p, record, io);
      } else if io.opens {
        assert Offers(trail[1], p, present);
      }
    }
  }

  /** A save that finds no previous record goes straight to the new file. */
  lemma UnreadIsWritten(s: Store, p: Provider, record: Record, io: SaveIo)
    requires s.memory.ready && io.valid && ReadRecord(s.disk.current, p, record.owner, record.workspace, io.readsPrevious).None?
    ensures var s0 := s.(trail := [s.disk]);
            var r := Save(s0, p, record, io).0;
            && r == ReplaceThenUnblock(s0, p, record, io)
            && (io.opens ==> 1 < |r.trail| && r.trail[1].block == s.disk.block && r.trail[1].current == s.disk.current)
            && (!io.opens ==> r.trail == [s.disk])
  {
  }

  /** Replace only adds states with the same flags, and ends with the record in place. */
  lemma ReplaceTrail(s: Store, p: Provider, record: Record, io: SaveIo)
    ensures var (r, ok) := Replace(s, p, record, io);
            && |s.trail| <= |r.trail| && (forall j | 0 <= j < |s.trail| :: r.trail[j] == s.trail[j])
            && (forall j | |s.trail| <= j < |r.trail| :: r.trail[j].block == s.disk.block)
            && r.memory == s.memory && r.disk.block == s.disk.block
            && (ok ==> p in r.disk.current && r.disk.current[p] == Whole(record))
  {
  }

  /** A removal of provider p whose block takes effect but is reported failed. */
  function UnreportedRemoval(p: Provider): Event {
    Event(RemoveOp(p, RemoveIo(FlagIo(true, WrittenUnreported), true, true)), None)
  }

  /** Memory does lose track: after booting and a removal whose verification read fails, the block is
      on disk, and yet some later run without a save loads the removed profile again. */
  lemma RemovedProfileCanReappear(record: Record)
    ensures var s := Run(PoweredUp(Disk(Some(1), Some({}), map[0 := Whole(record)], map[], 0)), [MOUNT, UnreportedRemoval(0)]);
            Blocks(s.disk, 0) && exists es :: Reappears(s, 0, record, es)
  {
    var disk := Disk(Some(1), Some({}), map[0 := Whole(record)], map[], 0);
    var none: Mask := {};
    assert none + {0} == {0} && none - {0} == none;
    var s1 := Step(PoweredUp(disk), MOUNT);
    assert s1 == Store(disk, Memory(true, true, {}, {}), [disk]);
    var s2 := Step(s1, UnreportedRemoval(0));
    assert s2.disk == disk.(block := Some({0})) && s2.memory.blocked == {};
    RunOne(PoweredUp(disk), MOUNT, [UnreportedRemoval(0)]);
    RunOne(s1, UnreportedRemoval(0), []);
    BlockedRecordReappearsIff(s2, 0, record);
  }

  lemma RunOne(s: Store, e: Event, es: seq<Event>)
    ensures Run(s, [e] + es) == Run(Step(s, e), es)
  {
    assert ([e] + es)[1..] == es;
  }
}
