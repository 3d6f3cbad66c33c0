/** What a boot does load: which records a committed save leaves available, and for how long. */
module ProfileStoreBoots {
  import opened Wrappers
  import opened ProfileStore
  import opened ProfileStoreRuns

  // ---------------------------------------------------------------- one boot

  /** The flags let provider p be loaded. */
  predicate Open(disk: Disk, p: Provider) {
    disk.init in {None, Some(1)} && disk.block.Some? && disk.block.value <= ALL && p !in disk.block.value
  }

  /** A boot in which everything works loads this record. */
  predicate Loadable(disk: Disk, p: Provider, record: Record) {
    Open(disk, p) && p in disk.current && disk.current[p] == Whole(record)
  }

  function LoadedAtBoot(disk: Disk, p: Provider, owner: string, workspace: string): Option<Record> {
    Load(Step(PoweredUp(disk), MOUNT), p, owner, workspace, true).1
  }

  lemma BootLoadsIff(disk: Disk, p: Provider, record: Record)
    ensures LoadedAtBoot(disk, p, record.owner, record.workspace) == Some(record) <==> Loadable(disk, p, record)
  {
  }

  /** The five ways a save can go. */
  lemma SaveShape(s: Store, p: Provider, record: Record, io: SaveIo)
    ensures var r := Save(s, p, record, io).0;
            var s1 := SetBlocked(s, s.memory.blocked + {p}, io.block).0;
            || r == s
            || (s.memory.ready && (r == s1 || r == ReplaceThenUnblock(s, p, record, io) || r == ReplaceThenUnblock(s1, p, record, io)
                                   || r == Unblock(s, p, io.unblock).0))
  {
  }

  // ---------------------------------------------------------------- the flags, through every write

  /** The partition was initialized and the mask is in range. */
  predicate FlagsOk(disk: Disk) { disk.init == Some(1) && disk.block.Some? && disk.block.value <= ALL }

  predicate AllFlagsOk(s: Store) {
    FlagsOk(s.disk) && s.memory.blocked <= ALL && forall i | 0 <= i < |s.trail| :: FlagsOk(s.trail[i])
  }

  lemma SetBlockedFlags(s: Store, value: Mask, io: FlagIo)
    requires AllFlagsOk(s) && value <= ALL
    ensures AllFlagsOk(SetBlocked(s, value, io).0)
  {
  }

  lemma ReplaceFlags(s: Store, p: Provider, record: Record, io: SaveIo)
    requires AllFlagsOk(s)
    ensures AllFlagsOk(Replace(s, p, record, io).0)
  {
  }

  lemma SaveFlags(s: Store, p: Provider, record: Record, io: SaveIo)
    requires AllFlagsOk(s)
    ensures AllFlagsOk(Save(s, p, record, io).0)
  {
    SetBlockedFlags(s, s.memory.blocked + {p}, io.block);
    var s1 := SetBlocked(s, s.memory.blocked + {p}, io.block).0;
    ReplaceThenUnblockFlags(s, p, record, io);
    ReplaceThenUnblockFlags(s1, p, record, io);
    SetBlockedFlags(s, s.memory.blocked - {p}, io.unblock);
    SaveShape(s, p, record, io);
  }

  lemma ReplaceThenUnblockFlags(s: Store, p: Provider, record: Record, io: SaveIo)
    requires AllFlagsOk(s)
    ensures AllFlagsOk(ReplaceThenUnblock(s, p, record, io))
  {
    ReplaceFlags(s, p, record, io);
    var s' := Replace(s, p, record, io).0;
    SetBlockedFlags(s', s'.memory.blocked - {p}, io.unblock);
  }

  lemma RemoveFilesFlags(s: Store, p: Provider, io: RemoveIo)
    requires AllFlagsOk(s)
    ensures AllFlagsOk(RemoveFiles(s, p, io))
  {
  }

  lemma ApplyFlags(s: Store, op: Op)
    requires AllFlagsOk(s)
    ensures AllFlagsOk(Apply(s, op))
  {
    match op
    case SaveOp(p, record, io) => SaveFlags(s, p, record, io);
    case RemoveOp(p, io) =>
      var s1 := s.(memory := s.memory.(saved := s.memory.saved - {p}));
      SetBlockedFlags(s1, s.memory.blocked + {p}, io.block);
      RemoveFilesFlags(SetBlocked(s1, s.memory.blocked + {p}, io.block).0, p, io);
    case ClearOp(io, files) =>
      var s1 := s.(memory := s.memory.(saved := {}));
      SetBlockedFlags(s1, ALL, io);
      var s2 := SetBlocked(s1, ALL, io).0;
      RemoveFilesFlags(s2, 0, files.0);
      RemoveFilesFlags(RemoveFiles(s2, 0, files.0), 1, files.1);
      RemoveFilesFlags(RemoveFiles(RemoveFiles(s2, 0, files.0), 1, files.1), 2, files.2);
    case _ =>
  }

  // ---------------------------------------------------------------- committing a save

  /** The record of p is committed: a boot loads it, and so does the store once it is ready. */
  predicate Committed(s: Store, p: Provider, record: Record) {
    && FlagsOk(s.disk) && s.memory.blocked <= ALL && !Blocks(s.disk, p)
    && p in s.disk.current && s.disk.current[p] == Whole(record)
    && (s.memory.ready ==> p !in s.memory.blocked)
  }

  /** A store is only ready after a mount that found its flags in order. */
  predicate Sane(s: Store) { s.memory.ready ==> s.memory.attempted && s.disk.init == Some(1) && s.memory.blocked <= ALL }

  lemma UnblockCommits(s: Store, p: Provider, record: Record, io: FlagIo)
    requires s.disk.init == Some(1) && s.memory.blocked <= ALL && p in s.disk.current && s.disk.current[p] == Whole(record)
    requires Unblock(s, p, io).1
    ensures Committed(Unblock(s, p, io).0, p, record)
  {
  }

  lemma ReplaceKeepsInit(s: Store, p: Provider, record: Record, io: SaveIo)
    ensures Replace(s, p, record, io).0.disk.init == s.disk.init
  {
  }

  /** A save that reports success has committed its record. */
  lemma SaveCommits(s: Store, p: Provider, record: Record, io: SaveIo)
    requires Sane(s) && Save(s, p, record, io).1
    ensures Committed(Save(s, p, record, io).0, p, record)
  {
    var previous := ReadRecord(s.disk.current, p, record.owner, record.workspace, io.readsPrevious);
    var changes := previous.Some? && previous.value.remoteId != record.remoteId;
    var s1 := if changes then SetBlocked(s, s.memory.blocked + {p}, io.block).0 else s;
    if previous == Some(record) {
      UnblockCommits(s1, p, record, io.unblock);
    } else {
      ReplaceTrail(s1, p, record, io);
      ReplaceKeepsInit(s1, p, record, io);
      UnblockCommits(Replace(s1, p, record, io).0, p, record, io.unblock);
    }
  }

  /** Only a mount makes the store ready, and the mask stays in range. */
  predicate MaskFrom(s: Store, s': Store) {
    && s'.memory.attempted == s.memory.attempted
    && (s'.memory.ready ==> s.memory.ready && (s.memory.blocked <= ALL ==> s'.memory.blocked <= ALL))
  }

  lemma ReplaceThenUnblockMask(s: Store, p: Provider, record: Record, io: SaveIo)
    ensures MaskFrom(s, ReplaceThenUnblock(s, p, record, io))
  {
    ReplaceTrail(s, p, record, io);
  }

  lemma RemoveMask(s: Store, p: Provider, io: RemoveIo)
    ensures MaskFrom(s, Remove(s, p, io).0)
  {
    RemoveFilesMemory(SetBlocked(s.(memory := s.memory.(saved := s.memory.saved - {p})), s.memory.blocked + {p}, io.block).0, p, io);
  }

  lemma ClearMask(s: Store, io: FlagIo, files: (RemoveIo, RemoveIo, RemoveIo))
    ensures MaskFrom(s, Clear(s, io, files).0)
  {
    var s2 := SetBlocked(s.(memory := s.memory.(saved := {})), ALL, io).0;
    RemoveFilesMemory(s2, 0, files.0);
    RemoveFilesMemory(RemoveFiles(s2, 0, files.0), 1, files.1);
    RemoveFilesMemory(RemoveFiles(RemoveFiles(s2, 0, files.0), 1, files.1), 2, files.2);
  }

  lemma SetBlockedMask(s: Store, value: Mask, io: FlagIo)
    requires s.memory.blocked <= ALL ==> value <= ALL
    ensures MaskFrom(s, SetBlocked(s, value, io).0)
  {
  }

  lemma MaskThrough(s: Store, s1: Store, s2: Store)
    requires MaskFrom(s, s1) && MaskFrom(s1, s2)
    ensures MaskFrom(s, s2)
  {
  }

  lemma SaveMask(s: Store, p: Provider, record: Record, io: SaveIo)
    ensures MaskFrom(s, Save(s, p, record, io).0)
  {
    var s1 := SetBlocked(s, s.memory.blocked + {p}, io.block).0;
    SetBlockedMask(s, s.memory.blocked + {p}, io.block);
    ReplaceThenUnblockMask(s, p, record, io);
    ReplaceThenUnblockMask(s1, p, record, io);
    MaskThrough(s, s1, ReplaceThenUnblock(s1, p, record, io));
    UnblockMask(s, p, io.unblock);
    SaveShape(s, p, record, io);
  }

  lemma UnblockMask(s: Store, p: Provider, io: FlagIo)
    ensures MaskFrom(s, Unblock(s, p, io).0)
  {
  }

  lemma MountSane(s: Store, io: MountIo)
    requires Sane(s)
    ensures Sane(Mount(s, io).0)
  {
  }

  lemma ApplySane(s: Store, op: Op)
    requires Sane(s) && s.trail == [s.disk]
    ensures Sane(Apply(s, op))
  {
    CompletionIsClean(s, op);
    assert FormatOk(op, s.disk, Apply(s, op).disk);
    match op
    case MountOp(io) => MountSane(s, io);
    case LoadOp(_, _, _, _) =>
    case SaveOp(p, record, io) => SaveMask(s, p, record, io);
    case RemoveOp(p, io) => RemoveMask(s, p, io);
    case ClearOp(io, files) => ClearMask(s, io, files);
  }

  lemma StepSane(s: Store, e: Event)
    requires Sane(s)
    ensures Sane(Step(s, e))
  {
    ApplySane(s.(trail := [s.disk]), e.op);
    StepIs(s, e);
  }

  lemma {:induction false} RunSane(s: Store, es: seq<Event>)
    requires Sane(s)
    ensures Sane(Run(s, es))
    decreases |es|
  {
    if |es| > 0 {
      StepSane(s, es[0]);
      RunSane(Step(s, es[0]), es[1..]);
    }
  }

  /** In every run, a record whose save reported success is loaded by the next boot. */
  lemma SavedRecordIsLoaded(disk: Disk, es: seq<Event>, p: Provider, record: Record, io: SaveIo)
    requires Save(Run(PoweredUp(disk), es), p, record, io).1
    ensures var s := Save(Run(PoweredUp(disk), es), p, record, io).0;
            && LoadedAtBoot(s.disk, p, record.owner, record.workspace) == Some(record)
            && Committed(s, p, record)
  {
    RunSane(PoweredUp(disk), es);
    var s := Save(Run(PoweredUp(disk), es), p, record, io).0;
    SaveCommits(Run(PoweredUp(disk), es), p, record, io);
    BootLoadsIff(s.disk, p, record);
  }

  // ---------------------------------------------------------------- saving over a committed record

  /** Power lost at any step of a save: the next boot loads the old record or the new one.  Only while
      another identity is being replaced may it load neither, the provider being blocked then. */
  lemma InterruptedSaveLoadsOldOrNew(s: Store, p: Provider, present: Record, record: Record, io: SaveIo, i: nat)
    requires Committed(s, p, present) && i < |Save(s.(trail := [s.disk]), p, record, io).0.trail|
    ensures var disk := Save(s.(trail := [s.disk]), p, record, io).0.trail[i];
            || LoadedAtBoot(disk, p, present.owner, present.workspace) == Some(present)
            || LoadedAtBoot(disk, p, record.owner, record.workspace) == Some(record)
            || (Blocks(disk, p) && Found(present, record, io) && present.remoteId != record.remoteId)
  {
    var s0 := s.(trail := [s.disk]);
    var disk := Save(s0, p, record, io).0.trail[i];
    SaveFlags(s0, p, record, io);
    var op := SaveOp(p, record, io);
    EveryInterruptionIsClean(s, op, i);
    assert FileOk(op, p, s.disk, disk);
    BootLoadsIff(disk, p, present);
    BootLoadsIff(disk, p, record);
    if !(Found(present, record, io) && present.remoteId != record.remoteId) {
      UnchangedIdentityStaysOpen(s0, p, present, record, io);
    }
  }

  predicate AllUnblocked(s: Store, p: Provider) {
    !Blocks(s.disk, p) && forall i | 0 <= i < |s.trail| :: !Blocks(s.trail[i], p)
  }

  lemma SetBlockedUnblocked(s: Store, value: Mask, io: FlagIo, p: Provider)
    requires AllUnblocked(s, p) && (p !in value || !io.readable || (s.disk.block != Some(value) && io.write == NotWritten))
    ensures AllUnblocked(SetBlocked(s, value, io).0, p)
  {
  }

  lemma ReplaceThenUnblockUnblocked(s: Store, q: Provider, record: Record, io: SaveIo, p: Provider)
    requires AllUnblocked(s, p) && p !in s.memory.blocked
    ensures AllUnblocked(ReplaceThenUnblock(s, q, record, io), p)
    ensures p !in ReplaceThenUnblock(s, q, record, io).memory.blocked
  {
    ReplaceTrail(s, q, record, io);
    SetBlockedUnblocked(Replace(s, q, record, io).0, s.memory.blocked - {q}, io.unblock, p);
  }

  lemma UnchangedIdentityStaysOpen(s: Store, p: Provider, present: Record, record: Record, io: SaveIo)
    requires Committed(s, p, present) && s.trail == [s.disk] && !(Found(present, record, io) && present.remoteId != record.remoteId)
    ensures AllUnblocked(Save(s, p, record, io).0, p)
  {
    if s.memory.ready && io.valid {
      ReplaceThenUnblockUnblocked(s, p, record, io, p);
      SetBlockedUnblocked(s, s.memory.blocked - {p}, io.unblock, p);
    }
  }

  // ---------------------------------------------------------------- how long a record stays

  predicate Leaves(op: Op, p: Provider) { !Saves(op, p) && !Removes(op, p) }

  /** A removal of another provider writes a mask that has p, because memory takes p for blocked. */
  predicate StaleRemoval(s: Store, e: Event, p: Provider) {
    && e.op.RemoveOp? && p in s.memory.blocked
    && e.op.removeIo.block.readable && e.op.removeIo.block.write != NotWritten && e.cut != Some(0)
  }

  lemma RemoveFilesUnblocked(s: Store, q: Provider, io: RemoveIo, p: Provider)
    requires AllUnblocked(s, p)
    ensures AllUnblocked(RemoveFiles(s, q, io), p)
  {
  }

  lemma RemoveUnblocked(s: Store, q: Provider, io: RemoveIo, p: Provider)
    requires AllUnblocked(s, p) && p != q
    requires p in s.memory.blocked ==> !io.block.readable || io.block.write == NotWritten
    ensures AllUnblocked(Remove(s, q, io).0, p)
    ensures Remove(s, q, io).0.memory.ready && (s.memory.ready ==> p !in s.memory.blocked) ==> p !in Remove(s, q, io).0.memory.blocked
  {
    var s1 := s.(memory := s.memory.(saved := s.memory.saved - {q}));
    SetBlockedUnblocked(s1, s.memory.blocked + {q}, io.block, p);
    var s2 := SetBlocked(s1, s.memory.blocked + {q}, io.block).0;
    RemoveFilesUnblocked(s2, q, io, p);
    RemoveFilesMemory(s2, q, io);
  }

  lemma SaveUnblocked(s: Store, q: Provider, record: Record, io: SaveIo, p: Provider)
    requires AllUnblocked(s, p) && p != q && (s.memory.ready ==> p !in s.memory.blocked)
    ensures AllUnblocked(Save(s, q, record, io).0, p)
    ensures Save(s, q, record, io).0.memory.ready ==> p !in Save(s, q, record, io).0.memory.blocked
  {
    if s.memory.ready {
      var s1 := SetBlocked(s, s.memory.blocked + {q}, io.block).0;
      SetBlockedUnblocked(s, s.memory.blocked + {q}, io.block, p);
      ReplaceThenUnblockUnblocked(s, q, record, io, p);
      ReplaceThenUnblockUnblocked(s1, q, record, io, p);
      SetBlockedUnblocked(s, s.memory.blocked - {q}, io.unblock, p);
    }
    SaveShape(s, q, record, io);
  }

  lemma ApplyUnblocked(s: Store, op: Op, p: Provider)
    requires AllUnblocked(s, p) && FlagsOk(s.disk) && Leaves(op, p) && (s.memory.ready ==> p !in s.memory.blocked)
    requires op.RemoveOp? && p in s.memory.blocked ==> !op.removeIo.block.readable || op.removeIo.block.write == NotWritten
    ensures AllUnblocked(Apply(s, op), p)
    ensures Apply(s, op).memory.ready ==> p !in Apply(s, op).memory.blocked
  {
    match op
    case SaveOp(q, record, io) => SaveUnblocked(s, q, record, io, p);
    case RemoveOp(q, io) => RemoveUnblocked(s, q, io, p);
    case _ =>
  }

  lemma CommittedStays(s: Store, e: Event, p: Provider, record: Record)
    requires Committed(s, p, record) && Leaves(e.op, p) && !StaleRemoval(s, e, p)
    ensures Committed(Step(s, e), p, record)
  {
    var s0 := s.(trail := [s.disk]);
    StepBetween(s, e);
    assert FileOk(e.op, p, s.disk, Step(s, e).disk);
    if e.cut != Some(0) {
      ApplyFlags(s0, e.op);
      ApplyUnblocked(s0, e.op, p);
    } else {
      ApplyStarts(s0, e.op);
    }
  }

  /** Operations only add to the trail. */
  predicate Starts(s: Store, s': Store) { 0 < |s.trail| && 0 < |s'.trail| && s'.trail[0] == s.trail[0] }

  lemma ReplaceThenUnblockStarts(s: Store, p: Provider, record: Record, io: SaveIo)
    requires 0 < |s.trail|
    ensures Starts(s, ReplaceThenUnblock(s, p, record, io))
  {
    ReplaceTrail(s, p, record, io);
  }

  lemma SaveStarts(s: Store, p: Provider, record: Record, io: SaveIo)
    requires 0 < |s.trail|
    ensures Starts(s, Save(s, p, record, io).0)
  {
    SaveShape(s, p, record, io);
    ReplaceThenUnblockStarts(s, p, record, io);
    ReplaceThenUnblockStarts(SetBlocked(s, s.memory.blocked + {p}, io.block).0, p, record, io);
  }

  lemma RemoveFilesStarts(s: Store, p: Provider, io: RemoveIo)
    requires 0 < |s.trail|
    ensures Starts(s, RemoveFiles(s, p, io))
  {
  }

  /** The first state of an operation is the one it found. */
  lemma ApplyStarts(s: Store, op: Op)
    requires |s.trail| == 1 && !op.ClearOp?
    ensures Starts(s, Apply(s, op))
  {
    match op
    case SaveOp(p, record, io) => SaveStarts(s, p, record, io);
    case RemoveOp(p, io) =>
      var s1 := SetBlocked(s.(memory := s.memory.(saved := s.memory.saved - {p})), s.memory.blocked + {p}, io.block).0;
      RemoveFilesStarts(s1, p, io);
    case _ =>
  }

  lemma StaleRemovalBlocks(s: Store, e: Event, p: Provider)
    requires !Blocks(s.disk, p) && StaleRemoval(s, e, p)
    ensures Known(Step(s, e), p)
  {
  }

  /** No removal of another provider runs while memory takes p for blocked. */
  predicate NoStaleRemoval(s: Store, p: Provider, es: seq<Event>)
    decreases |es|
  {
    |es| > 0 ==> !StaleRemoval(s, es[0], p) && NoStaleRemoval(Step(s, es[0]), p, es[1..])
  }

  predicate AllLeave(es: seq<Event>, p: Provider) { forall i | 0 <= i < |es| :: Leaves(es[i].op, p) }

  lemma {:induction false} KnownStays(s: Store, p: Provider, es: seq<Event>)
    requires Known(s, p) && AllLeave(es, p)
    ensures Known(Run(s, es), p)
    decreases |es|
  {
    if |es| > 0 {
      StepKnown(s, es[0], p);
      KnownStays(Step(s, es[0]), p, es[1..]);
    }
  }

  lemma {:induction false} RunCommitted(s: Store, p: Provider, record: Record, es: seq<Event>)
    requires Committed(s, p, record) && AllLeave(es, p)
    ensures if NoStaleRemoval(s, p, es) then Committed(Run(s, es), p, record) else Blocks(Run(s, es).disk, p)
    decreases |es|
  {
    if |es| > 0 {
      if StaleRemoval(s, es[0], p) {
        StaleRemovalBlocks(s, es[0], p);
        KnownStays(Step(s, es[0]), p, es[1..]);
      } else {
        CommittedStays(s, es[0], p, record);
        RunCommitted(Step(s, es[0]), p, record, es[1..]);
      }
    }
  }

  /** Over every run of boots, failures, interruptions and work on the other providers: the committed
      record is what a boot loads if and only if no removal of another provider took effect while
      memory took p for blocked, and until then a ready store loads it too. */
  lemma CommittedRecordStaysIff(s: Store, p: Provider, record: Record, es: seq<Event>)
    requires Committed(s, p, record) && AllLeave(es, p)
    ensures var s' := Run(s, es);
            && (LoadedAtBoot(s'.disk, p, record.owner, record.workspace) == Some(record) <==> NoStaleRemoval(s, p, es))
            && (NoStaleRemoval(s, p, es) && s'.memory.ready ==> Load(s', p, record.owner, record.workspace, true).1 == Some(record))
  {
    RunCommitted(s, p, record, es);
    BootLoadsIff(Run(s, es).disk, p, record);
  }

  /** The mask is not read on one boot, and the removal of provider 1 then writes the power-up mask:
      after the next good boot the record of provider 0 does not load any more. */
  lemma CommittedRecordCanBeLost(record: Record)
    ensures var s := PoweredUp(Disk(Some(1), Some({}), map[0 := Whole(record)], map[], 0));
            var boot := Event(MountOp(MountIo(true, true, true, Written, true, true, false)), None);
            var remove := Event(RemoveOp(1, RemoveIo(FLAG_OK, true, true)), None);
            && Committed(s, 0, record)
            && LoadedAtBoot(Run(s, [boot, remove]).disk, 0, record.owner, record.workspace) == None
  {
    var s := PoweredUp(Disk(Some(1), Some({}), map[0 := Whole(record)], map[], 0));
    var boot := Event(MountOp(MountIo(true, true, true, Written, true, true, false)), None);
    var remove := Event(RemoveOp(1, RemoveIo(FLAG_OK, true, true)), None);
    var s1 := Step(s, boot);
    RunOne(s, boot, [remove]);
    RunOne(s1, remove, []);
    assert StaleRemoval(s1, remove, 0);
    StaleRemovalBlocks(s1, remove, 0);
  }
}
