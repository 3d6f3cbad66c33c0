/** firmware/devices_badge/profile_store.h: the cached public profiles, their durable block mask,
    and the order of writes that makes replacing and revoking them safe against power loss. */
module ProfileStore {
  import opened Wrappers

  type Provider = p: nat | p < 3

  /** A flag byte, as the set of its one bits; bit p blocks provider p. */
  type Mask = set<nat>

  const ALL: Mask := {0, 1, 2}

  /** A profile as it is stored; `rest` is everything that no decision looks at. */
  datatype Record = Record(owner: string, workspace: string, remoteId: string, avatarUrl: string, avatar: bool, rest: string)

  /** What a file holds: a complete record with its digest, or bytes that fail the digest. */
  datatype Content = Whole(record: Record) | Broken

  /** Everything that survives power loss.  `formats` counts the formats performed so far. */
  datatype Disk = Disk(init: Option<nat>, block: Option<Mask>, current: map<Provider, Content>,
                       temporary: map<Provider, Content>, formats: nat)

  datatype Memory = Memory(attempted: bool, ready: bool, blocked: Mask, saved: Mask)

  /** `trail` lists every state the disk has been in, the present one last: a crash during an
      operation leaves one of the states the operation added. */
  datatype Store = Store(disk: Disk, memory: Memory, trail: seq<Disk>)

  const POWER_UP := Memory(false, false, ALL, {})

  /** A flag write may fail before or after taking effect, and a read may fail. */
  datatype FlagWrite = Written | WrittenUnreported | NotWritten
  datatype FlagIo = FlagIo(readable: bool, write: FlagWrite)

  function Write(s: Store, disk: Disk): Store { s.(disk := disk, trail := s.trail + [disk]) }

  /** readRecord: only a whole record of the right owner and workspace is ever returned. */
  function ReadRecord(files: map<Provider, Content>, p: Provider, owner: string, workspace: string, works: bool): Option<Record> {
    if works && p in files && files[p].Whole? && files[p].record.owner == owner && files[p].record.workspace == workspace
    then Some(files[p].record) else None
  }

  /** The durable gate.  On failure nothing is loaded any more in this boot. */
  function SetBlocked(s: Store, value: Mask, io: FlagIo): (Store, bool) {
    var changed := s.disk.block != Some(value);
    var s' := if io.readable && changed && io.write != NotWritten then Write(s, s.disk.(block := Some(value))) else s;
    if !io.readable || (changed && io.write != Written) then
      (s'.(memory := s.memory.(ready := false, saved := {})), false)
    else (s'.(memory := s.memory.(blocked := value, saved := s.memory.saved - value)), true)
  }

  datatype MountIo = MountIo(partition: bool, readsInit: bool, mounts: bool, initWrite: FlagWrite, formats: bool,
                             mountsFormatted: bool, readsBlock: bool)

  function WriteInit(s: Store, write: FlagWrite): Store {
    if write == NotWritten then s else Write(s, s.disk.(init := Some(1)))
  }

  /** Record the attempt, then erase: a format is only ever tried while the flag is missing. */
  function Format(s: Store): Store {
    Write(s, s.disk.(current := map[], temporary := map[], formats := s.disk.formats + 1))
  }

  function Ready(s: Store, io: MountIo): (Store, bool) {
    if !io.readsBlock then (s, false)
    else
      var blocked := if s.disk.block.None? then ALL else s.disk.block.value;
      var s' := s.(memory := s.memory.(blocked := blocked));
      if !(blocked <= ALL) then (s', false) else (s'.(memory := s'.memory.(ready := true)), true)
  }

  function Mount(s0: Store, io: MountIo): (Store, bool) {
    if s0.memory.attempted then (s0, s0.memory.ready)
    else
      var s := s0.(memory := s0.memory.(attempted := true));
      if !io.partition || !io.readsInit || (s.disk.init.Some? && s.disk.init.value != 1) then (s, false)
      else if !io.mounts then
        if s.disk.init.Some? then (s, false)
        else
          var s1 := WriteInit(s, io.initWrite);
          if io.initWrite != Written then (s1, false)
          else
            var s2 := Format(s1);
            if !io.formats || !io.mountsFormatted then (s2, false) else Ready(s2, io)
      else if s.disk.init.None? then
        var s1 := WriteInit(s, io.initWrite);
        if io.initWrite != Written then (s1, false) else Ready(s1, io)
      else Ready(s, io)
  }

  function Load(s: Store, p: Provider, owner: string, workspace: string, works: bool): (Store, Option<Record>) {
    if !s.memory.ready then (s, None)
    else
      var s' := s.(memory := s.memory.(saved := s.memory.saved - {p}));
      if p in s.memory.blocked then (s', None)
      else
        var record := ReadRecord(s.disk.current, p, owner, workspace, works);
        (if record.Some? then s'.(memory := s'.memory.(saved := s'.memory.saved + {p})) else s', record)
  }

  datatype Rename = Renamed | RenamedUnreported | NotRenamed

  /** `lands` is what the temporary file holds after every write, flush and close was reported
      good: it need not be the record that was written. */
  datatype SaveIo = SaveIo(valid: bool, readsPrevious: bool, block: FlagIo, opens: bool, writes: bool, lands: Content,
                           verifies: bool, rename: Rename, unblock: FlagIo)

  function RemoveTemporary(s: Store, p: Provider): Store {
    if p in s.disk.temporary then Write(s, s.disk.(temporary := s.disk.temporary - {p})) else s
  }

  /** Temporary file, read-back, atomic rename.  The old file is never deleted first. */
  function Replace(s: Store, p: Provider, record: Record, io: SaveIo): (Store, bool) {
    if !io.opens then (s, false)
    else
      var s1 := Write(s, s.disk.(temporary := s.disk.temporary[p := Broken]));
      if !io.writes then (RemoveTemporary(s1, p), false)
      else
        var s2 := Write(s1, s1.disk.(temporary := s1.disk.temporary[p := io.lands]));
        if ReadRecord(s2.disk.temporary, p, record.owner, record.workspace, io.verifies) != Some(record)
           || io.rename == NotRenamed then (RemoveTemporary(s2, p), false)
        else
          var s3 := Write(s2, s2.disk.(current := s2.disk.current[p := s2.disk.temporary[p]],
                                       temporary := s2.disk.temporary - {p}));
          (s3, io.rename == Renamed)
  }

  function Unblock(s: Store, p: Provider, io: FlagIo): (Store, bool) {
    var (s', ok) := SetBlocked(s, s.memory.blocked - {p}, io);
    if ok then (s'.(memory := s'.memory.(saved := s'.memory.saved + {p})), true) else (s', false)
  }

  /** A record that replaces another identity is blocked before anything is written, and becomes
      usable only after it is completely in place. */
  function Save(s: Store, p: Provider, record: Record, io: SaveIo): (Store, bool) {
    if !s.memory.ready || !io.valid then (s, false)
    else
      var previous := ReadRecord(s.disk.current, p, record.owner, record.workspace, io.readsPrevious);
      var changes := previous.Some? && previous.value.remoteId != record.remoteId;
      var (s1, blocked) := if changes then SetBlocked(s, s.memory.blocked + {p}, io.block) else (s, true);
      if !blocked then (s1, false)
      else if previous.Some? && previous.value.remoteId == record.remoteId && previous.value.avatarUrl == record.avatarUrl
              && previous.value.avatar && !record.avatar then (s1, false)
      else if previous == Some(record) then Unblock(s1, p, io.unblock)
      else
        var (s2, replaced) := Replace(s1, p, record, io);
        if replaced then Unblock(s2, p, io.unblock) else (s2, false)
  }

  datatype RemoveIo = RemoveIo(block: FlagIo, removesCurrent: bool, removesTemporary: bool)

  function RemoveFiles(s: Store, p: Provider, io: RemoveIo): Store {
    var s1 := if io.removesCurrent && p in s.disk.current then Write(s, s.disk.(current := s.disk.current - {p})) else s;
    if io.removesTemporary && p in s1.disk.temporary then Write(s1, s1.disk.(temporary := s1.disk.temporary - {p})) else s1
  }

  /** The durable block precedes deletion. */
  function Remove(s: Store, p: Provider, io: RemoveIo): (Store, bool) {
    var s1 := s.(memory := s.memory.(saved := s.memory.saved - {p}));
    var (s2, blocked) := SetBlocked(s1, s.memory.blocked + {p}, io.block);
    if !blocked || !s2.memory.ready then (s2, false)
    else (RemoveFiles(s2, p, io), io.removesCurrent && io.removesTemporary)
  }

  function Clear(s: Store, io: FlagIo, files: (RemoveIo, RemoveIo, RemoveIo)): (Store, bool) {
    var s1 := s.(memory := s.memory.(saved := {}));
    var (s2, blocked) := SetBlocked(s1, ALL, io);
    if !blocked || !s2.memory.ready then (s2, false)
    else
      (RemoveFiles(RemoveFiles(RemoveFiles(s2, 0, files.0), 1, files.1), 2, files.2),
       files.0.removesCurrent && files.0.removesTemporary && files.1.removesCurrent && files.1.removesTemporary
       && files.2.removesCurrent && files.2.removesTemporary)
  }

  // ---------------------------------------------------------------- the store, in place

  class ProfileCache {
    var init: Option<nat>
    var block: Option<Mask>
    var current: map<Provider, Content>
    var temporary: map<Provider, Content>
    var mountAttempted: bool
    var ready: bool
    var blockedMask: Mask
    var savedMask: Mask
    ghost var formats: nat
    ghost var trail: seq<Disk>

    ghost function State(): Store
      reads this
    {
      Store(Disk(init, block, current, temporary, formats), Memory(mountAttempted, ready, blockedMask, savedMask), trail)
    }

    constructor (disk: Disk)
      ensures State() == Store(disk, POWER_UP, [disk])
    {
      init, block, current, temporary, formats := disk.init, disk.block, disk.current, disk.temporary, disk.formats;
      mountAttempted, ready, blockedMask, savedMask := false, false, ALL, {};
      trail := [disk];
    }

    /** Every durable change is noted as a state that a crash may leave behind. */
    ghost method Note()
      modifies this`trail
      ensures trail == old(trail) + [State().disk]
    {
      trail := trail + [State().disk];
    }

    method SetBlock(value: Mask, io: FlagIo) returns (ok: bool)
      modifies this
      ensures (State(), ok) == SetBlocked(old(State()), value, io)
    {
      var changed := block != Some(value);
      var failed := !io.readable;
      if io.readable && changed {
        if io.write != NotWritten {
          block := Some(value);
          Note();
        }
        failed := io.write != Written;
      }
      if failed {
        ready, savedMask := false, {};
        return false;
      }
      blockedMask, savedMask := value, savedMask - value;
      return true;
    }

    method MountStore(io: MountIo) returns (ok: bool)
      modifies this
      ensures (State(), ok) == Mount(old(State()), io)
    {
      if mountAttempted {
        return ready;
      }
      mountAttempted := true;
      if !io.partition || !io.readsInit || (init.Some? && init.value != 1) {
        return false;
      }
      if !io.mounts && init.Some? {
        return false;
      }
      if init.None? {
        if io.initWrite != NotWritten {
          init := Some(1);
          Note();
        }
        if io.initWrite != Written {
          return false;
        }
      }
      if !io.mounts {
        current, temporary, formats := map[], map[], formats + 1;
        Note();
        if !io.formats || !io.mountsFormatted {
          return false;
        }
      }
      if !io.readsBlock {
        return false;
      }
      blockedMask := if block.None? then ALL else block.value;
      if !(blockedMask <= ALL) {
        return false;
      }
      ready := true;
      return true;
    }

    method LoadProfile(p: Provider, owner: string, workspace: string, works: bool) returns (record: Option<Record>)
      modifies this`savedMask
      ensures (State(), record) == Load(old(State()), p, owner, workspace, works)
    {
      if !ready {
        return None;
      }
      savedMask := savedMask - {p};
      if p in blockedMask {
        return None;
      }
      record := ReadRecord(current, p, owner, workspace, works);
      if record.Some? {
        savedMask := savedMask + {p};
      }
    }

    method DropTemporary(p: Provider)
      modifies this`temporary, this`trail
      ensures State() == RemoveTemporary(old(State()), p)
    {
      if p in temporary {
        temporary := temporary - {p};
        Note();
      }
    }

    method ReplaceFile(p: Provider, record: Record, io: SaveIo) returns (ok: bool)
      modifies this`current, this`temporary, this`trail
      ensures (State(), ok) == Replace(old(State()), p, record, io)
    {
      if !io.opens {
        return false;
      }
      temporary := temporary[p := Broken];
      Note();
      if !io.writes {
        DropTemporary(p);
        return false;
      }
      temporary := temporary[p := io.lands];
      Note();
      var verified := ReadRecord(temporary, p, record.owner, record.workspace, io.verifies);
      if verified != Some(record) || io.rename == NotRenamed {
        DropTemporary(p);
        return false;
      }
      current, temporary := current[p := temporary[p]], temporary - {p};
      Note();
      return io.rename == Renamed;
    }

    method SaveProfile(p: Provider, record: Record, io: SaveIo) returns (ok: bool)
      modifies this
      ensures (State(), ok) == Save(old(State()), p, record, io)
    {
      if !ready || !io.valid {
        return false;
      }
      var previous := ReadRecord(current, p, record.owner, record.workspace, io.readsPrevious);
      if previous.Some? && previous.value.remoteId != record.remoteId {
        var blocked := SetBlock(blockedMask + {p}, io.block);
        if !blocked {
          return false;
        }
      }
      if previous.Some? && previous.value.remoteId == record.remoteId && previous.value.avatarUrl == record.avatarUrl
         && previous.value.avatar && !record.avatar {
        return false;
      }
      if previous != Some(record) {
        var replaced := ReplaceFile(p, record, io);
        if !replaced {
          return false;
        }
      }
      ok := SetBlock(blockedMask - {p}, io.unblock);
      if ok {
        savedMask := savedMask + {p};
      }
    }

    method RemoveProfile(p: Provider, io: RemoveIo) returns (ok: bool)
      modifies this
      ensures (State(), ok) == Remove(old(State()), p, io)
    {
      savedMask := savedMask - {p};
      var blocked := SetBlock(blockedMask + {p}, io.block);
      if !blocked || !ready {
        return false;
      }
      DropFiles(p, io);
      return io.removesCurrent && io.removesTemporary;
    }
  
    method DropFiles(p: Provider, io: RemoveIo)
      modifies this`current, this`temporary, this`trail
      ensures State() == RemoveFiles(old(State()), p, io)
    {
      if io.removesCurrent && p in current {
        current := current - {p};
        Note();
      }
      if io.removesTemporary {
        DropTemporary(p);
      }
    }

    method ClearProfiles(io: FlagIo, files: (RemoveIo, RemoveIo, RemoveIo)) returns (ok: bool)
      modifies this
      ensures (State(), ok) == Clear(old(State()), io, files)
    {
      savedMask := {};
      var blocked := SetBlock(ALL, io);
      if !blocked || !ready {
        return false;
      }
      DropFiles(0, files.0);
      DropFiles(1, files.1);
      DropFiles(2, files.2);
      return files.0.removesCurrent && files.0.removesTemporary && files.1.removesCurrent && files.1.removesTemporary
             && files.2.removesCurrent && files.2.removesTemporary;
    }
  }
}
