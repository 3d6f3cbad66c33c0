/** firmware/devices_badge/voice_recorder.h: one audio buffer passed between the main task and the
    microphone worker.  Each task is a sequence of single accesses to a shared atomic; a run is any
    interleaving of the two. */
module VoiceRecorder {
  import opened Wrappers

  const MAX_SAMPLES := 480_000
  const CHUNK_SAMPLES := 800
  const WAV_HEADER_BYTES := 44
  const MAX_CHUNKS := MAX_SAMPLES / CHUNK_SAMPLES
  const MAX_WAV_BYTES := WAV_HEADER_BYTES + MAX_SAMPLES * 2

  const NO_MEMORY := 2
  const MIC_START_FAILED := 3
  const MIC_RECORD_FAILED := 4
  const MIC_TIMED_OUT := 5
  const NO_AUDIO := 6

  datatype State = IDLE | QUEUED | CAPTURING | READY | CLAIMED | DISCARDING | FAILED

  /** Where the main task is inside start, stop, cancel or take. */
  datatype MainPc = AtRest | InStart(start: StartPc) | InStop(stop: StopPc) | InCancel(cancel: CancelPc) | InTake(take: TakePc)
  datatype StartPc = LoadIdle | ClearCancel | ClearStop | Queue | Notify
  datatype StopPc = LoadBusy | LoadCancel | SetStop
  datatype CancelPc = LoadState | LeaveFailed | FlagCancel | FlagStop | Wake
  datatype TakePc = LoadFlag | Claim | Read | Release

  /** Where the worker is: between captures, accepting one, opening the microphone, capturing (with the
      number of whole chunks so far), failing, or throwing audio away. */
  datatype WorkerPc =
    | Free(free: FreePc) | Begin | Open(open: OpenPc) | Capture(capture: CapturePc) | Fail(code: nat) | Discard(discard: DiscardPc)
  datatype FreePc = Waiting | Woken | CheckReady | CheckLate | ClaimLate
  datatype OpenPc = CheckCancel | CheckStop | Allocate | CheckCancelAgain | OpenMicrophone
  datatype CapturePc =
    Record(chunks: nat) | Listen(chunks: nat) | Close(chunks: nat, failure: nat) | Judge(chunks: nat, failure: nat) | Publish(chunks: nat)
  datatype DiscardPc = FailWipe(code: nat) | FailLoad(code: nat) | FailStore(idle: bool) | LateWipe | LateStore

  /** The buffers ever allocated are numbered; each is in memory, wiped and freed, or handed out. */
  datatype Audio = Audio(buffer: Option<nat>, bytes: nat, made: nat, freed: set<nat>, handed: set<nat>)

  /** `revoked` is a history bit: true from the return of a cancel to the next accepted start. */
  datatype Recorder = Recorder(
    state: State, cancel: bool, stop: bool, notified: bool, error: nat,
    main: MainPc, worker: WorkerPc, audio: Audio, revoked: bool)

  datatype MainCall = Start | Stop | Cancel | Take
  datatype Chunk = Recorded | Refused | Silent
  datatype Event = Call(call: MainCall) | MainStep | WorkerStep(memory: bool, microphone: bool, chunk: Chunk)

  const INITIAL :=
    Recorder(IDLE, false, false, false, 0, AtRest, Free(Waiting), Audio(None, 0, 0, {}, {}), false)

  function Enter(call: MainCall): MainPc {
    match call
    case Start => InStart(LoadIdle)
    case Stop => InStop(LoadBusy)
    case Cancel => InCancel(LoadState)
    case Take => InTake(LoadFlag)
  }

  function Allocated(a: Audio): Audio {
    a.(buffer := Some(a.made), made := a.made + 1)
  }

  /** discardBuffer wipes and frees the buffer if there is one. */
  function Discarded(a: Audio): Audio {
    a.(freed := if a.buffer.Some? then a.freed + {a.buffer.value} else a.freed, buffer := None, bytes := 0)
  }

  function Taken(a: Audio): Audio {
    a.(handed := if a.buffer.Some? then a.handed + {a.buffer.value} else a.handed, buffer := None, bytes := 0)
  }

  function StartNext(r: Recorder, pc: StartPc): Recorder {
    match pc
    case LoadIdle => r.(main := if r.state == IDLE || r.state == FAILED then InStart(ClearCancel) else AtRest)
    case ClearCancel => r.(cancel := false, main := InStart(ClearStop))
    case ClearStop => r.(stop := false, error := 0, main := InStart(Queue))
    case Queue => r.(state := QUEUED, revoked := false, main := InStart(Notify))
    case Notify => r.(notified := true, main := AtRest)
  }

  function StopNext(r: Recorder, pc: StopPc): Recorder {
    match pc
    case LoadBusy =>
      r.(main := if r.state == QUEUED || r.state == CAPTURING || r.state == DISCARDING then InStop(SetStop)
                 else if r.state == READY then InStop(LoadCancel) else AtRest)
    case LoadCancel => r.(main := if r.cancel then InStop(SetStop) else AtRest)
    case SetStop => r.(stop := true, main := AtRest)
  }

  function CancelNext(r: Recorder, pc: CancelPc): Recorder {
    match pc
    case LoadState =>
      if r.state == IDLE then r.(revoked := true, main := AtRest)
      else r.(main := InCancel(if r.state == FAILED then LeaveFailed else FlagCancel))
    case LeaveFailed => r.(state := IDLE, error := 0, revoked := true, main := AtRest)
    case FlagCancel => r.(cancel := true, main := InCancel(FlagStop))
    case FlagStop => r.(stop := true, main := InCancel(Wake))
    case Wake => r.(notified := true, revoked := true, main := AtRest)
  }

  function TakeNext(r: Recorder, pc: TakePc): Recorder {
    match pc
    case LoadFlag => r.(main := if r.cancel then AtRest else InTake(Claim))
    case Claim => if r.state == READY then r.(state := CLAIMED, main := InTake(Read)) else r.(main := AtRest)
    case Read => r.(audio := Taken(r.audio), main := InTake(Release))
    case Release => r.(state := IDLE, main := AtRest)
  }

  function MainNext(r: Recorder): Recorder {
    match r.main
    case AtRest => r
    case InStart(pc) => StartNext(r, pc)
    case InStop(pc) => StopNext(r, pc)
    case InCancel(pc) => CancelNext(r, pc)
    case InTake(pc) => TakeNext(r, pc)
  }

  /** The worker loop outside capture: a notification starts a capture, and a result that was
      cancelled while it was being published is claimed back. */
  function FreeNext(r: Recorder, pc: FreePc): Recorder {
    match pc
    case Waiting => if r.notified then r.(notified := false, worker := Free(Woken)) else r
    case Woken => r.(worker := if r.state == QUEUED then Begin else Free(CheckReady))
    case CheckReady => r.(worker := Free(if r.state == READY then CheckLate else Waiting))
    case CheckLate => r.(worker := Free(if r.cancel then ClaimLate else Waiting))
    case ClaimLate =>
      if r.state == READY then r.(state := DISCARDING, worker := Discard(LateWipe)) else r.(worker := Free(Waiting))
  }

  function OpenNext(r: Recorder, pc: OpenPc, memory: bool, microphone: bool): Recorder {
    match pc
    case CheckCancel => r.(worker := if r.cancel then Fail(0) else Open(CheckStop))
    case CheckStop => r.(worker := if r.stop then Fail(NO_AUDIO) else Open(Allocate))
    case Allocate =>
      if memory then r.(audio := Allocated(r.audio), worker := Open(CheckCancelAgain))
      else r.(worker := Fail(NO_MEMORY))
    case CheckCancelAgain => r.(worker := if r.cancel then Fail(0) else Open(OpenMicrophone))
    case OpenMicrophone => r.(worker := if microphone then Capture(Record(0)) else Fail(MIC_START_FAILED))
  }

  /** The guard of the capture loop and the request for the next chunk.  The guard's loads of the two
      flags are one step: cancel sets its flag before the stop flag, so whatever the two loads can see
      apart they can see together. */
  function Recording(r: Recorder, chunks: nat, chunk: Chunk): CapturePc {
    if chunks < MAX_CHUNKS && !r.stop && !r.cancel then
      if chunk == Refused then Close(chunks, MIC_RECORD_FAILED) else Listen(chunks)
    else Close(chunks, 0)
  }

  /** The wait for one chunk: it arrives whole, a cancel ends the wait, or silence times out. */
  function Listened(r: Recorder, chunks: nat, chunk: Chunk): CapturePc {
    if chunk == Recorded then Record(chunks + 1)
    else if r.cancel then Record(chunks)
    else Close(chunks, MIC_TIMED_OUT)
  }

  function WavBytes(chunks: nat): nat { WAV_HEADER_BYTES + chunks * CHUNK_SAMPLES * 2 }

  function Judged(r: Recorder, chunks: nat, failure: nat): Recorder {
    if failure != 0 then r.(worker := Fail(failure))
    else if chunks == 0 then r.(worker := Fail(NO_AUDIO))
    else r.(audio := r.audio.(bytes := WavBytes(chunks)), error := 0, worker := Capture(Publish(chunks)))
  }

  function CaptureNext(r: Recorder, pc: CapturePc, chunk: Chunk): Recorder {
    match pc
    case Record(chunks) => r.(worker := Capture(Recording(r, chunks, chunk)))
    case Listen(chunks) => r.(worker := Capture(Listened(r, chunks, chunk)))
    case Close(chunks, failure) => r.(worker := if r.cancel then Fail(0) else Capture(Judge(chunks, failure)))
    case Judge(chunks, failure) => Judged(r, chunks, failure)
    case Publish(_) => r.(state := READY, worker := Free(CheckReady))
  }

  function DiscardNext(r: Recorder, pc: DiscardPc): Recorder {
    match pc
    case FailWipe(code) => r.(audio := Discarded(r.audio), worker := Discard(FailLoad(code)))
    case FailLoad(code) => r.(error := if r.cancel then 0 else code, worker := Discard(FailStore(r.cancel)))
    case FailStore(idle) => r.(state := if idle then IDLE else FAILED, worker := Free(CheckReady))
    case LateWipe => r.(audio := Discarded(r.audio), error := 0, worker := Discard(LateStore))
    case LateStore => r.(state := IDLE, worker := Free(Waiting))
  }

  function WorkerNext(r: Recorder, memory: bool, microphone: bool, chunk: Chunk): Recorder {
    match r.worker
    case Free(pc) => FreeNext(r, pc)
    case Begin => r.(state := CAPTURING, worker := Open(CheckCancel))
    case Open(pc) => OpenNext(r, pc, memory, microphone)
    case Capture(pc) => CaptureNext(r, pc, chunk)
    case Fail(code) => r.(state := DISCARDING, worker := Discard(FailWipe(code)))
    case Discard(pc) => DiscardNext(r, pc)
  }

  function Next(r: Recorder, e: Event): Recorder {
    match e
    case Call(call) => if r.main == AtRest then r.(main := Enter(call)) else r
    case MainStep => MainNext(r)
    case WorkerStep(memory, microphone, chunk) => WorkerNext(r, memory, microphone, chunk)
  }

  function Run(r: Recorder, es: seq<Event>): Recorder
    decreases |es|
  {
    if |es| == 0 then r else Run(Next(r, es[0]), es[1..])
  }

  // ---------------------------------------------------------------- the invariant

  predicate HoldsBuffer(w: WorkerPc) {
    w.Capture? || w == Open(CheckCancelAgain) || w == Open(OpenMicrophone) || w == Discard(LateWipe)
  }

  predicate MayHoldBuffer(w: WorkerPc) {
    HoldsBuffer(w) || w.Fail? || (w.Discard? && w.discard.FailWipe?)
  }

  /** A recording in progress is within the allocation, and a published one is not empty. */
  predicate ChunksOk(pc: CapturePc) {
    && pc.chunks <= MAX_CHUNKS
    && (pc.Listen? ==> pc.chunks < MAX_CHUNKS)
    && (pc.Publish? ==> 0 < pc.chunks)
  }

  /** The state word says which task may write it next. */
  predicate StateOk(r: Recorder) {
    && (r.state == CAPTURING <==> r.worker.Open? || r.worker.Capture? || r.worker.Fail?)
    && (r.state == DISCARDING <==> r.worker.Discard?)
    && (r.worker.Begin? ==> r.state == QUEUED)
    && (r.main.InStart? && r.main.start != LoadIdle && r.main.start != Notify ==> r.state == IDLE || r.state == FAILED)
    && (r.main == InCancel(LeaveFailed) ==> r.state == FAILED)
    && (r.state == CLAIMED <==> r.main == InTake(Read) || r.main == InTake(Release))
  }

  /** The buffer exists exactly while one of its three owners has it. */
  predicate BufferOk(r: Recorder) {
    && (HoldsBuffer(r.worker) || r.state == READY || r.main == InTake(Read) ==> r.audio.buffer.Some?)
    && (r.audio.buffer.Some? ==> MayHoldBuffer(r.worker) || r.state == READY || r.main == InTake(Read))
  }

  predicate BytesOk(r: Recorder) {
    && (r.worker.Capture? ==> ChunksOk(r.worker.capture))
    && (r.worker.Capture? && r.worker.capture.Publish? ==>
          r.audio.bytes == WavBytes(r.worker.capture.chunks))
    && (r.state == READY || r.main == InTake(Read) ==> WAV_HEADER_BYTES < r.audio.bytes <= MAX_WAV_BYTES)
  }

  /** Every buffer ever allocated is in exactly one place. */
  ghost predicate Accounted(a: Audio) {
    && a.freed !! a.handed
    && (a.buffer.Some? ==> a.buffer.value < a.made && a.buffer.value !in a.freed + a.handed)
    && (forall b: nat | b < a.made :: b in a.freed || b in a.handed || a.buffer == Some(b))
    && (forall b | b in a.freed + a.handed :: b < a.made)
  }

  /** A cancelled capture can no longer be claimed. */
  predicate RevocationOk(r: Recorder) {
    && (r.revoked ==> r.cancel || r.state == IDLE || r.state == FAILED)
    && (r.main == InCancel(FlagStop) || r.main == InCancel(Wake) ==> r.cancel)
    && (r.main == InCancel(Wake) ==> r.stop)
    && (r.main == InTake(Claim) ==> !r.cancel)
    && (r.main == InStart(ClearStop) || r.main == InStart(Queue) ==> !r.cancel)
    && (r.worker == Free(ClaimLate) && r.state == READY ==> r.cancel)
    && (r.worker == Discard(LateWipe) || r.worker == Discard(LateStore) ==> r.cancel)
  }

  /** No wake-up is lost: work for the worker is announced, or about to be, or being looked at. */
  predicate WakeOk(r: Recorder) {
    && (r.state == QUEUED ==>
          r.main == InStart(Notify) || r.notified || r.worker == Free(Woken) || r.worker == Begin)
    && (r.state == READY && r.cancel ==>
          || r.main == InCancel(FlagStop) || r.main == InCancel(Wake) || r.notified
          || (r.worker.Free? && r.worker.free != Waiting))
  }

  /** Only a failure carries an error code, and a failure always does. */
  predicate ErrorOk(r: Recorder) {
    && (r.state == FAILED && r.main != InStart(Queue) ==> r.error != 0)
    && (r.state == READY ==> r.error == 0)
    && (r.worker.Capture? && r.worker.capture.Publish? ==> r.error == 0)
    && (r.worker.Fail? ==> r.worker.code != 0 || r.cancel)
    && (r.worker.Discard? ==>
          match r.worker.discard
          case FailWipe(code) => code != 0 || r.cancel
          case FailLoad(code) => code != 0 || r.cancel
          case FailStore(idle) => idle || r.error != 0
          case _ => true)
  }

  /** The buffer and its size. */
  predicate HeldOk(r: Recorder) { BufferOk(r) && BytesOk(r) }

  predicate Owned(r: Recorder) { StateOk(r) && HeldOk(r) }

  /** What the flags and the error code say. */
  predicate Flagged(r: Recorder) { RevocationOk(r) && WakeOk(r) && ErrorOk(r) }

  ghost predicate Inv(r: Recorder) {
    Owned(r) && Flagged(r) && Accounted(r.audio)
  }

  // ---------------------------------------------------------------- each step keeps it

  lemma StartKeepsState(r: Recorder)
    requires StateOk(r) && r.main.InStart?
    ensures StateOk(StartNext(r, r.main.start))
  {
  }

  lemma StartKeepsBuffer(r: Recorder)
    requires Owned(r) && r.main.InStart?
    ensures HeldOk(StartNext(r, r.main.start))
  {
  }

  lemma StartKeepsFlags(r: Recorder)
    requires Owned(r) && Flagged(r) && r.main.InStart?
    ensures Flagged(StartNext(r, r.main.start))
  {
  }

  lemma StopKeepsState(r: Recorder)
    requires StateOk(r) && r.main.InStop?
    ensures StateOk(StopNext(r, r.main.stop))
  {
    match r.main.stop
    case LoadBusy => case LoadCancel => case SetStop =>
  }

  lemma StopKeepsBuffer(r: Recorder)
    requires Owned(r) && r.main.InStop?
    ensures HeldOk(StopNext(r, r.main.stop))
  {
    match r.main.stop
    case LoadBusy => case LoadCancel => case SetStop =>
  }

  lemma StopKeepsFlags(r: Recorder)
    requires Owned(r) && Flagged(r) && r.main.InStop?
    ensures Flagged(StopNext(r, r.main.stop))
  {
    match r.main.stop
    case LoadBusy => case LoadCancel => case SetStop =>
  }

  lemma CancelKeepsState(r: Recorder)
    requires StateOk(r) && r.main.InCancel?
    ensures StateOk(CancelNext(r, r.main.cancel))
  {
    match r.main.cancel
    case LoadState => case LeaveFailed => case FlagCancel => case FlagStop => case Wake =>
  }

  lemma CancelKeepsBuffer(r: Recorder)
    requires Owned(r) && r.main.InCancel?
    ensures HeldOk(CancelNext(r, r.main.cancel))
  {
    match r.main.cancel
    case LoadState => case LeaveFailed => case FlagCancel => case FlagStop => case Wake =>
  }

  lemma CancelKeepsFlags(r: Recorder)
    requires Owned(r) && Flagged(r) && r.main.InCancel?
    ensures Flagged(CancelNext(r, r.main.cancel))
  {
    match r.main.cancel
    case LoadState => case LeaveFailed => case FlagCancel => case FlagStop => case Wake =>
  }

  lemma TakeKeepsState(r: Recorder)
    requires StateOk(r) && r.main.InTake?
    ensures StateOk(TakeNext(r, r.main.take))
  {
  }

  lemma TakeKeepsBuffer(r: Recorder)
    requires Owned(r) && r.main.InTake?
    ensures HeldOk(TakeNext(r, r.main.take))
  {
  }

  lemma TakeKeepsFlags(r: Recorder)
    requires Owned(r) && Flagged(r) && r.main.InTake?
    ensures Flagged(TakeNext(r, r.main.take))
  {
  }

  lemma FreeKeepsState(r: Recorder)
    requires StateOk(r) && r.worker.Free?
    ensures StateOk(FreeNext(r, r.worker.free))
  {
    match r.worker.free
    case Waiting => case Woken => case CheckReady => case CheckLate => case ClaimLate =>
  }

  lemma FreeKeepsBuffer(r: Recorder)
    requires Owned(r) && r.worker.Free?
    ensures HeldOk(FreeNext(r, r.worker.free))
  {
    match r.worker.free
    case Waiting => case Woken => case CheckReady => case CheckLate => case ClaimLate =>
  }

  lemma FreeKeepsFlags(r: Recorder)
    requires Owned(r) && Flagged(r) && r.worker.Free?
    ensures Flagged(FreeNext(r, r.worker.free))
  {
    match r.worker.free
    case Waiting => case Woken => case CheckReady => case CheckLate => case ClaimLate =>
  }

  lemma OpenKeepsState(r: Recorder, memory: bool, microphone: bool)
    requires StateOk(r) && r.worker.Open?
    ensures StateOk(OpenNext(r, r.worker.open, memory, microphone))
  {
  }

  lemma OpenKeepsBuffer(r: Recorder, memory: bool, microphone: bool)
    requires Owned(r) && r.worker.Open?
    ensures HeldOk(OpenNext(r, r.worker.open, memory, microphone))
  {
  }

  lemma OpenKeepsFlags(r: Recorder, memory: bool, microphone: bool)
    requires Owned(r) && Flagged(r) && r.worker.Open?
    ensures Flagged(OpenNext(r, r.worker.open, memory, microphone))
  {
    OpenLeavesFlags(r, memory, microphone);
  }

  lemma OpenLeavesFlags(r: Recorder, memory: bool, microphone: bool)
    requires StateOk(r) && r.worker.Open?
    ensures var r' := OpenNext(r, r.worker.open, memory, microphone);
            && r'.state == r.state == CAPTURING && r'.cancel == r.cancel && r'.stop == r.stop && r'.main == r.main
            && r'.notified == r.notified && r'.error == r.error && r'.revoked == r.revoked
            && (r'.worker.Open? || r'.worker == Capture(Record(0)) || (r'.worker.Fail? && (r'.worker.code != 0 || r.cancel)))
  {
  }

  lemma CaptureKeepsState(r: Recorder, chunk: Chunk)
    requires StateOk(r) && r.worker.Capture?
    ensures StateOk(CaptureNext(r, r.worker.capture, chunk))
  {
    match r.worker.capture
    case Record(_) => case Listen(_) => case Close(_, _) => case Judge(_, _) => case Publish(_) =>
  }

  lemma CaptureKeepsBuffer(r: Recorder, chunk: Chunk)
    requires Owned(r) && r.worker.Capture?
    ensures HeldOk(CaptureNext(r, r.worker.capture, chunk))
  {
    match r.worker.capture
    case Judge(_, _) => JudgeKeepsBuffer(r, chunk);
    case Publish(_) => PublishKeepsBuffer(r, chunk);
    case _ =>
  }

  lemma JudgeKeepsBuffer(r: Recorder, chunk: Chunk)
    requires Owned(r) && r.worker.Capture? && r.worker.capture.Judge?
    ensures HeldOk(CaptureNext(r, r.worker.capture, chunk))
  {
  }

  lemma PublishKeepsBuffer(r: Recorder, chunk: Chunk)
    requires Owned(r) && r.worker.Capture? && r.worker.capture.Publish?
    ensures HeldOk(CaptureNext(r, r.worker.capture, chunk))
  {
  }

  lemma CaptureKeepsFlags(r: Recorder, chunk: Chunk)
    requires Owned(r) && Flagged(r) && r.worker.Capture?
    ensures Flagged(CaptureNext(r, r.worker.capture, chunk))
  {
    assert r.state == CAPTURING;
    match r.worker.capture
    case Record(_) => case Listen(_) => case Close(_, _) => case Judge(_, _) => case Publish(_) =>
  }

  lemma DiscardKeepsState(r: Recorder)
    requires StateOk(r) && r.worker.Discard?
    ensures StateOk(DiscardNext(r, r.worker.discard))
  {
  }

  lemma DiscardKeepsBuffer(r: Recorder)
    requires Owned(r) && r.worker.Discard?
    ensures HeldOk(DiscardNext(r, r.worker.discard))
  {
  }

  lemma DiscardKeepsFlags(r: Recorder)
    requires Owned(r) && Flagged(r) && r.worker.Discard?
    ensures Flagged(DiscardNext(r, r.worker.discard))
  {
  }

  lemma AudioKeeps(a: Audio)
    requires Accounted(a)
    ensures a.buffer.None? ==> Accounted(Allocated(a))
    ensures Accounted(Discarded(a)) && Accounted(Taken(a))
  {
  }

  /** Only a take hands audio out, only the worker makes or destroys it. */
  lemma MainAudio(r: Recorder)
    ensures MainNext(r).audio == if r.main == InTake(Read) then Taken(r.audio) else r.audio
  {
  }

  lemma WorkerAudio(r: Recorder, memory: bool, microphone: bool, chunk: Chunk)
    ensures var a, a' := r.audio, WorkerNext(r, memory, microphone, chunk).audio;
            a' == a || a' == Discarded(a) || a' == a.(bytes := a'.bytes) ||
            (r.worker == Open(Allocate) && a' == Allocated(a))
  {
    match r.worker
    case Free(_) => case Begin => case Fail(_) =>
    case Open(_) => case Capture(_) => case Discard(_) =>
  }

  lemma AudioStep(r: Recorder, e: Event)
    requires StateOk(r) && BufferOk(r) && Accounted(r.audio)
    ensures Accounted(Next(r, e).audio)
  {
    AudioKeeps(r.audio);
    match e
    case Call(_) =>
    case MainStep => MainAudio(r);
    case WorkerStep(memory, microphone, chunk) => WorkerAudio(r, memory, microphone, chunk);
  }

  lemma MainKeeps(r: Recorder)
    requires Owned(r) && Flagged(r)
    ensures Owned(MainNext(r)) && Flagged(MainNext(r))
  {
    match r.main
    case AtRest =>
    case InStart(_) => StartKeepsState(r); StartKeepsBuffer(r); StartKeepsFlags(r);
    case InStop(_) => StopKeepsState(r); StopKeepsBuffer(r); StopKeepsFlags(r);
    case InCancel(_) => CancelKeepsState(r); CancelKeepsBuffer(r); CancelKeepsFlags(r);
    case InTake(_) => TakeKeepsState(r); TakeKeepsBuffer(r); TakeKeepsFlags(r);
  }

  lemma WorkerKeeps(r: Recorder, memory: bool, microphone: bool, chunk: Chunk)
    requires Owned(r) && Flagged(r)
    ensures var r' := WorkerNext(r, memory, microphone, chunk); Owned(r') && Flagged(r')
  {
    match r.worker
    case Free(_) => FreeKeepsState(r); FreeKeepsBuffer(r); FreeKeepsFlags(r);
    case Begin =>
    case Open(_) => OpenKeepsState(r, memory, microphone); OpenKeepsBuffer(r, memory, microphone); OpenKeepsFlags(r, memory, microphone);
    case Capture(_) => CaptureKeepsState(r, chunk); CaptureKeepsBuffer(r, chunk); CaptureKeepsFlags(r, chunk);
    case Fail(_) =>
    case Discard(_) => DiscardKeepsState(r); DiscardKeepsBuffer(r); DiscardKeepsFlags(r);
  }

  lemma NextKeeps(r: Recorder, e: Event)
    requires Inv(r)
    ensures Inv(Next(r, e))
  {
    AudioStep(r, e);
    match e
    case Call(_) =>
    case MainStep => MainKeeps(r);
    case WorkerStep(memory, microphone, chunk) => WorkerKeeps(r, memory, microphone, chunk);
  }

  lemma {:induction false} RunKeeps(r: Recorder, es: seq<Event>)
    requires Inv(r)
    ensures Inv(Run(r, es))
    decreases |es|
  {
    if |es| > 0 {
      NextKeeps(r, es[0]);
      RunKeeps(Next(r, es[0]), es[1..]);
    }
  }

  // ---------------------------------------------------------------- what holds in every run

  /** Exactly one owner: a buffer in use belongs to the capturing worker, to the published result,
      or to the take that claimed it; never to two of them, and to none when idle or failed. */
  lemma BufferHasOneOwner(es: seq<Event>)
    ensures var r := Run(INITIAL, es);
            && (r.state == IDLE || r.state == FAILED ==> r.audio.buffer.None?)
            && (r.audio.buffer.Some? ==>
                  || (MayHoldBuffer(r.worker) && r.state != READY && r.main != InTake(Read))
                  || (!MayHoldBuffer(r.worker) && r.state == READY && r.main != InTake(Read))
                  || (!MayHoldBuffer(r.worker) && r.state == CLAIMED && r.main == InTake(Read)))
  {
    RunKeeps(INITIAL, es);
  }

  lemma StepsOnlyAdd(r: Recorder, e: Event)
    ensures r.audio.freed <= Next(r, e).audio.freed && r.audio.handed <= Next(r, e).audio.handed
    ensures Next(r, e).audio.handed != r.audio.handed ==> r.main == InTake(Read) && e == MainStep
  {
    match e
    case Call(_) =>
    case MainStep => MainAudio(r);
    case WorkerStep(memory, microphone, chunk) => WorkerAudio(r, memory, microphone, chunk);
  }

  /** Every buffer ever allocated is still in memory, or was wiped and freed once, or was handed out
      once, by a take, as a whole recording within the allocation; and where it went stays true. */
  lemma BufferLeavesExactlyOnce(es: seq<Event>, e: Event, b: nat)
    requires b < Run(INITIAL, es).audio.made
    ensures var a := Run(INITIAL, es).audio;
            var a' := Next(Run(INITIAL, es), e).audio;
            && (b in a.freed ==> b !in a.handed && a.buffer != Some(b) && b in a'.freed && b !in a'.handed)
            && (b in a.handed ==> b !in a.freed && a.buffer != Some(b) && b in a'.handed && b !in a'.freed)
            && (b !in a.freed && b !in a.handed ==> a.buffer == Some(b))
            && (b in a'.handed && b !in a.handed ==>
                  e == MainStep && WAV_HEADER_BYTES < a.bytes <= MAX_WAV_BYTES)
  {
    var r := Run(INITIAL, es);
    RunKeeps(INITIAL, es);
    NextKeeps(r, e);
    StepsOnlyAdd(r, e);
  }

  /** No take succeeds after a cancel has returned, until a new start is accepted. */
  lemma CancelledCaptureIsNeverTaken(es: seq<Event>)
    ensures var r := Run(INITIAL, es);
            r.main == InTake(Claim) && MainNext(r).main == InTake(Read) ==> !r.revoked
  {
    RunKeeps(INITIAL, es);
  }

  /** A published recording is thrown away only after a cancel: every other one waits to be taken. */
  lemma PublishedAudioIsOnlyDiscardedWhenCancelled(es: seq<Event>, e: Event)
    ensures var r := Run(INITIAL, es); r.state == READY ==> WaitsOrIsClaimed(r, Next(r, e))
  {
    RunKeeps(INITIAL, es);
    if Run(INITIAL, es).state == READY { ReadyStep(Run(INITIAL, es), e); }
  }

  /** A published recording keeps its bytes; it stays, is claimed by a take, or by the discard of a cancel. */
  predicate WaitsOrIsClaimed(r: Recorder, r': Recorder) {
    && r'.audio == r.audio
    && (r'.state == READY || (r'.state == CLAIMED && r'.main == InTake(Read)) || (r'.state == DISCARDING && r.cancel))
  }

  lemma ReadyStep(r: Recorder, e: Event)
    requires Owned(r) && Flagged(r) && r.state == READY
    ensures WaitsOrIsClaimed(r, Next(r, e))
  {
    match e
    case Call(_) =>
    case MainStep => MainAudio(r);
    case WorkerStep(_, _, _) => assert r.worker.Free?;
  }

  /** When both tasks are at rest nothing is pending: no start goes unnoticed and no cancelled
      recording stays in memory. */
  lemma RestingRecorderHasNothingPending(es: seq<Event>)
    ensures var r := Run(INITIAL, es);
            r.main == AtRest && r.worker == Free(Waiting) && !r.notified ==>
              r.state == IDLE || r.state == FAILED || (r.state == READY && !r.cancel)
  {
    RunKeeps(INITIAL, es);
  }

  /** A recorder that failed says why, and a published recording carries no error. */
  lemma FailureAlwaysHasACode(es: seq<Event>)
    ensures var r := Run(INITIAL, es);
            && (r.state == FAILED && r.main == AtRest ==> r.error != 0)
            && (r.state == READY ==> r.error == 0)
  {
    RunKeeps(INITIAL, es);
  }

  // ---------------------------------------------------------------- the loops over the samples

  function Magnitude(value: int): (m: nat) { if value < 0 then -value else value }

  function Sum(samples: seq<int>): nat {
    if |samples| == 0 then 0 else Sum(samples[..|samples| - 1]) + Magnitude(samples[|samples| - 1])
  }

  /** discardBuffer leaves no sample behind before it frees the memory. */
  method Wipe(buffer: array<int>)
    modifies buffer
    ensures forall i | 0 <= i < buffer.Length :: buffer[i] == 0
  {
    for i := 0 to buffer.Length
      invariant forall k | 0 <= k < i :: buffer[k] == 0
    {
      buffer[i] := 0;
    }
  }

  lemma {:induction false} SumBelow(samples: seq<int>, peak: nat)
    requires forall i | 0 <= i < |samples| :: Magnitude(samples[i]) <= peak
    ensures Sum(samples) <= peak * |samples|
  {
    if |samples| > 0 {
      SumBelow(samples[..|samples| - 1], peak);
      assert peak * |samples| == peak * (|samples| - 1) + peak;
    }
  }

  /** The level shown after a capture: the true peak, and the mean rounded down, which can never
      exceed the peak. */
  method Levels(samples: seq<int>) returns (peak: nat, mean: nat)
    requires 0 < |samples|
    ensures exists i :: 0 <= i < |samples| && Magnitude(samples[i]) == peak
    ensures forall i | 0 <= i < |samples| :: Magnitude(samples[i]) <= peak
    ensures mean * |samples| <= Sum(samples) < (mean + 1) * |samples|
    ensures mean <= peak
  {
    peak := 0;
    var sum := 0;
    for i := 0 to |samples|
      invariant i == 0 ==> peak == 0
      invariant i > 0 ==> exists k :: 0 <= k < i && Magnitude(samples[k]) == peak
      invariant forall k | 0 <= k < i :: Magnitude(samples[k]) <= peak
      invariant sum == Sum(samples[..i])
    {
      assert samples[..i + 1][..i] == samples[..i];
      var magnitude := Magnitude(samples[i]);
      if magnitude > peak { peak := magnitude; }
      sum := sum + magnitude;
    }
    assert samples[..|samples|] == samples;
    SumBelow(samples, peak);
    mean := Mean(sum, |samples|, peak);
  }

  lemma Ordered(x: nat, y: nat, n: nat)
    ensures x <= y ==> x * n <= y * n
  {
    if x <= y { assert y * n == x * n + (y - x) * n; }
  }

  function Mean(sum: nat, n: nat, ghost peak: nat): (mean: nat)
    requires 0 < n && sum <= peak * n
    ensures mean * n <= sum < (mean + 1) * n && mean <= peak
  {
    var mean := sum / n;
    Ordered(peak + 1, mean, n);
    assert (peak + 1) * n == peak * n + n;
    mean
  }

  // ---------------------------------------------------------------- the same, updating fields

  /** The recorder's shared fields and the program counters of its two tasks; every step method is one
      access to a shared field, as the interleaving sees it. */
  class VoiceRecorder {
    var state: State
    var cancelRequested: bool
    var stopRequested: bool
    var notified: bool
    var error: nat
    var buffer: Option<nat>
    var resultBytes: nat
    var serial: nat  // buffers allocated so far
    var main: MainPc
    var worker: WorkerPc
    const memory: array<int>  // the samples of the buffer in use
    ghost var freed: set<nat>
    ghost var handed: set<nat>
    ghost var revoked: bool

    ghost function View(): Recorder
      reads this
    {
      Recorder(state, cancelRequested, stopRequested, notified, error, main, worker,
               Audio(buffer, resultBytes, serial, freed, handed), revoked)
    }

    ghost predicate Valid()
      reads this
    {
      Inv(View())
    }

    constructor ()
      ensures Valid() && View() == INITIAL && fresh(memory)
    {
      state, cancelRequested, stopRequested, notified, error := IDLE, false, false, false, 0;
      buffer, resultBytes, serial, main, worker := None, 0, 0, AtRest, Free(Waiting);
      freed, handed, revoked := {}, {}, false;
      memory := new int[MAX_SAMPLES];
    }

    /** start touches no audio, and what it queues carries no cancel of an earlier recording. */
    method StepStart(pc: StartPc)
      requires Valid() && main == InStart(pc)
      modifies this`state, this`cancelRequested, this`stopRequested, this`notified, this`error, this`main, this`revoked
      ensures View() == StartNext(old(View()), pc)
      ensures state != old(state) ==> old(state) in {IDLE, FAILED} && state == QUEUED && buffer.None? && !cancelRequested
      ensures main == AtRest && old(main != InStart(LoadIdle)) ==> notified
    {
      match pc {
        case LoadIdle => main := if state == IDLE || state == FAILED then InStart(ClearCancel) else AtRest;
        case ClearCancel => cancelRequested, main := false, InStart(ClearStop);
        case ClearStop => stopRequested, error, main := false, 0, InStart(Queue);
        case Queue => state, revoked, main := QUEUED, false, InStart(Notify);
        case Notify => notified, main := true, AtRest;
      }
    }

    /** cancel touches no audio; once it has returned no recording can be claimed, and the worker has
        been told if there is one. */
    method StepCancel(pc: CancelPc)
      requires Valid() && main == InCancel(pc)
      modifies this`state, this`cancelRequested, this`stopRequested, this`notified, this`error, this`main, this`revoked
      ensures View() == CancelNext(old(View()), pc)
      ensures main == AtRest ==> revoked && (state == IDLE || (cancelRequested && stopRequested && notified))
      ensures state != old(state) ==> old(state) == FAILED && state == IDLE && buffer.None?
    {
      match pc {
        case LoadState =>
          if state == IDLE {
            revoked, main := true, AtRest;
          } else {
            main := InCancel(if state == FAILED then LeaveFailed else FlagCancel);
          }
        case LeaveFailed => error, state, revoked, main := 0, IDLE, true, AtRest;
        case FlagCancel => cancelRequested, main := true, InCancel(FlagStop);
        case FlagStop => stopRequested, main := true, InCancel(Wake);
        case Wake => notified, revoked, main := true, true, AtRest;
      }
    }

    /** take hands out exactly the published recording, whole and within the allocation, and only
        after the compare-and-exchange has claimed it. */
    method StepTake(pc: TakePc) returns (wav: Option<nat>, bytes: nat)
      requires Valid() && main == InTake(pc)
      modifies this`state, this`buffer, this`resultBytes, this`main, this`handed
      ensures View() == TakeNext(old(View()), pc)
      ensures wav.Some? <==> pc == Read
      ensures wav.Some? ==> wav == old(buffer) && buffer.None? && WAV_HEADER_BYTES < bytes == old(resultBytes) <= MAX_WAV_BYTES
      ensures wav.Some? ==> wav.value !in old(handed) + freed && handed == old(handed) + {wav.value} && state == CLAIMED
      ensures wav.None? ==> handed == old(handed) && buffer == old(buffer)
    {
      wav, bytes := None, 0;
      match pc {
        case LoadFlag => main := if cancelRequested then AtRest else InTake(Claim);
        case Claim =>
          if state == READY { state, main := CLAIMED, InTake(Read); } else { main := AtRest; }
        case Read =>
          wav, bytes := buffer, resultBytes;
          handed := handed + {buffer.value};
          buffer, resultBytes, main := None, 0, InTake(Release);
        case Release => state, main := IDLE, AtRest;
      }
    }

    /** The memory is zero throughout before the buffer counts as freed. */
    method DiscardBuffer()
      modifies this`buffer, this`resultBytes, this`freed, memory
      ensures View() == old(View()).(audio := Discarded(old(View().audio)))
      ensures old(buffer).Some? ==> forall i | 0 <= i < memory.Length :: memory[i] == 0
    {
      if buffer.Some? {
        Wipe(memory);
        freed := freed + {buffer.value};
        buffer := None;
      }
      resultBytes := 0;
    }

    /** finishFailure and the late discard: the state word leaves DISCARDING only once no buffer is
        left, and to FAILED only with a code. */
    method StepDiscard(pc: DiscardPc)
      requires Valid() && worker == Discard(pc)
      modifies this`state, this`error, this`buffer, this`resultBytes, this`worker, this`freed, memory
      ensures View() == DiscardNext(old(View()), pc)
      ensures state != old(state) ==> buffer.None? && (state == IDLE || (state == FAILED && error != 0))
      ensures buffer != old(buffer) ==>
                freed == old(freed) + {old(buffer).value} && forall i | 0 <= i < memory.Length :: memory[i] == 0
    {
      match pc {
        case FailWipe(code) =>
          DiscardBuffer();
          worker := Discard(FailLoad(code));
        case FailLoad(code) => error, worker := if cancelRequested then 0 else code, Discard(FailStore(cancelRequested));
        case FailStore(idle) => state, worker := if idle then IDLE else FAILED, Free(CheckReady);
        case LateWipe =>
          DiscardBuffer();
          error, worker := 0, Discard(LateStore);
        case LateStore => state, worker := IDLE, Free(Waiting);
      }
    }

    /** Between captures the worker touches no audio, and claims a published recording back only if it
        was cancelled. */
    method StepFree(pc: FreePc)
      requires Valid() && worker == Free(pc)
      modifies this`state, this`notified, this`worker
      ensures View() == FreeNext(old(View()), pc)
      ensures state != old(state) ==> old(state) == READY && state == DISCARDING && cancelRequested
      ensures worker == Free(Waiting) && !notified ==> state != QUEUED || main == InStart(Notify)
    {
      match pc {
        case Waiting => if notified { notified, worker := false, Free(Woken); }
        case Woken => worker := if state == QUEUED then Begin else Free(CheckReady);
        case CheckReady => worker := Free(if state == READY then CheckLate else Waiting);
        case CheckLate => worker := Free(if cancelRequested then ClaimLate else Waiting);
        case ClaimLate =>
          if state == READY { state, worker := DISCARDING, Discard(LateWipe); } else { worker := Free(Waiting); }
      }
    }

    /** A buffer is allocated only while there is none, and never the number of an earlier one. */
    method StepOpen(pc: OpenPc, memory: bool, microphone: bool)
      requires Valid() && worker == Open(pc)
      modifies this`buffer, this`serial, this`worker
      ensures View() == OpenNext(old(View()), pc, memory, microphone)
      ensures buffer != old(buffer) ==> old(buffer).None? && buffer == Some(old(serial)) && old(serial) !in freed + handed
      ensures worker.Capture? ==> buffer.Some? && microphone
    {
      match pc {
        case CheckCancel => worker := if cancelRequested then Fail(0) else Open(CheckStop);
        case CheckStop => worker := if stopRequested then Fail(NO_AUDIO) else Open(Allocate);
        case Allocate =>
          if memory {
            buffer, serial, worker := Some(serial), serial + 1, Open(CheckCancelAgain);
          } else {
            worker := Fail(NO_MEMORY);
          }
        case CheckCancelAgain => worker := if cancelRequested then Fail(0) else Open(OpenMicrophone);
        case OpenMicrophone => worker := if microphone then Capture(Record(0)) else Fail(MIC_START_FAILED);
      }
    }

    /** The capture keeps its buffer, and publishes it only with at least one whole chunk and the size
        of exactly the chunks captured. */
    method StepCapture(pc: CapturePc, chunk: Chunk)
      requires Valid() && worker == Capture(pc)
      modifies this`state, this`resultBytes, this`error, this`worker
      ensures View() == CaptureNext(old(View()), pc, chunk)
      ensures state != old(state) ==>
                && state == READY && pc.Publish? && buffer.Some? && error == 0
                && resultBytes == WavBytes(pc.chunks) && WAV_HEADER_BYTES < resultBytes <= MAX_WAV_BYTES
    {
      match pc {
        case Record(chunks) =>
          if chunks < MAX_CHUNKS && !stopRequested && !cancelRequested {
            worker := Capture(if chunk == Refused then Close(chunks, MIC_RECORD_FAILED) else Listen(chunks));
          } else {
            worker := Capture(Close(chunks, 0));
          }
        case Listen(chunks) =>
          if chunk == Recorded { worker := Capture(Record(chunks + 1)); }
          else if cancelRequested { worker := Capture(Record(chunks)); }
          else { worker := Capture(Close(chunks, MIC_TIMED_OUT)); }
        case Close(chunks, failure) => worker := if cancelRequested then Fail(0) else Capture(Judge(chunks, failure));
        case Judge(chunks, failure) =>
          if failure != 0 { worker := Fail(failure); }
          else if chunks == 0 { worker := Fail(NO_AUDIO); }
          else { resultBytes, error, worker := WavBytes(chunks), 0, Capture(Publish(chunks)); }
        case Publish(_) => state, worker := READY, Free(CheckReady);
      }
    }

    method StepStop(pc: StopPc)
      requires Valid() && main == InStop(pc)
      modifies this`stopRequested, this`main
      ensures View() == StopNext(old(View()), pc)
      ensures stopRequested != old(stopRequested) ==> stopRequested && pc == SetStop
    {
      match pc {
        case LoadBusy =>
          main := if state == QUEUED || state == CAPTURING || state == DISCARDING then InStop(SetStop)
                  else if state == READY then InStop(LoadCancel) else AtRest;
        case LoadCancel => main := if cancelRequested then InStop(SetStop) else AtRest;
        case SetStop => stopRequested, main := true, AtRest;
      }
    }

    method StepMain()
      requires Valid()
      modifies this
      ensures View() == MainNext(old(View()))
    {
      match main {
        case AtRest =>
        case InStart(pc) => StepStart(pc);
        case InStop(pc) => StepStop(pc);
        case InCancel(pc) => StepCancel(pc);
        case InTake(pc) => var _, _ := StepTake(pc);
      }
    }

    method StepWorker(memory: bool, microphone: bool, chunk: Chunk)
      requires Valid()
      modifies this, this.memory
      ensures View() == WorkerNext(old(View()), memory, microphone, chunk)
    {
      match worker {
        case Free(pc) => StepFree(pc);
        case Begin => state, worker := CAPTURING, Open(CheckCancel);
        case Open(pc) => StepOpen(pc, memory, microphone);
        case Capture(pc) => StepCapture(pc, chunk);
        case Fail(code) => state, worker := DISCARDING, Discard(FailWipe(code));
        case Discard(pc) => StepDiscard(pc);
      }
    }

    /** One step of either task, whichever comes next, keeps the invariant. */
    method Step(e: Event)
      requires Valid()
      modifies this, memory
      ensures Valid() && View() == Next(old(View()), e)
    {
      NextKeeps(View(), e);
      match e {
        case Call(call) => if main == AtRest { main := Enter(call); }
        case MainStep => StepMain();
        case WorkerStep(hasMemory, microphone, chunk) => StepWorker(hasMemory, microphone, chunk);
      }
    }
  }
}
