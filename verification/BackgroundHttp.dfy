/** firmware/devices_badge/background_http.h: one job at a time passed from the main task to the
    HTTPS worker and back through two one-slot queues.  Between two accesses to a queue the other
    task may run, so a call of pollOrStart is three steps: collect (for an upload), poll, start. */
module BackgroundHttp {
  import opened Wrappers

  datatype Kind =
    | NONE | AUTH_REFRESH | PAIR_BEGIN | PAIR_POLL | WORKSPACE | WORKSPACE_SESSION
    | PROFILE_X | PROFILE_LINKEDIN | PROFILE_GITHUB | AVATAR_X | AVATAR_LINKEDIN | AVATAR_GITHUB
    | REPLY_INBOX | TRANSCRIPTION | REPLY_SEND | REPLY_STATUS

  datatype Upload = Upload(id: nat, length: nat)

  /** Job memory, response buffers and audio clips are numbered in the order they are allocated. */
  datatype Job = Job(id: nat, kind: Kind, upload: Option<Upload>, bytes: Option<nat>, code: int)

  datatype Request = Request(kind: Kind, upload: Option<Upload>)

  /** The fields of the main task. */
  datatype Caller = Caller(active: bool, discard: bool, kind: Kind, completed: Option<Job>)

  /** The two queues and the job in the worker's hands (with its strings and clip wiped or not). */
  datatype Link = Link(requests: Option<Job>, working: Option<Job>, executed: bool, responses: Option<Job>)

  /** What was allocated and where it went: `held` clips still belong to the caller. */
  datatype Heap = Heap(
    jobs: nat, destroyed: set<nat>, buffers: nat, freed: set<nat>, handed: set<nat>,
    clips: nat, held: set<nat>, wiped: set<nat>)

  datatype MainPc = AtRest | Polling(request: Request) | Starting(request: Request)

  /** History: the job enqueued last, and whether it was cancelled. */
  datatype History = History(last: nat, cancelled: bool)

  datatype World = World(main: MainPc, caller: Caller, link: Link, heap: Heap, history: History)

  const IDLE := Caller(false, false, NONE, None)
  const START := World(AtRest, IDLE, Link(None, None, false, None), Heap(0, {}, 0, {}, {}, 0, {}, {}), History(0, false))

  const PENDING := -10000
  const MIN_WAV := 44
  const MAX_WAV := 960044

  datatype Reply = Silent | Code(code: int) | Result(job: Job, code: int, bytes: Option<nat>)

  // ---------------------------------------------------------------- the main task

  predicate IsVoice(kind: Kind) {
    kind == REPLY_INBOX || kind == TRANSCRIPTION || kind == REPLY_SEND || kind == REPLY_STATUS
  }

  predicate IsAvatar(kind: Kind) {
    kind == AVATAR_X || kind == AVATAR_LINKEDIN || kind == AVATAR_GITHUB
  }

  /** The kinds postJson, postDeviceJson and postWav accept; the others are GET requests. */
  predicate IsFormPost(kind: Kind) {
    kind == PAIR_BEGIN || kind == AUTH_REFRESH || kind == PAIR_POLL || kind == WORKSPACE_SESSION
  }

  predicate IsPost(kind: Kind) {
    IsFormPost(kind) || kind == TRANSCRIPTION || kind == REPLY_SEND
  }

  function Destroyed(h: Heap, job: Job): Heap {
    h.(destroyed := h.destroyed + {job.id},
       freed := if job.bytes.Some? then h.freed + {job.bytes.value} else h.freed,
       wiped := if job.upload.Some? then h.wiped + {job.upload.value.id} else h.wiped)
  }

  function Finished(w: World): World
    requires w.caller.completed.Some?
  {
    w.(caller := IDLE, heap := Destroyed(w.heap, w.caller.completed.value))
  }

  /** The receive half of collect. */
  function Received(w: World): World {
    if w.caller.completed.None? && w.link.responses.Some? then
      w.(caller := w.caller.(completed := w.link.responses), link := w.link.(responses := None))
    else w
  }

  function Collected(w: World): World {
    if !w.caller.active then w
    else
      var r := Received(w);
      if r.caller.completed.Some? && r.caller.discard then Finished(r) else r
  }

  function Cancelled(w: World): World {
    Collected(if w.caller.active then
                w.(caller := w.caller.(discard := true), history := w.history.(cancelled := true))
              else w)
  }

  predicate Audible(upload: Option<Upload>) {
    upload.Some? && MIN_WAV <= upload.value.length <= MAX_WAV
  }

  /** Entering a call; postWav collects once and looks at the clip before pollOrStart. */
  function Asked(w: World, request: Request): (World, Reply) {
    if request.kind == TRANSCRIPTION then
      var c := Collected(w);
      if !c.caller.active && !Audible(request.upload) then (c, Code(-40))
      else (c.(main := Polling(request)), Silent)
    else (w.(main := Polling(request.(upload := None))), Silent)
  }

  /** consumeJson and getBytes on a finished job: the code reported and the bytes handed over. */
  function Judged(job: Job, json: bool): int {
    if IsAvatar(job.kind) then job.code
    else if job.bytes.Some? && job.code > 0 && !json && (!IsVoice(job.kind) || job.code < 400) then -45
    else job.code
  }

  function HandedOver(job: Job): Option<nat> {
    if IsAvatar(job.kind) && job.code == 200 then job.bytes else None
  }

  function Consumed(w: World, json: bool): (World, Reply)
    requires w.caller.completed.Some?
  {
    var job := w.caller.completed.value;
    var given := HandedOver(job);
    var kept := w.(caller := w.caller.(completed := Some(if given.Some? then job.(bytes := None) else job)),
                   heap := if given.Some? then w.heap.(handed := w.heap.handed + {given.value}) else w.heap,
                   main := AtRest);
    (Finished(kept), Result(job, Judged(job, json), given))
  }

  function Polled(w: World, request: Request, json: bool): (World, Reply) {
    var c := Collected(w);
    if !c.caller.active then (c.(main := Starting(request)), Silent)
    else if c.caller.discard || c.caller.kind != request.kind || c.caller.completed.None? then
      (c.(main := AtRest), Code(PENDING))
    else Consumed(c, json)
  }

  /** The rest of pollOrStart: a job is allocated and sent, or destroyed without the clip. */
  function Started(w: World, request: Request, trusted: bool, memory: bool, strings: bool): (World, Reply) {
    var rest := w.(main := AtRest);
    if !trusted then (rest, Code(-40))
    else if !memory then (rest, Code(-43))
    else
      var job := Job(w.heap.jobs, request.kind, None, None, -1);
      var grown := w.heap.(jobs := w.heap.jobs + 1);
      if !strings then (rest.(heap := Destroyed(grown, job)), Code(-43))
      else if w.link.requests.Some? then (rest.(heap := Destroyed(grown, job)), Code(-50))
      else
        (rest.(caller := w.caller.(active := true, kind := request.kind, discard := false),
               link := w.link.(requests := Some(job.(upload := request.upload))),
               heap := if request.upload.Some? then grown.(held := grown.held - {request.upload.value.id}) else grown,
               history := History(job.id, false)),
         Code(PENDING))
  }

  // ---------------------------------------------------------------- the worker

  /** What the network did to one request. */
  datatype Network = Network(
    began: bool, status: int, aborted: bool, encoded: bool, expected: int, memory: bool,
    received: nat, complete: bool)

  function Limit(kind: Kind): nat {
    if IsAvatar(kind) then 262144 else if IsFormPost(kind) then 32768 else 8192
  }

  /** execute: the code reported, and whether a response buffer was allocated. */
  function Executed(kind: Kind, n: Network): (int, bool) {
    if !n.began then (-1, false)
    else
      var code := if n.aborted then -47 else n.status;
      if code <= 0 || (!IsPost(kind) && code != 200 && !IsVoice(kind)) then (code, false)
      else if n.encoded then (-41, false)
      else if n.expected == 0 || n.expected > Limit(kind) then (-42, false)
      else if !n.memory then (-43, false)
      else (if !n.complete || n.received == 0 then -44 else code, true)
  }

  function WorkerReceives(w: World): World {
    if w.link.working.None? && w.link.requests.Some? then
      w.(link := w.link.(requests := None, working := w.link.requests, executed := false))
    else w
  }

  function WorkerExecutes(w: World, n: Network): World {
    if w.link.working.Some? && !w.link.executed then
      var job := w.link.working.value;
      var (code, buffer) := Executed(job.kind, n);
      w.(link := w.link.(executed := true,
                         working := Some(job.(code := code, upload := None, bytes := if buffer then Some(w.heap.buffers) else None))),
         heap := w.heap.(buffers := if buffer then w.heap.buffers + 1 else w.heap.buffers,
                         wiped := if job.upload.Some? then w.heap.wiped + {job.upload.value.id} else w.heap.wiped))
    else w
  }

  function WorkerSends(w: World): World {
    if w.link.working.Some? && w.link.executed && w.link.responses.None? then
      w.(link := w.link.(working := None, executed := false, responses := w.link.working))
    else w
  }

  // ---------------------------------------------------------------- the same, updating fields

  class BadgeBackgroundHttp {
    var active: bool
    var discard: bool
    var activeKind: Kind
    var completed: Option<Job>
    var requests: Option<Job>
    var responses: Option<Job>
    var working: Option<Job>
    var executed: bool
    var serial: nat   // jobs allocated so far
    var buffers: nat  // response buffers allocated so far
    ghost var heap: Heap
    ghost var history: History

    ghost function View(main: MainPc): World
      reads this
    {
      World(main, Caller(active, discard, activeKind, completed), Link(requests, working, executed, responses),
            heap.(jobs := serial, buffers := buffers), history)
    }

    constructor ()
      ensures View(AtRest) == START
    {
      active, discard, activeKind, completed := false, false, NONE, None;
      requests, responses, working, executed := None, None, None, false;
      serial, buffers := 0, 0;
      heap, history := START.heap, START.history;
    }

    /** destroy the finished job and become idle. */
    method Finish()
      requires completed.Some?
      modifies this
      ensures View(AtRest) == Finished(old(View(AtRest)))
    {
      heap := Destroyed(heap, completed.value);
      completed := None;
      active := false;
      discard := false;
      activeKind := NONE;
    }

    method Collect()
      modifies this
      ensures View(AtRest) == Collected(old(View(AtRest)))
    {
      if !active { return; }
      if completed.None? && responses.Some? {
        completed := responses;
        responses := None;
      }
      if completed.Some? && discard { Finish(); }
    }

    method CancelJob()
      modifies this
      ensures View(AtRest) == Cancelled(old(View(AtRest)))
    {
      if active {
        discard := true;
        history := history.(cancelled := true);
      }
      Collect();
    }

    /** The polling half of pollOrStart with consumeJson or getBytes on what it finds; `pc` says
        whether the call is over or goes on to start a job. */
    method PollJob(request: Request, json: bool) returns (reply: Reply, pc: MainPc)
      modifies this
      ensures (View(pc), reply) == Polled(old(View(Polling(request))), request, json)
    {
      Collect();
      if !active { return Silent, Starting(request); }
      if discard || activeKind != request.kind || completed.None? { return Code(PENDING), AtRest; }
      var job := completed.value;
      var given := HandedOver(job);
      if given.Some? {
        completed := Some(job.(bytes := None));
        heap := heap.(handed := heap.handed + {given.value});
      }
      reply, pc := Result(job, Judged(job, json), given), AtRest;
      Finish();
    }

    /** The starting half of pollOrStart; the clip moves into the job as it is enqueued. */
    method StartJob(request: Request, trusted: bool, memory: bool, strings: bool) returns (reply: Reply)
      modifies this
      ensures (View(AtRest), reply) == Started(old(View(Starting(request))), request, trusted, memory, strings)
    {
      if !trusted { return Code(-40); }
      if !memory { return Code(-43); }
      var job := Job(serial, request.kind, None, None, -1);
      serial := serial + 1;
      if !strings {
        heap := Destroyed(heap, job);
        return Code(-43);
      }
      if requests.Some? {
        heap := Destroyed(heap, job);
        return Code(-50);
      }
      requests := Some(job.(upload := request.upload));
      if request.upload.Some? { heap := heap.(held := heap.held - {request.upload.value.id}); }
      history := History(job.id, false);
      active, activeKind, discard := true, request.kind, false;
      return Code(PENDING);
    }

    /** The worker blocks until a request arrives, executes it, and hands the job back. */
    method ReceiveJob()
      modifies this
      ensures View(AtRest) == WorkerReceives(old(View(AtRest)))
    {
      if working.None? && requests.Some? {
        working, requests, executed := requests, None, false;
      }
    }

    method ExecuteJob(network: Network)
      modifies this
      ensures View(AtRest) == WorkerExecutes(old(View(AtRest)), network)
    {
      if working.Some? && !executed {
        var job := working.value;
        var (code, buffer) := Executed(job.kind, network);
        if job.upload.Some? { heap := heap.(wiped := heap.wiped + {job.upload.value.id}); }
        working := Some(job.(code := code, upload := None, bytes := if buffer then Some(buffers) else None));
        if buffer { buffers := buffers + 1; }
        executed := true;
      }
    }

    method SendJob()
      modifies this
      ensures View(AtRest) == WorkerSends(old(View(AtRest)))
    {
      if working.Some? && executed && responses.None? {
        responses, working, executed := working, None, false;
      }
    }
  }

  // ---------------------------------------------------------------- runs

  datatype Event =
    | Busy | Cancel | Record(length: nat)
    | Ask(request: Request) | Poll(json: bool) | Begin(trusted: bool, memory: bool, strings: bool)
    | Receive | Execute(network: Network) | Send

  /** The caller can only hand over a clip it still holds. */
  predicate CanAsk(w: World, request: Request) {
    request.kind != NONE && (request.upload.Some? ==> request.upload.value.id in w.heap.held)
  }

  function Next(w: World, e: Event): (World, Reply) {
    match e
    case Busy => (if w.main == AtRest then Collected(w) else w, Silent)
    case Cancel => (if w.main == AtRest then Cancelled(w) else w, Silent)
    case Record(_) =>
      (if w.main == AtRest then w.(heap := w.heap.(clips := w.heap.clips + 1, held := w.heap.held + {w.heap.clips})) else w, Silent)
    case Ask(request) => if w.main == AtRest && CanAsk(w, request) then Asked(w, request) else (w, Silent)
    case Poll(json) => if w.main.Polling? then Polled(w, w.main.request, json) else (w, Silent)
    case Begin(trusted, memory, strings) =>
      if w.main.Starting? then Started(w, w.main.request, trusted, memory, strings) else (w, Silent)
    case Receive => (WorkerReceives(w), Silent)
    case Execute(network) => (WorkerExecutes(w, network), Silent)
    case Send => (WorkerSends(w), Silent)
  }

  function Run(w: World, es: seq<Event>): World
    decreases |es|
  {
    if |es| == 0 then w else Run(Next(w, es[0]).0, es[1..])
  }

  // ---------------------------------------------------------------- the invariant

  function Count(slot: Option<Job>): nat { if slot.Some? then 1 else 0 }

  /** How many jobs exist, and the one that does. */
  function Jobs(w: World): nat {
    Count(w.link.requests) + Count(w.link.working) + Count(w.link.responses) + Count(w.caller.completed)
  }

  function Current(w: World): Option<Job> {
    if w.link.requests.Some? then w.link.requests
    else if w.link.working.Some? then w.link.working
    else if w.link.responses.Some? then w.link.responses
    else w.caller.completed
  }

  predicate CallerOk(w: World) {
    && Jobs(w) == (if w.caller.active then 1 else 0)
    && (!w.caller.active ==> w.caller == IDLE)
    && (w.caller.active ==> w.caller.kind != NONE && w.caller.discard == w.history.cancelled)
    && (w.main.Starting? ==> !w.caller.active)
    && (w.caller.completed.Some? ==> !w.caller.discard)
  }

  predicate JobOk(w: World) {
    var current := Current(w);
    && (w.link.executed ==> w.link.working.Some?)
    && (current.Some? ==>
          && current.value.id == w.history.last
          && current.value.kind == w.caller.kind
          && (w.link.requests.Some? || (w.link.working.Some? && !w.link.executed) ==> current.value.bytes.None?)
          && (w.link.responses.Some? || w.caller.completed.Some? || w.link.executed ==>
                current.value.upload.None? && (current.value.code == 200 ==> current.value.bytes.Some?)))
  }

  ghost predicate JobsAccounted(h: Heap, job: Option<Job>) {
    && (job.Some? ==> job.value.id < h.jobs && job.value.id !in h.destroyed)
    && (forall i: nat | i < h.jobs :: i in h.destroyed || (job.Some? && job.value.id == i))
    && (forall i | i in h.destroyed :: i < h.jobs)
  }

  ghost predicate BuffersAccounted(h: Heap, bytes: Option<nat>) {
    && h.freed !! h.handed
    && (bytes.Some? ==> bytes.value < h.buffers && bytes.value !in h.freed + h.handed)
    && (forall i: nat | i < h.buffers :: i in h.freed || i in h.handed || bytes == Some(i))
    && (forall i | i in h.freed :: i < h.buffers)
    && (forall i | i in h.handed :: i < h.buffers)
  }

  ghost predicate ClipsAccounted(h: Heap, upload: Option<Upload>) {
    && h.held !! h.wiped
    && (upload.Some? ==> upload.value.id < h.clips && upload.value.id !in h.held + h.wiped)
    && (forall i: nat | i < h.clips :: i in h.held || i in h.wiped || (upload.Some? && upload.value.id == i))
    && (forall i | i in h.held :: i < h.clips)
    && (forall i | i in h.wiped :: i < h.clips)
  }

  function BytesOf(job: Option<Job>): Option<nat> { if job.Some? then job.value.bytes else None }

  function UploadOf(job: Option<Job>): Option<Upload> { if job.Some? then job.value.upload else None }

  ghost predicate HeapOk(h: Heap, job: Option<Job>) {
    JobsAccounted(h, job) && BuffersAccounted(h, BytesOf(job)) && ClipsAccounted(h, UploadOf(job))
  }

  /** A call in progress still owns the clip it was given. */
  predicate RequestOk(w: World) {
    w.main != AtRest ==>
      && w.main.request.kind != NONE
      && (w.main.request.upload.Some? ==> w.main.request.upload.value.id in w.heap.held)
      && (w.main.Polling? && Soundless(w.main.request) ==> w.caller.active)
      && (w.main.Starting? && Soundless(w.main.request) ==> w.history.cancelled)
  }

  /** A transcription asked for without a clip of an acceptable length. */
  predicate Soundless(request: Request) { request.kind == TRANSCRIPTION && !Audible(request.upload) }

  ghost predicate Inv(w: World) {
    CallerOk(w) && JobOk(w) && HeapOk(w.heap, Current(w)) && RequestOk(w)
  }

  lemma FinishedKeeps(w: World)
    requires JobOk(w) && HeapOk(w.heap, Current(w))
    requires Jobs(w) == 1 && w.caller.completed.Some?
    ensures CallerOk(Finished(w).(main := AtRest)) && JobOk(Finished(w)) && HeapOk(Finished(w).heap, None)
    ensures Current(Finished(w)) == None && Finished(w).heap.held == w.heap.held
  {
  }

  lemma ReceivedKeeps(w: World)
    requires Jobs(w) == 1 && JobOk(w) && w.caller.active
    ensures var r := Received(w);
            && JobOk(r) && Jobs(r) == 1 && Current(r) == Current(w)
            && r.caller == w.caller.(completed := r.caller.completed)
  {
  }

  /** A cancelled job is drained by collect; the caller's own fields are otherwise untouched. */
  lemma CollectedKeeps(w: World)
    requires Jobs(w) == (if w.caller.active then 1 else 0) && JobOk(w) && HeapOk(w.heap, Current(w))
    requires !w.caller.active ==> w.caller == IDLE
    requires w.caller.active ==> w.caller.kind != NONE && w.caller.discard == w.history.cancelled
    ensures var c := Collected(w);
            && CallerOk(c.(main := AtRest)) && JobOk(c) && HeapOk(c.heap, Current(c))
            && c.main == w.main && c.heap.held == w.heap.held && c.history == w.history
            && (c.caller.active ==> c.caller == w.caller.(completed := c.caller.completed))
            && (w.caller.active && !c.caller.active ==> w.caller.discard)
  {
    if w.caller.active {
      ReceivedKeeps(w);
      if Received(w).caller.completed.Some? && Received(w).caller.discard { FinishedKeeps(Received(w)); }
    }
  }

  lemma CancelledKeeps(w: World)
    requires Inv(w) && w.main == AtRest
    ensures Inv(Cancelled(w))
  {
    if w.caller.active {
      var marked := w.(caller := w.caller.(discard := true), history := w.history.(cancelled := true));
      assert Current(marked) == Current(w);
      CollectedKeeps(marked);
    }
  }

  lemma AskedKeeps(w: World, request: Request)
    requires Inv(w) && w.main == AtRest && CanAsk(w, request)
    ensures Inv(Asked(w, request).0)
  {
    CollectedKeeps(w);
    assert Current(Asked(w, request).0) == Current(if request.kind == TRANSCRIPTION then Collected(w) else w);
  }

  lemma ConsumedKeeps(w: World, json: bool)
    requires CallerOk(w.(main := AtRest)) && JobOk(w) && HeapOk(w.heap, Current(w))
    requires w.caller.active && w.caller.completed.Some?
    ensures Inv(Consumed(w, json).0)
  {
    var job := w.caller.completed.value;
    var given := HandedOver(job);
    var kept := w.(caller := w.caller.(completed := Some(if given.Some? then job.(bytes := None) else job)),
                   heap := if given.Some? then w.heap.(handed := w.heap.handed + {given.value}) else w.heap,
                   main := AtRest);
    assert Current(w) == w.caller.completed && Current(kept) == kept.caller.completed;
    var finished := Finished(kept);
    assert finished == Consumed(w, json).0;
    assert Jobs(finished) == 0 && Current(finished) == None;
  }

  lemma PolledKeeps(w: World, json: bool)
    requires Inv(w) && w.main.Polling?
    ensures Inv(Polled(w, w.main.request, json).0)
  {
    CollectedKeeps(w);
    var c := Collected(w);
    if !c.caller.active {
      assert Current(c.(main := Starting(w.main.request))) == Current(c);
    } else if c.caller.discard || c.caller.kind != w.main.request.kind || c.caller.completed.None? {
      assert Current(c.(main := AtRest)) == Current(c);
    } else {
      ConsumedKeeps(c, json);
    }
  }

  lemma StartedKeeps(w: World, trusted: bool, memory: bool, strings: bool)
    requires Inv(w) && w.main.Starting?
    ensures Inv(Started(w, w.main.request, trusted, memory, strings).0)
  {
    var w' := Started(w, w.main.request, trusted, memory, strings).0;
    assert Current(w) == None && Jobs(w) == 0;
    assert Current(w') == w'.link.requests;
  }

  lemma WorkerKeeps(w: World, n: Network)
    requires Inv(w)
    ensures Inv(WorkerReceives(w)) && Inv(WorkerExecutes(w, n)) && Inv(WorkerSends(w))
  {
    assert Current(WorkerReceives(w)) == Current(w);
    assert Current(WorkerSends(w)) == Current(w);
    ExecutedKeeps(w, n);
  }

  lemma ExecutedKeeps(w: World, n: Network)
    requires Inv(w)
    ensures Inv(WorkerExecutes(w, n))
  {
    if w.link.working.Some? && !w.link.executed {
      var w' := WorkerExecutes(w, n);
      assert Current(w) == w.link.working && Current(w') == w'.link.working;
    }
  }

  lemma NextKeeps(w: World, e: Event)
    requires Inv(w)
    ensures Inv(Next(w, e).0)
  {
    match e
    case Busy => if w.main == AtRest { CollectedKeeps(w); }
    case Cancel => if w.main == AtRest { CancelledKeeps(w); }
    case Record(_) =>
      assert Current(Next(w, e).0) == Current(w);
    case Ask(request) => if w.main == AtRest && CanAsk(w, request) { AskedKeeps(w, request); }
    case Poll(json) => if w.main.Polling? { PolledKeeps(w, json); }
    case Begin(trusted, memory, strings) => if w.main.Starting? { StartedKeeps(w, trusted, memory, strings); }
    case Receive => WorkerKeeps(w, Network(false, 0, false, false, 0, false, 0, false));
    case Execute(network) => ExecutedKeeps(w, network);
    case Send => WorkerKeeps(w, Network(false, 0, false, false, 0, false, 0, false));
  }

  lemma {:induction false} RunKeeps(w: World, es: seq<Event>)
    requires Inv(w)
    ensures Inv(Run(w, es))
    decreases |es|
  {
    if |es| > 0 {
      NextKeeps(w, es[0]);
      RunKeeps(Next(w, es[0]).0, es[1..]);
    }
  }

  // ---------------------------------------------------------------- what holds in every run

  /** Exactly one job exists while the caller is active and none otherwise, and the worker never
      finds the response queue occupied. */
  lemma OneJobWhileActive(es: seq<Event>)
    ensures var w := Run(START, es);
            && Jobs(w) == (if w.caller.active then 1 else 0)
            && (w.link.working.Some? ==> w.link.responses.None? && w.link.requests.None?)
            && (forall i: nat | i < w.heap.jobs :: i !in w.heap.destroyed <==> Jobs(w) == 1 && Current(w).value.id == i)
  {
    RunKeeps(START, es);
  }

  /** A result is reported for the job enqueued last, which was not cancelled, to a caller asking
      for its kind, and once: the job is destroyed as it is reported.  A 200 always has a body, and
      the avatar caller then owns exactly that buffer. */
  predicate Earned(w: World, w': World, job: Job, code: int, bytes: Option<nat>) {
    && w.main.Polling? && job.kind == w.main.request.kind
    && job.id == w.history.last && !w.history.cancelled
    && job.id !in w.heap.destroyed && job.id in w'.heap.destroyed && Jobs(w') == 0
    && (job.code == 200 ==> job.bytes.Some?)
    && (bytes.Some? <==> IsAvatar(job.kind) && code == 200)
    && (bytes.Some? ==> bytes == job.bytes && bytes.value in w'.heap.handed)
  }

  lemma ResultBelongsToLastJob(es: seq<Event>, e: Event)
    ensures var (next, reply) := Next(Run(START, es), e);
            reply.Result? ==> Earned(Run(START, es), next, reply.job, reply.code, reply.bytes)
  {
    var w := Run(START, es);
    RunKeeps(START, es);
    if e.Poll? && w.main.Polling? {
      ResultOfPoll(w, e.json);
    } else {
      OnlyPollsReport(w, e);
    }
  }

  lemma OnlyPollsReport(w: World, e: Event)
    ensures Next(w, e).1.Result? ==> e.Poll? && w.main.Polling?
  {
  }

  lemma ResultOfPoll(w: World, json: bool)
    requires Inv(w) && w.main.Polling?
    ensures var (next, reply) := Polled(w, w.main.request, json);
            reply.Result? ==> Earned(w, next, reply.job, reply.code, reply.bytes)
  {
    CollectedKeeps(w);
    var c := Collected(w);
    if c.caller.active && c.caller.completed.Some? && !c.caller.discard && c.caller.kind == w.main.request.kind {
      assert c.heap == w.heap;
      ConsumedKeeps(c, json);
      assert Current(c) == c.caller.completed;
    }
  }

  ghost predicate Grows(h: Heap, h': Heap) {
    && h.destroyed <= h'.destroyed && h.freed <= h'.freed && h.handed <= h'.handed && h.wiped <= h'.wiped
    && h.jobs <= h'.jobs && h.buffers <= h'.buffers && h.clips <= h'.clips
  }

  lemma {:induction false} HeapGrows(w: World, es: seq<Event>)
    ensures Grows(w.heap, Run(w, es).heap)
    decreases |es|
  {
    if |es| > 0 {
      HeapGrowsOnce(w, es[0]);
      HeapGrows(Next(w, es[0]).0, es[1..]);
    }
  }

  lemma CollectedGrows(w: World)
    ensures Grows(w.heap, Collected(w).heap)
  {
  }

  lemma HeapGrowsOnce(w: World, e: Event)
    ensures Grows(w.heap, Next(w, e).0.heap)
  {
    CollectedGrows(w);
    match e
    case Busy =>
    case Cancel => CollectedGrows(w.(caller := w.caller.(discard := true), history := w.history.(cancelled := true)));
    case Record(_) => case Ask(_) => case Poll(_) => case Begin(_, _, _) => case Receive => case Execute(_) => case Send =>
  }

  lemma {:induction false} RunAppend(w: World, es: seq<Event>, fs: seq<Event>)
    ensures Run(w, es + fs) == Run(Run(w, es), fs)
    decreases |es|
  {
    if |es| == 0 {
      assert es + fs == fs;
    } else {
      assert (es + fs)[1..] == es[1..] + fs;
      RunAppend(Next(w, es[0]).0, es[1..], fs);
    }
  }

  /** Whatever leaves, leaves once and for good: a response buffer is wiped and freed or handed to
      the caller, a clip stays with the caller or is wiped, and never both, in every continuation. */
  lemma EverythingLeavesOnce(es: seq<Event>, fs: seq<Event>, i: nat)
    ensures var h := Run(START, es).heap;
            var h' := Run(START, es + fs).heap;
            && (i in h.freed ==> i in h'.freed && i !in h'.handed)
            && (i in h.handed ==> i in h'.handed && i !in h'.freed)
            && (i in h.wiped ==> i in h'.wiped && i !in h'.held)
            && (i in h.destroyed ==> i in h'.destroyed)
            && (Jobs(Run(START, es)) == 0 && i < h.buffers ==> i in h.freed || i in h.handed)
            && (Jobs(Run(START, es)) == 0 && i < h.clips ==> i in h.held || i in h.wiped)
  {
    RunKeeps(START, es);
    RunKeeps(START, es + fs);
    RunAppend(START, es, fs);
    HeapGrows(Run(START, es), fs);
  }

  /** Starting a request either enqueues it, moving the clip into the job, or fails and leaves the
      clip with the caller and no job behind; it is refused exactly when a resource is missing. */
  lemma CallerKeepsClipUnlessEnqueued(es: seq<Event>, trusted: bool, memory: bool, strings: bool)
    requires Run(START, es).main.Starting?
    ensures var w := Run(START, es);
            var (next, reply) := Next(w, Begin(trusted, memory, strings));
            var upload := w.main.request.upload;
            && (reply == Code(PENDING) <==> trusted && memory && strings)
            && (reply == Code(PENDING) ==>
                  && Jobs(next) == 1 && next.link.requests.value.upload == upload && next.link.requests.value.kind == w.main.request.kind
                  && next.heap.held == w.heap.held - (if upload.Some? then {upload.value.id} else {}))
            && (reply != Code(PENDING) ==> Jobs(next) == 0 && next.heap.held == w.heap.held && next.caller == IDLE)
  {
    RunKeeps(START, es);
  }

  // ---------------------------------------------------------------- a transcription without audio

  /** postWav checks its clip after one collect, pollOrStart collects again.  A call without a usable
      clip goes on to start a job exactly when the job in flight was cancelled and its response
      arrives between the two. */
  lemma SoundlessStartIffCancelledResponse(es: seq<Event>, json: bool)
    requires Run(START, es).main.Polling? && Soundless(Run(START, es).main.request)
    ensures var w := Run(START, es);
            Next(w, Poll(json)).0.main.Starting? <==> w.caller.discard && w.link.responses.Some?
  {
    RunKeeps(START, es);
    SoundlessPollGoesOnIff(Run(START, es), json);
  }

  lemma SoundlessPollGoesOnIff(w: World, json: bool)
    requires Inv(w) && w.main.Polling? && Soundless(w.main.request)
    ensures Next(w, Poll(json)).0.main.Starting? <==> w.caller.discard && w.link.responses.Some?
  {
    CollectedKeeps(w);
  }

  /** Without a cancellation every transcription is started with a clip of 44 to 960044 bytes. */
  lemma TranscriptionHasAudioUnlessCancelled(es: seq<Event>)
    ensures var w := Run(START, es);
            w.main.Starting? && w.main.request.kind == TRANSCRIPTION && !w.history.cancelled ==> Audible(w.main.request.upload)
  {
    RunKeeps(START, es);
  }

  /** The interleaving: a recorded clip is sent and cancelled, then postWav polls without a clip. */
  lemma TranscriptionWithoutAudioCanStart()
    ensures exists es: seq<Event> ::
              var w := Run(START, es);
              w.link.requests.Some? && w.link.requests.value.kind == TRANSCRIPTION && w.link.requests.value.upload.None?
  {
    var network := Network(false, 0, false, false, 0, false, 0, false);
    var first := [Record(44), Ask(Request(TRANSCRIPTION, Some(Upload(0, 44)))), Poll(true), Begin(true, true, true)];
    var second := [Receive, Execute(network), Cancel, Ask(Request(TRANSCRIPTION, None))];
    var third := [Send, Poll(true), Begin(true, true, true)];
    var w1 := Four(START, first);
    var w2 := Four(w1, second);
    var w3 := Three(w2, third);
    RunAppend(START, first, second);
    RunAppend(START, first + second, third);
    assert w3 == Run(START, first + second + third);
  }

  lemma Three(w: World, es: seq<Event>) returns (last: World)
    requires |es| == 3
    ensures last == Run(w, es) == Next(Next(Next(w, es[0]).0, es[1]).0, es[2]).0
  {
    var w1 := Next(w, es[0]).0;
    var w2 := Next(w1, es[1]).0;
    last := Next(w2, es[2]).0;
    assert Run(w2, es[1..][1..]) == Run(last, es[1..][1..][1..]) == last;
    assert Run(w1, es[1..]) == Run(w2, es[1..][1..]);
  }

  lemma Four(w: World, es: seq<Event>) returns (last: World)
    requires |es| == 4
    ensures last == Run(w, es) == Next(Next(Next(Next(w, es[0]).0, es[1]).0, es[2]).0, es[3]).0
  {
    last := Three(Next(w, es[0]).0, es[1..]);
  }
}
