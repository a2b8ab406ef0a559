/** The capture task scheduler as a value.

    `State` holds the fields of `CaptureTaskService`; the thread vector is a sequence of
    program counters, one per `std::thread` ever pushed.  Every function below is one region
    that runs under the service mutex `mu_` (or one stretch of code between two regions), so
    any interleaving of the functions is an interleaving of the threads.  The class
    `CaptureTaskService` updates the same fields in place and is proved against them. */
module CaptureModel {
  import opened Wrappers

  type TaskId = nat      // the sequence number inside "cap-<time>-<seq>"
  type DeviceId = nat    // device and connection names, numbered; 0 is the empty name
  type ConnId = nat
  const NO_DEVICE: DeviceId := 0

  // steady_clock ticks in nanoseconds
  const MS: int := 1_000_000
  const COOLDOWN: int := 1500 * MS

  const OK := 0
  const INVALID_PARAMS := 1002
  const RATE_LIMITED := 1004
  const DEVICE_BUSY := 1201
  const CAPTURE_FAILED := 1301
  const INTERNAL_ERROR := 1900

  datatype Source = Manual | HardGrab
  datatype Status = Queued | Running | Succeeded | Failed
  datatype Acquisition = AcqQueued | Capturing | Captured | AcqFailed
  datatype Processing = NotStarted | ProcQueued | ProcRunning | ProcSucceeded | ProcFailed | Skipped

  /** `captured` is true in a request exactly when the original image is already there. */
  datatype RawCapture = RawCapture(captured: bool, code: int)

  /** `profileOk` says that the profile version is "capture.profile.v1". */
  datatype Request = Request(conn: ConnId, device: DeviceId, profileOk: bool, raw: RawCapture)

  datatype Task = Task(conn: ConnId, device: DeviceId, source: Source,
                       status: Status, acquisition: Acquisition, processing: Processing, code: int)

  datatype Summary = Summary(captured: nat, processed: nat, failed: nat, pending: nat)
  const NO_SUMMARY := Summary(0, 0, 0, 0)

  /** What a pipeline run returns; `status` is None for an empty status string. */
  datatype PipelineResult = PipelineResult(code: int, status: Option<Outcome>)
  datatype Outcome = GoodOutcome | BadOutcome

  datatype StartResult = StartResult(code: int, accepted: bool, retryAfterMs: int, task: Option<TaskId>)

  /** One thread.  `Capture...` threads run RunCaptureTask, `Queue...` threads RunProcessingQueue. */
  datatype Worker =
    | CaptureBegin(id: TaskId)
    | CaptureAction(id: TaskId, request: Request)
    | CaptureFailing(id: TaskId, request: Request)
    | CaptureCommit(id: TaskId, request: Request, raw: RawCapture)
    | SpawnFailed(id: TaskId, request: Request)
    | CaptureDone
    | QueueIdle(device: DeviceId)
    | QueueRunning(device: DeviceId, id: TaskId, request: Request)
    | QueueFinishing(device: DeviceId, id: TaskId, request: Request, result: PipelineResult)
    | QueueDone
  {
    predicate Live() { !CaptureDone? && !QueueDone? }
  }

  /** Everything the code cannot decide: file system, provider, thread creation, pipeline. */
  datatype Choice = Choice(rawDirReady: bool, providerOk: bool, staged: bool, spawnOk: bool, result: PipelineResult)

  datatype State = State(
    tasks: map<TaskId, Task>,
    requests: map<TaskId, Request>,
    queues: map<DeviceId, seq<TaskId>>,
    capturing: set<DeviceId>,
    processing: set<DeviceId>,
    cooldown: map<DeviceId, int>,
    summaries: map<ConnId, map<DeviceId, Summary>>,
    activeWorkers: set<TaskId>,
    workers: seq<Worker>,
    nextSeq: TaskId)

  const INITIAL := State(map[], map[], map[], {}, {}, map[], map[], {}, [], 1)

  predicate Terminal(t: Task) {
    t.status == Succeeded || t.status == Failed
  }

  function QueueOf(queues: map<DeviceId, seq<TaskId>>, d: DeviceId): seq<TaskId> {
    if d in queues then queues[d] else []
  }

  function SummaryOf(m: map<ConnId, map<DeviceId, Summary>>, c: ConnId, d: DeviceId): Summary {
    if c in m && d in m[c] then m[c][d] else NO_SUMMARY
  }

  function PutSummary(m: map<ConnId, map<DeviceId, Summary>>, c: ConnId, d: DeviceId, x: Summary)
    : map<ConnId, map<DeviceId, Summary>>
  {
    m[c := (if c in m then m[c] else map[])[d := x]]
  }

  // ----- the reservation protocol, called by the command layer

  function RetryAfterMs(remaining: int): int {
    if remaining / MS < 1 then 1 else remaining / MS
  }

  function NewTask(r: Request): Task {
    Task(r.conn, r.device, if r.raw.captured then HardGrab else Manual, Queued, AcqQueued, NotStarted, OK)
  }

  function Reserve(s: State, r: Request, now: int): (State, StartResult) {
    if r.device == NO_DEVICE || !r.profileOk then
      (s, StartResult(INVALID_PARAMS, false, 0, None))
    else
      var id := s.nextSeq;
      var s1 := s.(nextSeq := id + 1);
      if r.device in s.capturing then
        (s1, StartResult(DEVICE_BUSY, false, 0, None))
      else if r.device in s.cooldown && now < s.cooldown[r.device] then
        (s1, StartResult(RATE_LIMITED, false, RetryAfterMs(s.cooldown[r.device] - now), None))
      else
        (s1.(capturing := if r.raw.captured then s.capturing else s.capturing + {r.device},
             cooldown := s.cooldown[r.device := now + COOLDOWN],
             tasks := s.tasks[id := NewTask(r)],
             requests := s.requests[id := r]),
         StartResult(OK, true, 0, Some(id)))
  }

  /** What AbortReservedTask and a failed StartReservedTask both take away. */
  function Unreserve(s: State, id: TaskId): State
    requires id in s.tasks
  {
    var d := s.tasks[id].device;
    s.(capturing := s.capturing - {d},
       cooldown := s.cooldown - {d},
       requests := s.requests - {id},
       tasks := s.tasks - {id})
  }

  function Start(s: State, id: TaskId, spawnOk: bool): (State, StartResult) {
    if id !in s.tasks || id !in s.requests then
      (s, StartResult(INVALID_PARAMS, false, 0, None))
    else if s.tasks[id].acquisition != AcqQueued then
      (s, StartResult(INVALID_PARAMS, false, 0, None))
    else if spawnOk then
      (s.(activeWorkers := s.activeWorkers + {id}, workers := s.workers + [CaptureBegin(id)]),
       StartResult(OK, true, 0, Some(id)))
    else
      (Unreserve(s, id).(activeWorkers := s.activeWorkers - {id}),
       StartResult(INTERNAL_ERROR, false, 0, None))
  }

  function Abort(s: State, id: TaskId): State {
    if id !in s.tasks || s.tasks[id].acquisition != AcqQueued then s else Unreserve(s, id)
  }

  // ----- cleanup

  function ActiveTasks(s: State): set<TaskId> {
    set id | id in s.tasks && !Terminal(s.tasks[id])
  }

  function ClearFinished(s: State): State {
    s.(tasks := map id | id in s.tasks && id in s.activeWorkers :: s.tasks[id],
       requests := map id | id in s.requests && (id in s.tasks ==> id in s.activeWorkers) :: s.requests[id])
  }

  // ----- capture threads

  function SetWorker(s: State, i: nat, w: Worker): State
    requires i < |s.workers|
  {
    s.(workers := s.workers[i := w])
  }

  function Begin(s: State, i: nat): State
    requires i < |s.workers| && s.workers[i].CaptureBegin?
  {
    var id := s.workers[i].id;
    if id !in s.requests || id !in s.tasks then SetWorker(s, i, CaptureDone)
    else
      SetWorker(s, i, CaptureAction(id, s.requests[id])).(
        tasks := s.tasks[id := s.tasks[id].(status := Running, acquisition := Capturing)])
  }

  /** True iff CaptureRaw reaches the provider's CaptureStill. */
  predicate CallsShutter(r: Request, c: Choice) {
    !r.raw.captured && c.rawDirReady
  }

  function Acquire(s: State, i: nat, c: Choice): State
    requires i < |s.workers| && s.workers[i].CaptureAction?
  {
    var CaptureAction(id, r) := s.workers[i];
    var raw :=
      if r.raw.captured then r.raw
      else if c.rawDirReady && c.providerOk then RawCapture(true, OK)
      else RawCapture(false, CAPTURE_FAILED);
    SetWorker(s, i,
      if raw.code == OK && raw.captured && c.staged then CaptureCommit(id, r, raw) else CaptureFailing(id, r))
  }

  function AddCaptured(x: Summary): Summary {
    x.(captured := x.captured + 1, pending := x.pending + 1)
  }

  function AddFailed(x: Summary): Summary {
    x.(failed := x.failed + 1)
  }

  function AddCompleted(x: Summary, ok: bool): Summary {
    var y := x.(pending := if x.pending > 0 then x.pending - 1 else 0);
    if ok then y.(processed := y.processed + 1) else y.(failed := y.failed + 1)
  }

  function CapturedTask(t: Task): Task {
    t.(acquisition := Captured, processing := ProcQueued)
  }

  /** True iff the captured commit finds no queue thread for the device and cannot make one. */
  predicate SpawnRefused(s: State, d: DeviceId, c: Choice) {
    d !in s.processing && !c.spawnOk
  }

  function Commit(s: State, i: nat, c: Choice): State
    requires i < |s.workers| && s.workers[i].CaptureCommit?
  {
    var CaptureCommit(id, r, raw) := s.workers[i];
    if id !in s.requests || id !in s.tasks then SetWorker(s, i, CaptureDone)
    else
      var d := r.device;
      var pushed := QueueOf(s.queues, d) + [id];
      var s1 := s.(
        requests := s.requests[id := s.requests[id].(raw := raw)],
        tasks := s.tasks[id := CapturedTask(s.tasks[id])],
        capturing := s.capturing - {d},
        summaries := PutSummary(s.summaries, r.conn, d, AddCaptured(SummaryOf(s.summaries, r.conn, d))));
      if SpawnRefused(s, d, c) then
        s1.(queues := s.queues[d := pushed[..|pushed| - 1]],
            workers := s.workers[i := SpawnFailed(id, r)])
      else if d !in s.processing then
        s1.(queues := s.queues[d := pushed],
            processing := s.processing + {d},
            workers := s.workers[i := CaptureDone] + [QueueIdle(d)])
      else
        s1.(queues := s.queues[d := pushed], workers := s.workers[i := CaptureDone])
  }

  lemma CommitMissing(s: State, i: nat, c: Choice)
    requires i < |s.workers| && s.workers[i].CaptureCommit?
               && (s.workers[i].id !in s.tasks || s.workers[i].id !in s.requests)
    ensures Commit(s, i, c) == s.(workers := s.workers[i := CaptureDone])
  {
  }

  /** The captured commit field by field. */
  lemma CommitFields(s: State, i: nat, c: Choice)
    requires i < |s.workers| && s.workers[i].CaptureCommit? && s.workers[i].id in s.tasks
               && s.workers[i].id in s.requests
    ensures var CaptureCommit(x, rq, raw) := s.workers[i];
            var d, b := rq.device, Commit(s, i, c);
            && b.tasks == s.tasks[x := CapturedTask(s.tasks[x])]
            && b.requests == s.requests[x := s.requests[x].(raw := raw)]
            && b.capturing == s.capturing - {d}
            && b.summaries == PutSummary(s.summaries, rq.conn, d, AddCaptured(SummaryOf(s.summaries, rq.conn, d)))
            && b.cooldown == s.cooldown && b.activeWorkers == s.activeWorkers && b.nextSeq == s.nextSeq
            && b.processing == (if SpawnRefused(s, d, c) then s.processing else s.processing + {d})
            && b.queues == (if SpawnRefused(s, d, c) then s.queues[d := QueueOf(s.queues, d)]
                 else s.queues[d := QueueOf(s.queues, d) + [x]])
            && b.workers == (if SpawnRefused(s, d, c) then s.workers[i := SpawnFailed(x, rq)]
                             else if d in s.processing then s.workers[i := CaptureDone]
                             else s.workers[i := CaptureDone] + [QueueIdle(d)])
  {
    hide PutSummary, SummaryOf, AddCaptured, QueueOf;
    var CaptureCommit(x, rq, raw) := s.workers[i];
    var pushed := QueueOf(s.queues, rq.device) + [x];
    assert pushed[..|pushed| - 1] == QueueOf(s.queues, rq.device);
    if rq.device in s.processing { assert s.processing + {rq.device} == s.processing; }
  }

  function FailCapture(s: State, i: nat): State
    requires i < |s.workers| && s.workers[i].CaptureFailing?
  {
    var CaptureFailing(id, r) := s.workers[i];
    if id !in s.tasks then SetWorker(s, i, CaptureDone)
    else
      SetWorker(s, i, CaptureDone).(
        tasks := s.tasks[id := s.tasks[id].(status := Failed, acquisition := AcqFailed, processing := Skipped,
            code := CAPTURE_FAILED)],
        capturing := s.capturing - {r.device},
        activeWorkers := s.activeWorkers - {id},
        summaries := PutSummary(s.summaries, r.conn, r.device, AddFailed(SummaryOf(s.summaries, r.conn, r.device))))
  }

  // ----- completion, shared by queue threads and by a capture thread whose spawn failed

  const SPAWN_FAILURE := PipelineResult(INTERNAL_ERROR, Some(BadOutcome))

  function FinalStatus(result: PipelineResult): Status {
    match result.status
    case None => if result.code == OK then Succeeded else Failed
    case Some(o) => if o == GoodOutcome then Succeeded else Failed
  }

  predicate Succeeds(result: PipelineResult) {
    result.code == OK && FinalStatus(result) == Succeeded
  }

  function Complete(s: State, id: TaskId, r: Request, result: PipelineResult): State {
    if id !in s.tasks then s
    else
      s.(tasks := s.tasks[id := s.tasks[id].(status := FinalStatus(result),
                                             processing := if Succeeds(result) then ProcSucceeded else ProcFailed,
                                             code := result.code)],
         activeWorkers := s.activeWorkers - {id},
         summaries := PutSummary(s.summaries, r.conn, r.device,
                                 AddCompleted(SummaryOf(s.summaries, r.conn, r.device), Succeeds(result))))
  }

  // ----- queue threads

  function Pop(s: State, i: nat): State
    requires i < |s.workers| && s.workers[i].QueueIdle?
  {
    var d := s.workers[i].device;
    if QueueOf(s.queues, d) == [] then
      SetWorker(s, i, QueueDone).(processing := s.processing - {d}, queues := s.queues - {d})
    else
      var id := s.queues[d][0];
      var s1 := s.(queues := s.queues[d := s.queues[d][1..]]);
      if id !in s.requests || id !in s.tasks then s1
      else
        SetWorker(s1, i, QueueRunning(d, id, s.requests[id])).(
          tasks := s.tasks[id := s.tasks[id].(processing := ProcRunning)])
  }

  /** One move of thread `i`. */
  function Step(s: State, i: nat, c: Choice): (r: State)
    requires i < |s.workers| && s.workers[i].Live()
    ensures |s.workers| <= |r.workers| <= |s.workers| + 1
  {
    match s.workers[i]
    case CaptureBegin(_) => Begin(s, i)
    case CaptureAction(_, _) => Acquire(s, i, c)
    case CaptureFailing(_, _) => FailCapture(s, i)
    case CaptureCommit(_, _, _) => Commit(s, i, c)
    case SpawnFailed(id, r) => Complete(SetWorker(s, i, CaptureDone), id, r, SPAWN_FAILURE)
    case QueueIdle(_) => Pop(s, i)
    case QueueRunning(d, id, r) => SetWorker(s, i, QueueFinishing(d, id, r, c.result))
    case QueueFinishing(d, id, r, result) => Complete(SetWorker(s, i, QueueIdle(d)), id, r, result)
  }
}
