/** A reservation that was taken back has used up a number, so later tasks have shifted ids.  No
    later run can tell otherwise: same moves, same answers, same history up to that shift. */
module CaptureRenaming {
  import opened Wrappers
  import opened CaptureModel
  import opened CaptureWorld
  import opened CaptureOwnership
  import opened CaptureRollback
  import opened CaptureEffects
  import CT = CaptureTaskService

  /** The number `n` is left out. */
  function Shift(n: TaskId, x: TaskId): TaskId {
    if x < n then x else x + 1
  }

  function ShiftWorker(n: TaskId, w: Worker): Worker {
    match w
    case CaptureBegin(id) => CaptureBegin(Shift(n, id))
    case CaptureAction(id, r) => CaptureAction(Shift(n, id), r)
    case CaptureFailing(id, r) => CaptureFailing(Shift(n, id), r)
    case CaptureCommit(id, r, raw) => CaptureCommit(Shift(n, id), r, raw)
    case SpawnFailed(id, r) => SpawnFailed(Shift(n, id), r)
    case QueueRunning(d, id, r) => QueueRunning(d, Shift(n, id), r)
    case QueueFinishing(d, id, r, result) => QueueFinishing(d, Shift(n, id), r, result)
    case _ => w
  }

  function ShiftEvent(n: TaskId, e: Event): Event {
    match e
    case Accepted(id, d, source, at) => Accepted(Shift(n, id), d, source, at)
    case RolledBack(id) => RolledBack(Shift(n, id))
    case Shutter(id) => Shutter(Shift(n, id))
    case CapturedRaw(id, c, d, queued) => CapturedRaw(Shift(n, id), c, d, queued)
    case CaptureLost(id, c, d) => CaptureLost(Shift(n, id), c, d)
    case Popped(id, d) => Popped(Shift(n, id), d)
    case Ran(id, shot, result) => Ran(Shift(n, id), shot, result)
    case Finished(id, c, d, result) => Finished(Shift(n, id), c, d, result)
  }

  function ShiftLog(n: TaskId, log: seq<Event>): (r: seq<Event>)
    ensures |r| == |log|
  {
    seq(|log|, i requires 0 <= i < |log| => ShiftEvent(n, log[i]))
  }

  function ShiftResult(n: TaskId, r: StartResult): StartResult {
    if r.task.Some? then r.(task := Some(Shift(n, r.task.value))) else r
  }

  function ShiftResults(n: TaskId, rs: seq<StartResult>): (r: seq<StartResult>)
    ensures |r| == |rs|
  {
    seq(|rs|, i requires 0 <= i < |rs| => ShiftResult(n, rs[i]))
  }

  function ShiftSection(n: TaskId, s: Section): Section {
    if s.Reserved? then Reserved(Shift(n, s.id)) else s
  }

  // ----- the fields, shifted

  ghost predicate MapShifts<T>(n: TaskId, a: map<TaskId, T>, b: map<TaskId, T>) {
    && n !in b
    && forall x: TaskId :: (x in a <==> Shift(n, x) in b) && (x in a ==> b[Shift(n, x)] == a[x])
  }

  ghost predicate SetShifts(n: TaskId, a: set<TaskId>, b: set<TaskId>) {
    n !in b && forall x: TaskId :: x in a <==> Shift(n, x) in b
  }

  predicate SeqShifts(n: TaskId, a: seq<TaskId>, b: seq<TaskId>) {
    |a| == |b| && forall i | 0 <= i < |a| :: b[i] == Shift(n, a[i])
  }

  ghost predicate QueuesShift(n: TaskId, a: map<DeviceId, seq<TaskId>>, b: map<DeviceId, seq<TaskId>>) {
    a.Keys == b.Keys && forall d | d in a :: SeqShifts(n, a[d], b[d])
  }

  predicate WorkersShift(n: TaskId, a: seq<Worker>, b: seq<Worker>) {
    |a| == |b| && forall i | 0 <= i < |a| :: b[i] == ShiftWorker(n, a[i])
  }

  /** `b` lacks at most cooldown entries that have expired. */
  predicate CooldownsAlike(a: map<DeviceId, int>, b: map<DeviceId, int>, now: int) {
    && (forall d | d in b :: d in a && a[d] == b[d])
    && (forall d | d in a && d !in b :: a[d] <= now)
  }

  ghost predicate Shifted(n: TaskId, a: State, b: State, now: int) {
    && MapShifts(n, a.tasks, b.tasks) && MapShifts(n, a.requests, b.requests)
    && QueuesShift(n, a.queues, b.queues)
    && b.capturing == a.capturing && b.processing == a.processing && b.summaries == a.summaries
    && CooldownsAlike(a.cooldown, b.cooldown, now)
    && SetShifts(n, a.activeWorkers, b.activeWorkers)
    && WorkersShift(n, a.workers, b.workers)
    && n <= a.nextSeq && b.nextSeq == a.nextSeq + 1
  }

  lemma PutShifts<T>(n: TaskId, a: map<TaskId, T>, b: map<TaskId, T>, x: TaskId, v: T)
    requires MapShifts(n, a, b)
    ensures MapShifts(n, a[x := v], b[Shift(n, x) := v])
  {
  }

  lemma DropShifts<T>(n: TaskId, a: map<TaskId, T>, b: map<TaskId, T>, x: TaskId)
    requires MapShifts(n, a, b)
    ensures MapShifts(n, a - {x}, b - {Shift(n, x)})
  {
  }

  lemma WorkerShifts(n: TaskId, a: seq<Worker>, b: seq<Worker>, i: nat, w: Worker)
    requires WorkersShift(n, a, b) && i < |a|
    ensures WorkersShift(n, a[i := w], b[i := ShiftWorker(n, w)])
  {
  }

  lemma MoreWorkers(n: TaskId, a: seq<Worker>, b: seq<Worker>, w: Worker)
    requires WorkersShift(n, a, b)
    ensures WorkersShift(n, a + [w], b + [ShiftWorker(n, w)])
  {
  }

  lemma PutQueue(n: TaskId, a: map<DeviceId, seq<TaskId>>, b: map<DeviceId, seq<TaskId>>, d: DeviceId,
                 q: seq<TaskId>, q': seq<TaskId>)
    requires QueuesShift(n, a, b) && SeqShifts(n, q, q')
    ensures QueuesShift(n, a[d := q], b[d := q'])
  {
  }

  // ----- the command layer

  /** An expired entry limits no one, so it may be missing. */
  lemma SameLimit(a: map<DeviceId, int>, b: map<DeviceId, int>, d: DeviceId, before: int, now: int)
    requires CooldownsAlike(a, b, before) && before <= now
    ensures d in a && now < a[d] <==> d in b && now < b[d]
    ensures d in b ==> d in a && a[d] == b[d]
    ensures CooldownsAlike(a, b, now) && CooldownsAlike(a[d := now + COOLDOWN], b[d := now + COOLDOWN], now)
  {
  }

  lemma ReserveAnswers(n: TaskId, a: State, b: State, r: Request, before: int, now: int)
    requires Shifted(n, a, b, before) && before <= now
    ensures Reserve(b, r, now).1 == ShiftResult(n, Reserve(a, r, now).1)
    ensures Shift(n, a.nextSeq) == b.nextSeq
  {
    hide MapShifts, QueuesShift, SetShifts, WorkersShift, CooldownsAlike, NewTask;
    SameLimit(a.cooldown, b.cooldown, r.device, before, now);
  }

  lemma ReserveStates(n: TaskId, a: State, b: State, r: Request, before: int, now: int)
    requires Shifted(n, a, b, before) && before <= now && Shift(n, a.nextSeq) == b.nextSeq
    requires Reserve(b, r, now).1.accepted == Reserve(a, r, now).1.accepted
    requires Reserve(b, r, now).1.code == Reserve(a, r, now).1.code
    ensures Shifted(n, Reserve(a, r, now).0, Reserve(b, r, now).0, now)
  {
    hide MapShifts, QueuesShift, SetShifts, WorkersShift, CooldownsAlike, NewTask, RetryAfterMs;
    SameLimit(a.cooldown, b.cooldown, r.device, before, now);
    PutShifts(n, a.tasks, b.tasks, a.nextSeq, NewTask(r));
    PutShifts(n, a.requests, b.requests, a.nextSeq, r);
  }

  lemma ReserveShifts(n: TaskId, a: State, b: State, r: Request, before: int, now: int)
    requires Shifted(n, a, b, before) && before <= now
    ensures var (a', x) := Reserve(a, r, now);
            var (b', y) := Reserve(b, r, now);
            Shifted(n, a', b', now) && y == ShiftResult(n, x) && Shift(n, a.nextSeq) == b.nextSeq
  {
    hide Reserve, Shifted;
    ReserveAnswers(n, a, b, r, before, now);
    ReserveStates(n, a, b, r, before, now);
  }

  lemma UnreserveShifts(n: TaskId, a: State, b: State, id: TaskId, now: int)
    requires Shifted(n, a, b, now) && id in a.tasks && Shift(n, id) in b.tasks && b.tasks[Shift(n, id)] == a.tasks[id]
    ensures Shifted(n, Unreserve(a, id), Unreserve(b, Shift(n, id)), now)
  {
    hide MapShifts, QueuesShift, SetShifts, WorkersShift;
    DropShifts(n, a.tasks, b.tasks, id);
    DropShifts(n, a.requests, b.requests, id);
  }

  /** Both states have the task, or neither has, and it is the same. */
  lemma SameTask(n: TaskId, a: State, b: State, id: TaskId, now: int)
    requires Shifted(n, a, b, now)
    ensures id in a.tasks <==> Shift(n, id) in b.tasks
    ensures id in a.requests <==> Shift(n, id) in b.requests
    ensures id in a.tasks ==> b.tasks[Shift(n, id)] == a.tasks[id]
    ensures id in a.requests ==> b.requests[Shift(n, id)] == a.requests[id]
  {
    hide QueuesShift, SetShifts, WorkersShift, CooldownsAlike;
  }

  lemma ActiveShifts(n: TaskId, a: set<TaskId>, b: set<TaskId>, id: TaskId)
    requires SetShifts(n, a, b)
    ensures SetShifts(n, a + {id}, b + {Shift(n, id)}) && SetShifts(n, a - {id}, b - {Shift(n, id)})
  {
  }

  lemma StartShifts(n: TaskId, a: State, b: State, id: TaskId, spawnOk: bool, now: int)
    requires Shifted(n, a, b, now)
    ensures var (a', x) := Start(a, id, spawnOk);
            var (b', y) := Start(b, Shift(n, id), spawnOk);
            Shifted(n, a', b', now) && y == ShiftResult(n, x)
  {
    hide MapShifts, QueuesShift, SetShifts, WorkersShift, CooldownsAlike, Unreserve;
    SameTask(n, a, b, id, now);
    if id in a.tasks && id in a.requests && a.tasks[id].acquisition == AcqQueued {
      ActiveShifts(n, a.activeWorkers, b.activeWorkers, id);
      MoreWorkers(n, a.workers, b.workers, CaptureBegin(id));
      UnreserveShifts(n, a, b, id, now);
      SameActive(a, id);
      SameActive(b, Shift(n, id));
    }
  }

  lemma SameActive(s: State, id: TaskId)
    requires id in s.tasks
    ensures Unreserve(s, id).activeWorkers == s.activeWorkers
  {
  }

  lemma AbortShifts(n: TaskId, a: State, b: State, id: TaskId, now: int)
    requires Shifted(n, a, b, now)
    ensures Shifted(n, Abort(a, id), Abort(b, Shift(n, id)), now)
  {
    hide MapShifts, QueuesShift, SetShifts, WorkersShift, CooldownsAlike, Unreserve;
    SameTask(n, a, b, id, now);
    if id in a.tasks && a.tasks[id].acquisition == AcqQueued { UnreserveShifts(n, a, b, id, now); }
  }

  lemma DropAllShifts<T>(n: TaskId, a: map<TaskId, T>, b: map<TaskId, T>, x: set<TaskId>, y: set<TaskId>)
    requires MapShifts(n, a, b) && SetShifts(n, x, y)
    ensures MapShifts(n, a - x, b - y)
  {
  }

  lemma GoneShifts<T>(n: TaskId, a: map<TaskId, T>, b: map<TaskId, T>, x: set<TaskId>, y: set<TaskId>)
    requires MapShifts(n, a, b) && SetShifts(n, x, y)
    ensures SetShifts(n, a.Keys - x, b.Keys - y)
  {
  }

  lemma ClearShifts(n: TaskId, a: State, b: State, now: int)
    requires Shifted(n, a, b, now)
    ensures Shifted(n, ClearFinished(a), ClearFinished(b), now)
  {
    hide QueuesShift, WorkersShift, CooldownsAlike, MapShifts, SetShifts, ClearFinished;
    var x, y := a.tasks.Keys - a.activeWorkers, b.tasks.Keys - b.activeWorkers;
    GoneShifts(n, a.tasks, b.tasks, a.activeWorkers, b.activeWorkers);
    DropAllShifts(n, a.tasks, b.tasks, x, y);
    DropAllShifts(n, a.requests, b.requests, x, y);
    CT.ClearedAre(a, x);
    CT.ClearedAre(b, y);
  }

  lemma SomeActive(s: State, x: TaskId)
    requires x in s.tasks && !Terminal(s.tasks[x])
    ensures ActiveTasks(s) != {}
  {
    assert x in ActiveTasks(s);
  }

  lemma AnActive(s: State) returns (x: TaskId)
    requires ActiveTasks(s) != {}
    ensures x in s.tasks && !Terminal(s.tasks[x])
  {
    x :| x in ActiveTasks(s);
  }

  /** Every id of the shifted state is the shift of one. */
  lemma Unshift(n: TaskId, a: State, b: State, y: TaskId, now: int) returns (x: TaskId)
    requires Shifted(n, a, b, now) && y in b.tasks
    ensures Shift(n, x) == y
  {
    hide QueuesShift, WorkersShift, CooldownsAlike, SetShifts;
    assert y != n;
    x := if y < n then y else y - 1;
  }

  lemma ActiveAlike(n: TaskId, a: State, b: State, now: int)
    requires Shifted(n, a, b, now)
    ensures ActiveTasks(a) == {} <==> ActiveTasks(b) == {}
  {
    hide Shifted, ActiveTasks;
    if ActiveTasks(b) != {} {
      var y := AnActive(b);
      var x := Unshift(n, a, b, y, now);
      SameTask(n, a, b, x, now);
      SomeActive(a, x);
    }
    if ActiveTasks(a) != {} {
      var x := AnActive(a);
      SameTask(n, a, b, x, now);
      SomeActive(b, Shift(n, x));
    }
  }

  // ----- the threads

  lemma PutTaskShifts(n: TaskId, a: State, b: State, i: nat, w: Worker, id: TaskId, t: Task, now: int)
    requires Shifted(n, a, b, now) && i < |a.workers|
    ensures i < |b.workers|
    ensures Shifted(n, SetWorker(a, i, w).(tasks := a.tasks[id := t]),
                    SetWorker(b, i, ShiftWorker(n, w)).(tasks := b.tasks[Shift(n, id) := t]), now)
  {
    hide MapShifts, QueuesShift, SetShifts, CooldownsAlike;
    WorkerShifts(n, a.workers, b.workers, i, w);
    PutShifts(n, a.tasks, b.tasks, id, t);
  }

  lemma SetWorkerShifts(n: TaskId, a: State, b: State, i: nat, w: Worker, now: int)
    requires Shifted(n, a, b, now) && i < |a.workers|
    ensures i < |b.workers| && Shifted(n, SetWorker(a, i, w), SetWorker(b, i, ShiftWorker(n, w)), now)
    ensures b.workers[i] == ShiftWorker(n, a.workers[i])
  {
    hide MapShifts, QueuesShift, SetShifts, CooldownsAlike;
    WorkerShifts(n, a.workers, b.workers, i, w);
  }

  lemma BeginShifts(n: TaskId, a: State, b: State, i: nat, now: int)
    requires Shifted(n, a, b, now) && i < |a.workers| && a.workers[i].CaptureBegin?
    ensures i < |b.workers| && b.workers[i].CaptureBegin? && Shifted(n, Begin(a, i), Begin(b, i), now)
  {
    hide Shifted, SetWorker;
    var id := a.workers[i].id;
    SameTask(n, a, b, id, now);
    SetWorkerShifts(n, a, b, i, CaptureDone, now);
    if id in a.requests && id in a.tasks {
      PutTaskShifts(n, a, b, i, CaptureAction(id, a.requests[id]), id,
                    a.tasks[id].(status := Running, acquisition := Capturing), now);
    }
  }

  /** What a capture thread has become after the provider call and the staging. */
  function Acquired(w: Worker, c: Choice): Worker
    requires w.CaptureAction?
  {
    var CaptureAction(id, r) := w;
    var raw :=
      if r.raw.captured then r.raw
      else if c.rawDirReady && c.providerOk then RawCapture(true, OK)
      else RawCapture(false, CAPTURE_FAILED);
    if raw.code == OK && raw.captured && c.staged then CaptureCommit(id, r, raw) else CaptureFailing(id, r)
  }

  lemma AcquireShifts(n: TaskId, a: State, b: State, i: nat, c: Choice, now: int)
    requires Shifted(n, a, b, now) && i < |a.workers| && a.workers[i].CaptureAction?
    ensures i < |b.workers| && b.workers[i].CaptureAction? && Shifted(n, Acquire(a, i, c), Acquire(b, i, c), now)
  {
    hide Shifted, SetWorker;
    SetWorkerShifts(n, a, b, i, Acquired(a.workers[i], c), now);
  }

  lemma FailShifts(n: TaskId, a: State, b: State, i: nat, now: int)
    requires Shifted(n, a, b, now) && i < |a.workers| && a.workers[i].CaptureFailing?
    ensures i < |b.workers| && b.workers[i].CaptureFailing? && Shifted(n, FailCapture(a, i), FailCapture(b, i), now)
  {
    hide MapShifts, QueuesShift, SetShifts, CooldownsAlike, WorkersShift, PutSummary, SummaryOf;
    var id := a.workers[i].id;
    SameTask(n, a, b, id, now);
    SetWorkerShifts(n, a, b, i, CaptureDone, now);
    ActiveShifts(n, a.activeWorkers, b.activeWorkers, id);
    if id in a.tasks {
      PutShifts(n, a.tasks, b.tasks, id,
                a.tasks[id].(status := Failed, acquisition := AcqFailed, processing := Skipped,
                    code := CAPTURE_FAILED));
    }
  }

  lemma CompleteShifts(n: TaskId, a: State, b: State, id: TaskId, r: Request, result: PipelineResult, now: int)
    requires Shifted(n, a, b, now)
    ensures Shifted(n, Complete(a, id, r, result), Complete(b, Shift(n, id), r, result), now)
  {
    hide MapShifts, QueuesShift, SetShifts, CooldownsAlike, WorkersShift, PutSummary, SummaryOf, FinalStatus, Succeeds;
    SameTask(n, a, b, id, now);
    ActiveShifts(n, a.activeWorkers, b.activeWorkers, id);
    if id in a.tasks {
      PutShifts(n, a.tasks, b.tasks, id,
                a.tasks[id].(status := FinalStatus(result),
                             processing := if Succeeds(result) then ProcSucceeded
                                 else ProcFailed, code := result.code));
    }
  }

  lemma PopShifts(n: TaskId, a: State, b: State, i: nat, now: int)
    requires Shifted(n, a, b, now) && i < |a.workers| && a.workers[i].QueueIdle?
    ensures i < |b.workers| && b.workers[i].QueueIdle? && Shifted(n, Pop(a, i), Pop(b, i), now)
  {
    hide Shifted, MapShifts, QueuesShift, SetShifts, CooldownsAlike, WorkersShift;
    var d := a.workers[i].device;
    SetWorkerShifts(n, a, b, i, QueueDone, now);
    SameQueue(n, a, b, d, now);
    if QueueOf(a.queues, d) == [] {
      LeaveQueueShifts(n, SetWorker(a, i, QueueDone), SetWorker(b, i, QueueDone), d, now);
    } else {
      var id := a.queues[d][0];
      SameTask(n, a, b, id, now);
      TailShifts(n, a, b, d, now);
      var a1, b1 := a.(queues := a.queues[d := a.queues[d][1..]]), b.(queues := b.queues[d := b.queues[d][1..]]);
      if id in a.requests && id in a.tasks {
        PutTaskShifts(n, a1, b1, i, QueueRunning(d, id, a.requests[id]), id, a.tasks[id].(processing := ProcRunning),
            now);
      }
    }
  }

  lemma SameQueue(n: TaskId, a: State, b: State, d: DeviceId, now: int)
    requires Shifted(n, a, b, now)
    ensures SeqShifts(n, QueueOf(a.queues, d), QueueOf(b.queues, d)) && (d in a.queues <==> d in b.queues)
    ensures b.processing == a.processing
  {
    hide MapShifts, SetShifts, CooldownsAlike, WorkersShift;
  }

  lemma LeaveQueueShifts(n: TaskId, a: State, b: State, d: DeviceId, now: int)
    requires Shifted(n, a, b, now)
    ensures Shifted(n, a.(processing := a.processing - {d}, queues := a.queues - {d}),
                    b.(processing := b.processing - {d}, queues := b.queues - {d}), now)
  {
    hide MapShifts, SetShifts, CooldownsAlike, WorkersShift;
  }

  lemma PutQueueShifts(n: TaskId, a: State, b: State, d: DeviceId, q: seq<TaskId>, q': seq<TaskId>, now: int)
    requires Shifted(n, a, b, now) && SeqShifts(n, q, q')
    ensures Shifted(n, a.(queues := a.queues[d := q]), b.(queues := b.queues[d := q']), now)
  {
    hide MapShifts, SetShifts, CooldownsAlike, WorkersShift, SeqShifts;
    PutQueue(n, a.queues, b.queues, d, q, q');
  }

  lemma TailShifts(n: TaskId, a: State, b: State, d: DeviceId, now: int)
    requires Shifted(n, a, b, now) && d in a.queues && d in b.queues && a.queues[d] != [] && b.queues[d] != []
    ensures Shifted(n, a.(queues := a.queues[d := a.queues[d][1..]]), b.(queues := b.queues[d := b.queues[d][1..]]),
              now)
  {
    hide Shifted;
    SameQueue(n, a, b, d, now);
    PutQueueShifts(n, a, b, d, a.queues[d][1..], b.queues[d][1..], now);
  }

  lemma CommitShifts(n: TaskId, a: State, b: State, i: nat, c: Choice, now: int)
    requires Shifted(n, a, b, now) && i < |a.workers| && a.workers[i].CaptureCommit?
    ensures i < |b.workers| && b.workers[i].CaptureCommit? && Shifted(n, Commit(a, i, c), Commit(b, i, c), now)
  {
    hide Shifted, Commit, SetWorker;
    SetWorkerShifts(n, a, b, i, CaptureDone, now);
    var CaptureCommit(id, r, raw) := a.workers[i];
    SameTask(n, a, b, id, now);
    if id in a.tasks && id in a.requests {
      CommitFields(a, i, c);
      CommitFields(b, i, c);
      CommittedShifts(n, a, b, i, c, now);
    } else {
      CommitMissing(a, i, c);
      CommitMissing(b, i, c);
      SetDone(a, i);
      SetDone(b, i);
    }
  }

  lemma SetDone(s: State, i: nat)
    requires i < |s.workers|
    ensures SetWorker(s, i, CaptureDone) == s.(workers := s.workers[i := CaptureDone])
  {
  }

  lemma CommittedShifts(n: TaskId, a: State, b: State, i: nat, c: Choice, now: int)
    requires Shifted(n, a, b, now) && i < |a.workers| && a.workers[i].CaptureCommit?
    requires a.workers[i].id in a.tasks && a.workers[i].id in a.requests
    requires i < |b.workers| && b.workers[i] == ShiftWorker(n, a.workers[i])
    requires b.workers[i].id in b.tasks && b.workers[i].id in b.requests
    ensures Shifted(n, Commit(a, i, c), Commit(b, i, c), now)
  {
    hide MapShifts, QueuesShift, SetShifts, CooldownsAlike, WorkersShift, PutSummary, SummaryOf, AddCaptured, Commit;
    var CaptureCommit(id, r, raw) := a.workers[i];
    SameTask(n, a, b, id, now);
    SameQueue(n, a, b, r.device, now);
    PutShifts(n, a.tasks, b.tasks, id, CapturedTask(a.tasks[id]));
    PutShifts(n, a.requests, b.requests, id, a.requests[id].(raw := raw));
    var q, q' := QueueOf(a.queues, r.device), QueueOf(b.queues, r.device);
    PutQueue(n, a.queues, b.queues, r.device, q, q');
    PutQueue(n, a.queues, b.queues, r.device, q + [id], q' + [Shift(n, id)]);
    WorkerShifts(n, a.workers, b.workers, i, CaptureDone);
    WorkerShifts(n, a.workers, b.workers, i, SpawnFailed(id, r));
    MoreWorkers(n, a.workers[i := CaptureDone], b.workers[i := CaptureDone], QueueIdle(r.device));
    CommitFields(a, i, c);
    CommitFields(b, i, c);
  }

  /** One move of a thread. */
  lemma StepShifts(n: TaskId, a: State, b: State, i: nat, c: Choice, now: int)
    requires Shifted(n, a, b, now) && i < |a.workers| && a.workers[i].Live()
    ensures i < |b.workers| && b.workers[i] == ShiftWorker(n, a.workers[i]) && b.workers[i].Live()
    ensures Shifted(n, Step(a, i, c), Step(b, i, c), now)
  {
    hide Shifted, SetWorker, Begin, Acquire, FailCapture, Commit, Complete, Pop;
    SetWorkerShifts(n, a, b, i, CaptureDone, now);
    match a.workers[i]
    case CaptureBegin(_) => BeginShifts(n, a, b, i, now);
    case CaptureAction(_, _) => AcquireShifts(n, a, b, i, c, now);
    case CaptureFailing(_, _) => FailShifts(n, a, b, i, now);
    case CaptureCommit(_, _, _) => CommitShifts(n, a, b, i, c, now);
    case SpawnFailed(id, r) =>
      CompleteShifts(n, SetWorker(a, i, CaptureDone), SetWorker(b, i, CaptureDone), id, r, SPAWN_FAILURE, now);
    case QueueIdle(_) => PopShifts(n, a, b, i, now);
    case QueueRunning(d, id, r) => SetWorkerShifts(n, a, b, i, QueueFinishing(d, id, r, c.result), now);
    case QueueFinishing(d, id, r, result) =>
      SetWorkerShifts(n, a, b, i, QueueIdle(d), now);
      CompleteShifts(n, SetWorker(a, i, QueueIdle(d)), SetWorker(b, i, QueueIdle(d)), id, r, result, now);
  }

  lemma ObservedShifts(n: TaskId, a: State, b: State, i: nat, c: Choice, now: int)
    requires Shifted(n, a, b, now) && i < |a.workers| && a.workers[i].Live()
    ensures i < |b.workers| && b.workers[i].Live() && Observed(b, i, c) == ShiftLog(n, Observed(a, i, c))
  {
    hide Shifted, FinalStatus, Succeeds;
    SetWorkerShifts(n, a, b, i, CaptureDone, now);
    match a.workers[i]
    case QueueIdle(d) =>
      SameQueue(n, a, b, d, now);
      if QueueOf(a.queues, d) != [] { SameTask(n, a, b, QueueOf(a.queues, d)[0], now); }
    case CaptureFailing(id, _) => SameTask(n, a, b, id, now);
    case CaptureCommit(id, r, _) =>
      SameTask(n, a, b, id, now);
      SameQueue(n, a, b, r.device, now);
    case SpawnFailed(id, _) => SameTask(n, a, b, id, now);
    case QueueFinishing(_, id, _, _) => SameTask(n, a, b, id, now);
    case _ =>
  }

  // ----- runs

  /** The same world up to the shift; histories are compared from `k` and `l` on. */
  ghost predicate WorldShifted(n: TaskId, v: World, w: World, k: nat, l: nat) {
    && Shifted(n, v.svc, w.svc, v.clock) && w.section == ShiftSection(n, v.section) && w.clock == v.clock
    && k <= |v.log| && l <= |w.log| && w.log[l..] == ShiftLog(n, v.log[k..])
  }

  lemma LogShifts(n: TaskId, v: seq<Event>, w: seq<Event>, k: nat, l: nat, e: seq<Event>)
    requires k <= |v| && l <= |w| && w[l..] == ShiftLog(n, v[k..])
    ensures (w + ShiftLog(n, e))[l..] == ShiftLog(n, (v + e)[k..])
  {
    assert (v + e)[k..] == v[k..] + e;
    assert (w + ShiftLog(n, e))[l..] == w[l..] + ShiftLog(n, e);
  }

  /** The answer that a caller gets: code, acceptance, delay and task number. */
  function AnswerTo(w: World, m: Move): StartResult
    requires Enabled(w, m)
  {
    match m
    case DoReserve(r, now) => Reserve(w.svc, r, now).1
    case DoStart(spawnOk) => Start(w.svc, w.section.id, spawnOk).1
    case DoCleanupCheck => StartResult(OK, ActiveTasks(w.svc) == {}, 0, None)
    case _ => StartResult(OK, true, 0, None)
  }

  ghost function Answers(w: World, moves: seq<Move>): seq<StartResult>
    requires Run(w, moves)
    decreases |moves|
  {
    if moves == [] then [] else [AnswerTo(w, moves[0])] + Answers(Next(w, moves[0]), moves[1..])
  }

  lemma EnabledShifts(n: TaskId, v: World, w: World, k: nat, l: nat, m: Move)
    requires WorldShifted(n, v, w, k, l)
    ensures Enabled(v, m) <==> Enabled(w, m)
  {
    hide MapShifts, QueuesShift, SetShifts, CooldownsAlike;
  }

  lemma DeskShifts(n: TaskId, v: World, w: World, k: nat, l: nat, m: Move)
    requires WorldShifted(n, v, w, k, l) && Enabled(v, m) && Enabled(w, m) && !m.DoWork?
    ensures WorldShifted(n, Next(v, m), Next(w, m), k, l) && AnswerTo(w, m) == ShiftResult(n, AnswerTo(v, m))
  {
    hide Shifted, Reserve, Start, Abort, ClearFinished, ActiveTasks;
    match m
    case DoReserve(r, now) =>
      ReserveShifts(n, v.svc, w.svc, r, v.clock, now);
      LogShifts(n, v.log, w.log, k, l, [Accepted(v.svc.nextSeq, r.device, NewTask(r).source, now)]);
      assert ShiftLog(n, [Accepted(v.svc.nextSeq, r.device, NewTask(r).source, now)])
          == [Accepted(Shift(n, v.svc.nextSeq), r.device, NewTask(r).source, now)];
    case DoStart(spawnOk) =>
      StartShifts(n, v.svc, w.svc, v.section.id, spawnOk, v.clock);
      LogShifts(n, v.log, w.log, k, l, [RolledBack(v.section.id)]);
      assert ShiftLog(n, [RolledBack(v.section.id)]) == [RolledBack(w.section.id)];
    case DoAbort =>
      AbortShifts(n, v.svc, w.svc, v.section.id, v.clock);
      LogShifts(n, v.log, w.log, k, l, [RolledBack(v.section.id)]);
      assert ShiftLog(n, [RolledBack(v.section.id)]) == [RolledBack(w.section.id)];
    case DoCleanupCheck => ActiveAlike(n, v.svc, w.svc, v.clock);
    case DoCleanupClear => ClearShifts(n, v.svc, w.svc, v.clock);
    case DoCleanupGiveUp =>
  }

  lemma NextShifts(n: TaskId, v: World, w: World, k: nat, l: nat, m: Move)
    requires WorldShifted(n, v, w, k, l) && Enabled(v, m)
    ensures Enabled(w, m) && WorldShifted(n, Next(v, m), Next(w, m), k, l)
    ensures AnswerTo(w, m) == ShiftResult(n, AnswerTo(v, m))
  {
    EnabledShifts(n, v, w, k, l, m);
    if m.DoWork? {
      hide Shifted, Step, Observed;
      WorkMove(v, m.thread, m.choice);
      StepShifts(n, v.svc, w.svc, m.thread, m.choice, v.clock);
      ObservedShifts(n, v.svc, w.svc, m.thread, m.choice, v.clock);
      LogShifts(n, v.log, w.log, k, l, Observed(v.svc, m.thread, m.choice));
      WorkMove(w, m.thread, m.choice);
    } else {
      DeskShifts(n, v, w, k, l, m);
    }
  }

  lemma {:induction false} RunShifts(n: TaskId, v: World, w: World, k: nat, l: nat, moves: seq<Move>)
    requires WorldShifted(n, v, w, k, l)
    ensures Run(v, moves) <==> Run(w, moves)
    ensures Run(v, moves) ==>
              && WorldShifted(n, After(v, moves), After(w, moves), k, l)
              && Answers(w, moves) == ShiftResults(n, Answers(v, moves))
    decreases |moves|
  {
    hide WorldShifted, Next, Enabled, AnswerTo;
    if moves != [] {
      EnabledShifts(n, v, w, k, l, moves[0]);
      if Enabled(v, moves[0]) {
        NextShifts(n, v, w, k, l, moves[0]);
        RunShifts(n, Next(v, moves[0]), Next(w, moves[0]), k, l, moves[1..]);
      }
    }
  }

  // ----- the reservation that was taken back

  lemma SmallMap<T>(n: TaskId, m: map<TaskId, T>)
    requires forall x | x in m :: x < n
    ensures MapShifts(n, m, m)
  {
    assert n !in m;
  }

  lemma SmallSet(n: TaskId, m: set<TaskId>)
    requires forall x | x in m :: x < n
    ensures SetShifts(n, m, m)
  {
    assert n !in m;
  }

  lemma SmallQueues(s: State, h: Homes)
    requires Own(s, Free, h)
    ensures QueuesShift(s.nextSeq, s.queues, s.queues)
  {
    hide Owners, Places, Servers;
    forall d | d in s.queues ensures SeqShifts(s.nextSeq, s.queues[d], s.queues[d]) {
      assert Fifo(s.queues[d], s.tasks, d);
    }
  }

  lemma SmallWorkers(s: State, h: Homes)
    requires Own(s, Free, h)
    ensures WorkersShift(s.nextSeq, s.workers, s.workers)
  {
    hide Own;
    forall i | 0 <= i < |s.workers| ensures s.workers[i] == ShiftWorker(s.nextSeq, s.workers[i]) {
      var w := s.workers[i];
      if TaskOf(w).Some? {
        Held(s, Free, h, i, TaskOf(w).value);
        Known(s, Free, h, TaskOf(w).value);
      }
    }
  }

  lemma SmallTables(s: State, h: Homes)
    requires Own(s, Free, h)
    ensures MapShifts(s.nextSeq, s.tasks, s.tasks) && MapShifts(s.nextSeq, s.requests, s.requests)
    ensures SetShifts(s.nextSeq, s.activeWorkers, s.activeWorkers)
  {
    hide Owners, Queues, Servers;
    SmallMap(s.nextSeq, s.tasks);
    SmallMap(s.nextSeq, s.requests);
    SmallSet(s.nextSeq, s.activeWorkers);
  }

  /** What a taken-back reservation leaves is the state without it, shifted. */
  lemma RemainsShifted(s: State, d: DeviceId, now: int, h: Homes)
    requires Own(s, Free, h) && (d in s.cooldown ==> s.cooldown[d] <= now)
    ensures Shifted(s.nextSeq, s, Remains(s, d), now)
  {
    hide Own, MapShifts, SetShifts, QueuesShift, WorkersShift;
    SmallTables(s, h);
    SmallQueues(s, h);
    SmallWorkers(s, h);
  }

  /** Nothing that happens later tells the two apart: from the state with and the state without
      the refused reservation the same moves are possible in any order, callers get the same
      answers, and the histories agree up to the shifted numbers. */
  lemma {:induction false} NoLaterDifference(s: State, d: DeviceId, clock: int, h: Homes, moves: seq<Move>)
    requires Own(s, Free, h) && (d in s.cooldown ==> s.cooldown[d] <= clock)
    ensures var v, w := World(s, Free, clock, []), World(Remains(s, d), Free, clock, []);
            && (Run(v, moves) <==> Run(w, moves))
            && (Run(v, moves) ==>
                  && Answers(w, moves) == ShiftResults(s.nextSeq, Answers(v, moves))
                  && After(w, moves).log == ShiftLog(s.nextSeq, After(v, moves).log)
                  && After(w, moves).svc.summaries == After(v, moves).svc.summaries)
  {
    hide Own, Run, Answers, After, Shifted;
    var v, w := World(s, Free, clock, []), World(Remains(s, d), Free, clock, []);
    RemainsShifted(s, d, clock, h);
    RunShifts(s.nextSeq, v, w, 0, 0, moves);
    if Run(v, moves) {
      SameSummaries(s.nextSeq, After(v, moves), After(w, moves));
    }
  }

  lemma SameSummaries(n: TaskId, v: World, w: World)
    requires WorldShifted(n, v, w, 0, 0)
    ensures w.svc.summaries == v.svc.summaries && w.log == ShiftLog(n, v.log)
  {
    hide MapShifts, QueuesShift, SetShifts, CooldownsAlike, WorkersShift;
    assert w.log[0..] == w.log && v.log[0..] == v.log;
  }

  lemma {:induction false} TicksKeepOwn(s: State, h: Homes, ticks: seq<Tick>) returns (h': Homes)
    requires Own(s, Free, h) && CanTick(s, ticks)
    ensures Own(Ticked(s, ticks), Free, h') && Ticked(s, ticks).nextSeq == s.nextSeq
    decreases |ticks|
  {
    hide Own, Step, Observed, RowMove;
    h' := h;
    if ticks != [] {
      var i, c := ticks[0].thread, ticks[0].choice;
      RowMoves(s, Free, h, i, c);
      h' := StepKeeps(s, Free, h, i, c);
      h' := TicksKeepOwn(Step(s, i, c), h', ticks[1..]);
    }
  }

  /** A refused command is invisible for good: reserve, let threads run, take the reservation back;
      no later run can tell that from the same thread moves without the command. */
  lemma {:induction false} RefusalIsInvisible(s: State, q: Request, now: int, h: Homes, ticks: seq<Tick>,
                                              moves: seq<Move>)
    requires Own(s, Free, h) && Reserve(s, q, now).1.accepted
    requires CanTick(Reserve(s, q, now).0, ticks)
    ensures CanTick(s, ticks)
    ensures var v := World(Ticked(s, ticks), Free, now, []);
            var w := World(Abort(Ticked(Reserve(s, q, now).0, ticks), s.nextSeq), Free, now, []);
            && (Run(v, moves) <==> Run(w, moves))
            && (Run(v, moves) ==>
                  && Answers(w, moves) == ShiftResults(s.nextSeq, Answers(v, moves))
                  && After(w, moves).log == ShiftLog(s.nextSeq, After(v, moves).log))
  {
    hide Own, Reserve, CanTick, Ticked, Abort, Run, Answers, After;
    RefusalLeavesNoTrace(s, q, now, h, ticks);
    var h' := TicksKeepOwn(s, h, ticks);
    NoLaterDifference(Ticked(s, ticks), q.device, now, h', moves);
  }
}
