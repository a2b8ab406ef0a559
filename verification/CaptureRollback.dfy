/** A reservation that is taken back leaves no trace, even when threads move in between. */
module CaptureRollback {
  import opened Wrappers
  import opened CaptureModel
  import opened CaptureWorld
  import opened CaptureOwnership
  import opened CaptureEffects

  /** `r` is `s` with one open reservation on top. */
  ghost predicate Shadows(r: State, s: State, id: TaskId, t: Task, q: Request) {
    && id !in s.tasks && id !in s.requests
    && r.tasks == s.tasks[id := t] && r.requests == s.requests[id := q]
    && Waiting(t) && t.device == q.device
    && r.capturing - {t.device} == s.capturing
    && r.cooldown - {t.device} == s.cooldown - {t.device}
    && r.queues == s.queues && r.processing == s.processing && r.summaries == s.summaries
    && r.activeWorkers == s.activeWorkers && r.workers == s.workers && r.nextSeq == s.nextSeq + 1
  }

  /** What a taken-back reservation leaves: one number used up, one expired cooldown dropped. */
  function Remains(s: State, d: DeviceId): State {
    s.(nextSeq := s.nextSeq + 1, cooldown := s.cooldown - {d})
  }

  lemma ReserveShadows(s: State, q: Request, now: int, h: Homes)
    requires Own(s, Free, h) && Reserve(s, q, now).1.accepted
    ensures Shadows(Reserve(s, q, now).0, s, s.nextSeq, NewTask(q), q)
    ensures q.device in s.cooldown ==> s.cooldown[q.device] <= now
  {
    hide Own;
    NotYetKnown(s, h, s.nextSeq);
  }

  lemma TakeBack(r: State, s: State, id: TaskId, t: Task, q: Request)
    requires Shadows(r, s, id, t, q) && id !in s.activeWorkers
    ensures Abort(r, id) == Remains(s, t.device) == Start(r, id, false).0
  {
  }

  /** A thread's move does the same with and without the open reservation. */
  lemma StepShadows(r: State, s: State, id: TaskId, t: Task, q: Request, h: Homes, i: nat, c: Choice)
    requires Own(r, Reserved(id), h) && Shadows(r, s, id, t, q) && i < |r.workers| && r.workers[i].Live()
    ensures Shadows(Step(r, i, c), Step(s, i, c), id, t, q)
  {
    hide Own, PutSummary, SummaryOf, FinalStatus, Succeeds;
    if r.workers[i].QueueIdle? {
      if Touched(r, i).Some? { QueuedFirst(r, Reserved(id), h, r.workers[i].device); }
      PopShadows(r, s, id, t, q, i);
    } else {
      var x := TaskOf(r.workers[i]).value;
      Held(r, Reserved(id), h, i, x);
      ThreadShadows(r, s, id, t, q, i, c, x);
    }
  }

  lemma PopShadows(r: State, s: State, id: TaskId, t: Task, q: Request, i: nat)
    requires Shadows(r, s, id, t, q) && i < |r.workers| && r.workers[i].QueueIdle?
    requires Touched(r, i).Some? ==> Touched(r, i).value != id
    ensures Shadows(Pop(r, i), Pop(s, i), id, t, q)
  {
    if Touched(r, i).Some? {
      var x := Touched(r, i).value;
      if x in s.tasks { Swap(s.tasks, id, t, x, s.tasks[x].(processing := ProcRunning)); }
    }
  }

  lemma ThreadShadows(r: State, s: State, id: TaskId, t: Task, q: Request, i: nat, c: Choice, x: TaskId)
    requires Shadows(r, s, id, t, q) && i < |r.workers| && TaskOf(r.workers[i]) == Some(x) && x != id
    requires x in r.tasks && x in r.requests
    ensures Shadows(Step(r, i, c), Step(s, i, c), id, t, q)
  {
    hide Shadows, FailCapture, Commit, Complete, Begin, Acquire, Pop, SetWorker;
    match r.workers[i]
    case CaptureFailing(_, _) => ShadowThreads(r, s, id, t, q); FailShadows(r, s, id, t, q, i, x);
    case CaptureCommit(_, _, _) => ShadowThreads(r, s, id, t, q); CommitShadows(r, s, id, t, q, i, c, x);
    case SpawnFailed(_, rq) => ShadowThreads(r, s, id, t, q); CompleteShadows(r, s, id, t, q, i, CaptureDone, x, rq,
           SPAWN_FAILURE);
    case QueueFinishing(d, _, rq, result) => ShadowThreads(r, s, id, t, q); CompleteShadows(r, s, id, t, q, i,
           QueueIdle(d), x, rq, result);
    case _ => ShadowThreads(r, s, id, t, q); QuietShadows(r, s, id, t, q, i, c, x);
  }

  lemma ShadowThreads(r: State, s: State, id: TaskId, t: Task, q: Request)
    requires Shadows(r, s, id, t, q)
    ensures r.workers == s.workers
  {
  }

  lemma QuietShadows(r: State, s: State, id: TaskId, t: Task, q: Request, i: nat, c: Choice, x: TaskId)
    requires Shadows(r, s, id, t, q) && i < |r.workers| && x != id && x in r.tasks && x in r.requests
    requires TaskOf(r.workers[i]) == Some(x)
    requires r.workers[i].CaptureBegin? || r.workers[i].CaptureAction? || r.workers[i].QueueRunning?
    ensures Shadows(Step(r, i, c), Step(s, i, c), id, t, q)
  {
    hide FailCapture, Commit, Complete, Pop;
  }

  lemma CompleteShadows(r: State, s: State, id: TaskId, t: Task, q: Request, i: nat, w: Worker, x: TaskId, rq: Request,
                        result: PipelineResult)
    requires Shadows(r, s, id, t, q) && i < |r.workers| && x != id && x in r.tasks
    ensures Shadows(Complete(SetWorker(r, i, w), x, rq, result), Complete(SetWorker(s, i, w), x, rq, result), id, t, q)
  {
    hide PutSummary, SummaryOf, FinalStatus, Succeeds, AddCompleted;
  }

  lemma FailShadows(r: State, s: State, id: TaskId, t: Task, q: Request, i: nat, x: TaskId)
    requires Shadows(r, s, id, t, q) && i < |r.workers| && r.workers[i].CaptureFailing? && r.workers[i].id == x != id
    requires x in r.tasks
    ensures Shadows(FailCapture(r, i), FailCapture(s, i), id, t, q)
  {
    hide PutSummary, SummaryOf;
  }

  lemma CommitShadows(r: State, s: State, id: TaskId, t: Task, q: Request, i: nat, c: Choice, x: TaskId)
    requires Shadows(r, s, id, t, q) && i < |r.workers| && r.workers[i].CaptureCommit? && r.workers[i].id == x != id
    requires x in r.tasks && x in r.requests
    ensures Shadows(Commit(r, i, c), Commit(s, i, c), id, t, q)
  {
    hide PutSummary, SummaryOf, QueueOf, AddCaptured, Commit;
    var CaptureCommit(_, rq, raw) := r.workers[i];
    Swap(s.tasks, id, t, x, CapturedTask(s.tasks[x]));
    Swap(s.requests, id, q, x, s.requests[x].(raw := raw));
    SwapMinus(r.capturing, t.device, rq.device);
    CommitFields(r, i, c);
    CommitFields(s, i, c);
  }

  lemma Swap<T>(m: map<TaskId, T>, id: TaskId, t: T, x: TaskId, u: T)
    requires x != id
    ensures m[id := t][x := u] == m[x := u][id := t]
  {
  }

  lemma SwapMinus(a: set<DeviceId>, d: DeviceId, e: DeviceId)
    ensures a - {d} - {e} == a - {e} - {d}
  {
  }

  // ----- any number of thread moves in between

  datatype Tick = Tick(thread: nat, choice: Choice)

  ghost predicate CanTick(s: State, ticks: seq<Tick>)
    decreases |ticks|
  {
    ticks == [] ||
    (ticks[0].thread < |s.workers| && s.workers[ticks[0].thread].Live()
     && CanTick(Step(s, ticks[0].thread, ticks[0].choice), ticks[1..]))
  }

  ghost function Ticked(s: State, ticks: seq<Tick>): State
    requires CanTick(s, ticks)
    decreases |ticks|
  {
    if ticks == [] then s else Ticked(Step(s, ticks[0].thread, ticks[0].choice), ticks[1..])
  }

  lemma {:induction false} TicksShadow(r: State, s: State, id: TaskId, t: Task, q: Request, h: Homes, ticks: seq<Tick>)
    returns (h': Homes)
    requires Own(r, Reserved(id), h) && Shadows(r, s, id, t, q) && CanTick(r, ticks)
    ensures CanTick(s, ticks) && Shadows(Ticked(r, ticks), Ticked(s, ticks), id, t, q)
    ensures Own(Ticked(r, ticks), Reserved(id), h')
    decreases |ticks|
  {
    hide Own, Step;
    h' := h;
    if ticks != [] {
      var i, c := ticks[0].thread, ticks[0].choice;
      StepShadows(r, s, id, t, q, h, i, c);
      h' := StepKeeps(r, Reserved(id), h, i, c);
      h' := TicksShadow(Step(r, i, c), Step(s, i, c), id, t, q, h', ticks[1..]);
    }
  }

  /** Reserve, then any thread moves, then Abort (quota refused) or a failed Start: the same as
      the thread moves alone, but for one used-up number and one cooldown entry, which had
      already expired. */
  lemma {:induction false} RefusalLeavesNoTrace(s: State, q: Request, now: int, h: Homes, ticks: seq<Tick>)
    requires Own(s, Free, h) && Reserve(s, q, now).1.accepted
    requires CanTick(Reserve(s, q, now).0, ticks)
    ensures CanTick(s, ticks)
    ensures var r := Ticked(Reserve(s, q, now).0, ticks);
            Abort(r, s.nextSeq) == Remains(Ticked(s, ticks), q.device) == Start(r, s.nextSeq, false).0
    ensures q.device in Ticked(s, ticks).cooldown ==> Ticked(s, ticks).cooldown[q.device] <= now
  {
    hide Own, Reserve, CanTick, Ticked, Shadows, Step, Abort, Start;
    ReserveShadows(s, q, now, h);
    ReserveKeeps(s, q, now, h);
    var h' := TicksShadow(Reserve(s, q, now).0, s, s.nextSeq, NewTask(q), q, h, ticks);
    var r := Ticked(Reserve(s, q, now).0, ticks);
    ReservedTask(r, h', s.nextSeq);
    ShadowActive(r, Ticked(s, ticks), s.nextSeq, NewTask(q), q);
    TakeBack(r, Ticked(s, ticks), s.nextSeq, NewTask(q), q);
    TicksKeepCooldown(s, ticks);
  }

  lemma ShadowActive(r: State, s: State, id: TaskId, t: Task, q: Request)
    requires Shadows(r, s, id, t, q)
    ensures r.activeWorkers == s.activeWorkers
  {
  }

  lemma {:induction false} TicksKeepCooldown(s: State, ticks: seq<Tick>)
    requires CanTick(s, ticks)
    ensures Ticked(s, ticks).cooldown == s.cooldown
    decreases |ticks|
  {
    hide Step;
    if ticks != [] {
      StepKeepsCooldown(s, ticks[0].thread, ticks[0].choice);
      TicksKeepCooldown(Step(s, ticks[0].thread, ticks[0].choice), ticks[1..]);
    }
  }

  // ----- why the command layer must hold the storage lock from Reserve to Start or Abort

  /** Without the lock two reservations can be open at once.  Aborting the first then erases
      the second one's cooldown, and a third is accepted 1 ms after it. */
  lemma UnlockedReservationsBreakTheLimit(d: DeviceId)
    requires d != NO_DEVICE
    ensures var q := Request(0, d, true, RawCapture(true, OK));
            var (s1, a) := Reserve(INITIAL, q, 0);
            var (s2, b) := Reserve(s1, q, 1500 * MS);
            var (s3, _) := Start(s2, b.task.GetOr(0), true);
            var s4 := Abort(s3, a.task.GetOr(0));
            a.accepted && b.accepted && Reserve(s4, q, 1501 * MS).1.accepted
  {
  }

  /** The advertised delay is a promise only if the remaining cooldown is a whole number of
      milliseconds or less than one: the conversion drops the fraction. */
  lemma RetryDelaySuffices(s: State, q: Request, now: int)
    requires Reserve(s, q, now).1.code == RATE_LIMITED
    ensures var delay := Reserve(s, q, now).1.retryAfterMs;
            var left := s.cooldown[q.device] - now;
            Reserve(s, q, now + delay * MS).1.accepted <==> left % MS == 0 || left < MS
  {
  }
}
