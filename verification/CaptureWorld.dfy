/** The scheduler together with the command layer that drives it: who holds the storage
    lifecycle lock, the clock that ReserveTask reads, and the history of what was observed. */
module CaptureWorld {
  import opened Wrappers
  import opened CaptureModel

  /** The storage lifecycle lock.  A reservation keeps it until Start or Abort; cleanup keeps
      it from its zero-active check until it clears the tables or gives up. */
  datatype Section = Free | Reserved(id: TaskId) | Cleaning

  datatype Event =
    | Accepted(id: TaskId, device: DeviceId, source: Source, at: int)
    | RolledBack(id: TaskId)
    | Shutter(id: TaskId)
    | CapturedRaw(id: TaskId, conn: ConnId, device: DeviceId, queued: bool)
    | CaptureLost(id: TaskId, conn: ConnId, device: DeviceId)
    | Popped(id: TaskId, device: DeviceId)
    | Ran(id: TaskId, shot: bool, result: PipelineResult)   // a pipeline run, whether it took the image, its answer
    | Finished(id: TaskId, conn: ConnId, device: DeviceId, result: PipelineResult)

  datatype World = World(svc: State, section: Section, clock: int, log: seq<Event>)

  datatype Move =
    | DoReserve(request: Request, now: int)
    | DoStart(spawnOk: bool)     // quota granted
    | DoAbort                    // quota refused
    | DoWork(thread: nat, choice: Choice)
    | DoCleanupCheck
    | DoCleanupClear
    | DoCleanupGiveUp            // another service is busy, or the provider refuses

  /** How a task ends for which no queue thread could be made. */
  const NO_THREAD := PipelineResult(1900, Some(BadOutcome))

  const GENESIS := World(INITIAL, Free, 0, [])

  predicate Enabled(w: World, m: Move) {
    match m
    case DoReserve(_, now) => w.section == Free && now >= w.clock
    case DoStart(_) => w.section.Reserved?
    case DoAbort => w.section.Reserved?
    case DoWork(i, _) => i < |w.svc.workers| && w.svc.workers[i].Live()
    case DoCleanupCheck => w.section == Free
    case DoCleanupClear => w.section == Cleaning
    case DoCleanupGiveUp => w.section == Cleaning
  }

  /** What a thread's move adds to the history. */
  function Observed(s: State, i: nat, c: Choice): (e: seq<Event>)
    requires i < |s.workers| && s.workers[i].Live()
    ensures |e| <= 1
  {
    match s.workers[i]
    case CaptureBegin(_) => []
    case CaptureAction(id, r) => if CallsShutter(r, c) then [Shutter(id)] else []
    case CaptureFailing(id, r) => if id in s.tasks then [CaptureLost(id, r.conn, r.device)] else []
    case CaptureCommit(id, r, _) =>
      if id in s.tasks && id in s.requests then [CapturedRaw(id, r.conn, r.device, !SpawnRefused(s, r.device, c))]
          else []
    case SpawnFailed(id, r) => if id in s.tasks then [Finished(id, r.conn, r.device, NO_THREAD)] else []
    case QueueIdle(d) =>
      var q := QueueOf(s.queues, d);
      if q != [] && q[0] in s.tasks && q[0] in s.requests then [Popped(q[0], d)] else []
    case QueueRunning(_, id, r) => [Ran(id, !r.raw.captured, c.result)]
    case QueueFinishing(_, id, r, result) => if id in s.tasks then [Finished(id, r.conn, r.device, result)]
           else []
  }

  function Next(w: World, m: Move): World
    requires Enabled(w, m)
  {
    match m
    case DoReserve(r, now) =>
      var (s, result) := Reserve(w.svc, r, now);
      if result.accepted then
        World(s, Reserved(w.svc.nextSeq), now,
              w.log + [Accepted(w.svc.nextSeq, r.device, NewTask(r).source, now)])
      else
        World(s, Free, now, w.log)
    case DoStart(spawnOk) =>
      var id := w.section.id;
      var (s, result) := Start(w.svc, id, spawnOk);
      World(s, Free, w.clock, if result.code == INTERNAL_ERROR then w.log + [RolledBack(id)] else w.log)
    case DoAbort =>
      var id := w.section.id;
      World(Abort(w.svc, id), Free, w.clock, w.log + [RolledBack(id)])
    case DoWork(i, c) =>
      w.(svc := Step(w.svc, i, c), log := w.log + Observed(w.svc, i, c))
    case DoCleanupCheck =>
      w.(section := if ActiveTasks(w.svc) == {} then Cleaning else Free)
    case DoCleanupClear =>
      w.(svc := ClearFinished(w.svc), section := Free)
    case DoCleanupGiveUp =>
      w.(section := Free)
  }

  /** `moves` can be made one after the other from `w`. */
  ghost predicate Run(w: World, moves: seq<Move>)
    decreases |moves|
  {
    moves == [] || (Enabled(w, moves[0]) && Run(Next(w, moves[0]), moves[1..]))
  }

  ghost function After(w: World, moves: seq<Move>): World
    requires Run(w, moves)
    decreases |moves|
  {
    if moves == [] then w else After(Next(w, moves[0]), moves[1..])
  }

  lemma WorkMove(w: World, i: nat, c: Choice)
    requires Enabled(w, DoWork(i, c))
    ensures Next(w, DoWork(i, c)) == World(Step(w.svc, i, c), w.section, w.clock, w.log + Observed(w.svc, i, c))
  {
  }

  /** A run can be extended at its end. */
  lemma {:induction false} Extend(w: World, moves: seq<Move>, m: Move)
    requires Run(w, moves) && Enabled(After(w, moves), m)
    ensures Run(w, moves + [m]) && After(w, moves + [m]) == Next(After(w, moves), m)
    decreases |moves|
  {
    hide Next, Enabled;
    if moves == [] {
      assert [m][1..] == [];
    } else {
      assert (moves + [m])[1..] == moves[1..] + [m];
      Extend(Next(w, moves[0]), moves[1..], m);
    }
  }
}
