/** Who is responsible for each task: the reservation, one thread, or one queue slot.
    `Own` is kept by every move of every run and carries all later results. */
module CaptureOwnership {
  import opened Wrappers
  import opened CaptureModel
  import opened CaptureWorld

  /** Witnesses: the thread that holds a task, and the live queue thread of a device. */
  datatype Homes = Homes(owner: map<TaskId, nat>, server: map<DeviceId, nat>)

  function TaskOf(w: Worker): Option<TaskId> {
    match w
    case CaptureBegin(id) => Some(id)
    case CaptureAction(id, _) => Some(id)
    case CaptureFailing(id, _) => Some(id)
    case CaptureCommit(id, _, _) => Some(id)
    case SpawnFailed(id, _) => Some(id)
    case QueueRunning(_, id, _) => Some(id)
    case QueueFinishing(_, id, _, _) => Some(id)
    case _ => None
  }

  function DeviceOf(w: Worker): Option<DeviceId> {
    match w
    case QueueIdle(d) => Some(d)
    case QueueRunning(d, _, _) => Some(d)
    case QueueFinishing(d, _, _, _) => Some(d)
    case _ => None
  }

  predicate Waiting(t: Task) {
    t.status == Queued && t.acquisition == AcqQueued && t.processing == NotStarted
  }

  predicate Acquiring(t: Task) {
    t.status == Running && t.acquisition == Capturing && t.processing == NotStarted
  }

  predicate InPhase(t: Task, p: Processing) {
    t.status == Running && t.acquisition == Captured && t.processing == p
  }

  predicate Over(t: Task) {
    Terminal(t) && (t.acquisition == Captured || (t.acquisition == AcqFailed && t.status == Failed))
  }

  /** The only combinations of the three status fields that occur. */
  predicate Shaped(t: Task) {
    Waiting(t) || Acquiring(t) || InPhase(t, ProcQueued) || InPhase(t, ProcRunning) || Over(t)
  }

  predicate Matches(t: Task, r: Request) {
    && t.conn == r.conn && t.device == r.device
    && (Waiting(t) || Acquiring(t) ==> (r.raw.captured <==> t.source == HardGrab))
    && (t.acquisition == Captured ==> r.raw.captured)
  }

  /** A thread's program counter agrees with the row of the task it holds. */
  predicate Fits(w: Worker, t: Task, r: Request) {
    match w
    case CaptureBegin(_) => Waiting(t)
    case CaptureAction(_, rq) => Acquiring(t) && rq == r
    case CaptureFailing(_, rq) => Acquiring(t) && rq == r
    case CaptureCommit(_, rq, raw) => Acquiring(t) && rq == r && raw.captured
    case SpawnFailed(_, rq) => InPhase(t, ProcQueued) && rq.conn == t.conn && rq.device == t.device
    case QueueRunning(d, _, rq) => InPhase(t, ProcRunning) && rq == r && d == t.device
    case QueueFinishing(d, _, rq, _) => InPhase(t, ProcRunning) && rq == r && d == t.device
    case _ => true
  }

  /** Where a task in state `t` is: held by a thread, queued, counted active, or only reserved. */
  predicate AtHome(t: Task, held: bool, queued: bool, active: bool, reserved: bool) {
    && (Waiting(t) ==> held == !reserved && !queued)
    && (Acquiring(t) || InPhase(t, ProcRunning) ==> held && !queued)
    && (InPhase(t, ProcQueued) ==> held == !queued)
    && (Over(t) ==> !held && !queued)
    && active == (!Terminal(t) && !reserved)
    && (reserved ==> Waiting(t))
  }

  ghost predicate Tables(tasks: map<TaskId, Task>, requests: map<TaskId, Request>, next: TaskId) {
    && tasks.Keys == requests.Keys
    && (forall id <- tasks :: id < next && Shaped(tasks[id]) && Matches(tasks[id], requests[id]))
  }

  ghost predicate Owners(tasks: map<TaskId, Task>, requests: map<TaskId, Request>, workers: seq<Worker>,
                         owner: map<TaskId, nat>) {
    && (forall id <- owner ::
          && owner[id] < |workers| && TaskOf(workers[owner[id]]) == Some(id)
          && id in tasks && id in requests && Fits(workers[owner[id]], tasks[id], requests[id]))
    && (forall i | 0 <= i < |workers| :: TaskOf(workers[i]).Some? ==>
          TaskOf(workers[i]).value in owner && owner[TaskOf(workers[i]).value] == i)
  }

  ghost predicate Places(tasks: map<TaskId, Task>, queues: map<DeviceId, seq<TaskId>>, active: set<TaskId>,
                         sec: Section, owner: map<TaskId, nat>) {
    && (forall id <- tasks ::
          AtHome(tasks[id], id in owner, id in QueueOf(queues, tasks[id].device), id in active, sec == Reserved(id)))
    && active <= tasks.Keys
    && (sec.Reserved? ==> sec.id in tasks)
  }

  predicate Slot(tasks: map<TaskId, Task>, d: DeviceId, id: TaskId) {
    id in tasks && InPhase(tasks[id], ProcQueued) && tasks[id].device == d
  }

  ghost predicate Fifo(q: seq<TaskId>, tasks: map<TaskId, Task>, d: DeviceId) {
    && (forall k | 0 <= k < |q| :: Slot(tasks, d, q[k]))
    && (forall j, k | 0 <= j < k < |q| :: q[j] != q[k])
  }

  ghost predicate Queues(queues: map<DeviceId, seq<TaskId>>, tasks: map<TaskId, Task>, processing: set<DeviceId>) {
    forall d <- queues :: Fifo(queues[d], tasks, d) && (queues[d] != [] ==> d in processing)
  }

  ghost predicate Servers(workers: seq<Worker>, processing: set<DeviceId>, server: map<DeviceId, nat>) {
    && server.Keys == processing
    && (forall d <- server :: server[d] < |workers| && DeviceOf(workers[server[d]]) == Some(d))
    && (forall i | 0 <= i < |workers| :: DeviceOf(workers[i]).Some? ==>
          DeviceOf(workers[i]).value in server && server[DeviceOf(workers[i]).value] == i)
  }

  ghost predicate Own(s: State, sec: Section, h: Homes) {
    && Tables(s.tasks, s.requests, s.nextSeq)
    && Owners(s.tasks, s.requests, s.workers, h.owner)
    && Places(s.tasks, s.queues, s.activeWorkers, sec, h.owner)
    && Queues(s.queues, s.tasks, s.processing)
    && Servers(s.workers, s.processing, h.server)
  }

  // ----- one part at a time

  /** Thread `i` keeps its task, whose row may change with it. */
  lemma OwnersKept(tasks: map<TaskId, Task>, requests: map<TaskId, Request>, workers: seq<Worker>,
                   owner: map<TaskId, nat>,
                   i: nat, w: Worker, id: TaskId, t: Task, r: Request)
    requires Owners(tasks, requests, workers, owner) && i < |workers|
    requires TaskOf(workers[i]) == Some(id) == TaskOf(w) && Fits(w, t, r)
    ensures Owners(tasks[id := t], requests[id := r], workers[i := w], owner)
  {
  }

  lemma OwnersLeft(tasks: map<TaskId, Task>, requests: map<TaskId, Request>, workers: seq<Worker>,
                   owner: map<TaskId, nat>,
                   i: nat, w: Worker, id: TaskId, t: Task, r: Request)
    requires Owners(tasks, requests, workers, owner) && i < |workers|
    requires TaskOf(workers[i]) == Some(id) && TaskOf(w) == None
    ensures Owners(tasks[id := t], requests[id := r], workers[i := w], owner - {id})
  {
  }

  lemma OwnersTaken(tasks: map<TaskId, Task>, requests: map<TaskId, Request>, workers: seq<Worker>,
                    owner: map<TaskId, nat>,
                    i: nat, w: Worker, id: TaskId, t: Task, r: Request)
    requires Owners(tasks, requests, workers, owner) && i < |workers| && id !in owner
    requires TaskOf(workers[i]) == None && TaskOf(w) == Some(id) && Fits(w, t, r)
    ensures Owners(tasks[id := t], requests[id := r], workers[i := w], owner[id := i])
  {
  }

  lemma OwnersIdle(tasks: map<TaskId, Task>, requests: map<TaskId, Request>, workers: seq<Worker>,
                   owner: map<TaskId, nat>, i: nat, w: Worker)
    requires Owners(tasks, requests, workers, owner) && i < |workers| && TaskOf(workers[i]) == None == TaskOf(w)
    ensures Owners(tasks, requests, workers[i := w], owner)
  {
  }

  lemma OwnersAppended(tasks: map<TaskId, Task>, requests: map<TaskId, Request>, workers: seq<Worker>,
                       owner: map<TaskId, nat>, w: Worker)
    requires Owners(tasks, requests, workers, owner)
    requires TaskOf(w).Some? ==> TaskOf(w).value !in owner && TaskOf(w).value in tasks && TaskOf(w).value in requests
                                 && Fits(w, tasks[TaskOf(w).value], requests[TaskOf(w).value])
    ensures Owners(tasks, requests, workers + [w], if TaskOf(w).Some? then owner[TaskOf(w).value := |workers|]
              else owner)
  {
  }

  /** Rows that no thread holds may come and go. */
  lemma OwnersFree(tasks: map<TaskId, Task>, requests: map<TaskId, Request>, workers: seq<Worker>,
                   owner: map<TaskId, nat>,
                   tasks': map<TaskId, Task>, requests': map<TaskId, Request>)
    requires Owners(tasks, requests, workers, owner)
    requires forall id <- owner :: (id in tasks ==> id in tasks' && tasks'[id] == tasks[id])
                                   && (id in requests ==> id in requests' && requests'[id] == requests[id])
    ensures Owners(tasks', requests', workers, owner)
  {
  }

  lemma TablesMoved(tasks: map<TaskId, Task>, requests: map<TaskId, Request>, next: TaskId, id: TaskId, t: Task,
                    r: Request)
    requires Tables(tasks, requests, next) && id in tasks && Shaped(t) && Matches(t, r)
    ensures Tables(tasks[id := t], requests[id := r], next)
  {
  }

  lemma TablesReserved(tasks: map<TaskId, Task>, requests: map<TaskId, Request>, next: TaskId, r: Request)
    requires Tables(tasks, requests, next)
    ensures Tables(tasks, requests, next + 1) && Tables(tasks[next := NewTask(r)], requests[next := r], next + 1)
  {
  }

  lemma TablesWithout(tasks: map<TaskId, Task>, requests: map<TaskId, Request>, next: TaskId,
                      tasks': map<TaskId, Task>, requests': map<TaskId, Request>)
    requires Tables(tasks, requests, next)
    requires forall id <- tasks' :: id in tasks && tasks'[id] == tasks[id]
    requires forall id <- requests' :: id in requests && requests'[id] == requests[id]
    requires tasks.Keys == requests.Keys ==> tasks'.Keys == requests'.Keys
    ensures Tables(tasks', requests', next)
  {
  }

  lemma PlacesCleared(tasks: map<TaskId, Task>, queues: map<DeviceId, seq<TaskId>>, active: set<TaskId>, sec: Section,
                      owner: map<TaskId, nat>,
                      tasks': map<TaskId, Task>)
    requires Places(tasks, queues, active, sec, owner) && !sec.Reserved?
    requires forall id <- tasks' :: id in tasks && tasks'[id] == tasks[id]
    requires active <= tasks.Keys ==> active <= tasks'.Keys
    ensures Places(tasks', queues, active, Free, owner)
  {
    forall id | id in tasks'
      ensures AtHome(tasks'[id], id in owner, id in QueueOf(queues, tasks'[id].device), id in active, false)
    {
      assert AtHome(tasks[id], id in owner, id in QueueOf(queues, tasks[id].device), id in active, false);
    }
  }

  /** One row changes, and with it only that task's own place. */
  lemma PlacesMoved(tasks: map<TaskId, Task>, queues: map<DeviceId, seq<TaskId>>, active: set<TaskId>, sec: Section,
                    owner: map<TaskId, nat>,
                    id: TaskId, t: Task, queues': map<DeviceId, seq<TaskId>>, active': set<TaskId>,
                    owner': map<TaskId, nat>)
    requires Places(tasks, queues, active, sec, owner)
    requires id in active' ==> id in tasks || id in active
    requires forall x | x != id :: (x in owner <==> x in owner') && (x in active <==> x in active')
    requires forall x, d | x != id :: x in QueueOf(queues, d) <==> x in QueueOf(queues', d)
    requires AtHome(t, id in owner', id in QueueOf(queues', t.device), id in active', sec == Reserved(id))
    ensures Places(tasks[id := t], queues', active', sec, owner')
  {
    var tasks' := tasks[id := t];
    forall x | x in tasks'
      ensures AtHome(tasks'[x], x in owner', x in QueueOf(queues', tasks'[x].device), x in active', sec == Reserved(x))
    {
      if x != id {
        assert AtHome(tasks[x], x in owner, x in QueueOf(queues, tasks[x].device), x in active, sec == Reserved(x));
      }
    }
  }

  lemma PlacesReserved(tasks: map<TaskId, Task>, queues: map<DeviceId, seq<TaskId>>, active: set<TaskId>,
                       owner: map<TaskId, nat>, id: TaskId, t: Task)
    requires Places(tasks, queues, active, Free, owner)
    requires id !in tasks && id !in owner && Waiting(t) && id !in QueueOf(queues, t.device)
    ensures Places(tasks[id := t], queues, active, Reserved(id), owner)
  {
  }

  lemma PlacesUnreserved(tasks: map<TaskId, Task>, queues: map<DeviceId, seq<TaskId>>, active: set<TaskId>,
                         owner: map<TaskId, nat>, id: TaskId)
    requires Places(tasks, queues, active, Reserved(id), owner)
    ensures Places(tasks - {id}, queues, active - {id}, Free, owner)
    ensures active - {id} == active
  {
    assert AtHome(tasks[id], id in owner, id in QueueOf(queues, tasks[id].device), id in active, true);
  }

  lemma PlacesStarted(tasks: map<TaskId, Task>, queues: map<DeviceId, seq<TaskId>>, active: set<TaskId>,
                      owner: map<TaskId, nat>, id: TaskId, i: nat)
    requires Places(tasks, queues, active, Reserved(id), owner)
    ensures Places(tasks, queues, active + {id}, Free, owner[id := i])
    ensures id !in owner && Waiting(tasks[id])
  {
    assert AtHome(tasks[id], id in owner, id in QueueOf(queues, tasks[id].device), id in active, true);
  }

  lemma ServersKept(workers: seq<Worker>, processing: set<DeviceId>, server: map<DeviceId, nat>, i: nat, w: Worker)
    requires Servers(workers, processing, server) && i < |workers| && DeviceOf(w) == DeviceOf(workers[i])
    ensures Servers(workers[i := w], processing, server)
  {
  }

  lemma ServersAppended(workers: seq<Worker>, processing: set<DeviceId>, server: map<DeviceId, nat>, w: Worker)
    requires Servers(workers, processing, server) && (DeviceOf(w).Some? ==> DeviceOf(w).value !in processing)
    ensures DeviceOf(w) == None ==> Servers(workers + [w], processing, server)
    ensures DeviceOf(w).Some? ==>
              Servers(workers + [w], processing + {DeviceOf(w).value}, server[DeviceOf(w).value := |workers|])
  {
  }

  lemma ServersLeft(workers: seq<Worker>, processing: set<DeviceId>, server: map<DeviceId, nat>, i: nat, w: Worker,
                    d: DeviceId)
    requires Servers(workers, processing, server) && i < |workers| && DeviceOf(workers[i]) == Some(d)
               && DeviceOf(w) == None
    ensures Servers(workers[i := w], processing - {d}, server - {d})
  {
  }

  lemma QueuesKept(queues: map<DeviceId, seq<TaskId>>, tasks: map<TaskId, Task>, processing: set<DeviceId>, id: TaskId,
                   t: Task)
    requires Queues(queues, tasks, processing)
    requires id in tasks ==> id !in QueueOf(queues, tasks[id].device)
    ensures Queues(queues, tasks[id := t], processing)
  {
    forall d | d in queues
      ensures Fifo(queues[d], tasks[id := t], d)
    {
      assert Fifo(queues[d], tasks, d);
      forall k | 0 <= k < |queues[d]|
        ensures Slot(tasks[id := t], d, queues[d][k])
      {
        assert Slot(tasks, d, queues[d][k]);
      }
    }
  }

  /** Rows that are not queued may go. */
  lemma QueuesWithout(queues: map<DeviceId, seq<TaskId>>, tasks: map<TaskId, Task>, tasks': map<TaskId, Task>,
                      processing: set<DeviceId>)
    requires Queues(queues, tasks, processing)
    requires forall id <- tasks | InPhase(tasks[id], ProcQueued) :: id in tasks' && tasks'[id] == tasks[id]
    ensures Queues(queues, tasks', processing)
  {
    forall d | d in queues
      ensures Fifo(queues[d], tasks', d)
    {
      assert Fifo(queues[d], tasks, d);
      forall k | 0 <= k < |queues[d]|
        ensures Slot(tasks', d, queues[d][k])
      {
        assert Slot(tasks, d, queues[d][k]);
      }
    }
  }

  lemma QueuesUnknown(queues: map<DeviceId, seq<TaskId>>, tasks: map<TaskId, Task>, processing: set<DeviceId>,
                      id: TaskId, d: DeviceId)
    requires Queues(queues, tasks, processing)
    requires id in tasks ==> !InPhase(tasks[id], ProcQueued)
    ensures id !in QueueOf(queues, d)
  {
    if d in queues {
      assert Fifo(queues[d], tasks, d);
    }
  }

  lemma QueuesPushed(queues: map<DeviceId, seq<TaskId>>, tasks: map<TaskId, Task>, processing: set<DeviceId>,
                     id: TaskId, t: Task)
    requires Queues(queues, tasks, processing) && id in tasks && !InPhase(tasks[id], ProcQueued)
               && InPhase(t, ProcQueued)
    requires t.device in processing
    ensures Queues(queues[t.device := QueueOf(queues, t.device) + [id]], tasks[id := t], processing)
    ensures forall x, d | x != id :: x in QueueOf(queues, d) <==>
              x in QueueOf(queues[t.device := QueueOf(queues, t.device) + [id]], d)
  {
    var q := QueueOf(queues, t.device);
    QueuesUnknown(queues, tasks, processing, id, t.device);
    QueuesUnknown(queues, tasks, processing, id, tasks[id].device);
    QueuesKept(queues, tasks, processing, id, t);
    assert Fifo(q + [id], tasks[id := t], t.device) by {
      if t.device in queues { assert Fifo(queues[t.device], tasks[id := t], t.device); }
    }
  }

  lemma QueuesPopped(queues: map<DeviceId, seq<TaskId>>, tasks: map<TaskId, Task>, processing: set<DeviceId>,
                     d: DeviceId, t: Task)
    requires Queues(queues, tasks, processing) && d in queues && queues[d] != []
    ensures Queues(queues[d := queues[d][1..]], tasks[queues[d][0] := t], processing)
    ensures Slot(tasks, d, queues[d][0]) && queues[d][0] !in queues[d][1..]
    ensures forall x, e | x != queues[d][0] :: x in QueueOf(queues, e) <==> x in QueueOf(queues[d := queues[d][1..]], e)
  {
    var q, id := queues[d], queues[d][0];
    assert Fifo(q, tasks, d) && Slot(tasks, d, q[0]);
    assert q == [id] + q[1..];
    forall e | e in queues
      ensures Fifo(queues[d := q[1..]][e], tasks[id := t], e)
    {
      assert Fifo(queues[e], tasks, e);
      var p := queues[d := q[1..]][e];
      forall k | 0 <= k < |p|
        ensures Slot(tasks[id := t], e, p[k])
      {
        assert Slot(tasks, e, if e == d then q[k + 1] else queues[e][k]);
      }
    }
  }

  lemma QueuesDropped(queues: map<DeviceId, seq<TaskId>>, tasks: map<TaskId, Task>, processing: set<DeviceId>,
                      d: DeviceId)
    requires Queues(queues, tasks, processing) && QueueOf(queues, d) == []
    ensures Queues(queues - {d}, tasks, processing - {d}) && Queues(queues[d := []], tasks, processing)
    ensures forall e :: QueueOf(queues - {d}, e) == QueueOf(queues, e) == QueueOf(queues[d := []], e)
  {
  }

  /** A device with no queue thread has nothing queued. */
  lemma UnservedIsEmpty(queues: map<DeviceId, seq<TaskId>>, tasks: map<TaskId, Task>, processing: set<DeviceId>,
                        d: DeviceId)
    requires Queues(queues, tasks, processing) && d !in processing
    ensures QueueOf(queues, d) == []
  {
  }

  lemma QueuesWider(queues: map<DeviceId, seq<TaskId>>, tasks: map<TaskId, Task>, processing: set<DeviceId>,
                    d: DeviceId)
    requires Queues(queues, tasks, processing)
    ensures Queues(queues, tasks, processing + {d})
  {
  }

  // ----- what `Own` says about one thread, one task, one device

  lemma Held(s: State, sec: Section, h: Homes, i: nat, id: TaskId)
    requires Own(s, sec, h) && i < |s.workers| && TaskOf(s.workers[i]) == Some(id)
    ensures id in s.tasks && id in s.requests && id in h.owner && h.owner[id] == i
    ensures Fits(s.workers[i], s.tasks[id], s.requests[id]) && Matches(s.tasks[id], s.requests[id])
    ensures id in s.activeWorkers && sec != Reserved(id) && id !in QueueOf(s.queues, s.tasks[id].device)
    ensures id < s.nextSeq
  {
    hide Queues, Servers;
    assert id in h.owner;
    assert AtHome(s.tasks[id], true, id in QueueOf(s.queues, s.tasks[id].device), id in s.activeWorkers,
             sec == Reserved(id));
  }

  lemma QueuedFirst(s: State, sec: Section, h: Homes, d: DeviceId)
    requires Own(s, sec, h) && QueueOf(s.queues, d) != []
    ensures var id := s.queues[d][0];
            && id in s.tasks && id in s.requests && id !in h.owner && sec != Reserved(id) && id in s.activeWorkers
            && InPhase(s.tasks[id], ProcQueued) && s.tasks[id].device == d && Matches(s.tasks[id], s.requests[id])
  {
    hide Owners, Servers;
    var id := s.queues[d][0];
    assert Fifo(s.queues[d], s.tasks, d) && Slot(s.tasks, d, s.queues[d][0]);
    assert AtHome(s.tasks[id], id in h.owner, true, id in s.activeWorkers, sec == Reserved(id));
  }

  lemma NotYetKnown(s: State, h: Homes, id: TaskId)
    requires Own(s, Free, h) && id >= s.nextSeq
    ensures id !in s.tasks && id !in s.requests && id !in h.owner
  {
    hide Places, Queues, Servers;
  }

  lemma ReservedTask(s: State, h: Homes, id: TaskId)
    requires Own(s, Reserved(id), h)
    ensures id in s.tasks && id in s.requests && Waiting(s.tasks[id]) && id !in h.owner && id !in s.activeWorkers
    ensures Matches(s.tasks[id], s.requests[id])
    ensures id !in QueueOf(s.queues, s.tasks[id].device)
  {
    hide Owners, Servers, Queues;
    assert AtHome(s.tasks[id], id in h.owner, id in QueueOf(s.queues, s.tasks[id].device), id in s.activeWorkers, true);
  }

  // ----- the reservation protocol

  lemma ReserveKeeps(s: State, r: Request, now: int, h: Homes)
    requires Own(s, Free, h)
    ensures var (s', res) := Reserve(s, r, now);
            Own(s', if res.accepted then Reserved(s.nextSeq) else Free, h)
  {
    hide Tables, Owners, Places, Queues, Servers;
    var (s', res) := Reserve(s, r, now);
    TablesReserved(s.tasks, s.requests, s.nextSeq, r);
    if res.accepted {
      var id, t := s.nextSeq, NewTask(r);
      NotYetKnown(s, h, id);
      QueuesUnknown(s.queues, s.tasks, s.processing, id, r.device);
      QueuesKept(s.queues, s.tasks, s.processing, id, t);
      OwnersFree(s.tasks, s.requests, s.workers, h.owner, s'.tasks, s'.requests);
      PlacesReserved(s.tasks, s.queues, s.activeWorkers, h.owner, id, t);
    }
  }

  lemma UnreserveKeeps(s: State, id: TaskId, h: Homes)
    requires Own(s, Reserved(id), h)
    ensures Own(Unreserve(s, id), Free, h)
    ensures s.activeWorkers - {id} == s.activeWorkers
  {
    hide Tables, Owners, Places, Queues, Servers;
    ReservedTask(s, h, id);
    var s' := Unreserve(s, id);
    TablesWithout(s.tasks, s.requests, s.nextSeq, s'.tasks, s'.requests);
    QueuesWithout(s.queues, s.tasks, s'.tasks, s.processing);
    OwnersFree(s.tasks, s.requests, s.workers, h.owner, s'.tasks, s'.requests);
    PlacesUnreserved(s.tasks, s.queues, s.activeWorkers, h.owner, id);
  }

  lemma StartKeeps(s: State, id: TaskId, spawnOk: bool, h: Homes) returns (h': Homes)
    requires Own(s, Reserved(id), h)
    ensures Own(Start(s, id, spawnOk).0, Free, h')
  {
    hide Tables, Owners, Places, Queues, Servers;
    h' := h;
    ReservedTask(s, h, id);
    if spawnOk {
      h' := h.(owner := h.owner[id := |s.workers|]);
      OwnersAppended(s.tasks, s.requests, s.workers, h.owner, CaptureBegin(id));
      PlacesStarted(s.tasks, s.queues, s.activeWorkers, h.owner, id, |s.workers|);
      ServersAppended(s.workers, s.processing, h.server, CaptureBegin(id));
    } else {
      UnreserveKeeps(s, id, h);
    }
  }

  lemma AbortKeeps(s: State, id: TaskId, h: Homes)
    requires Own(s, Reserved(id), h)
    ensures Own(Abort(s, id), Free, h)
  {
    hide Own;
    ReservedTask(s, h, id);
    UnreserveKeeps(s, id, h);
  }

  /** Outside a reservation, cleanup removes only what is over. */
  lemma ClearedRows(s: State, sec: Section, h: Homes)
    requires Own(s, sec, h) && !sec.Reserved?
    ensures forall id <- s.tasks :: id in ClearFinished(s).tasks <==> !Terminal(s.tasks[id])
    ensures forall id <- h.owner :: id in ClearFinished(s).tasks
  {
    hide Tables, Queues, Servers;
    forall id | id in s.tasks
      ensures id in ClearFinished(s).tasks <==> !Terminal(s.tasks[id])
      ensures id in h.owner ==> id in ClearFinished(s).tasks
    {
      assert AtHome(s.tasks[id], id in h.owner, id in QueueOf(s.queues, s.tasks[id].device), id in s.activeWorkers,
               false);
    }
  }

  lemma ClearKeeps(s: State, sec: Section, h: Homes)
    requires Own(s, sec, h) && !sec.Reserved?
    ensures Own(ClearFinished(s), Free, h)
  {
    hide Tables, Owners, Places, Queues, Servers;
    var s' := ClearFinished(s);
    ClearedRows(s, sec, h);
    TablesWithout(s.tasks, s.requests, s.nextSeq, s'.tasks, s'.requests);
    PlacesCleared(s.tasks, s.queues, s.activeWorkers, sec, h.owner, s'.tasks);
    QueuesWithout(s.queues, s.tasks, s'.tasks, s.processing);
    OwnersFree(s.tasks, s.requests, s.workers, h.owner, s'.tasks, s'.requests);
  }

  // ----- threads

  /** Thread `i` moves on with its task `id`, whose row may change; nothing else does. */
  lemma KeptTask(s: State, sec: Section, h: Homes, i: nat, w: Worker, id: TaskId, t: Task)
    requires Own(s, sec, h) && i < |s.workers| && TaskOf(s.workers[i]) == Some(id) == TaskOf(w)
    requires DeviceOf(w) == DeviceOf(s.workers[i])
    requires id in s.tasks && id in s.requests ==> Fits(w, t, s.requests[id]) && Shaped(t) && Matches(t, s.requests[id])
    requires id in s.tasks ==> t.device == s.tasks[id].device && (Acquiring(t) || InPhase(t, ProcRunning))
    ensures Own(s.(tasks := s.tasks[id := t], workers := s.workers[i := w]), sec, h)
  {
    hide Tables, Owners, Places, Queues, Servers;
    Held(s, sec, h, i, id);
    var r := s.requests[id];
    assert s.requests[id := r] == s.requests;
    OwnersKept(s.tasks, s.requests, s.workers, h.owner, i, w, id, t, r);
    TablesMoved(s.tasks, s.requests, s.nextSeq, id, t, r);
    PlacesMoved(s.tasks, s.queues, s.activeWorkers, sec, h.owner, id, t, s.queues, s.activeWorkers, h.owner);
    QueuesKept(s.queues, s.tasks, s.processing, id, t);
    ServersKept(s.workers, s.processing, h.server, i, w);
  }

  /** Thread `i` lets go of its task `id`, which is over. */
  lemma EndedTask(s: State, sec: Section, h: Homes, i: nat, w: Worker, id: TaskId, t: Task) returns (h': Homes)
    requires Own(s, sec, h) && i < |s.workers| && TaskOf(s.workers[i]) == Some(id) && TaskOf(w) == None
    requires DeviceOf(w) == DeviceOf(s.workers[i])
    requires Over(t) && (id in s.tasks && id in s.requests ==>
               Matches(t, s.requests[id]) && t.device == s.tasks[id].device)
    ensures Own(s.(tasks := s.tasks[id := t], workers := s.workers[i := w], activeWorkers := s.activeWorkers - {id}),
              sec, h')
  {
    hide Tables, Owners, Places, Queues, Servers;
    h' := h.(owner := h.owner - {id});
    Held(s, sec, h, i, id);
    var r := s.requests[id];
    assert s.requests[id := r] == s.requests;
    OwnersLeft(s.tasks, s.requests, s.workers, h.owner, i, w, id, t, r);
    TablesMoved(s.tasks, s.requests, s.nextSeq, id, t, r);
    PlacesMoved(s.tasks, s.queues, s.activeWorkers, sec, h.owner, id, t, s.queues, s.activeWorkers - {id}, h'.owner);
    QueuesKept(s.queues, s.tasks, s.processing, id, t);
    ServersKept(s.workers, s.processing, h.server, i, w);
  }

  /** `Own` does not depend on the slots, the cooldowns or the counters. */
  lemma OwnIgnores(s: State, s': State, sec: Section, h: Homes)
    requires Own(s, sec, h)
    requires s' == s.(capturing := s'.capturing, cooldown := s'.cooldown, summaries := s'.summaries)
    ensures Own(s', sec, h)
  {
    hide Tables, Owners, Places, Queues, Servers;
  }

  lemma BeginKeeps(s: State, sec: Section, h: Homes, i: nat)
    requires Own(s, sec, h) && i < |s.workers| && s.workers[i].CaptureBegin?
    ensures Own(Begin(s, i), sec, h)
  {
    hide Own;
    var id := s.workers[i].id;
    Held(s, sec, h, i, id);
    KeptTask(s, sec, h, i, CaptureAction(id, s.requests[id]), id, Begin(s, i).tasks[id]);
  }

  lemma AcquireKeeps(s: State, sec: Section, h: Homes, i: nat, c: Choice)
    requires Own(s, sec, h) && i < |s.workers| && s.workers[i].CaptureAction?
    ensures Own(Acquire(s, i, c), sec, h)
  {
    hide Own;
    var id := s.workers[i].id;
    Held(s, sec, h, i, id);
    KeptTask(s, sec, h, i, Acquire(s, i, c).workers[i], id, s.tasks[id]);
    assert s.tasks[id := s.tasks[id]] == s.tasks;
  }

  lemma RunningKeeps(s: State, sec: Section, h: Homes, i: nat, c: Choice)
    requires Own(s, sec, h) && i < |s.workers| && s.workers[i].QueueRunning?
    ensures Own(Step(s, i, c), sec, h)
  {
    hide Own;
    var id := s.workers[i].id;
    Held(s, sec, h, i, id);
    KeptTask(s, sec, h, i, Step(s, i, c).workers[i], id, s.tasks[id]);
    assert s.tasks[id := s.tasks[id]] == s.tasks;
  }

  lemma FailCaptureKeeps(s: State, sec: Section, h: Homes, i: nat) returns (h': Homes)
    requires Own(s, sec, h) && i < |s.workers| && s.workers[i].CaptureFailing?
    ensures Own(FailCapture(s, i), sec, h')
  {
    hide Own;
    var CaptureFailing(id, r) := s.workers[i];
    Held(s, sec, h, i, id);
    var t := FailCapture(s, i).tasks[id];
    h' := EndedTask(s, sec, h, i, CaptureDone, id, t);
    OwnIgnores(s.(tasks := s.tasks[id := t], workers := s.workers[i := CaptureDone],
        activeWorkers := s.activeWorkers - {id}),
               FailCapture(s, i), sec, h');
  }

  lemma CompleteKeeps(s: State, sec: Section, h: Homes, i: nat, w: Worker, id: TaskId, r: Request,
                      result: PipelineResult) returns (h': Homes)
    requires Own(s, sec, h) && i < |s.workers| && TaskOf(s.workers[i]) == Some(id)
    requires s.workers[i].SpawnFailed? || s.workers[i].QueueFinishing?
    requires TaskOf(w) == None && DeviceOf(w) == DeviceOf(s.workers[i])
    ensures Own(Complete(SetWorker(s, i, w), id, r, result), sec, h')
  {
    hide Own;
    Held(s, sec, h, i, id);
    var s' := Complete(SetWorker(s, i, w), id, r, result);
    h' := EndedTask(s, sec, h, i, w, id, s'.tasks[id]);
    OwnIgnores(s.(tasks := s.tasks[id := s'.tasks[id]], workers := s.workers[i := w],
        activeWorkers := s.activeWorkers - {id}),
               s', sec, h');
  }

  lemma PopKeeps(s: State, sec: Section, h: Homes, i: nat) returns (h': Homes)
    requires Own(s, sec, h) && i < |s.workers| && s.workers[i].QueueIdle?
    ensures Own(Pop(s, i), sec, h')
  {
    hide Tables, Owners, Places, Queues, Servers;
    var d := s.workers[i].device;
    var s' := Pop(s, i);
    if QueueOf(s.queues, d) == [] {
      h' := h.(server := h.server - {d});
      ServersLeft(s.workers, s.processing, h.server, i, QueueDone, d);
      OwnersIdle(s.tasks, s.requests, s.workers, h.owner, i, QueueDone);
      QueuesDropped(s.queues, s.tasks, s.processing, d);
      PlacesSameQueues(s.tasks, s.queues, s.activeWorkers, sec, h.owner, s'.queues);
    } else {
      QueuedFirst(s, sec, h, d);
      var id := s.queues[d][0];
      var r, t := s.requests[id], s.tasks[id].(processing := ProcRunning);
      assert s.requests[id := r] == s.requests;
      h' := h.(owner := h.owner[id := i]);
      OwnersTaken(s.tasks, s.requests, s.workers, h.owner, i, QueueRunning(d, id, r), id, t, r);
      TablesMoved(s.tasks, s.requests, s.nextSeq, id, t, r);
      QueuesPopped(s.queues, s.tasks, s.processing, d, t);
      PlacesMoved(s.tasks, s.queues, s.activeWorkers, sec, h.owner, id, t, s'.queues, s.activeWorkers, h'.owner);
      ServersKept(s.workers, s.processing, h.server, i, QueueRunning(d, id, r));
    }
  }

  lemma PlacesSameQueues(tasks: map<TaskId, Task>, queues: map<DeviceId, seq<TaskId>>, active: set<TaskId>,
                         sec: Section, owner: map<TaskId, nat>,
                         queues': map<DeviceId, seq<TaskId>>)
    requires Places(tasks, queues, active, sec, owner) && forall e :: QueueOf(queues', e) == QueueOf(queues, e)
    ensures Places(tasks, queues', active, sec, owner)
  {
  }

  /** The pop_back after a refused spawn takes back exactly the id just pushed. */
  lemma CommitRefusedKeeps(s: State, sec: Section, h: Homes, i: nat, id: TaskId, r: Request, raw: RawCapture)
    requires Own(s, sec, h) && i < |s.workers| && s.workers[i] == CaptureCommit(id, r, raw)
    requires r.device !in s.processing
    ensures id in s.tasks && id in s.requests && QueueOf(s.queues, r.device) == []
    ensures Own(s.(tasks := s.tasks[id := CapturedTask(s.tasks[id])],
                   requests := s.requests[id := s.requests[id].(raw := raw)],
                   queues := s.queues[r.device := []],
                   workers := s.workers[i := SpawnFailed(id, r)]), sec, h)
  {
    hide Tables, Owners, Places, Queues, Servers;
    Held(s, sec, h, i, id);
    UnservedIsEmpty(s.queues, s.tasks, s.processing, r.device);
    var t, r' := CapturedTask(s.tasks[id]), s.requests[id].(raw := raw);
    TablesMoved(s.tasks, s.requests, s.nextSeq, id, t, r');
    OwnersKept(s.tasks, s.requests, s.workers, h.owner, i, SpawnFailed(id, r), id, t, r');
    QueuesKept(s.queues, s.tasks, s.processing, id, t);
    QueuesDropped(s.queues, s.tasks[id := t], s.processing, r.device);
    PlacesMoved(s.tasks, s.queues, s.activeWorkers, sec, h.owner, id, t, s.queues[r.device := []], s.activeWorkers,
        h.owner);
    ServersKept(s.workers, s.processing, h.server, i, SpawnFailed(id, r));
  }

  lemma CommitQueuedKeeps(s: State, sec: Section, h: Homes, i: nat, id: TaskId, r: Request, raw: RawCapture)
    returns (h': Homes)
    requires Own(s, sec, h) && i < |s.workers| && s.workers[i] == CaptureCommit(id, r, raw)
    requires r.device in s.processing
    ensures id in s.tasks && id in s.requests
    ensures Own(s.(tasks := s.tasks[id := CapturedTask(s.tasks[id])],
                   requests := s.requests[id := s.requests[id].(raw := raw)],
                   queues := s.queues[r.device := QueueOf(s.queues, r.device) + [id]],
                   workers := s.workers[i := CaptureDone]), sec, h')
  {
    hide Tables, Owners, Places, Queues, Servers;
    Held(s, sec, h, i, id);
    h' := h.(owner := h.owner - {id});
    var t, r' := CapturedTask(s.tasks[id]), s.requests[id].(raw := raw);
    var queues' := s.queues[r.device := QueueOf(s.queues, r.device) + [id]];
    TablesMoved(s.tasks, s.requests, s.nextSeq, id, t, r');
    QueuesPushed(s.queues, s.tasks, s.processing, id, t);
    OwnersLeft(s.tasks, s.requests, s.workers, h.owner, i, CaptureDone, id, t, r');
    PlacesMoved(s.tasks, s.queues, s.activeWorkers, sec, h.owner, id, t, queues', s.activeWorkers, h'.owner);
    ServersKept(s.workers, s.processing, h.server, i, CaptureDone);
  }

  /** A new queue thread for a device that has none. */
  lemma ServerAdded(s: State, sec: Section, h: Homes, d: DeviceId) returns (h': Homes)
    requires Own(s, sec, h) && d !in s.processing
    ensures Own(s.(processing := s.processing + {d}, workers := s.workers + [QueueIdle(d)]), sec, h')
  {
    hide Tables, Owners, Places, Queues, Servers;
    h' := h.(server := h.server[d := |s.workers|]);
    OwnersAppended(s.tasks, s.requests, s.workers, h.owner, QueueIdle(d));
    QueuesWider(s.queues, s.tasks, s.processing, d);
    ServersAppended(s.workers, s.processing, h.server, QueueIdle(d));
  }

  lemma CommitKeeps(s: State, sec: Section, h: Homes, i: nat, c: Choice) returns (h': Homes)
    requires Own(s, sec, h) && i < |s.workers| && s.workers[i].CaptureCommit?
    ensures Own(Commit(s, i, c), sec, h')
  {
    hide Own;
    var CaptureCommit(id, r, raw) := s.workers[i];
    var d := r.device;
    h' := h;
    if SpawnRefused(s, d, c) {
      CommitRefusedKeeps(s, sec, h, i, id, r, raw);
      OwnIgnores(s.(tasks := s.tasks[id := CapturedTask(s.tasks[id])],
                    requests := s.requests[id := s.requests[id].(raw := raw)],
                    queues := s.queues[d := []],
                    workers := s.workers[i := SpawnFailed(id, r)]), Commit(s, i, c), sec, h);
    } else {
      var s1 := s;
      if d !in s.processing {
        s1 := s.(processing := s.processing + {d}, workers := s.workers + [QueueIdle(d)]);
        h' := ServerAdded(s, sec, h, d);
      }
      h' := CommitQueuedKeeps(s1, sec, h', i, id, r, raw);
      assert s1.workers[i := CaptureDone] == Commit(s, i, c).workers;
      OwnIgnores(s1.(tasks := s.tasks[id := CapturedTask(s.tasks[id])],
                     requests := s.requests[id := s.requests[id].(raw := raw)],
                     queues := s.queues[d := QueueOf(s.queues, d) + [id]],
                     workers := s1.workers[i := CaptureDone]), Commit(s, i, c), sec, h');
    }
  }

  lemma StepKeeps(s: State, sec: Section, h: Homes, i: nat, c: Choice) returns (h': Homes)
    requires Own(s, sec, h) && i < |s.workers| && s.workers[i].Live()
    ensures Own(Step(s, i, c), sec, h')
  {
    hide Own;
    h' := h;
    match s.workers[i]
    case CaptureBegin(_) => BeginKeeps(s, sec, h, i);
    case CaptureAction(_, _) => AcquireKeeps(s, sec, h, i, c);
    case CaptureFailing(_, _) => h' := FailCaptureKeeps(s, sec, h, i);
    case CaptureCommit(_, _, _) => h' := CommitKeeps(s, sec, h, i, c);
    case SpawnFailed(id, r) => h' := CompleteKeeps(s, sec, h, i, CaptureDone, id, r, SPAWN_FAILURE);
    case QueueIdle(_) => h' := PopKeeps(s, sec, h, i);
    case QueueRunning(_, _, _) => RunningKeeps(s, sec, h, i, c);
    case QueueFinishing(d, id, r, result) => h' := CompleteKeeps(s, sec, h, i, QueueIdle(d), id, r, result);
  }

  /** Every move of the scheduler and of the command layer keeps ownership. */
  lemma MoveKeeps(w: World, m: Move, h: Homes) returns (h': Homes)
    requires Own(w.svc, w.section, h) && Enabled(w, m)
    ensures Own(Next(w, m).svc, Next(w, m).section, h')
  {
    h' := h;
    match m
    case DoReserve(r, now) => ReserveKeeps(w.svc, r, now, h);
    case DoStart(ok) => h' := StartKeeps(w.svc, w.section.id, ok, h);
    case DoAbort => AbortKeeps(w.svc, w.section.id, h);
    case DoWork(i, c) => h' := StepKeeps(w.svc, w.section, h, i, c);
    case DoCleanupCheck =>
    case DoCleanupClear => ClearKeeps(w.svc, Cleaning, h);
    case DoCleanupGiveUp =>
  }
}
