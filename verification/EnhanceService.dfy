/** The image enhancement service: its tables as a value, what every region keeps, and the link
    from the service to the runs of a single task. */
module EnhanceService {
  import opened Wrappers
  import opened EnhanceModel
  import R = EnhanceRuns
  import U = EnhanceUsage

  type TaskId = nat      // the sequence number inside "image-enhance-<seq>"

  const INVALID_PARAMS := 1002
  const CAPABILITY_NOT_ALLOWED := 1107
  const INTERNAL_ERROR := 1900

  /** One thread of the vector, with the task it was made for. */
  datatype Thread = Thread(id: TaskId, request: Request, pc: Pc)

  datatype Service = Service(
    tasks: map<TaskId, Row>,
    cancelRequested: set<TaskId>,
    activeWorkers: set<TaskId>,
    threads: seq<Thread>,
    nextSeq: TaskId)

  const EMPTY := Service(map[], {}, {}, [], 1)

  /** What the file system, the provider table and the thread library say to StartTask. */
  datatype Setup = Setup(inputsExist: bool, providerReady: bool, dirReady: bool, spawnOk: bool)

  datatype StartOutcome = Refused(code: int) | SpawnThrew | Started(id: TaskId, row: Row)
  datatype CancelOutcome = NotCancelled(code: int) | Cancelling(row: Row)

  function Start(s: Service, r: Request, e: Setup): (Service, StartOutcome) {
    if r.pages == 0 || !e.inputsExist then (s, Refused(INVALID_PARAMS))
    else if !e.providerReady then (s, Refused(PROVIDER_NOT_READY))
    else
      var id := s.nextSeq;
      var s1 := s.(nextSeq := id + 1);
      if !e.dirReady then (s1, Refused(INTERNAL_ERROR))
      else if !e.spawnOk then (s1, SpawnThrew)
      else (s1.(tasks := s.tasks[id := NewRow(r)],
                activeWorkers := s.activeWorkers + {id},
                threads := s.threads + [Thread(id, r, Begin)]),
            Started(id, NewRow(r)))
  }

  function CancelTask(s: Service, conn: ConnId, id: TaskId): (Service, CancelOutcome) {
    if id !in s.tasks then (s, NotCancelled(INVALID_PARAMS))
    else if s.tasks[id].conn != conn then (s, NotCancelled(CAPABILITY_NOT_ALLOWED))
    else
      (s.(tasks := s.tasks[id := CancelRow(s.tasks[id])], cancelRequested := s.cancelRequested + {id}),
       Cancelling(CancelRow(s.tasks[id])))
  }

  function ClearFinished(s: Service): Service {
    var gone := s.tasks.Keys - s.activeWorkers;
    s.(tasks := s.tasks - gone, cancelRequested := s.cancelRequested - gone)
  }

  /** What the destructor does before it joins. */
  function Shutdown(s: Service): Service {
    s.(cancelRequested := s.cancelRequested + s.tasks.Keys)
  }

  /** A task is started iff there are inputs, all exist, and provider, directory and thread can be
      had; the first thing that is missing decides the answer, and nothing else changes. */
  lemma StartedIff(s: Service, r: Request, e: Setup)
    ensures var (s', o) := Start(s, r, e);
            var asked := r.pages > 0 && e.inputsExist;
            && (o.Started? <==> asked && e.providerReady && e.dirReady && e.spawnOk)
            && (o == Refused(1002) <==> !asked)
            && (o == Refused(1901) <==> asked && !e.providerReady)
            && (o == Refused(1900) <==> asked && e.providerReady && !e.dirReady)
            && (o.SpawnThrew? <==> asked && e.providerReady && e.dirReady && !e.spawnOk)
            && s'.cancelRequested == s.cancelRequested
            && (!o.Started? ==> s'.tasks == s.tasks && s'.activeWorkers == s.activeWorkers && s'.threads == s.threads)
            && (o.Started? ==>
                  && o.id == s.nextSeq && s'.nextSeq == s.nextSeq + 1
                  && o.id in s'.tasks && s'.tasks[o.id] == o.row && o.row.status == Queued && o.row.conn == r.conn
                  && o.row.pages == r.pages && o.row.progress == 0 && !o.row.cancelRequested && o.row.code == 0
                  && o.id in s'.activeWorkers && s'.threads == s.threads + [Thread(o.id, r, Begin)])
  {
  }

  /** A cancel is accepted iff the task exists and belongs to the connection.  It flags that task
      and shows that it did; a queued task is cancelled at once, any other keeps its status. */
  lemma CancelledIff(s: Service, conn: ConnId, id: TaskId)
    ensures var (s', o) := CancelTask(s, conn, id);
            && (o.Cancelling? <==> id in s.tasks && s.tasks[id].conn == conn)
            && (o == NotCancelled(1002) <==> id !in s.tasks)
            && (o == NotCancelled(1107) <==> id in s.tasks && s.tasks[id].conn != conn)
            && (!o.Cancelling? ==> s' == s)
            && (o.Cancelling? ==>
                  && s'.cancelRequested == s.cancelRequested + {id}
                  && id in s'.tasks && s'.tasks[id] == o.row && o.row.cancelRequested
                  && (s.tasks[id].status == Queued ==> o.row.status == Cancelled && o.row.progress == 100)
                  && (s.tasks[id].status != Queued ==> o.row == s.tasks[id].(cancelRequested := true))
                  && (forall x | x in s.tasks && x != id :: x in s'.tasks && s'.tasks[x] == s.tasks[x]))
  {
  }

  predicate Live(s: Service, i: nat) {
    i < |s.threads| && !s.threads[i].pc.Gone?
  }

  function JobOf(s: Service, i: nat): Job
    requires i < |s.threads| && s.threads[i].id in s.tasks
  {
    var t := s.threads[i];
    Job(s.tasks[t.id], t.request, t.pc, t.id in s.cancelRequested)
  }

  function PutJob(s: Service, i: nat, j: Job): Service
    requires i < |s.threads|
  {
    var t := s.threads[i];
    s.(tasks := s.tasks[t.id := j.row],
       threads := s.threads[i := t.(pc := j.pc)],
       activeWorkers := if j.pc.Gone? then s.activeWorkers - {t.id} else s.activeWorkers)
  }

  /** One move of thread `i`. */
  function RunThread(s: Service, i: nat, c: Choice): Service
    requires Valid(s) && Live(s, i)
  {
    PutJob(s, i, Work(JobOf(s, i), c))
  }

  // ----- the invariant

  /** Every row has one thread; a task is active exactly while its thread is live, and an active
      task keeps its row. */
  ghost predicate Valid(s: Service) {
    && (forall i | 0 <= i < |s.threads| :: s.threads[i].id < s.nextSeq)
    && (forall i, k | 0 <= i < k < |s.threads| :: s.threads[i].id != s.threads[k].id)
    && (forall i | 0 <= i < |s.threads| :: !s.threads[i].pc.Gone? <==> s.threads[i].id in s.activeWorkers)
    && (forall i | 0 <= i < |s.threads| && !s.threads[i].pc.Gone? :: s.threads[i].id in s.tasks)
    && (forall i | 0 <= i < |s.threads| && s.threads[i].id in s.tasks ::
         WellFormed(JobOf(s, i)) && R.Shape(JobOf(s, i)))
    && (forall id | id in s.tasks :: HasThread(s, id))
    && s.activeWorkers <= s.tasks.Keys
    && s.cancelRequested <= s.tasks.Keys
  }

  ghost predicate HasThread(s: Service, id: TaskId) {
    exists i :: 0 <= i < |s.threads| && s.threads[i].id == id
  }

  lemma Kept(s: Service, s': Service)
    requires |s.threads| <= |s'.threads| && forall i | 0 <= i < |s.threads| :: s'.threads[i].id == s.threads[i].id
    ensures forall id :: HasThread(s, id) ==> HasThread(s', id)
  {
    forall id | HasThread(s, id) ensures HasThread(s', id) {
      var i :| 0 <= i < |s.threads| && s.threads[i].id == id;
      assert s'.threads[i].id == id;
    }
  }

  lemma UnusedId(s: Service)
    requires Valid(s)
    ensures forall id | id in s.tasks :: id < s.nextSeq
  {
    forall id | id in s.tasks ensures id < s.nextSeq {
      assert HasThread(s, id);
    }
  }

  /** New rows in the same table, same threads. */
  lemma RowsKeepValid(s: Service, s': Service)
    requires Valid(s) && s'.threads == s.threads && s'.activeWorkers == s.activeWorkers && s'.nextSeq == s.nextSeq
    requires s'.tasks.Keys == s.tasks.Keys && s'.cancelRequested <= s.tasks.Keys
    requires forall i | 0 <= i < |s.threads| && s.threads[i].id in s.tasks ::
               WellFormed(JobOf(s', i)) && R.Shape(JobOf(s', i))
    ensures Valid(s')
  {
    hide R.Shape, WellFormed, JobOf;
    Kept(s, s');
  }

  lemma StartKeepsValid(s: Service, r: Request, e: Setup)
    requires Valid(s)
    ensures var (s', o) := Start(s, r, e);
            && Valid(s') && |s.threads| <= |s'.threads| <= |s.threads| + 1
            && (forall i | 0 <= i < |s.threads| && s.threads[i].id in s'.tasks ::
                  s.threads[i].id in s.tasks && s'.threads[i] == s.threads[i] && JobOf(s', i) == JobOf(s, i))
            && (|s'.threads| > |s.threads| ==>
                 o.Started? && s'.threads[|s.threads|].id == o.id && JobOf(s', |s.threads|) == NewJob(r))
            && (!o.Started? ==> s' == s.(nextSeq := s'.nextSeq) && s.nextSeq <= s'.nextSeq)
  {
    hide R.Shape, WellFormed;
    var (s', o) := Start(s, r, e);
    if o.Started? {
      StartedRows(s, r);
    } else {
      Kept(s, s');
      assert forall i | 0 <= i < |s.threads| && s.threads[i].id in s.tasks :: JobOf(s', i) == JobOf(s, i);
    }
  }

  lemma StartedRows(s: Service, r: Request)
    requires Valid(s)
    ensures var s' := Start(s, r, Setup(true, true, true, true)).0;
            r.pages > 0 ==>
              && Valid(s')
              && (forall i | 0 <= i < |s.threads| && s.threads[i].id in s'.tasks ::
                   s.threads[i].id in s.tasks && JobOf(s', i) == JobOf(s, i))
              && JobOf(s', |s.threads|) == NewJob(r)
  {
    hide R.Shape, WellFormed, JobOf, NewRow;
    if r.pages > 0 {
      R.FreshShape(r);
      StartedJobs(s, r);
      StartedThreads(s, r);
    }
  }

  /** The threads of a service with one more task. */
  lemma StartedThreads(s: Service, r: Request)
    requires Valid(s) && r.pages > 0
    requires var s' := Start(s, r, Setup(true, true, true, true)).0;
             forall i | 0 <= i < |s'.threads| && s'.threads[i].id in s'.tasks ::
               WellFormed(JobOf(s', i)) && R.Shape(JobOf(s', i))
    ensures Valid(Start(s, r, Setup(true, true, true, true)).0)
  {
    hide R.Shape, WellFormed, JobOf, NewRow;
    var s' := Start(s, r, Setup(true, true, true, true)).0;
    UnusedId(s);
    Kept(s, s');
    assert s'.threads[|s.threads|].id == s.nextSeq;
  }

  lemma StartedJobs(s: Service, r: Request)
    requires Valid(s) && r.pages > 0
    ensures var s' := Start(s, r, Setup(true, true, true, true)).0;
            forall i | 0 <= i < |s'.threads| && s'.threads[i].id in s'.tasks ::
              && (i < |s.threads| ==> s.threads[i].id in s.tasks)
              && JobOf(s', i) == if i == |s.threads| then NewJob(r) else JobOf(s, i)
  {
    hide R.Shape, WellFormed, JobOf, NewRow;
    var s' := Start(s, r, Setup(true, true, true, true)).0;
    UnusedId(s);
    forall i | 0 <= i < |s'.threads| && s'.threads[i].id in s'.tasks
      ensures i < |s.threads| ==> s.threads[i].id in s.tasks
      ensures JobOf(s', i) == if i == |s.threads| then NewJob(r) else JobOf(s, i)
    {
      StartedJob(s, r, i);
    }
  }

  lemma StartedJob(s: Service, r: Request, i: nat)
    requires i <= |s.threads| && s.nextSeq !in s.cancelRequested && r.pages > 0
    requires i < |s.threads| ==> s.threads[i].id in s.tasks && s.threads[i].id != s.nextSeq
    ensures JobOf(Start(s, r, Setup(true, true, true, true)).0, i) == if i == |s.threads| then NewJob(r)
              else JobOf(s, i)
  {
  }

  lemma FlaggedJob(s: Service, id: TaskId, i: nat, row: Row)
    requires i < |s.threads| && s.threads[i].id in s.tasks && id in s.tasks
    ensures JobOf(s.(tasks := s.tasks[id := row], cancelRequested := s.cancelRequested + {id}), i)
            == if s.threads[i].id == id then JobOf(s, i).(row := row, flagged := true) else JobOf(s, i)
  {
  }

  /** CancelTask is CancelJob on the named task and nothing on the others. */
  lemma CancelKeepsValid(s: Service, conn: ConnId, id: TaskId)
    requires Valid(s)
    ensures var (s', o) := CancelTask(s, conn, id);
            && Valid(s') && s'.threads == s.threads && s'.tasks.Keys == s.tasks.Keys
            && (forall i | 0 <= i < |s.threads| && s.threads[i].id in s.tasks ::
                  JobOf(s', i) == if o.Cancelling? && s.threads[i].id == id then CancelJob(JobOf(s, i))
                      else JobOf(s, i))
  {
    var (s', o) := CancelTask(s, conn, id);
    if o.Cancelling? { AcceptedCancelKeepsValid(s, conn, id); }
  }

  lemma AcceptedCancelKeepsValid(s: Service, conn: ConnId, id: TaskId)
    requires Valid(s) && CancelTask(s, conn, id).1.Cancelling?
    ensures var s' := CancelTask(s, conn, id).0;
            && Valid(s') && s'.threads == s.threads && s'.tasks.Keys == s.tasks.Keys
            && (forall i | 0 <= i < |s.threads| && s.threads[i].id in s.tasks ::
                  JobOf(s', i) == if s.threads[i].id == id then CancelJob(JobOf(s, i)) else JobOf(s, i))
  {
    hide R.Shape, CancelRow, WellFormed;
    var s' := CancelTask(s, conn, id).0;
    forall i | 0 <= i < |s.threads| && s.threads[i].id in s.tasks
      ensures WellFormed(JobOf(s', i)) && R.Shape(JobOf(s', i))
      ensures JobOf(s', i) == if s.threads[i].id == id then CancelJob(JobOf(s, i)) else JobOf(s, i)
    {
      FlaggedJob(s, id, i, CancelRow(s.tasks[id]));
      CancelledShape(JobOf(s, i));
    }
    RowsKeepValid(s, s');
  }

  lemma CancelledShape(j: Job)
    requires WellFormed(j) && R.Shape(j)
    ensures WellFormed(CancelJob(j)) && R.Shape(CancelJob(j))
    ensures WellFormed(j.(flagged := true)) && R.Shape(j.(flagged := true))
  {
    R.CancelKeepsShape(Story(j, []), CancelMove);
    R.CancelKeepsShape(Story(j, []), ShutdownMove);
  }

  /** Only rows with no live thread go, and all of them go. */
  lemma ClearKeepsValid(s: Service)
    requires Valid(s)
    ensures var s' := ClearFinished(s);
            && Valid(s') && s'.tasks.Keys == s.activeWorkers
            && (forall i | 0 <= i < |s.threads| && s.threads[i].id in s'.tasks :: JobOf(s', i) == JobOf(s, i))
  {
    hide R.Shape;
    Kept(s, ClearFinished(s));
  }

  lemma ShutdownKeepsValid(s: Service)
    requires Valid(s)
    ensures var s' := Shutdown(s);
            && Valid(s')
            && (forall i | 0 <= i < |s.threads| && s.threads[i].id in s.tasks ::
                 JobOf(s', i) == JobOf(s, i).(flagged := true))
  {
    hide R.Shape;
    var s' := Shutdown(s);
    forall i | 0 <= i < |s.threads| && s.threads[i].id in s.tasks ensures WellFormed(JobOf(s', i))
        && R.Shape(JobOf(s', i)) {
      assert JobOf(s', i) == JobOf(s, i).(flagged := true);
      CancelledShape(JobOf(s, i));
    }
    RowsKeepValid(s, s');
  }

  /** A thread's move is Work on its own task and nothing on the others; no row appears or goes. */
  lemma ThreadKeepsValid(s: Service, i: nat, c: Choice)
    requires Valid(s) && Live(s, i)
    ensures var s' := RunThread(s, i, c);
            && Valid(s') && s'.tasks.Keys == s.tasks.Keys && |s'.threads| == |s.threads|
            && (forall k | 0 <= k < |s.threads| && s.threads[k].id in s.tasks ::
                  s'.threads[k].id == s.threads[k].id
                  && JobOf(s', k) == if k == i then Work(JobOf(s, i), c) else JobOf(s, k))
  {
    hide R.Shape, Work;
    var s' := RunThread(s, i, c);
    Kept(s, s');
    R.TurnKeepsShape(Story(JobOf(s, i), []), WorkMove(c));
    forall k | 0 <= k < |s.threads| && s.threads[k].id in s.tasks
      ensures WellFormed(JobOf(s', k)) && R.Shape(JobOf(s', k))
    {
      assert JobOf(s', k) == if k == i then Work(JobOf(s, i), c) else JobOf(s, k);
    }
  }

  // ----- runs of the service

  datatype ServiceMove =
    | StartMove(request: Request, setup: Setup)
    | CancelTaskMove(conn: ConnId, id: TaskId)
    | ThreadMove(i: nat, choice: Choice)
    | ClearMove
    | DestroyMove

  ghost predicate Enabled(s: Service, m: ServiceMove) {
    m.ThreadMove? ==> Valid(s) && Live(s, m.i)
  }

  ghost function Next(s: Service, m: ServiceMove): Service
    requires Enabled(s, m)
  {
    match m
    case StartMove(r, e) => Start(s, r, e).0
    case CancelTaskMove(conn, id) => CancelTask(s, conn, id).0
    case ThreadMove(i, c) => RunThread(s, i, c)
    case ClearMove => ClearFinished(s)
    case DestroyMove => Shutdown(s)
  }

  ghost predicate ServiceRun(s: Service, moves: seq<ServiceMove>)
    decreases |moves|
  {
    moves == [] || (Enabled(s, moves[0]) && ServiceRun(Next(s, moves[0]), moves[1..]))
  }

  ghost function ServiceAfter(s: Service, moves: seq<ServiceMove>): Service
    requires ServiceRun(s, moves)
    decreases |moves|
  {
    if moves == [] then s else ServiceAfter(Next(s, moves[0]), moves[1..])
  }

  /** What the threads of the service have said so far, one log per thread. */
  ghost function Hears(s: Service, m: ServiceMove, logs: seq<seq<Event>>): seq<seq<Event>>
    requires Enabled(s, m) && |logs| == |s.threads|
  {
    match m
    case ThreadMove(i, c) => logs[i := logs[i] + Says(JobOf(s, i), c)]
    case StartMove(r, e) => if Start(s, r, e).1.Started? then logs + [[]] else logs
    case _ => logs
  }

  ghost function LogsAfter(s: Service, moves: seq<ServiceMove>, logs: seq<seq<Event>>): seq<seq<Event>>
    requires ServiceRun(s, moves) && |logs| == |s.threads|
    decreases |moves|
  {
    if moves == [] then logs
    else HearsAll(s, moves[0], logs); LogsAfter(Next(s, moves[0]), moves[1..], Hears(s, moves[0], logs))
  }

  lemma HearsAll(s: Service, m: ServiceMove, logs: seq<seq<Event>>)
    requires Enabled(s, m) && |logs| == |s.threads|
    ensures |Hears(s, m, logs)| == |Next(s, m).threads|
  {
    hide Valid, Work;
  }

  /** `t` is where some run of one task on its own leads, history included. */
  ghost predicate IsStory(t: Story) {
    exists moves: seq<Move> :: Run(Fresh(t.job.request), moves) && After(Fresh(t.job.request), moves) == t
  }

  ghost predicate AllStories(s: Service, logs: seq<seq<Event>>) {
    && |logs| == |s.threads|
    && forall i | 0 <= i < |s.threads| && s.threads[i].id in s.tasks :: IsStory(Story(JobOf(s, i), logs[i]))
  }

  lemma {:induction false} ExtendStory(s: Story, moves: seq<Move>, m: Move)
    requires Run(s, moves) && Can(After(s, moves), m)
    ensures Run(s, moves + [m]) && After(s, moves + [m]) == Turn(After(s, moves), m)
    decreases |moves|
  {
    hide Turn, Can;
    if moves == [] {
      assert [m][1..] == [];
    } else {
      assert (moves + [m])[1..] == moves[1..] + [m];
      ExtendStory(Turn(s, moves[0]), moves[1..], m);
    }
  }

  lemma StoryGoesOn(t: Story, m: Move)
    requires IsStory(t) && Can(t, m)
    ensures IsStory(Turn(t, m))
  {
    hide Work, Says, Run, After;
    var r := t.job.request;
    var moves: seq<Move> :| Run(Fresh(r), moves) && After(Fresh(r), moves) == t;
    ExtendStory(Fresh(r), moves, m);
    assert Turn(t, m).job.request == r;
  }

  lemma NewStory(r: Request)
    ensures IsStory(Fresh(r))
  {
    assert Run(Fresh(r), []) && After(Fresh(r), []) == Fresh(r);
  }

  /** What a move of the service is for the task of thread `k`: nothing, or one move of its own
      run. */
  lemma MoveOnJob(s: Service, m: ServiceMove, k: nat) returns (own: Option<Move>)
    requires Valid(s) && Enabled(s, m) && k < |s.threads|
    ensures m.ThreadMove? && m.i == k <==> own.Some? && own.value.WorkMove?
    ensures m.ThreadMove? && m.i == k ==> own == Some(WorkMove(m.choice))
    ensures var s' := Next(s, m);
            && k < |s'.threads| && s'.threads[k].id == s.threads[k].id
            && (s.threads[k].id in s'.tasks ==>
                  && s.threads[k].id in s.tasks && WellFormed(JobOf(s, k)) && R.Shape(JobOf(s, k))
                  && (own.None? ==> JobOf(s', k) == JobOf(s, k))
                  && (own.Some? ==>
                        && Can(Story(JobOf(s, k), []), own.value)
                        && JobOf(s', k) == Turn(Story(JobOf(s, k), []), own.value).job))
  {
    hide R.Shape, Work, WellFormed;
    own := None;
    match m
    case StartMove(r, e) => StartKeepsValid(s, r, e);
    case CancelTaskMove(conn, id) =>
      CancelKeepsValid(s, conn, id);
      if CancelTask(s, conn, id).1.Cancelling? && s.threads[k].id == id { own := Some(CancelMove); }
    case ThreadMove(i, c) =>
      ThreadKeepsValid(s, i, c);
      if i == k { own := Some(WorkMove(c)); }
    case ClearMove => ClearKeepsValid(s);
    case DestroyMove =>
      ShutdownKeepsValid(s);
      own := Some(ShutdownMove);
  }

  lemma MoveKeepsValid(s: Service, m: ServiceMove)
    requires Valid(s) && Enabled(s, m)
    ensures Valid(Next(s, m)) && |s.threads| <= |Next(s, m).threads|
    ensures forall k | |s.threads| <= k < |Next(s, m).threads| && Next(s, m).threads[k].id in Next(s, m).tasks ::
              m.StartMove? && JobOf(Next(s, m), k) == NewJob(m.request)
  {
    hide Valid, Start, CancelTask, JobOf;
    match m
    case StartMove(r, e) => StartKeepsValid(s, r, e);
    case CancelTaskMove(conn, id) => CancelKeepsValid(s, conn, id);
    case ThreadMove(k, c) => ThreadKeepsValid(s, k, c);
    case ClearMove => ClearKeepsValid(s);
    case DestroyMove => ShutdownKeepsValid(s);
  }

  /** A run does not depend on what was said before it. */
  lemma TurnOfJob(j: Job, log: seq<Event>, m: Move)
    requires Can(Story(j, []), m)
    ensures Can(Story(j, log), m)
    ensures Turn(Story(j, log), m) ==
              Story(Turn(Story(j, []), m).job, if m.WorkMove? then log + Says(j, m.choice) else log)
  {
    hide Work, Says;
  }

  lemma MoveKeepsStories(s: Service, m: ServiceMove, logs: seq<seq<Event>>)
    requires Valid(s) && AllStories(s, logs) && Enabled(s, m)
    ensures Valid(Next(s, m)) && AllStories(Next(s, m), Hears(s, m, logs))
  {
    hide Valid, IsStory, Turn, Next, WellFormed, R.Shape, Says, Can, Start;
    MoveKeepsValid(s, m);
    HearsAll(s, m, logs);
    var s', logs' := Next(s, m), Hears(s, m, logs);
    forall k | 0 <= k < |s'.threads| && s'.threads[k].id in s'.tasks ensures IsStory(Story(JobOf(s', k), logs'[k])) {
      if k < |s.threads| {
        var own := MoveOnJob(s, m, k);
        if own.Some? {
          TurnOfJob(JobOf(s, k), logs[k], own.value);
          StoryGoesOn(Story(JobOf(s, k), logs[k]), own.value);
        }
      } else {
        NewStory(m.request);
      }
    }
  }

  /** Whatever the service goes through, every task it still has is where a run of that task on
      its own leads, with the same history: all that holds of those runs holds of the service. */
  lemma {:induction false} EveryTaskIsAStory(s: Service, moves: seq<ServiceMove>, logs: seq<seq<Event>>)
    requires Valid(s) && AllStories(s, logs) && ServiceRun(s, moves)
    ensures Valid(ServiceAfter(s, moves)) && AllStories(ServiceAfter(s, moves), LogsAfter(s, moves, logs))
    decreases |moves|
  {
    hide Valid, Next, Enabled, Hears, IsStory;
    if moves != [] {
      MoveKeepsStories(s, moves[0], logs);
      EveryTaskIsAStory(Next(s, moves[0]), moves[1..], Hears(s, moves[0], logs));
    }
  }

  /** From the empty service: a task is active iff it has a live thread, one row per thread at
      most, and a row without a live thread is cancelled, failed or completed. */
  lemma {:induction false} InactiveMeansOver(moves: seq<ServiceMove>, id: TaskId)
    requires ServiceRun(EMPTY, moves)
    ensures var s := ServiceAfter(EMPTY, moves);
            && (id in s.activeWorkers <==> exists i: nat :: Live(s, i) && s.threads[i].id == id)
            && (id in s.activeWorkers ==> id in s.tasks)
            && (id in s.tasks && id !in s.activeWorkers ==>
                  s.tasks[id].status in {Cancelled, Failed, Completed} && s.tasks[id].progress == 100)
  {
    hide ServiceRun, ServiceAfter, IsStory, WellFormed;
    EveryTaskIsAStory(EMPTY, moves, []);
    var s := ServiceAfter(EMPTY, moves);
    if id in s.tasks {
      assert HasThread(s, id);
      var i :| 0 <= i < |s.threads| && s.threads[i].id == id;
      assert id in s.activeWorkers <==> Live(s, i);
      if id !in s.activeWorkers { OverShape(JobOf(s, i)); }
    }
  }

  lemma OverShape(j: Job)
    requires R.Shape(j) && j.pc.Gone?
    ensures j.row.status in {Cancelled, Failed, Completed} && j.row.progress == 100
  {
  }

  /** In the service too: once an effective cancel is in, no later command or thread can let the
      task complete. */
  lemma {:induction false} CancelHolds(s: Service, moves: seq<ServiceMove>, k: nat)
    requires Valid(s) && ServiceRun(s, moves) && k < |s.threads| && s.threads[k].id in s.tasks
    requires R.Stopping(JobOf(s, k))
    ensures var t := ServiceAfter(s, moves);
            && k < |t.threads| && t.threads[k].id == s.threads[k].id
            && (t.threads[k].id in t.tasks ==>
                  && R.Stopping(JobOf(t, k))
                  && (t.threads[k].id in t.activeWorkers || t.tasks[t.threads[k].id].status in {Cancelled, Failed}))
    decreases |moves|
  {
    hide R.Stopping, R.Shape, Turn, Next, WellFormed, IsStory;
    if moves == [] {
      if s.threads[k].id !in s.activeWorkers { StoppedStatus(JobOf(s, k)); }
    } else {
      var m := moves[0];
      var own := MoveOnJob(s, m, k);
      MoveKeepsValid(s, m);
      if s.threads[k].id in Next(s, m).tasks {
        if own.Some? { R.TurnKeepsStopping(Story(JobOf(s, k), []), own.value); }
        CancelHolds(Next(s, m), moves[1..], k);
      } else {
        GoneStaysGone(Next(s, m), moves[1..], k);
      }
    }
  }

  lemma StoppedStatus(j: Job)
    requires R.Stopping(j) && j.pc.Gone?
    ensures j.row.status in {Cancelled, Failed}
  {
  }

  /** A row that cleanup removed never comes back. */
  lemma {:induction false} GoneStaysGone(s: Service, moves: seq<ServiceMove>, k: nat)
    requires Valid(s) && ServiceRun(s, moves) && k < |s.threads| && s.threads[k].id !in s.tasks
    ensures var t := ServiceAfter(s, moves);
            k < |t.threads| && t.threads[k].id == s.threads[k].id && t.threads[k].id !in t.tasks
    decreases |moves|
  {
    hide Valid, Next, WellFormed, R.Shape, Turn;
    if moves != [] {
      var own := MoveOnJob(s, moves[0], k);
      MoveKeepsValid(s, moves[0]);
      GoneStaysGone(Next(s, moves[0]), moves[1..], k);
    }
  }

  /** What the service itself did for a task whose thread has ended accounts for its status: it is
      completed iff the outputs were written and nothing was refused or threw.  Quota was asked
      for in key order, at most once per capability, only for what is owed, and for all of it if
      the task is completed. */
  lemma {:induction false} EndedTasksAreAccountedFor(moves: seq<ServiceMove>, i: nat)
    requires ServiceRun(EMPTY, moves)
    requires var s := ServiceAfter(EMPTY, moves);
             i < |s.threads| && s.threads[i].id in s.tasks && s.threads[i].pc.Gone?
    ensures |LogsAfter(EMPTY, moves, [])| == |ServiceAfter(EMPTY, moves).threads|
    ensures var j, log := JobOf(ServiceAfter(EMPTY, moves), i), LogsAfter(EMPTY, moves, [])[i];
            && (j.row.status == Completed <==> U.Written(log, j.request) && U.AllGood(log))
            && (j.row.status == Completed ==> j.row.outputs == j.row.assets == U.OutputCount(log))
            && (j.row.status != Completed ==> j.row.assets == 0 && j.row.code == U.RefusedWith(log))
            && U.AskedFor(log) <= U.EarnedKeys(log, j.request)
            && (j.row.status == Completed ==> U.AskedFor(log) == U.EarnedKeys(log, j.request))
  {
    hide ServiceRun, ServiceAfter, WellFormed, Valid, Run, After, U.AllGood, U.AskedFor, U.EarnedKeys;
    var t := TaskStory(moves, i);
    var own: seq<Move> :| Run(Fresh(t.job.request), own) && After(Fresh(t.job.request), own) == t;
    U.FinalStatus(t.job.request, own);
  }

  /** Each request for quota that the service made was justified when it was made. */
  lemma {:induction false} EveryRequestIsJustified(moves: seq<ServiceMove>, i: nat, k: nat)
    requires ServiceRun(EMPTY, moves)
    requires var s := ServiceAfter(EMPTY, moves); i < |s.threads| && s.threads[i].id in s.tasks
    requires |LogsAfter(EMPTY, moves, [])| == |ServiceAfter(EMPTY, moves).threads|
    requires var log := LogsAfter(EMPTY, moves, [])[i]; k < |log| && log[k].Asked?
    ensures var r, log := ServiceAfter(EMPTY, moves).threads[i].request, LogsAfter(EMPTY, moves, [])[i];
            && U.Written(log[..k], r)
            && U.Ended(log[..k]) == U.EnabledBelow(r.steps, |r.steps|)
            && log[k].units == U.Earned(log[..k], r, log[k].capability) > 0
  {
    hide ServiceRun, ServiceAfter, WellFormed, Valid, Run, After, U.Ended, U.EnabledBelow, U.Earned;
    var t := TaskStory(moves, i);
    var own: seq<Move> :| Run(Fresh(t.job.request), own) && After(Fresh(t.job.request), own) == t;
    U.QuotaMatchesUsage(t.job.request, own, k);
  }

  lemma {:induction false} TaskStory(moves: seq<ServiceMove>, i: nat) returns (t: Story)
    requires ServiceRun(EMPTY, moves)
    requires var s := ServiceAfter(EMPTY, moves); i < |s.threads| && s.threads[i].id in s.tasks
    ensures |LogsAfter(EMPTY, moves, [])| == |ServiceAfter(EMPTY, moves).threads|
    ensures t == Story(JobOf(ServiceAfter(EMPTY, moves), i), LogsAfter(EMPTY, moves, [])[i]) && IsStory(t)
  {
    hide ServiceRun, ServiceAfter, IsStory;
    EveryTaskIsAStory(EMPTY, moves, []);
    t := Story(JobOf(ServiceAfter(EMPTY, moves), i), LogsAfter(EMPTY, moves, [])[i]);
  }
}
