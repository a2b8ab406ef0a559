/** Every interleaving of the threads is finite, and where it ends everything is at rest. */
module CaptureQuiescence {
  import opened Wrappers
  import opened Sums
  import opened CaptureModel
  import opened CaptureWorld
  import opened CaptureOwnership
  import opened CaptureEffects
  import opened CaptureSlots

  lemma TotalMove(ws: seq<Worker>, ws': seq<Worker>, i: nat, f: Worker -> nat)
    requires i < |ws| && ThreadsMove(ws, ws', i)
    ensures Total(ws', f) == Total(ws, f) - f(ws[i]) + f(ws'[i]) + (if |ws'| > |ws| then f(ws'[|ws|]) else 0)
  {
    TotalUpdate(ws, i, ws'[i], f);
    if |ws'| > |ws| {
      assert ws' == ws[i := ws'[i]] + [ws'[|ws|]];
      TotalAppend(ws[i := ws'[i]], ws'[|ws|], f);
    } else {
      assert ws' == ws[i := ws'[i]];
    }
  }

  /** Upper bound on what a thread still does itself and for the task it will queue. */
  function Effort(w: Worker): nat {
    match w
    case CaptureBegin(_) => 7
    case CaptureAction(_, _) => 6
    case CaptureCommit(_, _, _) => 5
    case QueueRunning(_, _, _) => 3
    case QueueFinishing(_, _, _, _) => 2
    case CaptureFailing(_, _) => 1
    case SpawnFailed(_, _) => 1
    case QueueIdle(_) => 1
    case _ => 0
  }

  function Queued(tasks: map<TaskId, Task>): set<TaskId> {
    set id | id in tasks && InPhase(tasks[id], ProcQueued)
  }

  function Measure(s: State): nat {
    Total(s.workers, Effort) + 3 * |Queued(s.tasks)|
  }

  lemma QueuedMoves(tasks: map<TaskId, Task>, id: TaskId, t: Task)
    requires id in tasks
    ensures |Queued(tasks[id := t])|
              == |Queued(tasks)| - (if InPhase(tasks[id], ProcQueued) then 1 else 0)
                  + (if InPhase(t, ProcQueued) then 1 else 0)
  {
    var a, b := Queued(tasks), Queued(tasks[id := t]);
    assert a - {id} == b - {id};
    Without(a, id);
    Without(b, id);
  }

  lemma Without(a: set<TaskId>, id: TaskId)
    ensures |a| == |a - {id}| + (if id in a then 1 else 0)
  {
    if id in a { assert a == (a - {id}) + {id}; } else { assert a == a - {id}; }
  }

  /** The program counter after a move, as far as effort is concerned. */
  lemma NextEffort(s: State, sec: Section, h: Homes, i: nat, c: Choice)
    requires Own(s, sec, h) && i < |s.workers| && s.workers[i].Live()
    ensures var w, w' := s.workers[i], Step(s, i, c).workers[i];
            match w
            case CaptureBegin(_) => w'.CaptureAction?
            case CaptureAction(_, _) => w'.CaptureCommit? || w'.CaptureFailing?
            case CaptureFailing(_, _) => w'.CaptureDone?
            case CaptureCommit(_, _, _) => w'.CaptureDone?
                   || (w'.SpawnFailed? && |Step(s, i, c).workers| == |s.workers|)
            case SpawnFailed(_, _) => w'.CaptureDone?
            case QueueIdle(_) => if Touched(s, i) == None then w'.QueueDone? else w'.QueueRunning?
            case QueueRunning(_, _, _) => w'.QueueFinishing?
            case _ => w'.QueueIdle?
  {
    hide Own, PutSummary, SummaryOf, FinalStatus, Succeeds;
    if s.workers[i].QueueIdle? {
      if Touched(s, i).Some? { QueuedFirst(s, sec, h, s.workers[i].device); }
    } else {
      Held(s, sec, h, i, TaskOf(s.workers[i]).value);
    }
  }

  /** Every move of every thread brings the end closer. */
  lemma StepDescends(s: State, sec: Section, h: Homes, i: nat, c: Choice)
    requires Own(s, sec, h) && i < |s.workers| && s.workers[i].Live()
    ensures Measure(Step(s, i, c)) < Measure(s)
  {
    hide Own, Step, Observed, Total;
    var s' := Step(s, i, c);
    ThreadMoves(s, i, c);
    TotalMove(s.workers, s'.workers, i, Effort);
    NextEffort(s, sec, h, i, c);
    RowMoves(s, sec, h, i, c);
    if Touched(s, i).Some? {
      QueuedMoves(s.tasks, Touched(s, i).value, s'.tasks[Touched(s, i).value]);
    }
  }

  ghost predicate OnlyWork(moves: seq<Move>) {
    forall m <- moves :: m.DoWork?
  }

  /** A run of threads alone is no longer than the measure of its first state. */
  lemma {:induction false} WorkIsFinite(w: World, moves: seq<Move>, h: Homes)
    requires Own(w.svc, w.section, h) && Run(w, moves) && OnlyWork(moves)
    ensures |moves| <= Measure(w.svc)
    decreases |moves|
  {
    hide Own, Step, Observed, Measure;
    if moves != [] {
      var m := moves[0];
      assert m in moves;
      StepDescends(w.svc, w.section, h, m.thread, m.choice);
      WorkMove(w, m.thread, m.choice);
      var h' := StepKeeps(w.svc, w.section, h, m.thread, m.choice);
      WorkIsFinite(Next(w, m), moves[1..], h');
    }
  }

  predicate AllDone(s: State) {
    forall i | 0 <= i < |s.workers| :: !s.workers[i].Live()
  }

  ghost predicate AtRest(s: State) {
    && (forall id <- s.tasks :: Over(s.tasks[id]))
    && (forall d :: QueueOf(s.queues, d) == [])
    && s.activeWorkers == {} && s.capturing == {} && s.processing == {}
  }

  lemma DoneIsIdle(s: State, sec: Section, h: Homes)
    requires Own(s, sec, h) && AllDone(s)
    ensures h.owner == map[] && s.processing == {}
  {
    assert h.server == map[];
  }

  /** When no thread can move and no reservation is open, every task is over, every queue is
      empty and no device is marked busy. */
  lemma DoneMeansAtRest(s: State, sec: Section, h: Homes)
    requires Own(s, sec, h) && !sec.Reserved? && SlotsClaimed(s) && AllDone(s)
    ensures AtRest(s)
  {
    DoneIsIdle(s, sec, h);
    forall d
      ensures QueueOf(s.queues, d) == []
    {
      UnservedIsEmpty(s.queues, s.tasks, s.processing, d);
    }
    forall id | id in s.tasks
      ensures Over(s.tasks[id]) && id !in s.activeWorkers
    {
      assert Shaped(s.tasks[id]) by { Known(s, sec, h, id); }
      assert AtHome(s.tasks[id], false, id in QueueOf(s.queues, s.tasks[id].device), id in s.activeWorkers, false);
    }
  }

  // ----- how many threads there can be

  function IsCapture(w: Worker): nat {
    if w.QueueIdle? || w.QueueRunning? || w.QueueFinishing? || w.QueueDone? then 0 else 1
  }

  function IsQueue(w: Worker): nat {
    1 - IsCapture(w)
  }

  /** A capture thread that may still create a queue thread. */
  function MaySpawn(w: Worker): nat {
    if w.CaptureBegin? || w.CaptureAction? || w.CaptureCommit? then 1 else 0
  }

  ghost predicate Budgeted(ws: seq<Worker>) {
    Total(ws, IsQueue) + Total(ws, MaySpawn) <= Total(ws, IsCapture)
  }

  lemma {:induction false} TotalIsLength(ws: seq<Worker>)
    ensures Total(ws, IsQueue) + Total(ws, IsCapture) == |ws|
  {
    if ws != [] { TotalIsLength(ws[..|ws| - 1]); }
  }

  /** At most one queue thread per capture thread: never more than twice as many threads. */
  lemma AtMostTwice(ws: seq<Worker>)
    requires Budgeted(ws)
    ensures |ws| <= 2 * Total(ws, IsCapture)
  {
    TotalIsLength(ws);
  }

  lemma StepBudget(s: State, sec: Section, h: Homes, i: nat, c: Choice)
    requires Own(s, sec, h) && i < |s.workers| && s.workers[i].Live()
    ensures Budgeted(s.workers) ==> Budgeted(Step(s, i, c).workers)
    ensures Total(Step(s, i, c).workers, IsCapture) == Total(s.workers, IsCapture)
  {
    hide Own, Step, Total;
    ThreadMoves(s, i, c);
    NextEffort(s, sec, h, i, c);
    TotalMove(s.workers, Step(s, i, c).workers, i, IsQueue);
    TotalMove(s.workers, Step(s, i, c).workers, i, IsCapture);
    TotalMove(s.workers, Step(s, i, c).workers, i, MaySpawn);
  }

  lemma MoveBudget(w: World, m: Move, h: Homes)
    requires Own(w.svc, w.section, h) && Enabled(w, m) && Budgeted(w.svc.workers)
    ensures Budgeted(Next(w, m).svc.workers)
  {
    hide Own, Next, Step, Total;
    if m.DoWork? {
      WorkMove(w, m.thread, m.choice);
      StepBudget(w.svc, w.section, h, m.thread, m.choice);
    } else {
      DeskRest(w, m);
      if m.DoStart? {
        TotalAppend(w.svc.workers, CaptureBegin(w.section.id), IsQueue);
        TotalAppend(w.svc.workers, CaptureBegin(w.section.id), IsCapture);
        TotalAppend(w.svc.workers, CaptureBegin(w.section.id), MaySpawn);
      }
    }
  }
}
