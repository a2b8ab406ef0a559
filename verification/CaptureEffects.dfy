/** What one thread move can do, in the few facts that later proofs use. */
module CaptureEffects {
  import opened Wrappers
  import opened CaptureModel
  import opened CaptureWorld
  import opened CaptureOwnership

  /** The task whose row a move of thread `i` may change. */
  function Touched(s: State, i: nat): Option<TaskId>
    requires i < |s.workers|
  {
    var w := s.workers[i];
    if w.QueueIdle? then
      var q := QueueOf(s.queues, w.device);
      if q == [] then None else Some(q[0])
    else TaskOf(w)
  }

  /** The pipeline calls it a success: its status says so, or is empty with code 0. */
  predicate GoodStatus(result: PipelineResult) {
    match result.status
    case Some(GoodOutcome) => true
    case Some(BadOutcome) => false
    case None => result.code == 0
  }

  /** The row of a finished task tells what its pipeline answered. */
  predicate Reflects(t: Task, result: PipelineResult) {
    && t.code == result.code
    && t.status == (if GoodStatus(result) then Succeeded else Failed)
    && t.processing == (if GoodStatus(result) && result.code == 0 then ProcSucceeded else ProcFailed)
  }

  /** How the row of the touched task moves, and what is observed of it. */
  predicate RowMove(w: Worker, id: TaskId, t: Task, t': Task, e: seq<Event>) {
    && t'.conn == t.conn && t'.device == t.device && t'.source == t.source
    && match w
       case CaptureBegin(_) => Waiting(t) && Acquiring(t') && e == []
       case CaptureAction(_, _) => Acquiring(t) && t' == t && (e == [] || (e == [Shutter(id)] && t.source == Manual))
       case CaptureFailing(_, _) =>
         && Acquiring(t) && Over(t') && t'.acquisition == AcqFailed && t'.processing == Skipped && t'.code == 1301
         && e == [CaptureLost(id, t.conn, t.device)]
       case CaptureCommit(_, _, _) =>
         && Acquiring(t) && InPhase(t', ProcQueued)
         && e in {[CapturedRaw(id, t.conn, t.device, true)], [CapturedRaw(id, t.conn, t.device, false)]}
       case SpawnFailed(_, _) =>
         && InPhase(t, ProcQueued) && Over(t') && t'.acquisition == Captured && Reflects(t', NO_THREAD)
         && e == [Finished(id, t.conn, t.device, NO_THREAD)]
       case QueueIdle(d) => InPhase(t, ProcQueued) && InPhase(t', ProcRunning) && t.device == d && e == [Popped(id, d)]
       case QueueRunning(_, _, _) =>
         InPhase(t, ProcRunning) && t' == t && |e| == 1 && e[0].Ran? && e[0].id == id && !e[0].shot
       case QueueFinishing(_, _, _, result) =>
         && InPhase(t, ProcRunning) && Over(t') && t'.acquisition == Captured && Reflects(t', result)
         && e == [Finished(id, t.conn, t.device, result)]
       case _ => false
  }

  ghost predicate RowMoved(s: State, sec: Section, i: nat, c: Choice)
    requires i < |s.workers| && s.workers[i].Live()
  {
    && Step(s, i, c).nextSeq == s.nextSeq
    && (Touched(s, i) == None ==> Step(s, i, c).tasks == s.tasks && Observed(s, i, c) == [])
    && (Touched(s, i).Some? ==>
          var id := Touched(s, i).value;
          && id in s.tasks && id < s.nextSeq && sec != Reserved(id)
          && id in Step(s, i, c).tasks
          && Step(s, i, c).tasks == s.tasks[id := Step(s, i, c).tasks[id]]
          && RowMove(s.workers[i], id, s.tasks[id], Step(s, i, c).tasks[id], Observed(s, i, c)))
  }

  lemma CaptureRowMoves(s: State, sec: Section, h: Homes, i: nat, c: Choice)
    requires Own(s, sec, h) && i < |s.workers|
    requires s.workers[i].CaptureBegin? || s.workers[i].CaptureAction? || s.workers[i].CaptureFailing?
    ensures RowMoved(s, sec, i, c)
  {
    hide Own, Commit, Complete, Pop, PutSummary, SummaryOf;
    Held(s, sec, h, i, TaskOf(s.workers[i]).value);
    if s.workers[i].CaptureAction? {
      assert s.tasks[s.workers[i].id := s.tasks[s.workers[i].id]] == s.tasks;
    }
  }

  lemma CommitRowMoves(s: State, sec: Section, h: Homes, i: nat, c: Choice)
    requires Own(s, sec, h) && i < |s.workers| && s.workers[i].CaptureCommit?
    ensures RowMoved(s, sec, i, c)
  {
    hide Own, Commit, Complete, Pop, Begin, Acquire, FailCapture, PutSummary, SummaryOf, SpawnRefused;
    Held(s, sec, h, i, s.workers[i].id);
    CommitFields(s, i, c);
  }

  lemma QueueRowMoves(s: State, sec: Section, h: Homes, i: nat, c: Choice)
    requires Own(s, sec, h) && i < |s.workers| && s.workers[i].QueueIdle?
    ensures RowMoved(s, sec, i, c)
  {
    hide Own, Commit, Complete, Begin, Acquire, FailCapture, PutSummary, SummaryOf;
    if Touched(s, i).Some? { QueuedFirst(s, sec, h, s.workers[i].device); Known(s, sec, h, Touched(s, i).value); }
  }

  lemma FinishRowMoves(s: State, sec: Section, h: Homes, i: nat, c: Choice)
    requires Own(s, sec, h) && i < |s.workers|
    requires s.workers[i].SpawnFailed? || s.workers[i].QueueRunning? || s.workers[i].QueueFinishing?
    ensures RowMoved(s, sec, i, c)
  {
    hide Own, Commit, Pop, Begin, Acquire, FailCapture, PutSummary, SummaryOf;
    Held(s, sec, h, i, TaskOf(s.workers[i]).value);
    if s.workers[i].QueueRunning? {
      assert s.tasks[s.workers[i].id := s.tasks[s.workers[i].id]] == s.tasks;
    }
  }

  lemma RowMoves(s: State, sec: Section, h: Homes, i: nat, c: Choice)
    requires Own(s, sec, h) && i < |s.workers| && s.workers[i].Live()
    ensures Step(s, i, c).nextSeq == s.nextSeq
    ensures Touched(s, i) == None ==> Step(s, i, c).tasks == s.tasks && Observed(s, i, c) == []
    ensures Touched(s, i).Some? ==>
              var id := Touched(s, i).value;
              && id in s.tasks && id < s.nextSeq && sec != Reserved(id)
              && id in Step(s, i, c).tasks
              && Step(s, i, c).tasks == s.tasks[id := Step(s, i, c).tasks[id]]
              && RowMove(s.workers[i], id, s.tasks[id], Step(s, i, c).tasks[id], Observed(s, i, c))
  {
    hide Own, Step, Observed, RowMove, Touched;
    match s.workers[i]
    case CaptureCommit(_, _, _) => CommitRowMoves(s, sec, h, i, c);
    case QueueIdle(_) => QueueRowMoves(s, sec, h, i, c);
    case SpawnFailed(_, _) => FinishRowMoves(s, sec, h, i, c);
    case QueueRunning(_, _, _) => FinishRowMoves(s, sec, h, i, c);
    case QueueFinishing(_, _, _, _) => FinishRowMoves(s, sec, h, i, c);
    case _ => CaptureRowMoves(s, sec, h, i, c);
  }

  lemma Known(s: State, sec: Section, h: Homes, id: TaskId)
    requires Own(s, sec, h) && id in s.tasks
    ensures id < s.nextSeq && Shaped(s.tasks[id]) && id in s.requests && Matches(s.tasks[id], s.requests[id])
  {
    hide Owners, Places, Queues, Servers;
  }

  /** Thread `i` moves on, at most one queue thread is added, all others stay where they are. */
  predicate ThreadsMove(ws: seq<Worker>, ws': seq<Worker>, i: nat)
    requires i < |ws|
  {
    && |ws| <= |ws'| <= |ws| + 1
    && (forall j | 0 <= j < |ws| && j != i :: ws'[j] == ws[j])
    && (ws'[i].CaptureAction? ==> ws[i].CaptureBegin? && ws'[i].id == ws[i].id)
    && (|ws'| > |ws| ==> ws[i].CaptureCommit? && ws'[|ws|].QueueIdle?)
  }

  lemma CommitThreads(s: State, i: nat, c: Choice)
    requires i < |s.workers| && s.workers[i].CaptureCommit?
    ensures ThreadsMove(s.workers, Commit(s, i, c).workers, i)
  {
  }

  lemma ThreadMoves(s: State, i: nat, c: Choice)
    requires i < |s.workers| && s.workers[i].Live()
    ensures ThreadsMove(s.workers, Step(s, i, c).workers, i)
  {
    hide Commit;
    if s.workers[i].CaptureCommit? { CommitThreads(s, i, c); }
  }

  // ----- moves of the command layer

  predicate NewRow(w: World, w': World, r: Request, now: int) {
    && w.svc.nextSeq !in w.svc.tasks
    && w'.svc.tasks == w.svc.tasks[w.svc.nextSeq := NewTask(r)]
    && w'.svc.nextSeq == w.svc.nextSeq + 1
    && w'.log == w.log + [Accepted(w.svc.nextSeq, r.device, NewTask(r).source, now)]
  }

  predicate NoRow(w: World, w': World) {
    w'.svc.tasks == w.svc.tasks && w'.svc.nextSeq >= w.svc.nextSeq && w'.log == w.log
  }

  predicate GoneRow(w: World, w': World, id: TaskId) {
    && id in w.svc.tasks && Waiting(w.svc.tasks[id]) && id < w.svc.nextSeq
    && w'.svc.tasks == w.svc.tasks - {id} && w'.svc.nextSeq == w.svc.nextSeq && w'.log == w.log + [RolledBack(id)]
  }

  predicate OverRowsGone(w: World, w': World) {
    && (forall id <- w'.svc.tasks :: id in w.svc.tasks && w'.svc.tasks[id] == w.svc.tasks[id])
    && (forall id <- w.svc.tasks :: id in w'.svc.tasks <==> !Terminal(w.svc.tasks[id]))
    && w'.svc.nextSeq == w.svc.nextSeq && w'.log == w.log
  }

  lemma DeskRows(w: World, m: Move, h: Homes)
    requires Own(w.svc, w.section, h) && Enabled(w, m) && !m.DoWork?
    ensures var w' := Next(w, m);
            && match m
               case DoReserve(r, now) => if Reserve(w.svc, r, now).1.accepted then NewRow(w, w', r, now)
                      else NoRow(w, w')
               case DoStart(ok) => if ok then NoRow(w, w') else GoneRow(w, w', w.section.id)
               case DoAbort => GoneRow(w, w', w.section.id)
               case DoCleanupClear => OverRowsGone(w, w')
               case _ => NoRow(w, w')
  {
    hide Own;
    match m
    case DoReserve(_, _) => NotYetKnown(w.svc, h, w.svc.nextSeq);
    case DoStart(_) => ReservedTask(w.svc, h, w.section.id); Known(w.svc, w.section, h, w.section.id);
    case DoAbort => ReservedTask(w.svc, h, w.section.id); Known(w.svc, w.section, h, w.section.id);
    case DoCleanupClear => ClearedRows(w.svc, Cleaning, h);
    case _ =>
  }

  /** Only threads and reservations touch the rest of the state. */
  lemma DeskRest(w: World, m: Move)
    requires Enabled(w, m) && !m.DoWork?
    ensures var s' := Next(w, m).svc;
            && s'.summaries == w.svc.summaries && s'.queues == w.svc.queues && s'.processing == w.svc.processing
            && (s'.workers == w.svc.workers
                 || (m.DoStart? && s'.workers == w.svc.workers + [CaptureBegin(w.section.id)]))
  {
  }

  lemma StepKeepsCooldown(s: State, i: nat, c: Choice)
    requires i < |s.workers| && s.workers[i].Live()
    ensures Step(s, i, c).cooldown == s.cooldown
  {
    hide PutSummary, SummaryOf, FinalStatus, Succeeds, QueueOf;
    match s.workers[i]
    case CaptureBegin(_) =>
    case CaptureAction(_, _) =>
    case CaptureFailing(_, _) =>
    case CaptureCommit(_, _, _) =>
    case SpawnFailed(_, _) =>
    case _ =>
  }

  /** A slot is given up when an acquisition ends, whoever holds it. */
  lemma StepSlots(s: State, sec: Section, h: Homes, i: nat, c: Choice)
    requires Own(s, sec, h) && i < |s.workers| && s.workers[i].Live()
    ensures Step(s, i, c).capturing ==
              if s.workers[i].CaptureFailing? || s.workers[i].CaptureCommit?
              then s.capturing - {s.workers[i].request.device} else s.capturing
    ensures s.workers[i].CaptureFailing? || s.workers[i].CaptureCommit? ==>
              var id := s.workers[i].id;
              && id in s.tasks && s.tasks[id].device == s.workers[i].request.device
              && Acquiring(s.tasks[id])
  {
    hide Own, PutSummary, SummaryOf, FinalStatus, Succeeds, QueueOf;
    if TaskOf(s.workers[i]).Some? { Held(s, sec, h, i, TaskOf(s.workers[i]).value); }
  }

  /** Two threads never hold the same task. */
  lemma Apart(s: State, sec: Section, h: Homes, i: nat, j: nat)
    requires Own(s, sec, h) && i < |s.workers| && j < |s.workers| && i != j && TaskOf(s.workers[j]).Some?
    ensures TaskOf(s.workers[i]) != TaskOf(s.workers[j])
    ensures Touched(s, i) != TaskOf(s.workers[j])
  {
    hide Own;
    var id := TaskOf(s.workers[j]).value;
    Held(s, sec, h, j, id);
    if TaskOf(s.workers[i]) == Some(id) { Held(s, sec, h, i, id); }
    if s.workers[i].QueueIdle? && Touched(s, i).Some? { QueuedFirst(s, sec, h, s.workers[i].device); }
  }
}
