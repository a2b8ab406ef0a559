/** How a task ends: its row and the counters follow the answer of its one pipeline run. */
module CaptureOutcome {
  import opened Wrappers
  import opened CaptureModel
  import opened CaptureWorld
  import opened CaptureOwnership
  import opened CaptureEffects
  import opened CaptureAccounting
  import H = CaptureHistory
  import R = CaptureRuns
  import P = CapturePipeline
  import G = CaptureGraph

  // ----- one pipeline run per task

  ghost predicate RanOnce(w: World, id: TaskId) {
    var runs := H.Times(w.log, H.RanOf, id);
    && runs <= 1
    && (id >= w.svc.nextSeq ==> runs == 0)
    && (id in w.svc.tasks && BeforeRun(w.svc.tasks[id]) ==> runs == 0)
    && (forall i | 0 <= i < |w.svc.workers| :: w.svc.workers[i].QueueRunning? && w.svc.workers[i].id == id ==>
         runs == 0)
  }

  predicate BeforeRun(t: Task) {
    Waiting(t) || Acquiring(t) || InPhase(t, ProcQueued)
  }

  /** What a thread can become in one move, and what is then in the history. */
  lemma Becomes(s: State, i: nat, c: Choice)
    requires i < |s.workers| && s.workers[i].Live()
    ensures i < |Step(s, i, c).workers|
    ensures var k, k' := s.workers[i], Step(s, i, c).workers[i];
            && (k'.QueueRunning? ==> k.QueueIdle? && Touched(s, i) == Some(k'.id))
            && (k'.QueueFinishing? ==>
                  && k.QueueRunning? && k'.id == k.id
                  && Observed(s, i, c) == [Ran(k.id, !k.request.raw.captured, k'.result)])
            && (k'.SpawnFailed? ==>
                  && k.CaptureCommit? && k'.id == k.id && k'.request == k.request
                  && Observed(s, i, c) == [CapturedRaw(k.id, k.request.conn, k.request.device, false)])
  {
    hide Begin, Acquire, FailCapture, Commit, Complete, Pop;
    match s.workers[i]
    case CaptureBegin(_) => CaptureBecomes(s, i, c);
    case CaptureAction(_, _) => CaptureBecomes(s, i, c);
    case CaptureFailing(_, _) => CaptureBecomes(s, i, c);
    case CaptureCommit(_, _, _) => CommitBecomes(s, i, c);
    case QueueIdle(_) => PopBecomes(s, i);
    case SpawnFailed(id, r) => CompleteBecomes(SetWorker(s, i, CaptureDone), i, id, r, SPAWN_FAILURE);
    case QueueRunning(_, _, _) =>
    case QueueFinishing(d, id, r, result) => CompleteBecomes(SetWorker(s, i, QueueIdle(d)), i, id, r, result);
  }

  lemma CaptureBecomes(s: State, i: nat, c: Choice)
    requires i < |s.workers|
    requires s.workers[i].CaptureBegin? || s.workers[i].CaptureAction? || s.workers[i].CaptureFailing?
    ensures i < |Step(s, i, c).workers|
    ensures var k' := Step(s, i, c).workers[i]; !k'.QueueRunning? && !k'.QueueFinishing? && !k'.SpawnFailed?
  {
    hide PutSummary, SummaryOf, Commit, Complete, Pop;
  }

  lemma PopBecomes(s: State, i: nat)
    requires i < |s.workers| && s.workers[i].QueueIdle?
    ensures i < |Pop(s, i).workers|
    ensures var k' := Pop(s, i).workers[i];
            && (k'.QueueRunning? ==> Touched(s, i) == Some(k'.id))
            && !k'.QueueFinishing? && !k'.SpawnFailed?
  {
  }

  lemma CompleteBecomes(s: State, i: nat, id: TaskId, r: Request, result: PipelineResult)
    requires i < |s.workers|
    ensures Complete(s, id, r, result).workers == s.workers
  {
    hide PutSummary, SummaryOf, FinalStatus, Succeeds;
  }

  lemma CommitBecomes(s: State, i: nat, c: Choice)
    requires i < |s.workers| && s.workers[i].CaptureCommit?
    ensures i < |Commit(s, i, c).workers|
    ensures var k, k' := s.workers[i], Commit(s, i, c).workers[i];
            && (k'.CaptureDone? || k'.SpawnFailed?)
            && (k'.SpawnFailed? ==>
                  && k'.id == k.id && k'.request == k.request
                  && Observed(s, i, c) == [CapturedRaw(k.id, k.request.conn, k.request.device, false)])
  {
    hide PutSummary, SummaryOf;
  }

  lemma StepRuns(w: World, i: nat, c: Choice, h: Homes, id: TaskId)
    requires Own(w.svc, w.section, h) && Enabled(w, DoWork(i, c)) && RanOnce(w, id)
    ensures RanOnce(Next(w, DoWork(i, c)), id)
  {
    hide Own, Next, Step, Observed, Reflects, H.Times;
    var s, e, s' := w.svc, Observed(w.svc, i, c), Step(w.svc, i, c);
    WorkMove(w, i, c);
    ThreadMoves(s, i, c);
    Becomes(s, i, c);
    RowMoves(s, w.section, h, i, c);
    H.TimesMore(w.log, e, H.RanOf, id);
    forall j | 0 <= j < |s'.workers| && s'.workers[j].QueueRunning? && s'.workers[j].id == id
      ensures H.Times(w.log + e, H.RanOf, id) == 0
    {
      if j != i {
        assert s'.workers[j] == s.workers[j];
        Apart(s, w.section, h, i, j);
      }
    }
  }

  lemma MoveRuns(w: World, m: Move, h: Homes, id: TaskId)
    requires Own(w.svc, w.section, h) && Enabled(w, m) && RanOnce(w, id)
    ensures RanOnce(Next(w, m), id)
  {
    hide Own, Next, H.Times;
    if m.DoWork? {
      StepRuns(w, m.thread, m.choice, h, id);
    } else {
      DeskRows(w, m, h);
      DeskRest(w, m);
      var e := H.OneEvent(w, m);
      assert e != [] ==> e[0] == Next(w, m).log[|w.log|];
      H.TimesMore(w.log, e, H.RanOf, id);
    }
  }

  lemma {:induction false} NoneIn(log: seq<Event>, id: TaskId, e: Event)
    requires H.Times(log, H.RanOf, id) == 0 && e in log
    ensures !H.Is(e, H.RanOf, id)
  {
    var n := |log| - 1;
    if log[n] != e {
      assert e in log[..n];
      NoneIn(log[..n], id, e);
    }
  }

  lemma NoRuns(log: seq<Event>, id: TaskId)
    requires H.Times(log, H.RanOf, id) == 0
    ensures forall shot, result :: Ran(id, shot, result) !in log
  {
    forall e | e in log ensures !H.Is(e, H.RanOf, id) { NoneIn(log, id, e); }
    assert forall shot, result :: H.Is(Ran(id, shot, result), H.RanOf, id);
  }

  /** With one run there is one answer. */
  lemma {:induction false} OneIn(log: seq<Event>, id: TaskId, a: Event, b: Event)
    requires H.Times(log, H.RanOf, id) <= 1 && a in log && b in log
    requires H.Is(a, H.RanOf, id) && H.Is(b, H.RanOf, id)
    ensures a == b
  {
    var n := |log| - 1;
    if log[n] == a && log[n] == b {
    } else if log[n] == a {
      assert b in log[..n];
      NoneIn(log[..n], id, b);
    } else if log[n] == b {
      assert a in log[..n];
      NoneIn(log[..n], id, a);
    } else {
      assert a in log[..n] && b in log[..n];
      OneIn(log[..n], id, a, b);
    }
  }

  // ----- rows and answers

  /** Threads remember answers and refusals that are in the history. */
  ghost predicate ThreadsTold(w: World) {
    forall i | 0 <= i < |w.svc.workers| ::
      var k := w.svc.workers[i];
      && (k.QueueFinishing? ==> Ran(k.id, false, k.result) in w.log)
      && (k.SpawnFailed? ==> CapturedRaw(k.id, k.request.conn, k.request.device, false) in w.log)
  }

  /** The row of a captured task that is over reflects every answer there is for it, and there is
      one, or no queue thread could be made for it. */
  ghost predicate EndsAs(log: seq<Event>, id: TaskId, t: Task) {
    && (forall shot, result | Ran(id, shot, result) in log :: !shot && Reflects(t, result))
    && ((exists result :: Ran(id, false, result) in log)
        || (CapturedRaw(id, t.conn, t.device, false) in log && Reflects(t, NO_THREAD)))
  }

  ghost predicate LostAs(log: seq<Event>, id: TaskId, t: Task) {
    && t.status == Failed && t.processing == Skipped && t.code == 1301
    && CaptureLost(id, t.conn, t.device) in log
  }

  ghost predicate RowTold(w: World, id: TaskId) {
    id in w.svc.tasks && Over(w.svc.tasks[id]) ==>
      if w.svc.tasks[id].acquisition == Captured then EndsAs(w.log, id, w.svc.tasks[id])
      else LostAs(w.log, id, w.svc.tasks[id])
  }

  lemma StepTellsThreads(w: World, i: nat, c: Choice, h: Homes)
    requires Own(w.svc, w.section, h) && Enabled(w, DoWork(i, c)) && ThreadsTold(w)
    ensures ThreadsTold(Next(w, DoWork(i, c)))
  {
    hide Own, Next, Step, Observed;
    var s, s' := w.svc, Step(w.svc, i, c);
    WorkMove(w, i, c);
    ThreadMoves(s, i, c);
    Becomes(s, i, c);
    if s.workers[i].QueueRunning? { Held(s, w.section, h, i, s.workers[i].id); }
    forall j | 0 <= j < |s'.workers|
      ensures var k := s'.workers[j];
              && (k.QueueFinishing? ==> Ran(k.id, false, k.result) in w.log + Observed(s, i, c))
              && (k.SpawnFailed? ==>
                    CapturedRaw(k.id, k.request.conn, k.request.device, false) in w.log + Observed(s, i, c))
    {
      if j < |s.workers| && j != i { assert s'.workers[j] == s.workers[j]; }
    }
  }

  lemma StepTellsRow(w: World, i: nat, c: Choice, h: Homes, id: TaskId)
    requires Own(w.svc, w.section, h) && Enabled(w, DoWork(i, c)) && ThreadsTold(w)
    requires RanOnce(w, id) && RowTold(w, id)
    ensures RowTold(Next(w, DoWork(i, c)), id)
  {
    hide Own, Next, Step, Observed, Reflects, H.Times;
    var s, e, s', log := w.svc, Observed(w.svc, i, c), Step(w.svc, i, c), w.log;
    WorkMove(w, i, c);
    RowMoves(s, w.section, h, i, c);
    if Touched(s, i) == Some(id) && Over(s'.tasks[id]) {
      Held(s, w.section, h, i, id);
      TouchedRow(w, i, c, h, id);
    } else if id in s'.tasks && Over(s'.tasks[id]) {
      assert s'.tasks[id] == s.tasks[id];
      assert forall x | x in e && x.Ran? :: Touched(s, i) == Some(x.id);
      OtherRow(log, e, id, s.tasks[id]);
    }
  }

  lemma OtherRow(log: seq<Event>, e: seq<Event>, id: TaskId, t: Task)
    requires forall x | x in e && x.Ran? :: x.id != id
    ensures EndsAs(log, id, t) ==> EndsAs(log + e, id, t)
    ensures LostAs(log, id, t) ==> LostAs(log + e, id, t)
  {
    hide Reflects;
    if EndsAs(log, id, t) {
      forall shot, result | Ran(id, shot, result) in log + e ensures !shot && Reflects(t, result) {
        assert Ran(id, shot, result) in log;
      }
      if result :| Ran(id, false, result) in log {
        assert Ran(id, false, result) in log + e;
      }
    }
  }

  /** The row that the move ends. */
  lemma TouchedRow(w: World, i: nat, c: Choice, h: Homes, id: TaskId)
    requires Own(w.svc, w.section, h) && Enabled(w, DoWork(i, c)) && ThreadsTold(w) && RanOnce(w, id)
    requires Touched(w.svc, i) == Some(id) && TaskOf(w.svc.workers[i]) == Some(id)
    requires id in Step(w.svc, i, c).tasks && Over(Step(w.svc, i, c).tasks[id])
    ensures var t, log := Step(w.svc, i, c).tasks[id], w.log + Observed(w.svc, i, c);
            if t.acquisition == Captured then EndsAs(log, id, t) else LostAs(log, id, t)
  {
    hide Own, Next, Step, Observed, Reflects, H.Times;
    var s, e, log := w.svc, Observed(w.svc, i, c), w.log;
    var t := Step(s, i, c).tasks[id];
    RowMoves(s, w.section, h, i, c);
    match s.workers[i]
    case CaptureFailing(_, _) => assert CaptureLost(id, t.conn, t.device) in log + e;
    case SpawnFailed(_, rq) =>
      Held(s, w.section, h, i, id);
      assert CapturedRaw(id, t.conn, t.device, false) in log + e;
      NoRuns(log, id);
    case QueueFinishing(_, _, _, answer) =>
      assert Ran(id, false, answer) in log && Ran(id, false, answer) in log + e;
      forall shot, result | Ran(id, shot, result) in log + e ensures !shot && Reflects(t, result) {
        assert Ran(id, shot, result) in log;
        OneIn(log, id, Ran(id, false, answer), Ran(id, shot, result));
      }
    case _ =>
  }

  ghost predicate Outcomes(w: World) {
    ThreadsTold(w) && forall id :: RanOnce(w, id) && RowTold(w, id)
  }

  lemma DeskTells(w: World, m: Move, h: Homes, id: TaskId)
    requires Own(w.svc, w.section, h) && Enabled(w, m) && !m.DoWork? && ThreadsTold(w) && RowTold(w, id)
    ensures ThreadsTold(Next(w, m)) && RowTold(Next(w, m), id)
  {
    hide Own, Next, Reflects;
    DeskRows(w, m, h);
    DeskRest(w, m);
    var e := H.OneEvent(w, m);
    assert e != [] ==> e[0] == Next(w, m).log[|w.log|];
    if id in w.svc.tasks { OtherRow(w.log, e, id, w.svc.tasks[id]); }
  }

  lemma MoveTells(w: World, m: Move, h: Homes)
    requires Own(w.svc, w.section, h) && Enabled(w, m) && Outcomes(w)
    ensures Outcomes(Next(w, m))
  {
    hide Own, Next, RanOnce, RowTold, ThreadsTold;
    forall id ensures RanOnce(Next(w, m), id) && RowTold(Next(w, m), id) {
      MoveRuns(w, m, h, id);
      if m.DoWork? { StepTellsRow(w, m.thread, m.choice, h, id); } else { DeskTells(w, m, h, id); }
    }
    if m.DoWork? { StepTellsThreads(w, m.thread, m.choice, h); } else { DeskTells(w, m, h, 0); }
  }

  lemma {:induction false} RunTells(w: World, moves: seq<Move>, h: Homes)
    requires Own(w.svc, w.section, h) && Run(w, moves) && Outcomes(w)
    ensures Outcomes(After(w, moves))
    decreases |moves|
  {
    hide Own, Next, Outcomes, Enabled;
    if moves != [] {
      MoveTells(w, moves[0], h);
      var h' := MoveKeeps(w, moves[0], h);
      RunTells(Next(w, moves[0]), moves[1..], h');
    }
  }

  // ----- the results

  /** In every reachable state: a captured task that is over succeeded iff the answer of its one
      pipeline run has a good status, or an empty one with code 0, and counts as processed iff
      moreover the code is 0; with no run, because no queue thread could be made, it failed with
      code 1900.  A task that was not captured failed with code 1301 and skipped processing. */
  lemma {:induction false} OutcomeFollowsAnswer(moves: seq<Move>, id: TaskId)
    requires Run(GENESIS, moves)
    requires id in After(GENESIS, moves).svc.tasks && Terminal(After(GENESIS, moves).svc.tasks[id])
    ensures var t, log := After(GENESIS, moves).svc.tasks[id], After(GENESIS, moves).log;
            && (t.acquisition != Captured ==>
                  && t.status == Failed && t.processing == Skipped && t.code == 1301
                  && CaptureLost(id, t.conn, t.device) in log)
            && (t.acquisition == Captured ==>
                  && (forall code, shot | Ran(id, shot, PipelineResult(code, Some(GoodOutcome))) in log ::
                        t.status == Succeeded && t.code == code
                        && t.processing == (if code == 0 then ProcSucceeded else ProcFailed))
                  && (forall code, shot | Ran(id, shot, PipelineResult(code, Some(BadOutcome))) in log ::
                        t.status == Failed && t.code == code && t.processing == ProcFailed)
                  && (forall code, shot | Ran(id, shot, PipelineResult(code, None)) in log ::
                        && t.code == code && t.status == (if code == 0 then Succeeded else Failed)
                        && t.processing == (if code == 0 then ProcSucceeded else ProcFailed))
                  && ((exists result :: Ran(id, false, result) in log)
                      || (CapturedRaw(id, t.conn, t.device, false) in log
                          && t.status == Failed && t.processing == ProcFailed && t.code == 1900)))
  {
    hide Run, After, Own, H.Times;
    var h := R.Reached(moves);
    OwnGenesis();
    RunTells(GENESIS, moves, Homes(map[], map[]));
    var w := After(GENESIS, moves);
    Known(w.svc, w.section, h, id);
    assert RowTold(w, id);
  }

  lemma OwnGenesis()
    ensures Own(GENESIS.svc, GENESIS.section, Homes(map[], map[])) && Outcomes(GENESIS)
  {
  }

  /** The counters move with the answer: processed rises iff the code is 0 and the status good or
      empty, failed rises otherwise, and pending falls. */
  lemma FinishCounts(moves: seq<Move>, i: nat, c: Choice)
    requires Run(GENESIS, moves) && i < |After(GENESIS, moves).svc.workers|
    requires After(GENESIS, moves).svc.workers[i].QueueFinishing?
    ensures var s, k := After(GENESIS, moves).svc, After(GENESIS, moves).svc.workers[i];
            var x := SummaryOf(s.summaries, k.request.conn, k.request.device);
            var y := SummaryOf(Step(s, i, c).summaries, k.request.conn, k.request.device);
            var good := k.result.code == 0 && (k.result.status == Some(GoodOutcome) || k.result.status == None);
            && y.captured == x.captured && y.pending == x.pending - 1
            && y.processed == x.processed + (if good then 1 else 0)
            && y.failed == x.failed + (if good then 0 else 1)
  {
    hide Run, After, Own;
    var h := R.Reached(moves);
    var w := After(GENESIS, moves);
    R.PendingNeverUnderflows(moves, i);
    Held(w.svc, w.section, h, i, w.svc.workers[i].id);
  }

  // ----- the pipeline itself

  /** What the capture scheduler reads from a pipeline result. */
  function Answer(result: P.Result): PipelineResult {
    PipelineResult(result.code, match result.status
                                case Open => None
                                case Succeeded => Some(GoodOutcome)
                                case Failed => Some(BadOutcome))
  }

  /** A task whose row reflects a pipeline run succeeds and counts as processed iff that run
      succeeded; a run that failed makes it fail even with the code for success. */
  lemma PipelineDecides(t: Task, result: P.Result)
    requires Reflects(t, Answer(result))
    requires result.status == G.Succeeded || result.status == G.Failed
    requires result.status == G.Succeeded ==> result.code == 0
    ensures t.status == (if result.status == G.Succeeded then Status.Succeeded else Status.Failed)
    ensures t.processing == (if result.status == G.Succeeded then ProcSucceeded else ProcFailed)
  {
  }

  /** And so it is for every run of the pipeline. */
  method RunAndReport(request: P.Request, w: P.World) returns (result: P.Result)
    ensures GoodStatus(Answer(result)) <==> result.status == G.Succeeded
    ensures IsGood(Answer(result)) <==> result.status == G.Succeeded
    ensures result.status != G.Succeeded ==> result.status == G.Failed
  {
    var context := new P.CapturePipelineContext(request);
    result := context.Run(w);
  }
}
