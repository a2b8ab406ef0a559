/** The image enhancement service as the object it is.  Each method is one region under `mu_`
    (or one stretch of a worker between two regions), and is proved to do to the fields what
    `EnhanceService` and `EnhanceModel` say. */
module EnhanceTaskService {
  import opened Sums
  import opened EnhanceModel
  import opened EnhanceService
  import R = EnhanceRuns

  class ImageEnhanceTaskService {
    var tasks: map<TaskId, Row>
    var cancelRequested: set<TaskId>
    var activeWorkers: set<TaskId>
    var workers: seq<Thread>
    var nextSeq: TaskId

    ghost function View(): Service
      reads this
    {
      Service(tasks, cancelRequested, activeWorkers, workers, nextSeq)
    }

    constructor ()
      ensures View() == EMPTY && Valid(View())
    {
      tasks, cancelRequested, activeWorkers, workers, nextSeq := map[], {}, {}, [], 1;
    }

    method StartTask(r: Request, e: Setup) returns (result: StartOutcome)
      requires Valid(View())
      modifies this
      ensures (View(), result) == Start(old(View()), r, e)
      ensures Valid(View())
    {
      hide Valid, JobOf, NewRow;
      StartKeepsValid(View(), r, e);
      UnusedId(View());
      if r.pages == 0 { return Refused(INVALID_PARAMS); }
      if !e.inputsExist { return Refused(INVALID_PARAMS); }
      if !e.providerReady { return Refused(PROVIDER_NOT_READY); }
      var id := nextSeq;
      nextSeq := nextSeq + 1;
      if !e.dirReady { return Refused(INTERNAL_ERROR); }
      var task := NewRow(r);
      tasks := tasks[id := task];
      activeWorkers := activeWorkers + {id};
      if !e.spawnOk {
        activeWorkers := activeWorkers - {id};
        tasks := tasks - {id};
        UnusedIsInactive(old(View()), id);
        assert activeWorkers == old(activeWorkers) && tasks == old(tasks);
        return SpawnThrew;
      }
      workers := workers + [Thread(id, r, Begin)];
      return Started(id, task);
    }

    method Cancel(conn: ConnId, id: TaskId) returns (result: CancelOutcome)
      requires Valid(View())
      modifies this`tasks, this`cancelRequested
      ensures (View(), result) == CancelTask(old(View()), conn, id)
      ensures Valid(View())
    {
      hide Valid, JobOf;
      CancelKeepsValid(View(), conn, id);
      if id !in tasks { return NotCancelled(INVALID_PARAMS); }
      if tasks[id].conn != conn { return NotCancelled(CAPABILITY_NOT_ALLOWED); }
      cancelRequested := cancelRequested + {id};
      var task := tasks[id].(cancelRequested := true);
      if task.status == Queued {
        task := task.(status := Cancelled, phase := PhaseCancelled, progress := 100);
      }
      tasks := tasks[id := task];
      return Cancelling(task);
    }

    /** The number of live threads. */
    method ActiveTaskCount() returns (count: nat)
      requires Valid(View())
      ensures count == |activeWorkers|
      ensures count == 0 <==> forall i | 0 <= i < |workers| :: workers[i].pc.Gone?
    {
      count := |activeWorkers|;
      if count == 0 {
        assert activeWorkers == {};
      } else {
        var id :| id in activeWorkers;
        assert HasThread(View(), id);
      }
    }

    method ClearFinishedTasks() returns (count: nat)
      requires Valid(View())
      modifies this`tasks, this`cancelRequested
      ensures View() == ClearFinished(old(View())) && Valid(View())
      ensures count == |old(tasks).Keys - tasks.Keys|
    {
      hide Valid, JobOf, Sweeping, ClearFinished;
      ClearKeepsValid(View());
      count := 0;
      var rest := tasks.Keys;
      SweepStarts(View());
      while rest != {}
        invariant View() == old(View()).(tasks := tasks, cancelRequested := cancelRequested)
        invariant Sweeping(old(View()), View(), rest, count)
      {
        var id :| id in rest;
        SweepStep(old(View()), View(), rest, count, id);
        if id !in activeWorkers {
          cancelRequested := cancelRequested - {id};
          tasks := tasks - {id};
          count := count + 1;
        }
        rest := rest - {id};
      }
      SweepEnds(old(View()), View(), count);
    }

    // ----- RunTaskImpl, region by region

    method BeginTask(i: nat)
      requires Valid(View()) && Live(View(), i) && workers[i].pc.Begin?
      modifies this
      ensures View() == PutJob(old(View()), i, DoBegin(old(JobOf(View(), i))))
    {
      hide Valid;
      var Thread(id, r, _) := workers[i];
      MineIsThere(View(), i);
      var task := tasks[id];
      if id in cancelRequested {
        tasks := tasks[id := task.(status := Cancelled, phase := PhaseCancelled, progress := 100,
            cancelRequested := true)];
        workers := workers[i := Thread(id, r, Leaving)];
        return;
      }
      tasks := tasks[id := task.(status := Running, phase := Enhancing, progress := 5)];
      workers := workers[i := Thread(id, r, Loop(0, task.pages, map[]))];
    }

    /** The head of the step loop: skip, stop on a cancel, start a step, or go on to the outputs. */
    method NextStep(i: nat)
      requires Valid(View()) && Live(View(), i) && workers[i].pc.Loop?
      modifies this
      ensures View() == PutJob(old(View()), i, DoLoop(old(JobOf(View(), i))))
    {
      hide Valid;
      var Thread(id, r, Loop(k, pages, usage)) := workers[i];
      MineIsThere(View(), i);
      var task := tasks[id];
      if k >= |r.steps| {
        tasks := tasks[id := task.(phase := Converts, progress := 90, pages := pages, outputPages := pages)];
        workers := workers[i := Thread(id, r, Converting(pages, usage))];
      } else if !r.steps[k].enabled {
        workers := workers[i := Thread(id, r, Loop(k + 1, pages, usage))];
        assert tasks == old(tasks)[id := task];
      } else if id in cancelRequested {
        tasks := tasks[id := task.(status := Cancelled, phase := PhaseCancelled, progress := 100,
            cancelRequested := true)];
        workers := workers[i := Thread(id, r, Leaving)];
      } else {
        tasks := tasks[id := task.(progress := Progress(k, |r.steps|))];
        workers := workers[i := Thread(id, r, Ready(k, pages, usage))];
      }
    }

    /** The region after RunStep. */
    method FinishStep(i: nat)
      requires Valid(View()) && Live(View(), i) && workers[i].pc.StepDone?
      modifies this
      ensures WellFormed(old(JobOf(View(), i))) && View() == PutJob(old(View()), i, DoStepDone(old(JobOf(View(), i))))
    {
      hide Valid, Progress, Charged;
      var Thread(id, r, StepDone(k, pages, usage, result)) := workers[i];
      MineIsThere(View(), i);
      var task := tasks[id];
      var shouldFail := result.code != OK;
      if shouldFail && r.steps[k].skipOnError { shouldFail := false; }
      if shouldFail {
        tasks := tasks[id := task.(status := Failed, phase := PhaseFailed, progress := 100)];
        workers := workers[i := Thread(id, r, Leaving)];
        return;
      }
      var charged := Charged(r.steps[k].stepType);
      var amount := if result.pages == 0 then pages else result.pages;
      if result.code == OK {
        pages := result.pages;
        task := task.(pages := pages, outputPages := pages);
        if charged.Some? {
          var before := if charged.value in usage then usage[charged.value] else 0;
          usage := usage[charged.value := before + (if amount > 0 then amount else 1)];
        }
      }
      tasks := tasks[id := task.(progress := Progress(k + 1, |r.steps|))];
      workers := workers[i := Thread(id, r, Loop(k + 1, pages, usage))];
    }

    method FinishOutputs(i: nat)
      requires Valid(View()) && Live(View(), i) && workers[i].pc.Produced?
      modifies this
      ensures View() == PutJob(old(View()), i, DoProduced(old(JobOf(View(), i))))
    {
      hide Valid;
      var Thread(id, r, Produced(pages, usage, output)) := workers[i];
      MineIsThere(View(), i);
      var task := tasks[id];
      var written := if pages == 0 then false else if r.document then output.code == OK else output.count > 0;
      if !written {
        tasks := tasks[id := task.(status := Failed, phase := PhaseFailed, progress := 100)];
        workers := workers[i := Thread(id, r, Leaving)];
        return;
      }
      task := task.(status := Completed, phase := PhaseCompleted, progress := 100, outputs := output.count);
      tasks := tasks[id := task];
      workers := workers[i := Thread(id, r, Settling(task.(assets := output.count), KeysInOrder(usage), usage))];
    }

    /** Asks for the capabilities one after the other and stops at the first refusal: the same
        as the settling moves of a task taken one by one. */
    method ConfirmOnlineEnhanceQuota(usage: Usage, authReady: bool, answers: seq<int>, ghost j: Job)
      returns (code: int, asked: seq<(Capability, int)>)
      requires |answers| >= |KeysInOrder(usage)|
      requires j.pc.Settling? && j.pc.rest == KeysInOrder(usage) && j.pc.usage == usage
                 && j.request.authReady == authReady
      ensures SettleAll(j, answers).pc == Settled(if code == OK then j.pc.final else Refuse(j.pc.final, code))
      ensures |asked| <= |KeysInOrder(usage)|
      ensures forall k | 0 <= k < |asked| :: asked[k] == (KeysInOrder(usage)[k], Units(usage, KeysInOrder(usage)[k]))
      ensures code == OK ==> |asked| == |KeysInOrder(usage)|
    {
      hide KeysAmong;
      code, asked := OK, [];
      var keys := KeysInOrder(usage);
      if keys == [] { return; }
      if !authReady { return PROVIDER_NOT_READY, []; }
      var k := 0;
      while k < |keys|
        invariant 0 <= k <= |keys| && |asked| == k && code == OK
        invariant forall n | 0 <= n < k :: asked[n] == (keys[n], Units(usage, keys[n])) && answers[n] == OK
      {
        var units := if keys[k] in usage && usage[keys[k]] > 0 then usage[keys[k]] else 1;
        asked := asked + [(keys[k], units)];
        if answers[k] != OK {
          SettlesAt(j, answers, k);
          return answers[k], asked;
        }
        k := k + 1;
      }
      SettlesAt(j, answers, k);
    }

    method Advance(i: nat, pc: Pc)
      requires Valid(View()) && Live(View(), i)
      modifies this`workers
      ensures View() == old(View()).(threads := old(workers)[i := old(workers)[i].(pc := pc)])
    {
      workers := workers[i := workers[i].(pc := pc)];
    }

    /** One turn of ConfirmOnlineEnhanceQuota, or its end. */
    method Settle(i: nat, c: Choice)
      requires Valid(View()) && Live(View(), i) && workers[i].pc.Settling?
      modifies this`workers
      ensures View() == PutJob(old(View()), i, DoSettling(old(JobOf(View(), i)), c))
    {
      hide Valid;
      MineIsThere(View(), i);
      LocalMove(View(), i, c);
      var Settling(final, rest, usage) := workers[i].pc;
      if rest == [] {
        Advance(i, Settled(final));
      } else if !workers[i].request.authReady {
        Advance(i, Settled(Refuse(final, PROVIDER_NOT_READY)));
      } else if c.throws {
        Advance(i, Threw);
      } else if c.quotaCode != OK {
        Advance(i, Settled(Refuse(final, c.quotaCode)));
      } else {
        Advance(i, Settling(final, rest[1..], usage));
      }
    }

    /** The provider calls, outside the lock. */
    method CallProvider(i: nat, c: Choice)
      requires Valid(View()) && Live(View(), i)
      requires var pc := workers[i].pc; pc.Ready? || pc.InFlight? || pc.Converting?
      modifies this`workers
      ensures WellFormed(old(JobOf(View(), i))) && View() == PutJob(old(View()), i, Work(old(JobOf(View(), i)), c))
    {
      hide Valid;
      MineIsThere(View(), i);
      LocalMove(View(), i, c);
      match workers[i].pc {
        case Ready(k, pages, usage) => Advance(i, InFlight(k, pages, usage));
        case InFlight(k, pages, usage) =>
          if c.throws { Advance(i, Threw); } else { Advance(i, StepDone(k, pages, usage, c.result)); }
        case Converting(pages, usage) =>
          if c.throws && pages > 0 { Advance(i, Threw); } else { Advance(i, Produced(pages, usage, c.output)); }
      }
    }

    /** Stores the final snapshot, or the failure after an exception, or takes the task out of
        the active set. */
    method LastRegions(i: nat)
      requires Valid(View()) && Live(View(), i)
      requires workers[i].pc.Settled? || workers[i].pc.Threw? || workers[i].pc.Leaving?
      modifies this
      ensures View() == PutJob(old(View()), i,
                Work(old(JobOf(View(), i)), Choice(false, StepResult(OK, 0), Output(OK, 0), OK)))
    {
      hide Valid;
      var Thread(id, r, pc) := workers[i];
      MineIsThere(View(), i);
      if pc.Settled? {
        tasks := tasks[id := pc.final];
        workers := workers[i := Thread(id, r, Leaving)];
      } else if pc.Threw? {
        tasks := tasks[id := tasks[id].(status := Failed, phase := PhaseFailed, progress := 100)];
        workers := workers[i := Thread(id, r, Leaving)];
      } else {
        activeWorkers := activeWorkers - {id};
        workers := workers[i := Thread(id, r, Gone)];
        assert tasks == old(tasks)[id := tasks[id]];
      }
    }

    /** Whatever thread `i` does next. */
    method RunWorker(i: nat, c: Choice)
      requires Valid(View()) && Live(View(), i)
      modifies this
      ensures View() == RunThread(old(View()), i, c) && Valid(View())
    {
      hide Valid, DoBegin, DoLoop, DoStepDone, DoProduced, DoSettling, KeysInOrder, JobOf;
      ThreadKeepsValid(View(), i, c);
      MineIsThere(View(), i);
      PcOf(View(), i);
      match workers[i].pc {
        case Begin => BeginTask(i);
        case Loop(_, _, _) => NextStep(i);
        case Ready(_, _, _) => CallProvider(i, c);
        case InFlight(_, _, _) => CallProvider(i, c);
        case StepDone(_, _, _, _) => FinishStep(i);
        case Converting(_, _) => CallProvider(i, c);
        case Produced(_, _, _) => FinishOutputs(i);
        case Settling(_, _, _) => Settle(i, c);
        case Settled(_) => LastRegions(i);
        case Threw => LastRegions(i);
        case Leaving => LastRegions(i);
      }
    }

    // ----- the destructor

    /** Flags every task and joins the threads in order, while the others go on.  It returns, and
        then no thread is live and no task is active. */
    method Destroy()
      requires Valid(View())
      modifies this
      ensures Valid(View())
      ensures forall k | 0 <= k < |workers| :: workers[k].pc.Gone?
      ensures activeWorkers == {} && |workers| == old(|workers|) && tasks.Keys == old(tasks).Keys
    {
      hide Valid, RunThread;
      ShutdownKeepsValid(View());
      cancelRequested := cancelRequested + tasks.Keys;
      for k := 0 to |workers|
        invariant Valid(View()) && |workers| == old(|workers|) && tasks.Keys == old(tasks).Keys
        invariant forall j | 0 <= j < k :: workers[j].pc.Gone?
      {
        while !workers[k].pc.Gone?
          invariant Valid(View()) && |workers| == old(|workers|) && tasks.Keys == old(tasks).Keys
          invariant forall j | 0 <= j < k :: workers[j].pc.Gone?
          decreases Total(workers, Left)
        {
          var i :| 0 <= i < |workers| && !workers[i].pc.Gone?;
          var c: Choice := *;
          ThreadKeepsValid(View(), i, c);
          RunLeavesOthers(View(), i, c);
          RunWorker(i, c);
        }
      }
      AllGone(View());
    }
  }

  lemma PcOf(s: Service, i: nat)
    requires i < |s.threads| && s.threads[i].id in s.tasks
    ensures JobOf(s, i).pc == s.threads[i].pc
  {
  }

  /** A cleanup that still has the rows `rest` to look at and has erased `count`. */
  ghost predicate Sweeping(s0: Service, s: Service, rest: set<TaskId>, count: nat) {
    var gone := s0.tasks.Keys - rest - s0.activeWorkers;
    && rest <= s0.tasks.Keys
    && s == s0.(tasks := s0.tasks - gone, cancelRequested := s0.cancelRequested - gone)
    && count == |gone|
  }

  lemma SweepStarts(s: Service)
    ensures Sweeping(s, s, s.tasks.Keys, 0)
  {
    assert s.tasks.Keys - s.tasks.Keys - s.activeWorkers == {};
  }

  lemma SweepStep(s0: Service, s: Service, rest: set<TaskId>, count: nat, id: TaskId)
    requires Sweeping(s0, s, rest, count) && id in rest
    ensures s.activeWorkers == s0.activeWorkers
    ensures id in s0.activeWorkers ==> Sweeping(s0, s, rest - {id}, count)
    ensures id !in s0.activeWorkers ==>
              Sweeping(s0, s.(tasks := s.tasks - {id}, cancelRequested := s.cancelRequested - {id}), rest - {id},
                  count + 1)
  {
    var gone, more := s0.tasks.Keys - rest - s0.activeWorkers, s0.tasks.Keys - (rest - {id}) - s0.activeWorkers;
    if id in s0.activeWorkers {
      assert more == gone;
    } else {
      assert more == gone + {id};
      assert s0.tasks - gone - {id} == s0.tasks - more;
      assert s0.cancelRequested - gone - {id} == s0.cancelRequested - more;
    }
  }

  lemma SweepEnds(s0: Service, s: Service, count: nat)
    requires Sweeping(s0, s, {}, count)
    ensures s == ClearFinished(s0) && count == |s0.tasks.Keys - s.tasks.Keys|
  {
    var gone := s0.tasks.Keys - s0.activeWorkers;
    assert s0.tasks.Keys - {} - s0.activeWorkers == gone;
    assert s0.tasks.Keys - s.tasks.Keys == gone;
  }

  /** The settling moves of a task with the given answers. */
  ghost function SettleAll(j: Job, answers: seq<int>): Job
    requires j.pc.Settling? && |answers| >= |j.pc.rest|
    decreases |j.pc.rest|
  {
    var k := DoSettling(j, Choice(false, StepResult(OK, 0), Output(OK, 0), if answers == [] then OK else answers[0]));
    if k.pc.Settling? then SettleAll(k, answers[1..]) else k
  }

  lemma {:induction false} SettlesAt(j: Job, answers: seq<int>, n: nat)
    requires j.pc.Settling? && j.request.authReady && n <= |j.pc.rest| <= |answers|
    requires (forall k | 0 <= k < n :: answers[k] == OK) && (n == |j.pc.rest| || answers[n] != OK)
    ensures SettleAll(j, answers).pc == Settled(if n == |j.pc.rest| then j.pc.final else Refuse(j.pc.final, answers[n]))
    decreases |j.pc.rest|
  {
    if n > 0 {
      SettlesAt(DoSettling(j, Choice(false, StepResult(OK, 0), Output(OK, 0), OK)), answers[1..], n - 1);
    }
  }

  lemma UnusedIsInactive(s: Service, id: TaskId)
    requires Valid(s) && id !in s.tasks
    ensures id !in s.activeWorkers
  {
  }

  lemma MineIsThere(s: Service, i: nat)
    requires Valid(s) && Live(s, i)
    ensures s.threads[i].id in s.tasks && WellFormed(JobOf(s, i))
  {
  }

  lemma AllGone(s: Service)
    requires Valid(s) && forall k | 0 <= k < |s.threads| :: s.threads[k].pc.Gone?
    ensures s.activeWorkers == {}
  {
    forall id | id in s.tasks ensures id !in s.activeWorkers {
      assert HasThread(s, id);
    }
  }

  lemma LocalMove(s: Service, i: nat, c: Choice)
    requires i < |s.threads| && s.threads[i].id in s.tasks && WellFormed(JobOf(s, i))
    requires var pc := s.threads[i].pc; pc.Ready? || pc.InFlight? || pc.Converting? || pc.Settling?
    ensures var j := Work(JobOf(s, i), c);
            PutJob(s, i, j) == s.(threads := s.threads[i := s.threads[i].(pc := j.pc)])
  {
    hide KeysInOrder;
    var j := Work(JobOf(s, i), c);
    assert j.row == JobOf(s, i).row && !j.pc.Gone?;
    assert s.tasks[s.threads[i].id := j.row] == s.tasks;
  }

  /** How many moves a thread still has. */
  function Left(t: Thread): nat {
    var j := Job(NewRow(t.request), t.request, t.pc, false);
    if WellFormed(j) then R.Rank(j) else 0
  }

  lemma RunLeavesOthers(s: Service, i: nat, c: Choice)
    requires Valid(s) && Live(s, i)
    ensures var s' := RunThread(s, i, c);
            && (forall k | 0 <= k < |s.threads| && k != i :: s'.threads[k] == s.threads[k])
            && Total(s'.threads, Left) < Total(s.threads, Left)
  {
    hide Valid, Work;
    MineIsThere(s, i);
    var t := s.threads[i];
    var t' := t.(pc := Work(JobOf(s, i), c).pc);
    R.WorkDescends(JobOf(s, i), c);
    SameRank(JobOf(s, i), Job(NewRow(t.request), t.request, t.pc, false));
    SameRank(Work(JobOf(s, i), c), Job(NewRow(t.request), t.request, t'.pc, false));
    TotalUpdate(s.threads, i, t', Left);
  }

  lemma SameRank(a: Job, b: Job)
    requires WellFormed(a) && a.request == b.request && a.pc == b.pc
    ensures WellFormed(b) && R.Rank(a) == R.Rank(b)
  {
  }
}
