/** The capture task service as the object it is: fields updated in place, one method per
    region under `mu_`.  Each method is proved to do to the fields exactly what the function of
    `CaptureModel` does to the value of the fields. */
module CaptureTaskService {
  import opened Wrappers
  import opened Sums
  import opened CaptureModel
  import opened CaptureWorld
  import opened CaptureOwnership
  import opened CaptureEffects
  import opened CaptureQuiescence

  datatype DeviceSummary = DeviceSummary(device: DeviceId, counts: Summary)
  datatype SessionSummary = SessionSummary(totals: Summary, devices: seq<DeviceSummary>)

  function Plus(a: Summary, b: Summary): Summary {
    Summary(a.captured + b.captured, a.processed + b.processed, a.failed + b.failed, a.pending + b.pending)
  }

  /** The field-wise sum of a list of device summaries. */
  function SumOf(devices: seq<DeviceSummary>): Summary {
    if devices == [] then NO_SUMMARY else Plus(SumOf(devices[..|devices| - 1]), devices[|devices| - 1].counts)
  }

  /** `devices` lists every entry of `m` once, in key order. */
  ghost predicate Lists(devices: seq<DeviceSummary>, m: map<DeviceId, Summary>) {
    && |devices| == |m|
    && (forall k | 0 <= k < |devices| :: devices[k].device in m && m[devices[k].device] == devices[k].counts)
    && (forall j, k | 0 <= j < k < |devices| :: devices[j].device < devices[k].device)
  }

  predicate IsLeast(s: set<DeviceId>, d: DeviceId) {
    d in s && forall e <- s :: d <= e
  }

  /** The next key of an ordered map; names are numbered in their order. */
  function Least(s: set<DeviceId>): (d: DeviceId)
    requires s != {}
    ensures d in s && forall e <- s :: d <= e
  {
    HasLeast(s);
    var d :| IsLeast(s, d);
    d
  }

  lemma {:induction false} HasLeast(s: set<DeviceId>)
    requires s != {}
    ensures exists d :: IsLeast(s, d)
  {
    var d :| d in s;
    var rest := s - {d};
    assert s == rest + {d};
    if rest == {} {
      assert IsLeast(s, d);
    } else {
      HasLeast(rest);
      var e :| IsLeast(rest, e);
      assert IsLeast(s, if e < d then e else d);
    }
  }

  function ActiveAmong(tasks: map<TaskId, Task>, ids: set<TaskId>): set<TaskId> {
    set id | id in ids && id in tasks && !Terminal(tasks[id])
  }

  class CaptureTaskService {
    var tasks: map<TaskId, Task>
    var requests: map<TaskId, Request>
    var queues: map<DeviceId, seq<TaskId>>
    var capturing: set<DeviceId>
    var processing: set<DeviceId>
    var cooldown: map<DeviceId, int>
    var summaries: map<ConnId, map<DeviceId, Summary>>
    var activeWorkers: set<TaskId>
    var workers: seq<Worker>
    var nextSeq: TaskId

    function View(): State
      reads this
    {
      State(tasks, requests, queues, capturing, processing, cooldown, summaries, activeWorkers, workers, nextSeq)
    }

    constructor ()
      ensures View() == INITIAL
    {
      tasks, requests, queues := map[], map[], map[];
      capturing, processing := {}, {};
      cooldown, summaries := map[], map[];
      activeWorkers, workers, nextSeq := {}, [], 1;
    }

    method ReserveTask(r: Request, now: int) returns (result: StartResult)
      modifies this
      ensures (View(), result) == Reserve(old(View()), r, now)
    {
      if r.device == NO_DEVICE { return StartResult(INVALID_PARAMS, false, 0, None); }
      if !r.profileOk { return StartResult(INVALID_PARAMS, false, 0, None); }
      var id := nextSeq;
      nextSeq := nextSeq + 1;
      if r.device in capturing { return StartResult(DEVICE_BUSY, false, 0, None); }
      if r.device in cooldown && now < cooldown[r.device] {
        return StartResult(RATE_LIMITED, false, RetryAfterMs(cooldown[r.device] - now), None);
      }
      if !r.raw.captured {
        capturing := capturing + {r.device};
      }
      cooldown := cooldown[r.device := now + COOLDOWN];
      tasks := tasks[id := NewTask(r)];
      requests := requests[id := r];
      return StartResult(OK, true, 0, Some(id));
    }

    method StartReservedTask(id: TaskId, spawnOk: bool) returns (result: StartResult)
      modifies this
      ensures (View(), result) == Start(old(View()), id, spawnOk)
    {
      if id !in tasks || id !in requests { return StartResult(INVALID_PARAMS, false, 0, None); }
      if tasks[id].acquisition != AcqQueued { return StartResult(INVALID_PARAMS, false, 0, None); }
      activeWorkers := activeWorkers + {id};
      if spawnOk {
        workers := workers + [CaptureBegin(id)];
        return StartResult(OK, true, 0, Some(id));
      }
      activeWorkers := activeWorkers - {id};
      assert activeWorkers == old(activeWorkers) - {id};
      capturing := capturing - {tasks[id].device};
      cooldown := cooldown - {tasks[id].device};
      requests := requests - {id};
      tasks := tasks - {id};
      return StartResult(INTERNAL_ERROR, false, 0, None);
    }

    method AbortReservedTask(id: TaskId)
      modifies this
      ensures View() == Abort(old(View()), id)
    {
      if id !in tasks || tasks[id].acquisition != AcqQueued { return; }
      capturing := capturing - {tasks[id].device};
      cooldown := cooldown - {tasks[id].device};
      requests := requests - {id};
      tasks := tasks - {id};
    }

    /** Counts the tasks that are neither succeeded nor failed, reserved ones included. */
    method ActiveTaskCount() returns (count: nat)
      ensures count == |ActiveTasks(View())|
    {
      count := 0;
      var rest := tasks.Keys;
      while rest != {}
        invariant rest <= tasks.Keys
        invariant count == |ActiveAmong(tasks, tasks.Keys - rest)|
      {
        var id :| id in rest;
        ghost var seen := tasks.Keys - rest;
        assert tasks.Keys - (rest - {id}) == seen + {id};
        if !Terminal(tasks[id]) {
          assert ActiveAmong(tasks, seen + {id}) == ActiveAmong(tasks, seen) + {id};
          count := count + 1;
        } else {
          assert ActiveAmong(tasks, seen + {id}) == ActiveAmong(tasks, seen);
        }
        rest := rest - {id};
      }
      assert ActiveAmong(tasks, tasks.Keys - rest) == ActiveTasks(View());
    }

    method ClearFinishedTasks() returns (count: nat)
      modifies this
      ensures View() == ClearFinished(old(View()))
      ensures count == |old(tasks).Keys - tasks.Keys|
    {
      hide ClearFinished, Sweeping;
      count := 0;
      var rest := tasks.Keys;
      SweepStarts(View());
      while rest != {}
        invariant View() == old(View()).(tasks := tasks, requests := requests)
        invariant Sweeping(old(View()), View(), rest, count)
      {
        var id :| id in rest;
        SweepStep(old(View()), View(), rest, count, id);
        if id !in activeWorkers {
          requests := requests - {id};
          tasks := tasks - {id};
          count := count + 1;
        }
        rest := rest - {id};
      }
      SweepEnds(old(View()), View(), count);
    }

    /** The totals of a connection are the sums over its devices, each listed once, in key order. */
    method GetSessionSummary(c: ConnId) returns (summary: SessionSummary)
      ensures c !in summaries ==> summary == SessionSummary(NO_SUMMARY, [])
      ensures c in summaries ==> Lists(summary.devices, summaries[c]) && summary.totals == SumOf(summary.devices)
    {
      summary := SessionSummary(NO_SUMMARY, []);
      if c !in summaries { return; }
      var m := summaries[c];
      var rest := m.Keys;
      while rest != {}
        invariant rest <= m.Keys
        invariant |summary.devices| + |rest| == |m|
        invariant forall k | 0 <= k < |summary.devices| ::
                    var e := summary.devices[k]; e.device in m && e.device !in rest && m[e.device] == e.counts
        invariant forall j, k | 0 <= j < k < |summary.devices| :: summary.devices[j].device < summary.devices[k].device
        invariant forall k, d | 0 <= k < |summary.devices| && d in rest :: summary.devices[k].device < d
        invariant summary.totals == SumOf(summary.devices)
      {
        var d := Least(rest);
        var e := DeviceSummary(d, m[d]);
        assert (summary.devices + [e])[..|summary.devices|] == summary.devices;
        summary := SessionSummary(Plus(summary.totals, m[d]), summary.devices + [e]);
        rest := rest - {d};
      }
    }

    method UpdateSummary(c: ConnId, d: DeviceId, x: Summary)
      modifies this`summaries
      ensures summaries == PutSummary(old(summaries), c, d, x)
    {
      var devices: map<DeviceId, Summary> := map[];
      if c in summaries {
        devices := summaries[c];
      }
      devices := devices[d := x];
      summaries := summaries[c := devices];
    }

    // ----- RunCaptureTask

    method BeginCapture(i: nat)
      requires i < |workers| && workers[i].CaptureBegin?
      modifies this
      ensures View() == Begin(old(View()), i)
    {
      var id := workers[i].id;
      if id !in requests || id !in tasks {
        workers := workers[i := CaptureDone];
        return;
      }
      workers := workers[i := CaptureAction(id, requests[id])];
      tasks := tasks[id := tasks[id].(status := Running, acquisition := Capturing)];
    }

    /** The provider call and the staging of its result, outside the lock. */
    method CaptureAndStage(i: nat, c: Choice)
      requires i < |workers| && workers[i].CaptureAction?
      modifies this`workers
      ensures View() == Acquire(old(View()), i, c)
    {
      var CaptureAction(id, r) := workers[i];
      var raw := RawCapture(false, CAPTURE_FAILED);
      if r.raw.captured {
        raw := r.raw;
      } else if c.rawDirReady && c.providerOk {
        raw := RawCapture(true, OK);
      }
      if raw.code != OK || !raw.captured || !c.staged {
        workers := workers[i := CaptureFailing(id, r)];
        return;
      }
      workers := workers[i := CaptureCommit(id, r, raw)];
    }

    method CommitCapture(i: nat, c: Choice)
      requires i < |workers| && workers[i].CaptureCommit?
      modifies this
      ensures View() == Commit(old(View()), i, c)
    {
      hide Commit, PutSummary, SummaryOf, AddCaptured, QueueOf;
      var CaptureCommit(id, r, raw) := workers[i];
      if id !in tasks || id !in requests {
        workers := workers[i := CaptureDone];
        CommitMissing(old(View()), i, c);
        return;
      }
      requests := requests[id := requests[id].(raw := raw)];
      tasks := tasks[id := tasks[id].(acquisition := Captured, processing := ProcQueued)];
      capturing := capturing - {r.device};
      UpdateSummary(r.conn, r.device, AddCaptured(SummaryOf(summaries, r.conn, r.device)));
      Enqueue(i, id, r, c);
      CommitFields(old(View()), i, c);
    }

    /** The rest of the captured commit: queue the task and make sure that a queue thread serves
        its device; if none can be made, take the task off the queue again. */
    method Enqueue(i: nat, id: TaskId, r: Request, c: Choice)
      requires i < |workers|
      modifies this`queues, this`processing, this`workers
      ensures var d, s := r.device, old(View());
              && processing == (if SpawnRefused(s, d, c) then s.processing else s.processing + {d})
              && queues == (if SpawnRefused(s, d, c) then s.queues[d := QueueOf(s.queues, d)]
                   else s.queues[d := QueueOf(s.queues, d) + [id]])
              && workers == (if SpawnRefused(s, d, c) then s.workers[i := SpawnFailed(id, r)]
                             else if d in s.processing then s.workers[i := CaptureDone]
                             else s.workers[i := CaptureDone] + [QueueIdle(d)])
    {
      hide QueueOf;
      var pushed := QueueOf(queues, r.device) + [id];
      queues := queues[r.device := pushed];
      if r.device !in processing {
        processing := processing + {r.device};
        if c.spawnOk {
          workers := workers[i := CaptureDone] + [QueueIdle(r.device)];
        } else {
          processing := processing - {r.device};
          assert processing == old(processing);
          queues := queues[r.device := pushed[..|pushed| - 1]];
          assert pushed[..|pushed| - 1] == QueueOf(old(queues), r.device);
          workers := workers[i := SpawnFailed(id, r)];
        }
      } else {
        workers := workers[i := CaptureDone];
        assert processing == old(processing) + {r.device};
      }
    }

    method CompleteCaptureFailure(i: nat)
      requires i < |workers| && workers[i].CaptureFailing?
      modifies this
      ensures View() == FailCapture(old(View()), i)
    {
      var CaptureFailing(id, r) := workers[i];
      workers := workers[i := CaptureDone];
      if id !in tasks { return; }
      tasks := tasks[id := tasks[id].(status := Failed, acquisition := AcqFailed, processing := Skipped,
          code := CAPTURE_FAILED)];
      capturing := capturing - {r.device};
      activeWorkers := activeWorkers - {id};
      UpdateSummary(r.conn, r.device, AddFailed(SummaryOf(summaries, r.conn, r.device)));
    }

    // ----- RunProcessingQueue

    method PopQueue(i: nat)
      requires i < |workers| && workers[i].QueueIdle?
      modifies this
      ensures View() == Pop(old(View()), i)
    {
      var d := workers[i].device;
      if d !in queues || queues[d] == [] {
        processing := processing - {d};
        queues := queues - {d};
        workers := workers[i := QueueDone];
        return;
      }
      var id := queues[d][0];
      queues := queues[d := queues[d][1..]];
      if id !in requests || id !in tasks { return; }
      workers := workers[i := QueueRunning(d, id, requests[id])];
      tasks := tasks[id := tasks[id].(processing := ProcRunning)];
    }

    method CompleteProcessingTask(id: TaskId, r: Request, result: PipelineResult)
      modifies this
      ensures View() == Complete(old(View()), id, r, result)
    {
      if id !in tasks { return; }
      var ok := Succeeds(result);
      tasks := tasks[id := tasks[id].(status := FinalStatus(result), processing := if ok then ProcSucceeded
          else ProcFailed, code := result.code)];
      activeWorkers := activeWorkers - {id};
      var x := SummaryOf(summaries, r.conn, r.device);
      if x.pending > 0 {
        x := x.(pending := x.pending - 1);
      }
      if ok {
        x := x.(processed := x.processed + 1);
      } else {
        x := x.(failed := x.failed + 1);
      }
      UpdateSummary(r.conn, r.device, x);
    }

    /** Whatever thread `i` does next. */
    method RunThread(i: nat, c: Choice)
      requires i < |workers| && workers[i].Live()
      modifies this
      ensures View() == Step(old(View()), i, c)
    {
      match workers[i] {
        case CaptureBegin(_) => BeginCapture(i);
        case CaptureAction(_, _) => CaptureAndStage(i, c);
        case CaptureFailing(_, _) => CompleteCaptureFailure(i);
        case CaptureCommit(_, _, _) => CommitCapture(i, c);
        case SpawnFailed(id, r) =>
          workers := workers[i := CaptureDone];
          CompleteProcessingTask(id, r, SPAWN_FAILURE);
        case QueueIdle(_) => PopQueue(i);
        case QueueRunning(d, id, r) => workers := workers[i := QueueFinishing(d, id, r, c.result)];
        case QueueFinishing(d, id, r, result) =>
          workers := workers[i := QueueIdle(d)];
          CompleteProcessingTask(id, r, result);
      }
    }

    // ----- the destructor

    /** Any live thread makes a move, with whatever the environment answers. */
    method SomeThreadRuns(ghost sec: Section, ghost h: Homes, ghost bound: nat) returns (ghost h': Homes)
      requires Own(View(), sec, h) && !AllDone(View()) && Bound(workers) <= bound
      modifies this
      ensures Own(View(), sec, h') && Measure(View()) < old(Measure(View())) && Bound(workers) <= bound
      ensures |old(workers)| <= |workers|
                && (forall k | 0 <= k < |old(workers)| :: !old(workers)[k].Live() ==> !workers[k].Live())
    {
      hide Own, Measure, Total, Step;
      var i :| 0 <= i < |workers| && workers[i].Live();
      var c: Choice := *;
      RunThread(i, c);
      h' := StepKeeps(old(View()), sec, h, i, c);
      StepDescends(old(View()), sec, h, i, c);
      ThreadMoves(old(View()), i, c);
      StepBound(old(View()), sec, h, i, c);
    }

    /** Threads are joined by index while the ones still running may push new ones.  The loop
        ends, no thread ever pushed is still live, and there are never more than twice as many
        threads as there were capture threads at the start. */
    method Destroy(ghost sec: Section, ghost h: Homes)
      requires Own(View(), sec, h) && Budgeted(workers)
      modifies this
      ensures AllDone(View())
      ensures |workers| <= old(Bound(workers)) <= 2 * old(Total(workers, IsCapture))
    {
      hide Own, Measure, Total;
      BoundIsTwice(workers);
      var index := 0;
      ghost var home, bound := h, Bound(workers);
      while true
        invariant Own(View(), sec, home)
        invariant Bound(workers) <= bound && index <= |workers|
        invariant forall k | 0 <= k < index :: !workers[k].Live()
        decreases bound - index
      {
        home := Interleave(sec, home, bound, index);
        if index >= |workers| { break; }
        index := index + 1;
        home := Join(index - 1, sec, home, bound, index - 1);
      }
    }

    /** Other threads run for a while. */
    method Interleave(ghost sec: Section, ghost h: Homes, ghost bound: nat, ghost joined: nat) returns (ghost h': Homes)
      requires Own(View(), sec, h) && Bound(workers) <= bound && joined <= |workers|
      requires forall k | 0 <= k < joined :: !workers[k].Live()
      modifies this
      ensures Own(View(), sec, h') && Bound(workers) <= bound && |old(workers)| <= |workers|
      ensures forall k | 0 <= k < joined :: !workers[k].Live()
    {
      hide Own, Measure, Total;
      h' := h;
      while *
        invariant Own(View(), sec, h') && Bound(workers) <= bound && |old(workers)| <= |workers|
        invariant forall k | 0 <= k < joined :: !workers[k].Live()
        decreases Measure(View())
      {
        if AllDone(View()) { break; }
        h' := SomeThreadRuns(sec, h', bound);
      }
    }

    /** Waits for thread `t`; meanwhile any thread may run. */
    method Join(t: nat, ghost sec: Section, ghost h: Homes, ghost bound: nat, ghost joined: nat)
      returns (ghost h': Homes)
      requires Own(View(), sec, h) && Bound(workers) <= bound && joined <= t < |workers|
      requires forall k | 0 <= k < joined :: !workers[k].Live()
      modifies this
      ensures Own(View(), sec, h') && Bound(workers) <= bound && |old(workers)| <= |workers|
      ensures forall k | 0 <= k < joined :: !workers[k].Live()
      ensures !workers[t].Live()
    {
      hide Own, Measure, Total;
      h' := h;
      while workers[t].Live()
        invariant Own(View(), sec, h') && Bound(workers) <= bound && |old(workers)| <= |workers|
        invariant forall k | 0 <= k < joined :: !workers[k].Live()
        decreases Measure(View())
      {
        h' := SomeThreadRuns(sec, h', bound);
      }
    }
  }

  /** A cleanup that still has the rows `rest` to look at and has erased `count`. */
  ghost predicate Sweeping(s0: State, s: State, rest: set<TaskId>, count: nat) {
    var gone := s0.tasks.Keys - rest - s0.activeWorkers;
    && rest <= s0.tasks.Keys
    && s == s0.(tasks := s0.tasks - gone, requests := s0.requests - gone)
    && count == |gone|
  }

  lemma SweepStarts(s: State)
    ensures Sweeping(s, s, s.tasks.Keys, 0)
  {
    assert s.tasks.Keys - s.tasks.Keys - s.activeWorkers == {};
  }

  lemma SweepStep(s0: State, s: State, rest: set<TaskId>, count: nat, id: TaskId)
    requires Sweeping(s0, s, rest, count) && id in rest
    ensures s.activeWorkers == s0.activeWorkers
    ensures id in s0.activeWorkers ==> Sweeping(s0, s, rest - {id}, count)
    ensures id !in s0.activeWorkers ==>
              Sweeping(s0, s.(tasks := s.tasks - {id}, requests := s.requests - {id}), rest - {id}, count + 1)
  {
    var gone, more := s0.tasks.Keys - rest - s0.activeWorkers, s0.tasks.Keys - (rest - {id}) - s0.activeWorkers;
    if id in s0.activeWorkers {
      assert more == gone;
    } else {
      assert more == gone + {id};
      assert s0.tasks - gone - {id} == s0.tasks - more;
      assert s0.requests - gone - {id} == s0.requests - more;
    }
  }

  lemma SweepEnds(s0: State, s: State, count: nat)
    requires Sweeping(s0, s, {}, count)
    ensures s == ClearFinished(s0) && count == |s0.tasks.Keys - s.tasks.Keys|
  {
    hide ClearFinished;
    var gone := s0.tasks.Keys - s0.activeWorkers;
    assert s0.tasks.Keys - {} - s0.activeWorkers == gone;
    assert s0.tasks.Keys - s.tasks.Keys == gone;
    ClearedAre(s0, gone);
  }

  lemma ClearedAre(s: State, gone: set<TaskId>)
    requires gone == s.tasks.Keys - s.activeWorkers
    ensures ClearFinished(s) == s.(tasks := s.tasks - gone, requests := s.requests - gone)
  {
    assert ClearFinished(s).tasks == s.tasks - gone;
    assert ClearFinished(s).requests == s.requests - gone;
  }

  /** The most threads there can ever be without another Start. */
  function Bound(ws: seq<Worker>): nat {
    |ws| + Total(ws, MaySpawn)
  }

  /** The bound in terms of the capture threads alone. */
  lemma BoundIsTwice(ws: seq<Worker>)
    requires Budgeted(ws)
    ensures Bound(ws) <= 2 * Total(ws, IsCapture)
  {
    TotalIsLength(ws);
  }

  lemma StepBound(s: State, sec: Section, h: Homes, i: nat, c: Choice)
    requires Own(s, sec, h) && i < |s.workers| && s.workers[i].Live()
    ensures Bound(Step(s, i, c).workers) <= Bound(s.workers)
  {
    hide Own, Step, Total;
    ThreadMoves(s, i, c);
    NextEffort(s, sec, h, i, c);
    TotalMove(s.workers, Step(s, i, c).workers, i, MaySpawn);
  }
}
