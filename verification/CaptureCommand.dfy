/** The two commands that reserve: capture.take and a hard-grab event.  Both reserve, consume
    quota, and start or abort, holding the storage lifecycle lock all along while the threads of
    the scheduler go on. */
module CaptureCommand {
  import opened Wrappers
  import opened CaptureModel
  import opened CaptureWorld
  import opened CaptureOwnership
  import opened CaptureEffects
  import opened CaptureRollback
  import opened CaptureAccounting
  import CT = CaptureTaskService
  import R = CaptureRuns

  class CommandDesk {
    const capture: CT.CaptureTaskService

    constructor (capture: CT.CaptureTaskService)
      ensures this.capture == capture
    {
      this.capture := capture;
    }

    /** The threads make some moves. */
    method ThreadsRun(ghost sec: Section, ghost h: Homes) returns (ghost ticks: seq<Tick>, ghost h': Homes)
      requires Own(capture.View(), sec, h)
      modifies capture
      ensures Own(capture.View(), sec, h')
      ensures CanTick(old(capture.View()), ticks) && capture.View() == Ticked(old(capture.View()), ticks)
    {
      hide Own, Step;
      ticks, h' := [], h;
      var n: nat :| true;
      for k := 0 to n
        invariant Own(capture.View(), sec, h')
        invariant CanTick(old(capture.View()), ticks) && capture.View() == Ticked(old(capture.View()), ticks)
      {
        var i: nat :| true;
        var c: Choice := *;
        if i < |capture.workers| && capture.workers[i].Live() {
          OneMoreTick(old(capture.View()), ticks, Tick(i, c));
          h' := StepKeeps(capture.View(), sec, h', i, c);
          capture.RunThread(i, c);
          ticks := ticks + [Tick(i, c)];
        }
      }
    }

    /** Either a task is registered and its thread started, or nothing is left of the command:
        the service is where its threads alone would have brought it, but for one used-up number
        and a cooldown entry that had expired. */
    method Take(r: Request, now: int, quotaCode: int, spawnOk: bool, ghost h: Homes)
      returns (result: StartResult, ghost ticks: seq<Tick>, ghost h': Homes)
      requires Own(capture.View(), Free, h)
      modifies capture
      ensures Own(capture.View(), Free, h')
      ensures CanTick(old(capture.View()), ticks)
      ensures var s, reserved := old(capture.View()), Reserve(old(capture.View()), r, now).1;
              && (!reserved.accepted ==>
                   result == reserved && capture.View() == s.(nextSeq := capture.nextSeq)
                       && capture.nextSeq <= s.nextSeq + 1)
              && (reserved.accepted && quotaCode != OK ==> !result.accepted && result.code == quotaCode)
              && (reserved.accepted && quotaCode == OK && !spawnOk ==>
                   !result.accepted && result.code == INTERNAL_ERROR)
              && (reserved.accepted && !(quotaCode == OK && spawnOk) ==>
                   capture.View() == Remains(Ticked(s, ticks), r.device))
              && (reserved.accepted && quotaCode == OK && spawnOk ==>
                    && result == StartResult(OK, true, 0, Some(s.nextSeq))
                    && s.nextSeq !in s.tasks && capture.tasks.Keys == s.tasks.Keys + {s.nextSeq}
                    && s.nextSeq in capture.activeWorkers && capture.tasks[s.nextSeq] == NewTask(r))
    {
      hide Own, CanTick, Ticked, Shadows, Step, Start, Abort, Reserve;
      h', ticks := h, [];
      ReserveKeeps(capture.View(), r, now, h);
      NoTicks(capture.View());
      Refused(capture.View(), r, now);
      result := capture.ReserveTask(r, now);
      if !result.accepted { return; }
      var id := result.task.value;
      ghost var s, reserved := old(capture.View()), capture.View();
      ReserveShadows(s, r, now, h);
      ticks, h' := ThreadsRun(Reserved(id), h);
      ghost var h1 := TicksShadow(reserved, s, id, NewTask(r), r, h, ticks);
      RefusalLeavesNoTrace(s, r, now, h, ticks);
      TicksKeepKeys(reserved, Reserved(id), h, ticks);
      ReservedRow(capture.View(), Ticked(s, ticks), id, NewTask(r), r);
      NotYetKnown(s, h, id);
      ghost var started := StartKeeps(capture.View(), id, spawnOk, h');
      AbortKeeps(capture.View(), id, h');
      ReservedRows(s, r, now);
      StartedFields(capture.View(), id, spawnOk);
      if quotaCode != OK {
        capture.AbortReservedTask(id);
        return StartResult(quotaCode, false, 0, None), ticks, h';
      }
      result := capture.StartReservedTask(id, spawnOk);
      h' := started;
    }
  }

  lemma NoTicks(s: State)
    ensures CanTick(s, []) && Ticked(s, []) == s
  {
  }

  lemma Refused(s: State, r: Request, now: int)
    ensures var (s', result) := Reserve(s, r, now);
            && (!result.accepted ==> s' == s.(nextSeq := s'.nextSeq) && s'.nextSeq <= s.nextSeq + 1)
            && (result.accepted ==> result.task == Some(s.nextSeq))
  {
  }

  lemma ReservedRows(s: State, r: Request, now: int)
    requires Reserve(s, r, now).1.accepted
    ensures Reserve(s, r, now).0.tasks.Keys == s.tasks.Keys + {s.nextSeq}
  {
  }

  lemma ReservedRow(r: State, s: State, id: TaskId, t: Task, q: Request)
    requires Shadows(r, s, id, t, q)
    ensures id in r.tasks && r.tasks[id] == t && id in r.requests
  {
  }

  lemma StartedFields(s: State, id: TaskId, spawnOk: bool)
    requires id in s.tasks && id in s.requests && Waiting(s.tasks[id])
    ensures spawnOk ==> Start(s, id, true).0.tasks == s.tasks && id in Start(s, id, true).0.activeWorkers
    ensures Start(s, id, spawnOk).1 == if spawnOk then StartResult(OK, true, 0, Some(id))
              else StartResult(INTERNAL_ERROR, false, 0, None)
  {
  }

  lemma {:induction false} OneMoreTick(s: State, ticks: seq<Tick>, t: Tick)
    requires CanTick(s, ticks) && t.thread < |Ticked(s, ticks).workers| && Ticked(s, ticks).workers[t.thread].Live()
    ensures CanTick(s, ticks + [t]) && Ticked(s, ticks + [t]) == Step(Ticked(s, ticks), t.thread, t.choice)
    decreases |ticks|
  {
    hide Step;
    if ticks == [] {
      assert [t][1..] == [];
    } else {
      assert (ticks + [t])[1..] == ticks[1..] + [t];
      OneMoreTick(Step(s, ticks[0].thread, ticks[0].choice), ticks[1..], t);
    }
  }

  /** Threads neither add nor remove rows. */
  lemma {:induction false} TicksKeepKeys(s: State, sec: Section, h: Homes, ticks: seq<Tick>)
    requires Own(s, sec, h) && CanTick(s, ticks)
    ensures Ticked(s, ticks).tasks.Keys == s.tasks.Keys && Ticked(s, ticks).nextSeq == s.nextSeq
    decreases |ticks|
  {
    hide Own, Step, Observed, RowMove;
    if ticks != [] {
      var i, c := ticks[0].thread, ticks[0].choice;
      RowMoves(s, sec, h, i, c);
      var h' := StepKeeps(s, sec, h, i, c);
      TicksKeepKeys(Step(s, i, c), sec, h', ticks[1..]);
    }
  }

  // ----- the counters of a whole connection

  function TotalOf(log: seq<Event>, k: Kind, c: ConnId, devices: seq<CT.DeviceSummary>): nat {
    if devices == [] then 0
    else TotalOf(log, k, c, devices[..|devices| - 1]) + Tally(log, k, c, devices[|devices| - 1].device)
  }

  /** The totals that GetSessionSummary shows are balanced against the history: every captured
      image of the connection is processed, pending or failed in processing, and the failures are
      those of capture and of processing. */
  lemma {:induction false} SessionBalances(moves: seq<Move>, c: ConnId, summary: CT.SessionSummary)
    requires Run(GENESIS, moves) && c in After(GENESIS, moves).svc.summaries
    requires CT.Lists(summary.devices, After(GENESIS, moves).svc.summaries[c])
               && summary.totals == CT.SumOf(summary.devices)
    ensures var log, x, devices := After(GENESIS, moves).log, summary.totals, summary.devices;
            && x.captured == TotalOf(log, Caught, c, devices)
            && x.processed == TotalOf(log, Good, c, devices)
            && x.failed == TotalOf(log, Lost, c, devices) + TotalOf(log, Bad, c, devices)
            && x.captured == x.processed + x.pending + TotalOf(log, Bad, c, devices)
  {
    hide Run, After, Balanced;
    var w := After(GENESIS, moves);
    forall k | 0 <= k < |summary.devices|
      ensures var e := summary.devices[k]; DeviceBalances(w.log, c, e)
    {
      var e := summary.devices[k];
      R.CountersConserved(moves, c, e.device);
      OneDevice(w.svc.summaries, w.svc.tasks, w.log, c, e);
    }
    SumBalances(w.log, c, summary.devices);
  }

  predicate DeviceBalances(log: seq<Event>, c: ConnId, e: CT.DeviceSummary) {
    && e.counts.captured == Tally(log, Caught, c, e.device)
    && e.counts.processed == Tally(log, Good, c, e.device)
    && e.counts.failed == Tally(log, Lost, c, e.device) + Tally(log, Bad, c, e.device)
    && e.counts.captured == e.counts.processed + e.counts.pending + Tally(log, Bad, c, e.device)
  }

  lemma OneDevice(m: map<ConnId, map<DeviceId, Summary>>, tasks: map<TaskId, Task>, log: seq<Event>, c: ConnId,
                  e: CT.DeviceSummary)
    requires Balanced(m, tasks, log, c, e.device) && c in m && e.device in m[c] && m[c][e.device] == e.counts
    ensures DeviceBalances(log, c, e)
  {
  }

  lemma {:induction false} SumBalances(log: seq<Event>, c: ConnId, devices: seq<CT.DeviceSummary>)
    requires forall k | 0 <= k < |devices| :: DeviceBalances(log, c, devices[k])
    ensures var x := CT.SumOf(devices);
            && x.captured == TotalOf(log, Caught, c, devices)
            && x.processed == TotalOf(log, Good, c, devices)
            && x.failed == TotalOf(log, Lost, c, devices) + TotalOf(log, Bad, c, devices)
            && x.captured == x.processed + x.pending + TotalOf(log, Bad, c, devices)
  {
    hide Tally;
    if devices != [] { SumBalances(log, c, devices[..|devices| - 1]); }
  }
}
