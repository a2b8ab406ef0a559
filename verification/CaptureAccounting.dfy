/** The per-device counters against the history and against the task table. */
module CaptureAccounting {
  import opened Wrappers
  import opened CaptureModel
  import opened CaptureWorld
  import opened CaptureOwnership

  datatype Kind = Caught | Lost | Good | Bad

  /** An answer that counts as processed: code 0, and the status is good or empty. */
  predicate IsGood(result: PipelineResult) {
    result.code == 0 && result.status != Some(BadOutcome)
  }

  predicate Counts(e: Event, k: Kind, c: ConnId, d: DeviceId) {
    match e
    case CapturedRaw(_, conn, device, _) => k == Caught && conn == c && device == d
    case CaptureLost(_, conn, device) => k == Lost && conn == c && device == d
    case Finished(_, conn, device, result) => k == (if IsGood(result) then Good else Bad) && conn == c && device == d
    case _ => false
  }

  /** How often an event of kind `k` happened for connection `c` on device `d`. */
  function Tally(log: seq<Event>, k: Kind, c: ConnId, d: DeviceId): nat {
    if log == [] then 0
    else Tally(log[..|log| - 1], k, c, d) + (if Counts(log[|log| - 1], k, c, d) then 1 else 0)
  }

  lemma TallyMore(log: seq<Event>, e: Event, k: Kind, c: ConnId, d: DeviceId)
    ensures Tally(log + [e], k, c, d) == Tally(log, k, c, d) + (if Counts(e, k, c, d) then 1 else 0)
  {
    assert (log + [e])[..|log|] == log;
  }

  /** Captured and not yet succeeded or failed. */
  predicate Unfinished(t: Task, c: ConnId, d: DeviceId) {
    t.acquisition == Captured && !Terminal(t) && t.conn == c && t.device == d
  }

  function Pending(tasks: map<TaskId, Task>, c: ConnId, d: DeviceId): set<TaskId> {
    set id | id in tasks && Unfinished(tasks[id], c, d)
  }

  /** Each counter of one device is what the history says it should be, and `pending` is the
      number of rows that are captured and unfinished. */
  ghost predicate Balanced(summaries: map<ConnId, map<DeviceId, Summary>>, tasks: map<TaskId, Task>, log: seq<Event>,
                           c: ConnId, d: DeviceId) {
    var x := SummaryOf(summaries, c, d);
    && x.captured == Tally(log, Caught, c, d)
    && x.processed == Tally(log, Good, c, d)
    && x.failed == Tally(log, Lost, c, d) + Tally(log, Bad, c, d)
    && x.pending == |Pending(tasks, c, d)|
    && x.captured == x.processed + x.pending + Tally(log, Bad, c, d)
  }

  ghost predicate Accounted(w: World) {
    forall c, d :: Balanced(w.svc.summaries, w.svc.tasks, w.log, c, d)
  }

  /** Nothing that the counters look at has moved. */
  lemma Unmoved(w: World, w': World, e: seq<Event>, c: ConnId, d: DeviceId)
    requires Balanced(w.svc.summaries, w.svc.tasks, w.log, c, d)
    requires w'.svc.summaries == w.svc.summaries && w'.log == w.log + e && |e| <= 1
    requires forall k, x | x in e :: !Counts(x, k, c, d)
    requires Pending(w'.svc.tasks, c, d) == Pending(w.svc.tasks, c, d)
    ensures Balanced(w'.svc.summaries, w'.svc.tasks, w'.log, c, d)
  {
    if e == [] {
      assert w'.log == w.log;
    } else {
      assert e == [e[0]];
      TallyMore(w.log, e[0], Caught, c, d);
      TallyMore(w.log, e[0], Lost, c, d);
      TallyMore(w.log, e[0], Good, c, d);
      TallyMore(w.log, e[0], Bad, c, d);
    }
  }

  /** One event is counted for (c1, d1) and the task's pendingness moves with it. */
  lemma Moved(w: World, w': World, e: Event, c1: ConnId, d1: DeviceId, x1: Summary, c: ConnId, d: DeviceId)
    requires Balanced(w.svc.summaries, w.svc.tasks, w.log, c, d)
    requires w'.svc.summaries == PutSummary(w.svc.summaries, c1, d1, x1) && w'.log == w.log + [e]
    requires forall k :: Counts(e, k, c, d) ==> c == c1 && d == d1
    requires (c != c1 || d != d1) ==> Pending(w'.svc.tasks, c, d) == Pending(w.svc.tasks, c, d)
    requires c == c1 && d == d1 ==>
               var x := SummaryOf(w.svc.summaries, c, d);
               && x1.captured == x.captured + (if Counts(e, Caught, c, d) then 1 else 0)
               && x1.processed == x.processed + (if Counts(e, Good, c, d) then 1 else 0)
               && x1.failed == x.failed + (if Counts(e, Lost, c, d) || Counts(e, Bad, c, d) then 1 else 0)
               && x1.pending == |Pending(w'.svc.tasks, c, d)|
               && x1.captured == x1.processed + x1.pending + x.captured - x.processed - x.pending
                    + (if Counts(e, Bad, c, d) then 1 else 0)
    ensures Balanced(w'.svc.summaries, w'.svc.tasks, w'.log, c, d)
  {
    TallyMore(w.log, e, Caught, c, d);
    TallyMore(w.log, e, Lost, c, d);
    TallyMore(w.log, e, Good, c, d);
    TallyMore(w.log, e, Bad, c, d);
  }

  lemma PendingKept(tasks: map<TaskId, Task>, id: TaskId, t: Task, c: ConnId, d: DeviceId)
    requires id in tasks ==> (Unfinished(t, c, d) <==> Unfinished(tasks[id], c, d))
    requires id !in tasks ==> !Unfinished(t, c, d)
    ensures Pending(tasks[id := t], c, d) == Pending(tasks, c, d)
  {
  }

  lemma PendingAdded(tasks: map<TaskId, Task>, id: TaskId, t: Task, c: ConnId, d: DeviceId)
    requires id in tasks && Unfinished(t, c, d) && !Unfinished(tasks[id], c, d)
    ensures |Pending(tasks[id := t], c, d)| == |Pending(tasks, c, d)| + 1
  {
    assert Pending(tasks[id := t], c, d) == Pending(tasks, c, d) + {id};
  }

  lemma PendingRemoved(tasks: map<TaskId, Task>, id: TaskId, t: Task, c: ConnId, d: DeviceId)
    requires id in tasks && !Unfinished(t, c, d) && Unfinished(tasks[id], c, d)
    ensures |Pending(tasks[id := t], c, d)| == |Pending(tasks, c, d)| - 1
  {
    assert Pending(tasks[id := t], c, d) == Pending(tasks, c, d) - {id};
  }

  lemma CompletionBalances(w: World, w': World, i: nat, wk: Worker, id: TaskId, r: Request, result: PipelineResult,
                           h: Homes, c: ConnId, d: DeviceId)
    requires Own(w.svc, w.section, h) && i < |w.svc.workers| && TaskOf(w.svc.workers[i]) == Some(id)
    requires w.svc.workers[i].SpawnFailed? || w.svc.workers[i].QueueFinishing?
    requires r == w.svc.workers[i].request
    requires w'.svc == Complete(SetWorker(w.svc, i, wk), id, r, result)
    requires w'.log == w.log + [Finished(id, r.conn, r.device, result)]
    requires Balanced(w.svc.summaries, w.svc.tasks, w.log, c, d)
    ensures Balanced(w'.svc.summaries, w'.svc.tasks, w'.log, c, d)
    // the guard on the decrement never fires
    ensures SummaryOf(w.svc.summaries, r.conn, r.device).pending > 0 || c != r.conn || d != r.device
  {
    hide Own;
    Held(w.svc, w.section, h, i, id);
    var t, t' := w.svc.tasks[id], w'.svc.tasks[id];
    var x1 := AddCompleted(SummaryOf(w.svc.summaries, r.conn, r.device), Succeeds(result));
    if c == r.conn && d == r.device {
      PendingRemoved(w.svc.tasks, id, t', c, d);
    } else {
      PendingKept(w.svc.tasks, id, t', c, d);
    }
    Moved(w, w', Finished(id, r.conn, r.device, result), r.conn, r.device, x1, c, d);
  }

  lemma FailureBalances(w: World, i: nat, ch: Choice, h: Homes, c: ConnId, d: DeviceId)
    requires Own(w.svc, w.section, h) && Enabled(w, DoWork(i, ch)) && w.svc.workers[i].CaptureFailing?
    requires Balanced(w.svc.summaries, w.svc.tasks, w.log, c, d)
    ensures var w' := Next(w, DoWork(i, ch)); Balanced(w'.svc.summaries, w'.svc.tasks, w'.log, c, d)
  {
    hide Own;
    var s, w' := w.svc, Next(w, DoWork(i, ch));
    var CaptureFailing(id, r) := s.workers[i];
    Held(s, w.section, h, i, id);
    PendingKept(s.tasks, id, w'.svc.tasks[id], c, d);
    Moved(w, w', CaptureLost(id, r.conn, r.device), r.conn, r.device,
        AddFailed(SummaryOf(s.summaries, r.conn, r.device)), c, d);
  }

  lemma CommitBalances(w: World, i: nat, ch: Choice, h: Homes, c: ConnId, d: DeviceId)
    requires Own(w.svc, w.section, h) && Enabled(w, DoWork(i, ch)) && w.svc.workers[i].CaptureCommit?
    requires Balanced(w.svc.summaries, w.svc.tasks, w.log, c, d)
    ensures var w' := Next(w, DoWork(i, ch)); Balanced(w'.svc.summaries, w'.svc.tasks, w'.log, c, d)
  {
    hide Own, Tally, Commit, FailCapture, Complete, Pop, Begin, Acquire;
    var s, w' := w.svc, Next(w, DoWork(i, ch));
    var CaptureCommit(id, r, _) := s.workers[i];
    Held(s, w.section, h, i, id);
    CommitFields(s, i, ch);
    var t := CapturedTask(s.tasks[id]);
    assert w'.svc.tasks == s.tasks[id := t];
    if c == r.conn && d == r.device {
      PendingAdded(s.tasks, id, t, c, d);
    } else {
      PendingKept(s.tasks, id, t, c, d);
    }
    Moved(w, w', CapturedRaw(id, r.conn, r.device, !SpawnRefused(s, r.device, ch)), r.conn, r.device,
          AddCaptured(SummaryOf(s.summaries, r.conn, r.device)), c, d);
  }

  /** Moves that touch neither a counter nor what the counters count. */
  lemma QuietBalances(w: World, i: nat, ch: Choice, h: Homes, c: ConnId, d: DeviceId)
    requires Own(w.svc, w.section, h) && Enabled(w, DoWork(i, ch))
    requires var k := w.svc.workers[i]; k.CaptureBegin? || k.CaptureAction? || k.QueueIdle? || k.QueueRunning?
    requires Balanced(w.svc.summaries, w.svc.tasks, w.log, c, d)
    ensures var w' := Next(w, DoWork(i, ch)); Balanced(w'.svc.summaries, w'.svc.tasks, w'.log, c, d)
  {
    hide Own, Balanced, SpawnRefused, Commit, FailCapture, Complete;
    var s, w' := w.svc, Next(w, DoWork(i, ch));
    assert Pending(w'.svc.tasks, c, d) == Pending(s.tasks, c, d) by {
      match s.workers[i]
      case CaptureBegin(id) =>
        Held(s, w.section, h, i, id);
        PendingKept(s.tasks, id, w'.svc.tasks[id], c, d);
      case QueueIdle(q) =>
        if QueueOf(s.queues, q) != [] {
          QueuedFirst(s, w.section, h, q);
          PendingKept(s.tasks, s.queues[q][0], w'.svc.tasks[s.queues[q][0]], c, d);
        }
      case _ =>
    }
    Unmoved(w, w', Observed(s, i, ch), c, d);
  }

  lemma StepBalances(w: World, i: nat, ch: Choice, h: Homes, c: ConnId, d: DeviceId)
    requires Own(w.svc, w.section, h) && Enabled(w, DoWork(i, ch))
    requires Balanced(w.svc.summaries, w.svc.tasks, w.log, c, d)
    ensures var w' := Next(w, DoWork(i, ch)); Balanced(w'.svc.summaries, w'.svc.tasks, w'.log, c, d)
  {
    hide Own, Balanced;
    var w' := Next(w, DoWork(i, ch));
    match w.svc.workers[i]
    case CaptureFailing(_, _) => FailureBalances(w, i, ch, h, c, d);
    case CaptureCommit(_, _, _) => CommitBalances(w, i, ch, h, c, d);
    case SpawnFailed(id, r) =>
      Held(w.svc, w.section, h, i, id);
      CompletionBalances(w, w', i, CaptureDone, id, r, SPAWN_FAILURE, h, c, d);
    case QueueFinishing(q, id, r, result) =>
      Held(w.svc, w.section, h, i, id);
      CompletionBalances(w, w', i, QueueIdle(q), id, r, result, h, c, d);
    case _ => QuietBalances(w, i, ch, h, c, d);
  }

  lemma MoveBalances(w: World, m: Move, h: Homes, c: ConnId, d: DeviceId)
    requires Own(w.svc, w.section, h) && Enabled(w, m)
    requires Balanced(w.svc.summaries, w.svc.tasks, w.log, c, d)
    ensures Balanced(Next(w, m).svc.summaries, Next(w, m).svc.tasks, Next(w, m).log, c, d)
  {
    hide Own, Balanced, Step, Observed;
    var w' := Next(w, m);
    match m
    case DoReserve(r, now) =>
      if Reserve(w.svc, r, now).1.accepted {
        NotYetKnown(w.svc, h, w.svc.nextSeq);
        Unmoved(w, w', [Accepted(w.svc.nextSeq, r.device, NewTask(r).source, now)], c, d);
      }
    case DoStart(ok) =>
      ReservedTask(w.svc, h, w.section.id);
      Unmoved(w, w', if ok then [] else [RolledBack(w.section.id)], c, d);
    case DoAbort =>
      ReservedTask(w.svc, h, w.section.id);
      Unmoved(w, w', [RolledBack(w.section.id)], c, d);
    case DoWork(i, ch) => StepBalances(w, i, ch, h, c, d);
    case DoCleanupCheck =>
    case DoCleanupClear =>
      ClearedRows(w.svc, Cleaning, h);
      Unmoved(w, w', [], c, d);
    case DoCleanupGiveUp =>
  }

  lemma MoveAccounts(w: World, m: Move, h: Homes)
    requires Own(w.svc, w.section, h) && Enabled(w, m) && Accounted(w)
    ensures Accounted(Next(w, m))
  {
    forall c, d
      ensures Balanced(Next(w, m).svc.summaries, Next(w, m).svc.tasks, Next(w, m).log, c, d)
    {
      MoveBalances(w, m, h, c, d);
    }
  }
}
