/** What holds in every interleaving of one task's worker with cancels: progress and status,
    the effect of a cancel, and the accounting of online usage. */
module EnhanceRuns {
  import opened Wrappers
  import opened EnhanceModel

  // ----- progress and status

  lemma ProgressRises(i: nat, k: nat, n: nat)
    requires i <= k <= n && n > 0
    ensures 10 <= Progress(i, n) <= Progress(k, n) <= 80
    // 10 and then 70 in proportion to the steps, rounded down
    ensures n * (Progress(i, n) - 10) <= 70 * i < n * (Progress(i, n) - 10) + n
  {
    DivRises(70 * i, 70 * k, n);
    DivRises(70 * k, 70 * n, n);
    assert 70 * n / n == 70;
  }

  lemma DivRises(a: nat, b: nat, n: nat)
    requires a <= b && n > 0
    ensures 0 <= a / n <= b / n
  {
    var x, y := a / n, b / n;
    assert n * x <= a && b < n * y + n;
    assert n * (x - y) == n * x - n * y;
    Small(n, x - y);
  }

  lemma Small(n: nat, x: int)
    requires n > 0 && n * x < n
    ensures x < 1
  {
    assert x >= 1 ==> n * x >= n;
  }

  /** The phase that belongs to a status. */
  predicate InPhase(row: Row, converts: bool) {
    match row.status
    case Queued => row.phase == PhaseQueued
    case Running => row.phase == if converts then Converts else Enhancing
    case Cancelled => row.phase == PhaseCancelled
    case Failed => row.phase == PhaseFailed
    case Completed => row.phase == PhaseCompleted
  }

  predicate Phased(j: Job) {
    match j.pc
    case Converting(_, _) => InPhase(j.row, true)
    case Produced(_, _, _) => InPhase(j.row, true)
    case Threw => InPhase(j.row, true) || InPhase(j.row, false)
    case Settling(final, _, _) => InPhase(j.row, false) && InPhase(final, false)
    case Settled(final) => InPhase(j.row, false) && InPhase(final, false)
    case _ => InPhase(j.row, false)
  }

  /** The row that belongs to each program counter. */
  ghost predicate Shape(j: Job) {
    var p, n := j.row.progress, |j.request.steps|;
    Phased(j) &&
    match j.pc
    case Begin => (j.row.status == Queued && p == 0) || (j.row.status == Cancelled && p == 100 && j.flagged)
    case Loop(i, _, _) => j.row.status == Running && 5 <= p && i <= n
           && (if n == 0 then p <= 10 else p <= Progress(i, n))
    case Ready(i, _, _) => j.row.status == Running && i < n && p == Progress(i, n)
    case InFlight(i, _, _) => j.row.status == Running && i < n && p == Progress(i, n)
    case StepDone(i, _, _, _) => j.row.status == Running && i < n && p == Progress(i, n)
    case Converting(_, _) => j.row.status == Running && p == 90
    case Produced(_, _, _) => j.row.status == Running && p == 90
    case Settling(final, _, _) => j.row.status == Completed && p == 100 && final.status == Completed
           && final.progress == 100
    case Settled(final) => j.row.status == Completed && p == 100 && final.progress == 100
           && final.status in {Completed, Failed}
    case Threw => (j.row.status == Running && 5 <= p <= 90) || (j.row.status == Completed && p == 100)
    case _ => j.row.status in {Cancelled, Failed, Completed} && p == 100
  }

  /** The only status changes there are; a completed task can only fail, and only while its
      quota is being settled. */
  predicate Flows(j: Job, j': Job) {
    var a, b := j.row.status, j'.row.status;
    || a == b
    || (a == Queued && (b == Running || b == Cancelled))
    || (a == Running && (b == Cancelled || b == Failed || b == Completed))
    || (a == Completed && b == Failed && (j.pc.Settled? || j.pc.Threw?))
  }

  predicate Stepping(pc: Pc) {
    pc.Begin? || pc.Loop? || pc.Ready? || pc.InFlight? || pc.StepDone?
  }

  lemma SteppingKeepsShape(j: Job, c: Choice)
    requires WellFormed(j) && Stepping(j.pc) && Shape(j)
    ensures var k := Work(j, c); Shape(k) && j.row.progress <= k.row.progress && Flows(j, k)
  {
    hide Progress, Charged, Says, DoProduced, DoSettling;
    var n := |j.request.steps|;
    if n > 0 {
      ProgressRises(0, n, n);
      if !j.pc.Begin? {
        ProgressRises(j.pc.i, n, n);
        if j.pc.i < n {
          ProgressRises(j.pc.i, j.pc.i + 1, n);
          ProgressRises(j.pc.i + 1, n, n);
        }
      }
    }
  }

  lemma FinishingKeepsShape(j: Job, c: Choice)
    requires WellFormed(j) && !Stepping(j.pc) && !j.pc.Gone? && Shape(j)
    ensures var k := Work(j, c); Shape(k) && j.row.progress <= k.row.progress && Flows(j, k)
  {
    hide KeysInOrder, Says, DoLoop, DoStepDone, DoBegin;
  }

  lemma CancelKeepsShape(s: Story, m: Move)
    requires Can(s, m) && !m.WorkMove? && Shape(s.job)
    ensures var k := Turn(s, m).job; Shape(k) && s.job.row.progress <= k.row.progress && Flows(s.job, k)
  {
  }

  lemma TurnKeepsShape(s: Story, m: Move)
    requires Can(s, m) && Shape(s.job)
    ensures var k := Turn(s, m).job; Shape(k) && s.job.row.progress <= k.row.progress && Flows(s.job, k)
  {
    hide Shape, Work, Flows;
    if m.WorkMove? {
      if Stepping(s.job.pc) { SteppingKeepsShape(s.job, m.choice); } else { FinishingKeepsShape(s.job, m.choice); }
    } else {
      CancelKeepsShape(s, m);
    }
  }

  lemma ShapeInRange(j: Job)
    requires Shape(j)
    ensures 0 <= j.row.progress <= 100
  {
    var n := |j.request.steps|;
    if n > 0 && Stepping(j.pc) && !j.pc.Begin? { ProgressRises(j.pc.i, n, n); }
  }

  /** Along any run the progress stays in 0..100 and never falls. */
  lemma {:induction false} ProgressNeverFalls(s: Story, moves: seq<Move>)
    requires Shape(s.job) && Run(s, moves)
    ensures Shape(After(s, moves).job)
    ensures 0 <= s.job.row.progress <= After(s, moves).job.row.progress <= 100
    decreases |moves|
  {
    hide Shape, Turn, Can;
    ShapeInRange(s.job);
    if moves != [] {
      TurnKeepsShape(s, moves[0]);
      ProgressNeverFalls(Turn(s, moves[0]), moves[1..]);
    }
  }

  // ----- the worker ends

  function Rank(j: Job): nat
    requires WellFormed(j)
  {
    var n := |j.request.steps|;
    match j.pc
    case Begin => 5 * n + 20
    case Loop(i, _, _) => if i < n then 5 * (n - i) + 15 else 15
    case Ready(i, _, _) => 5 * (n - i) + 14
    case InFlight(i, _, _) => 5 * (n - i) + 13
    case StepDone(i, _, _, _) => 5 * (n - i) + 12
    case Converting(_, _) => 14
    case Produced(_, _, _) => 13
    case Settling(_, rest, _) => 4 + |rest|
    case Settled(_) => 3
    case Threw => 2
    case Leaving => 1
    case Gone => 0
  }

  /** Every move of the worker brings its end closer; a cancel does not put it off. */
  lemma WorkDescends(j: Job, c: Choice)
    requires WellFormed(j) && !j.pc.Gone?
    ensures Rank(Work(j, c)) < Rank(j)
    ensures Rank(CancelJob(j)) == Rank(j)
  {
    hide Progress, Charged, AddUsage, CancelRow, Refuse, Fail, Cancel, KeysInOrder;
  }

  // ----- a cancel with a check ahead of it

  ghost predicate EnabledFrom(steps: seq<Step>, i: nat) {
    exists k :: i <= k < |steps| && steps[k].enabled
  }

  /** The worker will look at the cancel flag again. */
  ghost predicate CheckAhead(j: Job) {
    match j.pc
    case Begin => true
    case Loop(i, _, _) => EnabledFrom(j.request.steps, i)
    case Ready(i, _, _) => EnabledFrom(j.request.steps, i + 1)
    case InFlight(i, _, _) => EnabledFrom(j.request.steps, i + 1)
    case StepDone(i, _, _, _) => EnabledFrom(j.request.steps, i + 1)
    case _ => false
  }

  predicate BadStep(j: Job)
    requires j.pc.StepDone? && WellFormed(j)
  {
    j.pc.result.code != OK && !j.request.steps[j.pc.i].skipOnError
  }

  /** A flagged task that is on its way to cancelled, or to failed by the step in flight. */
  ghost predicate Stopping(j: Job) {
    && j.flagged
    && (|| CheckAhead(j)
        || (j.pc.Threw? && j.row.status == Running)
        || ((j.pc.Leaving? || j.pc.Gone?) && (j.row.status == Cancelled || j.row.status == Failed)))
  }

  /** Where a stopping task will end, as far as that is decided. */
  function Verdict(j: Job): Option<Status>
    requires WellFormed(j)
  {
    match j.pc
    case Begin => Some(Cancelled)
    case Loop(_, _, _) => Some(Cancelled)
    case StepDone(_, _, _, _) => Some(if BadStep(j) then Failed else Cancelled)
    case Threw => Some(Failed)
    case Leaving => Some(j.row.status)
    case Gone => Some(j.row.status)
    case _ => None
  }

  function Starts(log: seq<Event>): nat {
    if log == [] then 0 else Starts(log[..|log| - 1]) + (if log[|log| - 1].StepStarted? then 1 else 0)
  }

  predicate AsksQuota(e: Event) {
    e.Asked? || e.NoAuth?
  }

  lemma StartsMore(log: seq<Event>, e: seq<Event>)
    requires |e| <= 1
    ensures Starts(log + e) == Starts(log) + (if e != [] && e[0].StepStarted? then 1 else 0)
  {
    if e == [] { assert log + e == log; } else { assert (log + e)[..|log|] == log; }
  }

  /** How many provider steps a stopping task may still start. */
  function StillToStart(j: Job): nat {
    if j.pc.Ready? then 1 else 0
  }

  lemma WorkKeepsStopping(j: Job, c: Choice)
    requires WellFormed(j) && !j.pc.Gone? && Shape(j) && Stopping(j)
    ensures var k := Work(j, c);
            && Stopping(k)
            && (Verdict(j).Some? ==> Verdict(k) == Verdict(j))
            && StillToStart(k) + Starts(Says(j, c)) <= StillToStart(j)
            && (forall e <- Says(j, c) :: !AsksQuota(e))
  {
    hide Progress, Charged, AddUsage, KeysInOrder, Refuse, DoSettling;
    assert Says(j, c) != [] ==> Says(j, c)[..0] == [];
  }

  lemma TurnKeepsStopping(s: Story, m: Move)
    requires Can(s, m) && Shape(s.job) && Stopping(s.job)
    ensures var t := Turn(s, m);
            && Stopping(t.job)
            && (Verdict(s.job).Some? ==> Verdict(t.job) == Verdict(s.job))
            && Starts(t.log) + StillToStart(t.job) <= Starts(s.log) + StillToStart(s.job)
            && (forall e <- t.log | AsksQuota(e) :: e in s.log)
  {
    if m.WorkMove? {
      hide Work, Shape, Stopping, Verdict, Says, Starts;
      var e := Says(s.job, m.choice);
      WorkKeepsStopping(s.job, m.choice);
      StartsMore(s.log, e);
      StartsMore([], e);
      assert [] + e == e;
      NoStarts();
    }
  }

  lemma NoStarts()
    ensures Starts([]) == 0
  {
  }

  // ----- what a failure is due to

  /** A step that threw, or that failed and is not to be skipped. */
  predicate IsBad(e: Event, r: Request) {
    e.Crashed? || (e.StepEnded? && e.i < |r.steps| && e.result.code != OK && !r.steps[e.i].skipOnError)
  }

  predicate SomeBad(log: seq<Event>, r: Request) {
    exists e <- log :: IsBad(e, r)
  }

  /** The worker is still among its steps only if none was bad; the last one may be. */
  predicate NoneBadYet(s: Story) {
    var j := s.job;
    match j.pc
    case StepDone(i, _, _, result) => i < |j.request.steps| && (SomeBad(s.log, j.request) <==> BadStep(j))
    case _ => Stepping(j.pc) ==> !SomeBad(s.log, j.request)
  }

  /** A stopping task has failed, or will, iff a step was bad. */
  predicate Blamed(s: Story) {
    match s.job.pc
    case Threw => SomeBad(s.log, s.job.request)
    case Leaving => s.job.row.status == Failed <==> SomeBad(s.log, s.job.request)
    case Gone => s.job.row.status == Failed <==> SomeBad(s.log, s.job.request)
    case _ => NoneBadYet(s)
  }

  lemma BadMore(log: seq<Event>, e: seq<Event>, r: Request)
    requires |e| <= 1
    ensures SomeBad(log + e, r) <==> SomeBad(log, r) || (e != [] && IsBad(e[0], r))
  {
    if e != [] {
      assert e[0] in log + e;
    }
    assert forall x <- log :: x in log + e;
  }

  lemma TurnKeepsNoneBad(s: Story, m: Move)
    requires Can(s, m) && NoneBadYet(s)
    ensures NoneBadYet(Turn(s, m))
  {
    if m.WorkMove? {
      hide Progress, Charged, AddUsage, KeysInOrder, SomeBad, DoSettling, DoProduced;
      BadMore(s.log, Says(s.job, m.choice), s.job.request);
    }
  }

  lemma {:induction false} RunNoneBad(s: Story, moves: seq<Move>)
    requires Run(s, moves) && NoneBadYet(s)
    ensures NoneBadYet(After(s, moves))
    decreases |moves|
  {
    hide Turn, NoneBadYet, Can;
    if moves != [] {
      TurnKeepsNoneBad(s, moves[0]);
      RunNoneBad(Turn(s, moves[0]), moves[1..]);
    }
  }

  lemma TurnKeepsBlame(s: Story, m: Move)
    requires Can(s, m) && Shape(s.job) && Stopping(s.job) && Blamed(s)
    ensures Blamed(Turn(s, m))
  {
    if m.WorkMove? {
      hide Progress, Charged, AddUsage, KeysInOrder, SomeBad, DoSettling, DoProduced;
      BadMore(s.log, Says(s.job, m.choice), s.job.request);
    }
  }

  lemma {:induction false} RunKeepsBlame(s: Story, moves: seq<Move>)
    requires Run(s, moves) && Shape(s.job) && WellFormed(s.job) && Stopping(s.job) && Blamed(s)
    ensures Blamed(After(s, moves)) && After(s, moves).job.request == s.job.request
    decreases |moves|
  {
    hide Shape, Stopping, Turn, Blamed, Verdict;
    if moves != [] {
      TurnKeepsShape(s, moves[0]);
      TurnKeepsStopping(s, moves[0]);
      TurnWellFormed(s, moves[0]);
      TurnKeepsBlame(s, moves[0]);
      TurnKeepsRequest(s, moves[0]);
      RunKeepsBlame(Turn(s, moves[0]), moves[1..]);
    }
  }

  lemma TurnKeepsRequest(s: Story, m: Move)
    requires Can(s, m)
    ensures Turn(s, m).job.request == s.job.request
  {
    hide Work;
  }

  /** Once the flag is set the worker never again gets ready for a step. */
  lemma FlaggedStarts(s: Story, m: Move)
    requires Can(s, m) && s.job.flagged
    ensures var t := Turn(s, m);
            t.job.flagged && Starts(t.log) + StillToStart(t.job) <= Starts(s.log) + StillToStart(s.job)
  {
    if m.WorkMove? {
      hide Work, Says, Starts, StillToStart;
      FlaggedWork(s.job, m.choice);
      StartsMore(s.log, Says(s.job, m.choice));
    }
  }

  lemma FlaggedWork(j: Job, c: Choice)
    requires WellFormed(j) && !j.pc.Gone? && j.flagged
    ensures var e := Says(j, c);
            StillToStart(Work(j, c)) + (if e != [] && e[0].StepStarted? then 1 else 0) <= StillToStart(j)
  {
    hide Progress, Charged, AddUsage, KeysInOrder, Refuse, Fail, Cancel;
  }

  lemma {:induction false} FlaggedRunStarts(s: Story, moves: seq<Move>)
    requires Run(s, moves) && s.job.flagged
    ensures Starts(After(s, moves).log) <= Starts(s.log) + StillToStart(s.job)
    decreases |moves|
  {
    hide Turn, Starts, StillToStart;
    if moves != [] {
      FlaggedStarts(s, moves[0]);
      FlaggedRunStarts(Turn(s, moves[0]), moves[1..]);
    }
  }

  /** A cancel with an enabled step ahead is effective: at most one more provider step starts,
      none if the task was queued, no quota is asked for, and the task ends cancelled, or failed
      iff a step threw or failed without being skipped. */
  lemma {:induction false} CancelIsEffective(s: Story, moves: seq<Move>)
    requires Shape(s.job) && Stopping(s.job) && Run(s, moves) && WellFormed(s.job)
    ensures var t := After(s, moves);
            && Starts(t.log) <= Starts(s.log) + StillToStart(s.job) <= Starts(s.log) + 1
            && (s.job.row.status == Queued ==> Starts(t.log) == Starts(s.log))
            && (forall e <- t.log | AsksQuota(e) :: e in s.log)
            && (t.job.pc.Gone? ==>
                  && t.job.row.status in {Cancelled, Failed}
                  && (Verdict(s.job).Some? ==> t.job.row.status == Verdict(s.job).value)
                  && (Blamed(s) ==> (t.job.row.status == Failed <==> SomeBad(t.log, s.job.request))))
    decreases |moves|
  {
    CancelOutcome(s, moves);
    LogGrows(s, moves);
    if Blamed(s) { RunKeepsBlame(s, moves); }
  }

  lemma {:induction false} LogGrows(s: Story, moves: seq<Move>)
    requires Run(s, moves)
    ensures Starts(s.log) <= Starts(After(s, moves).log)
    decreases |moves|
  {
    hide Says, Work, Starts;
    if moves != [] {
      if moves[0].WorkMove? { StartsMore(s.log, Says(s.job, moves[0].choice)); }
      LogGrows(Turn(s, moves[0]), moves[1..]);
    }
  }

  lemma {:induction false} CancelOutcome(s: Story, moves: seq<Move>)
    requires Shape(s.job) && Stopping(s.job) && Run(s, moves) && WellFormed(s.job)
    ensures var t := After(s, moves);
            && WellFormed(t.job) && Stopping(t.job)
            && Starts(t.log) + StillToStart(t.job) <= Starts(s.log) + StillToStart(s.job)
            && (forall e <- t.log | AsksQuota(e) :: e in s.log)
            && (Verdict(s.job).Some? ==> Verdict(t.job) == Verdict(s.job))
    decreases |moves|
  {
    hide Shape, Stopping, Turn, Verdict, Starts, Says;
    if moves != [] {
      TurnKeepsShape(s, moves[0]);
      TurnKeepsStopping(s, moves[0]);
      TurnWellFormed(s, moves[0]);
      CancelOutcome(Turn(s, moves[0]), moves[1..]);
    }
  }

  lemma TurnWellFormed(s: Story, m: Move)
    requires Can(s, m)
    ensures WellFormed(Turn(s, m).job)
  {
    hide Work;
  }

  // ----- a cancel with no check ahead of it

  /** The same task, except for what a cancel leaves in the flag and in the snapshots. */
  predicate Alike(a: Job, b: Job) {
    && a.request == b.request
    && a.row.(cancelRequested := false) == b.row.(cancelRequested := false)
    && (a.pc == b.pc
        || (a.pc.Settling? && b.pc.Settling? && a.pc.rest == b.pc.rest && a.pc.usage == b.pc.usage
            && a.pc.final.(cancelRequested := false) == b.pc.final.(cancelRequested := false))
        || (a.pc.Settled? && b.pc.Settled?
             && a.pc.final.(cancelRequested := false) == b.pc.final.(cancelRequested := false)))
  }

  lemma LateStep(a: Job, b: Job, c: Choice)
    requires WellFormed(a) && Stepping(a.pc) && !CheckAhead(a) && Shape(a) && Alike(a, b)
    ensures WellFormed(b) && !b.pc.Gone? && Says(a, c) == Says(b, c)
    ensures Alike(Work(a, c), Work(b, c)) && !CheckAhead(Work(a, c))
  {
    hide Progress, Charged, AddUsage, KeysInOrder, DoSettling, DoProduced;
  }

  lemma LateOutputs(a: Job, b: Job, c: Choice)
    requires WellFormed(a) && (a.pc.Converting? || a.pc.Produced?) && Alike(a, b)
    ensures WellFormed(b) && !b.pc.Gone? && Says(a, c) == Says(b, c)
    ensures Alike(Work(a, c), Work(b, c)) && !CheckAhead(Work(a, c))
  {
    hide KeysInOrder, DoLoop, DoStepDone, DoBegin, DoSettling;
  }

  lemma LateFinish(a: Job, b: Job, c: Choice)
    requires WellFormed(a) && !Stepping(a.pc) && !a.pc.Gone? && Alike(a, b)
    ensures WellFormed(b) && !b.pc.Gone? && Says(a, c) == Says(b, c)
    ensures Alike(Work(a, c), Work(b, c)) && !CheckAhead(Work(a, c))
  {
    hide KeysInOrder, DoLoop, DoStepDone, DoBegin, DoProduced, NoOutputs, Units;
    if a.pc.Converting? || a.pc.Produced? { LateOutputs(a, b, c); }
  }

  /** Once the last check is behind, a cancel changes nothing but the flag: the worker goes on
      exactly as it would have. */
  lemma LateCancelIsIgnored(a: Job, b: Job, c: Choice)
    requires WellFormed(a) && !a.pc.Gone? && !CheckAhead(a) && Shape(a) && Alike(a, b)
    ensures WellFormed(b) && !b.pc.Gone? && Says(a, c) == Says(b, c)
    ensures Alike(Work(a, c), Work(b, c)) && !CheckAhead(Work(a, c))
  {
    hide Shape, Work, Says, Alike, CheckAhead;
    if Stepping(a.pc) { LateStep(a, b, c); } else { LateFinish(a, b, c); }
  }

  lemma LateCancelIsAlike(j: Job)
    requires Shape(j) && !CheckAhead(j)
    ensures Alike(j, CancelJob(j))
  {
  }

  /** CancelTask and then the rest of the run, against the same run with the cancel left out. */
  lemma {:induction false} LateCancelRuns(s: Story, t: Story, moves: seq<Move>)
    requires Run(s, moves) && Shape(s.job) && WellFormed(s.job) && !CheckAhead(s.job) && Alike(s.job, t.job)
               && s.log == t.log
    ensures Run(t, moves) && Alike(After(s, moves).job, After(t, moves).job)
              && After(s, moves).log == After(t, moves).log
    decreases |moves|
  {
    hide Shape, Work, Says, CheckAhead;
    if moves != [] {
      var m := moves[0];
      TurnKeepsShape(s, m);
      TurnWellFormed(s, m);
      if m.WorkMove? {
        LateCancelIsIgnored(s.job, t.job, m.choice);
      } else {
        LateFlag(s.job, t.job);
      }
      LateCancelRuns(Turn(s, m), Turn(t, m), moves[1..]);
    }
  }

  lemma LateFlag(a: Job, b: Job)
    requires Shape(a) && !CheckAhead(a) && Alike(a, b)
    ensures Alike(CancelJob(a), CancelJob(b)) && !CheckAhead(CancelJob(a))
    ensures Alike(a.(flagged := true), b.(flagged := true)) && !CheckAhead(a.(flagged := true))
    ensures WellFormed(a) ==> WellFormed(b)
  {
  }

  // ----- the two cases together, for any task and any moment of the cancel

  lemma FreshShape(r: Request)
    ensures Shape(Fresh(r).job) && WellFormed(Fresh(r).job)
  {
  }

  lemma {:induction false} RunWellFormed(s: Story, moves: seq<Move>)
    requires Run(s, moves) && WellFormed(s.job)
    ensures WellFormed(After(s, moves).job)
    decreases |moves|
  {
    hide Turn, WellFormed;
    if moves != [] {
      TurnWellFormed(s, moves[0]);
      RunWellFormed(Turn(s, moves[0]), moves[1..]);
    }
  }

  lemma CancelStops(j: Job)
    requires Shape(j) && CheckAhead(j)
    ensures Stopping(CancelJob(j)) && Shape(CancelJob(j))
    ensures StillToStart(CancelJob(j)) == StillToStart(j)
  {
  }

  /** CancelTask at any moment of any run: at most one more provider step starts, none if the
      task was queued.  With a check ahead, moreover, no quota is asked for, and the task ends
      failed iff a step threw or failed without being skipped, and cancelled otherwise. */
  lemma {:induction false} CancelTakesEffect(r: Request, before: seq<Move>, after: seq<Move>)
    requires Run(Fresh(r), before)
    requires Run(WithCancel(After(Fresh(r), before)), after)
    ensures var s := After(Fresh(r), before);
            var t := After(WithCancel(s), after);
            && Starts(t.log) <= Starts(s.log) + (if s.job.row.status == Queued then 0 else 1)
            && (CheckAhead(s.job) ==>
                  && (forall e <- t.log | AsksQuota(e) :: e in s.log)
                  && (t.job.pc.Gone? ==> t.job.row.status == if SomeBad(t.log, r) then Failed else Cancelled))
    // a step that was bad is the one in flight at the cancel: none was bad before
    ensures var j := After(Fresh(r), before).job;
            Stepping(j.pc) && !j.pc.StepDone? ==> !SomeBad(After(Fresh(r), before).log, r)
  {
    hide Shape, Stopping, Run, Starts, CheckAhead, Work, Verdict, CancelRow, SomeBad, Blamed, NoneBadYet;
    var s := After(Fresh(r), before);
    FreshShape(r);
    FreshNoneBad(r);
    RunWellFormed(Fresh(r), before);
    ProgressNeverFalls(Fresh(r), before);
    RunNoneBad(Fresh(r), before);
    RunKeepsRequest(Fresh(r), before);
    NoneBadAtCancel(s);
    FlaggedRunStarts(WithCancel(s), after);
    if s.job.row.status == Queued { QueuedIsNotReady(s.job); }
    if CheckAhead(s.job) {
      CancelStops(s.job);
      CancelIsEffective(WithCancel(s), after);
    }
  }

  lemma FreshNoneBad(r: Request)
    ensures NoneBadYet(Fresh(r))
  {
  }

  lemma {:induction false} RunKeepsRequest(s: Story, moves: seq<Move>)
    requires Run(s, moves)
    ensures After(s, moves).job.request == s.job.request
    decreases |moves|
  {
    hide Turn;
    if moves != [] {
      TurnKeepsRequest(s, moves[0]);
      RunKeepsRequest(Turn(s, moves[0]), moves[1..]);
    }
  }

  lemma NoneBadAtCancel(s: Story)
    requires NoneBadYet(s)
    ensures Stepping(s.job.pc) && !s.job.pc.StepDone? ==> !SomeBad(s.log, s.job.request)
    ensures CheckAhead(s.job) ==> Blamed(WithCancel(s))
    ensures StillToStart(WithCancel(s).job) == StillToStart(s.job)
  {
    hide SomeBad;
  }

  lemma QueuedIsNotReady(j: Job)
    requires Shape(j) && j.row.status == Queued
    ensures StillToStart(j) == 0
  {
  }

  /** With no check ahead, the rest of the run is the same with and without the cancel. */
  lemma {:induction false} CancelComesTooLate(r: Request, before: seq<Move>, after: seq<Move>)
    requires Run(Fresh(r), before) && Run(After(Fresh(r), before), after)
    requires !CheckAhead(After(Fresh(r), before).job)
    ensures WellFormed(After(Fresh(r), before).job)
    ensures var s := After(Fresh(r), before);
            && Run(WithCancel(s), after)
            && After(WithCancel(s), after).log == After(s, after).log
            && Alike(After(s, after).job, After(WithCancel(s), after).job)
  {
    hide Shape, CheckAhead, Alike, Work, CancelRow, Run, After;
    var s := After(Fresh(r), before);
    FreshShape(r);
    RunWellFormed(Fresh(r), before);
    ProgressNeverFalls(Fresh(r), before);
    LateCancelIsAlike(s.job);
    LateCancelRuns(s, WithCancel(s), after);
  }
}
