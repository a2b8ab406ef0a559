/** What the history of a run can contain: first in, first out per device; every captured
    task finished once; at most one physical capture per task. */
module CaptureHistory {
  import opened CaptureModel
  import opened CaptureWorld
  import opened CaptureOwnership
  import opened CaptureEffects

  // ----- first in, first out

  function QueuedNow(e: seq<Event>, d: DeviceId): seq<TaskId> {
    if e != [] && e[0].CapturedRaw? && e[0].device == d && e[0].queued then [e[0].id] else []
  }

  function PoppedNow(e: seq<Event>, d: DeviceId): seq<TaskId> {
    if e != [] && e[0].Popped? && e[0].device == d then [e[0].id] else []
  }

  /** The ids pushed for good onto the queue of `d`, in commit order. */
  function QueuedIds(log: seq<Event>, d: DeviceId): seq<TaskId> {
    if log == [] then [] else QueuedIds(log[..|log| - 1], d) + QueuedNow(log[|log| - 1..], d)
  }

  /** The ids that queue threads of `d` took up, in order. */
  function PoppedIds(log: seq<Event>, d: DeviceId): seq<TaskId> {
    if log == [] then [] else PoppedIds(log[..|log| - 1], d) + PoppedNow(log[|log| - 1..], d)
  }

  lemma IdsMore(log: seq<Event>, e: seq<Event>, d: DeviceId)
    requires |e| <= 1
    ensures QueuedIds(log + e, d) == QueuedIds(log, d) + QueuedNow(e, d)
    ensures PoppedIds(log + e, d) == PoppedIds(log, d) + PoppedNow(e, d)
  {
    if e == [] {
      assert log + e == log;
    } else {
      assert (log + e)[..|log|] == log && (log + e)[|log|..] == e;
    }
  }

  ghost predicate InOrder(w: World, d: DeviceId) {
    QueuedIds(w.log, d) == PoppedIds(w.log, d) + QueueOf(w.svc.queues, d)
  }

  lemma StepInOrder(w: World, i: nat, c: Choice, h: Homes, d: DeviceId)
    requires Own(w.svc, w.section, h) && Enabled(w, DoWork(i, c)) && InOrder(w, d)
    ensures InOrder(Next(w, DoWork(i, c)), d)
  {
    hide Own, Next, Step, Observed, QueuedIds, PoppedIds;
    WorkMove(w, i, c);
    IdsMore(w.log, Observed(w.svc, i, c), d);
    QueueMoves(w.svc, w.section, h, i, c, d);
    Chain(QueuedIds(w.log, d), PoppedIds(w.log, d), QueueOf(w.svc.queues, d), QueuedNow(Observed(w.svc, i, c), d),
          PoppedNow(Observed(w.svc, i, c), d), QueueOf(Step(w.svc, i, c).queues, d));
  }

  lemma Chain(all: seq<TaskId>, out: seq<TaskId>, q: seq<TaskId>, pushed: seq<TaskId>, popped: seq<TaskId>,
              q': seq<TaskId>)
    requires all == out + q && q + pushed == popped + q'
    ensures all + pushed == (out + popped) + q'
  {
    assert (out + q) + pushed == out + (q + pushed);
    assert (out + popped) + q' == out + (popped + q');
  }

  /** A queue changes by exactly the ids that are observed going in and out. */
  lemma QueueMoves(s: State, sec: Section, h: Homes, i: nat, c: Choice, d: DeviceId)
    requires Own(s, sec, h) && i < |s.workers| && s.workers[i].Live()
    ensures QueueOf(s.queues, d) + QueuedNow(Observed(s, i, c), d)
              == PoppedNow(Observed(s, i, c), d) + QueueOf(Step(s, i, c).queues, d)
  {
    hide Own, Step, Observed;
    if s.workers[i].CaptureCommit? {
      QueuePushes(s, sec, h, i, c, d);
    } else if s.workers[i].QueueIdle? {
      QueuePops(s, sec, h, i, c, d);
    } else {
      QueueRests(s, i, c);
      RowMoves(s, sec, h, i, c);
    }
  }

  lemma QueuePushes(s: State, sec: Section, h: Homes, i: nat, c: Choice, d: DeviceId)
    requires Own(s, sec, h) && i < |s.workers| && s.workers[i].CaptureCommit?
    ensures QueueOf(s.queues, d) + QueuedNow(Observed(s, i, c), d)
              == PoppedNow(Observed(s, i, c), d) + QueueOf(Step(s, i, c).queues, d)
  {
    hide Own;
    var CaptureCommit(id, r, raw) := s.workers[i];
    Held(s, sec, h, i, id);
    if SpawnRefused(s, r.device, c) { CommitRefusedKeeps(s, sec, h, i, id, r, raw); }
  }

  lemma QueuePops(s: State, sec: Section, h: Homes, i: nat, c: Choice, d: DeviceId)
    requires Own(s, sec, h) && i < |s.workers| && s.workers[i].QueueIdle?
    ensures QueueOf(s.queues, d) + QueuedNow(Observed(s, i, c), d)
              == PoppedNow(Observed(s, i, c), d) + QueueOf(Step(s, i, c).queues, d)
  {
    hide Own;
    var q := s.workers[i].device;
    if QueueOf(s.queues, q) != [] {
      QueuedFirst(s, sec, h, q);
      assert s.queues[q] == [s.queues[q][0]] + s.queues[q][1..];
    }
  }

  lemma QueueRests(s: State, i: nat, c: Choice)
    requires i < |s.workers| && s.workers[i].Live() && !s.workers[i].CaptureCommit? && !s.workers[i].QueueIdle?
    ensures Step(s, i, c).queues == s.queues
  {
    hide Commit, Pop, Begin, Acquire, FailCapture, Complete;
    match s.workers[i]
    case CaptureBegin(_) => BeginRests(s, i);
    case CaptureAction(_, _) => AcquireRests(s, i, c);
    case CaptureFailing(_, _) => FailRests(s, i);
    case SpawnFailed(id, r) => CompleteRests(SetWorker(s, i, CaptureDone), id, r, SPAWN_FAILURE);
    case QueueRunning(_, _, _) =>
    case QueueFinishing(d, id, r, result) => CompleteRests(SetWorker(s, i, QueueIdle(d)), id, r, result);
  }

  lemma BeginRests(s: State, i: nat)
    requires i < |s.workers| && s.workers[i].CaptureBegin?
    ensures Begin(s, i).queues == s.queues
  {
  }

  lemma AcquireRests(s: State, i: nat, c: Choice)
    requires i < |s.workers| && s.workers[i].CaptureAction?
    ensures Acquire(s, i, c).queues == s.queues
  {
  }

  lemma FailRests(s: State, i: nat)
    requires i < |s.workers| && s.workers[i].CaptureFailing?
    ensures FailCapture(s, i).queues == s.queues
  {
    hide PutSummary, SummaryOf;
  }

  lemma CompleteRests(s: State, id: TaskId, r: Request, result: PipelineResult)
    ensures Complete(s, id, r, result).queues == s.queues
  {
    hide PutSummary, SummaryOf, FinalStatus, Succeeds;
  }

  lemma MoveInOrder(w: World, m: Move, h: Homes, d: DeviceId)
    requires Own(w.svc, w.section, h) && Enabled(w, m) && InOrder(w, d)
    ensures InOrder(Next(w, m), d)
  {
    hide Own, Next, QueuedIds, PoppedIds;
    if m.DoWork? {
      StepInOrder(w, m.thread, m.choice, h, d);
    } else {
      var e := OneEvent(w, m);
      assert e != [] ==> e[0] == Next(w, m).log[|w.log|];
      DeskRest(w, m);
      DeskRows(w, m, h);
      IdsMore(w.log, e, d);
    }
  }

  // ----- how often something happened to one task

  datatype What = ShutterOf | CapturedOf | RanOf | FinishedOf | HardGrabOf

  predicate Is(e: Event, what: What, id: TaskId) {
    match e
    case Shutter(x) => what == ShutterOf && x == id
    case CapturedRaw(x, _, _, _) => what == CapturedOf && x == id
    case Ran(x, shot, _) => (what == RanOf || (what == ShutterOf && shot)) && x == id
    case Finished(x, _, _, _) => what == FinishedOf && x == id
    case Accepted(x, _, source, _) => what == HardGrabOf && source == HardGrab && x == id
    case _ => false
  }

  function Times(log: seq<Event>, what: What, id: TaskId): nat {
    if log == [] then 0
    else Times(log[..|log| - 1], what, id) + (if Is(log[|log| - 1], what, id) then 1 else 0)
  }

  lemma TimesMore(log: seq<Event>, e: seq<Event>, what: What, id: TaskId)
    requires |e| <= 1
    ensures Times(log + e, what, id) == Times(log, what, id) + (if e != [] && Is(e[0], what, id) then 1 else 0)
  {
    if e == [] {
      assert log + e == log;
    } else {
      assert (log + e)[..|log|] == log;
    }
  }

  /** What any move appends to the history: at most one event. */
  lemma OneEvent(w: World, m: Move) returns (e: seq<Event>)
    requires Enabled(w, m)
    ensures |e| <= 1 && Next(w, m).log == w.log + e
    ensures m.DoWork? ==> e == Observed(w.svc, m.thread, m.choice)
  {
    e := Next(w, m).log[|w.log|..];
  }

  predicate AwaitsResult(s: State, id: TaskId) {
    id in s.tasks && s.tasks[id].acquisition == Captured && !Terminal(s.tasks[id])
  }

  /** A task is captured at most once, and finished exactly as often as captured unless it is
      still waiting for its end. */
  ghost predicate FinishedOnce(w: World, id: TaskId) {
    var captured := Times(w.log, CapturedOf, id);
    && captured <= 1
    && (id >= w.svc.nextSeq ==> captured == 0)
    && (id in w.svc.tasks ==> captured == (if w.svc.tasks[id].acquisition == Captured then 1 else 0))
    && captured == Times(w.log, FinishedOf, id) + (if AwaitsResult(w.svc, id) then 1 else 0)
  }

  lemma StepFinishesOnce(w: World, i: nat, c: Choice, h: Homes, id: TaskId)
    requires Own(w.svc, w.section, h) && Enabled(w, DoWork(i, c)) && FinishedOnce(w, id)
    ensures FinishedOnce(Next(w, DoWork(i, c)), id)
  {
    hide Own, Next, Step, Observed, Times;
    var e := Observed(w.svc, i, c);
    WorkMove(w, i, c);
    RowMoves(w.svc, w.section, h, i, c);
    TimesMore(w.log, e, CapturedOf, id);
    TimesMore(w.log, e, FinishedOf, id);
  }

  lemma MoveFinishesOnce(w: World, m: Move, h: Homes, id: TaskId)
    requires Own(w.svc, w.section, h) && Enabled(w, m) && FinishedOnce(w, id)
    ensures FinishedOnce(Next(w, m), id)
  {
    hide Own, Next, Times;
    if m.DoWork? {
      StepFinishesOnce(w, m.thread, m.choice, h, id);
    } else {
      DeskRows(w, m, h);
      var e := OneEvent(w, m);
      assert e != [] ==> e[0] == Next(w, m).log[|w.log|];
      TimesMore(w.log, e, CapturedOf, id);
      TimesMore(w.log, e, FinishedOf, id);
    }
  }

  // ----- the shutter

  ghost predicate ShotOnce(w: World, id: TaskId) {
    var shots, grabs := Times(w.log, ShutterOf, id), Times(w.log, HardGrabOf, id);
    && shots <= 1
    && (grabs > 0 ==> shots == 0)
    && (id >= w.svc.nextSeq ==> shots == 0 == grabs)
    && (id in w.svc.tasks ==>
          && (Waiting(w.svc.tasks[id]) || w.svc.tasks[id].source == HardGrab ==> shots == 0)
          && (w.svc.tasks[id].source == Manual ==> grabs == 0))
    && (forall i | 0 <= i < |w.svc.workers| :: w.svc.workers[i].CaptureAction? && w.svc.workers[i].id == id ==>
         shots == 0)
  }

  lemma StepShoots(w: World, i: nat, c: Choice, h: Homes, id: TaskId)
    requires Own(w.svc, w.section, h) && Enabled(w, DoWork(i, c)) && ShotOnce(w, id)
    ensures ShotOnce(Next(w, DoWork(i, c)), id)
  {
    hide Own, Next, Step, Observed, Times;
    var s, e, s' := w.svc, Observed(w.svc, i, c), Step(w.svc, i, c);
    WorkMove(w, i, c);
    ThreadMoves(s, i, c);
    RowMoves(s, w.section, h, i, c);
    TimesMore(w.log, e, ShutterOf, id);
    TimesMore(w.log, e, HardGrabOf, id);
    forall j | 0 <= j < |s'.workers| && s'.workers[j].CaptureAction? && s'.workers[j].id == id
      ensures Times(w.log + e, ShutterOf, id) == 0
    {
      if j != i {
        assert s'.workers[j] == s.workers[j];
        Apart(s, w.section, h, i, j);
      }
    }
  }

  lemma MoveShoots(w: World, m: Move, h: Homes, id: TaskId)
    requires Own(w.svc, w.section, h) && Enabled(w, m) && ShotOnce(w, id)
    ensures ShotOnce(Next(w, m), id)
  {
    hide Own, Next, Times;
    if m.DoWork? {
      StepShoots(w, m.thread, m.choice, h, id);
    } else {
      DeskRows(w, m, h);
      DeskRest(w, m);
      var e := OneEvent(w, m);
      assert e != [] ==> e[0] == Next(w, m).log[|w.log|];
      TimesMore(w.log, e, ShutterOf, id);
      TimesMore(w.log, e, HardGrabOf, id);
    }
  }
}
