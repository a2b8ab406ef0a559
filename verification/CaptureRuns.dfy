/** The results about whole runs of the capture scheduler, for every run that the storage
    lock allows, from a fresh service on. */
module CaptureRuns {
  import opened Wrappers
  import opened Sums
  import opened CaptureModel
  import opened CaptureWorld
  import opened CaptureOwnership
  import opened CaptureEffects
  import opened CaptureAccounting
  import H = CaptureHistory
  import opened CaptureRateLimit
  import opened CaptureSlots
  import opened CaptureQuiescence

  /** Everything that every move keeps. */
  ghost predicate Inv(w: World, h: Homes) {
    && Own(w.svc, w.section, h)
    && Accounted(w)
    && (forall d :: H.InOrder(w, d))
    && (forall id :: H.FinishedOnce(w, id) && H.ShotOnce(w, id))
    && Limited(w)
    && SlotsClaimed(w.svc) && GrabApart(w)
    && Budgeted(w.svc.workers)
    && NothingActive(w)
  }

  /** Once cleanup has seen no active task, there is none until it is finished. */
  ghost predicate NothingActive(w: World) {
    w.section == Cleaning ==> ActiveTasks(w.svc) == {}
  }

  lemma MoveNothingActive(w: World, m: Move, h: Homes)
    requires Own(w.svc, w.section, h) && Enabled(w, m) && NothingActive(w)
    ensures NothingActive(Next(w, m))
  {
    hide Own;
    if m.DoWork? {
      hide Step, Observed;
      WorkMove(w, m.thread, m.choice);
      RowMoves(w.svc, w.section, h, m.thread, m.choice);
      assert Touched(w.svc, m.thread).Some? ==> Touched(w.svc, m.thread).value in ActiveTasks(w.svc);
    }
  }

  lemma GenesisInv()
    ensures Inv(GENESIS, Homes(map[], map[]))
  {
    forall c, d
      ensures Balanced(GENESIS.svc.summaries, GENESIS.svc.tasks, GENESIS.log, c, d)
    {
      assert Pending(GENESIS.svc.tasks, c, d) == {};
    }
  }

  lemma MoveInv(w: World, m: Move, h: Homes) returns (h': Homes)
    requires Inv(w, h) && Enabled(w, m)
    ensures Inv(Next(w, m), h')
  {
    hide Own, Next, Accounted, Limited, SlotsClaimed, GrabApart, Budgeted, NothingActive, Enabled;
    hide H.InOrder, H.FinishedOnce, H.ShotOnce;
    h' := MoveKeeps(w, m, h);
    MoveAccounts(w, m, h);
    MoveLimited(w, m, h);
    MoveSlotsClaimed(w, m, h);
    MoveGrabApart(w, m, h);
    MoveBudget(w, m, h);
    MoveNothingActive(w, m, h);
    forall d
      ensures H.InOrder(Next(w, m), d)
    {
      H.MoveInOrder(w, m, h, d);
    }
    forall id
      ensures H.FinishedOnce(Next(w, m), id) && H.ShotOnce(Next(w, m), id)
    {
      H.MoveFinishesOnce(w, m, h, id);
      H.MoveShoots(w, m, h, id);
    }
  }

  lemma {:induction false} RunInv(w: World, moves: seq<Move>, h: Homes) returns (h': Homes)
    requires Inv(w, h) && Run(w, moves)
    ensures Inv(After(w, moves), h')
    decreases |moves|
  {
    hide Inv, Next, Enabled;
    h' := h;
    if moves != [] {
      h' := MoveInv(w, moves[0], h);
      h' := RunInv(Next(w, moves[0]), moves[1..], h');
    }
  }

  lemma {:induction false} Reached(moves: seq<Move>) returns (h: Homes)
    requires Run(GENESIS, moves)
    ensures Inv(After(GENESIS, moves), h)
  {
    hide Inv;
    GenesisInv();
    h := RunInv(GENESIS, moves, Homes(map[], map[]));
  }

  predicate Serves(w: Worker, d: DeviceId) {
    DeviceOf(w) == Some(d)
  }

  /** A device is marked as processing iff exactly one live queue thread serves it; a nonempty
      queue has such a thread; nobody else ever pops it. */
  lemma {:induction false} ExclusiveConsumer(moves: seq<Move>, d: DeviceId)
    requires Run(GENESIS, moves)
    ensures var s := After(GENESIS, moves).svc;
            && (d in s.processing <==> exists i :: 0 <= i < |s.workers| && Serves(s.workers[i], d))
            && (forall i, j | 0 <= i < |s.workers| && 0 <= j < |s.workers| ::
                 Serves(s.workers[i], d) && Serves(s.workers[j], d) ==> i == j)
            && (QueueOf(s.queues, d) != [] ==> d in s.processing)
  {
    hide Run, After, Accounted, Limited, SlotsClaimed, GrabApart, Budgeted, Tables, Owners, Places;
    var h := Reached(moves);
    var s := After(GENESIS, moves).svc;
    if d in s.processing {
      assert Serves(s.workers[h.server[d]], d);
    }
  }

  /** Tasks of a device are taken up in the order of their captured commits: what was popped is
      a prefix of what was queued, and the rest is exactly the queue. */
  lemma {:induction false} FirstInFirstOut(moves: seq<Move>, d: DeviceId)
    requires Run(GENESIS, moves)
    ensures var w := After(GENESIS, moves);
            H.QueuedIds(w.log, d) == H.PoppedIds(w.log, d) + QueueOf(w.svc.queues, d)
  {
    hide Run, After, Own, Accounted, Limited, SlotsClaimed, GrabApart, Budgeted;
    var h := Reached(moves);
    assert H.InOrder(After(GENESIS, moves), d);
  }

  /** No captured task is lost or finished twice. */
  lemma {:induction false} NoTaskLost(moves: seq<Move>, id: TaskId)
    requires Run(GENESIS, moves)
    ensures var w := After(GENESIS, moves);
            && H.Times(w.log, H.CapturedOf, id) <= 1
            && H.Times(w.log, H.FinishedOf, id) <= H.Times(w.log, H.CapturedOf, id)
            && (AllDone(w.svc) && !w.section.Reserved? ==>
                 H.Times(w.log, H.FinishedOf, id) == H.Times(w.log, H.CapturedOf, id))
  {
    hide Run, After, Own, Accounted, Limited, SlotsClaimed, GrabApart, Budgeted;
    var h := Reached(moves);
    var w := After(GENESIS, moves);
    assert H.FinishedOnce(w, id);
    if AllDone(w.svc) && !w.section.Reserved? {
      DoneMeansAtRest(w.svc, w.section, h);
    }
  }

  /** A task calls the provider's CaptureStill at most once, a hard-grab task never. */
  lemma {:induction false} OnePhysicalCapture(moves: seq<Move>, id: TaskId)
    requires Run(GENESIS, moves)
    ensures var w := After(GENESIS, moves);
            && H.Times(w.log, H.ShutterOf, id) <= 1
            && (H.Times(w.log, H.HardGrabOf, id) > 0 ==> H.Times(w.log, H.ShutterOf, id) == 0)
  {
    hide Run, After, Own, Accounted, Limited, SlotsClaimed, GrabApart, Budgeted;
    var h := Reached(moves);
    assert H.ShotOnce(After(GENESIS, moves), id);
  }

  /** Accepted reservations of one device that were not rolled back are 1500 ms apart. */
  lemma {:induction false} RateLimited(moves: seq<Move>, j: nat, k: nat)
    requires Run(GENESIS, moves) && j < k < |After(GENESIS, moves).log|
    requires var log := After(GENESIS, moves).log;
             Stands(log, log[j]) && Stands(log, log[k]) && log[j].device == log[k].device
    ensures var log := After(GENESIS, moves).log; log[k].at - log[j].at >= 1500 * MS
  {
    hide Run, After, Own, Accounted, Covered, Erasable, SlotsClaimed, GrabApart, Budgeted;
    var h := Reached(moves);
  }

  /** The counters of a device are the tallies of its history, `pending` counts the rows that
      are captured and unfinished, and captured = processed + pending + processing failures. */
  lemma {:induction false} CountersConserved(moves: seq<Move>, c: ConnId, d: DeviceId)
    requires Run(GENESIS, moves)
    ensures var w := After(GENESIS, moves);
            Balanced(w.svc.summaries, w.svc.tasks, w.log, c, d)
  {
    hide Run, After, Own, Balanced, Limited, SlotsClaimed, GrabApart, Budgeted;
    var h := Reached(moves);
  }

  /** The `> 0` guard on the pending counter never stops a decrement. */
  lemma {:induction false} PendingNeverUnderflows(moves: seq<Move>, i: nat)
    requires Run(GENESIS, moves) && i < |After(GENESIS, moves).svc.workers|
    requires var k := After(GENESIS, moves).svc.workers[i]; k.SpawnFailed? || k.QueueFinishing?
    ensures var s := After(GENESIS, moves).svc;
            SummaryOf(s.summaries, s.workers[i].request.conn, s.workers[i].request.device).pending > 0
  {
    hide Run, After, Own, Limited, SlotsClaimed, GrabApart, Budgeted;
    var h := Reached(moves);
    var w := After(GENESIS, moves);
    var r, id := w.svc.workers[i].request, w.svc.workers[i].id;
    Held(w.svc, w.section, h, i, id);
    assert Balanced(w.svc.summaries, w.svc.tasks, w.log, r.conn, r.device);
    assert id in Pending(w.svc.tasks, r.conn, r.device);
  }

  /** After any run, the threads alone make at most `Measure` further moves, and when they can
      make none and no reservation is open, everything is at rest. */
  lemma {:induction false} Quiescence(moves: seq<Move>, work: seq<Move>)
    requires Run(GENESIS, moves) && Run(After(GENESIS, moves), work) && OnlyWork(work)
    ensures |work| <= Measure(After(GENESIS, moves).svc)
    ensures var w := After(After(GENESIS, moves), work);
            AllDone(w.svc) && !w.section.Reserved? ==> AtRest(w.svc)
  {
    hide Run, After, Own, Accounted, Limited, SlotsClaimed, GrabApart, Budgeted, Measure, AllDone, AtRest;
    hide H.InOrder, H.FinishedOnce, H.ShotOnce;
    var h := Reached(moves);
    var w := After(GENESIS, moves);
    WorkIsFinite(w, work, h);
    var h' := RunInv(w, work, h);
    var w' := After(w, work);
    if AllDone(w'.svc) && !w'.section.Reserved? {
      DoneMeansAtRest(w'.svc, w'.section, h');
    }
  }

  /** In every run there are never more than twice as many threads as capture threads. */
  lemma {:induction false} TwiceTheCaptureThreads(moves: seq<Move>)
    requires Run(GENESIS, moves)
    ensures var ws := After(GENESIS, moves).svc.workers; Budgeted(ws) && |ws| <= 2 * Total(ws, IsCapture)
  {
    hide Run, After, Own, Accounted, Limited, SlotsClaimed, GrabApart, Budgeted;
    hide H.InOrder, H.FinishedOnce, H.ShotOnce;
    var h := Reached(moves);
    AtMostTwice(After(GENESIS, moves).svc.workers);
  }

  /** A task id is in the active-worker set iff the task is started and not over; the two
      tables have the same keys. */
  lemma {:induction false} ActiveMeansStarted(moves: seq<Move>, id: TaskId)
    requires Run(GENESIS, moves)
    ensures var w := After(GENESIS, moves);
            && w.svc.tasks.Keys == w.svc.requests.Keys
            && (id in w.svc.activeWorkers <==>
                 id in w.svc.tasks && !Terminal(w.svc.tasks[id]) && w.section != Reserved(id))
  {
    hide Run, After, Accounted, Limited, SlotsClaimed, GrabApart, Budgeted, Owners, Queues, Servers;
    hide H.InOrder, H.FinishedOnce, H.ShotOnce;
    var h := Reached(moves);
    var s, sec := After(GENESIS, moves).svc, After(GENESIS, moves).section;
    if id in s.tasks {
      assert AtHome(s.tasks[id], id in h.owner, id in QueueOf(s.queues, s.tasks[id].device), id in s.activeWorkers,
               sec == Reserved(id));
    }
  }

  /** Membership in the slot set always means that some manual task is acquiring. */
  lemma {:induction false} SlotMeansManualAcquisition(moves: seq<Move>, d: DeviceId)
    requires Run(GENESIS, moves) && d in After(GENESIS, moves).svc.capturing
    ensures exists id :: id in After(GENESIS, moves).svc.tasks && Claims(After(GENESIS, moves).svc.tasks[id], d)
  {
    hide Run, After, Own, Accounted, Limited, GrabApart, Budgeted;
    hide H.InOrder, H.FinishedOnce, H.ShotOnce;
    var h := Reached(moves);
  }

  // ----- exactness of the slots over a run

  /** No move of the run lets a hard-grab give up a slot that a manual task holds. */
  ghost predicate NoSteal(w: World, moves: seq<Move>)
    requires Run(w, moves)
    decreases |moves|
  {
    moves == [] || (!Steals(w, moves[0]) && NoSteal(Next(w, moves[0]), moves[1..]))
  }

  /** The slots are exact in every state of the run. */
  ghost predicate AlwaysExact(w: World, moves: seq<Move>)
    requires Run(w, moves)
    decreases |moves|
  {
    Exact(w.svc) && (moves == [] || AlwaysExact(Next(w, moves[0]), moves[1..]))
  }

  lemma {:induction false} ExactFrom(w: World, moves: seq<Move>, h: Homes)
    requires Inv(w, h) && Run(w, moves) && Exact(w.svc)
    ensures AlwaysExact(w, moves) <==> NoSteal(w, moves)
    decreases |moves|
  {
    hide Inv, Next, Enabled, Exact, Steals;
    if moves != [] {
      var m := moves[0];
      var h' := MoveInv(w, m, h);
      NextExact(w, m, h);
      if !Steals(w, m) { ExactFrom(Next(w, m), moves[1..], h'); }
      else { NotExact(Next(w, m), moves[1..]); }
    }
  }

  lemma {:induction false} NotExact(w: World, moves: seq<Move>)
    requires Run(w, moves) && !Exact(w.svc)
    ensures !AlwaysExact(w, moves)
  {
    hide Exact, Run, Next;
  }

  lemma NextExact(w: World, m: Move, h: Homes)
    requires Inv(w, h) && Enabled(w, m) && Exact(w.svc)
    ensures Exact(Next(w, m).svc) <==> !Steals(w, m)
  {
    hide Own, Next, Accounted, Limited, SlotsClaimed, GrabApart, Budgeted, Exact, Steals;
    hide H.InOrder, H.FinishedOnce, H.ShotOnce;
    if m.DoWork? {
      if Steals(w, m) { StealBreaks(w, m.thread, m.choice, h); } else { HonestKeeps(w, m.thread, m.choice, h); }
    } else {
      NoDeskSteal(w, m);
      DeskExact(w, m, h);
    }
  }

  lemma NoDeskSteal(w: World, m: Move)
    requires !m.DoWork?
    ensures !Steals(w, m)
  {
  }

  /** The slot set is exactly the set of devices with a manual task in acquisition, one task
      each, throughout a run iff no hard-grab ends its acquisition on an occupied slot. */
  lemma {:induction false} SlotExclusion(moves: seq<Move>)
    requires Run(GENESIS, moves)
    ensures AlwaysExact(GENESIS, moves) <==> NoSteal(GENESIS, moves)
  {
    hide Inv, Run;
    GenesisInv();
    ExactFrom(GENESIS, moves, Homes(map[], map[]));
  }

  ghost predicate AllPolite(w: World, moves: seq<Move>)
    requires Run(w, moves)
    decreases |moves|
  {
    moves == [] || (Polite(w, moves[0]) && AllPolite(Next(w, moves[0]), moves[1..]))
  }

  lemma {:induction false} PoliteFrom(w: World, moves: seq<Move>, h: Homes)
    requires Own(w.svc, w.section, h) && GrabsFree(w.svc) && Run(w, moves) && AllPolite(w, moves)
    ensures NoSteal(w, moves)
    decreases |moves|
  {
    hide Own, Next, Enabled, GrabsFree, Polite, Steals;
    if moves != [] {
      FreeGrabsDoNotSteal(w, moves[0], h);
      MoveGrabsFree(w, moves[0], h);
      var h' := MoveKeeps(w, moves[0], h);
      PoliteFrom(Next(w, moves[0]), moves[1..], h');
    }
  }

  /** When no manual reservation is accepted while a hard-grab of the same device acquires, the
      slots are exact all along. */
  lemma {:induction false} PoliteRunsAreExact(moves: seq<Move>)
    requires Run(GENESIS, moves) && AllPolite(GENESIS, moves)
    ensures AlwaysExact(GENESIS, moves)
  {
    hide Run, AllPolite, NoSteal, AlwaysExact;
    GenesisInv();
    PoliteFrom(GENESIS, moves, Homes(map[], map[]));
    SlotExclusion(moves);
  }

  /** The assumption is needed: a hard-grab accepted at 0 is staged only after a manual
      reservation at 1500 ms; it gives up the manual task's slot, and a second manual task is
      accepted on the same device while the first is still acquiring. */
  lemma {:induction false} AHardGrabCanStealASlot(d: DeviceId) returns (moves: seq<Move>)
    requires d != NO_DEVICE
    ensures Run(GENESIS, moves)
    ensures var s := After(GENESIS, moves).svc;
            2 in s.tasks && 3 in s.tasks && Claims(s.tasks[2], d) && Claims(s.tasks[3], d)
  {
    var any := Choice(true, true, true, true, PipelineResult(OK, None));
    moves := BothAcquire(d);
    moves := Then(moves, DoWork(0, any));
    moves := Then(moves, DoWork(0, any));
    moves := Then(moves, DoWork(0, any));
    moves := Then(moves, DoReserve(Request(0, d, true, RawCapture(false, OK)), 2 * COOLDOWN));
  }

  /** A hard-grab and a manual capture of one device, both started. */
  lemma {:induction false} BothAcquire(d: DeviceId) returns (moves: seq<Move>)
    requires d != NO_DEVICE
    ensures Run(GENESIS, moves)
    ensures var w := After(GENESIS, moves);
            && w.section == Free && w.clock == COOLDOWN
            && w.svc.nextSeq == 3 && w.svc.cooldown == map[d := 2 * COOLDOWN] && w.svc.processing == {}
            && w.svc.workers == [CaptureBegin(1), CaptureBegin(2)] && w.svc.tasks.Keys == w.svc.requests.Keys == {1, 2}
            && w.svc.requests[1] == Request(0, d, true, RawCapture(true, OK)) && Claims(w.svc.tasks[2], d)
  {
    var grab, manual := Request(0, d, true, RawCapture(true, OK)), Request(0, d, true, RawCapture(false, OK));
    moves := [];
    moves := Then(moves, DoReserve(grab, 0));
    moves := Then(moves, DoStart(true));
    moves := Then(moves, DoReserve(manual, COOLDOWN));
    moves := Then(moves, DoStart(true));
  }

  lemma {:induction false} Then(moves: seq<Move>, m: Move) returns (more: seq<Move>)
    requires Run(GENESIS, moves) && Enabled(After(GENESIS, moves), m)
    ensures Run(GENESIS, more) && After(GENESIS, more) == Next(After(GENESIS, moves), m)
  {
    hide Next, Enabled;
    more := moves + [m];
    Extend(GENESIS, moves, m);
  }
}
