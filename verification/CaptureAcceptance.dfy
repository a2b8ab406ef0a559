/** When a reservation is accepted, and what each refusal means: by the fields, and over runs by
    the tasks and the history alone. */
module CaptureAcceptance {
  import opened Wrappers
  import opened CaptureModel
  import opened CaptureWorld
  import opened CaptureOwnership
  import opened CaptureEffects
  import opened CaptureRateLimit
  import opened CaptureSlots
  import R = CaptureRuns

  /** By the fields: only the slot and the cooldown of the requested device matter. */
  lemma AcceptedIff(s: State, r: Request, now: int)
    ensures var x := Reserve(s, r, now).1;
            var named := r.device != 0 && r.profileOk;
            var free := r.device !in s.capturing;
            var cold := r.device in s.cooldown ==> s.cooldown[r.device] <= now;
            && (x.accepted <==> named && free && cold)
            && (x.code == 0 <==> named && free && cold)
            && (x.code == 1002 <==> !named)
            && (x.code == 1201 <==> named && !free)
            && (x.code == 1004 <==> named && free && !cold)
            && (x.task.Some? <==> x.accepted) && (x.accepted ==> x.task.value == s.nextSeq)
            && (x.retryAfterMs > 0 <==> x.code == 1004)
  {
  }

  /** What an accepted reservation adds: a waiting row and its request, the slot for a manual task
      only, and a cooldown of 1500 ms from now. */
  lemma AcceptedAdds(s: State, r: Request, now: int)
    requires Reserve(s, r, now).1.accepted
    ensures var s', id := Reserve(s, r, now).0, s.nextSeq;
            && id in s'.tasks && Waiting(s'.tasks[id]) && s'.tasks[id].device == r.device && s'.tasks[id].conn == r.conn
            && (s'.tasks[id].source == Manual <==> !r.raw.captured)
            && id in s'.requests && s'.requests[id] == r
            && (forall d :: d in s'.capturing <==> d in s.capturing || (d == r.device && !r.raw.captured))
            && r.device in s'.cooldown && s'.cooldown[r.device] == now + 1_500_000_000
            && (forall d | d != r.device :: d in s'.cooldown <==> d in s.cooldown)
            && (forall d | d != r.device && d in s.cooldown :: s'.cooldown[d] == s.cooldown[d])
            && s'.nextSeq == id + 1
  {
  }

  /** Two states that agree on the slot and the cooldown of the device give the same answer. */
  lemma OnlyOwnDeviceMatters(s: State, t: State, r: Request, now: int)
    requires r.device in s.capturing <==> r.device in t.capturing
    requires r.device in s.cooldown <==> r.device in t.cooldown
    requires r.device in s.cooldown ==> s.cooldown[r.device] == t.cooldown[r.device]
    ensures var x, y := Reserve(s, r, now).1, Reserve(t, r, now).1;
            x.accepted == y.accepted && x.code == y.code && x.retryAfterMs == y.retryAfterMs
  {
  }

  // ----- the cooldown table against the history

  /** Acceptances are of known numbers and name the device of their task. */
  ghost predicate Recorded(w: World) {
    forall e <- w.log | e.Accepted? ::
      e.id < w.svc.nextSeq && (e.id in w.svc.tasks ==> w.svc.tasks[e.id].device == e.device)
  }

  /** Every cooldown entry is that of a standing reservation. */
  ghost predicate Explained(w: World) {
    forall d <- w.svc.cooldown :: exists e :: e in w.log && Explains(w.log, e, d, w.svc.cooldown[d])
  }

  ghost predicate Explains(log: seq<Event>, e: Event, d: DeviceId, until: int) {
    Stands(log, e) && e.device == d && until == e.at + COOLDOWN
  }

  lemma StillExplained(w: World, w': World, e: seq<Event>)
    requires Explained(w) && w'.log == w.log + e
    requires forall x | x in e && x.RolledBack? ::
               forall y <- w.log | y.Accepted? && y.id == x.id :: y.device !in w'.svc.cooldown
    requires forall d <- w'.svc.cooldown :: d in w.svc.cooldown && w'.svc.cooldown[d] == w.svc.cooldown[d]
    ensures Explained(w')
  {
    forall d | d in w'.svc.cooldown
      ensures exists x :: x in w'.log && Explains(w'.log, x, d, w'.svc.cooldown[d])
    {
      var x :| x in w.log && Explains(w.log, x, d, w.svc.cooldown[d]);
      assert x in w'.log && Explains(w'.log, x, d, w'.svc.cooldown[d]);
    }
  }

  ghost predicate Accounted(w: World) {
    Recorded(w) && Explained(w)
  }

  lemma StepAccounts(w: World, i: nat, c: Choice, h: Homes)
    requires Own(w.svc, w.section, h) && Enabled(w, DoWork(i, c)) && Accounted(w)
    ensures Accounted(Next(w, DoWork(i, c)))
  {
    hide Own, Next, Step, Observed, Reflects, Explained;
    var e, w' := Observed(w.svc, i, c), Next(w, DoWork(i, c));
    WorkMove(w, i, c);
    StepKeepsCooldown(w.svc, i, c);
    RowMoves(w.svc, w.section, h, i, c);
    assert forall x | x in e :: !x.Accepted? && !x.RolledBack?;
    StillExplained(w, w', e);
  }

  lemma ReserveAccounts(w: World, r: Request, now: int, h: Homes)
    requires Own(w.svc, w.section, h) && Enabled(w, DoReserve(r, now)) && Accounted(w)
    requires forall id: TaskId | RolledBack(id) in w.log :: id < w.svc.nextSeq
    ensures Accounted(Next(w, DoReserve(r, now)))
  {
    hide Own;
    var w' := Next(w, DoReserve(r, now));
    if Reserve(w.svc, r, now).1.accepted {
      NotYetKnown(w.svc, h, w.svc.nextSeq);
      var a := Accepted(w.svc.nextSeq, r.device, NewTask(r).source, now);
      assert w'.log == w.log + [a] && a in w'.log;
      forall d | d in w'.svc.cooldown
        ensures exists x :: x in w'.log && Explains(w'.log, x, d, w'.svc.cooldown[d])
      {
        if d == r.device {
          assert Explains(w'.log, a, d, w'.svc.cooldown[d]);
        } else {
          var x :| x in w.log && Explains(w.log, x, d, w.svc.cooldown[d]);
          assert x in w'.log && Explains(w'.log, x, d, w'.svc.cooldown[d]);
        }
      }
    } else {
      StillExplained(w, w', []);
    }
  }

  /** Rollbacks are of known numbers. */
  ghost predicate KnownBack(w: World) {
    forall id: TaskId | RolledBack(id) in w.log :: id < w.svc.nextSeq
  }

  lemma MoveAccounts(w: World, m: Move, h: Homes)
    requires Own(w.svc, w.section, h) && Enabled(w, m) && Accounted(w) && KnownBack(w)
    ensures Accounted(Next(w, m)) && KnownBack(Next(w, m))
  {
    hide Own, Explained, Reflects, Step, Observed;
    match m
    case DoReserve(r, now) => ReserveAccounts(w, r, now, h);
    case DoStart(ok) =>
      ReservedTask(w.svc, h, w.section.id);
      Known(w.svc, w.section, h, w.section.id);
      StillExplained(w, Next(w, m), if ok then [] else [RolledBack(w.section.id)]);
    case DoAbort =>
      ReservedTask(w.svc, h, w.section.id);
      Known(w.svc, w.section, h, w.section.id);
      StillExplained(w, Next(w, m), [RolledBack(w.section.id)]);
    case DoWork(i, c) =>
      StepAccounts(w, i, c, h);
      StepKnowsBack(w, i, c, h);
    case _ => StillExplained(w, Next(w, m), []);
  }

  lemma StepKnowsBack(w: World, i: nat, c: Choice, h: Homes)
    requires Own(w.svc, w.section, h) && Enabled(w, DoWork(i, c)) && KnownBack(w)
    ensures KnownBack(Next(w, DoWork(i, c)))
  {
    hide Own, Next, Step, Observed, Reflects;
    WorkMove(w, i, c);
    RowMoves(w.svc, w.section, h, i, c);
  }

  lemma {:induction false} RunAccounts(w: World, moves: seq<Move>, h: Homes)
    requires Own(w.svc, w.section, h) && Run(w, moves) && Accounted(w) && KnownBack(w)
    ensures Accounted(After(w, moves))
    decreases |moves|
  {
    hide Own, Next, Accounted, KnownBack, Enabled;
    if moves != [] {
      MoveAccounts(w, moves[0], h);
      var h' := MoveKeeps(w, moves[0], h);
      RunAccounts(Next(w, moves[0]), moves[1..], h');
    }
  }

  // ----- over runs

  /** A standing reservation of the device is less than 1500 ms old. */
  ghost predicate Hot(log: seq<Event>, d: DeviceId, now: int) {
    exists e :: e in log && Stands(log, e) && e.device == d && now < e.at + 1_500_000_000
  }

  /** Some manual task of the device is queued for or in acquisition. */
  ghost predicate Acquires(s: State, d: DeviceId) {
    exists id :: id in s.tasks && Claims(s.tasks[id], d)
  }

  /** After any run the table limits a device iff it has a hot standing reservation. */
  lemma {:induction false} LimitedIffHot(moves: seq<Move>, d: DeviceId, now: int)
    requires Run(GENESIS, moves) && now >= After(GENESIS, moves).clock
    ensures var w := After(GENESIS, moves);
            (d in w.svc.cooldown && now < w.svc.cooldown[d]) <==> Hot(w.log, d, now)
  {
    hide Run, After, Own;
    var h := R.Reached(moves);
    OwnGenesis();
    RunAccounts(GENESIS, moves, Homes(map[], map[]));
    var w := After(GENESIS, moves);
    if d in w.svc.cooldown && now < w.svc.cooldown[d] {
      var e :| e in w.log && Explains(w.log, e, d, w.svc.cooldown[d]);
      assert e in w.log && Stands(w.log, e) && e.device == d && now < e.at + 1_500_000_000;
    }
  }

  lemma OwnGenesis()
    ensures Own(GENESIS.svc, GENESIS.section, Homes(map[], map[])) && Accounted(GENESIS) && KnownBack(GENESIS)
  {
  }

  /** With exact slots a device is busy iff one of its own manual tasks acquires. */
  lemma BusyIffAcquires(s: State, d: DeviceId)
    requires Exact(s) && SlotsClaimed(s)
    ensures d in s.capturing <==> Acquires(s, d)
  {
  }

  /** At the end of any run with exact slots, a request is accepted iff it names a device and a
      known profile, no manual task of that device acquires, and no standing reservation of that
      device is less than 1500 ms old; and each refusal has its code. */
  lemma {:induction false} AcceptedOverRuns(moves: seq<Move>, r: Request, now: int)
    requires Run(GENESIS, moves) && now >= After(GENESIS, moves).clock && Exact(After(GENESIS, moves).svc)
    ensures var w := After(GENESIS, moves);
            var x := Reserve(w.svc, r, now).1;
            var named := r.device != 0 && r.profileOk;
            && (x.accepted <==> named && !Acquires(w.svc, r.device) && !Hot(w.log, r.device, now))
            && (x.code == 1002 <==> !named)
            && (x.code == 1201 <==> named && Acquires(w.svc, r.device))
            && (x.code == 1004 <==> named && !Acquires(w.svc, r.device) && Hot(w.log, r.device, now))
  {
    hide Run, After, Own, Exact, SlotsClaimed, Hot, Acquires, Reserve;
    var h := R.Reached(moves);
    var w := After(GENESIS, moves);
    LimitedIffHot(moves, r.device, now);
    BusyIffAcquires(w.svc, r.device);
    AcceptedIff(w.svc, r, now);
  }

  // ----- what a shot and its staging decide

  /** The capture thread goes on to the captured commit iff its image is there and staged: a
      hard-grab's image with its own code, a manual one if the directory and the provider are
      good; otherwise it fails the task. */
  lemma CommitsIff(s: State, i: nat, c: Choice)
    requires i < |s.workers| && s.workers[i].CaptureAction?
    ensures |Step(s, i, c).workers| == |s.workers|
    ensures var k, k' := s.workers[i], Step(s, i, c).workers[i];
            var there := if k.request.raw.captured then k.request.raw.code == 0 else c.rawDirReady && c.providerOk;
            && (k'.CaptureCommit? <==> there && c.staged)
            && (k'.CaptureCommit? ==> k'.raw.captured && k'.raw.code == 0)
            && (k'.CaptureFailing? <==> !(there && c.staged))
            && k'.id == k.id && k'.request == k.request
            && (Observed(s, i, c) == [Shutter(k.id)] <==> !k.request.raw.captured && c.rawDirReady)
  {
  }
}
