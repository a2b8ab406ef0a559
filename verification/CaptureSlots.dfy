/** Who occupies a device's acquisition slot. */
module CaptureSlots {
  import opened CaptureModel
  import opened CaptureWorld
  import opened CaptureOwnership
  import opened CaptureEffects

  /** A manual task that has a claim on its device's slot. */
  predicate Claims(t: Task, d: DeviceId) {
    t.source == Manual && t.device == d && (Waiting(t) || Acquiring(t))
  }

  /** Every occupied slot is claimed by some manual task. */
  ghost predicate SlotsClaimed(s: State) {
    forall d <- s.capturing :: exists id :: id in s.tasks && Claims(s.tasks[id], d)
  }

  /** The slots are exactly the devices with a claim, and no device has two. */
  ghost predicate Exact(s: State) {
    && (forall id <- s.tasks, d :: Claims(s.tasks[id], d) ==> d in s.capturing)
    && (forall x <- s.tasks, y <- s.tasks, d :: Claims(s.tasks[x], d) && Claims(s.tasks[y], d) ==> x == y)
  }

  /** A hard-grab's acquisition ends on a device whose slot a manual task occupies. */
  predicate Steals(w: World, m: Move) {
    && m.DoWork? && m.thread < |w.svc.workers|
    && (w.svc.workers[m.thread].CaptureFailing? || w.svc.workers[m.thread].CaptureCommit?)
    && w.svc.workers[m.thread].id in w.svc.tasks
    && w.svc.tasks[w.svc.workers[m.thread].id].source == HardGrab
    && w.svc.workers[m.thread].request.device in w.svc.capturing
  }

  lemma StepSlotsClaimed(w: World, i: nat, c: Choice, h: Homes)
    requires Own(w.svc, w.section, h) && Enabled(w, DoWork(i, c)) && SlotsClaimed(w.svc)
    ensures SlotsClaimed(Next(w, DoWork(i, c)).svc)
  {
    hide Own, Next, Step, Observed;
    var s, s' := w.svc, Step(w.svc, i, c);
    WorkMove(w, i, c);
    RowMoves(s, w.section, h, i, c);
    StepSlots(s, w.section, h, i, c);
    forall d | d in s'.capturing
      ensures exists id :: id in s'.tasks && Claims(s'.tasks[id], d)
    {
      var id :| id in s.tasks && Claims(s.tasks[id], d);
      assert id in s'.tasks && Claims(s'.tasks[id], d);
    }
  }

  lemma MoveSlotsClaimed(w: World, m: Move, h: Homes)
    requires Own(w.svc, w.section, h) && Enabled(w, m) && SlotsClaimed(w.svc)
    ensures SlotsClaimed(Next(w, m).svc)
  {
    if m.DoWork? {
      StepSlotsClaimed(w, m.thread, m.choice, h);
    } else {
      DeskSlotsClaimed(w, m, h);
    }
  }

  lemma DeskSlotsClaimed(w: World, m: Move, h: Homes)
    requires Own(w.svc, w.section, h) && Enabled(w, m) && !m.DoWork? && SlotsClaimed(w.svc)
    ensures SlotsClaimed(Next(w, m).svc)
  {
    hide Own, Next;
    var s, s' := w.svc, Next(w, m).svc;
    DeskRows(w, m, h);
    DeskSlots(w, m, h);
    forall d | d in s'.capturing
      ensures exists id :: id in s'.tasks && Claims(s'.tasks[id], d)
    {
      if d in s.capturing {
        var id :| id in s.tasks && Claims(s.tasks[id], d);
        assert id in s'.tasks && Claims(s'.tasks[id], d);
      } else {
        assert Claims(s'.tasks[s.nextSeq], d);
      }
    }
  }

  /** Reservations take slots, roll-backs return them. */
  lemma DeskSlots(w: World, m: Move, h: Homes)
    requires Own(w.svc, w.section, h) && Enabled(w, m) && !m.DoWork?
    ensures var s, s' := w.svc, Next(w, m).svc;
            match m
            case DoReserve(r, now) =>
              if Reserve(s, r, now).1.accepted then
                r.device !in s.capturing && s'.capturing == if r.raw.captured then s.capturing
                    else s.capturing + {r.device}
              else s'.capturing == s.capturing
            case DoStart(ok) =>
              w.section.id in s.tasks && s'.capturing == if ok then s.capturing
                  else s.capturing - {s.tasks[w.section.id].device}
            case DoAbort => w.section.id in s.tasks && s'.capturing == s.capturing - {s.tasks[w.section.id].device}
            case _ => s'.capturing == s.capturing
  {
    hide Own;
    if w.section.Reserved? { ReservedTask(w.svc, h, w.section.id); }
  }

  /** A reserved hard-grab never shares its device with an occupied slot. */
  ghost predicate GrabApart(w: World) {
    w.section.Reserved? && w.section.id in w.svc.tasks && w.svc.tasks[w.section.id].source == HardGrab ==>
      w.svc.tasks[w.section.id].device !in w.svc.capturing
  }

  lemma MoveGrabApart(w: World, m: Move, h: Homes)
    requires Own(w.svc, w.section, h) && Enabled(w, m) && GrabApart(w)
    ensures GrabApart(Next(w, m))
  {
    hide Own;
    if m.DoWork? {
      hide Step, Observed;
      WorkMove(w, m.thread, m.choice);
      RowMoves(w.svc, w.section, h, m.thread, m.choice);
      StepSlots(w.svc, w.section, h, m.thread, m.choice);
    }
  }

  lemma StealBreaks(w: World, i: nat, c: Choice, h: Homes)
    requires Own(w.svc, w.section, h) && Enabled(w, DoWork(i, c)) && SlotsClaimed(w.svc) && Steals(w, DoWork(i, c))
    ensures !Exact(Next(w, DoWork(i, c)).svc)
  {
    hide Own, Next, Step, Observed;
    var s, s' := w.svc, Step(w.svc, i, c);
    WorkMove(w, i, c);
    RowMoves(s, w.section, h, i, c);
    StepSlots(s, w.section, h, i, c);
    var d := s.workers[i].request.device;
    var id :| id in s.tasks && Claims(s.tasks[id], d);
    assert id in s'.tasks && Claims(s'.tasks[id], d) && d !in s'.capturing;
  }

  lemma HonestKeeps(w: World, i: nat, c: Choice, h: Homes)
    requires Own(w.svc, w.section, h) && Enabled(w, DoWork(i, c)) && Exact(w.svc) && !Steals(w, DoWork(i, c))
    ensures Exact(Next(w, DoWork(i, c)).svc)
  {
    hide Own, Next, Step, Observed;
    var s, s' := w.svc, Step(w.svc, i, c);
    WorkMove(w, i, c);
    RowMoves(s, w.section, h, i, c);
    StepSlots(s, w.section, h, i, c);
    assert forall id <- s'.tasks, d :: Claims(s'.tasks[id], d) ==> id in s.tasks && Claims(s.tasks[id], d);
  }

  lemma DeskExact(w: World, m: Move, h: Homes)
    requires Own(w.svc, w.section, h) && Enabled(w, m) && !m.DoWork? && Exact(w.svc) && GrabApart(w)
    ensures Exact(Next(w, m).svc)
  {
    hide Own, Next;
    DeskRows(w, m, h);
    DeskSlots(w, m, h);
  }

  // ----- runs in which manual and hard-grab acquisitions of a device do not overlap

  predicate Grabs(t: Task, d: DeviceId) {
    t.source == HardGrab && t.device == d && (Waiting(t) || Acquiring(t))
  }

  /** No hard-grab is acquiring on a device whose slot is occupied. */
  ghost predicate GrabsFree(s: State) {
    forall id <- s.tasks, d :: Grabs(s.tasks[id], d) ==> d !in s.capturing
  }

  /** The move does not accept a manual reservation while a hard-grab acquires on its device. */
  ghost predicate Polite(w: World, m: Move) {
    m.DoReserve? && !m.request.raw.captured && Reserve(w.svc, m.request, m.now).1.accepted ==>
      forall id <- w.svc.tasks :: !Grabs(w.svc.tasks[id], m.request.device)
  }

  lemma MoveGrabsFree(w: World, m: Move, h: Homes)
    requires Own(w.svc, w.section, h) && Enabled(w, m) && GrabsFree(w.svc) && Polite(w, m)
    ensures GrabsFree(Next(w, m).svc)
  {
    hide Own, Next;
    if m.DoWork? {
      hide Step, Observed;
      WorkMove(w, m.thread, m.choice);
      RowMoves(w.svc, w.section, h, m.thread, m.choice);
      StepSlots(w.svc, w.section, h, m.thread, m.choice);
    } else {
      hide Reserve;
      DeskRows(w, m, h);
      DeskSlots(w, m, h);
    }
  }

  lemma FreeGrabsDoNotSteal(w: World, m: Move, h: Homes)
    requires Own(w.svc, w.section, h) && Enabled(w, m) && GrabsFree(w.svc)
    ensures !Steals(w, m)
  {
    hide Own;
    if m.DoWork? && (w.svc.workers[m.thread].CaptureFailing? || w.svc.workers[m.thread].CaptureCommit?) {
      Held(w.svc, w.section, h, m.thread, w.svc.workers[m.thread].id);
    }
  }
}
