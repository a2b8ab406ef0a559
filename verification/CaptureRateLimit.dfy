/** The 1500 ms limit between accepted reservations of one device. */
module CaptureRateLimit {
  import opened CaptureModel
  import opened CaptureWorld
  import opened CaptureOwnership
  import opened CaptureEffects

  /** An accepted reservation that was not rolled back. */
  ghost predicate Stands(log: seq<Event>, e: Event) {
    e.Accepted? && RolledBack(e.id) !in log
  }

  /** Any two standing reservations of one device are at least one cooldown apart. */
  ghost predicate Spaced(log: seq<Event>) {
    forall j, k | 0 <= j < k < |log| ::
      Stands(log, log[j]) && Stands(log, log[k]) && log[j].device == log[k].device ==> log[k].at - log[j].at >= COOLDOWN
  }

  predicate Cold(e: Event, clock: int)
    requires e.Accepted?
  {
    clock >= e.at + COOLDOWN
  }

  /** A standing reservation that is still hot is covered by the cooldown table. */
  ghost predicate Covered(w: World) {
    forall e <- w.log | Stands(w.log, e) ::
      Cold(e, w.clock) || (e.device in w.svc.cooldown && w.svc.cooldown[e.device] >= e.at + COOLDOWN)
  }

  /** While a reservation is open, every other standing one of its device is cold, so erasing
      the cooldown entry forgets nothing. */
  ghost predicate Erasable(w: World) {
    w.section.Reserved? && w.section.id in w.svc.tasks ==>
      forall e <- w.log | Stands(w.log, e) ::
        e.id != w.section.id && e.device == w.svc.tasks[w.section.id].device ==> Cold(e, w.clock)
  }

  ghost predicate Limited(w: World) {
    Spaced(w.log) && Covered(w) && Erasable(w)
  }

  /** Events of other kinds do not matter. */
  lemma SpacedMore(log: seq<Event>, e: seq<Event>)
    requires Spaced(log) && forall x <- e :: !x.Accepted?
    ensures Spaced(log + e)
    ensures forall x | Stands(log + e, x) && x in log + e :: Stands(log, x) && x in log
  {
    forall j, k | 0 <= j < k < |log + e| && Stands(log + e, (log + e)[j]) && Stands(log + e, (log + e)[k])
                  && (log + e)[j].device == (log + e)[k].device
      ensures (log + e)[k].at - (log + e)[j].at >= COOLDOWN
    {
      assert (log + e)[k] in log + e;
      assert forall n | 0 <= n < |e| :: e[n] in e && !e[n].Accepted?;
      assert Stands(log, log[j]) && Stands(log, log[k]);
    }
    forall x | Stands(log + e, x) && x in log + e
      ensures Stands(log, x) && x in log
    {
      assert x !in e;
    }
  }

  lemma StepLimited(w: World, i: nat, c: Choice, h: Homes)
    requires Own(w.svc, w.section, h) && Enabled(w, DoWork(i, c)) && Limited(w)
    ensures Limited(Next(w, DoWork(i, c)))
  {
    hide Own, Next, Step, Observed, Spaced;
    WorkMove(w, i, c);
    StepKeepsCooldown(w.svc, i, c);
    RowMoves(w.svc, w.section, h, i, c);
    SpacedMore(w.log, Observed(w.svc, i, c));
  }

  lemma ReserveLimited(w: World, r: Request, now: int, h: Homes)
    requires Own(w.svc, w.section, h) && Enabled(w, DoReserve(r, now)) && Limited(w)
    ensures Limited(Next(w, DoReserve(r, now)))
  {
    hide Own;
    var w' := Next(w, DoReserve(r, now));
    if Reserve(w.svc, r, now).1.accepted {
      var n := |w.log|;
      assert w'.log[n].Accepted? && w'.log == w.log + [w'.log[n]];
      assert forall x :: RolledBack(x) in w'.log ==> RolledBack(x) in w.log;
      forall e | e in w.log && Stands(w'.log, e) && e.device == r.device
        ensures Cold(e, now)
      {
        assert Stands(w.log, e);
      }
    }
  }

  lemma EraseLimited(w: World, w': World, id: TaskId)
    requires Limited(w) && w.section == Reserved(id) && id in w.svc.tasks
    requires w'.log == w.log + [RolledBack(id)] && w'.clock == w.clock && w'.section == Free
    requires w'.svc.cooldown == w.svc.cooldown - {w.svc.tasks[id].device}
    ensures Limited(w')
  {
    SpacedMore(w.log, [RolledBack(id)]);
    forall e | e in w'.log && Stands(w'.log, e)
      ensures Cold(e, w'.clock) || (e.device in w'.svc.cooldown && w'.svc.cooldown[e.device] >= e.at + COOLDOWN)
    {
      assert Stands(w.log, e) && e in w.log;
      assert RolledBack(id) in w'.log;
    }
  }

  lemma MoveLimited(w: World, m: Move, h: Homes)
    requires Own(w.svc, w.section, h) && Enabled(w, m) && Limited(w)
    ensures Limited(Next(w, m))
  {
    hide Own, Limited;
    match m
    case DoReserve(r, now) => ReserveLimited(w, r, now, h);
    case DoStart(ok) =>
      ReservedTask(w.svc, h, w.section.id);
      if ok { FreeLimited(w, Next(w, m)); } else { EraseLimited(w, Next(w, m), w.section.id); }
    case DoAbort =>
      ReservedTask(w.svc, h, w.section.id);
      EraseLimited(w, Next(w, m), w.section.id);
    case DoWork(i, c) => StepLimited(w, i, c, h);
    case _ => FreeLimited(w, Next(w, m));
  }

  lemma FreeLimited(w: World, w': World)
    requires Limited(w) && w'.log == w.log && w'.clock == w.clock && w'.svc.cooldown == w.svc.cooldown
               && !w'.section.Reserved?
    ensures Limited(w')
  {
  }
}
