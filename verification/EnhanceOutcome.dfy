/** How every enhancement task ends, from its steps to its quota: which of the three final states it
    reaches, and for which reason, as a matter of what the providers answered. */
module EnhanceOutcome {
  import opened EnhanceModel
  import opened EnhanceRuns
  import opened EnhanceUsage
  import S = EnhanceService

  predicate OnlySteps(log: seq<Event>) {
    forall e <- log :: e.StepStarted? || e.StepEnded?
  }

  /** A request for quota was refused, or there was no one to ask. */
  predicate Refusal(e: Event) {
    e.NoAuth? || (e.Asked? && e.code != 0)
  }

  predicate Refused(log: seq<Event>) {
    exists e <- log :: Refusal(e)
  }

  /** The document was not made, or no image was written. */
  predicate Unwritten(e: Event, r: Request) {
    e.Back? && !GoodOutput(e.output, r)
  }

  predicate BadOutput(log: seq<Event>, r: Request) {
    exists e <- log :: Unwritten(e, r)
  }

  /** Every enabled step has returned exactly once, in order. */
  predicate AllStepsRan(log: seq<Event>, r: Request) {
    Ended(log) == EnabledBelow(r.steps, |r.steps|)
  }

  /** A cancelled task was asked to stop and no step went wrong before.  Any other task ran every
      enabled step unless one went wrong, and failed iff one went wrong, no page was left, the
      outputs could not be made, or quota was refused. */
  predicate EndsAs(s: Story) {
    var status, log, r := s.job.row.status, s.log, s.job.request;
    && status in {Cancelled, Failed, Completed}
    && (status == Cancelled ==> s.job.flagged && !SomeBad(log, r) && OnlySteps(log))
    && (status != Cancelled ==>
          && (!SomeBad(log, r) ==> AllStepsRan(log, r))
          && (status == Failed <==>
                SomeBad(log, r) || PagesAfter(log, r) == 0 || BadOutput(log, r) || Refused(log)))
  }

  /** On the way there. */
  predicate Fate(s: Story) {
    var j, log, r := s.job, s.log, s.job.request;
    match j.pc
    case Converting(pages, _) => !SomeBad(log, r) && OnlySteps(log)
    case Produced(pages, _, output) =>
      && !SomeBad(log, r) && !Refused(log) && AllStepsRan(log, r) && pages == PagesAfter(log, r)
      && (pages > 0 ==> (BadOutput(log, r) <==> !GoodOutput(output, r)))
    case Settling(final, _, _) =>
      && !SomeBad(log, r) && !Refused(log) && !BadOutput(log, r) && AllStepsRan(log, r)
      && PagesAfter(log, r) > 0 && final.status == Completed
    case Settled(final) =>
      && !SomeBad(log, r) && !BadOutput(log, r) && AllStepsRan(log, r) && PagesAfter(log, r) > 0
      && final.status == (if Refused(log) then Failed else Completed)
    case Threw => SomeBad(log, r)
    case Leaving => EndsAs(s)
    case Gone => EndsAs(s)
    case _ => NoneBadYet(s) && OnlySteps(log)
  }

  lemma More(log: seq<Event>, e: Event, r: Request)
    ensures SomeBad(log + [e], r) <==> SomeBad(log, r) || IsBad(e, r)
    ensures Refused(log + [e]) <==> Refused(log) || Refusal(e)
    ensures BadOutput(log + [e], r) <==> BadOutput(log, r) || Unwritten(e, r)
    ensures OnlySteps(log + [e]) <==> OnlySteps(log) && (e.StepStarted? || e.StepEnded?)
  {
    hide IsBad, Refusal, Unwritten;
    assert e in log + [e];
    assert forall x <- log :: x in log + [e];
    assert forall x <- log + [e] :: x in log || x == e;
  }

  lemma OnlyStepsIsClean(log: seq<Event>, r: Request)
    requires OnlySteps(log)
    ensures !Refused(log) && !BadOutput(log, r)
  {
  }

  lemma SteppingKeepsFate(s: Story, c: Choice)
    requires WellFormed(s.job) && Stepping(s.job.pc) && Books(s) && Fate(s)
    ensures Fate(Turn(s, WorkMove(c)))
  {
    hide Progress, Charged, AddUsage, KeysInOrder, SomeBad, Refused, BadOutput, OnlySteps, AllStepsRan, PagesAfter,
        Fits, DoSettling, DoProduced, Owes, Earned;
    var e := Says(s.job, c);
    OnlyStepsIsClean(s.log, s.job.request);
    if e == [] { assert s.log + [] == s.log; } else { More(s.log, e[0], s.job.request); assert [e[0]] == e; }
  }

  lemma ConvertingKeepsFate(s: Story, c: Choice)
    requires WellFormed(s.job) && s.job.pc.Converting? && Books(s) && Fate(s)
    ensures Fate(Turn(s, WorkMove(c)))
  {
    hide Progress, Charged, AddUsage, KeysInOrder, SomeBad, Refused, BadOutput, OnlySteps, PagesAfter, Fits, DoLoop,
        DoStepDone, DoBegin, Owes, Earned, EnabledBelow, Ended, AskedFor, RefusedWith, Written, AllGood, Shows, Units,
        DoProduced, DoSettling;
    var e := Says(s.job, c);
    OnlyStepsAre(s);
    if e == [] {
      assert s.log + [] == s.log;
    } else {
      More(s.log, e[0], s.job.request);
      OneMore(s.log, e[0], s.job.request);
      assert [e[0]] == e;
    }
  }

  lemma ProducedKeepsFate(s: Story, c: Choice)
    requires WellFormed(s.job) && s.job.pc.Produced? && Books(s) && Fate(s)
    ensures Fate(Turn(s, WorkMove(c)))
  {
    hide Progress, Charged, AddUsage, KeysInOrder, SomeBad, Refused, BadOutput, OnlySteps, PagesAfter, Fits, DoLoop,
        DoStepDone, DoBegin, Owes, Earned, EnabledBelow, Ended, AskedFor, RefusedWith, Written, AllGood, Shows, Units,
        DoSettling, Open;
    OnlyStepsAre(s);
    assert s.log + [] == s.log;
  }

  lemma SettlingKeepsFate(s: Story, c: Choice)
    requires WellFormed(s.job) && s.job.pc.Settling? && Books(s) && Fate(s)
    ensures Fate(Turn(s, WorkMove(c)))
  {
    hide Progress, Charged, AddUsage, KeysInOrder, SomeBad, Refused, BadOutput, OnlySteps, PagesAfter, Fits, DoLoop,
        DoStepDone, DoBegin, Owes, Earned, EnabledBelow, Ended, AskedFor, RefusedWith, Written, AllGood, Shows, Units,
        DoProduced, Open;
    var e := Says(s.job, c);
    if e == [] {
      assert s.log + [] == s.log;
    } else {
      More(s.log, e[0], s.job.request);
      OneMore(s.log, e[0], s.job.request);
      assert [e[0]] == e;
    }
  }

  lemma FinishingKeepsFate(s: Story, c: Choice)
    requires WellFormed(s.job) && !Stepping(s.job.pc) && !s.job.pc.Gone? && Books(s) && Fate(s)
    ensures Fate(Turn(s, WorkMove(c)))
  {
    if s.job.pc.Converting? { ConvertingKeepsFate(s, c); }
    else if s.job.pc.Produced? { ProducedKeepsFate(s, c); }
    else if s.job.pc.Settling? { SettlingKeepsFate(s, c); }
    else { LastKeepsFate(s, c); }
  }

  lemma LastKeepsFate(s: Story, c: Choice)
    requires WellFormed(s.job) && (s.job.pc.Settled? || s.job.pc.Threw? || s.job.pc.Leaving?) && Fate(s)
    ensures Fate(Turn(s, WorkMove(c)))
  {
    hide SomeBad, Refused, BadOutput, OnlySteps, AllStepsRan, PagesAfter, NoneBadYet;
    assert s.log + [] == s.log;
  }

  lemma OnlyStepsAre(s: Story)
    ensures OnlySteps(s.log) ==> !Refused(s.log) && !BadOutput(s.log, s.job.request)
  {
  }

  lemma TurnKeepsFate(s: Story, m: Move)
    requires Can(s, m) && Books(s) && Fate(s)
    ensures Fate(Turn(s, m))
  {
    if m.WorkMove? {
      hide Books, Fate;
      if Stepping(s.job.pc) { SteppingKeepsFate(s, m.choice); } else { FinishingKeepsFate(s, m.choice); }
    } else {
      hide SomeBad, Refused, BadOutput, OnlySteps, AllStepsRan, PagesAfter, Books;
    }
  }

  lemma {:induction false} RunKeepsFate(s: Story, moves: seq<Move>)
    requires Run(s, moves) && Books(s) && AllJustified(s.log, s.job.request) && Fate(s)
    ensures Fate(After(s, moves))
    decreases |moves|
  {
    hide Books, AllJustified, Fate, Turn, Can;
    if moves != [] {
      TurnKeepsBooks(s, moves[0]);
      TurnKeepsFate(s, moves[0]);
      RunKeepsFate(Turn(s, moves[0]), moves[1..]);
    }
  }

  /** How every task ends, in every run with cancels anywhere. */
  lemma {:induction false} EndedHow(r: Request, moves: seq<Move>)
    requires Run(Fresh(r), moves) && After(Fresh(r), moves).job.pc.Gone?
    ensures EndsAs(After(Fresh(r), moves)) && After(Fresh(r), moves).job.request == r
  {
    hide Run, After, Books, EndsAs;
    FreshBooks(r);
    RunKeepsBooks(Fresh(r), moves);
    RunKeepsFate(Fresh(r), moves);
  }

  /** A task that nobody asked to stop completes iff no step went wrong, pages were left, the
      outputs could be made and no quota was refused; it fails otherwise. */
  lemma {:induction false} UndisturbedCompletesIff(r: Request, moves: seq<Move>)
    requires Run(Fresh(r), moves) && After(Fresh(r), moves).job.pc.Gone? && !After(Fresh(r), moves).job.flagged
    ensures var Story(job, log) := After(Fresh(r), moves);
            job.row.status == (if SomeBad(log, r) || PagesAfter(log, r) == 0 || BadOutput(log, r) || Refused(log)
                               then Failed else Completed)
  {
    hide Run, After, SomeBad, PagesAfter, BadOutput, Refused;
    EndedHow(r, moves);
  }

  /** The same for every task of the service whose thread has ended, from what the service did. */
  lemma {:induction false} EveryTaskEnds(moves: seq<S.ServiceMove>, i: nat)
    requires S.ServiceRun(S.EMPTY, moves)
    requires var s := S.ServiceAfter(S.EMPTY, moves);
             i < |s.threads| && s.threads[i].id in s.tasks && s.threads[i].pc.Gone?
    ensures |S.LogsAfter(S.EMPTY, moves, [])| == |S.ServiceAfter(S.EMPTY, moves).threads|
    ensures EndsAs(Story(S.JobOf(S.ServiceAfter(S.EMPTY, moves), i), S.LogsAfter(S.EMPTY, moves, [])[i]))
  {
    hide S.ServiceRun, S.ServiceAfter, EndsAs, Run, After;
    var t := S.TaskStory(moves, i);
    var own: seq<Move> :| Run(Fresh(t.job.request), own) && After(Fresh(t.job.request), own) == t;
    EndedHow(t.job.request, own);
  }
}
