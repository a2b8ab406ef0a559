/** Which online capabilities a task is charged for, how much, and what that does to its final
    status.  Everything owed is defined from the answers of the step provider alone. */
module EnhanceUsage {
  import opened Wrappers
  import opened EnhanceModel

  function Last(log: seq<Event>): Event
    requires log != []
  {
    log[|log| - 1]
  }

  function Init(log: seq<Event>): seq<Event>
    requires log != []
  {
    log[..|log| - 1]
  }

  predicate StepOk(e: Event) {
    e.StepEnded? && e.result.code == OK
  }

  /** How many pages the next step is given: what the last successful step returned. */
  function PagesAfter(log: seq<Event>, r: Request): nat {
    if log == [] then r.pages
    else if StepOk(Last(log)) then Last(log).result.pages
    else PagesAfter(Init(log), r)
  }

  /** A step owes one unit per page, and at least one unit, to its capability if it succeeded. */
  predicate Owes(e: Event, r: Request, c: Capability) {
    StepOk(e) && e.i < |r.steps| && Charged(r.steps[e.i].stepType) == Some(c)
  }

  function Max1(x: nat): nat { if x > 1 then x else 1 }

  function Earned(log: seq<Event>, r: Request, c: Capability): nat {
    if log == [] then 0
    else
      Earned(Init(log), r, c)
      + (if Owes(Last(log), r, c) then Max1(Amount(PagesAfter(Init(log), r), Last(log).result)) else 0)
  }

  function Owed(log: seq<Event>, r: Request): Usage {
    map c: Capability | Earned(log, r, c) > 0 :: Earned(log, r, c)
  }

  /** The capabilities something is owed to, in key order. */
  function EarnedKeys(log: seq<Event>, r: Request): seq<Capability> {
    KeysInOrder(Owed(log, r))
  }

  /** The steps whose provider call returned, and the capabilities quota was asked for. */
  function Ended(log: seq<Event>): seq<nat> {
    if log == [] then [] else Ended(Init(log)) + (if Last(log).StepEnded? then [Last(log).i] else [])
  }

  function AskedFor(log: seq<Event>): seq<Capability> {
    if log == [] then [] else AskedFor(Init(log)) + (if Last(log).Asked? then [Last(log).capability] else [])
  }

  function EnabledBelow(steps: seq<Step>, i: nat): seq<nat>
    requires i <= |steps|
  {
    if i == 0 then [] else EnabledBelow(steps, i - 1) + (if steps[i - 1].enabled then [i - 1] else [])
  }

  /** The answer that makes the task complete: the document was converted, or there is at least one
      image. */
  predicate GoodOutput(o: Output, r: Request) {
    if r.document then o.code == 0 else o.count > 0
  }

  /** There were pages, and what came back for them is good. */
  predicate Written(log: seq<Event>, r: Request) {
    && log != []
    && (Written(Init(log), r)
        || (Last(log).Back? && PagesAfter(Init(log), r) > 0 && GoodOutput(Last(log).output, r)))
  }

  /** How many outputs came back, the last time any did. */
  function OutputCount(log: seq<Event>): nat {
    if log == [] then 0 else if Last(log).Back? then Last(log).output.count else OutputCount(Init(log))
  }

  /** The code that the last request for quota ended with. */
  function RefusedWith(log: seq<Event>): int {
    if log == [] then 0
    else
      match Last(log)
      case NoAuth => 1901
      case Asked(_, _, code) => code
      case _ => 0
  }

  predicate Bad(e: Event) {
    e.Crashed? || e.NoAuth? || (e.Asked? && e.code != OK)
  }

  predicate Ending(e: Event) {
    e.Back? || e.Asked? || Bad(e)
  }

  predicate AllGood(log: seq<Event>) {
    forall e <- log :: !Bad(e)
  }

  /** The request at position `k` comes after the outputs and after every enabled step, and is
      for what is owed. */
  predicate Justified(log: seq<Event>, k: nat, r: Request)
    requires k < |log|
  {
    log[k].Asked? ==>
      && Written(log[..k], r)
      && Ended(log[..k]) == EnabledBelow(r.steps, |r.steps|)
      && log[k].units == Earned(log[..k], r, log[k].capability) > 0
  }

  ghost predicate Fits(u: Usage, log: seq<Event>, r: Request) {
    u == Owed(log, r)
  }

  /** Before step `i`: the local variables of the worker agree with the log. */
  ghost predicate Open(log: seq<Event>, r: Request, i: nat, pages: nat, usage: Usage) {
    && i <= |r.steps|
    && Fits(usage, log, r)
    && pages == PagesAfter(log, r)
    && Ended(log) == EnabledBelow(r.steps, i)
    && AskedFor(log) == []
    && !Written(log, r) && RefusedWith(log) == 0
    && (forall e <- log :: !Ending(e))
  }

  /** Nothing has been settled on the row, and it shows `pages` pages. */
  predicate Plain(row: Row, pages: nat) {
    row.status == Running && row.code == 0 && row.assets == 0 && row.pages == pages
  }

  ghost predicate Books(s: Story) {
    var j, log, r := s.job, s.log, s.job.request;
    match j.pc
    case Begin => log == [] && j.row.pages == r.pages && j.row.status != Completed && j.row.code == 0
           && j.row.assets == 0
    case Loop(i, pages, usage) => Open(log, r, i, pages, usage) && Plain(j.row, pages)
    case Ready(i, pages, usage) =>
      Open(log, r, i, pages, usage) && i < |r.steps| && r.steps[i].enabled && Plain(j.row, pages)
    case InFlight(i, pages, usage) =>
      Open(log, r, i, pages, usage) && i < |r.steps| && r.steps[i].enabled && Plain(j.row, pages)
    case StepDone(i, pages, usage, result) =>
      && log != [] && Last(log) == StepEnded(i, result) && Open(Init(log), r, i, pages, usage)
      && i < |r.steps| && r.steps[i].enabled && Plain(j.row, pages)
    case Converting(pages, usage) =>
      Open(log, r, |r.steps|, pages, usage) && Plain(j.row, pages) && j.row.outputPages == pages
    case Produced(pages, usage, output) =>
      && Plain(j.row, pages) && j.row.outputPages == pages
      && (if pages == 0 then Open(log, r, |r.steps|, pages, usage)
          else log != [] && Last(log) == Back(output) && Open(Init(log), r, |r.steps|, pages, usage))
    case Settling(final, rest, usage) =>
      && AllGood(log) && Fits(usage, log, r) && Ended(log) == EnabledBelow(r.steps, |r.steps|)
      && AskedFor(log) + rest == KeysInOrder(usage) && Shows(final, log, r) && RefusedWith(log) == 0
      && j.row.code == 0 && j.row.assets == 0
    case Settled(final) => Closed(log, r, final)
    case Threw => !AllGood(log) && AskedFor(log) <= EarnedKeys(log, r) && RefusedWith(log) == 0
                  && j.row.code == 0 && j.row.assets == 0
    case _ => Closed(log, r, j.row)
  }

  /** A completed row: the outputs that came back, as many assets, and the pages of the last step. */
  predicate Shows(row: Row, log: seq<Event>, r: Request) {
    && row.status == Completed && row.code == 0 && Written(log, r)
    && row.outputs == row.assets == OutputCount(log)
    && row.pages == row.outputPages == PagesAfter(log, r)
  }

  /** What the final row says about the log. */
  ghost predicate Closed(log: seq<Event>, r: Request, row: Row) {
    && AskedFor(log) <= EarnedKeys(log, r)
    && (row.status == Completed <==> Written(log, r) && AllGood(log))
    && (row.status == Completed ==> AskedFor(log) == EarnedKeys(log, r) && Shows(row, log, r))
    && (row.status != Completed ==> row.code == RefusedWith(log) && row.assets == 0)
  }

  ghost predicate AllJustified(log: seq<Event>, r: Request) {
    forall k | 0 <= k < |log| :: Justified(log, k, r)
  }

  // ----- the log functions over one more event

  lemma OneMore(log: seq<Event>, e: Event, r: Request)
    ensures Init(log + [e]) == log && Last(log + [e]) == e
    ensures PagesAfter(log + [e], r) == if StepOk(e) then e.result.pages else PagesAfter(log, r)
    ensures Ended(log + [e]) == Ended(log) + (if e.StepEnded? then [e.i] else [])
    ensures AskedFor(log + [e]) == AskedFor(log) + (if e.Asked? then [e.capability] else [])
    ensures Written(log + [e], r) <==>
              Written(log, r) || (e.Back? && PagesAfter(log, r) > 0 && GoodOutput(e.output, r))
    ensures OutputCount(log + [e]) == if e.Back? then e.output.count else OutputCount(log)
    ensures forall c :: Earned(log + [e], r, c) == Earned(log, r, c)
                        + (if Owes(e, r, c) then Max1(Amount(PagesAfter(log, r), e.result)) else 0)
  {
    assert Init(log + [e]) == log;
  }

  lemma Quiet(log: seq<Event>, e: Event, r: Request)
    requires !e.StepEnded?
    ensures EarnedKeys(log + [e], r) == EarnedKeys(log, r)
    ensures forall u :: Fits(u, log, r) ==> Fits(u, log + [e], r)
  {
    hide KeysInOrder;
    OneMore(log, e, r);
    assert Owed(log + [e], r) == Owed(log, r);
  }

  lemma JustifiedMore(log: seq<Event>, e: Event, r: Request)
    requires AllJustified(log, r) && Justified(log + [e], |log|, r)
    ensures AllJustified(log + [e], r)
  {
    forall k | 0 <= k < |log + [e]| ensures Justified(log + [e], k, r) {
      if k < |log| {
        assert Justified(log, k, r);
        assert (log + [e])[..k] == log[..k];
      }
    }
  }

  lemma OwedAt(log: seq<Event>, r: Request, c: Capability)
    ensures c in Owed(log, r) <==> Earned(log, r, c) > 0
    ensures c in Owed(log, r) ==> Owed(log, r)[c] == Earned(log, r, c)
  {
    hide Earned;
  }

  lemma AddedAt(u: Usage, c: Option<Capability>, amount: nat, x: Capability)
    ensures x in AddUsage(u, c, amount) <==> x in u || c == Some(x)
    ensures x in AddUsage(u, c, amount) ==>
              AddUsage(u, c, amount)[x] == (if x in u then u[x] else 0) + (if c == Some(x) then Max1(amount) else 0)
  {
  }

  /** What DoStepDone adds to the usage map is what the step owes. */
  lemma UsageFits(log: seq<Event>, r: Request, i: nat, usage: Usage, result: StepResult)
    requires i < |r.steps| && Fits(usage, log, r)
    ensures var charged, amount := Charged(r.steps[i].stepType), Amount(PagesAfter(log, r), result);
            var next := if result.code == OK then AddUsage(usage, charged, amount) else usage;
            Fits(next, log + [StepEnded(i, result)], r)
  {
    hide Charged, Amount, PagesAfter, Earned, Owed, AddUsage, Max1;
    var e := StepEnded(i, result);
    var charged, amount := Charged(r.steps[i].stepType), Amount(PagesAfter(log, r), result);
    var next: Usage := if result.code == OK then AddUsage(usage, charged, amount) else usage;
    var owed: Usage := Owed(log + [e], r);
    OneMore(log, e, r);
    forall x: Capability ensures (x in next <==> x in owed) && (x in next ==> next[x] == owed[x]) {
      OwedAt(log, r, x);
      OwedAt(log + [e], r, x);
      AddedAt(usage, charged, amount, x);
      AtLeastOne(amount);
    }
    assert next == owed;
  }

  lemma AtLeastOne(x: nat)
    ensures Max1(x) >= 1
  {
  }

  // ----- every move keeps the books

  lemma StepEndKeepsBooks(s: Story, c: Choice)
    requires WellFormed(s.job) && s.job.pc.StepDone? && Books(s)
    ensures Books(s.(job := Work(s.job, c)))
  {
    hide Charged, Progress, Fits, Ended, AskedFor, Owes, PagesAfter, Written, OutputCount, KeysInOrder, Earned;
    var StepDone(i, pages, usage, result) := s.job.pc;
    var r, e, log := s.job.request, StepEnded(i, result), Init(s.log);
    assert s.log == log + [e];
    OneMore(log, e, r);
    UsageFits(log, r, i, usage, result);
    assert EnabledBelow(r.steps, i + 1) == EnabledBelow(r.steps, i) + [i];
  }

  lemma LoopKeepsBooks(s: Story, c: Choice)
    requires WellFormed(s.job) && (s.job.pc.Begin? || s.job.pc.Loop?) && Books(s)
    ensures Books(s.(job := Work(s.job, c)))
  {
    hide Charged, Progress, KeysInOrder;
    var r := s.job.request;
    if s.job.pc.Loop? {
      var i := s.job.pc.i;
      if i < |r.steps| && !r.steps[i].enabled {
        assert EnabledBelow(r.steps, i + 1) == EnabledBelow(r.steps, i);
      }
    }
  }

  /** One more event that asks for nothing keeps the requests justified. */
  lemma SilentJustified(log: seq<Event>, e: seq<Event>, r: Request)
    requires |e| <= 1 && AllJustified(log, r) && (e != [] ==> !e[0].Asked?)
    ensures AllJustified(log + e, r)
  {
    hide Justified;
    if e == [] {
      assert log + e == log;
    } else {
      UnaskedJustified(log, e[0], r);
      JustifiedMore(log, e[0], r);
      assert [e[0]] == e;
    }
  }

  lemma UnaskedJustified(log: seq<Event>, e: Event, r: Request)
    requires !e.Asked?
    ensures Justified(log + [e], |log|, r)
  {
  }

  lemma ReadyKeepsBooks(s: Story, c: Choice)
    requires WellFormed(s.job) && s.job.pc.Ready? && Books(s)
    ensures Books(Turn(s, WorkMove(c)))
  {
    hide Charged, KeysInOrder, KeysAmong, Earned, Owes, Owed, EarnedKeys, Justified, AllJustified, PagesAfter, Written,
        OutputCount, Ended, AskedFor, EnabledBelow, DoBegin, DoLoop, DoStepDone, DoProduced, DoSettling;
    var e := StepStarted(s.job.pc.i);
    OneMore(s.log, e, s.job.request);
    Quiet(s.log, e, s.job.request);
  }

  lemma ThrowKeepsBooks(s: Story, c: Choice)
    requires WellFormed(s.job) && c.throws && Books(s)
    requires s.job.pc.InFlight? || (s.job.pc.Converting? && s.job.pc.pages > 0)
    ensures Books(Turn(s, WorkMove(c)))
  {
    hide Charged, KeysInOrder, KeysAmong, Earned, Owes, Owed, EarnedKeys, Justified, AllJustified, PagesAfter, Written,
        OutputCount, Ended, AskedFor, EnabledBelow, DoBegin, DoLoop, DoStepDone, DoProduced, DoSettling;
    OneMore(s.log, Crashed, s.job.request);
    MoreGood(s.log, Crashed);
    EmptyIsFirst(EarnedKeys(s.log + [Crashed], s.job.request));
  }

  lemma EmptyIsFirst(keys: seq<Capability>)
    ensures [] <= keys
  {
  }

  lemma AnswerKeepsBooks(s: Story, c: Choice)
    requires WellFormed(s.job) && s.job.pc.InFlight? && !c.throws && Books(s)
    ensures Books(Turn(s, WorkMove(c)))
  {
    hide Charged, KeysInOrder, KeysAmong, Earned, Owes, Owed, EarnedKeys, Justified, AllJustified, PagesAfter, Written,
        OutputCount, Ended, AskedFor, EnabledBelow, DoBegin, DoLoop, DoStepDone, DoProduced, DoSettling;
    OneMore(s.log, StepEnded(s.job.pc.i, c.result), s.job.request);
  }

  lemma ProviderKeepsBooks(s: Story, c: Choice)
    requires WellFormed(s.job) && (s.job.pc.Ready? || s.job.pc.InFlight?) && Books(s)
    ensures Books(Turn(s, WorkMove(c)))
  {
    hide Books, Turn;
    if s.job.pc.Ready? { ReadyKeepsBooks(s, c); }
    else if c.throws { ThrowKeepsBooks(s, c); }
    else { AnswerKeepsBooks(s, c); }
  }

  lemma ConvertingKeepsBooks(s: Story, c: Choice)
    requires WellFormed(s.job) && s.job.pc.Converting? && Books(s)
    ensures Books(Turn(s, WorkMove(c)))
  {
    hide Books, Turn;
    if s.job.pc.pages == 0 { NothingToConvert(s, c); }
    else if c.throws { ThrowKeepsBooks(s, c); }
    else { BackKeepsBooks(s, c); }
  }

  lemma NothingToConvert(s: Story, c: Choice)
    requires WellFormed(s.job) && s.job.pc.Converting? && s.job.pc.pages == 0 && Books(s)
    ensures Books(Turn(s, WorkMove(c)))
  {
    hide KeysInOrder, Fits, EarnedKeys, PagesAfter, Written, Ended, AskedFor, EnabledBelow, DoBegin, DoLoop, DoStepDone,
        DoProduced, DoSettling;
    assert s.log + [] == s.log;
  }

  lemma BackKeepsBooks(s: Story, c: Choice)
    requires WellFormed(s.job) && s.job.pc.Converting? && s.job.pc.pages > 0 && !c.throws && Books(s)
    ensures Books(Turn(s, WorkMove(c)))
  {
    hide Charged, KeysInOrder, KeysAmong, Earned, Owes, Owed, EarnedKeys, Justified, AllJustified, PagesAfter, Written,
        OutputCount, Ended, AskedFor, EnabledBelow, DoBegin, DoLoop, DoStepDone, DoProduced, DoSettling;
    OneMore(s.log, Back(c.output), s.job.request);
  }

  lemma ProducedKeepsBooks(s: Story, c: Choice)
    requires WellFormed(s.job) && s.job.pc.Produced? && Books(s)
    ensures Books(Turn(s, WorkMove(c)))
  {
    hide Charged, KeysInOrder, KeysAmong, Earned, Owes, Owed, Justified, AllJustified, PagesAfter, Written,
        OutputCount, Ended, AskedFor, EnabledBelow;
    var r := s.job.request;
    var Produced(pages, usage, output) := s.job.pc;
    assert s.log + [] == s.log;
    if pages > 0 {
      var log := Init(s.log);
      assert s.log == log + [Back(output)];
      OneMore(log, Back(output), r);
      Quiet(log, Back(output), r);
      MoreGood(log, Back(output));
      var keys: seq<Capability> := KeysInOrder(Owed(log, r));
      assert [] + keys == keys;
    }
  }

  lemma MoreGood(log: seq<Event>, e: Event)
    ensures AllGood(log + [e]) <==> AllGood(log) && !Bad(e)
  {
    if AllGood(log + [e]) {
      assert forall x <- log :: x in log + [e];
      assert e in log + [e];
    }
  }

  /** An event of the settlement changes nothing that a completed row shows. */
  lemma StillShows(row: Row, log: seq<Event>, e: Event, r: Request)
    requires !e.Back? && !e.StepEnded? && Shows(row, log, r)
    ensures Shows(row, log + [e], r)
    ensures RefusedWith(log + [e]) == match e { case NoAuth => 1901 case Asked(_, _, code) => code case _ => 0 }
  {
    hide PagesAfter, Written, OutputCount, Earned, AskedFor, Ended;
    OneMore(log, e, r);
  }

  lemma SettlingKeepsBooks(s: Story, c: Choice)
    requires WellFormed(s.job) && s.job.pc.Settling? && Books(s)
    ensures var t := Turn(s, WorkMove(c)); Books(t)
  {
    hide Charged, KeysInOrder, KeysAmong, Earned, Owes, Owed, AllGood, PagesAfter, Written, OutputCount, Ended,
        AskedFor, RefusedWith, Shows, Justified, EnabledBelow;
    var e := Says(s.job, c);
    var Settling(final, rest, usage) := s.job.pc;
    SettlingKeys(s.log, s.job.request, usage, rest);
    ShownRow(final, s.log, s.job.request);
    assert s.log + [] == s.log;
    if e != [] {
      OneMore(s.log, e[0], s.job.request);
      Quiet(s.log, e[0], s.job.request);
      MoreGood(s.log, e[0]);
      StillShows(final, s.log, e[0], s.job.request);
      assert AskedFor(s.log) + [rest[0]] + rest[1..] == AskedFor(s.log) + rest;
    }
  }

  lemma ShownRow(row: Row, log: seq<Event>, r: Request)
    requires Shows(row, log, r)
    ensures row.status == Completed && row.code == 0 && Written(log, r)
  {
  }

  lemma SettlingJustified(s: Story, c: Choice)
    requires WellFormed(s.job) && s.job.pc.Settling? && Books(s) && AllJustified(s.log, s.job.request)
    ensures AllJustified(s.log + Says(s.job, c), s.job.request)
  {
    hide Charged, KeysInOrder, KeysAmong, Earned, Owes, Owed, AllJustified, AllGood, PagesAfter, Written, OutputCount,
        Ended, AskedFor;
    var e, log, r := Says(s.job, c), s.log, s.job.request;
    var Settling(final, rest, usage) := s.job.pc;
    if e != [] && e[0].Asked? {
      SettlingKeys(log, r, usage, rest);
      assert (log + e)[..|log|] == log;
      JustifiedMore(log, e[0], r);
    } else {
      SilentJustified(log, e, r);
    }
  }

  lemma SettlingKeys(log: seq<Event>, r: Request, usage: Usage, rest: seq<Capability>)
    requires Fits(usage, log, r) && AskedFor(log) + rest == KeysInOrder(usage)
    ensures EarnedKeys(log, r) == AskedFor(log) + rest
    ensures rest != [] ==> rest[0] in usage && usage[rest[0]] == Earned(log, r, rest[0]) > 0
  {
    hide Earned, AskedFor, KeysInOrder;
    KeysAre(usage);
    if rest != [] {
      assert KeysInOrder(usage)[|AskedFor(log)|] == rest[0];
    }
  }

  lemma TurnKeepsBooks(s: Story, m: Move)
    requires Can(s, m) && Books(s) && AllJustified(s.log, s.job.request)
    ensures var t := Turn(s, m); Books(t) && AllJustified(t.log, t.job.request)
  {
    hide Charged, KeysInOrder, KeysAmong, Earned, Owes, Fits, EarnedKeys, AllJustified, PagesAfter, Written,
        OutputCount, Ended, AskedFor, Open, DoLoop, DoStepDone;
    if m.WorkMove? {
      if s.job.pc.Settling? { SettlingJustified(s, m.choice); }
          else { SilentJustified(s.log, Says(s.job, m.choice), s.job.request); }
      var pc := s.job.pc;
      assert s.log + [] == s.log;
      if pc.StepDone? { StepEndKeepsBooks(s, m.choice); }
      else if pc.Begin? || pc.Loop? { LoopKeepsBooks(s, m.choice); }
      else if pc.Ready? || pc.InFlight? { ProviderKeepsBooks(s, m.choice); }
      else if pc.Converting? { ConvertingKeepsBooks(s, m.choice); }
      else if pc.Produced? { ProducedKeepsBooks(s, m.choice); }
      else if pc.Settling? { SettlingKeepsBooks(s, m.choice); }
    }
  }

  lemma {:induction false} RunKeepsBooks(s: Story, moves: seq<Move>)
    requires Run(s, moves) && Books(s) && AllJustified(s.log, s.job.request)
    ensures var t := After(s, moves); Books(t) && AllJustified(t.log, s.job.request) && t.job.request == s.job.request
    decreases |moves|
  {
    hide Books, AllJustified;
    if moves != [] {
      TurnKeepsBooks(s, moves[0]);
      RunKeepsBooks(Turn(s, moves[0]), moves[1..]);
    }
  }

  // ----- the results

  lemma FreshBooks(r: Request)
    ensures Books(Fresh(r)) && AllJustified(Fresh(r).log, r)
  {
  }

  /** In every run, quota is asked for only after the outputs are written and every enabled step
      has returned exactly once, with exactly the units that the successful online steps owe. */
  lemma {:induction false} QuotaMatchesUsage(r: Request, moves: seq<Move>, k: nat)
    requires Run(Fresh(r), moves) && k < |After(Fresh(r), moves).log| && After(Fresh(r), moves).log[k].Asked?
    ensures var log := After(Fresh(r), moves).log;
            && Written(log[..k], r)
            && Ended(log[..k]) == EnabledBelow(r.steps, |r.steps|)
            && log[k].units == Earned(log[..k], r, log[k].capability) > 0
  {
    hide Books, Run, After;
    FreshBooks(r);
    RunKeepsBooks(Fresh(r), moves);
    assert Justified(After(Fresh(r), moves).log, k, r);
  }

  /** When the worker is gone, the task is completed iff there were pages, what came back for them
      was good, and nothing after that was refused or threw.  It then shows as many outputs and
      assets as came back and the pages of its last step; else it has no assets and the code of the
      refusal, if any.  Capabilities were asked for in key order and at most once, and all that
      something is owed to if the task is completed. */
  lemma {:induction false} FinalStatus(r: Request, moves: seq<Move>)
    requires Run(Fresh(r), moves) && After(Fresh(r), moves).job.pc.Gone?
    ensures var Story(job, log) := After(Fresh(r), moves);
            && (job.row.status == Completed <==> Written(log, r) && AllGood(log))
            && AskedFor(log) <= EarnedKeys(log, r)
            && (job.row.status == Completed ==>
                  && AskedFor(log) == EarnedKeys(log, r) && job.row.code == 0
                  && job.row.outputs == job.row.assets == OutputCount(log)
                  && job.row.pages == job.row.outputPages == PagesAfter(log, r))
            && (job.row.status != Completed ==> job.row.assets == 0 && job.row.code == RefusedWith(log))
  {
    hide Run, After, EarnedKeys, AskedFor, AllGood, AllJustified, Written, OutputCount, PagesAfter, RefusedWith;
    FreshBooks(r);
    RunKeepsBooks(Fresh(r), moves);
  }

  /** The keys something is owed to are those, once each. */
  lemma EarnedKeysAre(log: seq<Event>, r: Request)
    ensures forall c :: c in EarnedKeys(log, r) <==> Earned(log, r, c) > 0
    ensures forall j, k | 0 <= j < k < |EarnedKeys(log, r)| :: EarnedKeys(log, r)[j] != EarnedKeys(log, r)[k]
  {
    hide Earned, KeysInOrder;
    KeysAre(Owed(log, r));
  }

  lemma KeysAre(u: Usage)
    ensures forall c :: c in KeysInOrder(u) <==> c in u
    ensures forall j, k | 0 <= j < k < |KeysInOrder(u)| :: KeysInOrder(u)[j] != KeysInOrder(u)[k]
  {
    hide KeysAmong;
    KeysAmongAre(u, ALL);
    forall c: Capability ensures c in ALL { AllOfThem(c); }
  }

  lemma AllOfThem(c: Capability)
    ensures c in ALL
  {
    match c
    case DocCropEnhance => assert ALL[0] == c;
    case DocRepair => assert ALL[1] == c;
    case RemoveHandwriting => assert ALL[2] == c;
    case RemoveMoire => assert ALL[3] == c;
  }

  lemma {:induction false} KeysAmongAre(u: Usage, all: seq<Capability>)
    requires forall j, k | 0 <= j < k < |all| :: all[j] != all[k]
    ensures forall c :: c in KeysAmong(u, all) <==> c in all && c in u
    ensures forall j, k | 0 <= j < k < |KeysAmong(u, all)| :: KeysAmong(u, all)[j] != KeysAmong(u, all)[k]
  {
    if all != [] { KeysAmongAre(u, all[1..]); }
  }

  // ----- what a step is charged for, by its type and its answer

  /** The step types that are charged to a capability. */
  predicate ChargedTo(stepType: string, c: Capability) {
    match c
    case DocCropEnhance => stepType == "document_rectify_enhance" || stepType == "doc_crop_enhance"
    case DocRepair => stepType == "remove_background_texture" || stepType == "doc_repair"
    case RemoveHandwriting => stepType == "remove_handwriting"
    case RemoveMoire => stepType == "remove_moire"
  }

  lemma ChargedIff(stepType: string, c: Capability)
    ensures Charged(stepType) == Some(c) <==> ChargedTo(stepType, c)
  {
  }

  /** A successful step costs the pages it returned; if it returned none, the pages it was given;
      and never less than one.  The next step is given what it returned. */
  lemma StepEarns(log: seq<Event>, r: Request, i: nat, result: StepResult, c: Capability)
    requires i < |r.steps|
    ensures var given, after := PagesAfter(log, r), log + [StepEnded(i, result)];
            && Earned(after, r, c) == Earned(log, r, c)
                 + (if result.code == 0 && ChargedTo(r.steps[i].stepType, c)
                    then (if result.pages > 0 then result.pages else if given > 0 then given else 1) else 0)
            && PagesAfter(after, r) == if result.code == 0 then result.pages else given
  {
    hide Charged, ChargedTo, Earned, PagesAfter;
    OneMore(log, StepEnded(i, result), r);
    ChargedIff(r.steps[i].stepType, c);
  }

  /** `a` comes before `b` in the order of names. */
  ghost predicate NameBefore(a: string, b: string) {
    exists n :: 0 <= n < |a| && n < |b| && a[..n] == b[..n] && a[n] < b[n]
  }

  ghost predicate Ascending(keys: seq<Capability>) {
    forall j, k | 0 <= j < k < |keys| :: NameBefore(Name(keys[j]), Name(keys[k]))
  }

  lemma AllAscend()
    ensures Ascending(ALL)
  {
    var a, b, c, d := Name(DocCropEnhance), Name(DocRepair), Name(RemoveHandwriting), Name(RemoveMoire);
    assert a[..4] == b[..4] && a[4] < b[4];
    assert c[..7] == d[..7] && c[7] < d[7];
    assert a[..0] == c[..0] && a[0] < c[0];
    assert a[..0] == d[..0] && a[0] < d[0];
    assert b[..0] == c[..0] && b[0] < c[0];
    assert b[..0] == d[..0] && b[0] < d[0];
    forall j, k | 0 <= j < k < |ALL| ensures NameBefore(Name(ALL[j]), Name(ALL[k])) {
    }
  }

  lemma {:induction false} AmongAscend(u: Usage, all: seq<Capability>)
    requires Ascending(all)
    ensures Ascending(KeysAmong(u, all))
    ensures forall c <- KeysAmong(u, all) :: c in all
  {
    hide NameBefore, Name;
    if all != [] {
      AmongAscend(u, all[1..]);
      var rest := KeysAmong(u, all[1..]);
      forall k | 0 <= k < |rest| ensures NameBefore(Name(all[0]), Name(rest[k])) {
        assert rest[k] in all[1..];
      }
    }
  }

  /** Capabilities are asked for in the order of their names. */
  lemma {:induction false} AskedInOrder(r: Request, moves: seq<Move>)
    requires Run(Fresh(r), moves) && After(Fresh(r), moves).job.pc.Gone?
    ensures Ascending(AskedFor(After(Fresh(r), moves).log))
  {
    hide Run, After, KeysAmong, AskedFor, NameBefore, Name, Written, AllGood;
    FinalStatus(r, moves);
    AllAscend();
    AmongAscend(Owed(After(Fresh(r), moves).log, r), ALL);
  }
}
