/** Finalisation of TWAIN scans with commands in flight: FinalizeTwainScanTask as the regions under
    `twain_tasks_mu_` and the converter call between them, for any interleaving.  Events and
    twain.scan hold the storage lifecycle lock to their end; twain.scan_get holds none. */
module TwainRaces {
  import opened Wrappers
  import T = TwainCache
  import opened TwainCache

  /** Where a command is.  `Looks` has a task and is about to look at the cache, `Marks` is about
      to mark the entry as converting, `Converts` to call the converter, `Stores` to store. */
  datatype Pc =
    | Asks(id: TaskId)
    | Looks(task: Task)
    | PagesFirst(task: Task)
    | Marks(task: Task)
    | Converts(task: Task)
    | Stores(task: Task)
    | Ended

  /** `looked` is the time of the look at the cache, once it was taken. */
  datatype Command = Command(pc: Pc, locked: bool, looked: nat)

  datatype Desk = Desk(cache: Cache, calls: seq<Call>, commands: seq<Command>, clock: nat)

  const IDLE := Desk(map[], [], [], 0)

  /** One region of a command; `snapshot` is what the provider shows if it is asked. */
  function Region(cache: Cache, pc: Pc, snapshot: Task, a: Answer): (Cache, Pc, seq<Call>) {
    match pc
    case Asks(id) => (cache, Looks(if id in cache && Terminal(cache[id]) then cache[id] else snapshot), [])
    case Looks(t) =>
      (cache,
       if t.id == 0 then Ended
       else if IsDocument(t.outputType) && OutputFinal(t, t.outputType) then Stores(t)
       else if IsDocument(t.outputType) && CachedFor(cache, t.id, t.outputType) then Stores(cache[t.id])
       else if NeedsPageConversion(t) then PagesFirst(t)
       else if NeedsDocument(t) then Marks(t)
       else Stores(t),
       [])
    case PagesFirst(t) => (cache[t.id := WithPages(t, a)], Stores(WithPages(t, a)), PageCallsOf(t, a))
    case Marks(t) => (cache[t.id := t.(status := Status.Converting)], Converts(t), [])
    case Converts(t) => (cache, Stores(WithDocument(t, a)), CallsOf(t, a))
    case Stores(t) => (cache[t.id := t], Ended, [])
    case Ended => (cache, Ended, [])
  }

  datatype Action =
    | Arrive(task: Task)                                   // an event or the answer to twain.scan
    | Query(id: TaskId)
    | CancelScan(id: TaskId)
    | Advance(i: nat, snapshot: Task, answer: Answer)

  predicate Live(c: Command) {
    c.pc != Ended
  }

  predicate Can(d: Desk, a: Action) {
    match a
    case Arrive(_) => forall i | 0 <= i < |d.commands| && Live(d.commands[i]) :: !d.commands[i].locked
    case Query(_) => true
    case CancelScan(_) => true
    case Advance(i, _, _) => i < |d.commands| && Live(d.commands[i])
  }

  function Act(d: Desk, a: Action): Desk
    requires Can(d, a)
  {
    match a
    case Arrive(t) => d.(commands := d.commands + [Command(Looks(t), true, 0)], clock := d.clock + 1)
    case Query(id) =>
      d.(commands := d.commands + [Command(if id == 0 then Ended else Asks(id), false, 0)], clock := d.clock + 1)
    case CancelScan(id) =>
      d.(cache := if id in d.cache then d.cache[id := d.cache[id].(cancelRequested := true)] else d.cache,
         clock := d.clock + 1)
    case Advance(i, snapshot, answer) =>
      var c := d.commands[i];
      var (cache, pc, calls) := Region(d.cache, c.pc, snapshot, answer);
      Desk(cache, d.calls + calls,
           d.commands[i := Command(pc, c.locked, if c.pc.Looks? then d.clock else c.looked)], d.clock + 1)
  }

  ghost predicate Acts(d: Desk, acts: seq<Action>)
    decreases |acts|
  {
    acts == [] || (Can(d, acts[0]) && Acts(Act(d, acts[0]), acts[1..]))
  }

  ghost function Afterwards(d: Desk, acts: seq<Action>): Desk
    requires Acts(d, acts)
    decreases |acts|
  {
    if acts == [] then d else Afterwards(Act(d, acts[0]), acts[1..])
  }

  /** The provider never changes what was asked for. */
  predicate Keeps(a: Action, id: TaskId, target: Format) {
    match a
    case Arrive(t) => t.id == id ==> t.outputType == target
    case Advance(_, t, _) => t.id == id ==> t.outputType == target
    case _ => true
  }

  // ----- commands that do not overlap: the serialised model

  function Left(pc: Pc): nat {
    match pc
    case Asks(_) => 5
    case Looks(_) => 4
    case PagesFirst(_) => 3
    case Marks(_) => 3
    case Converts(_) => 2
    case Stores(_) => 1
    case Ended => 0
  }

  /** A command from where it is to its end, with nothing in between. */
  function Alone(cache: Cache, pc: Pc, snapshot: Task, a: Answer): (Cache, seq<Call>)
    decreases Left(pc)
  {
    if pc == Ended then (cache, [])
    else
      var (cache', pc', calls) := Region(cache, pc, snapshot, a);
      var (cache'', more) := Alone(cache', pc', snapshot, a);
      (cache'', calls + more)
  }

  /** Run to its end without interruption, a command does what the serialised model says. */
  lemma AloneIsSerial(cache: Cache, t: Task, a: Answer, calls: seq<Call>)
    requires Keyed(cache)
    ensures var (c, more) := Alone(cache, Looks(t), t, a);
            T.Next(World(cache, calls), Event(t, a)) == World(c, calls + more)
  {
    hide OutputFinal, AllSuffix, WithPages, CallsOf;
    assert calls + [] == calls;
    AloneFromLook(cache, t, t, a);
  }

  lemma AloneFromLook(cache: Cache, t: Task, snapshot: Task, a: Answer)
    requires Keyed(cache)
    ensures var (c, more) := Alone(cache, Looks(t), snapshot, a);
            var (c', t', calls) := Finalize(cache, t, a);
            more == calls && c == if t.id == 0 then cache else c'[t'.id := t']
  {
    hide OutputFinal, AllSuffix, WithPages, CallsOf, UseCached, NeedsPageConversion, NeedsDocument;
    var (cache', pc', none) := Region(cache, Looks(t), snapshot, a);
    assert none + none == none && none + (none + none) == none;
    assert none + (CallsOf(t, a) + none) == CallsOf(t, a) && none + CallsOf(t, a) == CallsOf(t, a);
    assert CallsOf(t, a) + none == CallsOf(t, a);
    if pc'.Stores? {
      AloneFromStore(cache, pc'.task, snapshot, a);
    } else if pc'.PagesFirst? {
      AloneFromStore(cache[t.id := WithPages(t, a)], WithPages(t, a), snapshot, a);
    } else if pc'.Marks? {
      var marked := cache[t.id := t.(status := Status.Converting)];
      AloneFromStore(marked, WithDocument(t, a), snapshot, a);
      AloneFromConvert(marked, t, snapshot, a);
    }
  }

  lemma AloneFromConvert(cache: Cache, t: Task, snapshot: Task, a: Answer)
    ensures Alone(cache, Converts(t), snapshot, a) == (cache[t.id := WithDocument(t, a)], CallsOf(t, a))
  {
    hide CallsOf;
    AloneFromStore(cache, WithDocument(t, a), snapshot, a);
    var none: seq<Call> := [];
    assert CallsOf(t, a) + none == CallsOf(t, a);
  }

  lemma AloneFromStore(cache: Cache, t: Task, snapshot: Task, a: Answer)
    ensures Alone(cache, Stores(t), snapshot, a) == (cache[t.id := t], [])
  {
    var none: seq<Call> := [];
    assert none + none == none;
  }

  lemma AloneIsSerialGet(cache: Cache, id: TaskId, t: Task, a: Answer, calls: seq<Call>)
    requires Keyed(cache) && id != 0
    ensures var (c, more) := Alone(cache, Asks(id), t, a);
            T.Next(World(cache, calls), Get(id, t.id, t, a)) == World(c, calls + more)
  {
    hide Finalize, Alone;
    var from := if id in cache && Terminal(cache[id]) then cache[id] else t;
    AloneFromAsk(cache, id, t, a);
    AloneFromLook(cache, from, t, a);
    FinalizeKeepsId(cache, from, a);
    assert calls + [] == calls;
  }

  lemma AloneFromAsk(cache: Cache, id: TaskId, snapshot: Task, a: Answer)
    ensures Alone(cache, Asks(id), snapshot, a)
            == Alone(cache, Looks(if id in cache && Terminal(cache[id]) then cache[id] else snapshot), snapshot, a)
  {
    var from := if id in cache && Terminal(cache[id]) then cache[id] else snapshot;
    var calls: seq<Call> := Alone(cache, Looks(from), snapshot, a).1;
    assert [] + calls == calls;
  }

  lemma FinalizeKeepsId(cache: Cache, t: Task, a: Answer)
    requires Keyed(cache)
    ensures Finalize(cache, t, a).1.id == t.id
    ensures t.id == 0 ==> Finalize(cache, t, a) == (cache, t, [])
  {
  }

  // ----- what is behind

  /** The task of a command that has looked at the cache. */
  function Holds(pc: Pc): Option<Task> {
    match pc
    case PagesFirst(t) => Some(t)
    case Marks(t) => Some(t)
    case Converts(t) => Some(t)
    case Stores(t) => Some(t)
    case _ => None
  }

  /** The command is going to undo a finished document of `id`, or to make it again. */
  predicate Behind(pc: Pc, id: TaskId, target: Format) {
    match pc
    case Marks(t) => t.id == id
    case Converts(t) => t.id == id
    case Stores(t) => t.id == id && !OutputFinal(t, target)
    case _ => false
  }

  /** Every command in flight is about scans under their own id and type, and has looked before
      now. */
  ghost predicate InOrder(d: Desk, id: TaskId, target: Format) {
    && Keyed(d.cache) && Typed(d.cache, id, target)
    && forall i | 0 <= i < |d.commands| :: Sane(d.commands[i], id, target, d.clock)
  }

  predicate Sane(c: Command, id: TaskId, target: Format, clock: nat) {
    && (c.pc.Asks? ==> c.pc.id != 0)
    && (c.pc.Looks? && c.pc.task.id == id ==> c.pc.task.outputType == target)
    && (Holds(c.pc).Some? ==>
          && c.looked < clock && Holds(c.pc).value.id != 0
          && (Holds(c.pc).value.id == id ==> Holds(c.pc).value.outputType == target && !c.pc.PagesFirst?))
  }

  lemma RegionKeeps(d: Desk, i: nat, snapshot: Task, a: Answer, id: TaskId, target: Format)
    requires InOrder(d, id, target) && IsDocument(target) && i < |d.commands|
    requires snapshot.id == id ==> snapshot.outputType == target
    ensures var (cache, pc, calls) := Region(d.cache, d.commands[i].pc, snapshot, a);
            && Keyed(cache) && Typed(cache, id, target)
            && Sane(Command(pc, d.commands[i].locked, if d.commands[i].pc.Looks? then d.clock
                 else d.commands[i].looked),
                    id, target, d.clock + 1)
  {
    hide OutputFinal, AllSuffix, ConvertPages, NeedsDocument;
    assert Sane(d.commands[i], id, target, d.clock);
  }

  lemma ActKeeps(d: Desk, a: Action, id: TaskId, target: Format)
    requires InOrder(d, id, target) && IsDocument(target) && Can(d, a) && Keeps(a, id, target)
    ensures InOrder(Act(d, a), id, target)
  {
    hide Region;
    var d' := Act(d, a);
    if a.Advance? { RegionKeeps(d, a.i, a.snapshot, a.answer, id, target); }
    forall i | 0 <= i < |d'.commands| ensures Sane(d'.commands[i], id, target, d'.clock) {
      if i < |d.commands| { assert Sane(d.commands[i], id, target, d.clock); }
    }
  }

  /** One action while the document is final.  Only a command that is behind can undo the entry or
      call the converter for it, ... */
  lemma FinalStep(d: Desk, a: Action, id: TaskId, target: Format)
    requires InOrder(d, id, target) && IsDocument(target) && Can(d, a) && Keeps(a, id, target)
    requires FinalAt(d.cache, id, target)
    ensures a.Advance? && Harms(d, a, id, target) ==>
              !FinalAt(Act(d, a).cache, id, target) || CallsFor(d, Act(d, a), id)
    ensures !(a.Advance? && Harms(d, a, id, target)) ==>
              FinalAt(Act(d, a).cache, id, target) && !CallsFor(d, Act(d, a), id)
  {
    hide AllSuffix, ConvertPages, NeedsPageConversion, WithPages;
    if a.Advance? {
      assert Sane(d.commands[a.i], id, target, d.clock);
      if d.commands[a.i].pc.Converts? && Harms(d, a, id, target) {
        assert Act(d, a).calls[|d.calls|].id == id;
      }
    }
  }

  /** ... and no command gets behind. */
  lemma FinalRegion(d: Desk, a: Action, id: TaskId, target: Format)
    requires InOrder(d, id, target) && IsDocument(target) && Can(d, a) && Keeps(a, id, target)
    requires FinalAt(d.cache, id, target) && a.Advance?
    ensures var c, c' := d.commands[a.i], Act(d, a).commands[a.i];
            Behind(c'.pc, id, target) ==> Behind(c.pc, id, target) && c'.looked == c.looked
  {
    hide AllSuffix, ConvertPages, NeedsPageConversion;
    assert Sane(d.commands[a.i], id, target, d.clock);
  }

  lemma NoneGetsBehind(d: Desk, a: Action, id: TaskId, target: Format, since: nat)
    requires InOrder(d, id, target) && IsDocument(target) && Can(d, a) && Keeps(a, id, target)
    requires FinalAt(d.cache, id, target) && OnlyOldBehind(d, id, target, since)
    ensures OnlyOldBehind(Act(d, a), id, target, since)
  {
    hide Region, InOrder, FinalAt;
    if a.Advance? { FinalRegion(d, a, id, target); }
    var d' := Act(d, a);
    forall i | 0 <= i < |d'.commands| && Behind(d'.commands[i].pc, id, target) ensures d'.commands[i].looked < since {
      if i < |d.commands| && !(a.Advance? && i == a.i) { assert d'.commands[i] == d.commands[i]; }
    }
  }

  /** An action that takes a command on that is behind: it marks, it stores, or it converts. */
  predicate Harms(d: Desk, a: Action, id: TaskId, target: Format)
    requires Can(d, a) && a.Advance?
  {
    var pc := d.commands[a.i].pc;
    Behind(pc, id, target) && (pc.Converts? ==> a.answer.docDirReady)
  }

  /** Between `d` and `d'` the converter was called for `id`. */
  predicate CallsFor(d: Desk, d': Desk, id: TaskId) {
    exists k :: |d.calls| <= k < |d'.calls| && d'.calls[k].id == id
  }

  // ----- from the moment the document is stored

  /** All along the entry is final and the converter is not called for it. */
  ghost predicate StaysFinal(d: Desk, acts: seq<Action>, id: TaskId, target: Format)
    requires Acts(d, acts)
    decreases |acts|
  {
    && FinalAt(d.cache, id, target)
    && (acts == []
        || (!CallsFor(d, Act(d, acts[0]), id) && StaysFinal(Act(d, acts[0]), acts[1..], id, target)))
  }

  /** No command marks, stores a task without the document, or converts on the strength of a look
      that it took before time `since`. */
  ghost predicate NoLateMove(d: Desk, acts: seq<Action>, id: TaskId, target: Format, since: nat)
    requires Acts(d, acts)
    decreases |acts|
  {
    acts == []
    || (&& !(acts[0].Advance? && Harms(d, acts[0], id, target) && d.commands[acts[0].i].looked < since)
        && NoLateMove(Act(d, acts[0]), acts[1..], id, target, since))
  }

  ghost predicate AllKeep(acts: seq<Action>, id: TaskId, target: Format) {
    forall a <- acts :: Keeps(a, id, target)
  }

  ghost predicate OnlyOldBehind(d: Desk, id: TaskId, target: Format, since: nat) {
    forall i | 0 <= i < |d.commands| && Behind(d.commands[i].pc, id, target) :: d.commands[i].looked < since
  }

  lemma {:induction false} StaysFinalFrom(d: Desk, acts: seq<Action>, id: TaskId, target: Format, since: nat)
    requires InOrder(d, id, target) && IsDocument(target) && Acts(d, acts) && AllKeep(acts, id, target)
    requires FinalAt(d.cache, id, target) && OnlyOldBehind(d, id, target, since)
    ensures StaysFinal(d, acts, id, target) <==> NoLateMove(d, acts, id, target, since)
    decreases |acts|
  {
    hide Act, InOrder, FinalAt, Harms, Keeps, CallsFor, Behind;
    if acts != [] {
      var a := acts[0];
      assert Keeps(a, id, target);
      FinalStep(d, a, id, target);
      ActKeeps(d, a, id, target);
      NoneGetsBehind(d, a, id, target, since);
      if a.Advance? && Harms(d, a, id, target) {
        HarmIsBehind(d, a, id, target);
        assert d.commands[a.i].looked < since;
        assert !FinalAt(Act(d, a).cache, id, target) ==> !StaysFinal(Act(d, a), acts[1..], id, target);
      } else {
        StaysFinalFrom(Act(d, a), acts[1..], id, target, since);
      }
    }
  }

  lemma HarmIsBehind(d: Desk, a: Action, id: TaskId, target: Format)
    requires Can(d, a) && a.Advance? && Harms(d, a, id, target)
    ensures Behind(d.commands[a.i].pc, id, target)
  {
  }

  /** After the document is stored, and however commands overlap: the entry stays final and is not
      converted again iff no command marks, stores or converts from a look taken before. */
  lemma {:induction false} StaysFinalIff(d: Desk, acts: seq<Action>, id: TaskId, target: Format)
    requires InOrder(d, id, target) && IsDocument(target) && Acts(d, acts) && AllKeep(acts, id, target)
    requires FinalAt(d.cache, id, target)
    ensures StaysFinal(d, acts, id, target) <==> NoLateMove(d, acts, id, target, d.clock)
  {
    forall i | 0 <= i < |d.commands| && Behind(d.commands[i].pc, id, target) ensures d.commands[i].looked < d.clock {
      assert Sane(d.commands[i], id, target, d.clock);
    }
    StaysFinalFrom(d, acts, id, target, d.clock);
  }

  /** No command in flight is behind: what a caller can check at that moment. */
  predicate NoneBehind(d: Desk, id: TaskId, target: Format) {
    forall i | 0 <= i < |d.commands| :: !Behind(d.commands[i].pc, id, target)
  }

  ghost predicate AlwaysStaysFinal(d: Desk, id: TaskId, target: Format) {
    forall acts | Acts(d, acts) && AllKeep(acts, id, target) :: StaysFinal(d, acts, id, target)
  }

  /** The document is safe in every continuation iff no command in flight is behind. */
  lemma SafeIff(d: Desk, id: TaskId, target: Format)
    requires InOrder(d, id, target) && IsDocument(target) && FinalAt(d.cache, id, target)
    ensures AlwaysStaysFinal(d, id, target) <==> NoneBehind(d, id, target)
  {
    if NoneBehind(d, id, target) {
      forall acts | Acts(d, acts) && AllKeep(acts, id, target) ensures StaysFinal(d, acts, id, target) {
        StaysFinalFrom(d, acts, id, target, 0);
        NothingOld(d, acts, id, target);
      }
    } else {
      var i :| 0 <= i < |d.commands| && Behind(d.commands[i].pc, id, target);
      var act := OneHarm(d, i, id, target);
      FinalStep(d, act, id, target);
      OneStep(d, act, id, target);
    }
  }

  lemma {:induction false} NothingOld(d: Desk, acts: seq<Action>, id: TaskId, target: Format)
    requires Acts(d, acts)
    ensures NoLateMove(d, acts, id, target, 0)
    decreases |acts|
  {
    hide Act, Harms;
    if acts != [] { NothingOld(Act(d, acts[0]), acts[1..], id, target); }
  }

  lemma OneHarm(d: Desk, i: nat, id: TaskId, target: Format) returns (a: Action)
    requires i < |d.commands| && Behind(d.commands[i].pc, id, target)
    ensures Can(d, a) && a.Advance? && Harms(d, a, id, target) && Keeps(a, id, target)
  {
    a := Advance(i, Task(0, Queued, target, target, [], false), Answer(true, [], true, None));
  }

  lemma OneStep(d: Desk, a: Action, id: TaskId, target: Format)
    requires Can(d, a) && Keeps(a, id, target)
    requires !FinalAt(Act(d, a).cache, id, target) || CallsFor(d, Act(d, a), id)
    ensures !AlwaysStaysFinal(d, id, target)
  {
    hide Act, FinalAt, CallsFor, Can;
    assert [a][1..] == [];
    assert Acts(Act(d, a), []);
    assert Acts(d, [a]) && AllKeep([a], id, target);
    assert !StaysFinal(d, [a], id, target);
  }

  // ----- whole runs

  /** Before the document is stored: a second conversion after a good one. */
  predicate ConvertsAgain(d: Desk, a: Action, id: TaskId, target: Format)
    requires Can(d, a)
  {
    a.Advance? && d.commands[a.i].pc.Converts? && Harms(d, a, id, target) && Made(d.calls, id)
  }

  /** No conversion follows a good one, and from the moment it is stored the document stays. */
  ghost predicate Sound(d: Desk, acts: seq<Action>, id: TaskId, target: Format)
    requires Acts(d, acts)
    decreases |acts|
  {
    if Made(d.calls, id) && FinalAt(d.cache, id, target) then StaysFinal(d, acts, id, target)
    else
      acts == []
      || (&& (Made(d.calls, id) ==> !CallsFor(d, Act(d, acts[0]), id))
          && Sound(Act(d, acts[0]), acts[1..], id, target))
  }

  /** No command marks, stores or converts from a look taken before the document was stored: until
      then no second conversion, and from then on no late move at all. */
  ghost predicate NoOverlap(d: Desk, acts: seq<Action>, id: TaskId, target: Format)
    requires Acts(d, acts)
    decreases |acts|
  {
    if Made(d.calls, id) && FinalAt(d.cache, id, target) then NoLateMove(d, acts, id, target, d.clock)
    else acts == [] || (!ConvertsAgain(d, acts[0], id, target) && NoOverlap(Act(d, acts[0]), acts[1..], id, target))
  }

  lemma CallStep(d: Desk, a: Action, id: TaskId, target: Format)
    requires InOrder(d, id, target) && Can(d, a)
    ensures CallsFor(d, Act(d, a), id) <==> a.Advance? && d.commands[a.i].pc.Converts? && Harms(d, a, id, target)
    ensures d.calls <= Act(d, a).calls && |Act(d, a).calls| <= |d.calls| + 1
  {
    hide AllSuffix, WithPages, WithDocument, OutputFinal;
    var d' := Act(d, a);
    if a.Advance? && d.commands[a.i].pc.Converts? && a.answer.docDirReady {
      assert d'.calls[|d.calls|]
               == Call(d.commands[a.i].pc.task.id, d.commands[a.i].pc.task.outputType, a.answer.outputs);
    }
  }

  lemma {:induction false} SoundFrom(d: Desk, acts: seq<Action>, id: TaskId, target: Format)
    requires InOrder(d, id, target) && IsDocument(target) && Acts(d, acts) && AllKeep(acts, id, target)
    ensures Sound(d, acts, id, target) <==> NoOverlap(d, acts, id, target)
    decreases |acts|
  {
    hide Act, InOrder, FinalAt, Can, Harms, Keeps, CallsFor, Made;
    if Made(d.calls, id) && FinalAt(d.cache, id, target) {
      StaysFinalIff(d, acts, id, target);
    } else if acts != [] {
      assert Keeps(acts[0], id, target);
      CallStep(d, acts[0], id, target);
      ActKeeps(d, acts[0], id, target);
      SoundFrom(Act(d, acts[0]), acts[1..], id, target);
    }
  }

  /** Every interleaving from an idle service: no conversion follows a good one and the stored
      document stays final iff no command acts on a look taken before it was stored. */
  lemma {:induction false} SoundIff(acts: seq<Action>, id: TaskId, target: Format)
    requires IsDocument(target) && Acts(IDLE, acts) && AllKeep(acts, id, target)
    ensures Sound(IDLE, acts, id, target) <==> NoOverlap(IDLE, acts, id, target)
  {
    SoundFrom(IDLE, acts, id, target);
  }

  lemma {:induction false} StaysFinalCalls(d: Desk, acts: seq<Action>, id: TaskId, target: Format)
    requires InOrder(d, id, target) && IsDocument(target) && Acts(d, acts) && AllKeep(acts, id, target)
    requires StaysFinal(d, acts, id, target) && OnceOnly(d.calls, id)
    ensures OnceOnly(Afterwards(d, acts).calls, id) && FinalAt(Afterwards(d, acts).cache, id, target)
    decreases |acts|
  {
    hide Act, InOrder, FinalAt, Can, Keeps, OnceOnly;
    if acts != [] {
      assert Keeps(acts[0], id, target);
      CallStep(d, acts[0], id, target);
      ActKeeps(d, acts[0], id, target);
      OnceMore(d.calls, Act(d, acts[0]).calls, id);
      StaysFinalCalls(Act(d, acts[0]), acts[1..], id, target);
    }
  }

  lemma OnceMore(calls: seq<Call>, calls': seq<Call>, id: TaskId)
    requires OnceOnly(calls, id) && calls <= calls' && |calls'| <= |calls| + 1
    requires Made(calls, id) ==> forall k | |calls| <= k < |calls'| :: calls'[k].id != id
    ensures OnceOnly(calls', id)
  {
    forall j, k | 0 <= j < k < |calls'| && calls'[j].id == id && calls'[k].id == id ensures !Good(calls'[j]) {
      assert calls'[j] == calls[j];
    }
  }

  lemma {:induction false} SoundCalls(d: Desk, acts: seq<Action>, id: TaskId, target: Format)
    requires InOrder(d, id, target) && IsDocument(target) && Acts(d, acts) && AllKeep(acts, id, target)
    requires Sound(d, acts, id, target) && OnceOnly(d.calls, id)
    ensures OnceOnly(Afterwards(d, acts).calls, id)
    decreases |acts|
  {
    hide Act, InOrder, FinalAt, Can, Keeps, OnceOnly, Made;
    if Made(d.calls, id) && FinalAt(d.cache, id, target) {
      StaysFinalCalls(d, acts, id, target);
    } else if acts != [] {
      assert Keeps(acts[0], id, target);
      CallStep(d, acts[0], id, target);
      ActKeeps(d, acts[0], id, target);
      OnceMore(d.calls, Act(d, acts[0]).calls, id);
      SoundCalls(Act(d, acts[0]), acts[1..], id, target);
    }
  }

  /** A sound run converts nothing again after its document was made. */
  lemma {:induction false} SoundMeansOnce(acts: seq<Action>, id: TaskId, target: Format)
    requires IsDocument(target) && Acts(IDLE, acts) && AllKeep(acts, id, target)
    requires NoOverlap(IDLE, acts, id, target)
    ensures OnceOnly(Afterwards(IDLE, acts).calls, id)
  {
    SoundIff(acts, id, target);
    SoundCalls(IDLE, acts, id, target);
  }

  // ----- before the document is stored

  /** The command has looked at the cache for `id` and is not at its end. */
  predicate Past(pc: Pc, id: TaskId) {
    Holds(pc).Some? && Holds(pc).value.id == id
  }

  /** The command is going to call the converter for `id`. */
  predicate Pending(pc: Pc, id: TaskId) {
    (pc.Marks? || pc.Converts?) && pc.task.id == id
  }

  /** A command looks for `id` while another one is past its look for it. */
  predicate Crowds(d: Desk, a: Action, id: TaskId)
    requires Can(d, a)
  {
    && a.Advance? && d.commands[a.i].pc.Looks? && d.commands[a.i].pc.task.id == id
    && exists j | 0 <= j < |d.commands| :: j != a.i && Past(d.commands[j].pc, id)
  }

  ghost predicate SoloLooks(d: Desk, acts: seq<Action>, id: TaskId)
    requires Acts(d, acts)
    decreases |acts|
  {
    acts == [] || (!Crowds(d, acts[0], id) && SoloLooks(Act(d, acts[0]), acts[1..], id))
  }

  /** No command is going to convert while another one is behind. */
  predicate Lone(d: Desk, id: TaskId, target: Format) {
    forall i, j | 0 <= i < |d.commands| && 0 <= j < |d.commands| && i != j ::
      !(Pending(d.commands[i].pc, id) && Behind(d.commands[j].pc, id, target))
  }

  /** A command is about to store the finished document. */
  predicate HasMaker(d: Desk, id: TaskId, target: Format) {
    exists i | 0 <= i < |d.commands| :: IsMaker(d.commands[i].pc, id, target)
  }

  predicate IsMaker(pc: Pc, id: TaskId, target: Format) {
    pc.Stores? && pc.task.id == id && OutputFinal(pc.task, target)
  }

  /** At any moment: before a document is made no two commands are about to spoil it; between
      making and storing it one command has it and none is behind; then none is behind. */
  predicate Orderly(d: Desk, id: TaskId, target: Format) {
    if !Made(d.calls, id) then Lone(d, id, target)
    else NoneBehind(d, id, target) && (FinalAt(d.cache, id, target) || HasMaker(d, id, target))
  }

  /** What one region does to the standing of its command. */
  lemma RegionStanding(d: Desk, i: nat, snapshot: Task, a: Answer, id: TaskId, target: Format)
    requires InOrder(d, id, target) && IsDocument(target) && i < |d.commands|
    requires snapshot.id == id ==> snapshot.outputType == target
    ensures var pc := d.commands[i].pc;
            var (cache, pc', calls) := Region(d.cache, pc, snapshot, a);
            && (Pending(pc', id) ==> Pending(pc, id) || (pc.Looks? && pc.task.id == id))
            && (Behind(pc', id, target) ==> Behind(pc, id, target) || (pc.Looks? && pc.task.id == id))
            && |calls| <= 1
            && (calls != [] && calls[0].id == id ==> Pending(pc, id) && (Good(calls[0]) ==> IsMaker(pc', id, target)))
            && (IsMaker(pc, id, target) ==> FinalAt(cache, id, target))
            && (FinalAt(d.cache, id, target) && !Behind(pc, id, target) ==> FinalAt(cache, id, target))
            && (FinalAt(d.cache, id, target) && Behind(pc', id, target) ==> Behind(pc, id, target))
  {
    hide AllSuffix, ConvertPages, NeedsPageConversion, NeedsDocument;
    assert Sane(d.commands[i], id, target, d.clock);
    if Pending(d.commands[i].pc, id) { ConvertStanding(d.commands[i].pc.task, a, target); }
  }

  lemma ConvertStanding(t: Task, a: Answer, target: Format)
    requires t.outputType == target
    ensures CallsOf(t, a) != [] && Good(CallsOf(t, a)[0]) ==> OutputFinal(WithDocument(t, a), target)
  {
  }

  lemma MadeMore(calls: seq<Call>, more: seq<Call>, id: TaskId)
    requires |more| <= 1
    ensures Made(calls + more, id) <==> Made(calls, id) || (more != [] && more[0].id == id && Good(more[0]))
  {
    hide Good;
    var all := calls + more;
    if Made(calls, id) {
      var k :| 0 <= k < |calls| && calls[k].id == id && Good(calls[k]);
      assert all[k] == calls[k];
    }
    if more != [] && more[0].id == id && Good(more[0]) {
      assert all[|calls|] == more[0];
    }
  }

  /** An orderly service stays so as long as no look crowds. */
  lemma SoloAdvance(d: Desk, a: Action, id: TaskId, target: Format)
    requires InOrder(d, id, target) && IsDocument(target) && Can(d, a) && Keeps(a, id, target) && a.Advance?
    requires Orderly(d, id, target) && !Crowds(d, a, id)
    ensures Orderly(Act(d, a), id, target)
    ensures Made(d.calls, id) ==> !CallsFor(d, Act(d, a), id)
  {
    hide InOrder, Region, FinalAt, Behind, Pending, IsMaker, Made, Good, Holds;
    var d', i := Act(d, a), a.i;
    var pc, pc' := d.commands[i].pc, d'.commands[i].pc;
    var calls := Region(d.cache, pc, a.snapshot, a.answer).2;
    RegionStanding(d, i, a.snapshot, a.answer, id, target);
    MadeMore(d.calls, calls, id);
    Standings(id, target);
    assert forall j | 0 <= j < |d.commands| && j != i :: d'.commands[j] == d.commands[j];
    if Made(d'.calls, id) && !Made(d.calls, id) {
      assert forall j | 0 <= j < |d.commands| && j != i :: !Behind(d.commands[j].pc, id, target);
      assert IsMaker(d'.commands[i].pc, id, target);
    } else if Made(d.calls, id) && HasMaker(d, id, target) && !IsMaker(pc, id, target) {
      var m :| 0 <= m < |d.commands| && IsMaker(d.commands[m].pc, id, target);
      assert IsMaker(d'.commands[m].pc, id, target);
    }
  }

  lemma Standings(id: TaskId, target: Format)
    ensures forall pc :: Pending(pc, id) ==> Behind(pc, id, target)
    ensures forall pc :: Behind(pc, id, target) ==> Past(pc, id)
    ensures forall pc :: IsMaker(pc, id, target) ==> Past(pc, id) && !Behind(pc, id, target) && !pc.Looks?
  {
  }

  lemma SoloArrival(d: Desk, a: Action, id: TaskId, target: Format)
    requires InOrder(d, id, target) && IsDocument(target) && Can(d, a) && Keeps(a, id, target) && !a.Advance?
    requires Orderly(d, id, target)
    ensures Orderly(Act(d, a), id, target) && Act(d, a).calls == d.calls
  {
    hide InOrder, FinalAt, IsMaker, Made, Behind, Pending, Can;
    var d' := Act(d, a);
    if FinalAt(d.cache, id, target) { ArrivalKeepsFinal(d, a, id, target); }
    NewAreHarmless(d, a, id, target);
    if Made(d.calls, id) && HasMaker(d, id, target) {
      var m :| 0 <= m < |d.commands| && IsMaker(d.commands[m].pc, id, target);
      assert IsMaker(d'.commands[m].pc, id, target);
    }
  }

  lemma ArrivalKeepsFinal(d: Desk, a: Action, id: TaskId, target: Format)
    requires Can(d, a) && !a.Advance? && FinalAt(d.cache, id, target)
    ensures FinalAt(Act(d, a).cache, id, target)
  {
  }

  lemma NewAreHarmless(d: Desk, a: Action, id: TaskId, target: Format)
    requires Can(d, a) && !a.Advance?
    ensures |d.commands| <= |Act(d, a).commands|
    ensures forall k | 0 <= k < |d.commands| :: Act(d, a).commands[k] == d.commands[k]
    ensures forall k | |d.commands| <= k < |Act(d, a).commands| ::
              var pc := Act(d, a).commands[k].pc; !Behind(pc, id, target) && !Pending(pc, id)
  {
  }

  lemma SoloStep(d: Desk, a: Action, id: TaskId, target: Format)
    requires InOrder(d, id, target) && IsDocument(target) && Can(d, a) && Keeps(a, id, target)
    requires Orderly(d, id, target) && !Crowds(d, a, id)
    ensures Orderly(Act(d, a), id, target)
    ensures Made(d.calls, id) ==> !CallsFor(d, Act(d, a), id)
  {
    hide Orderly, InOrder, Made, Act;
    if a.Advance? { SoloAdvance(d, a, id, target); } else { SoloArrival(d, a, id, target); }
  }

  /** From an orderly moment on, runs in which no look crowds are sound. */
  lemma {:induction false} SoloSound(d: Desk, acts: seq<Action>, id: TaskId, target: Format)
    requires InOrder(d, id, target) && IsDocument(target) && Acts(d, acts) && AllKeep(acts, id, target)
    requires Orderly(d, id, target) && SoloLooks(d, acts, id)
    ensures Sound(d, acts, id, target)
    decreases |acts|
  {
    hide Act, InOrder, FinalAt, Can, Keeps, CallsFor, Made, Crowds, Lone, NoneBehind, HasMaker;
    if Made(d.calls, id) && FinalAt(d.cache, id, target) {
      SafeIff(d, id, target);
    } else if acts != [] {
      assert Keeps(acts[0], id, target);
      SoloStep(d, acts[0], id, target);
      ActKeeps(d, acts[0], id, target);
      SoloSound(Act(d, acts[0]), acts[1..], id, target);
    }
  }

  /** Before a document is made: every continuation in which no look crowds is sound. */
  ghost predicate SoloSafe(d: Desk, id: TaskId, target: Format) {
    forall acts | Acts(d, acts) && AllKeep(acts, id, target) && SoloLooks(d, acts, id) :: Sound(d, acts, id, target)
  }

  /** A continuation in which no look crowds and that is not sound. */
  ghost predicate Spoils(d: Desk, acts: seq<Action>, id: TaskId, target: Format) {
    Acts(d, acts) && AllKeep(acts, id, target) && SoloLooks(d, acts, id) && !Sound(d, acts, id, target)
  }

  lemma {:induction false} SpoilsLater(d: Desk, a: Action, acts: seq<Action>, id: TaskId, target: Format)
    requires Can(d, a) && Keeps(a, id, target) && !Crowds(d, a, id)
    requires !(Made(d.calls, id) && FinalAt(d.cache, id, target)) && Spoils(Act(d, a), acts, id, target)
    ensures Spoils(d, [a] + acts, id, target)
  {
    hide Act, Can, Keeps, Crowds, Made, FinalAt, CallsFor;
    assert ([a] + acts)[1..] == acts;
  }

  /** With the document stored, a command that is behind spoils it. */
  lemma {:induction false} SpoilStored(d: Desk, j: nat, id: TaskId, target: Format) returns (acts: seq<Action>)
    requires InOrder(d, id, target) && IsDocument(target) && j < |d.commands| && Behind(d.commands[j].pc, id, target)
    requires Made(d.calls, id) && FinalAt(d.cache, id, target)
    ensures Spoils(d, acts, id, target)
  {
    var a := OneHarm(d, j, id, target);
    FinalStep(d, a, id, target);
    HarmIsBehind(d, a, id, target);
    acts := [a];
    OneMoveSpoils(d, a, id, target);
  }

  lemma {:induction false} OneMoveSpoils(d: Desk, a: Action, id: TaskId, target: Format)
    requires Can(d, a) && Keeps(a, id, target) && !Crowds(d, a, id)
    requires Made(d.calls, id) && FinalAt(d.cache, id, target)
    requires !FinalAt(Act(d, a).cache, id, target) || CallsFor(d, Act(d, a), id)
    ensures Spoils(d, [a], id, target)
  {
    hide Act, FinalAt, CallsFor, Can, Crowds, Made, Keeps;
    assert [a][1..] == [];
    assert Acts(Act(d, a), []);
    assert SoloLooks(Act(d, a), [], id);
    assert !StaysFinal(d, [a], id, target);
  }

  /** With the document made, it is stored first. */
  lemma {:induction false} SpoilMade(d: Desk, i: nat, j: nat, id: TaskId, target: Format) returns (acts: seq<Action>)
    requires InOrder(d, id, target) && IsDocument(target) && i < |d.commands| && j < |d.commands| && i != j
    requires Made(d.calls, id) && IsMaker(d.commands[i].pc, id, target) && Behind(d.commands[j].pc, id, target)
    ensures Spoils(d, acts, id, target)
  {
    if FinalAt(d.cache, id, target) {
      acts := SpoilStored(d, j, id, target);
    } else {
      var a := Advance(i, Task(0, Queued, target, target, [], false), Answer(true, [], true, None));
      RegionStanding(d, i, a.snapshot, a.answer, id, target);
      ActKeeps(d, a, id, target);
      MadeMore(d.calls, [], id);
      acts := SpoilStored(Act(d, a), j, id, target);
      SpoilsLater(d, a, acts, id, target);
      acts := [a] + acts;
    }
  }

  /** With one command about to convert, it makes the document first. */
  lemma {:induction false} SpoilConvert(d: Desk, i: nat, j: nat, id: TaskId, target: Format)
    returns (acts: seq<Action>)
    requires InOrder(d, id, target) && IsDocument(target) && i < |d.commands| && j < |d.commands| && i != j
    requires !Made(d.calls, id) && d.commands[i].pc.Converts? && d.commands[i].pc.task.id == id
    requires Behind(d.commands[j].pc, id, target)
    ensures Spoils(d, acts, id, target)
  {
    var a := Advance(i, Task(0, Queued, target, target, [], false), GoodAnswer(target));
    assert Sane(d.commands[i], id, target, d.clock);
    GoodConversion(d.commands[i].pc.task, target);
    ActKeeps(d, a, id, target);
    MadeMore(d.calls, CallsOf(d.commands[i].pc.task, a.answer), id);
    acts := SpoilMade(Act(d, a), i, j, id, target);
    SpoilsLater(d, a, acts, id, target);
    acts := [a] + acts;
  }

  function GoodAnswer(target: Format): Answer {
    Answer(true, [], true, Some([Path(0, target)]))
  }

  lemma GoodConversion(t: Task, target: Format)
    requires t.outputType == target
    ensures var calls := CallsOf(t, GoodAnswer(target)); |calls| == 1 && calls[0].id == t.id && Good(calls[0])
    ensures OutputFinal(WithDocument(t, GoodAnswer(target)), target)
  {
  }

  lemma {:induction false} SpoilPending(d: Desk, i: nat, j: nat, id: TaskId, target: Format)
    returns (acts: seq<Action>)
    requires InOrder(d, id, target) && IsDocument(target) && i < |d.commands| && j < |d.commands| && i != j
    requires !Made(d.calls, id) && Pending(d.commands[i].pc, id) && Behind(d.commands[j].pc, id, target)
    ensures Spoils(d, acts, id, target)
  {
    if d.commands[i].pc.Converts? {
      acts := SpoilConvert(d, i, j, id, target);
    } else {
      var a := Advance(i, Task(0, Queued, target, target, [], false), GoodAnswer(target));
      ActKeeps(d, a, id, target);
      MadeMore(d.calls, [], id);
      acts := SpoilConvert(Act(d, a), i, j, id, target);
      SpoilsLater(d, a, acts, id, target);
      acts := [a] + acts;
    }
  }

  /** At any moment before a document is made: all continuations in which no command looks while
      another is past its look are sound iff no command in flight is going to convert while
      another one is behind. */
  lemma {:induction false} EarlyIff(d: Desk, id: TaskId, target: Format)
    requires InOrder(d, id, target) && IsDocument(target) && !Made(d.calls, id)
    ensures SoloSafe(d, id, target) <==> Lone(d, id, target)
  {
    if Lone(d, id, target) {
      forall acts | Acts(d, acts) && AllKeep(acts, id, target) && SoloLooks(d, acts, id)
        ensures Sound(d, acts, id, target)
      {
        SoloSound(d, acts, id, target);
      }
    } else {
      var i, j :| 0 <= i < |d.commands| && 0 <= j < |d.commands| && i != j
                    && Pending(d.commands[i].pc, id) && Behind(d.commands[j].pc, id, target);
      var acts := SpoilPending(d, i, j, id, target);
      assert Spoils(d, acts, id, target);
    }
  }

  /** It is enough that no command ever looks at the cache for the scan while another one is past
      its look for it: then nothing is converted after its document was made. */
  lemma {:induction false} SoloLooksAreEnough(acts: seq<Action>, id: TaskId, target: Format)
    requires IsDocument(target) && Acts(IDLE, acts) && AllKeep(acts, id, target) && SoloLooks(IDLE, acts, id)
    ensures Sound(IDLE, acts, id, target) && OnceOnly(Afterwards(IDLE, acts).calls, id)
  {
    SoloSound(IDLE, acts, id, target);
    SoundIff(acts, id, target);
    SoundMeansOnce(acts, id, target);
  }

  // ----- two runs that fail

  lemma {:induction false} Extend(d: Desk, acts: seq<Action>, a: Action)
    requires Acts(d, acts) && Can(Afterwards(d, acts), a)
    ensures Acts(d, acts + [a]) && Afterwards(d, acts + [a]) == Act(Afterwards(d, acts), a)
    decreases |acts|
  {
    hide Act, Can;
    if acts == [] {
      assert [a][1..] == [];
    } else {
      assert (acts + [a])[1..] == acts[1..] + [a];
      Extend(Act(d, acts[0]), acts[1..], a);
    }
  }

  /** Page images of a finished scan, and a converter that makes the document of them. */
  predicate Scanned(pages: Task, a: Answer) {
    && pages.id != 0 && NeedsDocument(pages) && !OutputFinal(pages, pages.outputType)
    && a.docDirReady && a.outputs.Some? && a.outputs.value != [] && AllSuffix(a.outputs.value, pages.outputType)
  }

  /** `acts` leads to `d` from an idle service. */
  ghost predicate Leads(acts: seq<Action>, d: Desk) {
    Acts(IDLE, acts) && Afterwards(IDLE, acts) == d
  }

  lemma Nothing()
    ensures Leads([], IDLE)
  {
  }

  lemma {:induction false} Then(acts: seq<Action>, d: Desk, a: Action, d': Desk) returns (more: seq<Action>)
    requires Leads(acts, d) && Can(d, a)
    requires var e := Act(d, a);
             e.cache == d'.cache && e.calls == d'.calls && e.commands == d'.commands && e.clock == d'.clock
    ensures more == acts + [a] && Leads(more, d')
  {
    hide Act, Can;
    more := acts + [a];
    Extend(IDLE, acts, a);
  }

  function Marked(t: Task): Task {
    t.(status := Status.Converting)
  }

  /** An event has marked its scan as converting, and a query has asked the provider. */
  lemma {:induction false} EventAndQuery(pages: Task, a: Answer) returns (acts: seq<Action>)
    requires Scanned(pages, a)
    ensures Leads(acts, Desk(map[pages.id := Marked(pages)], [],
                             [Command(Converts(pages), true, 2), Command(Looks(pages), false, 0)], 5))
  {
    hide Leads, OutputFinal, AllSuffix;
    Nothing();
    var one, asks, looks := Command(Looks(pages), true, 0), Command(Asks(pages.id), false, 0),
        Command(Looks(pages), false, 0);
    var d1 := Desk(map[], [], [one], 1);
    var d2 := Desk(map[], [], [one, asks], 2);
    var d3 := Desk(map[], [], [Command(Marks(pages), true, 2), asks], 3);
    var d4 := Desk(map[], [], [Command(Marks(pages), true, 2), looks], 4);
    var d5 := Desk(map[pages.id := Marked(pages)], [], [Command(Converts(pages), true, 2), looks], 5);
    acts := Then([], IDLE, Arrive(pages), d1);
    acts := Then(acts, d1, Query(pages.id), d2);
    acts := Then(acts, d2, Advance(0, pages, a), d3);
    acts := Then(acts, d3, Advance(1, pages, a), d4);
    acts := Then(acts, d4, Advance(0, pages, a), d5);
  }

  /** A query sees the conversion in progress and stores its copy after the document: the entry is
      back to converting. */
  lemma {:induction false} StaleCopyWins(pages: Task, a: Answer) returns (stored: seq<Action>, acts: seq<Action>)
    requires Scanned(pages, a)
    ensures Acts(IDLE, stored) && FinalAt(Afterwards(IDLE, stored).cache, pages.id, pages.outputType)
    ensures stored < acts && Acts(IDLE, acts) && Made(Afterwards(IDLE, acts).calls, pages.id)
    ensures Stuck(Afterwards(IDLE, acts).cache, pages.id, pages.outputType)
  {
    hide OutputFinal, AllSuffix;
    DocumentIsFinal(pages, a);
    var copy, document := Marked(pages), WithDocument(pages, a);
    var marked := map[pages.id := copy];
    var calls := [Call(pages.id, pages.outputType, a.outputs)];
    var converts, late := Command(Converts(pages), true, 2), Command(Stores(copy), false, 5);
    var d5 := Desk(marked, [], [converts, Command(Looks(pages), false, 0)], 5);
    var d6 := Desk(marked, [], [converts, late], 6);
    var d7 := Desk(marked, calls, [Command(Stores(document), true, 2), late], 7);
    var d8 := Desk(map[pages.id := document], calls, [Command(Ended, true, 2), late], 8);
    var d9 := Desk(marked, calls, [Command(Ended, true, 2), Command(Ended, false, 5)], 9);
    acts := EventAndQuery(pages, a);
    acts := Then(acts, d5, Advance(1, pages, a), d6);   // looks: in progress
    acts := Then(acts, d6, Advance(0, pages, a), d7);   // converts
    acts := Then(acts, d7, Advance(0, pages, a), d8);   // stores the document
    stored := acts;
    acts := Then(acts, d8, Advance(1, pages, a), d9);   // stores its copy
    assert Good(calls[0]);
  }

  /** Two queries have both looked and found nothing. */
  lemma {:induction false} TwoQueries(pages: Task, a: Answer) returns (acts: seq<Action>)
    requires Scanned(pages, a)
    ensures Leads(acts, Desk(map[], [], [Command(Marks(pages), false, 4), Command(Marks(pages), false, 5)], 6))
  {
    hide Leads, OutputFinal, AllSuffix;
    Nothing();
    var asks, looks := Command(Asks(pages.id), false, 0), Command(Looks(pages), false, 0);
    var d1 := Desk(map[], [], [asks], 1);
    var d2 := Desk(map[], [], [asks, asks], 2);
    var d3 := Desk(map[], [], [looks, asks], 3);
    var d4 := Desk(map[], [], [looks, looks], 4);
    var d5 := Desk(map[], [], [Command(Marks(pages), false, 4), looks], 5);
    var d6 := Desk(map[], [], [Command(Marks(pages), false, 4), Command(Marks(pages), false, 5)], 6);
    acts := Then([], IDLE, Query(pages.id), d1);
    acts := Then(acts, d1, Query(pages.id), d2);
    acts := Then(acts, d2, Advance(0, pages, a), d3);
    acts := Then(acts, d3, Advance(1, pages, a), d4);
    acts := Then(acts, d4, Advance(0, pages, a), d5);
    acts := Then(acts, d5, Advance(1, pages, a), d6);
  }

  /** Two queries both look before either marks: both convert, and the later mark overwrites the
      entry that was already final. */
  lemma {:induction false} TwoQueriesConvertTwice(pages: Task, a: Answer)
    returns (stored: seq<Action>, marked: seq<Action>, acts: seq<Action>)
    requires Scanned(pages, a)
    ensures Acts(IDLE, stored) && FinalAt(Afterwards(IDLE, stored).cache, pages.id, pages.outputType)
    ensures Acts(IDLE, marked) && Stuck(Afterwards(IDLE, marked).cache, pages.id, pages.outputType)
    ensures stored < marked < acts
    ensures Acts(IDLE, acts) && !OnceOnly(Afterwards(IDLE, acts).calls, pages.id)
  {
    hide OutputFinal, AllSuffix, OnceOnly;
    DocumentIsFinal(pages, a);
    var document := WithDocument(pages, a);
    var cache, call := map[pages.id := Marked(pages)], Call(pages.id, pages.outputType, a.outputs);
    var ended, second := Command(Ended, false, 4), Command(Marks(pages), false, 5);
    var d6 := Desk(map[], [], [Command(Marks(pages), false, 4), second], 6);
    var d7 := Desk(cache, [], [Command(Converts(pages), false, 4), second], 7);
    var d8 := Desk(cache, [call], [Command(Stores(document), false, 4), second], 8);
    var d9 := Desk(map[pages.id := document], [call], [ended, second], 9);
    var d10 := Desk(cache, [call], [ended, Command(Converts(pages), false, 5)], 10);
    var d11 := Desk(cache, [call, call], [ended, Command(Stores(document), false, 5)], 11);
    acts := TwoQueries(pages, a);
    acts := Then(acts, d6, Advance(0, pages, a), d7);     // the first marks,
    acts := Then(acts, d7, Advance(0, pages, a), d8);     // converts
    acts := Then(acts, d8, Advance(0, pages, a), d9);     // and stores the document
    stored := acts;
    acts := Then(acts, d9, Advance(1, pages, a), d10);    // the second marks
    marked := acts;
    acts := Then(acts, d10, Advance(1, pages, a), d11);   // and converts
    CalledTwice(call);
  }

  lemma CalledTwice(call: Call)
    requires Good(call)
    ensures !OnceOnly([call, call], call.id)
  {
    var calls := [call, call];
    assert calls[0] == calls[1] == call;
  }

  lemma DocumentIsFinal(pages: Task, a: Answer)
    requires Scanned(pages, a)
    ensures OutputFinal(WithDocument(pages, a), pages.outputType)
    ensures WithDocument(pages, a).outputType == pages.outputType && Good(Call(pages.id, pages.outputType, a.outputs))
  {
  }
}
