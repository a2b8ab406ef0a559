/** Finalisation of TWAIN scans: the provider produces page images, the command layer turns them
    into the requested document, and its task cache keeps it from doing so twice. */
module TwainCache {
  import opened Wrappers

  type TaskId = nat    // 0 is the empty id

  /** Formats, output types and file suffixes after normalisation. */
  datatype Format = Pdf | Ofd | Tiff | Images | Jpg | Png | Bmp | NoFormat | OtherFormat
  datatype Status = Queued | Running | Enhancing | Converting | Completed | Failed | Cancelled
  datatype Path = Path(name: nat, suffix: Format)

  datatype Task = Task(id: TaskId, status: Status, outputType: Format, outputFormat: Format, paths: seq<Path>,
                       cancelRequested: bool)

  type Cache = map<TaskId, Task>

  /** A call of the document converter, or the page-by-page conversion of images, with what came
      back. */
  datatype Call =
    | Call(id: TaskId, target: Format, outputs: Option<seq<Path>>)
    | PagesCall(id: TaskId, inputs: seq<Path>, outputs: Option<seq<Path>>)

  /** What the file system and the converters answer; `pages[i]` is the converted page `i`. */
  datatype Answer = Answer(imageDirReady: bool, pages: seq<Option<Path>>, docDirReady: bool, outputs: Option<seq<Path>>)

  predicate IsDocument(f: Format) {
    f == Pdf || f == Ofd || f == Tiff
  }

  predicate IsImageFormat(f: Format) {
    f == Jpg || f == Png || f == Bmp || f == Tiff
  }

  predicate Terminal(t: Task) {
    t.status == Completed || t.status == Failed || t.status == Cancelled
  }

  predicate AllSuffix(paths: seq<Path>, f: Format) {
    forall i | 0 <= i < |paths| :: paths[i].suffix == f
  }

  predicate OutputFinal(t: Task, target: Format) {
    t.status == Completed && t.paths != [] && t.outputFormat == target && AllSuffix(t.paths, target)
  }

  predicate InProgress(t: Task, target: Format) {
    t.status == Converting && t.outputType == target && t.paths != []
  }

  predicate UseCached(t: Task, target: Format) {
    OutputFinal(t, target) || InProgress(t, target)
  }

  predicate CachedFor(cache: Cache, id: TaskId, target: Format) {
    id in cache && UseCached(cache[id], target)
  }

  // ----- FinalizeTwainScanTask, in the pieces between which other threads can run

  function PageAnswer(a: Answer, i: nat): Option<Path> {
    if i < |a.pages| then a.pages[i] else None
  }

  /** The converted pages, if every one of the first `n` could be converted. */
  function ConvertPages(a: Answer, n: nat): (r: Option<seq<Path>>)
    ensures r.Some? ==> |r.value| == n && forall i | 0 <= i < n :: PageAnswer(a, i) == Some(r.value[i])
    ensures r.Some? <==> forall i | 0 <= i < n :: PageAnswer(a, i).Some?
  {
    if n == 0 then Some([])
    else
      var r := ConvertPages(a, n - 1);
      if r.None? || PageAnswer(a, n - 1).None? then None else Some(r.value + [PageAnswer(a, n - 1).value])
  }

  predicate NeedsPageConversion(t: Task) {
    && t.status == Completed && t.outputType == Images && IsImageFormat(t.outputFormat) && t.paths != []
    && !AllSuffix(t.paths, t.outputFormat)
  }

  predicate NeedsDocument(t: Task) {
    t.status == Completed && IsDocument(t.outputType) && t.paths != []
  }

  /** The page conversion of an images task. */
  function WithPages(t: Task, a: Answer): Task {
    var pages := ConvertPages(a, |t.paths|);
    if !a.imageDirReady || pages.None? then t.(status := Failed)
    else t.(paths := pages.value)
  }

  function PageCallsOf(t: Task, a: Answer): seq<Call> {
    if a.imageDirReady then [PagesCall(t.id, t.paths, ConvertPages(a, |t.paths|))] else []
  }

  function WithDocument(t: Task, a: Answer): Task {
    if !a.docDirReady || a.outputs.None? then t.(status := Failed)
    else t.(status := Completed, outputFormat := t.outputType, paths := a.outputs.value)
  }

  function CallsOf(t: Task, a: Answer): seq<Call> {
    if a.docDirReady then [Call(t.id, t.outputType, a.outputs)] else []
  }

  /** The whole function with nothing in between: the cache, the task and the converter calls. */
  function Finalize(cache: Cache, t: Task, a: Answer): (Cache, Task, seq<Call>) {
    if t.id == 0 then (cache, t, [])
    else if IsDocument(t.outputType) && OutputFinal(t, t.outputType) then (cache, t, [])
    else if IsDocument(t.outputType) && CachedFor(cache, t.id, t.outputType) then (cache, cache[t.id], [])
    else if NeedsPageConversion(t) then (cache[t.id := WithPages(t, a)], WithPages(t, a), PageCallsOf(t, a))
    else if !NeedsDocument(t) then (cache, t, [])
    else (cache[t.id := t.(status := Converting)], WithDocument(t, a), CallsOf(t, a))
  }

  // ----- the commands

  datatype World = World(cache: Cache, calls: seq<Call>)

  datatype Move =
    | Event(task: Task, answer: Answer)                            // a snapshot pushed by the provider
    | Scan(resultId: TaskId, task: Task, answer: Answer)           // twain.scan
    | Get(id: TaskId, resultId: TaskId, task: Task, answer: Answer) // twain.scan_get
    | Cancel(id: TaskId)                                           // twain.scan_cancel

  function Next(w: World, m: Move): World {
    match m
    case Event(task, a) =>
      if task.id == 0 then w
      else
        var (cache, t, calls) := Finalize(w.cache, task, a);
        World(cache[t.id := t], w.calls + calls)
    case Scan(resultId, task, a) =>
      if resultId == 0 then w
      else
        var (cache, t, calls) := Finalize(w.cache, task, a);
        World(cache[resultId := t], w.calls + calls)
    case Get(id, resultId, task, a) =>
      if id == 0 then w
      else if id in w.cache && Terminal(w.cache[id]) then
        var (cache, t, calls) := Finalize(w.cache, w.cache[id], a);
        World(cache[id := t], w.calls + calls)
      else
        var (cache, t, calls) := Finalize(w.cache, task, a);
        World(if resultId == 0 then cache else cache[resultId := t], w.calls + calls)
    case Cancel(id) =>
      if id !in w.cache then w else w.(cache := w.cache[id := w.cache[id].(cancelRequested := true)])
  }

  /** The provider answers about one task under one id and never changes what was asked for. */
  predicate Conforms(m: Move, id: TaskId, target: Format) {
    match m
    case Event(task, _) => task.id == id ==> task.outputType == target
    case Scan(resultId, task, _) => resultId == task.id && (task.id == id ==> task.outputType == target)
    case Get(_, resultId, task, _) => resultId == task.id && (task.id == id ==> task.outputType == target)
    case Cancel(_) => true
  }

  function Run(w: World, moves: seq<Move>): World
    decreases |moves|
  {
    if moves == [] then w else Run(Next(w, moves[0]), moves[1..])
  }

  // ----- what every command keeps

  ghost predicate Keyed(cache: Cache) {
    0 !in cache && forall id | id in cache :: cache[id].id == id
  }

  ghost predicate Typed(cache: Cache, id: TaskId, target: Format) {
    id in cache ==> cache[id].outputType == target
  }

  predicate FinalAt(cache: Cache, id: TaskId, target: Format) {
    id in cache && cache[id].outputType == target && OutputFinal(cache[id], target)
  }

  predicate Good(c: Call) {
    c.Call? && c.outputs.Some? && c.outputs.value != [] && AllSuffix(c.outputs.value, c.target)
  }

  /** A good call for `id` has been made. */
  predicate Made(calls: seq<Call>, id: TaskId) {
    exists k :: 0 <= k < |calls| && calls[k].id == id && Good(calls[k])
  }

  /** No call for `id` comes after a good one. */
  predicate OnceOnly(calls: seq<Call>, id: TaskId) {
    forall j, k | 0 <= j < k < |calls| && calls[j].id == id && calls[k].id == id :: !Good(calls[j])
  }

  ghost predicate Inv(w: World, id: TaskId, target: Format) {
    && Keyed(w.cache) && Typed(w.cache, id, target)
    && OnceOnly(w.calls, id)
    && (Made(w.calls, id) ==> FinalAt(w.cache, id, target))
  }

  /** The document converter is called exactly when a completed document task comes in whose output is not
      final yet and whose cached entry is neither final nor on its way. */
  lemma ConvertsIff(cache: Cache, t: Task, a: Answer)
    ensures (exists c <- Finalize(cache, t, a).2 :: c.Call?) <==>
              && t.id != 0 && a.docDirReady && t.status == Completed && IsDocument(t.outputType) && t.paths != []
              && !(t.outputFormat == t.outputType && AllSuffix(t.paths, t.outputType))
              && !CachedFor(cache, t.id, t.outputType)
  {
    if NeedsDocument(t) && a.docDirReady { assert CallsOf(t, a)[0].Call?; }
  }

  lemma FinalizeOther(cache: Cache, t: Task, a: Answer, id: TaskId)
    requires Keyed(cache) && t.id != id
    ensures var (cache', t', calls) := Finalize(cache, t, a);
            && t'.id == t.id && Keyed(cache')
            && (id in cache' <==> id in cache) && (id in cache ==> cache'[id] == cache[id])
            && (calls == [] || (|calls| == 1 && calls[0].id == t.id))
  {
  }

  lemma FinalizeOwn(cache: Cache, t: Task, a: Answer)
    requires Keyed(cache) && t.id != 0 && Typed(cache, t.id, t.outputType) && IsDocument(t.outputType)
    ensures var (cache', t', calls) := Finalize(cache, t, a);
            && t'.id == t.id && Keyed(cache') && t'.outputType == t.outputType
            && (FinalAt(cache, t.id, t.outputType) ==> calls == [] && OutputFinal(t', t.outputType))
            && (calls == [] || (|calls| == 1 && calls[0].id == t.id && calls[0].Call?
                 && calls[0].target == t.outputType))
            && (calls != [] && Good(calls[0]) ==> OutputFinal(t', t.outputType))
            && cache'.Keys <= cache.Keys + {t.id}
            && (forall k | k in cache' && k != t.id :: k in cache && cache'[k] == cache[k])
            && (forall k | k in cache && k != t.id :: k in cache')
  {
  }

  lemma MoreCalls(calls: seq<Call>, more: seq<Call>, id: TaskId)
    requires OnceOnly(calls, id) && |more| <= 1
    requires more != [] && more[0].id == id ==> !Made(calls, id)
    ensures OnceOnly(calls + more, id)
    ensures Made(calls + more, id) <==> Made(calls, id) || (more != [] && more[0].id == id && Good(more[0]))
  {
    var all := calls + more;
    if Made(calls, id) {
      var k :| 0 <= k < |calls| && calls[k].id == id && Good(calls[k]);
      assert all[k] == calls[k];
    }
    if more != [] && more[0].id == id && Good(more[0]) {
      assert all[|calls|] == more[0];
    }
  }

  /** Finalize a task and store the result under its id. */
  lemma StoreKeeps(w: World, t: Task, a: Answer, id: TaskId, target: Format)
    requires Inv(w, id, target) && IsDocument(target) && t.id != 0 && (t.id == id ==> t.outputType == target)
    ensures var (cache, t', calls) := Finalize(w.cache, t, a);
            && t'.id == t.id
            && Inv(World(cache[t.id := t'], w.calls + calls), id, target)
            && (FinalAt(w.cache, id, target) ==>
                  FinalAt(cache[t.id := t'], id, target) && forall k | 0 <= k < |calls| :: calls[k].id != id)
  {
    hide Finalize, Good, OutputFinal, OnceOnly, Made;
    var (cache, t', calls) := Finalize(w.cache, t, a);
    if t.id == id {
      FinalizeOwn(w.cache, t, a);
    } else {
      FinalizeOther(w.cache, t, a, id);
    }
    MoreCalls(w.calls, calls, id);
  }

  lemma MoveKeeps(w: World, m: Move, id: TaskId, target: Format)
    requires Inv(w, id, target) && IsDocument(target) && Conforms(m, id, target)
    ensures Inv(Next(w, m), id, target)
    ensures FinalAt(w.cache, id, target) ==>
              && FinalAt(Next(w, m).cache, id, target)
              && |w.calls| <= |Next(w, m).calls|
              && (forall k | |w.calls| <= k < |Next(w, m).calls| :: Next(w, m).calls[k].id != id)
  {
    hide Finalize, OnceOnly, Made;
    match m
    case Event(task, a) => if task.id != 0 { StoreKeeps(w, task, a, id, target); }
    case Scan(_, task, a) => if task.id != 0 { StoreKeeps(w, task, a, id, target); }
    case Get(asked, _, task, a) =>
      if asked != 0 {
        if asked in w.cache && Terminal(w.cache[asked]) { StoreKeeps(w, w.cache[asked], a, id, target); }
        else if task.id != 0 { StoreKeeps(w, task, a, id, target); }
        else { EmptyId(w, task, a); }
      }
    case Cancel(_) =>
  }

  lemma NoCalls(calls: seq<Call>)
    ensures calls + [] == calls
  {
  }

  lemma EmptyId(w: World, t: Task, a: Answer)
    requires t.id == 0
    ensures Finalize(w.cache, t, a) == (w.cache, t, []) && w.calls + [] == w.calls
  {
  }

  /** Once a document is final in the cache, no later snapshot, query or cancel of the same scan
      calls the converter for it again, and the entry stays final. */
  lemma {:induction false} FinalStaysFinal(w: World, moves: seq<Move>, id: TaskId, target: Format)
    requires Inv(w, id, target) && IsDocument(target) && FinalAt(w.cache, id, target)
    requires forall m <- moves :: Conforms(m, id, target)
    ensures var w' := Run(w, moves);
            && FinalAt(w'.cache, id, target) && |w.calls| <= |w'.calls|
            && (forall k | |w.calls| <= k < |w'.calls| :: w'.calls[k].id != id)
    decreases |moves|
  {
    hide Next, Inv, FinalAt, Conforms;
    if moves != [] {
      MoveKeeps(w, moves[0], id, target);
      CallsGrow(w, moves[0]);
      FinalStaysFinal(Next(w, moves[0]), moves[1..], id, target);
      CallsGrowRun(Next(w, moves[0]), moves[1..]);
    }
  }

  lemma CallsGrow(w: World, m: Move)
    ensures w.calls <= Next(w, m).calls
  {
    hide Finalize;
  }

  lemma {:induction false} CallsGrowRun(w: World, moves: seq<Move>)
    ensures w.calls <= Run(w, moves).calls
    decreases |moves|
  {
    hide Next;
    if moves != [] {
      CallsGrow(w, moves[0]);
      CallsGrowRun(Next(w, moves[0]), moves[1..]);
    }
  }

  lemma {:induction false} RunKeeps(w: World, moves: seq<Move>, id: TaskId, target: Format)
    requires Inv(w, id, target) && IsDocument(target) && forall m <- moves :: Conforms(m, id, target)
    ensures Inv(Run(w, moves), id, target)
    decreases |moves|
  {
    hide Next, Inv, Conforms;
    if moves != [] {
      MoveKeeps(w, moves[0], id, target);
      RunKeeps(Next(w, moves[0]), moves[1..], id, target);
    }
  }

  /** In any run from the empty cache, with the commands one after the other, no call of the
      converter for a scan follows one that produced its document. */
  lemma {:induction false} ConvertedOnce(moves: seq<Move>, id: TaskId, target: Format)
    requires IsDocument(target) && forall m <- moves :: Conforms(m, id, target)
    ensures OnceOnly(Run(World(map[], []), moves).calls, id)
    ensures Made(Run(World(map[], []), moves).calls, id) ==> FinalAt(Run(World(map[], []), moves).cache, id, target)
  {
    RunKeeps(World(map[], []), moves, id, target);
  }

  // ----- an entry left behind in the middle of a conversion

  predicate Stuck(cache: Cache, id: TaskId, target: Format) {
    id in cache && cache[id].id == id && InProgress(cache[id], target)
  }

  /** A snapshot of the scan that shows the finished document itself. */
  predicate ShowsFinal(m: Move, id: TaskId, target: Format) {
    match m
    case Event(task, _) => task.id == id && OutputFinal(task, target)
    case Scan(_, task, _) => task.id == id && OutputFinal(task, target)
    case Get(_, _, task, _) => task.id == id && OutputFinal(task, target)
    case Cancel(_) => false
  }

  lemma StoreStuck(cache: Cache, t: Task, a: Answer, id: TaskId, target: Format)
    requires Keyed(cache) && Stuck(cache, id, target) && IsDocument(target) && t.id != 0
    requires t.id == id ==> t.outputType == target && !OutputFinal(t, target)
    ensures var (cache', t', calls) := Finalize(cache, t, a);
            t'.id == t.id && Keyed(cache') && Stuck(cache'[t.id := t'], id, target)
  {
    hide OutputFinal;
    if t.id != id { FinalizeOther(cache, t, a, id); }
  }

  lemma StuckMove(w: World, m: Move, id: TaskId, target: Format)
    requires Keyed(w.cache) && Stuck(w.cache, id, target) && IsDocument(target)
    requires Conforms(m, id, target) && !ShowsFinal(m, id, target)
    ensures Keyed(Next(w, m).cache) && Stuck(Next(w, m).cache, id, target)
  {
    hide OutputFinal, Finalize;
    match m
    case Event(task, a) => if task.id != 0 { StoreStuck(w.cache, task, a, id, target); }
    case Scan(_, task, a) => if task.id != 0 { StoreStuck(w.cache, task, a, id, target); }
    case Get(asked, _, task, a) =>
      if asked != 0 {
        if asked in w.cache && Terminal(w.cache[asked]) { StoreStuck(w.cache, w.cache[asked], a, id, target); }
        else if task.id != 0 { StoreStuck(w.cache, task, a, id, target); }
        else { EmptyId(w, task, a); }
      }
    case Cancel(_) =>
  }

  /** An entry left in that state stays there, whatever is asked, for as long as the provider
      itself does not show the finished document. */
  lemma {:induction false} StuckStaysStuck(w: World, moves: seq<Move>, id: TaskId, target: Format)
    requires Keyed(w.cache) && Stuck(w.cache, id, target) && IsDocument(target)
    requires forall m <- moves :: Conforms(m, id, target) && !ShowsFinal(m, id, target)
    ensures Stuck(Run(w, moves).cache, id, target)
    decreases |moves|
  {
    hide Next, Stuck, Conforms, ShowsFinal;
    if moves != [] {
      StuckMove(w, moves[0], id, target);
      StuckStaysStuck(Next(w, moves[0]), moves[1..], id, target);
    }
  }

  /** What a query shows: the finalised cached task if that is terminal, or else the finalised
      snapshot of the provider. */
  function Answered(cache: Cache, id: TaskId, task: Task, a: Answer): Option<Task> {
    if id == 0 then None
    else Some(Finalize(cache, if id in cache && Terminal(cache[id]) then cache[id] else task, a).1)
  }

  // ----- the command layer as an object

  class TwainDesk {
    var tasks: Cache
    ghost var calls: seq<Call>

    ghost function View(): World
      reads this
    {
      World(tasks, calls)
    }

    constructor ()
      ensures View() == World(map[], [])
    {
      tasks, calls := map[], [];
    }

    method NeedsConversion(t: Task) returns (needed: bool)
      ensures needed <==> !AllSuffix(t.paths, t.outputFormat)
    {
      needed := false;
      for i := 0 to |t.paths|
        invariant !needed && AllSuffix(t.paths[..i], t.outputFormat)
      {
        if t.paths[i].suffix != t.outputFormat { return true; }
      }
      assert t.paths[..|t.paths|] == t.paths;
    }

    method ConvertImagePages(t: Task, a: Answer) returns (converted: Option<seq<Path>>)
      ensures converted == ConvertPages(a, |t.paths|)
    {
      var pages := [];
      for i := 0 to |t.paths|
        invariant ConvertPages(a, i) == Some(pages)
      {
        var page := PageAnswer(a, i);
        if page.None? {
          assert !(forall k | 0 <= k < |t.paths| :: PageAnswer(a, k).Some?);
          return None;
        }
        pages := pages + [page.value];
      }
      return Some(pages);
    }

    method FinalizeTwainScanTask(task: Task, a: Answer) returns (t: Task)
      modifies this
      ensures var (cache, t', more) := Finalize(old(tasks), task, a);
              tasks == cache && t == t' && calls == old(calls) + more
    {
      hide OutputFinal, InProgress, AllSuffix, ConvertPages;
      t := task;
      NoCalls(calls);
      if t.id == 0 { return t; }
      var target := t.outputType;
      if IsDocument(target) {
        if OutputFinal(t, target) { return t; }
        if t.id in tasks && UseCached(tasks[t.id], target) { return tasks[t.id]; }
      }
      if t.status == Completed && target == Images && IsImageFormat(t.outputFormat) && t.paths != [] {
        var needed := NeedsConversion(t);
        if needed {
          if !a.imageDirReady {
            t := t.(status := Failed);
            tasks := tasks[t.id := t];
            return t;
          }
          var converted := ConvertImagePages(t, a);
          calls := calls + [PagesCall(t.id, t.paths, converted)];
          if converted.None? {
            t := t.(status := Failed);
            tasks := tasks[t.id := t];
            return t;
          }
          t := t.(paths := converted.value);
          tasks := tasks[t.id := t];
          return t;
        }
      }
      if t.status != Completed || !IsDocument(target) || t.paths == [] { return t; }
      t := t.(status := Converting);
      tasks := tasks[t.id := t];
      if !a.docDirReady {
        return t.(status := Failed);
      }
      calls := calls + [Call(t.id, target, a.outputs)];
      if a.outputs.Some? {
        t := t.(status := Completed, outputType := target, outputFormat := target, paths := a.outputs.value);
      } else {
        t := t.(status := Failed);
      }
      return t;
    }

    method DispatchTwainScanTaskEvent(task: Task, a: Answer)
      modifies this
      ensures View() == Next(old(View()), Event(task, a))
    {
      hide Finalize;
      if task.id == 0 { return; }
      var t := FinalizeTwainScanTask(task, a);
      tasks := tasks[t.id := t];
    }

    method HandleTwainScan(resultId: TaskId, task: Task, a: Answer)
      modifies this
      ensures View() == Next(old(View()), Scan(resultId, task, a))
    {
      hide Finalize;
      if resultId == 0 { return; }
      var t := FinalizeTwainScanTask(task, a);
      tasks := tasks[resultId := t];
    }

    method HandleTwainScanGet(id: TaskId, resultId: TaskId, task: Task, a: Answer) returns (shown: Option<Task>)
      modifies this
      ensures View() == Next(old(View()), Get(id, resultId, task, a))
      ensures shown == Answered(old(tasks), id, task, a)
      ensures id != 0 && id in old(tasks) && FinalAt(old(tasks), id, old(tasks)[id].outputType)
                && IsDocument(old(tasks)[id].outputType) ==>
                shown == Some(old(tasks)[id]) && calls == old(calls)
    {
      if id == 0 { return None; }
      if id in tasks && Terminal(tasks[id]) {
        var t := FinalizeTwainScanTask(tasks[id], a);
        tasks := tasks[id := t];
        return Some(t);
      }
      var t := FinalizeTwainScanTask(task, a);
      if resultId != 0 {
        tasks := tasks[resultId := t];
      }
      return Some(t);
    }

    method HandleTwainScanCancel(id: TaskId)
      modifies this`tasks
      ensures View() == Next(old(View()), Cancel(id))
    {
      if id in tasks {
        tasks := tasks[id := tasks[id].(cancelRequested := true)];
      }
    }
  }
}
