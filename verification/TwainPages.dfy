/** What finalisation shows for images and for documents, in terms of the scan and of what the
    converters answer, and when the pages of a scan are converted more than once. */
module TwainPages {
  import opened Wrappers
  import opened TwainCache

  /** A finished scan whose pages still have to become images of the requested format. */
  predicate RawPages(t: Task) {
    && t.id != 0 && t.status == Completed && t.outputType == Images && t.outputFormat in {Jpg, Png, Bmp, Tiff}
    && exists i :: 0 <= i < |t.paths| && t.paths[i].suffix != t.outputFormat
  }

  /** A finished scan whose pages are to become a document. */
  predicate RawDocument(t: Task) {
    && t.id != 0 && t.status == Completed && t.outputType in {Pdf, Ofd, Tiff} && t.paths != []
    && (t.outputFormat != t.outputType || exists i :: 0 <= i < |t.paths| && t.paths[i].suffix != t.outputType)
  }

  /** Page `i` of the scan can be converted. */
  predicate PageConverts(a: Answer, i: nat) {
    i < |a.pages| && a.pages[i].Some?
  }

  /** `shown` is `t` with exactly the converted pages, in order, if the directory can be made and
      every page converts, and otherwise `t` as failed. */
  predicate PagesShown(t: Task, a: Answer, shown: Task) {
    && (shown.status == Completed <==> a.imageDirReady && forall i | 0 <= i < |t.paths| :: PageConverts(a, i))
    && (shown.status == Completed ==>
          && |shown.paths| == |t.paths|
          && forall i | 0 <= i < |t.paths| :: PageConverts(a, i) && shown.paths[i] == a.pages[i].value)
    && (shown.status != Completed ==> shown.status == Failed && shown.paths == t.paths)
    && SameScan(t, shown) && shown.outputFormat == t.outputFormat
  }

  /** `shown` is `t` with exactly the converter's files if the directory can be made and the
      converter succeeds, and otherwise `t` as failed. */
  predicate DocumentShown(t: Task, a: Answer, shown: Task) {
    && (shown.status == Completed <==> a.docDirReady && a.outputs.Some?)
    && (shown.status == Completed ==> Some(shown.paths) == a.outputs && shown.outputFormat == t.outputType)
    && (shown.status != Completed ==>
          shown.status == Failed && shown.paths == t.paths && shown.outputFormat == t.outputFormat)
    && SameScan(t, shown)
  }

  predicate SameScan(t: Task, shown: Task) {
    shown.id == t.id && shown.outputType == t.outputType && shown.cancelRequested == t.cancelRequested
  }

  /** Only the entry of `id` has changed, and it is `shown`. */
  predicate Stored(cache: Cache, cache': Cache, id: TaskId, shown: Task) {
    && cache'.Keys == cache.Keys + {id} && cache'[id] == shown
    && forall k | k in cache && k != id :: cache'[k] == cache[k]
  }

  /** What finalisation does with pages, ... */
  lemma PagesAre(cache: Cache, t: Task, a: Answer)
    requires RawPages(t)
    ensures var (cache', shown, calls) := Finalize(cache, t, a);
            && PagesShown(t, a, shown) && shown.id == t.id && Stored(cache, cache', t.id, shown)
            && (if a.imageDirReady then |calls| == 1 && calls[0].PagesCall? && calls[0].id == t.id else calls == [])
  {
    forall i | 0 <= i < |t.paths| ensures PageConverts(a, i) <==> PageAnswer(a, i).Some? {}
  }

  /** ... and with a document that is neither made nor on its way. */
  lemma DocumentIs(cache: Cache, t: Task, a: Answer)
    requires RawDocument(t) && !CachedFor(cache, t.id, t.outputType)
    ensures var (cache', shown, calls) := Finalize(cache, t, a);
            && DocumentShown(t, a, shown) && shown.id == t.id && Stored(cache, cache'[t.id := shown], t.id, shown)
            && calls == if a.docDirReady then [Call(t.id, t.outputType, a.outputs)] else []
  {
  }

  /** A pushed scan with raw pages is stored with its converted pages or as failed, whatever the
      cache said about it before; a query that reaches the provider shows and stores the same. */
  lemma {:induction false} PushedPages(w: World, t: Task, a: Answer)
    requires RawPages(t)
    ensures var w' := Next(w, Event(t, a));
            t.id in w'.cache && PagesShown(t, a, w'.cache[t.id]) && Stored(w.cache, w'.cache, t.id, w'.cache[t.id])
    ensures !(t.id in w.cache && Terminal(w.cache[t.id])) ==>
              && Next(w, Get(t.id, t.id, t, a)) == Next(w, Event(t, a))
              && Answered(w.cache, t.id, t, a) == Some(Next(w, Event(t, a)).cache[t.id])
  {
    hide Finalize, PagesShown;
    PagesAre(w.cache, t, a);
  }

  /** The same for documents. */
  lemma {:induction false} PushedDocument(w: World, t: Task, a: Answer)
    requires RawDocument(t) && !CachedFor(w.cache, t.id, t.outputType)
    ensures var w' := Next(w, Event(t, a));
            && t.id in w'.cache && DocumentShown(t, a, w'.cache[t.id])
            && Stored(w.cache, w'.cache, t.id, w'.cache[t.id])
    ensures !(t.id in w.cache && Terminal(w.cache[t.id])) ==>
              && Next(w, Get(t.id, t.id, t, a)) == Next(w, Event(t, a))
              && Answered(w.cache, t.id, t, a) == Some(Next(w, Event(t, a)).cache[t.id])
  {
    hide Finalize, DocumentShown, CachedFor;
    DocumentIs(w.cache, t, a);
  }

  /** A query does not look at the provider's snapshot iff the cached task is over. */
  lemma {:induction false} AnswersFromCacheIff(cache: Cache, id: TaskId, a: Answer)
    requires id != 0
    ensures (forall t1, t2 :: Answered(cache, id, t1, a) == Answered(cache, id, t2, a))
       <==> id in cache && cache[id].status in {Completed, Failed, Cancelled}
  {
    var t1 := Task(0, Queued, Pdf, Pdf, [], false);
    var t2 := t1.(status := Running);
    if !(id in cache && Terminal(cache[id])) {
      assert Answered(cache, id, t1, a) == Some(t1) && Answered(cache, id, t2, a) == Some(t2);
    }
  }

  /** A failed or cancelled task is shown as it is cached; nothing is converted or stored anew. */
  lemma FailedStays(w: World, id: TaskId, resultId: TaskId, t: Task, a: Answer)
    requires Keyed(w.cache) && id in w.cache && w.cache[id].status in {Failed, Cancelled}
    ensures Answered(w.cache, id, t, a) == Some(w.cache[id])
    ensures Next(w, Get(id, resultId, t, a)) == w
  {
    assert w.calls + [] == w.calls;
  }

  // ----- over runs

  /** The pages have the requested suffix. */
  predicate PagesFinal(t: Task) {
    && t.status == Completed && t.outputType == Images && t.outputFormat in {Jpg, Png, Bmp, Tiff}
    && t.paths != [] && forall i | 0 <= i < |t.paths| :: t.paths[i].suffix == t.outputFormat
  }

  predicate PagesFinalAt(cache: Cache, id: TaskId) {
    id in cache && PagesFinal(cache[id])
  }

  /** The provider's snapshot that a command finalises. */
  function Brought(cache: Cache, m: Move): Option<Task> {
    match m
    case Event(task, _) => Some(task)
    case Scan(resultId, task, _) => if resultId == 0 then None else Some(task)
    case Get(id, _, task, _) => if id == 0 || (id in cache && Terminal(cache[id])) then None else Some(task)
    case Cancel(_) => None
  }

  /** The command brings a snapshot of the scan that is not itself final. */
  predicate Disturbs(cache: Cache, m: Move, id: TaskId) {
    Brought(cache, m).Some? && Brought(cache, m).value.id == id && !PagesFinal(Brought(cache, m).value)
  }

  /** Between `w` and `w'` the pages of `id` were converted. */
  predicate PagesCalled(w: World, w': World, id: TaskId) {
    exists k :: |w.calls| <= k < |w'.calls| && w'.calls[k].PagesCall? && w'.calls[k].id == id
  }

  /** All along the entry is final and no page of it is converted again. */
  ghost predicate PagesStay(w: World, moves: seq<Move>, id: TaskId)
    decreases |moves|
  {
    && PagesFinalAt(w.cache, id)
    && (moves == []
        || (!PagesCalled(w, Next(w, moves[0]), id) && PagesStay(Next(w, moves[0]), moves[1..], id)))
  }

  ghost predicate Undisturbed(w: World, moves: seq<Move>, id: TaskId)
    decreases |moves|
  {
    moves == [] || (!Disturbs(w.cache, moves[0], id) && Undisturbed(Next(w, moves[0]), moves[1..], id))
  }

  /** Finalising a snapshot keeps the cached pages iff it is of another scan or final itself. */
  lemma FinalPages(cache: Cache, t: Task, a: Answer, id: TaskId)
    requires Keyed(cache) && PagesFinalAt(cache, id) && t.id != 0 && (t.id == id ==> t.outputType == Images)
    ensures var (cache', t', calls) := Finalize(cache, t, a);
            && t'.id == t.id && Keyed(cache'[t.id := t'])
            && (t.id != id || PagesFinal(t) <==>
                  PagesFinalAt(cache'[t.id := t'], id) && forall c <- calls :: c.PagesCall? ==> c.id != id)
            && (t.id != id || PagesFinal(t) ==> forall c <- calls :: c.id != id)
            && (t.id == id && PagesFinal(t) ==> t' == t)
  {
    if t.id != id {
      FinalizeOther(cache, t, a, id);
    } else if RawPages(t) {
      PagesAre(cache, t, a);
      if a.imageDirReady { assert PageCallsOf(t, a)[0].PagesCall?; }
    }
  }

  /** A snapshot finalised and stored under its id. */
  lemma StoredPages(w: World, t: Task, a: Answer, id: TaskId)
    requires Keyed(w.cache) && PagesFinalAt(w.cache, id) && t.id != 0 && (t.id == id ==> t.outputType == Images)
    ensures var (cache', t', calls) := Finalize(w.cache, t, a);
            var w' := World(cache'[t.id := t'], w.calls + calls);
            && t'.id == t.id && Keyed(w'.cache)
            && (t.id != id || PagesFinal(t) <==> PagesFinalAt(w'.cache, id) && !PagesCalled(w, w', id))
  {
    hide Finalize, PagesFinal;
    FinalPages(w.cache, t, a, id);
    var calls := Finalize(w.cache, t, a).2;
    forall c <- calls | c.PagesCall? && c.id == id ensures PagesCalled(w, World(w.cache, w.calls + calls), id) {
      var k :| 0 <= k < |calls| && calls[k] == c;
      assert (w.calls + calls)[|w.calls| + k] == c;
    }
  }

  lemma SameFinal(t: Task)
    ensures PagesFinal(t.(cancelRequested := true)) == PagesFinal(t)
    ensures PagesFinal(t) ==> t.outputType == Images
  {
  }

  /** One command while the pages are final. */
  lemma PagesStep(w: World, m: Move, id: TaskId)
    requires Keyed(w.cache) && PagesFinalAt(w.cache, id) && Conforms(m, id, Images)
    ensures Keyed(Next(w, m).cache)
    ensures !Disturbs(w.cache, m, id) <==> PagesFinalAt(Next(w, m).cache, id) && !PagesCalled(w, Next(w, m), id)
  {
    hide Finalize, PagesFinal;
    SameFinal(w.cache[id]);
    match m
    case Event(task, a) => if task.id != 0 { StoredPages(w, task, a, id); }
    case Scan(_, task, a) => if task.id != 0 { StoredPages(w, task, a, id); }
    case Get(asked, _, task, a) =>
      if asked != 0 {
        if asked in w.cache && Terminal(w.cache[asked]) { StoredPages(w, w.cache[asked], a, id); }
        else if task.id != 0 { StoredPages(w, task, a, id); }
        else { EmptyId(w, task, a); }
      }
    case Cancel(_) =>
  }

  /** Along any run the entry stays final and its pages are not converted again iff the provider
      never shows the scan in a state that is not final itself; queries of the cached task and
      cancels do no harm. */
  lemma {:induction false} PagesStayIff(w: World, moves: seq<Move>, id: TaskId)
    requires Keyed(w.cache) && PagesFinalAt(w.cache, id) && forall m <- moves :: Conforms(m, id, Images)
    ensures PagesStay(w, moves, id) <==> Undisturbed(w, moves, id)
    decreases |moves|
  {
    hide Next, Keyed, PagesFinalAt, Conforms, Disturbs, PagesCalled;
    if moves != [] {
      PagesStep(w, moves[0], id);
      if !Disturbs(w.cache, moves[0], id) {
        PagesStayIff(Next(w, moves[0]), moves[1..], id);
      }
    }
  }
}
