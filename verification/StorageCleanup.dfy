/** Cleanup of the temporary storage: a check over all services, the provider, then the tables.
    The storage lifecycle lock keeps new tasks out; everything that is already running goes on
    between any two regions. */
module StorageCleanup {
  import C = CaptureModel
  import W = CaptureWorld
  import O = CaptureOwnership
  import F = CaptureEffects
  import CT = CaptureTaskService
  import E = EnhanceModel
  import S = EnhanceService
  import ET = EnhanceTaskService

  const OK := 0

  /** The scan tables, which this model sees only through their sizes. */
  datatype Scans = Scans(active: nat, rows: nat)
  datatype Answer = Answer(code: int, ocrRows: nat)

  datatype Result =
    | LockTaken
    | Busy(capture: nat, enhance: nat, scans: nat)
    | Refused(code: int)
    | Cleared(count: nat)

  /** No row comes or goes, and what is at rest stays at rest. */
  ghost predicate SameRows(c: C.State, c': C.State, e: S.Service, e': S.Service) {
    && c'.tasks.Keys == c.tasks.Keys && c'.requests.Keys == c.requests.Keys
    && e'.tasks.Keys == e.tasks.Keys
    && (C.ActiveTasks(c) == {} ==> C.ActiveTasks(c') == {})
    && e'.activeWorkers <= e.activeWorkers
  }

  class StorageDesk {
    const capture: CT.CaptureTaskService
    const enhance: ET.ImageEnhanceTaskService

    constructor (capture: CT.CaptureTaskService, enhance: ET.ImageEnhanceTaskService)
      ensures this.capture == capture && this.enhance == enhance
    {
      this.capture, this.enhance := capture, enhance;
    }

    /** Threads of both services and cancels, for a while. */
    method Meanwhile(ghost h: O.Homes) returns (ghost h': O.Homes)
      requires O.Own(capture.View(), W.Cleaning, h) && S.Valid(enhance.View())
      modifies capture, enhance
      ensures O.Own(capture.View(), W.Cleaning, h') && S.Valid(enhance.View())
      ensures SameRows(old(capture.View()), capture.View(), old(enhance.View()), enhance.View())
    {
      hide O.Own, S.Valid, C.Step, S.RunThread, SameRows;
      h' := h;
      SameRowsSelf(capture.View(), enhance.View());
      var n: nat :| true;
      for k := 0 to n
        invariant O.Own(capture.View(), W.Cleaning, h') && S.Valid(enhance.View())
        invariant SameRows(old(capture.View()), capture.View(), old(enhance.View()), enhance.View())
      {
        h' := OneMove(h', old(capture.View()), old(enhance.View()));
      }
    }

    /** One move of some thread, or one CancelTask. */
    method OneMove(ghost h: O.Homes, ghost c0: C.State, ghost e0: S.Service) returns (ghost h': O.Homes)
      requires O.Own(capture.View(), W.Cleaning, h) && S.Valid(enhance.View())
      requires SameRows(c0, capture.View(), e0, enhance.View())
      modifies capture, enhance
      ensures O.Own(capture.View(), W.Cleaning, h') && S.Valid(enhance.View())
      ensures SameRows(c0, capture.View(), e0, enhance.View())
    {
      hide O.Own, S.Valid, C.Step, S.RunThread, SameRows, S.JobOf, S.CancelTask;
      h' := h;
      var i: nat :| true;
      if * {
        if i < |capture.workers| && capture.workers[i].Live() {
          var choice: C.Choice := *;
          CaptureMoveSameRows(c0, capture.View(), e0, enhance.View(), h, i, choice);
          h' := O.StepKeeps(capture.View(), W.Cleaning, h, i, choice);
          capture.RunThread(i, choice);
        }
      } else if * {
        if i < |enhance.workers| && !enhance.workers[i].pc.Gone? {
          var choice: E.Choice := *;
          EnhanceMoveSameRows(c0, capture.View(), e0, enhance.View(), i, choice);
          enhance.RunWorker(i, choice);
        }
      } else {
        var conn: nat :| true;
        CancelSameRows(c0, capture.View(), e0, enhance.View(), conn, i);
        var _ := enhance.Cancel(conn, i);
      }
    }

    /** Either nothing is removed, or every capture and enhancement row is, and each removed row
        is counted once. */
    method CleanupTemp(lockFree: bool, scans: Scans, answer: Answer, ghost h: O.Homes)
      returns (result: Result, ghost h': O.Homes)
      requires O.Own(capture.View(), W.Cleaning, h) && S.Valid(enhance.View())
      modifies capture, enhance
      ensures O.Own(capture.View(), W.Cleaning, h') && S.Valid(enhance.View())
      ensures result.LockTaken? <==> !lockFree
      ensures result.Refused? ==> result.code == answer.code != OK
      ensures result.Busy? ==>
                && result.capture + result.enhance + result.scans > 0 && result.scans == scans.active
                && result.capture == |old(C.ActiveTasks(capture.View()))|
                     && result.enhance <= |old(enhance.activeWorkers)|
      ensures !result.Cleared? ==>
                && capture.tasks.Keys == old(capture.tasks).Keys
                && capture.requests.Keys == old(capture.requests).Keys
                && enhance.tasks.Keys == old(enhance.tasks).Keys
      ensures result.Cleared? ==>
                && lockFree && scans.active == 0 && answer.code == OK
                && capture.tasks == map[] && capture.requests == map[]
                && enhance.tasks == map[] && enhance.cancelRequested == {}
                && result.count == answer.ocrRows + |old(capture.tasks).Keys| + |old(enhance.tasks).Keys| + scans.rows
      // with nothing running or reserved at the start, only the provider can refuse
      ensures lockFree && scans.active == 0 && answer.code == OK
                && NothingActive(old(capture.View()), old(enhance.View())) ==>
                result.Cleared?
      ensures lockFree && scans.active == 0 && answer.code != OK
                && NothingActive(old(capture.View()), old(enhance.View())) ==>
                result == Refused(answer.code)
      ensures lockFree && (old(C.ActiveTasks(capture.View())) != {} || scans.active > 0) ==> result.Busy?
    {
      hide O.Own, S.Valid, C.ActiveTasks, S.JobOf, C.ClearFinished, S.ClearFinished;
      h' := h;
      if !lockFree { return LockTaken, h'; }
      var captures := capture.ActiveTaskCount();
      h' := Meanwhile(h');
      Fewer(enhance.activeWorkers, old(enhance.activeWorkers));
      var enhances := enhance.ActiveTaskCount();
      h' := Meanwhile(h');
      if captures + enhances + scans.active != 0 {
        return Busy(captures, enhances, scans.active), h';
      }
      if answer.code != OK { return Refused(answer.code), h'; }
      h' := Meanwhile(h');
      var count := ClearTables(h');
      return Cleared(answer.ocrRows + count + scans.rows), h';
    }

    /** ClearFinishedTasks of both services. */
    method ClearTables(ghost h: O.Homes) returns (count: nat)
      requires O.Own(capture.View(), W.Cleaning, h) && S.Valid(enhance.View())
      requires NothingActive(capture.View(), enhance.View())
      modifies capture, enhance
      ensures O.Own(capture.View(), W.Cleaning, h) && S.Valid(enhance.View())
      ensures capture.tasks == map[] && capture.requests == map[]
      ensures enhance.tasks == map[] && enhance.cancelRequested == {}
      ensures count == |old(capture.tasks).Keys| + |old(enhance.tasks).Keys|
    {
      hide O.Own, S.Valid, C.ActiveTasks, S.JobOf, C.ClearFinished, S.ClearFinished;
      NothingToKeep(capture.View(), h);
      NothingLeft(enhance.View());
      O.ClearKeeps(capture.View(), W.Cleaning, h);
      ClearingOwn(C.ClearFinished(capture.View()), h);
      var n := capture.ClearFinishedTasks();
      assert old(capture.tasks).Keys - {} == old(capture.tasks).Keys;
      var m := enhance.ClearFinishedTasks();
      assert old(enhance.tasks).Keys - {} == old(enhance.tasks).Keys;
      return n + m;
    }
  }

  ghost predicate NothingActive(c: C.State, e: S.Service) {
    C.ActiveTasks(c) == {} && e.activeWorkers == {}
  }

  lemma NothingLeft(e: S.Service)
    requires S.Valid(e) && e.activeWorkers == {}
    ensures S.ClearFinished(e).tasks == map[] && S.ClearFinished(e).cancelRequested == {}
  {
    hide S.JobOf;
    S.ClearKeepsValid(e);
    assert S.ClearFinished(e).tasks.Keys == {};
  }

  lemma Fewer(a: set<nat>, b: set<nat>)
    requires a <= b
    ensures |a| <= |b|
  {
    if a != {} {
      var x :| x in a;
      Fewer(a - {x}, b - {x});
    }
  }

  lemma SameRowsSelf(c: C.State, e: S.Service)
    ensures SameRows(c, c, e, e)
  {
  }

  lemma CaptureMoveSameRows(c0: C.State, c: C.State, e0: S.Service, e: S.Service, h: O.Homes, i: nat, choice: C.Choice)
    requires SameRows(c0, c, e0, e) && O.Own(c, W.Cleaning, h) && i < |c.workers| && c.workers[i].Live()
    ensures SameRows(c0, C.Step(c, i, choice), e0, e)
  {
    hide O.Own, C.Step, W.Observed;
    var c' := C.Step(c, i, choice);
    var h' := O.StepKeeps(c, W.Cleaning, h, i, choice);
    F.RowMoves(c, W.Cleaning, h, i, choice);
    SameKeys(c, h);
    SameKeys(c', h');
    if C.ActiveTasks(c0) == {} {
      assert F.Touched(c, i).Some? ==> F.Touched(c, i).value in C.ActiveTasks(c);
    }
  }

  lemma SameKeys(c: C.State, h: O.Homes)
    requires O.Own(c, W.Cleaning, h)
    ensures c.requests.Keys == c.tasks.Keys
  {
    hide O.Owners, O.Places, O.Queues, O.Servers;
  }

  lemma EnhanceMoveSameRows(c0: C.State, c: C.State, e0: S.Service, e: S.Service, i: nat, choice: E.Choice)
    requires SameRows(c0, c, e0, e) && S.Valid(e) && S.Live(e, i)
    ensures SameRows(c0, c, e0, S.RunThread(e, i, choice))
  {
    hide S.Valid, E.Work, S.JobOf, C.ActiveTasks;
    S.ThreadKeepsValid(e, i, choice);
  }

  lemma CancelSameRows(c0: C.State, c: C.State, e0: S.Service, e: S.Service, conn: nat, id: nat)
    requires SameRows(c0, c, e0, e) && S.Valid(e)
    ensures SameRows(c0, c, e0, S.CancelTask(e, conn, id).0)
  {
    hide S.Valid, S.JobOf, C.ActiveTasks;
    S.CancelKeepsValid(e, conn, id);
  }

  lemma ClearingOwn(c: C.State, h: O.Homes)
    requires O.Own(c, W.Free, h)
    ensures O.Own(c, W.Cleaning, h)
  {
    hide O.Tables, O.Owners, O.Queues, O.Servers;
  }

  /** With no active task under the storage lock, cleanup removes every row. */
  lemma NothingToKeep(c: C.State, h: O.Homes)
    requires O.Own(c, W.Cleaning, h) && C.ActiveTasks(c) == {}
    ensures C.ClearFinished(c).tasks == map[] && C.ClearFinished(c).requests == map[]
  {
    hide O.Own;
    O.ClearedRows(c, W.Cleaning, h);
    SameKeys(c, h);
    forall id | id in c.tasks ensures id !in C.ClearFinished(c).tasks {
      assert id !in C.ActiveTasks(c);
    }
    assert C.ClearFinished(c).tasks.Keys == {};
    assert C.ClearFinished(c).requests.Keys == {};
  }
}
