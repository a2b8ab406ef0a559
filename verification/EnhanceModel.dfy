/** One image enhancement task: its row in the task table, its worker thread and the cancel
    flag, with one function per region under the mutex or stretch of code between regions. */
module EnhanceModel {
  import opened Wrappers

  type ConnId = nat

  const OK := 0
  const PROVIDER_NOT_READY := 1901

  /** The capabilities that cost quota, in the key order of the usage map. */
  datatype Capability = DocCropEnhance | DocRepair | RemoveHandwriting | RemoveMoire
  const ALL: seq<Capability> := [DocCropEnhance, DocRepair, RemoveHandwriting, RemoveMoire]

  function Name(c: Capability): string {
    match c
    case DocCropEnhance => "doc_crop_enhance"
    case DocRepair => "doc_repair"
    case RemoveHandwriting => "remove_handwriting"
    case RemoveMoire => "remove_moire"
  }

  function NormalizeCapability(stepType: string): string {
    if stepType == "document_rectify_enhance" then "doc_crop_enhance"
    else if stepType == "remove_background_texture" then "doc_repair"
    else stepType
  }

  /** The online capability a step type is charged to, if any. */
  function Charged(stepType: string): Option<Capability> {
    var n := NormalizeCapability(stepType);
    if n == Name(DocCropEnhance) then Some(DocCropEnhance)
    else if n == Name(RemoveHandwriting) then Some(RemoveHandwriting)
    else if n == Name(DocRepair) then Some(DocRepair)
    else if n == Name(RemoveMoire) then Some(RemoveMoire)
    else None
  }

  datatype Step = Step(stepType: string, enabled: bool, skipOnError: bool)

  /** `document` says that the target is pdf, ofd or tiff; `pages` counts the inputs;
      `authReady` says that the service has an auth provider. */
  datatype Request = Request(conn: ConnId, pages: nat, steps: seq<Step>, document: bool, authReady: bool)

  datatype Status = Queued | Running | Cancelled | Failed | Completed
  datatype Phase = PhaseQueued | Enhancing | Converts | PhaseCancelled | PhaseFailed | PhaseCompleted

  /** The snapshot that GetTask shows.  Page and output lists are kept by their lengths. */
  datatype Row = Row(conn: ConnId, status: Status, phase: Phase, progress: int, cancelRequested: bool,
                     pages: nat, outputPages: nat, outputs: nat, assets: nat, code: int)

  type Usage = map<Capability, nat>

  datatype StepResult = StepResult(code: int, pages: nat)
  datatype Output = Output(code: int, count: nat)

  /** The worker thread. */
  datatype Pc =
    | Begin
    | Loop(i: nat, pages: nat, usage: Usage)
    | Ready(i: nat, pages: nat, usage: Usage)
    | InFlight(i: nat, pages: nat, usage: Usage)
    | StepDone(i: nat, pages: nat, usage: Usage, result: StepResult)
    | Converting(pages: nat, usage: Usage)
    | Produced(pages: nat, usage: Usage, output: Output)
    | Settling(final: Row, rest: seq<Capability>, usage: Usage)
    | Settled(final: Row)
    | Threw
    | Leaving
    | Gone

  /** What the providers answer; `throws` lets the call in progress end in an exception. */
  datatype Choice = Choice(throws: bool, result: StepResult, output: Output, quotaCode: int)

  datatype Job = Job(row: Row, request: Request, pc: Pc, flagged: bool)

  datatype Event =
    | StepStarted(i: nat)
    | StepEnded(i: nat, result: StepResult)
    | Back(output: Output)      // what converting or writing the pages came to
    | Asked(capability: Capability, units: int, code: int)
    | NoAuth
    | Crashed

  function NewRow(r: Request): Row {
    Row(r.conn, Queued, PhaseQueued, 0, false, r.pages, 0, 0, 0, OK)
  }

  function NewJob(r: Request): Job {
    Job(NewRow(r), r, Begin, false)
  }

  function Cancel(row: Row): Row {
    row.(status := Cancelled, phase := PhaseCancelled, progress := 100, cancelRequested := true)
  }

  function Fail(row: Row): Row {
    row.(status := Failed, phase := PhaseFailed, progress := 100)
  }

  /** CancelTask on a task that exists and belongs to the caller. */
  function CancelRow(row: Row): Row {
    if row.status == Queued then Cancel(row) else row.(cancelRequested := true)
  }

  /** Integer division of nonnegative numbers, as the progress bar uses it. */
  function Progress(done: nat, count: nat): int
    requires count > 0
  {
    10 + 70 * done / count
  }

  /** Pages charged for a step: what it returned, or what it was given if it returned none. */
  function Amount(given: nat, result: StepResult): nat {
    if result.pages == 0 then given else result.pages
  }

  function AddUsage(u: Usage, c: Option<Capability>, amount: nat): Usage {
    if c.None? then u
    else u[c.value := (if c.value in u then u[c.value] else 0) + (if amount > 0 then amount else 1)]
  }

  /** The keys of the usage map as its iterator meets them. */
  function KeysInOrder(u: Usage): (keys: seq<Capability>)
    ensures |keys| <= |ALL|
  {
    KeysAmong(u, ALL)
  }

  function KeysAmong(u: Usage, all: seq<Capability>): (keys: seq<Capability>)
    ensures |keys| <= |all|
  {
    if all == [] then [] else (if all[0] in u then [all[0]] else []) + KeysAmong(u, all[1..])
  }

  function Units(u: Usage, c: Capability): int {
    if c in u && u[c] > 0 then u[c] else 1
  }

  // ----- the regions

  function DoBegin(j: Job): Job {
    if j.flagged then j.(row := Cancel(j.row), pc := Leaving)
    else j.(row := j.row.(status := Running, phase := Enhancing, progress := 5), pc := Loop(0, j.row.pages, map[]))
  }

  function DoLoop(j: Job): Job
    requires j.pc.Loop?
  {
    var Loop(i, pages, usage) := j.pc;
    var n := |j.request.steps|;
    if i >= n then
      j.(row := j.row.(phase := Converts, progress := 90, pages := pages, outputPages := pages),
          pc := Converting(pages, usage))
    else if !j.request.steps[i].enabled then j.(pc := Loop(i + 1, pages, usage))
    else if j.flagged then j.(row := Cancel(j.row), pc := Leaving)
    else j.(row := j.row.(progress := Progress(i, n)), pc := Ready(i, pages, usage))
  }

  function DoStepDone(j: Job): Job
    requires j.pc.StepDone? && j.pc.i < |j.request.steps|
  {
    var StepDone(i, pages, usage, result) := j.pc;
    var step, n := j.request.steps[i], |j.request.steps|;
    if result.code != OK && !step.skipOnError then
      j.(row := Fail(j.row), pc := Leaving)
    else if result.code != OK then
      j.(row := j.row.(progress := Progress(i + 1, n)), pc := Loop(i + 1, pages, usage))
    else
      j.(row := j.row.(progress := Progress(i + 1, n), pages := result.pages, outputPages := result.pages),
         pc := Loop(i + 1, result.pages, AddUsage(usage, Charged(step.stepType), Amount(pages, result))))
  }

  /** The three ways to finish: no pages, a document, separate images. */
  predicate NoOutputs(j: Job)
    requires j.pc.Produced?
  {
    var Produced(pages, _, output) := j.pc;
    pages == 0 || (j.request.document && output.code != OK) || (!j.request.document && output.count == 0)
  }

  function DoProduced(j: Job): Job
    requires j.pc.Produced?
  {
    var Produced(pages, usage, output) := j.pc;
    if NoOutputs(j) then
      j.(row := Fail(j.row), pc := Leaving)
    else
      var done := j.row.(status := Completed, phase := PhaseCompleted, progress := 100, outputs := output.count);
      j.(row := done, pc := Settling(done.(assets := output.count), KeysInOrder(usage), usage))
  }

  function Refuse(final: Row, code: int): Row {
    Fail(final).(code := code, assets := 0)
  }

  /** One turn of the quota loop: nothing left to ask, no one to ask, or one request. */
  function DoSettling(j: Job, c: Choice): Job
    requires j.pc.Settling?
  {
    var Settling(final, rest, usage) := j.pc;
    if rest == [] then j.(pc := Settled(final))
    else if !j.request.authReady then j.(pc := Settled(Refuse(final, PROVIDER_NOT_READY)))
    else if c.throws then j.(pc := Threw)
    else if c.quotaCode != OK then j.(pc := Settled(Refuse(final, c.quotaCode)))
    else j.(pc := Settling(final, rest[1..], usage))
  }

  predicate WellFormed(j: Job) {
    (j.pc.Ready? || j.pc.InFlight? || j.pc.StepDone?) ==> j.pc.i < |j.request.steps|
  }

  /** One move of the worker. */
  function Work(j: Job, c: Choice): (r: Job)
    requires WellFormed(j) && !j.pc.Gone?
    ensures WellFormed(r) && r.request == j.request && r.flagged == j.flagged
  {
    match j.pc
    case Begin => DoBegin(j)
    case Loop(_, _, _) => DoLoop(j)
    case Ready(i, pages, usage) => j.(pc := InFlight(i, pages, usage))
    case InFlight(i, pages, usage) => if c.throws then j.(pc := Threw)
           else j.(pc := StepDone(i, pages, usage, c.result))
    case StepDone(_, _, _, _) => DoStepDone(j)
    case Converting(pages, usage) => if c.throws && pages > 0 then j.(pc := Threw)
           else j.(pc := Produced(pages, usage, c.output))
    case Produced(_, _, _) => DoProduced(j)
    case Settling(_, _, _) => DoSettling(j, c)
    case Settled(final) => j.(row := final, pc := Leaving)
    case Threw => j.(row := Fail(j.row), pc := Leaving)
    case Leaving => j.(pc := Gone)
  }

  function Says(j: Job, c: Choice): (e: seq<Event>)
    requires WellFormed(j) && !j.pc.Gone?
    ensures |e| <= 1
  {
    match j.pc
    case Ready(i, _, _) => [StepStarted(i)]
    case InFlight(i, _, _) => if c.throws then [Crashed] else [StepEnded(i, c.result)]
    case Converting(pages, _) => if pages == 0 then [] else if c.throws then [Crashed] else [Back(c.output)]
    case Settling(_, rest, usage) =>
      if rest == [] then []
      else if !j.request.authReady then [NoAuth]
      else if c.throws then [Crashed]
      else [Asked(rest[0], Units(usage, rest[0]), c.quotaCode)]
    case _ => []
  }

  /** CancelTask: the flag, and the row. */
  function CancelJob(j: Job): Job {
    j.(row := CancelRow(j.row), flagged := true)
  }

  // ----- runs of one task: worker moves and cancels in any order

  /** `ShutdownMove` is the service's destructor, which flags every task and leaves the rows. */
  datatype Move = CancelMove | ShutdownMove | WorkMove(choice: Choice)

  datatype Story = Story(job: Job, log: seq<Event>)

  function WithCancel(s: Story): Story {
    s.(job := CancelJob(s.job))
  }

  predicate Can(s: Story, m: Move) {
    WellFormed(s.job) && (m.WorkMove? ==> !s.job.pc.Gone?)
  }

  function Turn(s: Story, m: Move): Story
    requires Can(s, m)
  {
    match m
    case CancelMove => WithCancel(s)
    case ShutdownMove => s.(job := s.job.(flagged := true))
    case WorkMove(c) => Story(Work(s.job, c), s.log + Says(s.job, c))
  }

  ghost predicate Run(s: Story, moves: seq<Move>)
    decreases |moves|
  {
    moves == [] || (Can(s, moves[0]) && Run(Turn(s, moves[0]), moves[1..]))
  }

  ghost function After(s: Story, moves: seq<Move>): Story
    requires Run(s, moves)
    decreases |moves|
  {
    if moves == [] then s else After(Turn(s, moves[0]), moves[1..])
  }

  function Fresh(r: Request): Story {
    Story(NewJob(r), [])
  }
}
