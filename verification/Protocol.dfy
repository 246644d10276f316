/** The execution protocol as a transition system.

    The durable state is the run rows, the raw-record rows of each run, the destination table and
    the broker queue; workers are volatile. `Next` is a function of the state and an action, and
    all nondeterminism (what the source answers, which failure is raised, where a worker dies,
    which message is delivered) is in the action.

    One assumption about the broker is built in: workers are keyed by task id, so at most one live
    worker executes a given task id. A dead worker's message may be delivered again (late acks),
    and any number of task ids may be dispatched for the same run.

    Fields marked "history" do not exist in the program. They record what happened, and no step
    other than a history update depends on them. */
module Protocol {
  import opened Prelude
  import opened Paths
  import opened Mapping
  import opened Claims
  import opened Keys

  const MAX_RUN_ATTEMPTS: nat := 5
  const MAX_RETRIES: nat := MAX_RUN_ATTEMPTS - 1

  /** A page of the source: its records and the bytes they were parsed from. */
  datatype Response = Response(records: seq<Json>, body: Bytes)

  /** Configuration that stays fixed, the checksum, and the source a stable execution reads. */
  datatype Env = Env(
    startPage: nat,
    pageSize: Option<int>,
    retainEmpty: bool,
    mapping: ColumnMapping,
    strict: bool,
    sha: Sha,
    source: nat -> Response)

  /** An empty page or a short one ends the extraction. */
  predicate EndsExtraction(env: Env, resp: Response) {
    |resp.records| == 0 || (env.pageSize.Some? && |resp.records| < env.pageSize.value)
  }

  /** History: one committed destination transaction. `claim` numbers the claims along the
      continuation chain; `recorded` turns true when the checkpoint of the page is saved. */
  datatype Commit = Commit(
    run: RunId,
    sequence: nat,
    page: nat,
    resp: Response,
    rows: seq<Mapping.Row>,
    claim: nat,
    recorded: bool)

  datatype Sighting = Sighting(page: nat, resp: Response)

  /** A run: its stored row, its raw-record rows (sequence and checksum, with the
      `loaded_successfully` flag), then history. `hist` holds the commits of the whole chain,
      `chain` the run with its ancestors, `pending` whether the last commit still waits for its
      checkpoint, `orphans` the earlier commits that never got one, `replayed` whether a claim
      found the extraction already ended, `seen` the last response received. */
  datatype RunState = RunState(
    row: Claims.Row,
    raws: map<(nat, string), bool>,
    hist: seq<Commit>,
    chain: set<RunId>,
    claims: nat,
    pending: bool,
    orphans: nat,
    replayed: bool,
    seen: Option<Sighting>)

  datatype Msg = Msg(task: TaskId, run: RunId, retries: nat)

  /** Where an attempt stands between two durable writes. */
  datatype Pc =
    | Fetching
    | Got(resp: Response)
    | Stored(resp: Response)
    | Loaded(resp: Response, count: nat)
    | Marked(resp: Response, count: nat)
    | Exhausted
    | Raised(err: Error)
    | Recorded(err: Error)
    | Republished

  datatype Phase =
    | Received
    | Executing(mem: Claims.Row, maxPages: nat, page: nat, sequence: nat, yielded: nat, pc: Pc)
    | Finished

  datatype Worker = Worker(msg: Msg, phase: Phase)

  datatype Event =
    | Respond(resp: Response)
    | StoreRaw
    | Load
    | LoadLost(err: Error)
    | MarkLoaded
    | Checkpoint
    | Raise(err: Error)
    | Finish
    | RecordFailure
    | Decide

  /** The effect of one event: the run and worker after it, the rows it committed to the
      destination and the message it published. */
  datatype Effect = Effect(run: RunState, worker: Worker, committed: seq<Mapping.Row>, published: seq<Msg>)

  // ---- one attempt ----------------------------------------------------------------------------

  function CursorPage(env: Env, row: Claims.Row): nat {
    if row.cursor.Some? then row.cursor.value else env.startPage
  }

  function RecordedIn(hist: seq<Commit>): seq<Commit> {
    if hist == [] then []
    else
      var front := RecordedIn(hist[..|hist| - 1]);
      var last := hist[|hist| - 1];
      if last.recorded then front + [last] else front
  }

  /** The last checkpoint was that of an ending page. */
  predicate Ended(env: Env, hist: seq<Commit>) {
    var rec := RecordedIn(hist);
    rec != [] && EndsExtraction(env, rec[|rec| - 1].resp)
  }

  function ClaimStep(env: Env, rs: RunState, msg: Msg, maxPages: nat): Option<(RunState, Worker)> {
    match ClaimRow(rs.row, Some(msg.task))
    case Err(_) => None
    case Ok(mem) =>
      var row := SaveClaim(rs.row, mem);
      var run := rs.(row := row,
                     claims := rs.claims + 1,
                     pending := false,
                     orphans := rs.orphans + if rs.pending then 1 else 0,
                     replayed := rs.replayed || Ended(env, rs.hist));
      Some((run, Worker(msg, Executing(mem, maxPages, CursorPage(env, mem), mem.pagesExtracted, 0, Fetching))))
  }

  /** `request.retries >= max_retries`, computed by the task. */
  predicate IsFinalAttempt(msg: Msg) {
    msg.retries >= MAX_RETRIES
  }

  /** The orchestration's decision: finalise the run as FAILED. */
  predicate ShouldFinalize(err: Error, finalAttempt: bool) {
    finalAttempt || !err.retryable
  }

  /** The task's decision: schedule a Celery retry. */
  predicate WillRetry(err: Error, finalAttempt: bool) {
    err.retryable && !finalAttempt
  }

  function OnRespond(env: Env, rs: RunState, w: Worker, resp: Response): Option<Effect>
    requires w.phase.Executing?
  {
    var e := w.phase;
    if e.pc != Fetching then None
    else
      var run := rs.(seen := Some(Sighting(e.page, resp)));
      if resp.records == [] && !env.retainEmpty then
        Some(Effect(run, w.(phase := e.(pc := Exhausted)), [], []))
      else
        Some(Effect(run, w.(phase := e.(pc := Got(resp), sequence := e.sequence + 1)), [], []))
  }

  /** `get_or_create` on (run, sequence, checksum). */
  function OnStoreRaw(env: Env, rs: RunState, w: Worker): Option<Effect>
    requires w.phase.Executing?
  {
    var e := w.phase;
    if !e.pc.Got? then None
    else
      var key := (e.sequence, env.sha(e.pc.resp.body));
      var raws := if key in rs.raws then rs.raws else rs.raws[key := false];
      Some(Effect(rs.(raws := raws), w.(phase := e.(pc := Stored(e.pc.resp))), [], []))
  }

  /** Map the page and commit it in one destination transaction. With `lost`, the transaction
      commits but the worker is told it failed. */
  function OnLoad(env: Env, rs: RunState, w: Worker, lost: Option<Error>): Option<Effect>
    requires w.phase.Executing?
  {
    var e := w.phase;
    if !e.pc.Stored? then None
    else
      match MapRecords(e.pc.resp.records, env.mapping, env.strict)
      case Err(_) => None
      case Ok(rows) =>
        var commit := Commit(w.msg.run, e.sequence, e.page, e.pc.resp, rows, rs.claims, false);
        var run := rs.(hist := rs.hist + [commit], pending := true);
        var pc := if lost.Some? then Raised(lost.value) else Loaded(e.pc.resp, |rows|);
        Some(Effect(run, w.(phase := e.(pc := pc)), rows, []))
  }

  function OnMarkLoaded(env: Env, rs: RunState, w: Worker): Option<Effect>
    requires w.phase.Executing?
  {
    var e := w.phase;
    if !e.pc.Loaded? then None
    else
      var key := (e.sequence, env.sha(e.pc.resp.body));
      Some(Effect(rs.(raws := rs.raws[key := true]), w.(phase := e.(pc := Marked(e.pc.resp, e.pc.count))), [], []))
  }

  /** The in-memory counters and cursor after a page: `page.next_cursor or page.cursor_used`. */
  function AfterPage(env: Env, mem: Claims.Row, page: nat, sequence: nat, resp: Response, count: nat): Claims.Row {
    mem.(pagesExtracted := sequence,
         recordsExtracted := mem.recordsExtracted + |resp.records|,
         recordsLoaded := mem.recordsLoaded + count,
         rawPayloadCount := mem.rawPayloadCount + 1,
         cursor := Some(if EndsExtraction(env, resp) then page else page + 1))
  }

  function FlagLast(hist: seq<Commit>): seq<Commit> {
    if hist == [] then [] else hist[..|hist| - 1] + [hist[|hist| - 1].(recorded := true)]
  }

  /** What the generator does when it is resumed after a yield. */
  function Resume(env: Env, e: Phase, resp: Response): Phase
    requires e.Executing?
  {
    if resp.records == [] then e.(pc := Exhausted)
    else if EndsExtraction(env, resp) then e.(yielded := e.yielded + 1, pc := Exhausted)
    else if e.yielded + 1 >= e.maxPages then e.(yielded := e.yielded + 1, pc := Raised(PAGE_LIMIT_EXCEEDED))
    else e.(yielded := e.yielded + 1, page := e.page + 1, pc := Fetching)
  }

  function OnCheckpoint(env: Env, rs: RunState, w: Worker): Option<Effect>
    requires w.phase.Executing?
  {
    var e := w.phase;
    if !e.pc.Marked? then None
    else
      var mem := AfterPage(env, e.mem, e.page, e.sequence, e.pc.resp, e.pc.count);
      var run := rs.(row := SaveProgress(rs.row, mem), hist := FlagLast(rs.hist), pending := false);
      Some(Effect(run, w.(phase := Resume(env, e.(mem := mem), e.pc.resp)), [], []))
  }

  /** Any failure other than the page cap: of the source, the raw store, the mapping, the
      destination (its transaction rolled back) or a save. The save of a checkpoint comes after the
      in-memory row has moved on, so a failing one leaves that copy a page ahead of the stored row. */
  function OnRaise(env: Env, rs: RunState, w: Worker, err: Error): Option<Effect>
    requires w.phase.Executing?
  {
    var e := w.phase;
    if err.category.PageLimitExceededError? then None
    else if e.pc.Marked? then
      var mem := AfterPage(env, e.mem, e.page, e.sequence, e.pc.resp, e.pc.count);
      Some(Effect(rs, w.(phase := e.(mem := mem, pc := Raised(err))), [], []))
    else if e.pc.Fetching? || e.pc.Got? || e.pc.Stored? || e.pc.Loaded? then
      Some(Effect(rs, w.(phase := e.(pc := Raised(err))), [], []))
    else None
  }

  function OnFinish(rs: RunState, w: Worker): Option<Effect>
    requires w.phase.Executing?
  {
    var e := w.phase;
    if e.pc != Exhausted then None
    else
      match MarkSucceeded(e.mem)
      case Err(_) => None
      case Ok(mem) => Some(Effect(rs.(row := SaveOutcome(rs.row, mem)), w.(phase := Finished), [], []))
  }

  function OnRecordFailure(rs: RunState, w: Worker): Option<Effect>
    requires w.phase.Executing?
  {
    var e := w.phase;
    if !e.pc.Raised? then None
    else if ShouldFinalize(e.pc.err, IsFinalAttempt(w.msg)) then
      match MarkFailed(e.mem, e.pc.err)
      case Err(_) => None
      case Ok(mem) =>
        Some(Effect(rs.(row := SaveOutcome(rs.row, mem)), w.(phase := e.(mem := mem, pc := Recorded(e.pc.err))),
                    [], []))
    else
      var mem := PendingRetry(e.mem, e.pc.err);
      Some(Effect(rs.(row := SaveError(rs.row, mem)), w.(phase := e.(mem := mem, pc := Recorded(e.pc.err))), [], []))
  }

  function OnDecide(rs: RunState, w: Worker): Option<Effect>
    requires w.phase.Executing?
  {
    var e := w.phase;
    if !e.pc.Recorded? then None
    else if WillRetry(e.pc.err, IsFinalAttempt(w.msg)) then
      Some(Effect(rs, w.(phase := e.(pc := Republished)), [], [w.msg.(retries := w.msg.retries + 1)]))
    else
      Some(Effect(rs, w.(phase := Finished), [], []))
  }

  function Advance(env: Env, rs: RunState, w: Worker, ev: Event): Option<Effect> {
    if !w.phase.Executing? then None
    else
      match ev
      case Respond(resp) => OnRespond(env, rs, w, resp)
      case StoreRaw => OnStoreRaw(env, rs, w)
      case Load => OnLoad(env, rs, w, None)
      case LoadLost(err) => if err.category.PageLimitExceededError? then None else OnLoad(env, rs, w, Some(err))
      case MarkLoaded => OnMarkLoaded(env, rs, w)
      case Checkpoint => OnCheckpoint(env, rs, w)
      case Raise(err) => OnRaise(env, rs, w, err)
      case Finish => OnFinish(rs, w)
      case RecordFailure => OnRecordFailure(rs, w)
      case Decide => OnDecide(rs, w)
  }

  // ---- the whole system -----------------------------------------------------------------------

  /** A committed transaction as the destination sees it. */
  datatype Transaction = Transaction(run: RunId, rows: seq<Mapping.Row>)

  /** `tasks` gives the run each task id was enqueued for. History: `stranded` holds the task ids
      whose message was consumed without being handled, `extra` the retry budget each task gained
      from crashes. */
  datatype State = State(
    runs: map<RunId, RunState>,
    workers: map<TaskId, Worker>,
    queue: seq<Msg>,
    dest: seq<Transaction>,
    tasks: map<TaskId, RunId>,
    stranded: set<TaskId>,
    extra: map<TaskId, nat>)

  const INIT := State(map[], map[], [], [], map[], {}, map[])

  datatype Action =
    | Create(run: RunId, from: Option<RunId>)
    | Enqueue(run: RunId, task: TaskId)
    | Deliver(index: nat)
    | Claim(task: TaskId, maxPages: nat)
    | RejectLocked(task: TaskId, holder: TaskId)
    | RejectClaim(task: TaskId)
    | Do(task: TaskId, ev: Event)
    | Ack(task: TaskId)
    | Crash(task: TaskId, redelivered: bool)

  predicate IsContinuable(row: Claims.Row) {
    row.status == Failed && row.error.Some? && row.error.value.category.PageLimitExceededError?
  }

  const FRESH_ROW := Claims.Row(Pending, 0, None, None, 0, 0, 0, 0, None, None)

  /** The row of a new run; a continuation is seeded with the cursor and counters it resumes. */
  function SeedRow(from: Option<(RunId, Claims.Row)>): Claims.Row {
    if from.None? then FRESH_ROW
    else
      var (id, row) := from.value;
      FRESH_ROW.(cursor := row.cursor,
                 pagesExtracted := row.pagesExtracted,
                 recordsExtracted := row.recordsExtracted,
                 recordsLoaded := row.recordsLoaded,
                 rawPayloadCount := row.rawPayloadCount,
                 continuedFrom := Some(id))
  }

  function NewRun(id: RunId, from: Option<(RunId, RunState)>): RunState {
    if from.None? then
      RunState(SeedRow(None), map[], [], {id}, 0, false, 0, false, None)
    else
      var (parent, rs) := from.value;
      RunState(SeedRow(Some((parent, rs.row))), map[], rs.hist, rs.chain + {id}, rs.claims, false, rs.orphans,
          rs.replayed, None)
  }

  function RemoveMsg(queue: seq<Msg>, msg: Msg): seq<Msg> {
    if queue == [] then []
    else if queue[0] == msg then queue[1..]
    else [queue[0]] + RemoveMsg(queue[1..], msg)
  }

  /** The part of a message's retry budget that its live worker has already used up. */
  function Charge(w: Worker): nat {
    if w.phase.Received? then 0
    else if w.phase.Executing? && w.phase.pc.Republished? then Cost(w.msg)
    else 1
  }

  /** How many attempts before the last one a message and its successors can still lead to. */
  function Cost(msg: Msg): nat {
    if msg.retries <= MAX_RETRIES then MAX_RETRIES - msg.retries else 0
  }

  function CreateNext(s: State, run: RunId, from: Option<RunId>): Option<State> {
    if run in s.runs then None
    else if from.None? then Some(s.(runs := s.runs[run := NewRun(run, None)]))
    else if from.value !in s.runs || !IsContinuable(s.runs[from.value].row) then None
    else Some(s.(runs := s.runs[run := NewRun(run, Some((from.value, s.runs[from.value])))]))
  }

  function EnqueueNext(s: State, run: RunId, task: TaskId): Option<State> {
    if run !in s.runs || task in s.tasks then None
    else Some(s.(queue := s.queue + [Msg(task, run, 0)], tasks := s.tasks[task := run], extra := s.extra[task := 0]))
  }

  function DeliverNext(s: State, index: nat): Option<State> {
    if index >= |s.queue| || s.queue[index].task in s.workers then None
    else Some(s.(workers := s.workers[s.queue[index].task := Worker(s.queue[index], Received)]))
  }

  function ClaimNext(env: Env, s: State, task: TaskId, maxPages: nat): Option<State> {
    if task !in s.workers || s.workers[task].phase != Received || maxPages == 0 then None
    else if s.workers[task].msg.run !in s.runs then None
    else
      var id := s.workers[task].msg.run;
      match ClaimStep(env, s.runs[id], s.workers[task].msg, maxPages)
      case None => None
      case Some((run, worker)) => Some(s.(runs := s.runs[id := run], workers := s.workers[task := worker]))
  }

  /** The claim of `u` is in progress. It locks the rows of its run, of the pipeline and of both
      connections, and these are shared by all runs of the pipeline. */
  predicate HoldsLock(s: State, u: TaskId) {
    u in s.workers && s.workers[u].phase.Received? && s.workers[u].msg.run in s.runs
  }

  /** A claim is refused because another one holds the lock, or for what the row says. */
  function RejectNext(s: State, task: TaskId, holder: Option<TaskId>): Option<State> {
    if task !in s.workers || s.workers[task].phase != Received then None
    else
      var w := s.workers[task];
      var refused := w.msg.run !in s.runs || ClaimRow(s.runs[w.msg.run].row, Some(task)).Err?;
      var locked := holder.Some? && holder.value != task && HoldsLock(s, holder.value);
      if !locked && (holder.Some? || !refused) then None
      else
        Some(s.(workers := s.workers[task := w.(phase := Finished)],
                stranded := if locked then s.stranded + {task} else s.stranded))
  }

  function DoNext(env: Env, s: State, task: TaskId, ev: Event): Option<State> {
    if task !in s.workers || s.workers[task].msg.run !in s.runs then None
    else
      var id := s.workers[task].msg.run;
      match Advance(env, s.runs[id], s.workers[task], ev)
      case None => None
      case Some(eff) =>
        Some(s.(runs := s.runs[id := eff.run],
                workers := s.workers[task := eff.worker],
                queue := s.queue + eff.published,
                dest := if ev.Load? || ev.LoadLost? then s.dest + [Transaction(id, eff.committed)] else s.dest))
  }

  function AckNext(s: State, task: TaskId): Option<State> {
    if task !in s.workers then None
    else
      var w := s.workers[task];
      if !(w.phase.Finished? || (w.phase.Executing? && w.phase.pc.Republished?)) then None
      else Some(s.(workers := s.workers - {task}, queue := RemoveMsg(s.queue, w.msg)))
  }

  /** The worker dies. Its unacknowledged message stays in the queue, unless the broker dropped it. */
  function CrashNext(s: State, task: TaskId, redelivered: bool): Option<State> {
    if task !in s.workers then None
    else
      var w := s.workers[task];
      var gained := (if task in s.extra then s.extra[task] else 0) + Charge(w);
      var dead := s.(workers := s.workers - {task}, extra := s.extra[task := gained]);
      if redelivered then Some(dead)
      else Some(dead.(queue := RemoveMsg(s.queue, w.msg), stranded := s.stranded + {task}))
  }

  function Next(env: Env, s: State, a: Action): Option<State> {
    match a
    case Create(run, from) => CreateNext(s, run, from)
    case Enqueue(run, task) => EnqueueNext(s, run, task)
    case Deliver(index) => DeliverNext(s, index)
    case Claim(task, maxPages) => ClaimNext(env, s, task, maxPages)
    case RejectLocked(task, holder) => RejectNext(s, task, Some(holder))
    case RejectClaim(task) => RejectNext(s, task, None)
    case Do(task, ev) => DoNext(env, s, task, ev)
    case Ack(task) => AckNext(s, task)
    case Crash(task, redelivered) => CrashNext(s, task, redelivered)
  }

  /** The state an execution reaches; None if some action of it was not enabled. */
  function Execute(env: Env, trace: seq<Action>): Option<State> {
    if trace == [] then Some(INIT)
    else
      match Execute(env, trace[..|trace| - 1])
      case None => None
      case Some(s) => Next(env, s, trace[|trace| - 1])
  }
}
