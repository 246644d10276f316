/** The retry chain: the two retry decisions agree, attempts are bounded, and a run that is left
    RUNNING has a message that will bring a worker back to it. */
module Retries {
  import opened Prelude
  import opened Mapping
  import opened Claims
  import opened Protocol
  import opened RunInvariant
  import opened ProtocolInvariant

  // ---- the decisions agree --------------------------------------------------------------------

  /** After an attempt's failure is recorded, the orchestration has left the run RUNNING exactly
      when the task is about to schedule a Celery retry; otherwise it is FAILED, with this error. */
  lemma {:induction false} DecisionsAgree(env: Env, trace: seq<Action>, task: TaskId)
    requires Execute(env, trace).Some?
    requires Next(env, Execute(env, trace).value, Do(task, Decide)).Some?
    ensures
      var s := Execute(env, trace).value;
      var s' := Next(env, s, Do(task, Decide)).value;
      var w := s.workers[task];
      var row := s'.runs[w.msg.run].row;
      && (row.status == Running <==> s'.queue == s.queue + [w.msg.(retries := w.msg.retries + 1)])
      && (row.status == Failed <==> s'.queue == s.queue)
      && (row.status == Running || row.status == Failed)
  {
    hide Execute, RunOk, RunsOk, ChainsOk, MapRecords;
    Reachable(env, trace);
    var s := Execute(env, trace).value;
    assert WorkerOk(env, s.runs, s.queue, task, s.workers[task]);
    assert s.queue + [] == s.queue;
  }

  // ---- attempts are bounded -------------------------------------------------------------------

  /** The attempts before a last one that the queued messages of a task can still lead to. */
  function Budget(queue: seq<Msg>, task: TaskId): nat {
    if queue == [] then 0
    else (if queue[0].task == task then Cost(queue[0]) else 0) + Budget(queue[1..], task)
  }

  lemma {:induction false} BudgetAppend(queue: seq<Msg>, more: seq<Msg>, task: TaskId)
    ensures Budget(queue + more, task) == Budget(queue, task) + Budget(more, task)
  {
    if queue == [] {
      assert queue + more == more;
    } else {
      assert (queue + more)[1..] == queue[1..] + more;
      BudgetAppend(queue[1..], more, task);
    }
  }

  lemma {:induction false} BudgetRemove(queue: seq<Msg>, msg: Msg, task: TaskId)
    requires msg in queue
    ensures Budget(RemoveMsg(queue, msg), task) + (if msg.task == task then Cost(msg) else 0) == Budget(queue, task)
  {
    if queue[0] != msg {
      BudgetRemove(queue[1..], msg, task);
      assert ([queue[0]] + RemoveMsg(queue[1..], msg))[1..] == RemoveMsg(queue[1..], msg);
    }
  }

  lemma {:induction false} BudgetZero(queue: seq<Msg>, task: TaskId)
    requires forall m | m in queue :: m.task != task
    ensures Budget(queue, task) == 0
  {
    if queue != [] {
      BudgetZero(queue[1..], task);
    }
  }

  lemma {:induction false} BudgetMember(queue: seq<Msg>, msg: Msg)
    requires msg in queue
    ensures Budget(queue, msg.task) >= Cost(msg)
  {
    if queue[0] != msg {
      BudgetMember(queue[1..], msg);
    }
  }

  /** The attempts the task has made: claims of the run it owns. */
  function AttemptsBy(s: State, task: TaskId): nat
    requires task in s.tasks
  {
    var id := s.tasks[task];
    if id in s.runs && s.runs[id].row.taskId == Some(task) then s.runs[id].row.attempt else 0
  }

  /** What a worker has spent of the budget of its message. */
  function SpentBy(w: Worker): nat {
    if w.msg.retries < MAX_RETRIES then Charge(w) else 0
  }

  function Spent(s: State, task: TaskId): nat {
    if task in s.workers then SpentBy(s.workers[task]) else 0
  }

  /** One while the last attempt of the run, which finalises it, may still come. All messages of a
      task share it: once made, it leaves no attempt to any of them. */
  function LastTryOf(w: Option<Worker>, row: Option<Claims.Row>): nat {
    if w.Some? && w.value.phase.Executing? then (if w.value.msg.retries < MAX_RETRIES then 1 else 0)
    else if row.Some? && Terminal(row.value.status) then 0
    else 1
  }

  function LastTry(s: State, task: TaskId): nat
    requires task in s.tasks
  {
    LastTryOf(if task in s.workers then Some(s.workers[task]) else None,
              if s.tasks[task] in s.runs then Some(s.runs[s.tasks[task]].row) else None)
  }

  /** Attempts made and attempts to come, less what the live worker has already spent. */
  predicate BudgetOk(s: State, task: TaskId)
    requires task in s.tasks
  {
    && task in s.extra
    && AttemptsBy(s, task) + Budget(s.queue, task) + LastTry(s, task) <= MAX_RUN_ATTEMPTS + s.extra[task] + Spent(s,
        task)
  }

  /** A message carries no more retries than its task has made attempts; a worker that claimed has
      made one more. */
  predicate RetriesOk(s: State, task: TaskId)
    requires task in s.tasks
  {
    && (forall m | m in s.queue && m.task == task :: m.retries <= AttemptsBy(s, task))
    && (task in s.workers && s.workers[task].phase.Executing? ==> s.workers[task].msg.retries < AttemptsBy(s, task))
  }

  /** A run is owned by a task that was enqueued for it. */
  predicate OwnersOk(s: State) {
    forall id | id in s.runs && s.runs[id].row.taskId.Some? ::
      s.runs[id].row.taskId.value in s.tasks && s.tasks[s.runs[id].row.taskId.value] == id
  }

  predicate BudgetsOk(s: State) {
    OwnersOk(s) && forall t | t in s.tasks :: BudgetOk(s, t) && RetriesOk(s, t)
  }

  lemma {:induction false} EnqueueBudget(env: Env, s: State, id: RunId, task: TaskId)
    requires Inv(env, s) && BudgetsOk(s) && EnqueueNext(s, id, task).Some?
    ensures BudgetsOk(EnqueueNext(s, id, task).value)
  {
    hide Inv, Budget;
    var s' := EnqueueNext(s, id, task).value;
    var msg := Msg(task, id, 0);
    forall m | m in s.queue ensures m.task != task {
      QueueFacts(env, s, m);
    }
    if task in s.workers {
      WorkerFacts(env, s, task);
    }
    BudgetZero(s.queue, task);
    forall t | t in s'.tasks ensures BudgetOk(s', t) && RetriesOk(s', t) {
      BudgetAppend(s.queue, [msg], t);
      BudgetOne(msg, t);
      if t in s.tasks {
        assert BudgetOk(s, t) && RetriesOk(s, t);
      }
    }
  }

  lemma {:induction false} BudgetOne(msg: Msg, task: TaskId)
    ensures Budget([msg], task) == if msg.task == task then Cost(msg) else 0
    ensures Budget([], task) == 0
  {
    assert [msg][1..] == [];
  }

  /** One worker moves on: budgets follow from what it published, its run's row and its charge. */
  predicate Moves(s: State, t: TaskId, run: RunState, w: Worker, published: seq<Msg>) {
    && t in s.workers && w.msg == s.workers[t].msg && w.msg.task == t && w.msg.run in s.runs
    && t in s.tasks && s.tasks[t] == w.msg.run
    && run.row.taskId == Some(t)
    && (var row := s.runs[w.msg.run].row;
        && (row.taskId == Some(t) || (row.taskId.None? && row.attempt == 0))
        && row.attempt <= run.row.attempt
        && (Terminal(row.status) ==> Terminal(run.row.status))
        && run.row.attempt + SpentBy(s.workers[t]) + Budget(published, t) + LastTryOf(Some(w), Some(run.row))
           <= row.attempt + SpentBy(w) + LastTryOf(Some(s.workers[t]), Some(row)))
    && (forall m | m in published :: m.task == t && m.retries <= run.row.attempt)
    && (w.phase.Executing? ==> w.msg.retries < run.row.attempt)
  }

  lemma {:induction false} MoveAttempts(s: State, t: TaskId, run: RunState, w: Worker, published: seq<Msg>, u: TaskId)
    requires BudgetsOk(s) && Moves(s, t, run, w, published) && u in s.tasks
    ensures
      var s' := s.(runs := s.runs[w.msg.run := run], workers := s.workers[t := w], queue := s.queue + published);
      && (u == t ==> AttemptsBy(s', u) == run.row.attempt && AttemptsBy(s, u) == s.runs[w.msg.run].row.attempt)
      && (u != t ==> AttemptsBy(s', u) == AttemptsBy(s, u) && LastTry(s', u) <= LastTry(s, u))
  {
    hide BudgetOk, RetriesOk, SpentBy, Budget;
  }

  lemma {:induction false} WorkerBudget(s: State, t: TaskId, run: RunState, w: Worker, published: seq<Msg>)
    requires BudgetsOk(s) && Moves(s, t, run, w, published)
    ensures BudgetsOk(s.(runs := s.runs[w.msg.run := run], workers := s.workers[t := w], queue := s.queue + published))
  {
    hide SpentBy, Budget, AttemptsBy, LastTryOf;
    var id := w.msg.run;
    var s' := s.(runs := s.runs[id := run], workers := s.workers[t := w], queue := s.queue + published);
    forall u | u in s'.tasks ensures BudgetOk(s', u) && RetriesOk(s', u) {
      assert BudgetOk(s, u) && RetriesOk(s, u);
      BudgetAppend(s.queue, published, u);
      MoveAttempts(s, t, run, w, published, u);
      if u != t {
        BudgetZero(published, u);
      }
    }
  }

  lemma {:induction false} ClaimBudget(env: Env, s: State, t: TaskId, maxPages: nat)
    requires Inv(env, s) && BudgetsOk(s) && ClaimNext(env, s, t, maxPages).Some?
    ensures BudgetsOk(ClaimNext(env, s, t, maxPages).value)
  {
    hide Inv, CursorPage, Ended, Budget, BudgetsOk;
    var w := s.workers[t];
    WorkerFacts(env, s, t);
    OwnerFacts(env, s, w.msg.run);
    assert RetriesOk(s, t) by { BudgetsFacts(s, t); }
    var (run, worker) := ClaimStep(env, s.runs[w.msg.run], w.msg, maxPages).value;
    BudgetOne(w.msg, t);
    assert Moves(s, t, run, worker, []);
    WorkerBudget(s, t, run, worker, []);
    assert s.queue + [] == s.queue;
  }

  lemma {:induction false} BudgetsFacts(s: State, t: TaskId)
    requires BudgetsOk(s) && t in s.tasks
    ensures BudgetOk(s, t) && RetriesOk(s, t)
  {
  }

  lemma {:induction false} DoBudget(env: Env, s: State, t: TaskId, ev: Event)
    requires Inv(env, s) && BudgetsOk(s) && DoNext(env, s, t, ev).Some?
    ensures BudgetsOk(DoNext(env, s, t, ev).value)
  {
    hide Inv, Advance, Budget, BudgetsOk;
    var w := s.workers[t];
    WorkerFacts(env, s, t);
    DoFacts(env, s, t, ev);
    BudgetsFacts(s, t);
    var eff := Advance(env, s.runs[w.msg.run], w, ev).value;
    BudgetOne(w.msg.(retries := w.msg.retries + 1), t);
    assert Moves(s, t, eff.run, eff.worker, eff.published);
    WorkerBudget(s, t, eff.run, eff.worker, eff.published);
    var before := s.(runs := s.runs[w.msg.run := eff.run], workers := s.workers[t := eff.worker],
        queue := s.queue + eff.published);
    BudgetIgnoresDest(s, before, DoNext(env, s, t, ev).value);
  }

  lemma {:induction false} BudgetIgnoresDest(s: State, a: State, b: State)
    requires BudgetsOk(a) && b == a.(dest := b.dest)
    ensures BudgetsOk(b)
  {
    hide Budget, Charge;
    forall t | t in b.tasks ensures BudgetOk(b, t) && RetriesOk(b, t) {
      assert BudgetOk(a, t) && RetriesOk(a, t);
      assert AttemptsBy(a, t) == AttemptsBy(b, t);
    }
  }

  /** A worker goes away, with its message or without it. */
  lemma {:induction false} RemoveBudget(s: State, t: TaskId, s': State)
    requires BudgetsOk(s) && t in s.workers && s.workers[t].msg.task == t && s.workers[t].msg in s.queue
    requires s'.runs == s.runs && s'.tasks == s.tasks && s'.workers == s.workers - {t}
    requires s'.queue == s.queue || s'.queue == RemoveMsg(s.queue, s.workers[t].msg)
    requires forall u | u in s.tasks && u != t :: u in s'.extra && s'.extra[u] == s.extra[u]
    requires t in s.tasks ==> t in s'.extra
    requires t in s.tasks ==>
      s'.extra[t] + (if s'.queue == s.queue then 0 else Cost(s.workers[t].msg)) + LastTry(s, t)
      >= s.extra[t] + SpentBy(s.workers[t]) + LastTry(s', t)
    ensures BudgetsOk(s')
  {
    hide SpentBy, Cost, Budget, RemoveMsg;
    forall u | u in s'.tasks ensures BudgetOk(s', u) && RetriesOk(s', u) {
      assert BudgetOk(s, u) && RetriesOk(s, u);
      assert AttemptsBy(s', u) == AttemptsBy(s, u);
      BudgetRemove(s.queue, s.workers[t].msg, u);
      forall m | m in s'.queue ensures m in s.queue {
        RemoveMsgMembers(s.queue, s.workers[t].msg, m);
      }
    }
  }

  lemma {:induction false} RemoveBudgetAction(env: Env, s: State, a: Action)
    requires Inv(env, s) && BudgetsOk(s) && (a.Ack? || a.Crash?) && Next(env, s, a).Some?
    ensures BudgetsOk(Next(env, s, a).value)
  {
    hide Inv, Budget, RemoveMsg, CreateNext, ClaimNext, DoNext, RetriesOk;
    var t := a.task;
    WorkerFacts(env, s, t);
    assert BudgetOk(s, t);
    assert s.queue != RemoveMsg(s.queue, s.workers[t].msg) by {
      RemoveShortens(s.queue, s.workers[t].msg);
    }
    RemoveBudget(s, t, Next(env, s, a).value);
  }

  lemma {:induction false} RemoveShortens(queue: seq<Msg>, msg: Msg)
    requires msg in queue
    ensures |RemoveMsg(queue, msg)| == |queue| - 1
  {
    if queue[0] != msg {
      RemoveShortens(queue[1..], msg);
    }
  }

  /** Steps that touch neither queue, tasks nor the rows of claimed runs, and charge no less. */
  lemma {:induction false} FrameBudget(s: State, s': State)
    requires BudgetsOk(s) && OwnersOk(s')
    requires s'.queue == s.queue && s'.tasks == s.tasks && s'.extra == s.extra
    requires forall t | t in s.tasks :: AttemptsBy(s', t) == AttemptsBy(s, t)
    requires forall t | t in s.tasks :: Spent(s, t) <= Spent(s', t) && LastTry(s', t) <= LastTry(s, t)
    requires forall t | t in s'.workers && s'.workers[t].phase.Executing? ::
        t in s.workers && s.workers[t] == s'.workers[t]
    ensures BudgetsOk(s')
  {
    hide Budget, AttemptsBy, Spent, LastTry;
    forall t | t in s'.tasks ensures BudgetOk(s', t) && RetriesOk(s', t) {
      assert BudgetOk(s, t) && RetriesOk(s, t);
    }
  }

  lemma {:induction false} OtherBudget(env: Env, s: State, a: Action)
    requires Inv(env, s) && BudgetsOk(s) && Next(env, s, a).Some?
    requires a.Deliver? || a.RejectLocked? || a.RejectClaim?
    ensures BudgetsOk(Next(env, s, a).value)
  {
    hide Inv, Budget, CreateNext, ClaimNext, DoNext, AckNext, CrashNext, BudgetOk, RetriesOk, ClaimRow;
    FrameBudget(s, Next(env, s, a).value);
  }

  lemma {:induction false} CreateBudget(env: Env, s: State, run: RunId, from: Option<RunId>)
    requires Inv(env, s) && BudgetsOk(s) && CreateNext(s, run, from).Some?
    ensures BudgetsOk(CreateNext(s, run, from).value)
  {
    hide Inv, Budget, BudgetOk, RetriesOk;
    FrameBudget(s, CreateNext(s, run, from).value);
  }

  lemma {:induction false} NextBudget(env: Env, s: State, a: Action)
    requires Inv(env, s) && BudgetsOk(s) && Next(env, s, a).Some?
    ensures BudgetsOk(Next(env, s, a).value)
  {
    hide Inv, BudgetsOk;
    match a
    case Create(run, from) => CreateBudget(env, s, run, from);
    case Enqueue(run, task) => EnqueueBudget(env, s, run, task);
    case Claim(task, maxPages) => ClaimBudget(env, s, task, maxPages);
    case Do(task, ev) => DoBudget(env, s, task, ev);
    case Ack(task) => RemoveBudgetAction(env, s, a);
    case Crash(task, redelivered) => RemoveBudgetAction(env, s, a);
    case _ => OtherBudget(env, s, a);
  }

  lemma {:induction false} BudgetsHold(env: Env, trace: seq<Action>)
    requires Execute(env, trace).Some?
    ensures BudgetsOk(Execute(env, trace).value)
  {
    hide Next, Inv;
    if trace != [] {
      var front := trace[..|trace| - 1];
      BudgetsHold(env, front);
      Reachable(env, front);
      NextBudget(env, Execute(env, front).value, trace[|trace| - 1]);
    }
  }

  /** Crashes of a task's workers: all of them, and those between publishing a retry and
      acknowledging the message it replaces. */
  function Crashes(trace: seq<Action>, task: TaskId): nat {
    if trace == [] then 0
    else Crashes(trace[..|trace| - 1], task)
         + if trace[|trace| - 1].Crash? && trace[|trace| - 1].task == task then 1 else 0
  }

  function LateCrashes(env: Env, trace: seq<Action>, task: TaskId): nat {
    if trace == [] then 0
    else
      var front, a := trace[..|trace| - 1], trace[|trace| - 1];
      LateCrashes(env, front, task)
      + if a.Crash? && a.task == task && Execute(env, front).Some? && IsLate(Execute(env, front).value, task) then 1
          else 0
  }

  predicate IsLate(s: State, task: TaskId) {
    task in s.workers && s.workers[task].phase.Executing? && s.workers[task].phase.pc.Republished?
  }

  lemma {:induction false} ExtraStep(env: Env, s: State, a: Action, task: TaskId)
    requires Next(env, s, a).Some? && task in Next(env, s, a).value.extra
    ensures Next(env, s, a).value.extra[task]
         <= (if task in s.extra then s.extra[task] else 0)
            + (if a.Crash? && a.task == task then if IsLate(s, task) then MAX_RETRIES else 1 else 0)
  {
    hide Advance, ClaimStep, RemoveMsg;
    match a
    case Crash(t, _) =>
      assert Charge(s.workers[t]) <= if IsLate(s, t) then MAX_RETRIES else 1;
    case _ =>
      assert task in s.extra ==> Next(env, s, a).value.extra[task] <= s.extra[task];
  }

  lemma {:induction false} ExtraCounted(env: Env, trace: seq<Action>, task: TaskId)
    requires Execute(env, trace).Some? && task in Execute(env, trace).value.extra
    ensures Execute(env, trace).value.extra[task]
         <= Crashes(trace, task) + (MAX_RETRIES - 1) * LateCrashes(env, trace, task)
  {
    hide Next, IsLate;
    if trace != [] {
      var front := trace[..|trace| - 1];
      var s := Execute(env, front).value;
      if task in s.extra {
        ExtraCounted(env, front, task);
      }
      ExtraStep(env, s, trace[|trace| - 1], task);
    }
  }

  /** No run is attempted more than five times plus what crashes add: one attempt for each crash,
      or four if the crash falls between publishing a retry and acknowledging its predecessor. */
  lemma {:induction false} AttemptsBounded(env: Env, trace: seq<Action>, id: RunId)
    requires Execute(env, trace).Some? && id in Execute(env, trace).value.runs
    requires Execute(env, trace).value.runs[id].row.taskId.Some?
    ensures
      var row := Execute(env, trace).value.runs[id].row;
      var owner := row.taskId.value;
      row.attempt <= MAX_RUN_ATTEMPTS + Crashes(trace, owner) + (MAX_RETRIES - 1) * LateCrashes(env, trace, owner)
  {
    hide Execute, RunOk, ExecOk, ChainsOk, RunsOk, Crashes, LateCrashes;
    Reachable(env, trace);
    BudgetsHold(env, trace);
    var s := Execute(env, trace).value;
    var t := s.runs[id].row.taskId.value;
    assert BudgetOk(s, t);
    if t in s.workers {
      assert WorkerOk(env, s.runs, s.queue, t, s.workers[t]);
      assert MsgOk(s.runs, s.tasks, s.workers[t].msg);
      BudgetMember(s.queue, s.workers[t].msg);
    }
    ExtraCounted(env, trace, t);
  }

  /** While its task loses no worker, an attempt's number is its Celery retry count plus one, so at
      most five. */
  lemma {:induction false} AttemptIsRetriesPlusOne(env: Env, trace: seq<Action>, task: TaskId)
    requires Execute(env, trace).Some? && task in Execute(env, trace).value.workers
    requires
      var w := Execute(env, trace).value.workers[task];
      w.phase.Executing? && !w.phase.pc.Republished?
    requires Crashes(trace, task) == 0
    ensures
      var s := Execute(env, trace).value;
      var w := s.workers[task];
      w.msg.run in s.runs && s.runs[w.msg.run].row.attempt == w.msg.retries + 1 <= MAX_RUN_ATTEMPTS
  {
    hide Execute, PcOk, RunOk, ChainsOk, RunsOk, Crashes, LateCrashes;
    Reachable(env, trace);
    BudgetsHold(env, trace);
    var s := Execute(env, trace).value;
    var w := s.workers[task];
    assert WorkerOk(env, s.runs, s.queue, task, w);
    assert MsgOk(s.runs, s.tasks, w.msg);
    assert BudgetOk(s, task) && RetriesOk(s, task);
    BudgetMember(s.queue, w.msg);
    ExtraCounted(env, trace, task);
    NoLateCrashes(env, trace, task);
  }

  /** A run whose task loses no worker is FAILED by its fifth failing attempt at the latest: an earlier
      one that leaves it RUNNING has queued the attempt that follows. */
  lemma {:induction false} CrashFreeChainEnds(env: Env, trace: seq<Action>, task: TaskId)
    requires Execute(env, trace).Some? && Crashes(trace, task) == 0
    requires Next(env, Execute(env, trace).value, Do(task, Decide)).Some?
    ensures
      var s := Execute(env, trace).value;
      var s' := Next(env, s, Do(task, Decide)).value;
      var w := s.workers[task];
      var row := s'.runs[w.msg.run].row;
      && row.attempt == w.msg.retries + 1 <= MAX_RUN_ATTEMPTS
      && (row.attempt == MAX_RUN_ATTEMPTS ==> row.status == Failed)
      && (row.status == Running ==> Msg(task, w.msg.run, row.attempt) in s'.queue)
  {
    hide Execute, RunOk, RunsOk, ChainsOk, MapRecords, Crashes, PcOk, PcStatusOk;
    DecisionsAgree(env, trace, task);
    AttemptIsRetriesPlusOne(env, trace, task);
    Reachable(env, trace);
    var s := Execute(env, trace).value;
    WorkerFacts(env, s, task);
    assert s.queue + [] == s.queue;
  }

  lemma {:induction false} NoLateCrashes(env: Env, trace: seq<Action>, task: TaskId)
    ensures LateCrashes(env, trace, task) <= Crashes(trace, task)
  {
    hide Execute;
    if trace != [] {
      NoLateCrashes(env, trace[..|trace| - 1], task);
    }
  }

  // ---- a RUNNING run is attended --------------------------------------------------------------

  predicate HasMsg(queue: seq<Msg>, task: TaskId) {
    exists m :: m in queue && m.task == task
  }

  predicate Owns(s: State, task: TaskId, id: RunId) {
    id in s.runs && s.runs[id].row.status == Running && s.runs[id].row.taskId == Some(task)
  }

  /** A RUNNING run has a message for its owner, unless that message was consumed unhandled. */
  ghost predicate AttendedOk(s: State) {
    && OwnersOk(s)
    && (forall id, t | Owns(s, t, id) && t !in s.stranded :: HasMsg(s.queue, t))
    && (forall t | t in s.workers && s.workers[t].phase.Finished? ::
          t in s.stranded || !Owns(s, t, s.workers[t].msg.run))
    && (forall t | IsLate(s, t) :: s.workers[t].msg.(retries := s.workers[t].msg.retries + 1) in s.queue)
  }

  /** A message for each RUNNING run's owner, provided the steps kept those that matter. */
  lemma {:induction false} FrameAttended(s: State, s': State)
    requires AttendedOk(s) && OwnersOk(s')
    requires forall r, u | Owns(s', u, r) && u !in s'.stranded && !HasMsg(s'.queue, u) ::
      Owns(s, u, r) && u !in s.stranded && !HasMsg(s.queue, u)
    requires forall u | u in s'.workers && s'.workers[u].phase.Finished? ::
      || u in s'.stranded
      || !Owns(s', u, s'.workers[u].msg.run)
      || (u in s.workers && s.workers[u] == s'.workers[u] && u !in s.stranded && Owns(s, u, s.workers[u].msg.run))
    requires forall u | IsLate(s', u) ::
      || s'.workers[u].msg.(retries := s'.workers[u].msg.retries + 1) in s'.queue
      || (IsLate(s, u) && s.workers[u].msg.(retries := s.workers[u].msg.retries + 1) !in s.queue)
    ensures AttendedOk(s')
  {
    hide Owns, HasMsg, IsLate, OwnersOk;
  }

  lemma {:induction false} ClaimAttended(env: Env, s: State, t: TaskId, maxPages: nat)
    requires Inv(env, s) && AttendedOk(s) && ClaimNext(env, s, t, maxPages).Some?
    ensures AttendedOk(ClaimNext(env, s, t, maxPages).value)
  {
    hide Inv, CursorPage, Ended, AttendedOk;
    var w := s.workers[t];
    WorkerFacts(env, s, t);
    assert HasMsg(s.queue, t);
    AttendedOwners(s);
    FrameAttended(s, ClaimNext(env, s, t, maxPages).value);
  }

  lemma {:induction false} AttendedOwners(s: State)
    requires AttendedOk(s)
    ensures OwnersOk(s)
    ensures forall t | IsLate(s, t) :: s.workers[t].msg.(retries := s.workers[t].msg.retries + 1) in s.queue
  {
    hide OwnersOk, IsLate;
  }

  lemma {:induction false} HasMsgAppend(queue: seq<Msg>, more: seq<Msg>, t: TaskId)
    requires HasMsg(queue, t)
    ensures HasMsg(queue + more, t)
  {
    var m :| m in queue && m.task == t;
    assert m in queue + more;
  }

  lemma {:induction false} DoAttended(env: Env, s: State, t: TaskId, ev: Event)
    requires Inv(env, s) && AttendedOk(s) && DoNext(env, s, t, ev).Some?
    ensures AttendedOk(DoNext(env, s, t, ev).value)
  {
    hide Inv, Advance, AttendedOk, HasMsg;
    var s' := DoNext(env, s, t, ev).value;
    WorkerFacts(env, s, t);
    DoFacts(env, s, t, ev);
    AttendedOwners(s);
    forall u | HasMsg(s.queue, u) ensures HasMsg(s'.queue, u) {
      HasMsgAppend(s.queue, Advance(env, s.runs[s.workers[t].msg.run], s.workers[t], ev).value.published, u);
    }
    FrameAttended(s, s');
  }

  /** Removing the message of a task keeps those of the others, and a published successor. */
  lemma {:induction false} HasMsgRemove(queue: seq<Msg>, msg: Msg, u: TaskId)
    requires HasMsg(queue, u)
    requires u == msg.task ==> msg.(retries := msg.retries + 1) in queue
    ensures HasMsg(RemoveMsg(queue, msg), u)
  {
    var m :| m in queue && m.task == u;
    var keep := if u == msg.task then msg.(retries := msg.retries + 1) else m;
    RemoveMsgMembers(queue, msg, keep);
    assert keep in RemoveMsg(queue, msg) && keep.task == u;
  }

  lemma {:induction false} RemoveAttended(env: Env, s: State, a: Action)
    requires Inv(env, s) && AttendedOk(s) && (a.Ack? || a.Crash?) && Next(env, s, a).Some?
    ensures AttendedOk(Next(env, s, a).value)
  {
    hide Inv, RemoveMsg, Charge, HasMsg, AttendedOk, CreateNext, ClaimNext, DoNext, EnqueueNext, RejectNext;
    var t := a.task;
    var w := s.workers[t];
    var s' := Next(env, s, a).value;
    WorkerFacts(env, s, t);
    AttendedOwners(s);
    forall u | HasMsg(s.queue, u) && (u == t ==> IsLate(s, t) || s'.queue == s.queue) ensures HasMsg(s'.queue, u) {
      if s'.queue != s.queue {
        HasMsgRemove(s.queue, w.msg, u);
      }
    }
    forall u | IsLate(s', u) ensures s'.workers[u].msg.(retries := s'.workers[u].msg.retries + 1) in s'.queue {
      WorkerFacts(env, s, u);
      RemoveMsgMembers(s.queue, w.msg, s.workers[u].msg.(retries := s.workers[u].msg.retries + 1));
    }
    if w.phase.Finished? && t !in s.stranded {
      FinishedOwnsNothing(s, t);
    }
    FrameAttended(s, s');
  }

  lemma {:induction false} FinishedOwnsNothing(s: State, t: TaskId)
    requires AttendedOk(s) && t in s.workers && s.workers[t].phase.Finished? && t !in s.stranded
    ensures !Owns(s, t, s.workers[t].msg.run)
  {
  }

  lemma {:induction false} CreateAttended(env: Env, s: State, id: RunId, from: Option<RunId>)
    requires Inv(env, s) && AttendedOk(s) && CreateNext(s, id, from).Some?
    ensures AttendedOk(CreateNext(s, id, from).value)
  {
    hide Inv, HasMsg, AttendedOk;
    AttendedOwners(s);
    forall u | u in s.workers ensures s.workers[u].msg.run in s.runs {
      WorkerFacts(env, s, u);
    }
    FrameAttended(s, CreateNext(s, id, from).value);
  }

  lemma {:induction false} EnqueueAttended(s: State, id: RunId, task: TaskId)
    requires AttendedOk(s) && EnqueueNext(s, id, task).Some?
    ensures AttendedOk(EnqueueNext(s, id, task).value)
  {
    hide HasMsg, AttendedOk;
    AttendedOwners(s);
    forall u | HasMsg(s.queue, u) ensures HasMsg(EnqueueNext(s, id, task).value.queue, u) {
      HasMsgAppend(s.queue, [Msg(task, id, 0)], u);
    }
    FrameAttended(s, EnqueueNext(s, id, task).value);
  }

  lemma {:induction false} DeliverAttended(s: State, index: nat)
    requires AttendedOk(s) && DeliverNext(s, index).Some?
    ensures AttendedOk(DeliverNext(s, index).value)
  {
    hide HasMsg, AttendedOk;
    AttendedOwners(s);
    FrameAttended(s, DeliverNext(s, index).value);
  }

  lemma {:induction false} RejectAttended(env: Env, s: State, t: TaskId, holder: Option<TaskId>)
    requires Inv(env, s) && AttendedOk(s) && RejectNext(s, t, holder).Some?
    ensures AttendedOk(RejectNext(s, t, holder).value)
  {
    hide Inv, HasMsg, AttendedOk;
    AttendedOwners(s);
    WorkerFacts(env, s, t);
    FrameAttended(s, RejectNext(s, t, holder).value);
  }

  lemma {:induction false} AttendedHolds(env: Env, trace: seq<Action>)
    requires Execute(env, trace).Some?
    ensures AttendedOk(Execute(env, trace).value)
  {
    hide Next, Inv, AttendedOk;
    if trace != [] {
      var front, a := trace[..|trace| - 1], trace[|trace| - 1];
      AttendedHolds(env, front);
      Reachable(env, front);
      NextAttended(env, Execute(env, front).value, a);
    } else {
      assert AttendedOk(INIT) by { InitAttended(); }
    }
  }

  lemma {:induction false} InitAttended()
    ensures AttendedOk(INIT)
  {
  }

  lemma {:induction false} NextAttended(env: Env, s: State, a: Action)
    requires Inv(env, s) && AttendedOk(s) && Next(env, s, a).Some?
    ensures AttendedOk(Next(env, s, a).value)
  {
    hide Inv, AttendedOk;
    match a
    case Claim(task, maxPages) => ClaimAttended(env, s, task, maxPages);
    case Do(task, ev) => DoAttended(env, s, task, ev);
    case Ack(task) => RemoveAttended(env, s, a);
    case Crash(task, redelivered) => RemoveAttended(env, s, a);
    case Create(run, from) => CreateAttended(env, s, run, from);
    case Enqueue(run, task) => EnqueueAttended(s, run, task);
    case Deliver(index) => DeliverAttended(s, index);
    case RejectLocked(task, holder) => RejectAttended(env, s, task, Some(holder));
    case RejectClaim(task) => RejectAttended(env, s, task, None);
  }

  /** In every reachable state a RUNNING run is owned by a task that either still has a message in
      the queue or whose message was consumed without being handled: by a claim that lost the row
      lock, or by a worker that died after the broker dropped its message. */
  lemma {:induction false} RunningIsAttended(env: Env, trace: seq<Action>, id: RunId)
    requires Execute(env, trace).Some? && id in Execute(env, trace).value.runs
    requires Execute(env, trace).value.runs[id].row.status == Running
    ensures
      var s := Execute(env, trace).value;
      var owner := s.runs[id].row.taskId;
      owner.Some? && (owner.value in s.stranded || HasMsg(s.queue, owner.value))
  {
    hide Execute, HistOk, AuditOk, DisjointOk, EndsOk, ChainsOk;
    Reachable(env, trace);
    AttendedHolds(env, trace);
    var s := Execute(env, trace).value;
    assert RunOk(env, id, s.runs[id]);
    assert Owns(s, s.runs[id].row.taskId.value, id);
  }
}
