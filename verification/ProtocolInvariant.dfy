/** The invariant of the whole system and its preservation by every step. */
module ProtocolInvariant {
  import opened Prelude
  import opened Mapping
  import opened Claims
  import opened Protocol
  import opened RunInvariant

  predicate RunsOk(env: Env, runs: map<RunId, RunState>) {
    forall id | id in runs :: RunOk(env, id, runs[id])
  }

  /** Ancestors are runs that have finished. */
  predicate ChainsOk(runs: map<RunId, RunState>) {
    forall id, a | id in runs && a in runs[id].chain :: a in runs && (a != id ==> Terminal(runs[a].row.status))
  }

  predicate MsgOk(runs: map<RunId, RunState>, tasks: map<TaskId, RunId>, m: Msg) {
    m.run in runs && m.retries <= MAX_RETRIES && m.task in tasks && tasks[m.task] == m.run
  }

  predicate QueueOk(runs: map<RunId, RunState>, tasks: map<TaskId, RunId>, queue: seq<Msg>) {
    forall m | m in queue :: MsgOk(runs, tasks, m)
  }

  /** A live worker holds an unacknowledged message; while it executes, the run is its own. */
  predicate WorkerOk(env: Env, runs: map<RunId, RunState>, queue: seq<Msg>, task: TaskId, w: Worker) {
    && w.msg.task == task
    && w.msg in queue
    && w.msg.run in runs
    && (w.phase.Executing? ==> ExecOk(env, runs[w.msg.run], w))
  }

  predicate WorkersOk(env: Env, runs: map<RunId, RunState>, queue: seq<Msg>, workers: map<TaskId, Worker>) {
    forall t | t in workers :: WorkerOk(env, runs, queue, t, workers[t])
  }

  predicate Inv(env: Env, s: State) {
    && RunsOk(env, s.runs)
    && ChainsOk(s.runs)
    && QueueOk(s.runs, s.tasks, s.queue)
    && WorkersOk(env, s.runs, s.queue, s.workers)
  }

  predicate Executes(s: State, t: TaskId, id: RunId) {
    t in s.workers && s.workers[t].phase.Executing? && s.workers[t].msg.run == id
  }

  /** Single ownership: two live workers never execute the same run. */
  lemma {:induction false} OneExecutor(env: Env, s: State, t: TaskId, u: TaskId, id: RunId)
    requires Inv(env, s) && Executes(s, t, id) && Executes(s, u, id)
    ensures t == u
    ensures s.runs[id].row.taskId == Some(t)
    ensures OwnColumnsAgree(s.workers[t].phase.mem, s.runs[id].row)
  {
    hide PcOk, PcStatusOk;
    assert WorkerOk(env, s.runs, s.queue, t, s.workers[t]);
    assert WorkerOk(env, s.runs, s.queue, u, s.workers[u]);
  }

  lemma {:induction false} RemoveMsgMembers(queue: seq<Msg>, msg: Msg, m: Msg)
    ensures m in RemoveMsg(queue, msg) ==> m in queue
    ensures m != msg && m in queue ==> m in RemoveMsg(queue, msg)
  {
    if queue != [] && queue[0] != msg {
      RemoveMsgMembers(queue[1..], msg, m);
    }
  }

  /** Two different runs never meet in one chain unless one of them has finished. */
  lemma {:induction false} UpdateChains(runs: map<RunId, RunState>, id: RunId, run: RunState)
    requires ChainsOk(runs) && id in runs
    requires run.chain == runs[id].chain && Forward(runs[id].row, run.row)
    ensures ChainsOk(runs[id := run])
  {
  }

  /** Replacing one run and its worker: every other worker is busy with another run. */
  lemma {:induction false} UpdateKeeps(env: Env, s: State, t: TaskId, run: RunState, w: Worker, published: seq<Msg>)
    requires Inv(env, s) && t in s.workers && w.msg == s.workers[t].msg
    requires forall u | Executes(s, u, w.msg.run) :: u == t
    requires RunOk(env, w.msg.run, run) && (w.phase.Executing? ==> ExecOk(env, run, w))
    requires run.chain == s.runs[w.msg.run].chain && Forward(s.runs[w.msg.run].row, run.row)
    requires forall m | m in published :: m.task == t && m.run == w.msg.run && m.retries <= MAX_RETRIES
    ensures Inv(env, s.(runs := s.runs[w.msg.run := run], workers := s.workers[t := w], queue := s.queue + published))
  {
    hide ExecOk, RunOk, Forward;
    var id := w.msg.run;
    var s' := s.(runs := s.runs[id := run], workers := s.workers[t := w], queue := s.queue + published);
    assert WorkerOk(env, s.runs, s.queue, t, s.workers[t]);
    UpdateChains(s.runs, id, run);
    forall u | u in s'.workers ensures WorkerOk(env, s'.runs, s'.queue, u, s'.workers[u]) {
      if u != t {
        assert WorkerOk(env, s.runs, s.queue, u, s.workers[u]);
        assert !Executes(s, u, id);
      }
    }
    forall m | m in s'.queue ensures MsgOk(s'.runs, s'.tasks, m) {
      if m in s.queue {
        assert MsgOk(s.runs, s.tasks, m);
      } else {
        assert MsgOk(s.runs, s.tasks, s.workers[t].msg);
      }
    }
  }

  lemma {:induction false} CreatedRunOk(env: Env, s: State, id: RunId, from: Option<RunId>)
    requires Inv(env, s) && CreateNext(s, id, from).Some?
    ensures RunOk(env, id, CreateNext(s, id, from).value.runs[id])
  {
    hide ExecOk, HistOk, AuditOk, DisjointOk, AtPageLimit, NewRun;
    if from.None? {
      NewRunOk(env, id, None);
    } else {
      assert RunOk(env, from.value, s.runs[from.value]);
      NewRunOk(env, id, Some((from.value, s.runs[from.value])));
    }
  }

  lemma {:induction false} CreatedChainsOk(env: Env, s: State, id: RunId, from: Option<RunId>)
    requires Inv(env, s) && CreateNext(s, id, from).Some?
    ensures ChainsOk(CreateNext(s, id, from).value.runs)
  {
    hide RunOk, ExecOk;
  }

  lemma {:induction false} CreateKeeps(env: Env, s: State, id: RunId, from: Option<RunId>)
    requires Inv(env, s) && CreateNext(s, id, from).Some?
    ensures Inv(env, CreateNext(s, id, from).value)
  {
    hide ExecOk, RunOk, NewRun, ChainsOk;
    var s' := CreateNext(s, id, from).value;
    CreatedRunOk(env, s, id, from);
    CreatedChainsOk(env, s, id, from);
    forall u | u in s'.workers ensures WorkerOk(env, s'.runs, s'.queue, u, s'.workers[u]) {
      assert WorkerOk(env, s.runs, s.queue, u, s.workers[u]);
    }
    forall m | m in s'.queue ensures MsgOk(s'.runs, s'.tasks, m) {
      assert MsgOk(s.runs, s.tasks, m);
    }
  }

  lemma {:induction false} EnqueueKeeps(env: Env, s: State, id: RunId, task: TaskId)
    requires Inv(env, s) && EnqueueNext(s, id, task).Some?
    ensures Inv(env, EnqueueNext(s, id, task).value)
  {
    hide ExecOk, RunOk;
    var s' := EnqueueNext(s, id, task).value;
    forall u | u in s'.workers ensures WorkerOk(env, s'.runs, s'.queue, u, s'.workers[u]) {
      assert WorkerOk(env, s.runs, s.queue, u, s.workers[u]);
    }
    forall m | m in s'.queue ensures MsgOk(s'.runs, s'.tasks, m) {
      if m in s.queue {
        assert MsgOk(s.runs, s.tasks, m);
      }
    }
  }

  lemma {:induction false} DeliverKeeps(env: Env, s: State, index: nat)
    requires Inv(env, s) && DeliverNext(s, index).Some?
    ensures Inv(env, DeliverNext(s, index).value)
  {
    hide ExecOk, RunOk;
    var s' := DeliverNext(s, index).value;
    assert MsgOk(s.runs, s.tasks, s.queue[index]);
    forall u | u in s'.workers ensures WorkerOk(env, s'.runs, s'.queue, u, s'.workers[u]) {
      if u != s.queue[index].task {
        assert WorkerOk(env, s.runs, s.queue, u, s.workers[u]);
      }
    }
  }

  /** A run that can still be claimed by `t` is executed by no other worker. */
  lemma {:induction false} ClaimableIsIdle(env: Env, s: State, t: TaskId, u: TaskId)
    requires Inv(env, s) && t in s.workers && s.workers[t].phase.Received?
    requires s.workers[t].msg.run in s.runs && ClaimRow(s.runs[s.workers[t].msg.run].row, Some(t)).Ok?
    ensures !Executes(s, u, s.workers[t].msg.run)
  {
    hide PcOk, RunOk;
    if u in s.workers {
      assert WorkerOk(env, s.runs, s.queue, u, s.workers[u]);
    }
  }

  lemma {:induction false} ClaimActionKeeps(env: Env, s: State, t: TaskId, maxPages: nat)
    requires Inv(env, s) && ClaimNext(env, s, t, maxPages).Some?
    ensures Inv(env, ClaimNext(env, s, t, maxPages).value)
  {
    hide PcOk, RunOk, Forward;
    var w := s.workers[t];
    assert WorkerOk(env, s.runs, s.queue, t, w);
    assert MsgOk(s.runs, s.tasks, w.msg);
    ClaimKeeps(env, w.msg.run, s.runs[w.msg.run], w.msg, maxPages);
    var (run, worker) := ClaimStep(env, s.runs[w.msg.run], w.msg, maxPages).value;
    forall u ensures !Executes(s, u, w.msg.run) {
      ClaimableIsIdle(env, s, t, u);
    }
    UpdateKeeps(env, s, t, run, worker, []);
    assert s.queue + [] == s.queue;
  }

  lemma {:induction false} PublishedOk(env: Env, rs: RunState, w: Worker, ev: Event)
    requires Advance(env, rs, w, ev).Some?
    ensures var eff := Advance(env, rs, w, ev).value;
      && (eff.published == []
          || (eff.published == [w.msg.(retries := w.msg.retries + 1)] && w.msg.retries < MAX_RETRIES))
      && (eff.published != [] <==> eff.worker.phase.Executing? && eff.worker.phase.pc.Republished?)
      && w.phase.Executing? && !w.phase.pc.Republished?
  {
    hide MapRecords;
  }

  lemma {:induction false} DoKeeps(env: Env, s: State, t: TaskId, ev: Event)
    requires Inv(env, s) && DoNext(env, s, t, ev).Some?
    ensures Inv(env, DoNext(env, s, t, ev).value)
    ensures var id := s.workers[t].msg.run;
      Kept(env, id, s.runs[id], s.workers[t], Advance(env, s.runs[id], s.workers[t], ev).value)
  {
    hide PcOk, PcStatusOk, RunOk, Forward, Advance;
    var w := s.workers[t];
    var id := w.msg.run;
    assert WorkerOk(env, s.runs, s.queue, t, w);
    assert w.phase.Executing? by { AdvanceExecutes(env, s.runs[id], w, ev); }
    AdvanceKeeps(env, id, s.runs[id], w, ev);
    PublishedOk(env, s.runs[id], w, ev);
    var eff := Advance(env, s.runs[id], w, ev).value;
    forall u | Executes(s, u, id) ensures u == t {
      assert Executes(s, t, id);
      OneExecutor(env, s, t, u, id);
    }
    UpdateKeeps(env, s, t, eff.run, eff.worker, eff.published);
  }

  lemma {:induction false} AdvanceExecutes(env: Env, rs: RunState, w: Worker, ev: Event)
    requires Advance(env, rs, w, ev).Some?
    ensures w.phase.Executing?
  {
  }

  /** What a live worker's message says. */
  lemma {:induction false} WorkerFacts(env: Env, s: State, t: TaskId)
    requires Inv(env, s) && t in s.workers
    ensures var w := s.workers[t];
      && w.msg.task == t && w.msg in s.queue && MsgOk(s.runs, s.tasks, w.msg)
      && (w.phase.Executing? ==> s.runs[w.msg.run].row.taskId == Some(t))
      && (w.phase.Executing? && w.phase.pc.Republished? ==> w.msg.retries < MAX_RETRIES)
  {
    hide AtCursor, RunSawEnd, PcStatusOk, RunsOk, ChainsOk;
    assert WorkerOk(env, s.runs, s.queue, t, s.workers[t]);
    assert MsgOk(s.runs, s.tasks, s.workers[t].msg);
  }

  lemma {:induction false} QueueFacts(env: Env, s: State, m: Msg)
    requires Inv(env, s) && m in s.queue
    ensures MsgOk(s.runs, s.tasks, m)
  {
    hide RunsOk, ChainsOk, WorkersOk;
  }

  /** A run nobody has claimed yet has no attempts. */
  lemma {:induction false} OwnerFacts(env: Env, s: State, id: RunId)
    requires Inv(env, s) && id in s.runs
    ensures var row := s.runs[id].row;
      && (row.taskId.None? <==> row.status == Pending)
      && (row.taskId.None? ==> row.attempt == 0)
  {
    hide ChainsOk, WorkersOk, HistOk, AuditOk, DisjointOk, EndsOk, SawEnd, AtPageLimit;
    assert RunOk(env, id, s.runs[id]);
  }

  /** What one event of a worker can do to the queue, the owner and the attempt count. */
  predicate DoShape(s: State, t: TaskId, eff: Effect) {
    && t in s.workers
    && var w := s.workers[t];
       && w.msg.run in s.runs
       && w.phase.Executing? && !w.phase.pc.Republished?
       && eff.worker.msg == w.msg && !eff.worker.phase.Received?
       && s.runs[w.msg.run].row.taskId == eff.run.row.taskId == Some(t)
       && eff.run.row.attempt == s.runs[w.msg.run].row.attempt
       && (eff.run.row.status == Running ==> s.runs[w.msg.run].row.status == Running)
       && (eff.worker.phase.Finished? ==> Terminal(eff.run.row.status))
       && (Terminal(s.runs[w.msg.run].row.status) ==> Terminal(eff.run.row.status))
       && (if eff.worker.phase.Executing? && eff.worker.phase.pc.Republished?
           then eff.published == [w.msg.(retries := w.msg.retries + 1)] && w.msg.retries < MAX_RETRIES
           else eff.published == [])
  }

  lemma {:induction false} DoFacts(env: Env, s: State, t: TaskId, ev: Event)
    requires Inv(env, s) && DoNext(env, s, t, ev).Some?
    ensures DoShape(s, t, Advance(env, s.runs[s.workers[t].msg.run], s.workers[t], ev).value)
  {
    hide PcOk, PcStatusOk, RunOk, RunsOk, ChainsOk, Advance;
    var w := s.workers[t];
    WorkerFacts(env, s, t);
    OwnerFacts(env, s, w.msg.run);
    AdvanceExecutes(env, s.runs[w.msg.run], w, ev);
    DoKeeps(env, s, t, ev);
    PublishedOk(env, s.runs[w.msg.run], w, ev);
  }

  /** Removing a worker, its message included or not. */
  lemma {:induction false} RemoveKeeps(env: Env, s: State, t: TaskId, queue: seq<Msg>)
    requires Inv(env, s) && t in s.workers
    requires queue == s.queue || queue == RemoveMsg(s.queue, s.workers[t].msg)
    ensures Inv(env, s.(workers := s.workers - {t}, queue := queue))
  {
    hide ExecOk, RunOk;
    var s' := s.(workers := s.workers - {t}, queue := queue);
    assert WorkerOk(env, s.runs, s.queue, t, s.workers[t]);
    forall u | u in s'.workers ensures WorkerOk(env, s'.runs, s'.queue, u, s'.workers[u]) {
      assert WorkerOk(env, s.runs, s.queue, u, s.workers[u]);
      RemoveMsgMembers(s.queue, s.workers[t].msg, s.workers[u].msg);
    }
    forall m | m in s'.queue ensures MsgOk(s'.runs, s'.tasks, m) {
      RemoveMsgMembers(s.queue, s.workers[t].msg, m);
      assert MsgOk(s.runs, s.tasks, m);
    }
  }

  lemma {:induction false} RejectKeeps(env: Env, s: State, t: TaskId, holder: Option<TaskId>)
    requires Inv(env, s) && RejectNext(s, t, holder).Some?
    ensures Inv(env, RejectNext(s, t, holder).value)
  {
    hide ExecOk, RunOk;
    var s' := RejectNext(s, t, holder).value;
    assert WorkerOk(env, s.runs, s.queue, t, s.workers[t]);
    forall u | u in s'.workers ensures WorkerOk(env, s'.runs, s'.queue, u, s'.workers[u]) {
      if u != t {
        assert WorkerOk(env, s.runs, s.queue, u, s.workers[u]);
      }
    }
  }

  lemma {:induction false} NextKeeps(env: Env, s: State, a: Action)
    requires Inv(env, s) && Next(env, s, a).Some?
    ensures Inv(env, Next(env, s, a).value)
  {
    hide RunsOk, ChainsOk, QueueOk, WorkersOk;
    match a
    case Create(run, from) => CreateKeeps(env, s, run, from);
    case Enqueue(run, task) => EnqueueKeeps(env, s, run, task);
    case Deliver(index) => DeliverKeeps(env, s, index);
    case Claim(task, maxPages) => ClaimActionKeeps(env, s, task, maxPages);
    case RejectLocked(task, holder) => RejectKeeps(env, s, task, Some(holder));
    case RejectClaim(task) => RejectKeeps(env, s, task, None);
    case Do(task, ev) => DoKeeps(env, s, task, ev);
    case Ack(task) => RemoveKeeps(env, s, task, RemoveMsg(s.queue, s.workers[task].msg));
    case Crash(task, redelivered) =>
      RemoveKeeps(env, s, task, if redelivered then s.queue else RemoveMsg(s.queue, s.workers[task].msg));
  }

  /** Every state an execution reaches satisfies the invariant. */
  lemma {:induction false} Reachable(env: Env, trace: seq<Action>)
    requires Execute(env, trace).Some?
    ensures Inv(env, Execute(env, trace).value)
  {
    if trace != [] {
      Reachable(env, trace[..|trace| - 1]);
      NextKeeps(env, Execute(env, trace[..|trace| - 1]).value, trace[|trace| - 1]);
    }
  }

  /** Single ownership over whole executions: with any number of dispatches and racing claims, a run
      has at most one live executor; it is the run's owner, and the columns of `OwnColumnsAgree` are in
      its copy of the row what they are in the table. */
  lemma {:induction false} SingleOwner(env: Env, trace: seq<Action>, t: TaskId, u: TaskId, id: RunId)
    requires Execute(env, trace).Some?
    requires Executes(Execute(env, trace).value, t, id) && Executes(Execute(env, trace).value, u, id)
    ensures var s := Execute(env, trace).value;
      t == u && id in s.runs && s.runs[id].row.taskId == Some(t)
          && OwnColumnsAgree(s.workers[t].phase.mem, s.runs[id].row)
  {
    hide Execute, Inv;
    Reachable(env, trace);
    OneExecutor(env, Execute(env, trace).value, t, u, id);
    RunExists(env, Execute(env, trace).value, t);
  }

  lemma {:induction false} RunExists(env: Env, s: State, t: TaskId)
    requires Inv(env, s) && t in s.workers
    ensures s.workers[t].msg.run in s.runs
  {
    hide PcOk, PcStatusOk, RunsOk, ChainsOk, ExecOk;
    assert WorkerOk(env, s.runs, s.queue, t, s.workers[t]);
  }

  // ---- nothing goes backwards -----------------------------------------------------------------

  /** No step takes a finished run out of its status, changes an owner or lowers a counter. */
  lemma {:induction false} NextForward(env: Env, s: State, a: Action, id: RunId)
    requires Inv(env, s) && Next(env, s, a).Some? && id in s.runs
    ensures id in Next(env, s, a).value.runs
    ensures Forward(s.runs[id].row, Next(env, s, a).value.runs[id].row)
  {
    hide RunOk, ExecOk, Advance, ChainsOk;
    match a
    case Claim(task, maxPages) =>
      var w := s.workers[task];
      assert WorkerOk(env, s.runs, s.queue, task, w);
      assert MsgOk(s.runs, s.tasks, w.msg);
      ClaimKeeps(env, w.msg.run, s.runs[w.msg.run], w.msg, maxPages);
    case Do(task, ev) =>
      DoKeeps(env, s, task, ev);
    case _ =>
  }

  lemma {:induction false} ExecutePrefix(env: Env, trace: seq<Action>, n: nat)
    requires Execute(env, trace).Some? && n <= |trace|
    ensures Execute(env, trace[..n]).Some?
    decreases |trace| - n
  {
    if n == |trace| {
      assert trace[..n] == trace;
    } else {
      ExecutePrefix(env, trace, n + 1);
      assert trace[..n + 1][..n] == trace[..n];
    }
  }

  /** Over whole executions: whatever happens later, a finished run stays exactly as it is, the
      owning task never changes and no counter decreases. */
  lemma {:induction false} ExecutionForward(env: Env, trace: seq<Action>, n: nat, id: RunId)
    requires Execute(env, trace).Some? && n <= |trace|
    requires Execute(env, trace[..n]).Some? && id in Execute(env, trace[..n]).value.runs
    ensures id in Execute(env, trace).value.runs
    ensures Forward(Execute(env, trace[..n]).value.runs[id].row, Execute(env, trace).value.runs[id].row)
  {
    if n == |trace| {
      assert trace[..n] == trace;
    } else {
      var front := trace[..|trace| - 1];
      assert front[..n] == trace[..n];
      ExecutionForward(env, front, n, id);
      Reachable(env, front);
      var s := Execute(env, front).value;
      NextForward(env, s, trace[|trace| - 1], id);
      ForwardTransitive(Execute(env, trace[..n]).value.runs[id].row, s.runs[id].row,
                        Execute(env, trace).value.runs[id].row);
    }
  }
}
