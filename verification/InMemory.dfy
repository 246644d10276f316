/** The row a worker holds in memory and the row that is stored: when they agree, and when not. */
module InMemory {
  import opened Prelude
  import opened Mapping
  import opened Claims
  import opened Protocol
  import opened RunInvariant
  import opened ProtocolInvariant

  /** The save of a checkpoint raises: the counters have advanced in memory and not in the table. */
  predicate CheckpointFails(s: State, t: TaskId, a: Action) {
    && a.Do? && a.task == t && a.ev.Raise?
    && t in s.workers && s.workers[t].phase.Executing? && s.workers[t].phase.pc.Marked?
  }

  /** In the attempt that `t` has claimed last, the save of a checkpoint has failed. */
  predicate CheckpointFailed(env: Env, trace: seq<Action>, t: TaskId) {
    if trace == [] then false
    else
      var front, a := trace[..|trace| - 1], trace[|trace| - 1];
      if Execute(env, front).Some? && CheckpointFails(Execute(env, front).value, t, a) then true
      else if a.Claim? && a.task == t then false
      else CheckpointFailed(env, front, t)
  }

  /** Whether the in-memory row is the stored one, when one of its run's events has happened. */
  lemma {:induction false} AdvanceMemory(env: Env, id: RunId, rs: RunState, w: Worker, ev: Event)
    requires Ready(env, id, rs, w) && Advance(env, rs, w, ev).Some?
    ensures
      var eff := Advance(env, rs, w, ev).value;
      eff.worker.phase.Executing? ==>
        (eff.worker.phase.mem == eff.run.row <==> w.phase.mem == rs.row && !(ev.Raise? && w.phase.pc.Marked?))
  {
    hide MapRecords, RunOk, RecordedIn;
  }

  lemma {:induction false} DoMemory(env: Env, s: State, u: TaskId, ev: Event, t: TaskId)
    requires Inv(env, s) && DoNext(env, s, u, ev).Some?
    requires var s' := DoNext(env, s, u, ev).value; t in s'.workers && s'.workers[t].phase.Executing?
    ensures t in s.workers && s.workers[t].phase.Executing? && s.workers[t].msg.run in s.runs
    ensures
      var s' := DoNext(env, s, u, ev).value;
      && s'.workers[t].msg.run in s'.runs
      && (s'.workers[t].phase.mem == s'.runs[s'.workers[t].msg.run].row
          <==> s.workers[t].phase.mem == s.runs[s.workers[t].msg.run].row && !CheckpointFails(s, t, Do(u, ev)))
  {
    hide Advance, RunOk, ChainsOk, QueueOk, PcOk, PcStatusOk;
    var id := s.workers[u].msg.run;
    assert WorkerOk(env, s.runs, s.queue, u, s.workers[u]);
    AdvanceExecutes(env, s.runs[id], s.workers[u], ev);
    DoKeeps(env, s, u, ev);
    if t == u {
      AdvanceMemory(env, id, s.runs[id], s.workers[u], ev);
    } else {
      assert WorkerOk(env, s.runs, s.queue, t, s.workers[t]);
      assert s.workers[t].msg.run != id;
    }
  }

  /** Any other step: a claim starts with the stored row, and nothing else touches the two. */
  lemma {:induction false} OtherMemory(env: Env, s: State, a: Action, t: TaskId)
    requires Inv(env, s) && !a.Do? && Next(env, s, a).Some?
    requires var s' := Next(env, s, a).value; t in s'.workers && s'.workers[t].phase.Executing?
    ensures
      var s' := Next(env, s, a).value;
      && s'.workers[t].msg.run in s'.runs
      && if a.Claim? && a.task == t then s'.workers[t].phase.mem == s'.runs[s'.workers[t].msg.run].row
         else
           && t in s.workers && s.workers[t] == s'.workers[t] && s.workers[t].msg.run in s.runs
           && s'.runs[s.workers[t].msg.run].row == s.runs[s.workers[t].msg.run].row
  {
    hide RunOk, ChainsOk, QueueOk, PcOk, PcStatusOk, Ended, NewRun, RemoveMsg, Charge;
    if t in s.workers {
      assert WorkerOk(env, s.runs, s.queue, t, s.workers[t]);
    }
    if a.Claim? && a.task != t {
      ClaimableIsIdle(env, s, a.task, t);
    }
  }

  /** In every reachable state the columns that decide about the run agree; the whole rows agree if
      and only if the save of a checkpoint has not failed in this attempt. */
  lemma {:induction false} RowsAgreeUnlessCheckpointFailed(env: Env, trace: seq<Action>, t: TaskId)
    requires Execute(env, trace).Some?
    requires var s := Execute(env, trace).value; t in s.workers && s.workers[t].phase.Executing?
    ensures
      var s := Execute(env, trace).value;
      var w := s.workers[t];
      && w.msg.run in s.runs
      && OwnColumnsAgree(w.phase.mem, s.runs[w.msg.run].row)
      && (w.phase.mem == s.runs[w.msg.run].row <==> !CheckpointFailed(env, trace, t))
  {
    hide Next, Inv, CheckpointFails, OwnColumnsAgree, DoNext;
    var front, a := trace[..|trace| - 1], trace[|trace| - 1];
    Reachable(env, trace);
    OwnColumns(env, Execute(env, trace).value, t);
    Reachable(env, front);
    var s := Execute(env, front).value;
    if a.Do? {
      NextDo(env, s, a);
      DoMemory(env, s, a.task, a.ev, t);
      RowsAgreeUnlessCheckpointFailed(env, front, t);
    } else {
      OtherMemory(env, s, a, t);
      OnlyDoFails(s, t, a);
      if !(a.Claim? && a.task == t) {
        RowsAgreeUnlessCheckpointFailed(env, front, t);
      }
    }
  }

  lemma {:induction false} NextDo(env: Env, s: State, a: Action)
    requires a.Do?
    ensures Next(env, s, a) == DoNext(env, s, a.task, a.ev) && a == Do(a.task, a.ev)
  {
  }

  lemma {:induction false} OnlyDoFails(s: State, t: TaskId, a: Action)
    requires !a.Do?
    ensures !CheckpointFails(s, t, a)
  {
  }

  lemma {:induction false} OwnColumns(env: Env, s: State, t: TaskId)
    requires Inv(env, s) && t in s.workers && s.workers[t].phase.Executing?
    ensures s.workers[t].msg.run in s.runs && OwnColumnsAgree(s.workers[t].phase.mem, s.runs[s.workers[t].msg.run].row)
  {
    hide PcOk, PcStatusOk, RunsOk, ChainsOk;
    assert WorkerOk(env, s.runs, s.queue, t, s.workers[t]);
  }
}
