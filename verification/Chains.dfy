/** A run and the runs it continues: chains never change, and a chain contains the chains of its members. */
module Chains {
  import opened Prelude
  import opened Claims
  import opened Protocol
  import opened RunInvariant
  import opened ProtocolInvariant

  predicate ChainSelf(runs: map<RunId, RunState>, id: RunId)
    requires id in runs
  {
    id in runs[id].chain
  }

  /** Every member of the set that exists has its whole chain in the set. */
  predicate Closed(runs: map<RunId, RunState>, ids: set<RunId>) {
    forall r | r in ids && r in runs :: runs[r].chain <= ids
  }

  predicate AllClosed(runs: map<RunId, RunState>) {
    forall id | id in runs :: ChainSelf(runs, id) && Closed(runs, runs[id].chain)
  }

  /** Runs are never lost and their chains never change. */
  predicate ChainsKept(before: map<RunId, RunState>, after: map<RunId, RunState>) {
    forall r | r in before :: r in after && after[r].chain == before[r].chain
  }

  lemma {:induction false} DoKeepsChains(env: Env, s: State, t: TaskId, ev: Event)
    requires Inv(env, s) && DoNext(env, s, t, ev).Some?
    ensures ChainsKept(s.runs, DoNext(env, s, t, ev).value.runs)
  {
    hide Inv, RunOk, ExecOk, Advance, Forward, Ended;
    DoKeeps(env, s, t, ev);
  }

  lemma {:induction false} NextKeepsChains(env: Env, s: State, a: Action)
    requires Inv(env, s) && Next(env, s, a).Some?
    ensures ChainsKept(s.runs, Next(env, s, a).value.runs)
  {
    hide Inv, DoNext, NewRun, RemoveMsg, Charge;
    match a
    case Do(t, ev) => DoKeepsChains(env, s, t, ev);
    case _ =>
  }

  lemma {:induction false} CreateKeepsClosed(runs: map<RunId, RunState>, id: RunId, from: Option<RunId>)
    requires AllClosed(runs) && id !in runs && (from.Some? ==> from.value in runs)
    requires forall r | r in runs :: id !in runs[r].chain
    ensures AllClosed(runs[id := NewRun(id, if from.None? then None else Some((from.value, runs[from.value])))])
  {
    hide SeedRow;
    var runs' := runs[id := NewRun(id, if from.None? then None else Some((from.value, runs[from.value])))];
    forall r | r in runs' ensures ChainSelf(runs', r) && Closed(runs', runs'[r].chain) {
      if r != id {
        assert ChainSelf(runs, r) && Closed(runs, runs[r].chain);
      } else if from.Some? {
        assert ChainSelf(runs, from.value) && Closed(runs, runs[from.value].chain);
      }
    }
  }

  lemma {:induction false} NextKeepsClosed(env: Env, s: State, a: Action)
    requires Inv(env, s) && AllClosed(s.runs) && Next(env, s, a).Some?
    ensures AllClosed(Next(env, s, a).value.runs)
  {
    hide RunsOk, QueueOk, WorkersOk, Advance, Ended, NewRun;
    var runs' := Next(env, s, a).value.runs;
    NextKeepsChains(env, s, a);
    if a.Create? {
      CreateKeepsClosed(s.runs, a.run, a.from);
    } else {
      OnlyCreateAddsRuns(env, s, a);
      forall r | r in runs' ensures ChainSelf(runs', r) && Closed(runs', runs'[r].chain) {
        assert ChainSelf(s.runs, r) && Closed(s.runs, s.runs[r].chain);
      }
    }
  }

  lemma {:induction false} OnlyCreateAddsRuns(env: Env, s: State, a: Action)
    requires Inv(env, s) && Next(env, s, a).Some? && !a.Create?
    ensures Next(env, s, a).value.runs.Keys == s.runs.Keys
  {
    hide Inv, Advance, Ended;
  }

  lemma {:induction false} ClosedAlways(env: Env, trace: seq<Action>)
    requires Execute(env, trace).Some?
    ensures AllClosed(Execute(env, trace).value.runs)
  {
    hide Next, Inv;
    if trace != [] {
      var front := trace[..|trace| - 1];
      ClosedAlways(env, front);
      Reachable(env, front);
      NextKeepsClosed(env, Execute(env, front).value, trace[|trace| - 1]);
    }
  }

  /** A run of the set is created as a continuation only of a run of the set. */
  predicate CreatesWithin(env: Env, trace: seq<Action>, ids: set<RunId>) {
    forall a | a in trace && a.Create? && a.run in ids && a.from.Some? :: a.from.value in ids
  }

  lemma {:induction false} ClosedCreates(env: Env, trace: seq<Action>, ids: set<RunId>)
    requires Execute(env, trace).Some? && Closed(Execute(env, trace).value.runs, ids)
    ensures CreatesWithin(env, trace, ids)
  {
    hide Next, Inv;
    if trace != [] {
      var front, a := trace[..|trace| - 1], trace[|trace| - 1];
      var s := Execute(env, front).value;
      Reachable(env, front);
      NextKeepsChains(env, s, a);
      ClosedCreates(env, front, ids);
      ClosedAlways(env, front);
      if a.Create? {
        CreatedFrom(env, s, a);
      }
      assert forall b | b in trace :: b in front || b == a;
    }
  }

  lemma {:induction false} CreatedFrom(env: Env, s: State, a: Action)
    requires a.Create? && Next(env, s, a).Some? && AllClosed(s.runs)
    ensures a.run in Next(env, s, a).value.runs
    ensures a.from.Some? ==> a.from.value in Next(env, s, a).value.runs[a.run].chain
  {
    if a.from.Some? {
      assert ChainSelf(s.runs, a.from.value);
    }
  }

  /** In the whole history of a run, the runs of its chain were created within the chain. */
  lemma {:induction false} ChainCreatedWithin(env: Env, trace: seq<Action>, id: RunId)
    requires Execute(env, trace).Some? && id in Execute(env, trace).value.runs
    ensures CreatesWithin(env, trace, Execute(env, trace).value.runs[id].chain)
    ensures id in Execute(env, trace).value.runs[id].chain
  {
    hide Execute;
    ClosedAlways(env, trace);
    assert ChainSelf(Execute(env, trace).value.runs, id);
    ClosedCreates(env, trace, Execute(env, trace).value.runs[id].chain);
  }

  lemma {:induction false} WithinPrefix(env: Env, trace: seq<Action>, ids: set<RunId>)
    requires trace != [] && CreatesWithin(env, trace, ids)
    ensures CreatesWithin(env, trace[..|trace| - 1], ids)
    ensures var a := trace[|trace| - 1]; a.Create? && a.run in ids && a.from.Some? ==> a.from.value in ids
  {
    assert trace[|trace| - 1] in trace;
  }
}
