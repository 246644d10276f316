/** Executions of the job system that do happen: a superseded job that ends SUCCEEDED, and a cancel that
    comes too late to be seen. */
module JobWitnesses {
  import opened Prelude
  import opened Migration
  import opened MigrationJob
  import opened JobSystem
  import Convergence
  import MigrationPass

  lemma {:induction false} ExecuteAppend(site: Site, org: OrgId, s0: Db, trace: seq<Action>, s: State, a: Action)
    requires Execute(site, org, s0, trace) == Some(s)
    ensures Execute(site, org, s0, trace + [a]) == Next(site, s, a)
  {
    hide Next;
    assert (trace + [a])[..|trace|] == trace;
  }

  /** Task 0 alone is at work, on the real job 0, of which no cancel is requested. */
  predicate Busy(s: State) {
    && s.works.Keys == {0} && s.works[0].job == 0 && !s.works[0].dryRun && !s.works[0].stopped
    && s.works[0].decided.None? && 0 in s.jobs && !s.jobs[0].cancelRequested
  }

  /** It is about to go on with record `i`. */
  predicate Runs(s: State, s0: Db, i: nat) {
    Busy(s) && Convergence.AloneAt(s.data, s0.uris, i) && !MustPoll(s, 0)
  }

  /** These steps take the only pass through a record. */
  predicate Through(site: Site, data: Convergence.State, steps: seq<Convergence.Action>, s0: Db, i: nat) {
    && (forall k | 0 <= k < |steps| :: steps[k].pass == 0 && !steps[k].Begin? && !steps[k].Stop?)
    && (forall k | 0 < k < |steps| :: Convergence.MidRecord(site, data, steps, k))
    && Convergence.NextAll(site, data, steps).Some?
    && Convergence.AloneAt(Convergence.NextAll(site, data, steps).value, s0.uris, i)
  }

  lemma {:induction false} FirstSteps(site: Site, data: Convergence.State, steps: seq<Convergence.Action>, s0: Db,
      i: nat, k: nat)
    requires Through(site, data, steps, s0, i) && 0 < k <= |steps|
    ensures Convergence.NextAll(site, data, steps[..k - 1]).Some?
    ensures var mid := Convergence.NextAll(site, data, steps[..k - 1]).value;
      && Convergence.Next(site, mid, steps[k - 1]).Some?
      && Convergence.NextAll(site, data, steps[..k]) == Convergence.Next(site, mid, steps[k - 1])
      && 0 in Convergence.Next(site, mid, steps[k - 1]).value.passes
      && (k > 1 ==> 0 in mid.passes && !mid.passes[0].pc.AtRecord?)
      && (k == 1 ==> mid == data)
  {
    hide Convergence.Next;
    assert steps[..k] == steps[..k - 1] + [steps[k - 1]];
    Convergence.NextAllMore(site, data, steps[..k - 1], steps[k - 1]);
    assert k == |steps| ==> steps[..k] == steps;
    assert k < |steps| ==> Convergence.MidRecord(site, data, steps, k);
    assert k > 1 ==> Convergence.MidRecord(site, data, steps, k - 1);
    assert k == 1 ==> steps[..k - 1] == [];
  }

  /** The task makes the first `k` of these steps. */
  lemma {:induction false} TaskSteps(site: Site, org: OrgId, s0: Db, trace: seq<Action>, s: State, i: nat,
      steps: seq<Convergence.Action>, k: nat) returns (trace': seq<Action>, s': State)
    requires Execute(site, org, s0, trace) == Some(s) && Runs(s, s0, i)
    requires Through(site, s.data, steps, s0, i + 1) && k <= |steps|
    ensures trace <= trace' && Execute(site, org, s0, trace') == Some(s') && Busy(s') && s'.jobs == s.jobs
    ensures Convergence.NextAll(site, s.data, steps[..k]) == Some(s'.data)
    ensures k == 0 ==> s' == s
  {
    hide Execute, Convergence.Next, Convergence.NextAll, Seen;
    if k == 0 {
      trace', s' := trace, s;
      Convergence.NextAllNone(site, s.data);
      assert steps[..0] == [];
    } else {
      var front, mid := TaskSteps(site, org, s0, trace, s, i, steps, k - 1);
      FirstSteps(site, s.data, steps, s0, i + 1, k);
      ExecuteAppend(site, org, s0, front, mid, PassStep(0, steps[k - 1]));
      trace' := front + [PassStep(0, steps[k - 1])];
      s' := PassNext(site, mid, 0, steps[k - 1]).value;
    }
  }

  lemma {:induction false} StepsAreThrough(site: Site, s0: Db, data: Convergence.State, i: nat)
    requires WellFormed(site) && Convergence.Inv(site, s0, data) && i < |site.versions| == |s0.uris|
    requires !Blocked(site, s0, i) && Convergence.AloneAt(data, s0.uris, i)
    ensures Through(site, data, Convergence.StepsThrough(site, s0, data.db, i), s0, i + 1)
  {
    hide WellFormed, Convergence.Inv, Blocked, IsReady, Convergence.LegacyFound, Convergence.NextAll,
        Convergence.MidRecord;
    Convergence.HandlesRecord(site, s0, data, i);
  }

  /** The task gets through a record, and reads the flag if a batch is full. */
  lemma {:induction false} NextRecord(site: Site, org: OrgId, s0: Db, trace: seq<Action>, s: State, i: nat)
      returns (trace': seq<Action>, s': State)
    requires WellFormed(site) && i < |site.versions| == |s0.uris| && !Blocked(site, s0, i)
    requires Execute(site, org, s0, trace) == Some(s) && Runs(s, s0, i)
    ensures trace <= trace' && Execute(site, org, s0, trace') == Some(s') && Runs(s', s0, i + 1) && s'.jobs == s.jobs
  {
    hide WellFormed, Execute, Inv, Blocked, Convergence.NextAll, Convergence.StepsThrough;
    Reachable(site, org, s0, trace);
    DataInv(site, s0, s);
    var steps := Convergence.StepsThrough(site, s0, s.data.db, i);
    StepsAreThrough(site, s0, s.data, i);
    trace', s' := TaskSteps(site, org, s0, trace, s, i, steps, |steps|);
    assert steps[..|steps|] == steps;
    if MustPoll(s', 0) {
      ExecuteAppend(site, org, s0, trace', s', Poll(0));
      trace', s' := trace' + [Poll(0)], PollNext(s', 0).value;
    }
  }

  lemma {:induction false} DataInv(site: Site, s0: Db, s: State)
    requires Inv(site, s0, s)
    ensures Convergence.Inv(site, s0, s.data)
  {
    hide Convergence.Inv, WorkOk, Done, OneActive;
  }

  /** Left alone, the task gets through the first `n` records. */
  lemma {:induction false} AllRecords(site: Site, org: OrgId, s0: Db, trace: seq<Action>, s: State, n: nat)
      returns (trace': seq<Action>, s': State)
    requires WellFormed(site) && n <= |site.versions| == |s0.uris| && NoneBlocked(site, s0, |site.versions|)
    requires Execute(site, org, s0, trace) == Some(s) && Runs(s, s0, 0)
    ensures trace <= trace' && Execute(site, org, s0, trace') == Some(s') && Runs(s', s0, n) && s'.jobs == s.jobs
  {
    hide WellFormed, Execute, Runs, Blocked;
    if n == 0 {
      trace', s' := trace, s;
    } else {
      var t1, s1 := AllRecords(site, org, s0, trace, s, n - 1);
      trace', s' := NextRecord(site, org, s0, t1, s1, n - 1);
    }
  }

  /** Then it decides on SUCCEEDED, if there was no problem record. */
  lemma {:induction false} Decides(site: Site, org: OrgId, s0: Db, trace: seq<Action>, s: State)
      returns (trace': seq<Action>, s': State)
    requires WellFormed(site) && |site.versions| == |s0.uris| && NoProblem(site, s0, |site.versions|)
    requires Execute(site, org, s0, trace) == Some(s) && Runs(s, s0, |site.versions|)
    ensures trace <= trace' && Execute(site, org, s0, trace') == Some(s') && s'.jobs == s.jobs
    ensures 0 in s'.works && s'.works[0].job == 0 && s'.works[0].decided == Some(Succeeded) && 0 in s'.jobs
  {
    hide WellFormed, Execute, Inv, NoProblem;
    Reachable(site, org, s0, trace);
    DecidesAtEnd(site, s0, s, 0);
    ExecuteAppend(site, org, s0, trace, s, Decide(0));
    trace', s' := trace + [Decide(0)], DecideNext(site, s, 0).value;
  }

  lemma {:induction false} Settles(site: Site, org: OrgId, s0: Db, trace: seq<Action>, s: State)
      returns (trace': seq<Action>, s': State)
    requires Execute(site, org, s0, trace) == Some(s)
    requires 0 in s.works && s.works[0].job == 0 && s.works[0].decided == Some(Succeeded) && 0 in s.jobs
    ensures trace <= trace' && Execute(site, org, s0, trace') == Some(s') && 0 in s'.jobs
    ensures s'.jobs[0] == s.jobs[0].(status := Succeeded)
  {
    hide Execute, Convergence.Without;
    ExecuteAppend(site, org, s0, trace, s, Settle(0));
    trace', s' := trace + [Settle(0)], SettleNext(s, 0).value;
  }

  /** An operator starts a real job, and its task begins. */
  lemma {:induction false} Begins(site: Site, org: OrgId, s0: Db) returns (trace: seq<Action>, s: State)
    ensures Execute(site, org, s0, trace) == Some(s) && Runs(s, s0, 0)
    ensures s.jobs == map[0 := Job(org, false, Running, false, MigrationPass.ZERO)]
  {
    hide Execute;
    NothingYet(site, org, s0);
    var none := State(org, Convergence.State(s0, map[]), map[], map[]);
    var a := Operate(Start(org, false, 0));
    ExecuteAppend(site, org, s0, [], none, a);
    var s1 := none.(jobs := map[0 := Job(org, false, Pending, false, MigrationPass.ZERO)]);
    ExecuteAppend(site, org, s0, [] + [a], s1, Begin(0, 0));
    var s2 := BeginNext(s1, 0, 0).value;
    ExecuteAppend(site, org, s0, [] + [a] + [Begin(0, 0)], s2, Query(0));
    trace, s := [] + [a] + [Begin(0, 0)] + [Query(0)], QueryNext(s2, 0).value;
  }

  lemma {:induction false} NothingYet(site: Site, org: OrgId, s0: Db)
    ensures Execute(site, org, s0, []) == Some(State(org, Convergence.State(s0, map[]), map[], map[]))
  {
  }

  /** The job is superseded while its task is at work, and its replacement is created. */
  lemma {:induction false} Superseded(site: Site, org: OrgId, s0: Db, trace: seq<Action>, s: State)
      returns (trace': seq<Action>, s': State)
    requires Execute(site, org, s0, trace) == Some(s) && Runs(s, s0, 0)
    requires s.jobs == map[0 := Job(org, false, Running, false, MigrationPass.ZERO)]
    ensures trace <= trace' && Execute(site, org, s0, trace') == Some(s') && Runs(s', s0, 0)
    ensures 0 in s'.jobs && s'.jobs[0].status == Cancelled && IsActive(s'.jobs, 1, org)
  {
    hide Execute;
    var cancel, start := Operate(Supersede(0)), Operate(Start(org, false, 1));
    ExecuteAppend(site, org, s0, trace, s, cancel);
    var s1 := s.(jobs := Saved(s.jobs, 0, Cancelled));
    assert s1.jobs == map[0 := Job(org, false, Cancelled, false, MigrationPass.ZERO)];
    assert !AnyActive(s1.jobs, org);
    ExecuteAppend(site, org, s0, trace + [cancel], s1, start);
    trace', s' := trace + [cancel] + [start], s1.(jobs := Started(s1.jobs, org, false, 1));
  }

  /** A job marked CANCELLED when it was superseded can still end SUCCEEDED, whatever the records, unless
      one of them is a problem or blocked: its task was not dead, and superseding does not set the
      flag that the task reads. */
  lemma {:induction false} SupersededMaySucceed(site: Site, org: OrgId, s0: Db)
      returns (trace: seq<Action>, settled: seq<Action>)
    requires WellFormed(site) && |s0.uris| == |site.versions|
    requires NoProblem(site, s0, |site.versions|) && NoneBlocked(site, s0, |site.versions|)
    ensures trace <= settled && Execute(site, org, s0, trace).Some? && Execute(site, org, s0, settled).Some?
    ensures var jobs := Execute(site, org, s0, trace).value.jobs;
      0 in jobs && jobs[0].status == Cancelled && IsActive(jobs, 1, org)
    ensures var jobs := Execute(site, org, s0, settled).value.jobs; 0 in jobs && jobs[0].status == Succeeded
  {
    hide Execute, Runs, NoProblem, NoneBlocked, WellFormed;
    var t1, s1 := Begins(site, org, s0);
    var t2, s2 := Superseded(site, org, s0, t1, s1);
    var t3, s3 := AllRecords(site, org, s0, t2, s2, |site.versions|);
    var t4, s4 := Decides(site, org, s0, t3, s3);
    var t5, s5 := Settles(site, org, s0, t4, s4);
    trace, settled := t2, t5;
  }

  /** A cancel that comes between the last read of the flag and the save of the status is accepted and
      not honoured: the job ends SUCCEEDED with the cancel requested. */
  lemma {:induction false} CancelTooLate(site: Site, org: OrgId, s0: Db) returns (trace: seq<Action>)
    requires WellFormed(site) && |s0.uris| == |site.versions|
    requires NoProblem(site, s0, |site.versions|) && NoneBlocked(site, s0, |site.versions|)
    ensures Execute(site, org, s0, trace).Some?
    ensures var jobs := Execute(site, org, s0, trace).value.jobs;
      0 in jobs && jobs[0].status == Succeeded && jobs[0].cancelRequested
  {
    hide Execute, Runs, NoProblem, NoneBlocked, WellFormed;
    var t1, s1 := Begins(site, org, s0);
    var t2, s2 := AllRecords(site, org, s0, t1, s1, |site.versions|);
    var t3, s3 := Decides(site, org, s0, t2, s2);
    var a := Operate(RequestCancel(0, Running));
    ExecuteAppend(site, org, s0, t3, s3, a);
    var s4 := s3.(jobs := Apply(s3.jobs, RequestCancel(0, Running)));
    var t5, s5 := Settles(site, org, s0, t3 + [a], s4);
    trace := t5;
  }
}
