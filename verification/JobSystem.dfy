/** Migration jobs, their tasks and the passes of these tasks, all interleaved: operators start, retry
    and cancel jobs while tasks run, overlap, die and settle (apps/opsui/services.py,
    apps/opsui/tasks.py, apps/rawstore/migration.py). */
module JobSystem {
  import opened Prelude
  import opened Keys
  import opened RawStore
  import opened Migration
  import opened MigrationPass
  import Convergence
  import opened MigrationJob

  type TaskRef = nat

  /** A task at work on its job: how many problem records it has seen, after how many records it last
      read the cancel flag, whether that made it stop, and the status it has decided on once its pass is
      over. A dry run keeps its place in `index`, a real pass has it in the pass of the same number. */
  datatype Work = Work(
    job: JobId,
    dryRun: bool,
    index: nat,
    missing: nat,
    conflicts: nat,
    polled: nat,
    stopped: bool,
    decided: Option<Status>)

  /** The organization whose records these are, its data, the job rows and the tasks at work. */
  datatype State = State(org: OrgId, data: Convergence.State, jobs: map<JobId, Job>, works: map<TaskRef, Work>)

  /** `Operate` is a call of one of the services, or a save of counters; a status is saved only by the
      steps of a task. */
  datatype Action =
    | Operate(op: JobOp)
    | Begin(task: TaskRef, job: JobId)
    | Query(task: TaskRef)
    | PassStep(task: TaskRef, step: Convergence.Action)
    | DryStep(task: TaskRef)
    | Poll(task: TaskRef)
    | Decide(task: TaskRef)
    | Settle(task: TaskRef)
    | Fail(task: TaskRef)
    | Die(task: TaskRef)

  /** How many records the task has been through, and whether it is between two records; a real task that
      has not queried them yet is not. */
  function Index(s: State, t: TaskRef): nat
    requires t in s.works
  {
    if s.works[t].dryRun || t !in s.data.passes then s.works[t].index else s.data.passes[t].index
  }

  predicate BetweenRecords(s: State, t: TaskRef)
    requires t in s.works
  {
    s.works[t].dryRun || (t in s.data.passes && s.data.passes[t].pc.AtRecord?)
  }

  /** A full batch is done and the flag has not been read since. */
  predicate MustPoll(s: State, t: TaskRef)
    requires t in s.works
  {
    BetweenRecords(s, t) && Index(s, t) % DEFAULT_BATCH_SIZE == 0 && Index(s, t) > s.works[t].polled
  }

  predicate MayGoOn(s: State, t: TaskRef)
    requires t in s.works
  {
    !s.works[t].stopped && s.works[t].decided.None? && !MustPoll(s, t)
  }

  predicate IsCancelled(s: State, id: JobId) {
    id in s.jobs && s.jobs[id].cancelRequested
  }

  /** The job is marked running, unless the constraint refuses. */
  function BeginNext(s: State, t: TaskRef, id: JobId): Option<State> {
    if t in s.works || t in s.data.passes || id !in s.jobs || s.jobs[id].org != s.org then None
    else if !Admits(s.jobs, id, s.org, Running) then None
    else
      var work := Work(id, s.jobs[id].dryRun, 0, 0, 0, 0, false, None);
      Some(s.(jobs := Apply(s.jobs, SaveStatus(id, Running)), works := s.works[t := work]))
  }

  /** A real task queries the records, whose URIs it reads as they are then. */
  function QueryNext(s: State, t: TaskRef): Option<State> {
    if t !in s.works || s.works[t].dryRun || t in s.data.passes then None
    else
      var pass := Convergence.Pass(s.data.db.uris, 0, Convergence.AtRecord);
      Some(s.(data := Convergence.With(s.data, t, pass)))
  }

  /** The problem records, missing or in conflict, that a request counts. */
  function Seen(site: Site, s: State, t: TaskRef, step: Convergence.Action): (nat, nat)
    requires t in s.data.passes
  {
    var p := s.data.passes[t];
    if p.index >= |site.versions| || p.index >= |p.snapshot| then (0, 0)
    else if step.Inspect? then
      var g := Classify(site, site.versions[p.index], p.snapshot[p.index]);
      if g.Unrecognized? then (0, 1)
      else if HasLegacyKey(g) && g.key !in s.data.db.objects then (1, 0)
      else (0, 0)
    else if step.Download? && p.pc.Found? && p.pc.key in s.data.db.objects
            && site.sha(s.data.db.objects[p.pc.key].data) != site.versions[p.index].checksum then (0, 1)
    else (0, 0)
  }

  /** A request of a real pass. If it finds the new key taken, the pass is gone and its job failed. */
  function PassNext(site: Site, s: State, t: TaskRef, step: Convergence.Action): Option<State> {
    if t !in s.works || s.works[t].dryRun || t !in s.data.passes || !MayGoOn(s, t) then None
    else if step.Begin? || step.Stop? || step.pass != t then None
    else
      match Convergence.Next(site, s.data, step)
      case None => None
      case Some(data) =>
        var w := s.works[t];
        if t !in data.passes then
          Some(State(s.org, data, Apply(s.jobs, SaveStatus(w.job, Failed)), s.works - {t}))
        else
          var (missing, conflicts) := Seen(site, s, t, step);
          var w' := w.(missing := w.missing + missing, conflicts := w.conflicts + conflicts);
          Some(State(s.org, data, s.jobs, s.works[t := w']))
  }

  function DryNext(site: Site, s: State, t: TaskRef): Option<State> {
    if t !in s.works || !s.works[t].dryRun || !MayGoOn(s, t) || s.works[t].index >= |site.versions| then None
    else Some(s.(works := s.works[t := s.works[t].(index := s.works[t].index + 1)]))
  }

  function PollNext(s: State, t: TaskRef): Option<State> {
    if t !in s.works || s.works[t].decided.Some? || !MustPoll(s, t) then None
    else
      Some(s.(works := s.works[t := s.works[t].(polled := Index(s, t), stopped := IsCancelled(s, s.works[t].job))]))
  }

  /** The pass is over, by its end or by a cancel; the flag is read once more and decides. */
  function DecideNext(site: Site, s: State, t: TaskRef): Option<State> {
    if t !in s.works || s.works[t].decided.Some? || MustPoll(s, t) || !BetweenRecords(s, t) then None
    else if !s.works[t].stopped && Index(s, t) < |site.versions| then None
    else
      var w := s.works[t];
      var status := FinalStatus(IsCancelled(s, w.job), w.dryRun, w.missing, w.conflicts);
      Some(s.(works := s.works[t := w.(decided := Some(status))]))
  }

  /** The status is saved; others may have written since it was decided. */
  function SettleNext(s: State, t: TaskRef): Option<State> {
    if t !in s.works || s.works[t].decided.None? then None
    else
      var op := SaveStatus(s.works[t].job, s.works[t].decided.value);
      Some(State(s.org, Convergence.Without(s.data, t), Apply(s.jobs, op), s.works - {t}))
  }

  function Next(site: Site, s: State, a: Action): Option<State> {
    match a
    case Operate(op) => if op.SaveStatus? then None else Some(s.(jobs := Apply(s.jobs, op)))
    case Begin(t, id) => BeginNext(s, t, id)
    case Query(t) => QueryNext(s, t)
    case PassStep(t, step) => PassNext(site, s, t, step)
    case DryStep(t) => DryNext(site, s, t)
    case Poll(t) => PollNext(s, t)
    case Decide(t) => DecideNext(site, s, t)
    case Settle(t) => SettleNext(s, t)
    case Fail(t) =>
      if t !in s.works then None
      else
        var op := SaveStatus(s.works[t].job, Failed);
        Some(State(s.org, Convergence.Without(s.data, t), Apply(s.jobs, op), s.works - {t}))
    case Die(t) =>
      if t !in s.works then None
      else Some(State(s.org, Convergence.Without(s.data, t), s.jobs, s.works - {t}))
  }

  function Execute(site: Site, org: OrgId, s0: Db, trace: seq<Action>): Option<State> {
    if trace == [] then Some(State(org, Convergence.State(s0, map[]), map[], map[]))
    else
      match Execute(site, org, s0, trace[..|trace| - 1])
      case None => None
      case Some(s) => Next(site, s, trace[|trace| - 1])
  }

  // ---- the invariant --------------------------------------------------------------------------

  /** The record was missing or in conflict when everything started. */
  predicate Problem(site: Site, s0: Db, i: nat)
    requires i < |site.versions| == |s0.uris|
  {
    var verdict := Judge(site, s0.objects, site.versions[i], s0.uris[i]);
    verdict.Missing? || verdict.Conflict?
  }

  predicate NoProblem(site: Site, s0: Db, n: nat)
    requires n <= |site.versions| == |s0.uris|
  {
    forall i | 0 <= i < n :: !Problem(site, s0, i)
  }

  /** A real task has seen no problem exactly when there is none behind it, and a task that a cancel
      has stopped will find the cancel requested again; what it decides is true, and stays so. */
  predicate WorkOk(site: Site, s0: Db, s: State, t: TaskRef)
    requires t in s.works && |site.versions| == |s0.uris|
  {
    var w := s.works[t];
    && w.job in s.jobs && s.jobs[w.job].dryRun == w.dryRun
    && (w.stopped ==> s.jobs[w.job].cancelRequested)
    && w.index <= |site.versions|
    && (w.decided.Some? ==> DecisionOk(site, s0, s, w))
    && (w.dryRun || (w.index == 0 && SeenOk(site, s0, w, Index(s, t))))
  }

  predicate DecisionOk(site: Site, s0: Db, s: State, w: Work)
    requires |site.versions| == |s0.uris| && w.decided.Some? && w.job in s.jobs
  {
    var status := w.decided.value;
    && (status == Cancelled || status == Succeeded || (status == PartiallyFailed && !w.dryRun))
    && (w.stopped ==> status == Cancelled)
    && (status == Cancelled ==> s.jobs[w.job].cancelRequested)
    && (!w.dryRun && status == Succeeded ==> Done(site, s0, s.data.db))
    && (status == PartiallyFailed ==> !NoProblem(site, s0, |site.versions|))
  }

  predicate SeenOk(site: Site, s0: Db, w: Work, n: nat)
    requires |site.versions| == |s0.uris|
  {
    n <= |site.versions| && (w.missing == w.conflicts == 0 <==> NoProblem(site, s0, n))
  }

  /** All records are dealt with, and none was a problem. */
  predicate Done(site: Site, s0: Db, db: Db) {
    && |site.versions| == |s0.uris| == |db.uris|
    && NoProblem(site, s0, |site.versions|)
    && Convergence.Behind(site, s0, db, |site.versions|)
  }

  predicate RealSuccess(jobs: map<JobId, Job>, id: JobId) {
    id in jobs && jobs[id].status == Succeeded && !jobs[id].dryRun
  }

  ghost predicate Inv(site: Site, s0: Db, s: State) {
    && Convergence.Inv(site, s0, s.data)
    && OneActive(s.jobs)
    && (forall t | t in s.works :: WorkOk(site, s0, s, t))
    && (forall t | t in s.data.passes :: t in s.works)
    && (forall id | RealSuccess(s.jobs, id) :: Done(site, s0, s.data.db))
  }

  lemma {:induction false} Lengths(site: Site, s0: Db, data: Convergence.State)
    requires Convergence.Inv(site, s0, data)
    ensures |data.db.uris| == |site.versions| == |s0.uris|
  {
  }

  /** What a step of task `t`, or of nobody, has to keep for the rest to be kept. */
  lemma {:induction false} StepKeeps(site: Site, s0: Db, s: State, s': State, t: TaskRef)
    requires Inv(site, s0, s) && Convergence.Inv(site, s0, s'.data)
    requires |s0.uris| == |site.versions| == |s.data.db.uris| == |s'.data.db.uris|
    requires Convergence.Onward(site, s0, s.data.db, s'.data.db)
    requires OneActive(s'.jobs) && CancelKept(s.jobs, s'.jobs)
    requires forall u | u in s'.works && u != t :: u in s.works && s'.works[u] == s.works[u]
    requires forall u | u in s.data.passes && u != t :: u in s'.data.passes && s'.data.passes[u] == s.data.passes[u]
    requires forall u | u in s'.data.passes :: u in s'.works && (u in s.data.passes || u == t)
    requires t in s'.works ==> WorkOk(site, s0, s', t)
    requires forall id | RealSuccess(s'.jobs, id) :: RealSuccess(s.jobs, id) || Done(site, s0, s'.data.db)
    ensures Inv(site, s0, s')
  {
    hide Convergence.Inv, Convergence.Onward, OneActive, WorkOk, CancelKept, Done, RealSuccess;
    forall id | RealSuccess(s'.jobs, id) ensures Done(site, s0, s'.data.db) {
      if RealSuccess(s.jobs, id) {
        DoneStays(site, s0, s.data.db, s'.data.db);
      }
    }
    forall u | u in s'.works ensures WorkOk(site, s0, s', u) {
      if u != t {
        OtherWorkKept(site, s0, s, s', u);
      }
    }
  }

  lemma {:induction false} OtherWorkKept(site: Site, s0: Db, s: State, s': State, u: TaskRef)
    requires |s0.uris| == |site.versions| == |s.data.db.uris| == |s'.data.db.uris|
    requires u in s.works && WorkOk(site, s0, s, u) && u in s'.works && s'.works[u] == s.works[u]
    requires u in s.data.passes <==> u in s'.data.passes
    requires u in s.data.passes ==> s'.data.passes[u] == s.data.passes[u]
    requires CancelKept(s.jobs, s'.jobs) && Convergence.Onward(site, s0, s.data.db, s'.data.db)
    ensures WorkOk(site, s0, s', u)
  {
    hide Convergence.Onward, SeenOk, Done, NoProblem;
    if Done(site, s0, s.data.db) {
      DoneStays(site, s0, s.data.db, s'.data.db);
    }
  }

  lemma {:induction false} DoneStays(site: Site, s0: Db, db: Db, db': Db)
    requires Done(site, s0, db) && |db'.uris| == |db.uris| && Convergence.Onward(site, s0, db, db')
    ensures Done(site, s0, db')
  {
    hide NoProblem, IsReady, Convergence.IsMoved;
  }

  /** A real job becomes SUCCEEDED by a save of this status alone. */
  lemma {:induction false} Succeeds(jobs: map<JobId, Job>, op: JobOp, id: JobId)
    requires RealSuccess(Apply(jobs, op), id)
    ensures RealSuccess(jobs, id) || (op == SaveStatus(id, Succeeded) && id in jobs && !jobs[id].dryRun)
  {
    hide AnyActive, Admits;
  }

  // ---- every step keeps it ----------------------------------------------------------------------

  lemma {:induction false} OperateKeeps(site: Site, s0: Db, s: State, op: JobOp)
    requires WellFormed(site) && Inv(site, s0, s) && !op.SaveStatus?
    ensures Inv(site, s0, s.(jobs := Apply(s.jobs, op)))
  {
    hide Convergence.Inv, Convergence.Onward, Apply, OneActive, SeenOk, CancelKept, Done, RealSuccess, WellFormed;
    var s' := s.(jobs := Apply(s.jobs, op));
    Lengths(site, s0, s.data);
    ApplyKeeps(s.jobs, op);
    Convergence.OnwardItself(site, s0, s.data.db);
    forall id | RealSuccess(s'.jobs, id) ensures RealSuccess(s.jobs, id) {
      Succeeds(s.jobs, op, id);
    }
    if 0 in s.works {
      JobRowKept(site, s0, s, s', 0);
    }
    StepKeeps(site, s0, s, s', 0);
  }

  lemma {:induction false} JobRowKept(site: Site, s0: Db, s: State, s': State, t: TaskRef)
    requires t in s.works && |site.versions| == |s0.uris| && WorkOk(site, s0, s, t)
    requires s' == s.(jobs := s'.jobs) && CancelKept(s.jobs, s'.jobs)
    ensures WorkOk(site, s0, s', t)
  {
    hide SeenOk, Done, NoProblem;
  }

  /** A task and its pass go away, with a status saved; SUCCEEDED only if that is true. */
  lemma {:induction false} LeaveKeeps(site: Site, s0: Db, s: State, t: TaskRef, data: Convergence.State, op: JobOp)
    requires Inv(site, s0, s) && t in s.works && Convergence.Inv(site, s0, data)
    requires data.passes == s.data.passes - {t} && data.db == s.data.db
    requires op.SaveStatus? ==>
        op.id == s.works[t].job && (op.status == Succeeded ==> s.works[t].dryRun || Done(site, s0, data.db))
    ensures Inv(site, s0, State(s.org, data, Apply(s.jobs, op), s.works - {t}))
  {
    hide Convergence.Inv, Convergence.Onward, Apply, OneActive, SeenOk, CancelKept, Done, RealSuccess;
    var s' := State(s.org, data, Apply(s.jobs, op), s.works - {t});
    Lengths(site, s0, s.data);
    ApplyKeeps(s.jobs, op);
    Convergence.OnwardItself(site, s0, s.data.db);
    assert WorkOk(site, s0, s, t);
    forall id | RealSuccess(s'.jobs, id) ensures RealSuccess(s.jobs, id) || Done(site, s0, s'.data.db) {
      Succeeds(s.jobs, op, id);
    }
    StepKeeps(site, s0, s, s', t);
  }

  lemma {:induction false} BeginKeeps(site: Site, s0: Db, s: State, t: TaskRef, id: JobId)
    requires WellFormed(site) && Inv(site, s0, s) && BeginNext(s, t, id).Some?
    ensures Inv(site, s0, BeginNext(s, t, id).value)
  {
    hide Convergence.Inv, Convergence.Onward, OneActive, SeenOk, CancelKept, Apply, Admits, Done, RealSuccess,
        WellFormed;
    var s' := BeginNext(s, t, id).value;
    Lengths(site, s0, s.data);
    ApplyKeeps(s.jobs, SaveStatus(id, Running));
    Convergence.OnwardItself(site, s0, s.data.db);
    forall k | RealSuccess(s'.jobs, k) ensures RealSuccess(s.jobs, k) {
      Succeeds(s.jobs, SaveStatus(id, Running), k);
    }
    NewWork(site, s0, s, s', t, id);
    StepKeeps(site, s0, s, s', t);
  }

  lemma {:induction false} NewWork(site: Site, s0: Db, s: State, s': State, t: TaskRef, id: JobId)
    requires BeginNext(s, t, id) == Some(s') && CancelKept(s.jobs, s'.jobs) && |s0.uris| == |site.versions|
    ensures WorkOk(site, s0, s', t)
  {
    hide Apply, Admits, Problem;
  }

  lemma {:induction false} QueryKeeps(site: Site, s0: Db, s: State, t: TaskRef)
    requires WellFormed(site) && Inv(site, s0, s) && QueryNext(s, t).Some?
    ensures Inv(site, s0, QueryNext(s, t).value)
  {
    hide Convergence.Inv, Convergence.Onward, OneActive, SeenOk, CancelKept, Done, RealSuccess, WellFormed, DecisionOk;
    Lengths(site, s0, s.data);
    TaskOk(site, s0, s, t);
    Convergence.BeginKeeps(site, s0, s.data, t);
    Convergence.OnwardItself(site, s0, s.data.db);
    CancelKeptItself(s.jobs);
    QueriedWork(site, s0, s, t);
    StepKeeps(site, s0, s, QueryNext(s, t).value, t);
  }

  lemma {:induction false} QueriedWork(site: Site, s0: Db, s: State, t: TaskRef)
    requires |site.versions| == |s0.uris| && QueryNext(s, t).Some? && WorkOk(site, s0, s, t)
    ensures WorkOk(site, s0, QueryNext(s, t).value, t)
  {
    hide SeenOk, Done, NoProblem;
  }

  // ---- the steps of a pass ------------------------------------------------------------------------

  lemma {:induction false} StepsApart(site: Site, data: Convergence.State, step: Convergence.Action, u: nat)
    requires Convergence.Next(site, data, step).Some? && u != step.pass
    ensures var next := Convergence.Next(site, data, step).value;
      (u in next.passes <==> u in data.passes) && (u in data.passes ==> next.passes[u] == data.passes[u])
  {
    hide TargetUri, Target, Judge, CopyOf;
  }

  /** An inspection that finds no object sees a problem exactly when the record was one from the start. */
  lemma {:induction false} InspectionSees(site: Site, s0: Db, s: State, t: TaskRef)
    requires WellFormed(site) && Convergence.Inv(site, s0, s.data) && t in s.data.passes
    requires Convergence.InspectNext(site, s.data, t).Some?
    ensures |s0.uris| == |site.versions| && s.data.passes[t].index < |site.versions| == |s.data.passes[t].snapshot|
    ensures var p := s.data.passes[t];
      var seen := Seen(site, s, t, Convergence.Inspect(t));
      if Convergence.LegacyFound(site, s.data.db.objects, site.versions[p.index], p.snapshot[p.index]) then
        seen == (0, 0)
      else seen == (0, 0) <==> !Problem(site, s0, p.index)
  {
    hide Classify, Copied, WellFormed, UriMoved, Target, TargetUri, Convergence.Behind, Convergence.PcOk,
        Convergence.IsMoved;
    var p := s.data.passes[t];
    Convergence.PassOkOf(site, s0, s.data, t);
    if p.snapshot[p.index] == s0.uris[p.index] {
      if HasLegacyKey(Classify(site, site.versions[p.index], s0.uris[p.index])) {
        LegacyUntouched(site, s0, s.data.db, |site.versions|, p.index, s0.uris[p.index]);
      }
    } else {
      MovedWasReady(site, s0, s.data.db, p.index);
      TargetIsCurrent(site, p.index);
    }
  }

  /** A download sees a problem exactly when the record is passed by, and then it was one. */
  lemma {:induction false} DownloadSees(site: Site, s0: Db, s: State, t: TaskRef)
    requires WellFormed(site) && Convergence.Inv(site, s0, s.data) && t in s.data.passes
    requires Convergence.DownloadNext(site, s.data, t).Some?
    ensures |s0.uris| == |site.versions| && s.data.passes[t].index < |site.versions|
    ensures var p := s.data.passes[t];
      && (Seen(site, s, t, Convergence.Download(t)) == (0, 0)
          <==> site.sha(s.data.db.objects[p.pc.key].data) == site.versions[p.index].checksum)
      && (Seen(site, s, t, Convergence.Download(t)) == (0, 0) <==> !Problem(site, s0, p.index))
  {
    hide Classify, Copied, WellFormed, UriMoved, Target, TargetUri, Convergence.Behind, Convergence.IsMoved;
    var p := s.data.passes[t];
    Convergence.PassOkOf(site, s0, s.data, t);
    Convergence.DownloadVerdict(site, s0, s.data.db, p.index);
  }

  lemma {:induction false} MovedWasReady(site: Site, s0: Db, s: Db, i: nat)
    requires i < |site.versions| == |s0.uris| == |s.uris| && Convergence.IsMoved(site, s0, s, i)
    ensures IsReady(site, s0, i) && !Problem(site, s0, i)
  {
    hide Judge;
  }

  lemma {:induction false} NoProblemMore(site: Site, s0: Db, n: nat)
    requires n < |site.versions| == |s0.uris|
    ensures NoProblem(site, s0, n + 1) <==> NoProblem(site, s0, n) && !Problem(site, s0, n)
  {
    hide Problem;
  }

  /** Where the pass stands after a step, and whether the record it has left behind was a problem. */
  lemma {:induction false} StepProgress(site: Site, s0: Db, s: State, t: TaskRef, step: Convergence.Action)
    requires WellFormed(site) && Convergence.Inv(site, s0, s.data) && t in s.data.passes
    requires step.pass == t && !step.Begin? && Convergence.Next(site, s.data, step).Some?
    requires t in Convergence.Next(site, s.data, step).value.passes
    ensures |s0.uris| == |site.versions| && s.data.passes[t].index <= |site.versions|
    ensures var n, n' := s.data.passes[t].index, Convergence.Next(site, s.data, step).value.passes[t].index;
      || (n' == n && Seen(site, s, t, step) == (0, 0))
      || (n' == n + 1 <= |site.versions| && (Seen(site, s, t, step) == (0, 0) <==> !Problem(site, s0, n)))
  {
    hide Classify, Judge, Target, TargetUri, CopyOf, Problem, WellFormed, Between, Convergence.LegacyFound,
        Convergence.SnapshotOk, Convergence.Behind, Convergence.IsMoved;
    Convergence.PassOkOf(site, s0, s.data, t);
    if step.Inspect? {
      InspectionSees(site, s0, s, t);
    } else if step.Download? {
      DownloadSees(site, s0, s, t);
    } else if step.SaveUri? {
      ReadyIsNoProblem(site, s0, s.data.passes[t].index);
    }
  }

  lemma {:induction false} ReadyIsNoProblem(site: Site, s0: Db, i: nat)
    requires i < |site.versions| == |s0.uris|
    ensures IsReady(site, s0, i) ==> !Problem(site, s0, i)
  {
    hide Judge;
  }

  /** A pass disappears only by finding its new key taken; then nothing else changes. */
  lemma {:induction false} PassGone(site: Site, data: Convergence.State, step: Convergence.Action)
    requires Convergence.Next(site, data, step).Some? && step.pass in data.passes
    requires step.pass !in Convergence.Next(site, data, step).value.passes
    ensures Convergence.Next(site, data, step).value == Convergence.Without(data, step.pass)
  {
    hide TargetUri, Target, Judge, CopyOf;
  }

  lemma {:induction false} PassStays(site: Site, s0: Db, s: State, t: TaskRef, step: Convergence.Action)
    requires WellFormed(site) && Inv(site, s0, s) && t in s.works && PassNext(site, s, t, step).Some?
    requires t in Convergence.Next(site, s.data, step).value.passes
    ensures |s0.uris| == |site.versions| && t in PassNext(site, s, t, step).value.works
    ensures WorkOk(site, s0, PassNext(site, s, t, step).value, t)
  {
    hide Convergence.Inv, Convergence.Next, OneActive, Seen, NoProblem, Problem, Done, RealSuccess, WellFormed,
        MustPoll;
    var n := s.data.passes[t].index;
    Lengths(site, s0, s.data);
    assert WorkOk(site, s0, s, t);
    StepProgress(site, s0, s, t, step);
    if n < |site.versions| {
      NoProblemMore(site, s0, n);
    }
  }

  lemma {:induction false} PassKeeps(site: Site, s0: Db, s: State, t: TaskRef, step: Convergence.Action)
    requires WellFormed(site) && Inv(site, s0, s) && PassNext(site, s, t, step).Some?
    ensures Inv(site, s0, PassNext(site, s, t, step).value)
  {
    hide Convergence.Inv, Convergence.Next, Convergence.Onward, Apply, OneActive, WorkOk, Seen, Done, RealSuccess,
        WellFormed, MayGoOn;
    var data := Convergence.Next(site, s.data, step).value;
    var s' := PassNext(site, s, t, step).value;
    Lengths(site, s0, s.data);
    Convergence.NextKeeps(site, s0, s.data, step);
    if t !in data.passes {
      PassGone(site, s.data, step);
      LeaveKeeps(site, s0, s, t, data, SaveStatus(s.works[t].job, Failed));
    } else {
      Convergence.NextOnward(site, s0, s.data, step);
      forall u | u != t
        ensures u in data.passes <==> u in s.data.passes
        ensures u in s.data.passes ==> data.passes[u] == s.data.passes[u]
      {
        StepsApart(site, s.data, step, u);
      }
      PassStays(site, s0, s, t, step);
      CancelKeptItself(s.jobs);
      StepKeeps(site, s0, s, s', t);
    }
  }

  // ---- the other steps ----------------------------------------------------------------------------

  /** A step that changes nothing but what a task knows. */
  lemma {:induction false} KnowsKeeps(site: Site, s0: Db, s: State, t: TaskRef, w: Work)
    requires Inv(site, s0, s) && t in s.works && |site.versions| == |s0.uris|
    requires WorkOk(site, s0, s.(works := s.works[t := w]), t)
    ensures Inv(site, s0, s.(works := s.works[t := w]))
  {
    hide Convergence.Inv, Convergence.Onward, OneActive, SeenOk, CancelKept, Done, RealSuccess;
    Lengths(site, s0, s.data);
    Convergence.OnwardItself(site, s0, s.data.db);
    CancelKeptItself(s.jobs);
    StepKeeps(site, s0, s, s.(works := s.works[t := w]), t);
  }

  lemma {:induction false} TaskOk(site: Site, s0: Db, s: State, t: TaskRef)
    requires Inv(site, s0, s) && t in s.works
    ensures |site.versions| == |s0.uris| && WorkOk(site, s0, s, t)
  {
    hide WorkOk, SeenOk, Done;
  }

  lemma {:induction false} DryKeeps(site: Site, s0: Db, s: State, t: TaskRef)
    requires Inv(site, s0, s) && DryNext(site, s, t).Some?
    ensures Inv(site, s0, DryNext(site, s, t).value)
  {
    hide Inv, MayGoOn, SeenOk;
    TaskOk(site, s0, s, t);
    KnowsKeeps(site, s0, s, t, s.works[t].(index := s.works[t].index + 1));
  }

  lemma {:induction false} PollKeeps(site: Site, s0: Db, s: State, t: TaskRef)
    requires Inv(site, s0, s) && PollNext(s, t).Some?
    ensures Inv(site, s0, PollNext(s, t).value)
  {
    hide Inv, MustPoll, NoProblem;
    TaskOk(site, s0, s, t);
    KnowsKeeps(site, s0, s, t, s.works[t].(polled := Index(s, t), stopped := IsCancelled(s, s.works[t].job)));
  }

  /** A task that decides has been stopped by a cancel, which it then finds still requested, or has been
      through all records. */
  lemma {:induction false} DecidesAtEnd(site: Site, s0: Db, s: State, t: TaskRef)
    requires Inv(site, s0, s) && DecideNext(site, s, t).Some?
    ensures |site.versions| == |s0.uris| && s.works[t].job in s.jobs
    ensures IsCancelled(s, s.works[t].job) || Index(s, t) == |site.versions|
    ensures !s.works[t].dryRun && Index(s, t) == |site.versions| ==>
      && (s.works[t].missing == s.works[t].conflicts == 0 <==> NoProblem(site, s0, |site.versions|))
      && (NoProblem(site, s0, |site.versions|) <==> Done(site, s0, s.data.db))
  {
    hide Inv, MustPoll, NoProblem, Convergence.Behind, DecisionOk;
    TaskOk(site, s0, s, t);
    if !s.works[t].dryRun {
      PassBehind(site, s0, s, t);
    }
  }

  lemma {:induction false} DecisionHolds(site: Site, s0: Db, s: State, t: TaskRef)
    requires Inv(site, s0, s) && DecideNext(site, s, t).Some?
    ensures |site.versions| == |s0.uris| && WorkOk(site, s0, DecideNext(site, s, t).value, t)
  {
    hide Inv, MustPoll, BetweenRecords, NoProblem, Done;
    DecidesAtEnd(site, s0, s, t);
    TaskOk(site, s0, s, t);
  }

  lemma {:induction false} DecideKeeps(site: Site, s0: Db, s: State, t: TaskRef)
    requires Inv(site, s0, s) && DecideNext(site, s, t).Some?
    ensures Inv(site, s0, DecideNext(site, s, t).value)
  {
    hide Inv, MustPoll, BetweenRecords, Index, WorkOk, FinalStatus;
    var w := s.works[t];
    DecisionHolds(site, s0, s, t);
    KnowsKeeps(site, s0, s, t,
        w.(decided := Some(FinalStatus(IsCancelled(s, w.job), w.dryRun, w.missing, w.conflicts))));
  }

  lemma {:induction false} PassBehind(site: Site, s0: Db, s: State, t: TaskRef)
    requires Inv(site, s0, s) && t in s.data.passes
    ensures |site.versions| == |s0.uris| == |s.data.db.uris|
        && Convergence.Behind(site, s0, s.data.db, s.data.passes[t].index)
  {
    hide Convergence.Inv, Convergence.Behind, Convergence.SnapshotOk, Convergence.PcOk, WorkOk, Done;
    Convergence.PassOkOf(site, s0, s.data, t);
  }

  lemma {:induction false} SettleKeeps(site: Site, s0: Db, s: State, t: TaskRef)
    requires Inv(site, s0, s) && SettleNext(s, t).Some?
    ensures Inv(site, s0, SettleNext(s, t).value)
  {
    hide Inv, NoProblem, Done, SeenOk, Apply;
    TaskOk(site, s0, s, t);
    StopsClean(site, s0, s, t);
    LeaveKeeps(site, s0, s, t, Convergence.Without(s.data, t), SaveStatus(s.works[t].job, s.works[t].decided.value));
  }

  lemma {:induction false} StopsClean(site: Site, s0: Db, s: State, t: TaskRef)
    requires Inv(site, s0, s)
    ensures Convergence.Inv(site, s0, Convergence.Without(s.data, t))
  {
    hide Convergence.Inv, Convergence.Without, WorkOk, Done;
    Convergence.StopKeeps(site, s0, s.data, t);
  }

  lemma {:induction false} DieKeeps(site: Site, s0: Db, s: State, t: TaskRef)
    requires Inv(site, s0, s) && t in s.works
    ensures Inv(site, s0, State(s.org, Convergence.Without(s.data, t), s.jobs, s.works - {t}))
  {
    hide Convergence.Inv, Convergence.Onward, OneActive, SeenOk, CancelKept, Done, RealSuccess;
    Lengths(site, s0, s.data);
    Convergence.StopKeeps(site, s0, s.data, t);
    Convergence.OnwardItself(site, s0, s.data.db);
    CancelKeptItself(s.jobs);
    StepKeeps(site, s0, s, State(s.org, Convergence.Without(s.data, t), s.jobs, s.works - {t}), t);
  }

  lemma {:induction false} NextKeeps(site: Site, s0: Db, s: State, a: Action)
    requires WellFormed(site) && Inv(site, s0, s) && Next(site, s, a).Some?
    ensures Inv(site, s0, Next(site, s, a).value)
  {
    hide Inv, WellFormed, Apply, BeginNext, QueryNext, PassNext, DryNext, PollNext, DecideNext, SettleNext,
        Convergence.Without, Convergence.Inv;
    match a
    case Operate(op) => OperateKeeps(site, s0, s, op);
    case Begin(t, id) => BeginKeeps(site, s0, s, t, id);
    case Query(t) => QueryKeeps(site, s0, s, t);
    case PassStep(t, step) => PassKeeps(site, s0, s, t, step);
    case DryStep(t) => DryKeeps(site, s0, s, t);
    case Poll(t) => PollKeeps(site, s0, s, t);
    case Decide(t) => DecideKeeps(site, s0, s, t);
    case Settle(t) => SettleKeeps(site, s0, s, t);
    case Fail(t) =>
      StopsClean(site, s0, s, t);
      FailKeeps(site, s0, s, t);
    case Die(t) => DieKeeps(site, s0, s, t);
  }

  lemma {:induction false} FailKeeps(site: Site, s0: Db, s: State, t: TaskRef)
    requires Inv(site, s0, s) && t in s.works && Convergence.Inv(site, s0, Convergence.Without(s.data, t))
    ensures var jobs := Apply(s.jobs, SaveStatus(s.works[t].job, Failed));
      Inv(site, s0, State(s.org, Convergence.Without(s.data, t), jobs, s.works - {t}))
  {
    hide Inv, Apply, Convergence.Inv, Done;
    LeaveKeeps(site, s0, s, t, Convergence.Without(s.data, t), SaveStatus(s.works[t].job, Failed));
  }

  lemma {:induction false} Reachable(site: Site, org: OrgId, s0: Db, trace: seq<Action>)
    requires WellFormed(site) && |s0.uris| == |site.versions| && Execute(site, org, s0, trace).Some?
    ensures Inv(site, s0, Execute(site, org, s0, trace).value)
  {
    hide Next, WellFormed, Convergence.Next;
    if trace == [] {
      Convergence.Reachable(site, s0, []);
    } else {
      Reachable(site, org, s0, trace[..|trace| - 1]);
      NextKeeps(site, s0, Execute(site, org, s0, trace[..|trace| - 1]).value, trace[|trace| - 1]);
    }
  }

  // ---- results --------------------------------------------------------------------------------

  lemma {:induction false} StepKeepsCancels(site: Site, s: State, a: Action)
    requires OneActive(s.jobs) && Next(site, s, a).Some?
    ensures CancelKept(s.jobs, Next(site, s, a).value.jobs)
  {
    hide Apply, OneActive, CancelKept, Admits, Convergence.Next, Convergence.Without, MustPoll, MayGoOn,
        BetweenRecords, FinalStatus, Seen;
    var jobs := Next(site, s, a).value.jobs;
    CancelKeptItself(s.jobs);
    match a
    case Operate(op) => ApplyKeeps(s.jobs, op);
    case Begin(t, id) => ApplyKeeps(s.jobs, SaveStatus(id, Running));
    case PassStep(t, step) => ApplyKeeps(s.jobs, SaveStatus(s.works[t].job, Failed));
    case Settle(t) => ApplyKeeps(s.jobs, SaveStatus(s.works[t].job, s.works[t].decided.value));
    case Fail(t) => ApplyKeeps(s.jobs, SaveStatus(s.works[t].job, Failed));
    case _ =>
  }

  /** Whatever operators and tasks do, a job is never lost, never changes between dry run and real, and
      a cancel once requested stays requested. */
  lemma {:induction false} CancelIsForGood(site: Site, org: OrgId, s0: Db, trace: seq<Action>, n: nat)
    requires WellFormed(site) && |s0.uris| == |site.versions| && n <= |trace| && Execute(site, org, s0, trace).Some?
    ensures Execute(site, org, s0, trace[..n]).Some?
    ensures CancelKept(Execute(site, org, s0, trace[..n]).value.jobs, Execute(site, org, s0, trace).value.jobs)
  {
    hide Next, WellFormed, CancelKept, Inv;
    if n == |trace| {
      assert trace[..n] == trace;
      CancelKeptItself(Execute(site, org, s0, trace).value.jobs);
    } else {
      var front := trace[..|trace| - 1];
      var s := Execute(site, org, s0, front).value;
      CancelIsForGood(site, org, s0, front, n);
      assert front[..n] == trace[..n];
      Reachable(site, org, s0, front);
      AtMostOneActive(site, s0, s);
      StepKeepsCancels(site, s, trace[|trace| - 1]);
      CancelKeptTransitive(Execute(site, org, s0, trace[..n]).value.jobs, s.jobs,
          Execute(site, org, s0, trace).value.jobs);
    }
  }

  lemma {:induction false} AtMostOneActive(site: Site, s0: Db, s: State)
    requires Inv(site, s0, s)
    ensures OneActive(s.jobs)
  {
    hide Convergence.Inv, WorkOk, Done, OneActive;
  }

  /** What a task decides when it reads the flag for the last time, in every reachable state: CANCELLED
      exactly if a cancel is requested by then, and otherwise it has been through all records, and a
      real pass ends SUCCEEDED exactly when none of them was missing or in conflict. */
  lemma {:induction false} DecidedTruly(site: Site, org: OrgId, s0: Db, trace: seq<Action>, t: TaskRef)
    requires WellFormed(site) && |s0.uris| == |site.versions| && Execute(site, org, s0, trace).Some?
    requires DecideNext(site, Execute(site, org, s0, trace).value, t).Some?
    ensures var s := Execute(site, org, s0, trace).value; s.works[t].job in s.jobs
    ensures var s := Execute(site, org, s0, trace).value;
      var w := s.works[t];
      var status := DecideNext(site, s, t).value.works[t].decided;
      && status.Some?
      && (status.value == Cancelled <==> s.jobs[w.job].cancelRequested)
      && (w.stopped || Index(s, t) < |site.versions| ==> status.value == Cancelled)
      && (status.value != Cancelled && w.dryRun ==> status.value == Succeeded)
      && (status.value != Cancelled && !w.dryRun ==>
            status.value == if NoProblem(site, s0, |site.versions|) then Succeeded else PartiallyFailed)
  {
    hide Execute, Inv, MustPoll, BetweenRecords, NoProblem, Done, WellFormed, DecisionOk;
    var s := Execute(site, org, s0, trace).value;
    Reachable(site, org, s0, trace);
    TaskOk(site, s0, s, t);
    DecidesAtEnd(site, s0, s, t);
  }

  /** What the status says when it is saved, whatever others did since it was decided: CANCELLED only if a
      cancel is requested, and always if one cut the pass short; SUCCEEDED of a real job only if all
      records are migrated, PARTIALLY_FAILED only if some record was missing or in conflict. */
  lemma {:induction false} SettledTruly(site: Site, org: OrgId, s0: Db, trace: seq<Action>, t: TaskRef)
    requires WellFormed(site) && |s0.uris| == |site.versions| && Execute(site, org, s0, trace).Some?
    requires SettleNext(Execute(site, org, s0, trace).value, t).Some?
    ensures var s := Execute(site, org, s0, trace).value;
      s.works[t].job in s.jobs && s.works[t].job in SettleNext(s, t).value.jobs
    ensures var s := Execute(site, org, s0, trace).value;
      var w := s.works[t];
      var job := SettleNext(s, t).value.jobs[w.job];
      && (job.status == Cancelled || job.status == Succeeded || job.status == PartiallyFailed)
      && (w.stopped ==> job.status == Cancelled)
      && (job.status == Cancelled ==> job.cancelRequested)
      && (job.status == Succeeded && !w.dryRun ==> Done(site, s0, s.data.db))
      && (job.status == PartiallyFailed ==> !w.dryRun && !NoProblem(site, s0, |site.versions|))
  {
    hide Execute, Inv, NoProblem, Done, SeenOk, WellFormed;
    var s := Execute(site, org, s0, trace).value;
    Reachable(site, org, s0, trace);
    TaskOk(site, s0, s, t);
  }

  /** The data only move on. */
  lemma {:induction false} StepOnward(site: Site, s0: Db, s: State, a: Action)
    requires WellFormed(site) && Inv(site, s0, s) && Next(site, s, a).Some?
    ensures |site.versions| == |s0.uris| == |s.data.db.uris| == |Next(site, s, a).value.data.db.uris|
    ensures Convergence.Onward(site, s0, s.data.db, Next(site, s, a).value.data.db)
  {
    hide Convergence.Inv, Convergence.Next, Convergence.Onward, WorkOk, OneActive, Done, RealSuccess, WellFormed,
        Apply, MustPoll, MayGoOn, BetweenRecords, Seen, Admits;
    Lengths(site, s0, s.data);
    Convergence.OnwardItself(site, s0, s.data.db);
    if a.PassStep? {
      Convergence.NextOnward(site, s0, s.data, a.step);
    }
  }

  /** Once all records are dealt with, they stay so. */
  lemma {:induction false} DoneForGood(site: Site, org: OrgId, s0: Db, trace: seq<Action>, n: nat)
    requires WellFormed(site) && |s0.uris| == |site.versions| && n <= |trace|
    requires Execute(site, org, s0, trace).Some? && Execute(site, org, s0, trace[..n]).Some?
    requires Done(site, s0, Execute(site, org, s0, trace[..n]).value.data.db)
    ensures Done(site, s0, Execute(site, org, s0, trace).value.data.db)
  {
    hide Next, WellFormed, Inv, Done, Convergence.Onward;
    if n == |trace| {
      assert trace[..n] == trace;
    } else {
      var front := trace[..|trace| - 1];
      var s := Execute(site, org, s0, front).value;
      assert front[..n] == trace[..n];
      DoneForGood(site, org, s0, front, n);
      Reachable(site, org, s0, front);
      StepOnward(site, s0, s, trace[|trace| - 1]);
      DoneStays(site, s0, s.data.db, Execute(site, org, s0, trace).value.data.db);
    }
  }

  lemma {:induction false} SuccessIsDone(site: Site, s0: Db, s: State, id: JobId)
    requires Inv(site, s0, s) && RealSuccess(s.jobs, id)
    ensures Done(site, s0, s.data.db)
  {
    hide Convergence.Inv, WorkOk, OneActive, Done;
  }

  /** A real job that is SUCCEEDED tells the truth, then and ever after: no record was missing or in
      conflict, every URI is the tenant's own, and the database is what one uninterrupted pass makes of
      the start. */
  lemma {:induction false} SucceededIsTrue(site: Site, org: OrgId, s0: Db, trace: seq<Action>, n: nat, id: JobId)
    requires WellFormed(site) && |s0.uris| == |site.versions| && n <= |trace|
    requires Execute(site, org, s0, trace).Some? && Execute(site, org, s0, trace[..n]).Some?
    requires RealSuccess(Execute(site, org, s0, trace[..n]).value.jobs, id)
    ensures NoProblem(site, s0, |site.versions|)
    ensures var db := Execute(site, org, s0, trace).value.data.db;
      Migrated(site, s0, db, |site.versions|) && forall i | 0 <= i < |site.versions| :: db.uris[i] == TargetUri(site, i)
  {
    hide Execute, WorkOk, OneActive, RealSuccess, Problem, Convergence.MovedUnblocked, Convergence.PassesOk,
        WellFormed, IsReady, UriMoved, TargetUri, Copied, Blocked;
    var db := Execute(site, org, s0, trace).value.data.db;
    Reachable(site, org, s0, trace[..n]);
    SuccessIsDone(site, s0, Execute(site, org, s0, trace[..n]).value, id);
    DoneForGood(site, org, s0, trace, n);
    Reachable(site, org, s0, trace);
    forall i | 0 <= i < |site.versions| ensures db.uris[i] == TargetUri(site, i) {
      if !IsReady(site, s0, i) {
        AtTarget(site, s0, db, i);
      }
    }
  }

  /** A record that was no problem and was not ready had its new URI all along. */
  lemma {:induction false} AtTarget(site: Site, s0: Db, s: Db, i: nat)
    requires WellFormed(site) && Between(site, s0, s, |site.versions|) && i < |site.versions|
    requires !Problem(site, s0, i) && !IsReady(site, s0, i)
    ensures s.uris[i] == TargetUri(site, i)
  {
    hide Classify, Copied, WellFormed, TargetUri, Judge;
    AlreadyHasTargetUri(site, s0.objects, i, s0.uris[i]);
    assert UriMoved(site, s0, s, |site.versions|, i);
  }
}
