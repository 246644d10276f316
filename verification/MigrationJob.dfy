/** The job around a migration pass: starting, superseding and cancelling jobs
    (apps/opsui/services.py) and the task that runs one and settles its status (apps/opsui/tasks.py). */
module MigrationJob {
  import opened Prelude
  import opened Keys
  import opened RawStore
  import opened Migration
  import opened MigrationPass

  type JobId = nat
  type OrgId = nat

  datatype Status = Pending | Running | Succeeded | PartiallyFailed | Failed | Cancelled

  datatype Job = Job(org: OrgId, dryRun: bool, status: Status, cancelRequested: bool, counts: Counts)

  /** The database refused a second active job of an organization. */
  const INTEGRITY_VIOLATION := Error(UnexpectedError, false)

  predicate Active(status: Status) {
    status == Pending || status == Running
  }

  /** The unique constraint: at most one active job per organization. */
  predicate OneActive(jobs: map<JobId, Job>) {
    forall a, b | a in jobs && b in jobs && a != b && jobs[a].org == jobs[b].org ::
        jobs[a].status !in {Pending, Running} || jobs[b].status !in {Pending, Running}
  }

  /** A row with this organization and status may be written at `id`. */
  predicate Admits(jobs: map<JobId, Job>, id: JobId, org: OrgId, status: Status) {
    Active(status) ==> forall a | a in jobs && a != id && Active(jobs[a].status) :: jobs[a].org != org
  }

  /** Jobs are kept, and a requested cancel stays requested. */
  predicate CancelKept(before: map<JobId, Job>, after: map<JobId, Job>) {
    forall id | id in before :: id in after && after[id].org == before[id].org && after[id].dryRun == before[id].dryRun
                                && (before[id].cancelRequested ==> after[id].cancelRequested)
  }

  lemma {:induction false} WriteKeepsOneActive(jobs: map<JobId, Job>, id: JobId, job: Job)
    requires OneActive(jobs) && Admits(jobs, id, job.org, job.status)
    ensures OneActive(jobs[id := job])
  {
  }

  predicate IsActive(jobs: map<JobId, Job>, id: JobId, org: OrgId) {
    id in jobs && jobs[id].org == org && jobs[id].status in {Pending, Running}
  }

  predicate AnyActive(jobs: map<JobId, Job>, org: OrgId) {
    exists id :: id in jobs && IsActive(jobs, id, org)
  }

  /** What anybody does to the job rows: the writes of the services, of which marking a stalled job
      cancelled is one (`Supersede`) and a cancel depends on what the caller's copy of the job shows
      (`seen`), and the saves of a task. */
  datatype JobOp =
    | Start(org: OrgId, dryRun: bool, newId: JobId)
    | Supersede(id: JobId)
    | RequestCancel(id: JobId, seen: Status)
    | SaveStatus(id: JobId, status: Status)
    | SaveCounts(id: JobId, counts: Counts)

  function Started(jobs: map<JobId, Job>, org: OrgId, dryRun: bool, newId: JobId): map<JobId, Job> {
    if newId in jobs || AnyActive(jobs, org) then jobs else jobs[newId := Job(org, dryRun, Pending, false, ZERO)]
  }

  function Saved(jobs: map<JobId, Job>, id: JobId, status: Status): map<JobId, Job>
    requires id in jobs
  {
    if Admits(jobs, id, jobs[id].org, status) then jobs[id := jobs[id].(status := status)] else jobs
  }

  /** The rows after an operation; an operation the rules or the constraint refuse changes nothing. */
  function Apply(jobs: map<JobId, Job>, op: JobOp): map<JobId, Job> {
    match op
    case Start(org, dryRun, newId) => Started(jobs, org, dryRun, newId)
    case Supersede(id) => if id !in jobs then jobs else Saved(jobs, id, Cancelled)
    case RequestCancel(id, seen) =>
      if id !in jobs || !Active(seen) then jobs else jobs[id := jobs[id].(cancelRequested := true)]
    case SaveStatus(id, status) => if id !in jobs then jobs else Saved(jobs, id, status)
    case SaveCounts(id, counts) => if id !in jobs then jobs else jobs[id := jobs[id].(counts := counts)]
  }

  /** No operation takes a cancel request back or lets a second job of an organization be active. */
  lemma {:induction false} ApplyKeeps(jobs: map<JobId, Job>, op: JobOp)
    requires OneActive(jobs)
    ensures OneActive(Apply(jobs, op)) && CancelKept(jobs, Apply(jobs, op))
  {
    hide Counted, Tally;
    match op
    case Start(org, dryRun, newId) => StartedKeeps(jobs, org, dryRun, newId);
    case Supersede(id) =>
      if id in jobs {
        SavedKeeps(jobs, id, Cancelled);
      }
    case RequestCancel(id, seen) =>
    case SaveStatus(id, status) =>
      if id in jobs {
        SavedKeeps(jobs, id, status);
      }
    case SaveCounts(id, counts) =>
  }

  lemma {:induction false} StartedKeeps(jobs: map<JobId, Job>, org: OrgId, dryRun: bool, newId: JobId)
    requires OneActive(jobs)
    ensures OneActive(Started(jobs, org, dryRun, newId)) && CancelKept(jobs, Started(jobs, org, dryRun, newId))
  {
    if newId !in jobs && !AnyActive(jobs, org) {
      WriteKeepsOneActive(jobs, newId, Job(org, dryRun, Pending, false, ZERO));
    }
  }

  lemma {:induction false} SavedKeeps(jobs: map<JobId, Job>, id: JobId, status: Status)
    requires OneActive(jobs) && id in jobs
    ensures OneActive(Saved(jobs, id, status)) && CancelKept(jobs, Saved(jobs, id, status))
  {
    if Admits(jobs, id, jobs[id].org, status) {
      WriteKeepsOneActive(jobs, id, jobs[id].(status := status));
    }
  }

  function ApplyAll(jobs: map<JobId, Job>, ops: seq<JobOp>): map<JobId, Job> {
    if ops == [] then jobs else Apply(ApplyAll(jobs, ops[..|ops| - 1]), ops[|ops| - 1])
  }

  lemma {:induction false} ApplyAllKeeps(jobs: map<JobId, Job>, ops: seq<JobOp>)
    requires OneActive(jobs)
    ensures OneActive(ApplyAll(jobs, ops)) && CancelKept(jobs, ApplyAll(jobs, ops))
  {
    hide Apply, OneActive, CancelKept;
    if ops == [] {
      CancelKeptItself(jobs);
    } else {
      var mid := ApplyAll(jobs, ops[..|ops| - 1]);
      ApplyAllKeeps(jobs, ops[..|ops| - 1]);
      ApplyKeeps(mid, ops[|ops| - 1]);
      CancelKeptTransitive(jobs, mid, ApplyAll(jobs, ops));
    }
  }

  lemma {:induction false} CancelKeptItself(jobs: map<JobId, Job>)
    ensures CancelKept(jobs, jobs)
  {
  }

  lemma {:induction false} CancelKeptTransitive(a: map<JobId, Job>, b: map<JobId, Job>, c: map<JobId, Job>)
    requires CancelKept(a, b) && CancelKept(b, c)
    ensures CancelKept(a, c)
  {
  }

  lemma {:induction false} NoneApplied(jobs: map<JobId, Job>)
    ensures ApplyAll(jobs, []) == jobs
  {
  }

  lemma {:induction false} StillThere(before: map<JobId, Job>, after: map<JobId, Job>, id: JobId)
    requires CancelKept(before, after) && id in before
    ensures id in after && after[id].org == before[id].org && after[id].dryRun == before[id].dryRun
  {
  }

  /** Cancelling the active job of an organization leaves it none. */
  lemma {:induction false} SupersededIdle(jobs: map<JobId, Job>, id: JobId)
    requires OneActive(jobs) && id in jobs
    ensures var after := Apply(jobs, Supersede(id));
      && id in after && after[id].status == Cancelled && after[id].org == jobs[id].org
      && (Active(jobs[id].status) ==> !AnyActive(after, jobs[id].org))
  {
    assert !Active(Cancelled);
    forall a | a in jobs && a != id && Active(jobs[id].status)
      ensures !IsActive(Apply(jobs, Supersede(id)), a, jobs[id].org)
    {
      assert Active(jobs[a].status) ==> jobs[a].org != jobs[id].org;
    }
  }

  class JobTable {
    var jobs: map<JobId, Job>

    constructor ()
      ensures jobs == map[]
    {
      jobs := map[];
    }

    /** `job.save(update_fields=["status", ...])` */
    method SaveStatus(id: JobId, status: Status) returns (r: Result<(), Error>)
      requires id in jobs && OneActive(jobs)
      modifies this
      ensures r.Ok? <==>
        status !in {Pending, Running} || forall a | a in old(jobs) && a != id ::
            !IsActive(old(jobs), a, old(jobs)[id].org)
      ensures jobs == Apply(old(jobs), JobOp.SaveStatus(id, status))
      ensures r.Ok? ==> jobs[id].status == status
      ensures r.Err? ==> r.error == INTEGRITY_VIOLATION && jobs == old(jobs)
      ensures OneActive(jobs) && CancelKept(old(jobs), jobs)
    {
      if Active(status) && exists a | a in jobs && a != id && Active(jobs[a].status) :: jobs[a].org == jobs[id].org {
        return Err(INTEGRITY_VIOLATION);
      }
      WriteKeepsOneActive(jobs, id, jobs[id].(status := status));
      jobs := jobs[id := jobs[id].(status := status)];
      return Ok(());
    }

    method GetActiveJob(org: OrgId) returns (r: Option<JobId>)
      ensures r.Some? ==> r.value in jobs && jobs[r.value].org == org && Active(jobs[r.value].status)
      ensures r.None? ==> forall id | id in jobs && Active(jobs[id].status) :: jobs[id].org != org
    {
      if id :| id in jobs && jobs[id].org == org && Active(jobs[id].status) {
        return Some(id);
      }
      return None;
    }

    /** A new job, or the active one. Others do `before` between the check and the insert, and `after`
        between an insert that the constraint refuses and the second lookup; the refusal is raised
        again if the other job is over by then. */
    method StartMigrationJob(org: OrgId, dryRun: bool, newId: JobId, before: seq<JobOp>, after: seq<JobOp>)
      returns (r: Result<(JobId, bool), Error>)
      requires OneActive(jobs) && newId !in jobs && newId !in ApplyAll(jobs, before)
      modifies this
      ensures OneActive(jobs) && CancelKept(old(jobs), jobs)
      // A job is created exactly if none is active when the check looks, nor when the row is inserted.
      ensures r.Ok? && r.value.1 <==> !AnyActive(old(jobs), org) && !AnyActive(ApplyAll(old(jobs), before), org)
      ensures r.Ok? && r.value.1 ==>
        r.value.0 == newId && jobs == ApplyAll(old(jobs), before)[newId := Job(org, dryRun, Pending, false, ZERO)]
      // Otherwise the caller gets an active job, and nothing is written here.
      ensures r.Ok? && !r.value.1 ==> IsActive(jobs, r.value.0, org)
      ensures AnyActive(old(jobs), org) ==> r.Ok? && jobs == old(jobs)
      ensures !AnyActive(old(jobs), org) && AnyActive(ApplyAll(old(jobs), before), org) ==>
        jobs == ApplyAll(ApplyAll(old(jobs), before), after) && (r.Err? <==> !AnyActive(jobs, org))
      ensures r.Err? ==> r.error == INTEGRITY_VIOLATION
    {
      hide ApplyAll, OneActive, CancelKept;
      ghost var was := jobs;
      CancelKeptItself(was);
      var active := GetActiveJob(org);
      if active.Some? {
        return Ok((active.value, false));
      }
      ApplyAllKeeps(was, before);
      jobs := ApplyAll(jobs, before);
      ghost var mid := jobs;
      if Admitted(org) {
        StartedKeeps(mid, org, dryRun, newId);
        jobs := jobs[newId := Job(org, dryRun, Pending, false, ZERO)];
        CancelKeptTransitive(was, mid, jobs);
        return Ok((newId, true));
      }
      ApplyAllKeeps(mid, after);
      jobs := ApplyAll(jobs, after);
      CancelKeptTransitive(was, mid, jobs);
      var existing := GetActiveJob(org);
      if existing.Some? {
        return Ok((existing.value, false));
      }
      return Err(INTEGRITY_VIOLATION);
    }

    /** The insert does not violate the constraint. */
    predicate Admitted(org: OrgId)
      reads this
    {
      forall id | id in jobs && Active(jobs[id].status) :: jobs[id].org != org
    }

    /** A stalled job is cancelled before its replacement starts; a live one cannot be retried. The
        caller's copy of the job may be out of date: `seen` is the status it shows. */
    method RetryMigrationJob(id: JobId, seen: Status, stale: bool, newId: JobId, before: seq<JobOp>, after: seq<JobOp>)
      returns (r: Result<(JobId, bool), Error>)
      requires OneActive(jobs) && id in jobs && newId !in jobs
      requires newId !in ApplyAll(Apply(jobs, Supersede(id)), before) && newId !in ApplyAll(jobs, before)
      modifies this
      ensures OneActive(jobs) && CancelKept(old(jobs), jobs) && id in jobs
      ensures r == Err(CONFIGURATION_ERROR) <==> seen == Running && !stale
      ensures r == Err(CONFIGURATION_ERROR) ==> jobs == old(jobs)
      // A stalled job is cancelled; where it was the active one, its replacement is created unless others act.
      ensures seen == Running && stale && before == [] ==>
        jobs[id].status == Cancelled && (old(Active(jobs[id].status)) ==> r == Ok((newId, true)))
      ensures r.Ok? ==> IsActive(jobs, r.value.0, jobs[id].org)
      ensures r.Ok? && r.value.1 ==>
        var begun := if seen == Running then Apply(old(jobs), Supersede(id)) else old(jobs);
        && r.value.0 == newId && !AnyActive(begun, old(jobs)[id].org)
        && jobs == ApplyAll(begun, before)[newId := Job(old(jobs)[id].org, old(jobs)[id].dryRun, Pending, false, ZERO)]
      ensures r.Err? && r.error != CONFIGURATION_ERROR ==> r.error == INTEGRITY_VIOLATION && before != []
    {
      hide ApplyAll, OneActive, CancelKept;
      ghost var was := jobs;
      CancelKeptItself(was);
      if seen == Running {
        if !stale {
          return Err(CONFIGURATION_ERROR);
        }
        var saved := SaveStatus(id, Cancelled);
      }
      ghost var begun := jobs;
      StillThere(was, begun, id);
      NoneApplied(begun);
      SupersededIdle(was, id);
      r := StartMigrationJob(jobs[id].org, jobs[id].dryRun, newId, before, after);
      CancelKeptTransitive(was, begun, jobs);
      StillThere(begun, jobs, id);
    }

    method RequestCancel(id: JobId, seen: Status) returns (r: Result<(), Error>)
      requires id in jobs && OneActive(jobs)
      modifies this
      ensures r.Ok? <==> seen == Pending || seen == Running
      ensures r.Err? ==> r.error == CONFIGURATION_ERROR
      ensures jobs == Apply(old(jobs), JobOp.RequestCancel(id, seen))
      ensures r.Ok? ==> jobs[id] == old(jobs)[id].(cancelRequested := true)
      ensures OneActive(jobs) && CancelKept(old(jobs), jobs)
    {
      if !Active(seen) {
        return Err(CONFIGURATION_ERROR);
      }
      jobs := jobs[id := jobs[id].(cancelRequested := true)];
      return Ok(());
    }

    /** `_apply_result`: the counters of the pass. */
    method ApplyResult(id: JobId, counts: Counts)
      requires id in jobs && OneActive(jobs)
      modifies this
      ensures jobs == Apply(old(jobs), SaveCounts(id, counts))
      ensures OneActive(jobs) && CancelKept(old(jobs), jobs)
    {
      jobs := jobs[id := jobs[id].(counts := counts)];
    }
  }

  // ---- the task -------------------------------------------------------------------------------

  /** The status a finished pass gives its job. */
  function FinalStatus(cancelRequested: bool, dryRun: bool, missing: nat, conflicts: nat): Status {
    if cancelRequested then Cancelled
    else if dryRun then Succeeded
    else if missing > 0 || conflicts > 0 then PartiallyFailed
    else Succeeded
  }

  /** The rows when the first `n` groups of operations of others have been done. */
  function After(jobs: map<JobId, Job>, others: nat -> seq<JobOp>, n: nat): map<JobId, Job> {
    if n == 0 then jobs else ApplyAll(After(jobs, others, n - 1), others(n - 1))
  }

  /** What the `k`-th read of the job's cancel flag finds. */
  predicate FlagRead(jobs: map<JobId, Job>, others: nat -> seq<JobOp>, id: JobId, k: nat) {
    var now := After(jobs, others, k + 1);
    id in now && now[id].cancelRequested
  }

  lemma {:induction false} AfterKeeps(jobs: map<JobId, Job>, others: nat -> seq<JobOp>, m: nat, n: nat)
    requires OneActive(jobs) && m <= n
    ensures OneActive(After(jobs, others, n)) && CancelKept(After(jobs, others, m), After(jobs, others, n))
  {
    hide ApplyAll, OneActive, CancelKept;
    if n == 0 {
      CancelKeptItself(jobs);
    } else if m == n {
      AfterKeeps(jobs, others, 0, n - 1);
      ApplyAllKeeps(After(jobs, others, n - 1), others(n - 1));
      CancelKeptItself(After(jobs, others, n));
    } else {
      AfterKeeps(jobs, others, m, n - 1);
      ApplyAllKeeps(After(jobs, others, n - 1), others(n - 1));
      CancelKeptTransitive(After(jobs, others, m), After(jobs, others, n - 1), After(jobs, others, n));
    }
  }

  /** A cancel request that the service accepts. */
  predicate Cancels(op: JobOp, id: JobId) {
    op.RequestCancel? && op.id == id && (op.seen == Pending || op.seen == Running)
  }

  predicate CancelAmong(ops: seq<JobOp>, id: JobId) {
    exists op :: op in ops && Cancels(op, id)
  }

  lemma {:induction false} FlagAfter(jobs: map<JobId, Job>, op: JobOp, id: JobId)
    requires id in jobs
    ensures id in Apply(jobs, op)
    ensures Apply(jobs, op)[id].cancelRequested <==> jobs[id].cancelRequested || Cancels(op, id)
  {
    hide Admits, AnyActive;
  }

  lemma {:induction false} FlagAfterAll(jobs: map<JobId, Job>, ops: seq<JobOp>, id: JobId)
    requires id in jobs
    ensures id in ApplyAll(jobs, ops)
    ensures ApplyAll(jobs, ops)[id].cancelRequested <==> jobs[id].cancelRequested || CancelAmong(ops, id)
  {
    hide Apply, Cancels;
    if ops != [] {
      var front, last := ops[..|ops| - 1], ops[|ops| - 1];
      FlagAfterAll(jobs, front, id);
      FlagAfter(ApplyAll(jobs, front), last, id);
      assert ops == front + [last];
      if CancelAmong(front, id) {
        var op :| op in front && Cancels(op, id);
        assert op in ops;
      }
      if CancelAmong(ops, id) {
        var op :| op in ops && Cancels(op, id);
        assert op in front || op == last;
      }
    }
  }

  /** A read of the flag finds a cancel exactly if one was requested when the job began or an accepted
      request came before the read. */
  lemma {:induction false} FlagReadExactly(jobs: map<JobId, Job>, others: nat -> seq<JobOp>, id: JobId, k: nat)
    requires id in jobs
    ensures FlagRead(jobs, others, id, k)
       <==> jobs[id].cancelRequested || exists i | 0 <= i <= k :: CancelAmong(others(i), id)
  {
    hide ApplyAll, CancelAmong;
    if k == 0 {
      StartOfAfter(jobs, others);
      FlagAfterAll(jobs, others(0), id);
      assert After(jobs, others, 1) == ApplyAll(jobs, others(0));
    } else {
      FlagReadExactly(jobs, others, id, k - 1);
      FlagsKept(jobs, others, id, k);
      FlagAfterAll(After(jobs, others, k), others(k), id);
    }
  }

  lemma {:induction false} FlagsKept(jobs: map<JobId, Job>, others: nat -> seq<JobOp>, id: JobId, n: nat)
    requires id in jobs
    ensures id in After(jobs, others, n)
  {
    hide ApplyAll;
    if n > 0 {
      FlagsKept(jobs, others, id, n - 1);
      FlagAfterAll(After(jobs, others, n - 1), others(n - 1), id);
    }
  }

  /** Whatever operations others perform on the jobs in between, a cancel flag once read as set is read
      as set ever after. */
  lemma {:induction false} FlagIsMonotone(jobs: map<JobId, Job>, others: nat -> seq<JobOp>, id: JobId, i: nat, j: nat)
    requires OneActive(jobs) && i <= j && FlagRead(jobs, others, id, i)
    ensures FlagRead(jobs, others, id, j)
  {
    hide After;
    AfterKeeps(jobs, others, i + 1, j + 1);
  }

  /** A cancel that stopped the loop is seen again by the final read of the flag. */
  lemma {:induction false} NotCutShort(jobs: map<JobId, Job>, others: nat -> seq<JobOp>, id: JobId, n: nat, total: nat)
    requires OneActive(jobs) && StoppedBy((k: nat) => FlagRead(jobs, others, id, k), DEFAULT_BATCH_SIZE, n, total)
    requires !FlagRead(jobs, others, id, n / DEFAULT_BATCH_SIZE)
    ensures n == total
  {
    hide FlagRead, OneActive;
    var polls := n / DEFAULT_BATCH_SIZE;
    if polls > 0 && FlagRead(jobs, others, id, polls - 1) {
      FlagIsMonotone(jobs, others, id, polls - 1, polls);
    }
  }

  /** `_apply_result` and the save of the final status. */
  method Settle(table: JobTable, id: JobId, counts: Counts, status: Status)
    requires id in table.jobs && OneActive(table.jobs) && !Active(status)
    modifies table
    ensures id in table.jobs && table.jobs[id] == old(table.jobs)[id].(counts := counts, status := status)
    ensures OneActive(table.jobs) && CancelKept(old(table.jobs), table.jobs)
  {
    table.ApplyResult(id, counts);
    var saved := table.SaveStatus(id, status);
  }

  /** The end of a task, with all that others do to the job rows up to the save of its status. */
  method Conclude(table: JobTable, id: JobId, others: nat -> seq<JobOp>, polls: nat, counts: Counts, status: Status)
    requires id in table.jobs && OneActive(table.jobs) && !Active(status)
    modifies table
    ensures id in table.jobs && table.jobs[id].counts == counts && table.jobs[id].status == status
    ensures OneActive(table.jobs) && CancelKept(old(table.jobs), table.jobs)
  {
    hide OneActive, After, CancelKept;
    ghost var running := table.jobs;
    AfterKeeps(running, others, 0, polls + 2);
    ghost var later := After(running, others, polls + 2);
    table.jobs := After(table.jobs, others, polls + 2);
    StartOfAfter(running, others);
    StillThere(running, later, id);
    Settle(table, id, counts, status);
    CancelKeptTransitive(running, later, table.jobs);
  }

  lemma {:induction false} StartOfAfter(jobs: map<JobId, Job>, others: nat -> seq<JobOp>)
    ensures After(jobs, others, 0) == jobs
  {
  }

  /** The job's pass, with `others(k)` done to the job rows before the `k`-th read of its cancel flag,
      and one more group of operations between the last read and the save of the status.
      The task ends without settling the job if the database refuses to mark it running. */
  method RunMigrationTask(table: JobTable, id: JobId, site: Site, store: PayloadStore, column: UriColumn,
      others: nat -> seq<JobOp>, service: nat -> RecordService)
    returns (settled: Option<Status>, ghost at: nat)
    requires id in table.jobs && OneActive(table.jobs)
    requires WellFormed(site) && store.bucket == site.bucket && store.tenant == site.tenant
        && |column.uris| == |site.versions|
    modifies table, store.client, column
    ensures OneActive(table.jobs) && CancelKept(old(table.jobs), table.jobs) && id in table.jobs
    ensures settled.None? <==>
      exists a | a in old(table.jobs) && a != id :: IsActive(old(table.jobs), a, old(table.jobs)[id].org)
    ensures settled.None? ==> table.jobs == old(table.jobs)
    ensures settled.Some? ==> table.jobs[id].status == settled.value && at <= |site.versions|
    ensures Between(site, old(Now(store, column)), Now(store, column), |site.versions|)
    ensures old(table.jobs)[id].dryRun || settled.None? ==> Now(store, column) == old(Now(store, column))
    // A pass that returns has stopped at `at`; the counters are those of the records before, and they and
    // the last read of the flag decide.
    ensures settled.Some? && settled.value != Failed ==>
      var running := Apply(old(table.jobs), JobOp.SaveStatus(id, Running));
      var counts := table.jobs[id].counts;
      && StoppedBy((k: nat) => FlagRead(running, others, id, k), DEFAULT_BATCH_SIZE, at, |site.versions|)
      && counts == Finished(Tally(site, old(Now(store, column)), at, old(table.jobs)[id].dryRun))
      && (settled.value == Cancelled <==> FlagRead(running, others, id, at / 100))
      && (settled.value == Succeeded <==>
            && !FlagRead(running, others, id, at / DEFAULT_BATCH_SIZE)
            && (old(table.jobs)[id].dryRun || counts.missing == counts.conflicts == 0))
      && (settled.value == PartiallyFailed <==>
            && !FlagRead(running, others, id, at / DEFAULT_BATCH_SIZE)
            && !old(table.jobs)[id].dryRun && counts.missing + counts.conflicts > 0)
    // A pass that raises at record `at` has found no cancel before; the counters are those last saved.
    ensures settled == Some(Failed) ==>
      var running := Apply(old(table.jobs), JobOp.SaveStatus(id, Running));
      && at < |site.versions| && NoCancel((k: nat) => FlagRead(running, others, id, k), DEFAULT_BATCH_SIZE, at)
      && table.jobs[id].counts == LastSaved(site, old(Now(store, column)), at, DEFAULT_BATCH_SIZE,
                                            old(table.jobs)[id].dryRun, old(table.jobs)[id].counts)
    // With the store answering, it fails exactly at a blocked record of a real job, if it gets there.
    ensures settled.Some? && (forall i :: Answers(service(i))) ==>
      var s0 := old(Now(store, column));
      && (settled.value == Failed ==> !old(table.jobs)[id].dryRun && Blocked(site, s0, at) && NoneBlocked(site, s0, at))
      && (settled.value != Failed ==> old(table.jobs)[id].dryRun || NoneBlocked(site, s0, at))
    // So a real job fails if and only if a record is blocked and no read of the flag before it finds a cancel.
    ensures settled.Some? && (forall i :: Answers(service(i))) && !old(table.jobs)[id].dryRun ==>
      var running := Apply(old(table.jobs), JobOp.SaveStatus(id, Running));
      settled.value == Failed <==>
        BlockedBeforeCancel(site, old(Now(store, column)), (k: nat) => FlagRead(running, others, id, k),
            DEFAULT_BATCH_SIZE)
    // A job that ends well has done what it says.
    ensures settled == Some(Succeeded) ==>
      && at == |site.versions|
      && (!old(table.jobs)[id].dryRun ==>
            && Migrated(site, old(Now(store, column)), Now(store, column), |site.versions|)
            && table.jobs[id].counts.missing == table.jobs[id].counts.conflicts == 0
            && forall i | 0 <= i < |site.versions| :: column.uris[i] == TargetUri(site, i))
  {
    hide Copied, UriMoved, WellFormed, Tally, IsReady, TargetUri, OneActive, CancelKept, Admits, StoppedBy, Preserves,
        Answers, Blocked, NoneBlocked, NoCancel, LastSaved, After, Apply, FlagRead, Between, Migrated,
        BlockedBeforeCancel;
    ghost var s0 := Now(store, column);
    ghost var before := table.jobs;
    BetweenStart(site, s0);
    BetweenMore(site, s0, s0, 0, |site.versions|);
    var dryRun := table.jobs[id].dryRun;
    var saved := table.SaveStatus(id, Running);
    if saved.Err? {
      return None, 0;
    }
    var running := table.jobs;
    CountsKept(before, running, id);
    var progress := new ProgressSink(table.jobs[id].counts);
    var result;
    result, at := RunRawPayloadMigration(site, store, column, dryRun, DEFAULT_BATCH_SIZE, progress,
                                         (k: nat) => FlagRead(running, others, id, k), service);
    if !dryRun && forall i :: Answers(service(i)) {
      FailsExactlyAtBlocked(site, s0, (k: nat) => FlagRead(running, others, id, k), DEFAULT_BATCH_SIZE, at,
          result.Err?);
    }
    if result.Err? {
      Conclude(table, id, others, |site.versions|, progress.saved, Failed);
      CancelKeptTransitive(before, running, table.jobs);
      return Some(Failed), at;
    }
    var polls := result.value.inspected / DEFAULT_BATCH_SIZE;
    var status := FinalStatus(FlagRead(running, others, id, polls), dryRun, result.value.missing,
        result.value.conflicts);
    Conclude(table, id, others, polls, progress.saved, status);
    CancelKeptTransitive(before, running, table.jobs);
    if status == Succeeded {
      NotCutShort(running, others, id, result.value.inspected, |site.versions|);
      if !dryRun {
        AllMoved(site, s0, Now(store, column));
      }
    }
    return Some(status), at;
  }

  lemma {:induction false} CountsKept(before: map<JobId, Job>, running: map<JobId, Job>, id: JobId)
    requires running == Apply(before, JobOp.SaveStatus(id, Running)) && id in before
    ensures id in running && running[id].counts == before[id].counts && running[id].dryRun == before[id].dryRun
  {
    hide Admits;
  }

  /** With the store answering, a real job ends FAILED if and only if a record is blocked and no read of
      the flag before it found a cancel. */
  lemma {:induction false} FailsExactlyAtBlocked(site: Site, s0: Db, flag: nat -> bool, batchSize: nat, at: nat,
      failed: bool)
    requires batchSize > 0 && |site.versions| == |s0.uris| && at <= |site.versions|
    requires failed ==> at < |site.versions| && NoCancel(flag, batchSize, at)
    requires failed ==> Blocked(site, s0, at) && NoneBlocked(site, s0, at)
    requires !failed ==> StoppedBy(flag, batchSize, at, |site.versions|) && NoneBlocked(site, s0, at)
    ensures failed <==> BlockedBeforeCancel(site, s0, flag, batchSize)
  {
    hide Blocked;
    if failed {
      assert BlockedFirst(site, s0, flag, batchSize, at);
    } else if i :| BlockedFirst(site, s0, flag, batchSize, i) {
      BatchesGrow(at, i, batchSize);
    }
  }

  predicate BlockedBeforeCancel(site: Site, s0: Db, flag: nat -> bool, batchSize: nat)
    requires batchSize > 0 && |site.versions| == |s0.uris|
  {
    exists i | 0 <= i < |site.versions| :: BlockedFirst(site, s0, flag, batchSize, i)
  }

  predicate BlockedFirst(site: Site, s0: Db, flag: nat -> bool, batchSize: nat, i: int)
    requires batchSize > 0 && |site.versions| == |s0.uris|
  {
    0 <= i < |site.versions| && Blocked(site, s0, i) && NoCancel(flag, batchSize, i)
  }

  lemma {:induction false} BatchesGrow(a: nat, b: nat, size: nat)
    requires size > 0 && a <= b
    ensures a / size <= b / size
  {
    var d := a / size - b / size;
    assert d * size == (a / size) * size - (b / size) * size;
    FarFromZero(d, size);
  }

  /** A complete pass without missing or conflicting records leaves every URI in the tenant's form. */
  lemma {:induction false} AllMoved(site: Site, s0: Db, s: Db)
    requires WellFormed(site) && Migrated(site, s0, s, |site.versions|)
    requires Tally(site, s0, |site.versions|, false).missing == Tally(site, s0, |site.versions|, false).conflicts == 0
    ensures forall i | 0 <= i < |site.versions| :: s.uris[i] == TargetUri(site, i)
  {
    hide Tally, IsReady, Judge, TargetUri, Copied, WellFormed;
    CleanCount(site, s0, |site.versions|, false);
    forall i | 0 <= i < |site.versions| ensures s.uris[i] == TargetUri(site, i) {
      assert UriMoved(site, s0, s, |site.versions|, i);
      if !IsReady(site, s0, i) {
        AlreadyHasTargetUri(site, s0.objects, i, s0.uris[i]);
      }
    }
  }

  lemma {:induction false} AlreadyHasTargetUri(site: Site, objects: Objects, i: nat, uri: string)
    requires WellFormed(site) && i < |site.versions| && Judge(site, objects, site.versions[i], uri).AlreadyMigrated?
    ensures uri == TargetUri(site, i)
  {
    hide ParseUri, PrefixedKey, LogicalKey, Uri;
    ParseUriExact(site.bucket, uri, Target(site, i));
  }
}
