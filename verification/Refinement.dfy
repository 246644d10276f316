/** Capped, retried and continued equals one uncapped run: for a stable source, an execution that
    loses no checkpoint leaves the destination with exactly the rows of every page up to the end. */
module Refinement {
  import opened Prelude
  import opened Mapping
  import opened Claims
  import opened Protocol
  import opened RunInvariant
  import opened ProtocolInvariant
  import opened Chains
  import opened Delivery

  // ---- a stable source ------------------------------------------------------------------------

  /** The response has as many records as the source's page, and they map to the same rows; its bytes,
      and fields that are not mapped, may differ. */
  predicate FromPage(env: Env, resp: Response, page: nat) {
    && |resp.records| == |env.source(page).records|
    && MapRecords(resp.records, env.mapping, env.strict)
        == MapRecords(env.source(page).records, env.mapping, env.strict)
  }

  /** Every response received for a run of `ids` has the data the source holds for the page asked for. */
  predicate Stable(env: Env, trace: seq<Action>, ids: set<RunId>) {
    if trace == [] then true
    else
      var front := trace[..|trace| - 1];
      && Stable(env, front, ids)
      && (Execute(env, front).Some? ==> StableStep(env, Execute(env, front).value, trace[|trace| - 1], ids))
  }

  predicate StableStep(env: Env, s: State, a: Action, ids: set<RunId>) {
    a.Do? && a.ev.Respond? && Watches(s, a.task, ids) && s.workers[a.task].phase.Executing? ==>
      FromPage(env, a.ev.resp, s.workers[a.task].phase.page)
  }

  /** The task works for one of the runs `ids`. */
  predicate Watches(s: State, t: TaskId, ids: set<RunId>) {
    t in s.workers && s.workers[t].msg.run in ids
  }

  /** The source was stable for the run and those it continues; what others read does not matter. */
  predicate StableFor(env: Env, trace: seq<Action>, id: RunId) {
    && Execute(env, trace).Some? && id in Execute(env, trace).value.runs
    && Stable(env, trace, Execute(env, trace).value.runs[id].chain)
  }

  predicate FromSource(env: Env, rs: RunState) {
    && (forall i | 0 <= i < |rs.hist| :: FromPage(env, rs.hist[i].resp, rs.hist[i].page))
    && (rs.seen.Some? ==> FromPage(env, rs.seen.value.resp, rs.seen.value.page))
  }

  lemma {:induction false} AdvanceFromSource(env: Env, id: RunId, rs: RunState, w: Worker, ev: Event)
    requires Ready(env, id, rs, w) && Advance(env, rs, w, ev).Some? && FromSource(env, rs)
    requires ev.Respond? ==> FromPage(env, ev.resp, w.phase.page)
    ensures FromSource(env, Advance(env, rs, w, ev).value.run)
  {
    hide FromPage, MapRecords, RecordedIn, HistOk, AuditOk, DisjointOk, EndsOk;
    if ev.Checkpoint? {
      FlagLastShape(rs.hist);
    }
  }

  predicate AllFromSource(env: Env, runs: map<RunId, RunState>, ids: set<RunId>) {
    forall r | r in runs && r in ids :: FromSource(env, runs[r])
  }

  lemma {:induction false} DoFromSource(env: Env, s: State, t: TaskId, ev: Event, ids: set<RunId>)
    requires Inv(env, s) && DoNext(env, s, t, ev).Some? && StableStep(env, s, Do(t, ev), ids)
    requires AllFromSource(env, s.runs, ids)
    ensures AllFromSource(env, DoNext(env, s, t, ev).value.runs, ids)
  {
    hide RunOk, ExecOk, ChainsOk, QueueOk, Advance, FromSource;
    var w := s.workers[t];
    assert WorkerOk(env, s.runs, s.queue, t, w);
    AdvanceExecutes(env, s.runs[w.msg.run], w, ev);
    if w.msg.run in ids {
      AdvanceFromSource(env, w.msg.run, s.runs[w.msg.run], w, ev);
    }
  }

  lemma {:induction false} NextFromSource(env: Env, s: State, a: Action, ids: set<RunId>)
    requires Inv(env, s) && Next(env, s, a).Some? && StableStep(env, s, a, ids)
    requires a.Create? && a.run in ids && a.from.Some? ==> a.from.value in ids
    requires AllFromSource(env, s.runs, ids)
    ensures AllFromSource(env, Next(env, s, a).value.runs, ids)
  {
    hide Inv, DoNext, StableStep;
    if a.Do? {
      DoFromSource(env, s, a.task, a.ev, ids);
    }
  }

  lemma {:induction false} SourceHistory(env: Env, trace: seq<Action>, ids: set<RunId>)
    requires Execute(env, trace).Some? && Stable(env, trace, ids) && CreatesWithin(env, trace, ids)
    ensures AllFromSource(env, Execute(env, trace).value.runs, ids)
  {
    hide Next, Inv, FromSource, CreatesWithin, StableStep;
    if trace != [] {
      var front := trace[..|trace| - 1];
      WithinPrefix(env, trace, ids);
      SourceHistory(env, front, ids);
      Reachable(env, front);
      NextFromSource(env, Execute(env, front).value, trace[|trace| - 1], ids);
    }
  }

  lemma {:induction false} StableHistory(env: Env, trace: seq<Action>, id: RunId)
    requires StableFor(env, trace, id)
    ensures FromSource(env, Execute(env, trace).value.runs[id])
  {
    hide Execute, Stable, FromSource;
    ChainCreatedWithin(env, trace, id);
    SourceHistory(env, trace, Execute(env, trace).value.runs[id].chain);
  }

  // ---- executions that lose nothing -----------------------------------------------------------

  /** A page is committed but its checkpoint is not saved, or the last checkpoint ended the
      extraction but the run is not yet marked SUCCEEDED. */
  predicate InWindow(env: Env, s: State, t: TaskId)
    requires t in s.workers
  {
    var w := s.workers[t];
    && w.phase.Executing?
    && (w.phase.pc.Loaded? || w.phase.pc.Marked?
        || (w.phase.pc.Exhausted? && w.msg.run in s.runs && Ended(env, s.runs[w.msg.run].hist)))
  }

  /** For the runs `ids`: workers may die, and any step may fail, except inside the window; and no
      commit is reported as a failure. Fetch failures, rolled-back loads and page limits are all
      allowed, and to other runs anything may happen. */
  predicate CleanStep(env: Env, s: State, a: Action, ids: set<RunId>) {
    match a
    case Crash(t, _) => Watches(s, t, ids) ==> !InWindow(env, s, t)
    case Do(t, ev) => Watches(s, t, ids) ==> !ev.LoadLost? && (ev.Raise? ==> !InWindow(env, s, t))
    case _ => true
  }

  predicate Clean(env: Env, trace: seq<Action>, ids: set<RunId>) {
    if trace == [] then true
    else
      var front := trace[..|trace| - 1];
      && Clean(env, front, ids)
      && (Execute(env, front).Some? ==> CleanStep(env, Execute(env, front).value, trace[|trace| - 1], ids))
  }

  /** No checkpoint of the run or of a run it continues was lost. */
  predicate CleanFor(env: Env, trace: seq<Action>, id: RunId) {
    && Execute(env, trace).Some? && id in Execute(env, trace).value.runs
    && Clean(env, trace, Execute(env, trace).value.runs[id].chain)
  }

  /** The run's unfinished business is in the hands of a live worker. */
  predicate Busy(env: Env, s: State, id: RunId) {
    exists t :: t in s.workers && s.workers[t].msg.run == id && InWindow(env, s, t)
  }

  predicate CleanRun(env: Env, s: State, id: RunId)
    requires id in s.runs
  {
    var rs := s.runs[id];
    && rs.orphans == 0
    && !rs.replayed
    && (rs.pending || (!Terminal(rs.row.status) && Ended(env, rs.hist)) ==> Busy(env, s, id))
  }

  predicate CleanState(env: Env, s: State, ids: set<RunId>) {
    forall id | id in s.runs && id in ids :: CleanRun(env, s, id)
  }

  lemma {:induction false} AdvanceClean(env: Env, id: RunId, rs: RunState, w: Worker, ev: Event)
    requires Ready(env, id, rs, w) && Advance(env, rs, w, ev).Some?
    requires rs.orphans == 0 && !rs.replayed
    requires rs.pending || (!Terminal(rs.row.status) && Ended(env, rs.hist)) ==>
      w.phase.pc.Loaded? || w.phase.pc.Marked? || (w.phase.pc.Exhausted? && Ended(env, rs.hist))
    requires !ev.LoadLost?
    requires ev.Raise? ==> !(w.phase.pc.Loaded? || w.phase.pc.Marked?)
    ensures
      var eff := Advance(env, rs, w, ev).value;
      && eff.run.orphans == 0 && !eff.run.replayed
      && (eff.run.pending || (!Terminal(eff.run.row.status) && Ended(env, eff.run.hist)) ==>
            eff.worker.phase.Executing?
            && (eff.worker.phase.pc.Loaded? || eff.worker.phase.pc.Marked?
                || (eff.worker.phase.pc.Exhausted? && Ended(env, eff.run.hist))))
  {
    hide MapRecords, HistOk, AuditOk, DisjointOk, EndsOk, RecordedIn, Ended;
    if ev.Checkpoint? {
      CheckpointFacts(env, id, rs, w);
    }
  }

  lemma {:induction false} DoClean(env: Env, s: State, t: TaskId, ev: Event, ids: set<RunId>)
    requires Inv(env, s) && DoNext(env, s, t, ev).Some? && CleanState(env, s, ids) && CleanStep(env, s, Do(t, ev), ids)
    ensures CleanState(env, DoNext(env, s, t, ev).value, ids)
  {
    hide RunOk, ExecOk, ChainsOk, QueueOk, Advance, Ended;
    var w := s.workers[t];
    var id := w.msg.run;
    var s' := DoNext(env, s, t, ev).value;
    assert WorkerOk(env, s.runs, s.queue, t, w);
    AdvanceExecutes(env, s.runs[id], w, ev);
    if id in ids {
      assert CleanRun(env, s, id);
      if Busy(env, s, id) {
        var u :| u in s.workers && s.workers[u].msg.run == id && InWindow(env, s, u);
        assert Executes(s, t, id) && Executes(s, u, id);
        OneExecutor(env, s, t, u, id);
      }
      AdvanceClean(env, id, s.runs[id], w, ev);
    }
    DoKeeps(env, s, t, ev);
    forall r | r in s'.runs && r in ids ensures CleanRun(env, s', r) {
      assert CleanRun(env, s, r);
      if r == id {
        assert s'.workers[t].msg.run == id;
        assert InWindow(env, s', t) ==> Busy(env, s', id);
      } else if Busy(env, s, r) {
        var u :| u in s.workers && s.workers[u].msg.run == r && InWindow(env, s, u);
        assert u != t && s'.workers[u].msg.run == r && InWindow(env, s', u);
      }
    }
  }

  /** Steps that leave every run with its window workers as they are. */
  lemma {:induction false} FrameClean(env: Env, s: State, s': State, ids: set<RunId>)
    requires CleanState(env, s, ids) && s'.runs == s.runs
    requires forall t | Watches(s, t, ids) && InWindow(env, s, t) :: t in s'.workers && s'.workers[t] == s.workers[t]
    ensures CleanState(env, s', ids)
  {
    hide Ended;
    forall r | r in s'.runs && r in ids ensures CleanRun(env, s', r) {
      assert CleanRun(env, s, r);
      if Busy(env, s, r) {
        var u :| u in s.workers && s.workers[u].msg.run == r && InWindow(env, s, u);
        assert s'.workers[u].msg.run == r && InWindow(env, s', u);
      }
    }
  }

  lemma {:induction false} ClaimClean(env: Env, s: State, t: TaskId, maxPages: nat, ids: set<RunId>)
    requires Inv(env, s) && ClaimNext(env, s, t, maxPages).Some? && CleanState(env, s, ids)
    ensures CleanState(env, ClaimNext(env, s, t, maxPages).value, ids)
  {
    hide RunOk, ExecOk, ChainsOk, QueueOk, RunsOk, Ended;
    var id := s.workers[t].msg.run;
    assert WorkerOk(env, s.runs, s.queue, t, s.workers[t]);
    var s' := ClaimNext(env, s, t, maxPages).value;
    if id in ids {
      assert CleanRun(env, s, id);
      if Busy(env, s, id) {
        var u :| u in s.workers && s.workers[u].msg.run == id && InWindow(env, s, u);
        assert Executes(s, u, id);
        ClaimableIsIdle(env, s, t, u);
      }
    }
    forall r | r in s'.runs && r in ids ensures CleanRun(env, s', r) {
      assert CleanRun(env, s, r);
      if Busy(env, s, r) {
        var u :| u in s.workers && s.workers[u].msg.run == r && InWindow(env, s, u);
        assert s'.workers[u].msg.run == r && InWindow(env, s', u);
      }
    }
  }

  lemma {:induction false} CreateClean(env: Env, s: State, id: RunId, from: Option<RunId>, ids: set<RunId>)
    requires Inv(env, s) && CreateNext(s, id, from).Some? && CleanState(env, s, ids)
    requires id in ids && from.Some? ==> from.value in ids
    ensures CleanState(env, CreateNext(s, id, from).value, ids)
  {
    hide ExecOk, ChainsOk, QueueOk, WorkersOk, HistOk, AuditOk, DisjointOk, EndsOk;
    var s' := CreateNext(s, id, from).value;
    forall r | r in s'.runs && r in ids ensures CleanRun(env, s', r) {
      if r == id {
        if from.Some? {
          assert RunOk(env, from.value, s.runs[from.value]);
          assert CleanRun(env, s, from.value);
        }
      } else {
        assert CleanRun(env, s, r);
        if Busy(env, s, r) {
          var u :| u in s.workers && s.workers[u].msg.run == r && InWindow(env, s, u);
          assert s'.workers[u].msg.run == r && InWindow(env, s', u);
        }
      }
    }
  }

  lemma {:induction false} NextClean(env: Env, s: State, a: Action, ids: set<RunId>)
    requires Inv(env, s) && Next(env, s, a).Some? && CleanState(env, s, ids) && CleanStep(env, s, a, ids)
    requires a.Create? && a.run in ids && a.from.Some? ==> a.from.value in ids
    ensures CleanState(env, Next(env, s, a).value, ids)
  {
    hide Inv, CleanState, Advance, ClaimStep, Charge, RemoveMsg, Ended;
    match a
    case Create(run, from) => CreateClean(env, s, run, from, ids);
    case Claim(task, maxPages) => ClaimClean(env, s, task, maxPages, ids);
    case Do(task, ev) => DoClean(env, s, task, ev, ids);
    case _ => FrameClean(env, s, Next(env, s, a).value, ids);
  }

  lemma {:induction false} CleanStates(env: Env, trace: seq<Action>, ids: set<RunId>)
    requires Execute(env, trace).Some? && Clean(env, trace, ids) && CreatesWithin(env, trace, ids)
    ensures CleanState(env, Execute(env, trace).value, ids)
  {
    hide Next, Inv, CreatesWithin, CleanStep;
    if trace != [] {
      var front := trace[..|trace| - 1];
      WithinPrefix(env, trace, ids);
      CleanStates(env, front, ids);
      Reachable(env, front);
      NextClean(env, Execute(env, front).value, trace[|trace| - 1], ids);
    }
  }

  /** A chain that never fails inside the window orphans no commit and replays no ending page. */
  lemma {:induction false} CleanHistory(env: Env, trace: seq<Action>, id: RunId)
    requires CleanFor(env, trace, id)
    ensures CleanRun(env, Execute(env, trace).value, id)
  {
    hide Execute, Clean, CleanRun;
    ChainCreatedWithin(env, trace, id);
    CleanStates(env, trace, Execute(env, trace).value.runs[id].chain);
  }

  // ---- the reference --------------------------------------------------------------------------

  /** The rows a page of the source maps to. */
  function PageRows(env: Env, page: nat): seq<Mapping.Row> {
    match MapRecords(env.source(page).records, env.mapping, env.strict)
    case Ok(rows) => rows
    case Err(_) => []
  }

  /** The rows of the pages in `[from, to)`, in page order. */
  function FullRows(env: Env, from: nat, to: nat): seq<Mapping.Row> {
    if from >= to then [] else FullRows(env, from, to - 1) + PageRows(env, to - 1)
  }

  /** `page` is the first one, from the start page on, that ends the extraction. */
  predicate FirstEnd(env: Env, page: nat) {
    && env.startPage <= page
    && EndsExtraction(env, env.source(page))
    && forall q | env.startPage <= q < page :: !EndsExtraction(env, env.source(q))
  }

  lemma {:induction false} EndCountZero(env: Env, rec: seq<Commit>, k: nat)
    requires k <= |rec| && EndCount(env, rec) == 0
    ensures EndCount(env, rec[..k]) == 0
    decreases |rec| - k
  {
    if k == |rec| {
      assert rec[..k] == rec;
    } else {
      EndCountZero(env, rec[..|rec| - 1], k);
      assert rec[..|rec| - 1][..k] == rec[..k];
    }
  }

  lemma {:induction false} FullRowsNext(env: Env, from: nat, to: nat)
    requires from <= to
    ensures FullRows(env, from, to + 1) == FullRows(env, from, to) + PageRows(env, to)
  {
    hide PageRows;
  }

  /** The `i`-th commit is of the `i`-th page, as the source holds it. */
  predicate OnSource(env: Env, hist: seq<Commit>, i: nat)
    requires i < |hist|
  {
    && hist[i].page == env.startPage + i && FromPage(env, hist[i].resp, hist[i].page)
    && MapRecords(hist[i].resp.records, env.mapping, env.strict) == Ok(hist[i].rows)
  }

  lemma {:induction false} OnSourceRows(env: Env, hist: seq<Commit>, i: nat)
    requires i < |hist| && OnSource(env, hist, i)
    ensures hist[i].rows == PageRows(env, env.startPage + i)
  {
    hide MapRecords;
  }

  /** Consecutive pages of a stable source hold the reference rows. */
  lemma {:induction false} ConsecutiveRows(env: Env, hist: seq<Commit>)
    requires forall i | 0 <= i < |hist| :: OnSource(env, hist, i)
    ensures Flatten(HistRows(hist)) == FullRows(env, env.startPage, env.startPage + |hist|)
  {
    hide FullRows, PageRows, OnSource, HistRows, Flatten;
    if hist == [] {
      NoRowsYet(env);
    } else {
      var n := |hist| - 1;
      FrontOnSource(env, hist);
      ConsecutiveRows(env, hist[..n]);
      LastRows(hist);
      OnSourceRows(env, hist, n);
      FullRowsNext(env, env.startPage, env.startPage + n);
    }
  }

  lemma {:induction false} NoRowsYet(env: Env)
    ensures Flatten(HistRows([])) == FullRows(env, env.startPage, env.startPage)
  {
    assert HistRows([]) == [];
  }

  lemma {:induction false} LastRows(hist: seq<Commit>)
    requires hist != []
    ensures Flatten(HistRows(hist)) == Flatten(HistRows(hist[..|hist| - 1])) + hist[|hist| - 1].rows
  {
    var front, last := hist[..|hist| - 1], hist[|hist| - 1];
    assert HistRows(hist) == HistRows(front) + [last.rows];
    FlattenAppend(HistRows(front), last.rows);
  }

  lemma {:induction false} FrontOnSource(env: Env, hist: seq<Commit>)
    requires hist != [] && forall i | 0 <= i < |hist| :: OnSource(env, hist, i)
    ensures var front := hist[..|hist| - 1];
      forall i | 0 <= i < |front| :: OnSource(env, front, i)
  {
    hide MapRecords;
    var front := hist[..|hist| - 1];
    forall i | 0 <= i < |front| ensures OnSource(env, front, i) {
      assert OnSource(env, hist, i);
    }
  }

  /** With nothing orphaned or replayed, the commits are the consecutive pages from the start page. */
  lemma {:induction false} ConsecutivePages(env: Env, rs: RunState, k: nat)
    requires CountersOk(env, rs.row, RecordedIn(rs.hist)) && RecordedIn(rs.hist) == rs.hist
    requires EndsOk(env, rs.hist, false) && k < |rs.hist|
    ensures rs.hist[k].page == env.startPage + k
  {
    var hist := rs.hist;
    RecordedCount(env, hist, k);
    var front := hist[..|hist| - 1];
    assert EndCount(env, front) == 0;
    EndCountZero(env, front, k);
    assert front[..k] == hist[..k];
    assert Linked(env, hist, k);
  }

  /** The first end of the source is the page a SUCCEEDED run's cursor names. */
  lemma {:induction false} SucceededAtFirstEnd(env: Env, trace: seq<Action>, id: RunId)
    requires StableFor(env, trace, id)
    requires Execute(env, trace).value.runs[id].row.status == Succeeded
    ensures FirstEnd(env, CursorPage(env, Execute(env, trace).value.runs[id].row))
  {
    hide Execute, Stable, RecordedIn, MapRecords, HistOk, AuditOk, DisjointOk, EndsOk;
    var rs := Execute(env, trace).value.runs[id];
    HistoryFacts(env, trace, id);
    NoSilentTruncation(env, trace, id);
    StableHistory(env, trace, id);
    var rec := RecordedIn(rs.hist);
    if rec != [] {
      PagesAboveStart(env, rec, |rec| - 1);
    }
    forall q | env.startPage <= q < CursorPage(env, rs.row) ensures !EndsExtraction(env, env.source(q)) {
      assert HasRecordedPage(env, rs.hist, q);
    }
  }

  lemma {:induction false} CleanFacts(env: Env, trace: seq<Action>, id: RunId)
    requires CleanFor(env, trace, id)
    requires Execute(env, trace).value.runs[id].row.status == Succeeded
    ensures var rs := Execute(env, trace).value.runs[id];
      && RecordedIn(rs.hist) == rs.hist
      && EndsOk(env, rs.hist, false)
      && |rs.hist| == CursorPage(env, rs.row) - env.startPage + EndCount(env, rs.hist)
  {
    hide Execute, Clean, RecordedIn, MapRecords, AuditOk, DisjointOk, Ended;
    CleanHistory(env, trace, id);
    var rs := Execute(env, trace).value.runs[id];
    HistoryFacts(env, trace, id);
    RecordedLength(rs.hist);
    CommitAccount(env, trace, id);
  }

  /** The refinement theorem. For a stable source, any mix of retryable failures, rolled-back loads,
      crashes outside the window and page-limit continuations, with any cap per attempt, that ends
      SUCCEEDED leaves the destination with exactly the rows of the pages up to the first end. */
  lemma {:induction false} SucceededLoadsEverythingOnce(env: Env, trace: seq<Action>, id: RunId)
    requires StableFor(env, trace, id) && CleanFor(env, trace, id)
    requires Execute(env, trace).value.runs[id].row.status == Succeeded
    ensures
      var s := Execute(env, trace).value;
      var end := CursorPage(env, s.runs[id].row);
      && FirstEnd(env, end)
      && Flatten(ByChain(s.dest, s.runs[id].chain)) == FullRows(env, env.startPage, end + 1)
  {
    hide Execute, Stable, Clean, RecordedIn, MapRecords, HistOk, AuditOk, DisjointOk, HasRecordedPage, ByChain,
        FullRows, EndsOk, Chained, RecordTotal, OnSource, RowsOk;
    var s := Execute(env, trace).value;
    var rs := s.runs[id];
    SucceededAtFirstEnd(env, trace, id);
    CleanFacts(env, trace, id);
    HistoryFacts(env, trace, id);
    StableHistory(env, trace, id);
    NoSilentTruncation(env, trace, id);
    DestinationIsHistory(env, trace);
    AllOnSource(env, rs);
    ConsecutiveRows(env, rs.hist);
    LastPageRows(env, rs);
  }

  lemma {:induction false} AllOnSource(env: Env, rs: RunState)
    requires CountersOk(env, rs.row, RecordedIn(rs.hist)) && RecordedIn(rs.hist) == rs.hist
    requires EndsOk(env, rs.hist, false) && FromSource(env, rs) && RowsOk(env, rs.hist)
    ensures forall k | 0 <= k < |rs.hist| :: OnSource(env, rs.hist, k)
  {
    hide RecordedIn, MapRecords, EndsOk, CountersOk;
    forall k | 0 <= k < |rs.hist| ensures OnSource(env, rs.hist, k) {
      ConsecutivePages(env, rs, k);
    }
  }

  lemma {:induction false} EmptyPageRows(env: Env, page: nat)
    requires env.source(page).records == []
    ensures PageRows(env, page) == []
  {
  }

  /** The ending page is either the last commit or an empty page that adds no rows. */
  lemma {:induction false} LastPageRows(env: Env, rs: RunState)
    requires CountersOk(env, rs.row, rs.hist) && RecordedIn(rs.hist) == rs.hist && EndsOk(env, rs.hist, false)
    requires RunSawEnd(env, rs) && FromPage(env, rs.seen.value.resp, rs.seen.value.page)
    requires |rs.hist| == CursorPage(env, rs.row) - env.startPage + EndCount(env, rs.hist)
    requires env.startPage <= CursorPage(env, rs.row)
    ensures FullRows(env, env.startPage, env.startPage + |rs.hist|)
        == FullRows(env, env.startPage, CursorPage(env, rs.row) + 1)
  {
    hide Chained, RecordTotal, MapRecords, FullRows, PageRows;
    var end := CursorPage(env, rs.row);
    FullRowsNext(env, env.startPage, end);
    if Ended(env, rs.hist) {
      assert |rs.hist| == end - env.startPage + 1;
    } else {
      EmptyPageRows(env, end);
    }
  }

  lemma FirstEndUnique(env: Env, p: nat, q: nat)
    requires FirstEnd(env, p) && FirstEnd(env, q)
    ensures p == q
  {
  }

  /** Any two clean executions over the same stable source that succeed, however they were capped,
      retried and continued, leave their destinations with the same rows in the same order; in
      particular, the one that runs uncapped without a failure. */
  lemma {:induction false} CappedEqualsUncapped(env: Env, capped: seq<Action>, id: RunId, uncapped: seq<Action>,
      one: RunId)
    requires StableFor(env, capped, id) && CleanFor(env, capped, id)
    requires StableFor(env, uncapped, one) && CleanFor(env, uncapped, one)
    requires Execute(env, capped).value.runs[id].row.status == Succeeded
    requires Execute(env, uncapped).value.runs[one].row.status == Succeeded
    ensures
      var s, u := Execute(env, capped).value, Execute(env, uncapped).value;
      Flatten(ByChain(s.dest, s.runs[id].chain)) == Flatten(ByChain(u.dest, u.runs[one].chain))
  {
    hide Execute, Stable, Clean, ByChain, FullRows;
    SucceededLoadsEverythingOnce(env, capped, id);
    SucceededLoadsEverythingOnce(env, uncapped, one);
    FirstEndUnique(env, CursorPage(env, Execute(env, capped).value.runs[id].row),
                   CursorPage(env, Execute(env, uncapped).value.runs[one].row));
  }

  /** For a stable source the cursor of a page-limit failure counts pages: it is the start page
      plus the pages extracted since the root run. */
  lemma {:induction false} PageLimitCountsPages(env: Env, trace: seq<Action>, id: RunId)
    requires StableFor(env, trace, id)
    requires IsContinuable(Execute(env, trace).value.runs[id].row)
    ensures var row := Execute(env, trace).value.runs[id].row;
      row.cursor == Some(env.startPage + row.pagesExtracted)
  {
    hide Execute, Stable, RecordedIn, MapRecords, AuditOk, DisjointOk, EndsOk, HasRecordedPage;
    var rs := Execute(env, trace).value.runs[id];
    HistoryFacts(env, trace, id);
    StableHistory(env, trace, id);
    var rec := RecordedIn(rs.hist);
    forall k | 0 <= k < |rec| ensures FromPage(env, rec[k].resp, rec[k].page) {
      RecordedMembers(rs.hist, rec[k]);
    }
    NoEndBefore(env, rec, |rec|);
    RecordedCount(env, rec, |rec|);
    assert rec[..|rec|] == rec;
  }

  /** A stable source that has ended stays ended: if the last recorded page did not end the
      extraction, none did. */
  lemma {:induction false} NoEndBefore(env: Env, rec: seq<Commit>, n: nat)
    requires Chained(env, rec) && 0 < n <= |rec|
    requires forall k | 0 <= k < |rec| :: FromPage(env, rec[k].resp, rec[k].page)
    requires !EndsExtraction(env, rec[n - 1].resp)
    ensures EndCount(env, rec[..n]) == 0
  {
    assert rec[..n][..n - 1] == rec[..n - 1];
    if n > 1 {
      assert Linked(env, rec, n - 1);
      NoEndBefore(env, rec, n - 1);
    }
  }
}
