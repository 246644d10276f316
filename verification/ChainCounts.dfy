/** Numbers along a chain of continued runs: claims are attempts, and raw-record rows never share a
    sequence number with those of an ancestor, whether their page was committed or not. */
module ChainCounts {
  import opened Prelude
  import opened Mapping
  import opened Claims
  import opened Protocol
  import opened RunInvariant
  import opened ProtocolInvariant
  import opened Delivery

  type Raws = map<(nat, string), bool>

  predicate RawsUpTo(raws: Raws, n: nat) {
    forall key | key in raws :: key.0 <= n
  }

  predicate RawsAfter(raws: Raws, n: nat) {
    forall key | key in raws :: key.0 > n
  }

  predicate AtCap(w: Worker) {
    w.phase.Executing?
    && ((w.phase.pc.Raised? && w.phase.pc.err.category.PageLimitExceededError?)
        || (w.phase.pc.Recorded? && w.phase.pc.err.category.PageLimitExceededError?))
  }

  /** A run may have stored the page after the last recorded one, but not when it stopped at its cap. */
  predicate RunRaws(rs: RunState) {
    RawsUpTo(rs.raws, rs.row.pagesExtracted + 1) && (IsContinuable(rs.row) ==> RawsUpTo(rs.raws, rs.row.pagesExtracted))
  }

  /** What an event does to the raw rows and to the numbers that count them. */
  predicate RawsKept(rs: RunState, eff: Effect) {
    && RunRaws(eff.run) && (AtCap(eff.worker) ==> RawsUpTo(eff.run.raws, eff.run.row.pagesExtracted))
    && (forall base: nat | base <= rs.row.pagesExtracted && RawsAfter(rs.raws, base) :: RawsAfter(eff.run.raws, base))
    && eff.run.claims == rs.claims
    && (Terminal(rs.row.status) ==> eff.run.raws == rs.raws)
  }

  lemma {:induction false} CheckpointRaws(env: Env, id: RunId, rs: RunState, w: Worker)
    requires Ready(env, id, rs, w) && OnCheckpoint(env, rs, w).Some? && RunRaws(rs)
    ensures RawsKept(rs, OnCheckpoint(env, rs, w).value)
  {
    hide MapRecords, RunOk, RecordedIn, AtCursor, RunSawEnd, EndsExtraction, FlagLast, IsContinuable;
    assert OnCheckpoint(env, rs, w).value.run.row.pagesExtracted == rs.row.pagesExtracted + 1;
    assert OnCheckpoint(env, rs, w).value.run.raws == rs.raws;
  }

  lemma {:induction false} StoreRaws(env: Env, id: RunId, rs: RunState, w: Worker, ev: Event)
    requires Ready(env, id, rs, w) && Advance(env, rs, w, ev).Some? && (ev.StoreRaw? || ev.MarkLoaded?)
    requires RunRaws(rs)
    ensures RawsKept(rs, Advance(env, rs, w, ev).value)
  {
    hide MapRecords, RunOk, RecordedIn, AtCursor, RunSawEnd, OnCheckpoint, OnRespond, OnLoad, OnRaise, OnFinish,
        OnRecordFailure, OnDecide;
  }

  lemma {:induction false} FailureRaws(env: Env, id: RunId, rs: RunState, w: Worker)
    requires Ready(env, id, rs, w) && OnRecordFailure(rs, w).Some?
    requires RunRaws(rs) && (AtCap(w) ==> RawsUpTo(rs.raws, rs.row.pagesExtracted))
    ensures RawsKept(rs, OnRecordFailure(rs, w).value)
  {
    hide RunOk, RecordedIn, AtCursor, RunSawEnd, RawsUpTo;
  }

  lemma {:induction false} AdvanceRaws(env: Env, id: RunId, rs: RunState, w: Worker, ev: Event)
    requires Ready(env, id, rs, w) && Advance(env, rs, w, ev).Some?
    requires RunRaws(rs) && (AtCap(w) ==> RawsUpTo(rs.raws, rs.row.pagesExtracted))
    ensures RawsKept(rs, Advance(env, rs, w, ev).value)
  {
    hide MapRecords, RunOk, RecordedIn, AtCursor, RunSawEnd, OnCheckpoint, OnStoreRaw, OnMarkLoaded, OnRecordFailure,
        RawsUpTo;
    if ev.Checkpoint? {
      CheckpointRaws(env, id, rs, w);
    } else if ev.StoreRaw? || ev.MarkLoaded? {
      StoreRaws(env, id, rs, w, ev);
    } else if ev.RecordFailure? {
      FailureRaws(env, id, rs, w);
    }
  }

  /** The pages a continuation starts from. */
  function Base(runs: map<RunId, RunState>, id: RunId): nat
    requires id in runs
  {
    var from := runs[id].row.continuedFrom;
    if from.Some? && from.value in runs then runs[from.value].row.pagesExtracted else 0
  }

  function ClaimsBefore(runs: map<RunId, RunState>, id: RunId): nat
    requires id in runs
  {
    var from := runs[id].row.continuedFrom;
    if from.Some? && from.value in runs then runs[from.value].claims else 0
  }

  /** A continuation links to a finished run, whose chain it extends. */
  predicate Extends(runs: map<RunId, RunState>, id: RunId)
    requires id in runs
  {
    var rs := runs[id];
    match rs.row.continuedFrom
    case None => rs.chain == {id}
    case Some(p) =>
      p in runs && Terminal(runs[p].row.status) && id !in runs[p].chain && p in runs[p].chain
          && rs.chain == runs[p].chain + {id}
  }

  predicate CountOk(runs: map<RunId, RunState>, id: RunId)
    requires id in runs
  {
    var rs := runs[id];
    && Extends(runs, id) && RunRaws(rs)
    && rs.claims == rs.row.attempt + ClaimsBefore(runs, id)
    && Base(runs, id) <= rs.row.pagesExtracted && RawsAfter(rs.raws, Base(runs, id))
    && (forall a | a in rs.chain && a != id && a in runs :: RawsUpTo(runs[a].raws, Base(runs, id)))
  }

  predicate CountsOk(s: State) {
    && (forall id | id in s.runs :: CountOk(s.runs, id))
    && (forall t | t in s.workers && AtCap(s.workers[t]) && s.workers[t].msg.run in s.runs ::
          var rs := s.runs[s.workers[t].msg.run]; RawsUpTo(rs.raws, rs.row.pagesExtracted))
  }

  /** One run changes: as its own counts ask, and not at all in what its continuations look at once
      it has finished. */
  predicate Changes(before: RunState, after: RunState, claims: nat) {
    && RunRaws(after)
    && after.chain == before.chain && after.row.continuedFrom == before.row.continuedFrom
    && after.claims == before.claims + claims && after.row.attempt == before.row.attempt + claims
    && before.row.pagesExtracted <= after.row.pagesExtracted
    && (forall base: nat | base <= before.row.pagesExtracted && RawsAfter(before.raws, base) ::
        RawsAfter(after.raws, base))
    && (Terminal(before.row.status) ==>
          Terminal(after.row.status) && after.raws == before.raws && after.claims == before.claims
          && after.row.pagesExtracted == before.row.pagesExtracted)
  }

  lemma {:induction false} ChangeKeeps(runs: map<RunId, RunState>, r: RunId, after: RunState, claims: nat)
    requires r in runs && (forall id | id in runs :: CountOk(runs, id))
    requires ChainsOk(runs) && Changes(runs[r], after, claims)
    ensures forall id | id in runs :: CountOk(runs[r := after], id)
  {
    hide RunRaws, RawsUpTo, RawsAfter;
    var runs' := runs[r := after];
    forall id | id in runs ensures CountOk(runs', id) {
      assert CountOk(runs, id);
      if r in runs[id].chain && r != id {
        assert Terminal(runs[r].row.status);
      }
    }
  }

  lemma {:induction false} DoCounts(env: Env, s: State, t: TaskId, ev: Event)
    requires Inv(env, s) && CountsOk(s) && DoNext(env, s, t, ev).Some?
    ensures CountsOk(DoNext(env, s, t, ev).value)
  {
    hide RunOk, PcOk, PcStatusOk, Advance, CountOk, RunRaws, RawsUpTo, RawsAfter, QueueOk;
    var w := s.workers[t];
    var id := w.msg.run;
    var s' := DoNext(env, s, t, ev).value;
    assert WorkerOk(env, s.runs, s.queue, t, w);
    AdvanceExecutes(env, s.runs[id], w, ev);
    DoKeeps(env, s, t, ev);
    RawsOf(s, id);
    AdvanceRaws(env, id, s.runs[id], w, ev);
    FrozenPages(s.runs[id].row, s'.runs[id].row);
    ChangeKeeps(s.runs, id, s'.runs[id], 0);
    forall u | u in s'.workers && AtCap(s'.workers[u]) && s'.workers[u].msg.run in s'.runs
      ensures RawsUpTo(s'.runs[s'.workers[u].msg.run].raws, s'.runs[s'.workers[u].msg.run].row.pagesExtracted)
    {
      if u != t {
        Elsewhere(env, s, t, u, id);
      }
    }
  }

  lemma {:induction false} RawsOf(s: State, id: RunId)
    requires CountsOk(s) && id in s.runs
    ensures RunRaws(s.runs[id])
  {
    hide RunRaws, RawsUpTo, RawsAfter;
    assert CountOk(s.runs, id);
  }

  lemma {:induction false} FrozenPages(before: Claims.Row, after: Claims.Row)
    requires Forward(before, after)
    ensures before.pagesExtracted <= after.pagesExtracted && after.continuedFrom == before.continuedFrom
    ensures Terminal(before.status) ==> Terminal(after.status) && after.pagesExtracted == before.pagesExtracted
  {
  }

  /** Another executing worker has another run. */
  lemma {:induction false} Elsewhere(env: Env, s: State, t: TaskId, u: TaskId, id: RunId)
    requires Inv(env, s) && Executes(s, t, id) && u in s.workers && u != t && s.workers[u].phase.Executing?
    ensures s.workers[u].msg.run != id
  {
    hide Inv;
    if Executes(s, u, id) {
      OneExecutor(env, s, t, u, id);
    }
  }

  lemma {:induction false} ClaimCounts(env: Env, s: State, t: TaskId, maxPages: nat)
    requires Inv(env, s) && CountsOk(s) && ClaimNext(env, s, t, maxPages).Some?
    ensures CountsOk(ClaimNext(env, s, t, maxPages).value)
  {
    hide RunOk, PcOk, PcStatusOk, CountOk, RawsUpTo, RawsAfter, QueueOk, Ended, CursorPage;
    var id := s.workers[t].msg.run;
    var s' := ClaimNext(env, s, t, maxPages).value;
    RawsOf(s, id);
    ChangeKeeps(s.runs, id, s'.runs[id], 1);
    forall u | u in s'.workers && AtCap(s'.workers[u]) && s'.workers[u].msg.run in s'.runs
      ensures RawsUpTo(s'.runs[s'.workers[u].msg.run].raws, s'.runs[s'.workers[u].msg.run].row.pagesExtracted)
    {
      assert u != t;
    }
  }

  lemma {:induction false} OldRunCounts(runs: map<RunId, RunState>, id: RunId, run: RunState, r: RunId)
    requires id !in runs && r in runs && CountOk(runs, r) && id !in runs[r].chain
    ensures CountOk(runs[id := run], r)
  {
    hide RunRaws, RawsUpTo, RawsAfter;
  }

  lemma {:induction false} NewRunCounts(runs: map<RunId, RunState>, id: RunId, from: Option<RunId>)
    requires id !in runs
    requires from.Some? ==>
      && from.value in runs && CountOk(runs, from.value) && IsContinuable(runs[from.value].row)
      && from.value in runs[from.value].chain && id !in runs[from.value].chain
    ensures
      var run := NewRun(id, if from.None? then None else Some((from.value, runs[from.value])));
      CountOk(runs[id := run], id)
  {
    var run := NewRun(id, if from.None? then None else Some((from.value, runs[from.value])));
    EmptyRaws(run.raws);
    if from.Some? {
      ParentRaws(runs, from.value);
    }
    hide RawsUpTo, RawsAfter;
  }

  /** A run that stopped at its cap, and its ancestors, have no raw rows beyond its pages. */
  lemma {:induction false} ParentRaws(runs: map<RunId, RunState>, p: RunId)
    requires p in runs && CountOk(runs, p) && IsContinuable(runs[p].row)
    ensures forall a | a in runs[p].chain && a in runs :: RawsUpTo(runs[a].raws, runs[p].row.pagesExtracted)
  {
  }

  lemma {:induction false} CreateCounts(env: Env, s: State, id: RunId, from: Option<RunId>)
    requires Inv(env, s) && CountsOk(s) && CreateNext(s, id, from).Some?
    ensures CountsOk(CreateNext(s, id, from).value)
  {
    hide RunOk, ExecOk, QueueOk, AtCap, CountOk, NewRun;
    var s' := CreateNext(s, id, from).value;
    if from.Some? {
      ParentInChain(env, s, from.value);
    }
    NewRunCounts(s.runs, id, from);
    forall r | r in s.runs ensures CountOk(s'.runs, r) {
      OldRunCounts(s.runs, id, s'.runs[id], r);
    }
    forall u | u in s.workers ensures s.workers[u].msg.run in s.runs {
      assert WorkerOk(env, s.runs, s.queue, u, s.workers[u]);
    }
  }

  lemma {:induction false} EmptyRaws(raws: Raws)
    requires raws == map[]
    ensures forall n :: RawsUpTo(raws, n) && RawsAfter(raws, n)
  {
  }

  lemma {:induction false} ParentInChain(env: Env, s: State, id: RunId)
    requires Inv(env, s) && id in s.runs
    ensures id in s.runs[id].chain
  {
    hide Inv;
    ChainHasSelf(env, s, id);
  }

  lemma {:induction false} NextCounts(env: Env, s: State, a: Action)
    requires Inv(env, s) && CountsOk(s) && Next(env, s, a).Some?
    ensures CountsOk(Next(env, s, a).value)
  {
    hide Inv, CountOk, DoNext, CreateNext, ClaimNext, RawsUpTo;
    match a
    case Create(run, from) => CreateCounts(env, s, run, from);
    case Claim(task, maxPages) => ClaimCounts(env, s, task, maxPages);
    case Do(task, ev) => DoCounts(env, s, task, ev);
    case _ =>
  }

  lemma {:induction false} CountsAlways(env: Env, trace: seq<Action>)
    requires Execute(env, trace).Some?
    ensures CountsOk(Execute(env, trace).value)
  {
    hide Next, Inv;
    if trace != [] {
      var front := trace[..|trace| - 1];
      CountsAlways(env, front);
      Reachable(env, front);
      NextCounts(env, Execute(env, front).value, trace[|trace| - 1]);
    }
  }

  // ---- results --------------------------------------------------------------------------------

  predicate AllExtend(runs: map<RunId, RunState>) {
    forall id | id in runs :: Extends(runs, id)
  }

  /** The attempts of a run and of all the runs it continues. */
  function ChainAttempts(runs: map<RunId, RunState>, id: RunId): nat
    requires AllExtend(runs) && id in runs
    decreases runs[id].chain
  {
    assert Extends(runs, id);
    match runs[id].row.continuedFrom
    case None => runs[id].row.attempt
    case Some(p) => runs[id].row.attempt + ChainAttempts(runs, p)
  }

  lemma {:induction false} CountsExtend(s: State)
    requires CountsOk(s)
    ensures AllExtend(s.runs)
  {
    hide RunRaws, RawsAfter, RawsUpTo;
    forall id | id in s.runs ensures Extends(s.runs, id) {
      assert CountOk(s.runs, id);
    }
  }

  lemma {:induction false} ClaimsAreAttempts(s: State, id: RunId)
    requires CountsOk(s) && AllExtend(s.runs) && id in s.runs
    ensures s.runs[id].claims == ChainAttempts(s.runs, id)
    decreases s.runs[id].chain
  {
    hide RunRaws, RawsAfter, RawsUpTo;
    assert CountOk(s.runs, id);
    if s.runs[id].row.continuedFrom.Some? {
      ClaimsAreAttempts(s, s.runs[id].row.continuedFrom.value);
    }
  }

  /** No page is committed more often than the run and the runs it continues were attempted; and no
      more checkpoints were lost. Both can be read off the `attempt` columns of the chain. */
  lemma {:induction false} CopiesWithinAttempts(env: Env, trace: seq<Action>, id: RunId, page: nat)
    requires Execute(env, trace).Some? && id in Execute(env, trace).value.runs
    ensures var s := Execute(env, trace).value;
      && AllExtend(s.runs)
      && s.runs[id].claims == ChainAttempts(s.runs, id)
      && Copies(s.runs[id].hist, page) <= ChainAttempts(s.runs, id)
      && s.runs[id].orphans + (if s.runs[id].pending then 1 else 0) <= ChainAttempts(s.runs, id)
  {
    hide Execute, CountsOk, AllExtend;
    CountsAlways(env, trace);
    CountsExtend(Execute(env, trace).value);
    ClaimsAreAttempts(Execute(env, trace).value, id);
    CopiesBounded(env, trace, id, page);
    CommitAccount(env, trace, id);
  }

  /** Every raw-record row of a run has a larger sequence number than every raw-record row of the runs
      it continues, whatever became of the pages. */
  lemma {:induction false} RawRowsDisjoint(env: Env, trace: seq<Action>, id: RunId, ancestor: RunId,
      key: (nat, string), other: (nat, string))
    requires Execute(env, trace).Some? && id in Execute(env, trace).value.runs
    requires var runs := Execute(env, trace).value.runs;
      ancestor in runs[id].chain && ancestor != id && ancestor in runs && key in runs[id].raws
          && other in runs[ancestor].raws
    ensures other.0 < key.0
  {
    hide Execute, Extends;
    CountsAlways(env, trace);
    assert CountOk(Execute(env, trace).value.runs, id);
  }
}
