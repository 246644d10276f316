/** The invariant of one run and of the worker executing it, and its preservation by every event. */
module RunInvariant {
  import opened Prelude
  import opened Mapping
  import opened Claims
  import opened Protocol

  // ---- recorded commits -----------------------------------------------------------------------

  lemma {:induction false} RecordedAppend(hist: seq<Commit>, c: Commit)
    ensures RecordedIn(hist + [c]) == if c.recorded then RecordedIn(hist) + [c] else RecordedIn(hist)
  {
    assert (hist + [c])[..|hist|] == hist;
  }

  lemma {:induction false} RecordedMembers(hist: seq<Commit>, c: Commit)
    ensures c in RecordedIn(hist) <==> c in hist && c.recorded
  {
    if hist != [] {
      RecordedMembers(hist[..|hist| - 1], c);
      assert hist == hist[..|hist| - 1] + [hist[|hist| - 1]];
    }
  }

  lemma {:induction false} RecordedLength(hist: seq<Commit>)
    ensures |RecordedIn(hist)| <= |hist|
    ensures |RecordedIn(hist)| == |hist| ==> RecordedIn(hist) == hist
  {
    if hist != [] {
      RecordedLength(hist[..|hist| - 1]);
      assert hist == hist[..|hist| - 1] + [hist[|hist| - 1]];
    }
  }

  /** The page to fetch after a recorded one: the same page again once the extraction has ended. */
  function After(env: Env, c: Commit): nat {
    if EndsExtraction(env, c.resp) then c.page else c.page + 1
  }

  /** The page to fetch once the first `k` pages are recorded. */
  function PageAt(env: Env, rec: seq<Commit>, k: nat): nat
    requires k <= |rec|
  {
    if k == 0 then env.startPage else After(env, rec[k - 1])
  }

  function PageAfter(env: Env, rec: seq<Commit>): nat {
    PageAt(env, rec, |rec|)
  }

  predicate Linked(env: Env, rec: seq<Commit>, k: nat)
    requires k < |rec|
  {
    rec[k].page == PageAt(env, rec, k) && rec[k].sequence == k + 1
  }

  /** Recorded pages follow one another without a gap and are numbered 1, 2, 3, ... */
  predicate Chained(env: Env, rec: seq<Commit>) {
    forall k | 0 <= k < |rec| :: Linked(env, rec, k)
  }

  function RecordTotal(rec: seq<Commit>): nat {
    if rec == [] then 0 else RecordTotal(rec[..|rec| - 1]) + |rec[|rec| - 1].resp.records|
  }

  /** How many of the recorded pages ended the extraction. */
  function EndCount(env: Env, rec: seq<Commit>): nat {
    if rec == [] then 0
    else EndCount(env, rec[..|rec| - 1]) + if EndsExtraction(env, rec[|rec| - 1].resp) then 1 else 0
  }

  lemma {:induction false} EndCountAppend(env: Env, rec: seq<Commit>, c: Commit)
    ensures EndCount(env, rec + [c]) == EndCount(env, rec) + if EndsExtraction(env, c.resp) then 1 else 0
  {
    assert (rec + [c])[..|rec|] == rec;
  }

  lemma {:induction false} ChainedAppend(env: Env, rec: seq<Commit>, c: Commit)
    requires Chained(env, rec)
    requires c.page == PageAfter(env, rec) && c.sequence == |rec| + 1
    ensures Chained(env, rec + [c])
    ensures PageAfter(env, rec + [c]) == After(env, c)
    ensures RecordTotal(rec + [c]) == RecordTotal(rec) + |c.resp.records|
  {
    assert (rec + [c])[..|rec|] == rec;
    forall k | 0 <= k < |rec| + 1 ensures Linked(env, rec + [c], k) {
      if k < |rec| {
        assert Linked(env, rec, k);
      }
    }
  }

  // ---- the invariant --------------------------------------------------------------------------

  /** Counters and cursor are those of the recorded pages. */
  predicate CountersOk(env: Env, row: Claims.Row, rec: seq<Commit>) {
    && Chained(env, rec)
    && row.pagesExtracted == row.rawPayloadCount == |rec|
    && row.recordsExtracted == row.recordsLoaded == RecordTotal(rec)
    && row.cursor == (if rec == [] then None else Some(PageAfter(env, rec)))
  }

  /** Claims are numbered in the order of the commits, and one claim never commits a page twice. */
  predicate ClaimsOk(hist: seq<Commit>, claims: nat) {
    && (forall i | 0 <= i < |hist| :: 1 <= hist[i].claim <= claims)
    && (forall i, j | 0 <= i < j < |hist| :: hist[i].claim <= hist[j].claim)
    && (forall i, j | 0 <= i < j < |hist| && hist[i].claim == hist[j].claim :: hist[i].page < hist[j].page)
  }

  predicate PagesOk(env: Env, hist: seq<Commit>, limit: nat) {
    forall i | 0 <= i < |hist| :: env.startPage <= hist[i].page <= limit
  }

  predicate SequencesOk(hist: seq<Commit>, pages: nat) {
    forall i | 0 <= i < |hist| :: hist[i].sequence <= pages + 1
  }

  /** Commits of ancestors lie strictly before the point the run resumes from, in page and in
      sequence number, so no page or number of one run occurs again in another. */
  predicate DisjointOk(id: RunId, page: nat, pages: nat, hist: seq<Commit>) {
    && (forall i | 0 <= i < |hist| && hist[i].run != id :: hist[i].page < page && hist[i].sequence <= pages)
    && (forall i, j | 0 <= i < j < |hist| && hist[i].run != hist[j].run ::
          hist[i].page < hist[j].page && hist[i].sequence < hist[j].sequence)
  }

  predicate RowsOk(env: Env, hist: seq<Commit>) {
    forall i | 0 <= i < |hist| :: MapRecords(hist[i].resp.records, env.mapping, env.strict) == Ok(hist[i].rows)
  }

  predicate HistOk(env: Env, row: Claims.Row, hist: seq<Commit>, claims: nat, pending: bool, orphans: nat) {
    && CountersOk(env, row, RecordedIn(hist))
    && ClaimsOk(hist, claims)
    && PagesOk(env, hist, CursorPage(env, row))
    && SequencesOk(hist, row.pagesExtracted)
    && RowsOk(env, hist)
    && |hist| == |RecordedIn(hist)| + orphans + (if pending then 1 else 0)
    && orphans + (if pending then 1 else 0) <= claims
  }

  function RawKey(env: Env, c: Commit): (nat, string) {
    (c.sequence, env.sha(c.resp.body))
  }

  /** Marked raw rows belong to commits; recorded pages have a marked raw row. */
  predicate AuditOk(env: Env, id: RunId, raws: map<(nat, string), bool>, hist: seq<Commit>) {
    && (forall key | key in raws && raws[key] ::
          exists i :: 0 <= i < |hist| && hist[i].run == id && RawKey(env, hist[i]) == key)
    && (forall i | 0 <= i < |hist| && hist[i].run == id && hist[i].recorded ::
          RawKey(env, hist[i]) in raws && raws[RawKey(env, hist[i])])
  }

  /** The last response of the run ended the extraction, and it came from the page the cursor names. */
  predicate SawEnd(env: Env, page: nat, rec: seq<Commit>, seen: Option<Sighting>) {
    && seen.Some?
    && EndsExtraction(env, seen.value.resp)
    && seen.value.page == page
    && (Yieldable(env, seen.value.resp) ==> rec != [] && rec[|rec| - 1].resp == seen.value.resp)
  }

  /** A page-limit stop leaves every committed page strictly below the cursor, none unfinished. */
  predicate AtPageLimit(env: Env, page: nat, pages: nat, hist: seq<Commit>, pending: bool) {
    && RecordedIn(hist) != []
    && !Ended(env, hist)
    && !pending
    && forall i | 0 <= i < |hist| :: hist[i].page < page && hist[i].sequence <= pages
  }

  predicate RunHistOk(env: Env, rs: RunState) {
    HistOk(env, rs.row, rs.hist, rs.claims, rs.pending, rs.orphans)
  }

  predicate RunSawEnd(env: Env, rs: RunState) {
    SawEnd(env, CursorPage(env, rs.row), RecordedIn(rs.hist), rs.seen)
  }

  predicate RunAtPageLimit(env: Env, rs: RunState) {
    AtPageLimit(env, CursorPage(env, rs.row), rs.row.pagesExtracted, rs.hist, rs.pending)
  }

  predicate StatusOk(env: Env, rs: RunState) {
    && (rs.row.status == Pending ==> rs.row.taskId.None? && rs.row.attempt == 0 && !rs.pending)
    && (rs.row.status != Pending ==> rs.row.taskId.Some? && rs.row.attempt > 0)
    && (rs.row.status == Succeeded ==> !rs.pending && RunSawEnd(env, rs))
    && (IsContinuable(rs.row) ==> RunAtPageLimit(env, rs))
  }

  /** Unless a claim found the extraction already ended, at most the last recorded page ends it. */
  predicate EndsOk(env: Env, hist: seq<Commit>, replayed: bool) {
    !replayed ==> EndCount(env, RecordedIn(hist)) == if Ended(env, hist) then 1 else 0
  }

  predicate RunOk(env: Env, id: RunId, rs: RunState) {
    && id in rs.chain
    && (forall i | 0 <= i < |rs.hist| :: rs.hist[i].run in rs.chain)
    && RunHistOk(env, rs)
    && DisjointOk(id, CursorPage(env, rs.row), rs.row.pagesExtracted, rs.hist)
    && EndsOk(env, rs.hist, rs.replayed)
    && AuditOk(env, id, rs.raws, rs.hist)
    && StatusOk(env, rs)
  }

  /** The commit the worker made for its current page. */
  predicate IsLastCommit(env: Env, rs: RunState, w: Worker, resp: Response, count: nat)
    requires w.phase.Executing?
  {
    && rs.pending
    && rs.hist != []
    && var c := rs.hist[|rs.hist| - 1];
       && c.run == w.msg.run && c.sequence == w.phase.sequence && c.page == w.phase.page
       && c.resp == resp && |c.rows| == count && c.claim == rs.claims && !c.recorded
  }

  /** The page under way is the one the cursor names, and this claim has committed only earlier ones. */
  predicate AtCursor(env: Env, rs: RunState, e: Phase)
    requires e.Executing?
  {
    && e.page == CursorPage(env, rs.row)
    && e.yielded < e.maxPages
  }

  predicate NoneThisClaim(rs: RunState, page: nat) {
    forall i | 0 <= i < |rs.hist| && rs.hist[i].claim == rs.claims :: rs.hist[i].page < page
  }

  predicate RawStored(env: Env, rs: RunState, e: Phase, resp: Response)
    requires e.Executing?
  {
    (e.sequence, env.sha(resp.body)) in rs.raws
  }

  predicate Yieldable(env: Env, resp: Response) {
    resp.records != [] || env.retainEmpty
  }

  predicate Sighted(rs: RunState, e: Phase, resp: Response)
    requires e.Executing?
  {
    rs.seen == Some(Sighting(e.page, resp))
  }

  predicate PcOk(env: Env, rs: RunState, w: Worker)
    requires w.phase.Executing?
  {
    var e := w.phase;
    match e.pc
    case Fetching =>
      AtCursor(env, rs, e) && !rs.pending && NoneThisClaim(rs, e.page) && e.sequence == rs.row.pagesExtracted
      && (Ended(env, rs.hist) ==> rs.replayed)
    case Got(resp) =>
      AtCursor(env, rs, e) && !rs.pending && NoneThisClaim(rs, e.page) && e.sequence == rs.row.pagesExtracted + 1
      && (Ended(env, rs.hist) ==> rs.replayed) && Yieldable(env, resp) && Sighted(rs, e, resp)
    case Stored(resp) =>
      AtCursor(env, rs, e) && !rs.pending && NoneThisClaim(rs, e.page) && e.sequence == rs.row.pagesExtracted + 1
      && (Ended(env, rs.hist) ==> rs.replayed) && Yieldable(env, resp) && Sighted(rs, e, resp)
          && RawStored(env, rs, e, resp)
    case Loaded(resp, count) =>
      AtCursor(env, rs, e) && e.sequence == rs.row.pagesExtracted + 1
      && (Ended(env, rs.hist) ==> rs.replayed) && Yieldable(env, resp) && Sighted(rs, e, resp)
          && RawStored(env, rs, e, resp)
      && IsLastCommit(env, rs, w, resp, count)
    case Marked(resp, count) =>
      AtCursor(env, rs, e) && e.sequence == rs.row.pagesExtracted + 1
      && (Ended(env, rs.hist) ==> rs.replayed) && Yieldable(env, resp) && Sighted(rs, e, resp)
          && RawStored(env, rs, e, resp)
      && rs.raws[(e.sequence, env.sha(resp.body))]
      && IsLastCommit(env, rs, w, resp, count)
    case Exhausted => !rs.pending && RunSawEnd(env, rs)
    case Raised(err) => err.category.PageLimitExceededError? ==> RunAtPageLimit(env, rs) && !err.retryable
    case Recorded(err) => true
    case Republished => w.msg.retries < MAX_RETRIES
  }

  /** The status the stored row has while an attempt is at `pc`. */
  predicate PcStatusOk(rs: RunState, w: Worker)
    requires w.phase.Executing?
  {
    match w.phase.pc
    case Recorded(err) =>
      rs.row.status == if ShouldFinalize(err, IsFinalAttempt(w.msg)) then Failed else Running
    case _ => rs.row.status == Running
  }

  /** The columns that only claims and outcomes write. */
  predicate OwnColumnsAgree(mem: Claims.Row, row: Claims.Row) {
    && mem.status == row.status && mem.attempt == row.attempt && mem.taskId == row.taskId
    && mem.error == row.error && mem.continuedFrom == row.continuedFrom
  }

  /** The in-memory row is the stored one, or a page ahead of it once the save of that page failed. */
  predicate MemOk(e: Phase, row: Claims.Row)
    requires e.Executing?
  {
    && OwnColumnsAgree(e.mem, row)
    && (e.mem == row || (e.mem.pagesExtracted == row.pagesExtracted + 1
        && (e.pc.Raised? || e.pc.Recorded? || e.pc.Republished?)))
  }

  /** What holds of a worker that claimed `rs` and has not finished with it. */
  predicate ExecOk(env: Env, rs: RunState, w: Worker)
    requires w.phase.Executing?
  {
    && rs.row.taskId == Some(w.msg.task)
    && MemOk(w.phase, rs.row)
    && w.phase.maxPages > 0
    && w.msg.retries <= MAX_RETRIES
    && rs.claims > 0
    && (!rs.pending ==> rs.orphans < rs.claims)
    && PcStatusOk(rs, w)
    && PcOk(env, rs, w)
  }

  // ---- one lemma per event --------------------------------------------------------------------

  predicate Ready(env: Env, id: RunId, rs: RunState, w: Worker) {
    RunOk(env, id, rs) && w.phase.Executing? && w.msg.run == id && ExecOk(env, rs, w)
  }

  /** The run stays well formed, its worker too, and the row only moves forward. */
  predicate Kept(env: Env, id: RunId, rs: RunState, w: Worker, eff: Effect) {
    && RunOk(env, id, eff.run)
    && eff.worker.msg == w.msg
    && (eff.worker.phase.Executing? ==> ExecOk(env, eff.run, eff.worker))
    && (eff.worker.phase.Finished? ==> Terminal(eff.run.row.status))
    && !eff.worker.phase.Received?
    && Forward(rs.row, eff.run.row)
    && eff.run.row.attempt == rs.row.attempt
    && eff.run.chain == rs.chain
  }

  lemma {:induction false} RespondKeeps(env: Env, id: RunId, rs: RunState, w: Worker, resp: Response)
    requires Ready(env, id, rs, w) && OnRespond(env, rs, w, resp).Some?
    ensures Kept(env, id, rs, w, OnRespond(env, rs, w, resp).value)
  {
    hide MapRecords, HistOk, DisjointOk, EndsOk, AuditOk, RecordedIn;
  }

  lemma {:induction false} StoreRawKeeps(env: Env, id: RunId, rs: RunState, w: Worker)
    requires Ready(env, id, rs, w) && OnStoreRaw(env, rs, w).Some?
    ensures Kept(env, id, rs, w, OnStoreRaw(env, rs, w).value)
  {
    hide MapRecords, HistOk, DisjointOk, EndsOk, RecordedIn;
  }

  lemma {:induction false} ClaimsAppend(hist: seq<Commit>, c: Commit, claims: nat)
    requires ClaimsOk(hist, claims) && 1 <= c.claim == claims
    requires forall i | 0 <= i < |hist| && hist[i].claim == claims :: hist[i].page < c.page
    ensures ClaimsOk(hist + [c], claims)
  {
    var all := hist + [c];
    assert forall i | 0 <= i < |hist| :: all[i] == hist[i];
    assert all[|hist|] == c;
  }

  lemma {:induction false} HistAppend(env: Env, row: Claims.Row, hist: seq<Commit>, claims: nat, orphans: nat,
      c: Commit)
    requires HistOk(env, row, hist, claims, false, orphans)
    requires orphans < claims && c.claim == claims && !c.recorded && c.page == CursorPage(env, row)
    requires env.startPage <= c.page && c.sequence == row.pagesExtracted + 1
    requires forall i | 0 <= i < |hist| && hist[i].claim == claims :: hist[i].page < c.page
    requires MapRecords(c.resp.records, env.mapping, env.strict) == Ok(c.rows)
    ensures HistOk(env, row, hist + [c], claims, true, orphans)
  {
    hide MapRecords, RecordedIn, Chained, RecordTotal;
    RecordedAppend(hist, c);
    ClaimsAppend(hist, c, claims);
  }

  /** The cursor never falls below the start page. */
  lemma {:induction false} PagesAboveStart(env: Env, rec: seq<Commit>, k: nat)
    requires Chained(env, rec) && k < |rec|
    ensures rec[k].page >= env.startPage
  {
    if k > 0 {
      PagesAboveStart(env, rec, k - 1);
    }
    assert Linked(env, rec, k);
  }

  lemma {:induction false} LoadHist(env: Env, id: RunId, rs: RunState, w: Worker, lost: Option<Error>)
    requires Ready(env, id, rs, w) && OnLoad(env, rs, w, lost).Some?
    ensures RunHistOk(env, OnLoad(env, rs, w, lost).value.run)
  {
    hide MapRecords, RecordedIn, Chained, RecordTotal;
    var c := OnLoad(env, rs, w, lost).value.run.hist[|rs.hist|];
    var rec := RecordedIn(rs.hist);
    if rec != [] {
      PagesAboveStart(env, rec, |rec| - 1);
    }
    HistAppend(env, rs.row, rs.hist, rs.claims, rs.orphans, c);
    assert OnLoad(env, rs, w, lost).value.run.hist == rs.hist + [c];
  }

  lemma {:induction false} EndsFrame(env: Env, hist: seq<Commit>, longer: seq<Commit>, replayed: bool)
    requires EndsOk(env, hist, replayed) && RecordedIn(longer) == RecordedIn(hist)
    ensures EndsOk(env, longer, replayed)
  {
  }

  lemma {:induction false} LoadDisjoint(id: RunId, page: nat, pages: nat, hist: seq<Commit>, c: Commit)
    requires DisjointOk(id, page, pages, hist)
    requires c.run == id && c.page == page && c.sequence == pages + 1
    ensures DisjointOk(id, page, pages, hist + [c])
  {
    var all := hist + [c];
    assert forall i | 0 <= i < |hist| :: all[i] == hist[i];
  }

  lemma {:induction false} LoadAudit(env: Env, id: RunId, rs: RunState, w: Worker, lost: Option<Error>)
    requires Ready(env, id, rs, w) && OnLoad(env, rs, w, lost).Some?
    ensures AuditOk(env, id, OnLoad(env, rs, w, lost).value.run.raws, OnLoad(env, rs, w, lost).value.run.hist)
  {
    hide MapRecords, HistOk, DisjointOk, EndsOk, RecordedIn;
    var run := OnLoad(env, rs, w, lost).value.run;
    assert forall i | 0 <= i < |rs.hist| :: run.hist[i] == rs.hist[i];
    forall key | key in run.raws && run.raws[key]
      ensures exists i :: 0 <= i < |run.hist| && run.hist[i].run == id && RawKey(env, run.hist[i]) == key
    {
      var i :| 0 <= i < |rs.hist| && rs.hist[i].run == id && RawKey(env, rs.hist[i]) == key;
      assert run.hist[i].run == id && RawKey(env, run.hist[i]) == key;
    }
  }

  lemma {:induction false} LoadExec(env: Env, id: RunId, rs: RunState, w: Worker, lost: Option<Error>)
    requires Ready(env, id, rs, w) && OnLoad(env, rs, w, lost).Some?
    requires lost.Some? ==> !lost.value.category.PageLimitExceededError?
    ensures
      var eff := OnLoad(env, rs, w, lost).value;
      ExecOk(env, eff.run, eff.worker) && StatusOk(env, eff.run)
  {
    hide MapRecords, HistOk, DisjointOk, EndsOk, AuditOk, RecordedIn;
    var run := OnLoad(env, rs, w, lost).value.run;
    RecordedAppend(rs.hist, run.hist[|rs.hist|]);
  }

  lemma {:induction false} LoadKeeps(env: Env, id: RunId, rs: RunState, w: Worker, lost: Option<Error>)
    requires Ready(env, id, rs, w) && OnLoad(env, rs, w, lost).Some?
    requires lost.Some? ==> !lost.value.category.PageLimitExceededError?
    ensures Kept(env, id, rs, w, OnLoad(env, rs, w, lost).value)
  {
    hide MapRecords, HistOk, DisjointOk, EndsOk, AuditOk, RecordedIn;
    LoadHist(env, id, rs, w, lost);
    LoadAudit(env, id, rs, w, lost);
    LoadExec(env, id, rs, w, lost);
    RecordedAppend(rs.hist, OnLoad(env, rs, w, lost).value.run.hist[|rs.hist|]);
    EndsFrame(env, rs.hist, OnLoad(env, rs, w, lost).value.run.hist, rs.replayed);
    LoadDisjoint(id, CursorPage(env, rs.row), rs.row.pagesExtracted, rs.hist,
        OnLoad(env, rs, w, lost).value.run.hist[|rs.hist|]);
    var run := OnLoad(env, rs, w, lost).value.run;
    assert forall i | 0 <= i < |rs.hist| :: run.hist[i] == rs.hist[i];
  }

  lemma {:induction false} MarkLoadedKeeps(env: Env, id: RunId, rs: RunState, w: Worker)
    requires Ready(env, id, rs, w) && OnMarkLoaded(env, rs, w).Some?
    ensures Kept(env, id, rs, w, OnMarkLoaded(env, rs, w).value)
  {
    hide MapRecords, HistOk, DisjointOk, EndsOk, RecordedIn;
    var key := (w.phase.sequence, env.sha(w.phase.pc.resp.body));
    assert RawKey(env, rs.hist[|rs.hist| - 1]) == key;
  }

  /** Status and error columns do not matter to the history. */
  lemma {:induction false} OutcomeKeepsHist(env: Env, rs: RunState, row: Claims.Row)
    requires RunHistOk(env, rs)
    requires row == rs.row.(status := row.status, error := row.error)
    ensures RunHistOk(env, rs.(row := row))
  {
    hide MapRecords, RecordedIn;
  }

  lemma {:induction false} FinishKeeps(env: Env, id: RunId, rs: RunState, w: Worker)
    requires Ready(env, id, rs, w) && OnFinish(rs, w).Some?
    ensures Kept(env, id, rs, w, OnFinish(rs, w).value)
  {
    hide MapRecords, HistOk, DisjointOk, EndsOk, AuditOk, RecordedIn;
    OutcomeKeepsHist(env, rs, OnFinish(rs, w).value.run.row);
  }

  lemma {:induction false} RaiseKeeps(env: Env, id: RunId, rs: RunState, w: Worker, err: Error)
    requires Ready(env, id, rs, w) && OnRaise(env, rs, w, err).Some?
    ensures Kept(env, id, rs, w, OnRaise(env, rs, w, err).value)
  {
    hide MapRecords, HistOk, DisjointOk, EndsOk, AuditOk, RecordedIn;
  }

  lemma {:induction false} RecordFailureKeeps(env: Env, id: RunId, rs: RunState, w: Worker)
    requires Ready(env, id, rs, w) && OnRecordFailure(rs, w).Some?
    ensures Kept(env, id, rs, w, OnRecordFailure(rs, w).value)
  {
    hide MapRecords, HistOk, DisjointOk, EndsOk, AuditOk, RecordedIn;
    OutcomeKeepsHist(env, rs, OnRecordFailure(rs, w).value.run.row);
  }

  lemma {:induction false} DecideKeeps(env: Env, id: RunId, rs: RunState, w: Worker)
    requires Ready(env, id, rs, w) && OnDecide(rs, w).Some?
    ensures Kept(env, id, rs, w, OnDecide(rs, w).value)
  {
    hide MapRecords, HistOk, DisjointOk, EndsOk, AuditOk, RecordedIn;
  }

  /** Flagging the pending commit turns it into the next recorded one. */
  lemma {:induction false} FlagLastRecords(hist: seq<Commit>)
    requires hist != [] && !hist[|hist| - 1].recorded
    ensures RecordedIn(FlagLast(hist)) == RecordedIn(hist) + [hist[|hist| - 1].(recorded := true)]
  {
    var front, last := hist[..|hist| - 1], hist[|hist| - 1];
    assert hist == front + [last];
    RecordedAppend(front, last);
    RecordedAppend(front, last.(recorded := true));
  }

  lemma {:induction false} FlagLastShape(hist: seq<Commit>)
    ensures |FlagLast(hist)| == |hist|
    ensures forall i | 0 <= i < |hist| :: FlagLast(hist)[i] == hist[i].(recorded := FlagLast(hist)[i].recorded)
    ensures forall i | 0 <= i < |hist| - 1 :: FlagLast(hist)[i] == hist[i]
  {
  }

  lemma {:induction false} FlagLastKeeps(env: Env, hist: seq<Commit>, claims: nat, limit: nat)
    requires ClaimsOk(hist, claims) && PagesOk(env, hist, limit) && RowsOk(env, hist)
    ensures ClaimsOk(FlagLast(hist), claims) && PagesOk(env, FlagLast(hist), limit) && RowsOk(env, FlagLast(hist))
    ensures forall pages | SequencesOk(hist, pages) :: SequencesOk(FlagLast(hist), pages)
  {
    hide MapRecords;
    FlagLastShape(hist);
  }

  /** Recording one more page keeps counters and cursor in step with the recorded pages. */
  lemma {:induction false} CountersAdvance(env: Env, row: Claims.Row, rec: seq<Commit>, c: Commit)
    requires CountersOk(env, row, rec)
    requires c.page == CursorPage(env, row) && c.sequence == row.pagesExtracted + 1
    ensures CountersOk(env, AfterPage(env, row, c.page, c.sequence, c.resp, |c.resp.records|), rec + [c])
  {
    hide MapRecords;
    ChainedAppend(env, rec, c);
  }

  lemma {:induction false} HistFlag(env: Env, row: Claims.Row, hist: seq<Commit>, claims: nat, orphans: nat)
    requires HistOk(env, row, hist, claims, true, orphans)
    requires hist != [] && !hist[|hist| - 1].recorded
    requires hist[|hist| - 1].page == CursorPage(env, row) && hist[|hist| - 1].sequence == row.pagesExtracted + 1
    ensures
      var c := hist[|hist| - 1];
      HistOk(env, AfterPage(env, row, c.page, c.sequence, c.resp, |c.resp.records|), FlagLast(hist), claims, false,
          orphans)
  {
    hide MapRecords, RecordedIn, Chained, RecordTotal;
    var c := hist[|hist| - 1];
    FlagLastRecords(hist);
    FlagLastShape(hist);
    FlagLastKeeps(env, hist, claims, c.page);
    CountersAdvance(env, row, RecordedIn(hist), c.(recorded := true));
  }

  lemma {:induction false} CheckpointHist(env: Env, id: RunId, rs: RunState, w: Worker)
    requires Ready(env, id, rs, w) && OnCheckpoint(env, rs, w).Some?
    ensures RunHistOk(env, OnCheckpoint(env, rs, w).value.run)
    ensures w.phase.pc.count == |w.phase.pc.resp.records|
    ensures rs.orphans < rs.claims
  {
    hide MapRecords, RecordedIn, Chained, RecordTotal;
    var c := rs.hist[|rs.hist| - 1];
    MapRecordsSpec(c.resp.records, env.mapping, env.strict);
    HistFlag(env, rs.row, rs.hist, rs.claims, rs.orphans);
  }

  lemma {:induction false} CheckpointAudit(env: Env, id: RunId, rs: RunState, w: Worker)
    requires Ready(env, id, rs, w) && OnCheckpoint(env, rs, w).Some?
    ensures AuditOk(env, id, OnCheckpoint(env, rs, w).value.run.raws, OnCheckpoint(env, rs, w).value.run.hist)
  {
    hide MapRecords, HistOk, DisjointOk, EndsOk, RecordedIn;
    var run := OnCheckpoint(env, rs, w).value.run;
    assert |run.hist| == |rs.hist|;
    assert forall i | 0 <= i < |rs.hist| ::
      run.hist[i].run == rs.hist[i].run && RawKey(env, run.hist[i]) == RawKey(env, rs.hist[i])
      && (i < |rs.hist| - 1 ==> run.hist[i] == rs.hist[i]);
    forall key | key in run.raws && run.raws[key]
      ensures exists i :: 0 <= i < |run.hist| && run.hist[i].run == id && RawKey(env, run.hist[i]) == key
    {
      var i :| 0 <= i < |rs.hist| && rs.hist[i].run == id && RawKey(env, rs.hist[i]) == key;
      assert run.hist[i].run == id && RawKey(env, run.hist[i]) == key;
    }
  }

  /** After a checkpoint the extraction has either ended at that page or moved past every commit. */
  lemma {:induction false} FlagLastEnds(env: Env, hist: seq<Commit>, page: nat, pages: nat)
    requires hist != [] && !hist[|hist| - 1].recorded
    requires PagesOk(env, hist, page) && SequencesOk(hist, pages)
    ensures
      var resp := hist[|hist| - 1].resp;
      var rec := RecordedIn(FlagLast(hist));
      && rec != [] && rec[|rec| - 1].resp == resp
      && Ended(env, FlagLast(hist)) == EndsExtraction(env, resp)
      && (!EndsExtraction(env, resp) ==> AtPageLimit(env, page + 1, pages + 1, FlagLast(hist), false))
  {
    FlagLastRecords(hist);
    FlagLastShape(hist);
  }

  lemma {:induction false} CheckpointFacts(env: Env, id: RunId, rs: RunState, w: Worker)
    requires Ready(env, id, rs, w) && OnCheckpoint(env, rs, w).Some?
    ensures
      var run := OnCheckpoint(env, rs, w).value.run;
      && Ended(env, run.hist) == EndsExtraction(env, w.phase.pc.resp)
      && (Ended(env, run.hist) ==> RunSawEnd(env, run))
      && (!Ended(env, run.hist) ==> RunAtPageLimit(env, run))
  {
    hide MapRecords, RecordedIn, CountersOk, Ended, AtPageLimit;
    FlagLastEnds(env, rs.hist, w.phase.page, rs.row.pagesExtracted);
  }

  lemma {:induction false} CheckpointExec(env: Env, id: RunId, rs: RunState, w: Worker)
    requires Ready(env, id, rs, w) && OnCheckpoint(env, rs, w).Some?
    ensures
      var eff := OnCheckpoint(env, rs, w).value;
      ExecOk(env, eff.run, eff.worker) && StatusOk(env, eff.run)
  {
    hide MapRecords, HistOk, DisjointOk, EndsOk, AuditOk, RecordedIn;
    CheckpointFacts(env, id, rs, w);
    CheckpointHist(env, id, rs, w);
  }

  lemma {:induction false} FlagLastEndsOk(env: Env, hist: seq<Commit>, replayed: bool)
    requires hist != [] && !hist[|hist| - 1].recorded
    requires EndsOk(env, hist, replayed) && (Ended(env, hist) ==> replayed)
    ensures EndsOk(env, FlagLast(hist), replayed)
  {
    hide RecordedIn;
    FlagLastRecords(hist);
    EndCountAppend(env, RecordedIn(hist), hist[|hist| - 1].(recorded := true));
  }

  lemma {:induction false} CheckpointDisjoint(id: RunId, hist: seq<Commit>, page: nat, pages: nat, next: nat)
    requires DisjointOk(id, page, pages, hist) && page <= next
    ensures DisjointOk(id, next, pages + 1, FlagLast(hist))
  {
    FlagLastShape(hist);
  }

  lemma {:induction false} CheckpointKeeps(env: Env, id: RunId, rs: RunState, w: Worker)
    requires Ready(env, id, rs, w) && OnCheckpoint(env, rs, w).Some?
    ensures Kept(env, id, rs, w, OnCheckpoint(env, rs, w).value)
  {
    hide MapRecords, HistOk, DisjointOk, EndsOk, AuditOk, RecordedIn;
    CheckpointHist(env, id, rs, w);
    CheckpointAudit(env, id, rs, w);
    CheckpointExec(env, id, rs, w);
    FlagLastEndsOk(env, rs.hist, rs.replayed);
    CheckpointDisjoint(id, rs.hist, w.phase.page, rs.row.pagesExtracted,
        CursorPage(env, OnCheckpoint(env, rs, w).value.run.row));
    FlagLastShape(rs.hist);
  }

  lemma {:induction false} AdvanceKeeps(env: Env, id: RunId, rs: RunState, w: Worker, ev: Event)
    requires Ready(env, id, rs, w) && Advance(env, rs, w, ev).Some?
    ensures Kept(env, id, rs, w, Advance(env, rs, w, ev).value)
  {
    match ev
    case Respond(resp) => RespondKeeps(env, id, rs, w, resp);
    case StoreRaw => StoreRawKeeps(env, id, rs, w);
    case Load => LoadKeeps(env, id, rs, w, None);
    case LoadLost(err) => LoadKeeps(env, id, rs, w, Some(err));
    case MarkLoaded => MarkLoadedKeeps(env, id, rs, w);
    case Checkpoint => CheckpointKeeps(env, id, rs, w);
    case Raise(err) => RaiseKeeps(env, id, rs, w, err);
    case Finish => FinishKeeps(env, id, rs, w);
    case RecordFailure => RecordFailureKeeps(env, id, rs, w);
    case Decide => DecideKeeps(env, id, rs, w);
  }

  // ---- claims and new runs --------------------------------------------------------------------

  lemma {:induction false} ClaimKeeps(env: Env, id: RunId, rs: RunState, msg: Msg, maxPages: nat)
    requires RunOk(env, id, rs) && msg.run == id && msg.retries <= MAX_RETRIES && maxPages > 0
    requires ClaimStep(env, rs, msg, maxPages).Some?
    ensures
      var (run, w) := ClaimStep(env, rs, msg, maxPages).value;
      && RunOk(env, id, run)
      && w.phase.Executing? && w.msg == msg && ExecOk(env, run, w)
      && Forward(rs.row, run.row)
      && run.row.attempt == rs.row.attempt + 1
      && run.chain == rs.chain
  {
    hide MapRecords, RecordedIn;
  }

  lemma {:induction false} FreshRunOk(env: Env, id: RunId)
    ensures RunOk(env, id, NewRun(id, None))
  {
    hide MapRecords;
  }

  lemma {:induction false} ContinuedRunOk(env: Env, id: RunId, parent: RunId, rs: RunState)
    requires RunOk(env, parent, rs) && IsContinuable(rs.row) && id !in rs.chain
    ensures RunOk(env, id, NewRun(id, Some((parent, rs))))
  {
    hide MapRecords, RecordedIn, Linked, RecordTotal, EndCount;
  }

  lemma {:induction false} NewRunOk(env: Env, id: RunId, from: Option<(RunId, RunState)>)
    requires from.Some? ==>
      && RunOk(env, from.value.0, from.value.1)
      && IsContinuable(from.value.1.row)
      && id !in from.value.1.chain
    ensures RunOk(env, id, NewRun(id, from))
  {
    if from.None? {
      FreshRunOk(env, id);
    } else {
      ContinuedRunOk(env, id, from.value.0, from.value.1);
    }
  }
}
