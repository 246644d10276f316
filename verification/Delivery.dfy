/** What reaches the destination: at-least-once delivery with an exact duplicate count, in every
    execution, whatever the source answers and wherever workers die. */
module Delivery {
  import opened Prelude
  import opened Mapping
  import opened Claims
  import opened Protocol
  import opened RunInvariant
  import opened ProtocolInvariant

  // ---- the history of a run is what the destination holds -------------------------------------

  /** The transactions of a set of runs, in commit order. */
  function ByChain(dest: seq<Transaction>, chain: set<RunId>): seq<seq<Mapping.Row>> {
    if dest == [] then []
    else
      var front := ByChain(dest[..|dest| - 1], chain);
      var last := dest[|dest| - 1];
      if last.run in chain then front + [last.rows] else front
  }

  function HistRows(hist: seq<Commit>): seq<seq<Mapping.Row>> {
    seq(|hist|, i requires 0 <= i < |hist| => hist[i].rows)
  }

  predicate DestOk(runs: map<RunId, RunState>, dest: seq<Transaction>) {
    && (forall i | 0 <= i < |dest| :: dest[i].run in runs)
    && (forall id | id in runs :: ByChain(dest, runs[id].chain) == HistRows(runs[id].hist))
  }

  lemma {:induction false} ByChainAppend(dest: seq<Transaction>, d: Transaction, chain: set<RunId>)
    ensures ByChain(dest + [d], chain) == if d.run in chain then ByChain(dest, chain) + [d.rows]
        else ByChain(dest, chain)
  {
    assert (dest + [d])[..|dest|] == dest;
  }

  lemma {:induction false} ByChainNewRun(dest: seq<Transaction>, chain: set<RunId>, id: RunId)
    requires forall i | 0 <= i < |dest| :: dest[i].run != id
    ensures ByChain(dest, chain + {id}) == ByChain(dest, chain)
  {
    if dest != [] {
      assert forall i | 0 <= i < |dest| - 1 :: dest[..|dest| - 1][i] == dest[i];
      ByChainNewRun(dest[..|dest| - 1], chain, id);
    }
  }

  lemma {:induction false} ByChainEmpty(dest: seq<Transaction>)
    ensures ByChain(dest, {}) == []
  {
    if dest != [] {
      ByChainEmpty(dest[..|dest| - 1]);
    }
  }

  /** How one event changes a history: a load appends its commit, a checkpoint only sets a flag. */
  lemma {:induction false} AdvanceRows(env: Env, rs: RunState, w: Worker, ev: Event)
    requires Advance(env, rs, w, ev).Some?
    ensures var eff := Advance(env, rs, w, ev).value;
      && HistRows(eff.run.hist) == HistRows(rs.hist) + (if ev.Load? || ev.LoadLost? then [eff.committed] else [])
      && (ev.Load? || ev.LoadLost? ==> w.phase.Executing? && w.phase.pc.Stored?)
  {
    hide MapRecords;
    if ev.Checkpoint? {
      FlagLastShape(rs.hist);
    }
  }

  lemma {:induction false} DoDest(env: Env, s: State, t: TaskId, ev: Event)
    requires Inv(env, s) && DestOk(s.runs, s.dest) && DoNext(env, s, t, ev).Some?
    ensures DestOk(DoNext(env, s, t, ev).value.runs, DoNext(env, s, t, ev).value.dest)
  {
    hide RunOk, PcOk, Advance, RunsOk, QueueOk;
    var w := s.workers[t];
    var id := w.msg.run;
    var s' := DoNext(env, s, t, ev).value;
    var eff := Advance(env, s.runs[id], w, ev).value;
    assert WorkerOk(env, s.runs, s.queue, t, w);
    DoKeeps(env, s, t, ev);
    AdvanceRows(env, s.runs[id], w, ev);
    forall r | r in s'.runs ensures ByChain(s'.dest, s'.runs[r].chain) == HistRows(s'.runs[r].hist) {
      if ev.Load? || ev.LoadLost? {
        ByChainAppend(s.dest, Transaction(id, eff.committed), s.runs[r].chain);
        assert s.runs[id].row.status == Running;
        assert id in s.runs[r].chain ==> r == id;
        ChainHasSelf(env, s, id);
      }
    }
  }

  lemma {:induction false} ChainHasSelf(env: Env, s: State, id: RunId)
    requires Inv(env, s) && id in s.runs
    ensures id in s.runs[id].chain
  {
    hide HistOk, AuditOk, DisjointOk, EndsOk;
    assert RunOk(env, id, s.runs[id]);
  }

  lemma {:induction false} CreateDest(env: Env, s: State, id: RunId, from: Option<RunId>)
    requires Inv(env, s) && DestOk(s.runs, s.dest) && CreateNext(s, id, from).Some?
    ensures DestOk(CreateNext(s, id, from).value.runs, s.dest)
  {
    hide RunOk, ExecOk, RunsOk, QueueOk, WorkersOk;
    if from.None? {
      ByChainNewRun(s.dest, {}, id);
      ByChainEmpty(s.dest);
      assert {} + {id} == {id};
    } else {
      ByChainNewRun(s.dest, s.runs[from.value].chain, id);
    }
  }

  lemma {:induction false} NextDest(env: Env, s: State, a: Action)
    requires Inv(env, s) && DestOk(s.runs, s.dest) && Next(env, s, a).Some?
    ensures DestOk(Next(env, s, a).value.runs, Next(env, s, a).value.dest)
  {
    hide Inv, Advance, ByChain, Charge;
    match a
    case Create(run, from) => CreateDest(env, s, run, from);
    case Do(task, ev) => DoDest(env, s, task, ev);
    case _ =>
  }

  /** In every reachable state the destination holds, for every chain of runs, exactly the
      transactions the chain committed, in commit order. */
  lemma {:induction false} DestinationIsHistory(env: Env, trace: seq<Action>)
    requires Execute(env, trace).Some?
    ensures DestOk(Execute(env, trace).value.runs, Execute(env, trace).value.dest)
  {
    hide Next, Inv;
    if trace != [] {
      var front := trace[..|trace| - 1];
      DestinationIsHistory(env, front);
      Reachable(env, front);
      NextDest(env, Execute(env, front).value, trace[|trace| - 1]);
    }
  }

  // ---- no silent truncation -------------------------------------------------------------------

  lemma {:induction false} PagesGrow(env: Env, rec: seq<Commit>, k: nat, n: nat)
    requires Chained(env, rec) && k < n <= |rec|
    ensures After(env, rec[k]) <= PageAt(env, rec, n)
    ensures rec[k].page <= PageAt(env, rec, n)
  {
    if k + 1 < n {
      PagesGrow(env, rec, k, n - 1);
      assert Linked(env, rec, n - 1);
    }
  }

  /** Every page below the next one to fetch has been recorded, and its record did not end the extraction. */
  lemma {:induction false} PagesCovered(env: Env, rec: seq<Commit>, n: nat, page: nat) returns (k: nat)
    requires Chained(env, rec) && n <= |rec| && env.startPage <= page < PageAt(env, rec, n)
    ensures k < n && rec[k].page == page && !EndsExtraction(env, rec[k].resp)
  {
    var c := rec[n - 1];
    if c.page == page {
      k := n - 1;
    } else {
      assert Linked(env, rec, n - 1);
      k := PagesCovered(env, rec, n - 1, page);
    }
  }

  predicate HasRecordedPage(env: Env, hist: seq<Commit>, page: nat) {
    exists i :: 0 <= i < |hist| && hist[i].page == page && hist[i].recorded && !EndsExtraction(env, hist[i].resp)
      && MapRecords(hist[i].resp.records, env.mapping, env.strict) == Ok(hist[i].rows)
  }

  lemma {:induction false} HistoryFacts(env: Env, trace: seq<Action>, id: RunId)
    requires Execute(env, trace).Some? && id in Execute(env, trace).value.runs
    ensures var rs := Execute(env, trace).value.runs[id];
      RunOk(env, id, rs) && CountersOk(env, rs.row, RecordedIn(rs.hist)) && RowsOk(env, rs.hist)
  {
    hide Execute, AuditOk, DisjointOk, EndsOk;
    Reachable(env, trace);
  }

  /** At least once: in every reachable state, every page from the root start page up to the saved
      cursor has been mapped, committed and recorded by the run or an ancestor. */
  lemma {:induction false} AtLeastOnce(env: Env, trace: seq<Action>, id: RunId, page: nat)
    requires Execute(env, trace).Some? && id in Execute(env, trace).value.runs
    requires var rs := Execute(env, trace).value.runs[id]; env.startPage <= page < CursorPage(env, rs.row)
    ensures HasRecordedPage(env, Execute(env, trace).value.runs[id].hist, page)
  {
    hide Execute, RunOk, RecordedIn, MapRecords;
    HistoryFacts(env, trace, id);
    var rs := Execute(env, trace).value.runs[id];
    var rec := RecordedIn(rs.hist);
    var k := PagesCovered(env, rec, |rec|, page);
    RecordedMembers(rs.hist, rec[k]);
    var i :| 0 <= i < |rs.hist| && rs.hist[i] == rec[k];
    assert rs.hist[i].page == page;
  }

  /** A SUCCEEDED run saw the end: its last response was an empty or short page, from the very page
      the cursor names; a page that was yielded is the last recorded one; nothing waits for a
      checkpoint; and all earlier pages are recorded, across the whole chain. */
  lemma {:induction false} NoSilentTruncation(env: Env, trace: seq<Action>, id: RunId)
    requires Execute(env, trace).Some? && id in Execute(env, trace).value.runs
    requires Execute(env, trace).value.runs[id].row.status == Succeeded
    ensures var rs := Execute(env, trace).value.runs[id];
      && !rs.pending
      && rs.seen.Some? && EndsExtraction(env, rs.seen.value.resp) && rs.seen.value.page == CursorPage(env, rs.row)
      && (Yieldable(env, rs.seen.value.resp) ==>
            exists i :: 0 <= i < |rs.hist| && rs.hist[i].recorded && rs.hist[i].resp == rs.seen.value.resp
              && rs.hist[i].page == rs.seen.value.page)
      && forall page | env.startPage <= page < rs.seen.value.page :: HasRecordedPage(env, rs.hist, page)
  {
    hide Execute, RecordedIn, MapRecords, HasRecordedPage, HistOk, AuditOk, DisjointOk, EndsOk;
    HistoryFacts(env, trace, id);
    var rs := Execute(env, trace).value.runs[id];
    var rec := RecordedIn(rs.hist);
    if Yieldable(env, rs.seen.value.resp) {
      RecordedMembers(rs.hist, rec[|rec| - 1]);
      var i :| 0 <= i < |rs.hist| && rs.hist[i] == rec[|rec| - 1];
      assert rs.hist[i].recorded && rs.hist[i].resp == rs.seen.value.resp && rs.hist[i].page == rs.seen.value.page;
    }
    forall page | env.startPage <= page < rs.seen.value.page ensures HasRecordedPage(env, rs.hist, page) {
      AtLeastOnce(env, trace, id, page);
    }
  }

  // ---- bounded duplication --------------------------------------------------------------------

  function Copies(hist: seq<Commit>, page: nat): nat {
    if hist == [] then 0
    else Copies(hist[..|hist| - 1], page) + if hist[|hist| - 1].page == page then 1 else 0
  }

  lemma {:induction false} ClaimsPrefix(hist: seq<Commit>, claims: nat)
    requires hist != [] && ClaimsOk(hist, claims)
    ensures ClaimsOk(hist[..|hist| - 1], hist[|hist| - 1].claim)
  {
    var front := hist[..|hist| - 1];
    assert forall i | 0 <= i < |front| :: front[i] == hist[i];
  }

  /** Commits of a page made by claims up to `c` are at most `c`. */
  lemma {:induction false} CopiesBelow(hist: seq<Commit>, claims: nat, page: nat, c: nat)
    requires ClaimsOk(hist, claims)
    requires forall i | 0 <= i < |hist| && hist[i].page == page :: hist[i].claim <= c
    ensures Copies(hist, page) <= c
  {
    if hist != [] {
      var front, last := hist[..|hist| - 1], hist[|hist| - 1];
      assert forall i | 0 <= i < |front| :: front[i] == hist[i];
      ClaimsPrefix(hist, claims);
      if last.page == page {
        assert forall i | 0 <= i < |front| && front[i].page == page :: front[i].claim <= last.claim - 1;
        CopiesBelow(front, last.claim, page, last.claim - 1);
      } else {
        CopiesBelow(front, last.claim, page, c);
      }
    }
  }

  /** No page is committed more often than the chain was claimed. */
  lemma {:induction false} CopiesBounded(env: Env, trace: seq<Action>, id: RunId, page: nat)
    requires Execute(env, trace).Some? && id in Execute(env, trace).value.runs
    ensures var rs := Execute(env, trace).value.runs[id]; Copies(rs.hist, page) <= rs.claims
  {
    hide Execute, AuditOk, DisjointOk, EndsOk, RecordedIn;
    Reachable(env, trace);
    var rs := Execute(env, trace).value.runs[id];
    assert RunOk(env, id, rs);
    CopiesBelow(rs.hist, rs.claims, page, rs.claims);
  }

  lemma {:induction false} RecordedCount(env: Env, rec: seq<Commit>, n: nat)
    requires Chained(env, rec) && n <= |rec|
    ensures n == PageAt(env, rec, n) - env.startPage + EndCount(env, rec[..n])
  {
    if n > 0 {
      RecordedCount(env, rec, n - 1);
      assert rec[..n][..n - 1] == rec[..n - 1];
      assert Linked(env, rec, n - 1);
    }
  }

  /** The exact account of committed transactions, in every reachable state of every execution:
      one for each page below the cursor, one for each recorded ending page, one for each commit
      whose checkpoint was lost, and the one still in flight. At most one checkpoint is lost per claim. */
  lemma {:induction false} CommitAccount(env: Env, trace: seq<Action>, id: RunId)
    requires Execute(env, trace).Some? && id in Execute(env, trace).value.runs
    ensures var rs := Execute(env, trace).value.runs[id];
      && |rs.hist| == CursorPage(env, rs.row) - env.startPage
                      + EndCount(env, RecordedIn(rs.hist)) + rs.orphans + (if rs.pending then 1 else 0)
      && rs.orphans + (if rs.pending then 1 else 0) <= rs.claims
  {
    hide Execute, AuditOk, DisjointOk, EndsOk, RecordedIn;
    Reachable(env, trace);
    var rs := Execute(env, trace).value.runs[id];
    assert RunOk(env, id, rs);
    var rec := RecordedIn(rs.hist);
    RecordedCount(env, rec, |rec|);
    assert rec[..|rec|] == rec;
  }

  /** A page that was recorded without ending the extraction is never asked for again, by the run
      or by any run continuing it. */
  lemma {:induction false} NeverRefetched(env: Env, trace: seq<Action>, task: TaskId, resp: Response, i: nat)
    requires Execute(env, trace).Some?
    requires Next(env, Execute(env, trace).value, Do(task, Respond(resp))).Some?
    requires
      var s := Execute(env, trace).value;
      var rs := s.runs[s.workers[task].msg.run];
      i < |rs.hist| && rs.hist[i].recorded && !EndsExtraction(env, rs.hist[i].resp)
    ensures
      var s := Execute(env, trace).value;
      s.workers[task].phase.page > s.runs[s.workers[task].msg.run].hist[i].page
  {
    hide Execute, AuditOk, DisjointOk, EndsOk, RecordedIn;
    Reachable(env, trace);
    var s := Execute(env, trace).value;
    var w := s.workers[task];
    var rs := s.runs[w.msg.run];
    assert WorkerOk(env, s.runs, s.queue, task, w);
    assert RunOk(env, w.msg.run, rs);
    var rec := RecordedIn(rs.hist);
    RecordedMembers(rs.hist, rs.hist[i]);
    var k :| 0 <= k < |rec| && rec[k] == rs.hist[i];
    PagesGrow(env, rec, k, |rec|);
  }

  // ---- counters -------------------------------------------------------------------------------

  /** Conservation: along every chain the page and raw-payload counters equal the number of
      recorded pages, and the record counters the records of those pages. */
  lemma {:induction false} CountersConserved(env: Env, trace: seq<Action>, id: RunId)
    requires Execute(env, trace).Some? && id in Execute(env, trace).value.runs
    ensures
      var rs := Execute(env, trace).value.runs[id];
      var rec := RecordedIn(rs.hist);
      && rs.row.pagesExtracted == rs.row.rawPayloadCount == |rec|
      && rs.row.recordsExtracted == rs.row.recordsLoaded == RecordTotal(rec)
      && forall k | 0 <= k < |rec| :: rec[k].sequence == k + 1
  {
    hide Execute, RunOk, RecordedIn;
    HistoryFacts(env, trace, id);
    var rec := RecordedIn(Execute(env, trace).value.runs[id].hist);
    forall k | 0 <= k < |rec| ensures rec[k].sequence == k + 1 {
      assert Linked(env, rec, k);
    }
  }

  // ---- page limits and continuations ----------------------------------------------------------

  /** A continuable run carries a cursor that names the first page not yet loaded: every page
      before it is recorded, no commit reaches it, none is left without its checkpoint. */
  lemma {:induction false} PageLimitCursor(env: Env, trace: seq<Action>, id: RunId)
    requires Execute(env, trace).Some? && id in Execute(env, trace).value.runs
    requires IsContinuable(Execute(env, trace).value.runs[id].row)
    ensures var rs := Execute(env, trace).value.runs[id];
      && rs.row.cursor.Some?
      && !rs.pending
      && (forall page | env.startPage <= page < rs.row.cursor.value :: HasRecordedPage(env, rs.hist, page))
      && (forall i | 0 <= i < |rs.hist| ::
          rs.hist[i].page < rs.row.cursor.value && rs.hist[i].sequence <= rs.row.pagesExtracted)
  {
    hide Execute, RecordedIn, MapRecords, HasRecordedPage, HistOk, AuditOk, DisjointOk, EndsOk;
    HistoryFacts(env, trace, id);
    var rs := Execute(env, trace).value.runs[id];
    forall page | env.startPage <= page < rs.row.cursor.value ensures HasRecordedPage(env, rs.hist, page) {
      AtLeastOnce(env, trace, id, page);
    }
  }

  /** Two runs of one chain never commit the same page or the same sequence number. */
  lemma {:induction false} ContinuationDisjoint(env: Env, trace: seq<Action>, id: RunId, i: nat, j: nat)
    requires Execute(env, trace).Some? && id in Execute(env, trace).value.runs
    requires var hist := Execute(env, trace).value.runs[id].hist;
      i < |hist| && j < |hist| && hist[i].run != hist[j].run
    ensures var hist := Execute(env, trace).value.runs[id].hist;
      hist[i].page != hist[j].page && hist[i].sequence != hist[j].sequence
  {
    hide Execute, HistOk, AuditOk, EndsOk, RecordedIn;
    Reachable(env, trace);
    assert RunOk(env, id, Execute(env, trace).value.runs[id]);
  }
}
