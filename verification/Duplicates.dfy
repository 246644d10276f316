/** Exactly which rows are in the destination more than once, in every execution over a stable source,
    whatever failed and wherever workers died. */
module Duplicates {
  import opened Prelude
  import opened Mapping
  import opened Claims
  import opened Protocol
  import opened RunInvariant
  import opened ProtocolInvariant
  import opened Delivery
  import opened Refinement

  /** The commits whose checkpoint was never saved. */
  function LostIn(hist: seq<Commit>): seq<Commit> {
    if hist == [] then []
    else
      var front := LostIn(hist[..|hist| - 1]);
      var last := hist[|hist| - 1];
      if last.recorded then front else front + [last]
  }

  function RowsOf(hist: seq<Commit>): seq<Mapping.Row> {
    Flatten(HistRows(hist))
  }

  function Repeat(rows: seq<Mapping.Row>, n: nat): seq<Mapping.Row> {
    if n == 0 then [] else Repeat(rows, n - 1) + rows
  }

  lemma {:induction false} RowsAppend(hist: seq<Commit>, c: Commit)
    ensures RowsOf(hist + [c]) == RowsOf(hist) + c.rows
  {
    assert HistRows(hist + [c]) == HistRows(hist) + [c.rows];
    FlattenAppend(HistRows(hist), c.rows);
  }

  /** A history is its recorded and its lost commits. */
  lemma {:induction false} RowsSplit(hist: seq<Commit>)
    ensures multiset(RowsOf(hist)) == multiset(RowsOf(RecordedIn(hist))) + multiset(RowsOf(LostIn(hist)))
    ensures |hist| == |RecordedIn(hist)| + |LostIn(hist)|
  {
    if hist != [] {
      var front, last := hist[..|hist| - 1], hist[|hist| - 1];
      RowsSplit(front);
      assert hist == front + [last];
      RowsAppend(front, last);
      RowsAppend(RecordedIn(front), last);
      RowsAppend(LostIn(front), last);
    }
  }

  /** The rows of the recorded pages when page `next` is the one to fetch and `ends` ended. */
  function Expected(env: Env, next: nat, ends: nat): seq<Mapping.Row> {
    FullRows(env, env.startPage, next) + Repeat(PageRows(env, next), ends)
  }

  lemma {:induction false} ExpectedNext(env: Env, page: nat, ends: nat)
    requires env.startPage <= page
    ensures Expected(env, page, ends) + PageRows(env, page) == Expected(env, page, ends + 1)
    ensures ends == 0 ==> Expected(env, page, ends) + PageRows(env, page) == Expected(env, page + 1, 0)
  {
    hide PageRows;
    assert FullRows(env, env.startPage, page + 1) == FullRows(env, env.startPage, page) + PageRows(env, page);
  }

  lemma {:induction false} RowsStep(env: Env, front: seq<Commit>, c: Commit, ends: nat)
    requires env.startPage <= c.page && RowsOf(front) == Expected(env, c.page, ends) && c.rows == PageRows(env, c.page)
    ensures RowsOf(front + [c]) == Expected(env, c.page, ends + 1)
    ensures ends == 0 ==> RowsOf(front + [c]) == Expected(env, c.page + 1, 0)
  {
    hide Expected, PageRows, RowsOf;
    RowsAppend(front, c);
    ExpectedNext(env, c.page, ends);
  }

  predicate StableRecord(env: Env, c: Commit) {
    FromPage(env, c.resp, c.page) && MapRecords(c.resp.records, env.mapping, env.strict) == Ok(c.rows)
  }

  lemma {:induction false} StableRecordRows(env: Env, c: Commit)
    requires StableRecord(env, c)
    ensures c.rows == PageRows(env, c.page)
  {
    hide MapRecords;
  }

  /** The recorded pages of a stable source: every page before the next one to fetch, once and in
      order, then the ending page as often as it was recorded. */
  lemma {:induction false} RecordedRows(env: Env, rec: seq<Commit>, n: nat)
    requires Chained(env, rec) && n <= |rec|
    requires forall k | 0 <= k < |rec| :: StableRecord(env, rec[k])
    ensures env.startPage <= PageAt(env, rec, n)
    ensures RowsOf(rec[..n]) == Expected(env, PageAt(env, rec, n), EndCount(env, rec[..n]))
  {
    hide Expected, StableRecord, EndsExtraction, Chained, RowsOf, EndCount, PageRows;
    if n == 0 {
      NoRows(env);
      assert rec[..0] == [];
    } else {
      var c := rec[n - 1];
      RecordedRows(env, rec, n - 1);
      LinkedAt(env, rec, n - 1);
      StableRecordRows(env, c);
      assert rec[..n] == rec[..n - 1] + [c];
      RowsStep(env, rec[..n - 1], c, EndCount(env, rec[..n - 1]));
      EndCountAppend(env, rec[..n - 1], c);
      if !EndsExtraction(env, c.resp) {
        NoEndYet(env, rec, n);
      }
    }
  }

  lemma {:induction false} NoRows(env: Env)
    ensures RowsOf([]) == Expected(env, env.startPage, EndCount(env, []))
  {
    assert HistRows([]) == [];
  }

  lemma {:induction false} NoEndYet(env: Env, rec: seq<Commit>, n: nat)
    requires Chained(env, rec) && 0 < n <= |rec| && !EndsExtraction(env, rec[n - 1].resp)
    requires forall k | 0 <= k < |rec| :: StableRecord(env, rec[k])
    ensures EndCount(env, rec[..n]) == 0
  {
    hide Chained, EndsExtraction, EndCount, MapRecords;
    NoEndBefore(env, rec, n);
  }

  lemma {:induction false} LinkedAt(env: Env, rec: seq<Commit>, k: nat)
    requires Chained(env, rec) && k < |rec|
    ensures Linked(env, rec, k)
  {
    hide Linked;
  }

  lemma {:induction false} RecordedStable(env: Env, hist: seq<Commit>)
    requires RowsOk(env, hist)
    requires forall i | 0 <= i < |hist| :: FromPage(env, hist[i].resp, hist[i].page)
    ensures var rec := RecordedIn(hist);
      forall k | 0 <= k < |rec| :: StableRecord(env, rec[k])
  {
    hide MapRecords, RecordedIn;
    var rec := RecordedIn(hist);
    forall k | 0 <= k < |rec| ensures StableRecord(env, rec[k]) {
      RecordedMembers(hist, rec[k]);
    }
  }

  /** The rows in the destination, accounted for in every reachable state: the rows of every page
      below the cursor once, those of the ending page as often as it was recorded, and those of the
      commits whose checkpoint was lost, of which there is at most one per claim. */
  lemma {:induction false} RowsAccounted(env: Env, trace: seq<Action>, id: RunId)
    requires StableFor(env, trace, id)
    ensures
      var s := Execute(env, trace).value;
      var rs := s.runs[id];
      var cursor := CursorPage(env, rs.row);
      && multiset(Flatten(ByChain(s.dest, rs.chain)))
         == multiset(FullRows(env, env.startPage, cursor))
            + multiset(Repeat(PageRows(env, cursor), EndCount(env, RecordedIn(rs.hist))))
            + multiset(RowsOf(LostIn(rs.hist)))
      && |LostIn(rs.hist)| == rs.orphans + (if rs.pending then 1 else 0) <= rs.claims
  {
    hide Execute, Stable, RecordedIn, LostIn, MapRecords, AuditOk, DisjointOk, EndsOk, ByChain, FullRows, PageRows,
        EndsExtraction, StableRecord, EndCount, Repeat;
    var s := Execute(env, trace).value;
    var rs := s.runs[id];
    var rec := RecordedIn(rs.hist);
    HistoryFacts(env, trace, id);
    StableHistory(env, trace, id);
    DestinationIsHistory(env, trace);
    RowsSplit(rs.hist);
    RecordedStable(env, rs.hist);
    RecordedRows(env, rec, |rec|);
    assert rec[..|rec|] == rec;
  }

  /** What a finished run left in the destination beyond one copy of every page. */
  function Surplus(env: Env, rs: RunState): seq<Mapping.Row> {
    var ends := EndCount(env, RecordedIn(rs.hist));
    Repeat(PageRows(env, CursorPage(env, rs.row)), if ends > 0 then ends - 1 else 0) + RowsOf(LostIn(rs.hist))
  }

  lemma {:induction false} EndIsCounted(env: Env, rec: seq<Commit>, k: nat)
    requires k < |rec| && EndsExtraction(env, rec[k].resp)
    ensures EndCount(env, rec) > 0
  {
    hide EndsExtraction;
    if k < |rec| - 1 {
      EndIsCounted(env, rec[..|rec| - 1], k);
    }
  }

  /** A SUCCEEDED run that recorded no ending page ended on an empty page, which has no rows. */
  lemma {:induction false} UncountedEndIsEmpty(env: Env, trace: seq<Action>, id: RunId)
    requires StableFor(env, trace, id)
    requires Execute(env, trace).value.runs[id].row.status == Succeeded
    ensures var rs := Execute(env, trace).value.runs[id];
      EndCount(env, RecordedIn(rs.hist)) == 0 ==> PageRows(env, CursorPage(env, rs.row)) == []
  {
    hide Execute, Stable, RecordedIn, HasRecordedPage, EndCount, EndsExtraction;
    var rs := Execute(env, trace).value.runs[id];
    NoSilentTruncation(env, trace, id);
    StableHistory(env, trace, id);
    if Yieldable(env, rs.seen.value.resp) {
      var i :| 0 <= i < |rs.hist| && rs.hist[i].recorded && rs.hist[i].resp == rs.seen.value.resp;
      RecordedMembers(rs.hist, rs.hist[i]);
      var k :| 0 <= k < |RecordedIn(rs.hist)| && RecordedIn(rs.hist)[k] == rs.hist[i];
      EndIsCounted(env, RecordedIn(rs.hist), k);
    }
  }

  lemma {:induction false} SurplusSum(total: multiset<Mapping.Row>, full: seq<Mapping.Row>, page: seq<Mapping.Row>,
      ends: nat, lost: seq<Mapping.Row>)
    requires total == multiset(full) + multiset(Repeat(page, ends)) + multiset(lost)
    requires ends == 0 ==> page == []
    ensures
      var surplus := Repeat(page, if ends > 0 then ends - 1 else 0) + lost;
      && total == multiset(full + page) + multiset(surplus)
      && (total == multiset(full + page) <==> surplus == [])
  {
    var surplus := Repeat(page, if ends > 0 then ends - 1 else 0) + lost;
    assert total == multiset(full + page) + multiset(surplus);
    assert |multiset(surplus)| == |surplus|;
    assert |total| == |multiset(full + page)| + |surplus|;
  }

  /** After a success over a stable source the destination holds every row of the uncapped run, plus
      the surplus; it holds exactly those rows if and only if there is no surplus. */
  lemma {:induction false} SuccessHoldsReferenceAndSurplus(env: Env, trace: seq<Action>, id: RunId)
    requires StableFor(env, trace, id)
    requires Execute(env, trace).value.runs[id].row.status == Succeeded
    ensures
      var s := Execute(env, trace).value;
      var rs := s.runs[id];
      var end := CursorPage(env, rs.row);
      var loaded := multiset(Flatten(ByChain(s.dest, rs.chain)));
      && FirstEnd(env, end)
      && loaded == multiset(FullRows(env, env.startPage, end + 1)) + multiset(Surplus(env, rs))
      && (loaded == multiset(FullRows(env, env.startPage, end + 1)) <==> Surplus(env, rs) == [])
  {
    hide Execute, Stable, RecordedIn, LostIn, ByChain, PageRows, EndCount, Repeat, RowsOf;
    var s := Execute(env, trace).value;
    var rs := s.runs[id];
    var end := CursorPage(env, rs.row);
    RowsAccounted(env, trace, id);
    SucceededAtFirstEnd(env, trace, id);
    UncountedEndIsEmpty(env, trace, id);
    SurplusSum(multiset(Flatten(ByChain(s.dest, rs.chain))), FullRows(env, env.startPage, end), PageRows(env, end),
               EndCount(env, RecordedIn(rs.hist)), RowsOf(LostIn(rs.hist)));
  }
}
