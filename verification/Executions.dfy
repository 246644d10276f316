/** The uncapped, failure-free run, which every clean success is compared with. */
module Executions {
  import opened Prelude
  import opened Mapping
  import opened Claims
  import opened Protocol
  import opened RunInvariant
  import opened ProtocolInvariant
  import opened Delivery
  import opened Refinement

  lemma {:induction false} ExecuteAppend(env: Env, trace: seq<Action>, a: Action, ids: set<RunId>)
    ensures Execute(env, trace + [a]) == match Execute(env, trace) case None => None case Some(s) => Next(env, s, a)
    ensures Clean(env, trace + [a], ids) <==>
      Clean(env, trace, ids) && (Execute(env, trace).Some? ==> CleanStep(env, Execute(env, trace).value, a, ids))
    ensures Stable(env, trace + [a], ids) <==>
      Stable(env, trace, ids) && (Execute(env, trace).Some? ==> StableStep(env, Execute(env, trace).value, a, ids))
  {
    hide Next, CleanStep, StableStep;
    assert (trace + [a])[..|trace|] == trace;
  }

  // ---- the uncapped, failure-free run ---------------------------------------------------------

  /** One run, one task, one claim with a cap too high to matter. */
  function StartTrace(cap: nat): seq<Action> {
    [Create(0, None), Enqueue(0, 0), Deliver(0), Claim(0, cap)]
  }

  function PageEvents(resp: Response): seq<Event> {
    [Respond(resp), StoreRaw, Load, MarkLoaded, Checkpoint]
  }

  function DoAll(events: seq<Event>): seq<Action> {
    seq(|events|, i requires 0 <= i < |events| => Do(0, events[i]))
  }

  /** The first `n` pages, each fetched, stored, loaded, marked and checkpointed once. */
  function PagesTrace(env: Env, cap: nat, n: nat): seq<Action> {
    if n == 0 then StartTrace(cap)
    else PagesTrace(env, cap, n - 1) + DoAll(PageEvents(env.source(env.startPage + n - 1)))
  }

  /** The run that fetches page after page, up to and including the ending page, and succeeds. */
  function UncappedTrace(env: Env, end: nat): seq<Action>
    requires env.startPage <= end
  {
    var n := end - env.startPage;
    var resp := env.source(end);
    PagesTrace(env, n + 2, n) + DoAll((if Yieldable(env, resp) then PageEvents(resp) else [Respond(resp)]) + [Finish])
  }

  predicate PageMaps(env: Env, page: nat) {
    MapRecords(env.source(page).records, env.mapping, env.strict).Ok?
  }

  /** An execution in which only run 0 and task 0 exist and nothing ever failed. */
  predicate Smooth(env: Env, trace: seq<Action>) {
    && Execute(env, trace).Some? && Clean(env, trace, {0}) && Stable(env, trace, {0})
    && var s := Execute(env, trace).value;
       0 in s.workers && 0 in s.runs && s.workers[0].msg.run == 0 && s.runs[0].chain == {0}
  }

  predicate AtPage(env: Env, trace: seq<Action>, cap: nat, n: nat) {
    && Smooth(env, trace)
    && var w := Execute(env, trace).value.workers[0];
       w.phase.Executing? && w.phase.pc.Fetching? && w.phase.page == env.startPage + n
       && w.phase.yielded == n && w.phase.maxPages == cap
  }

  /** One event of the only worker. */
  lemma {:induction false} SmoothStep(env: Env, trace: seq<Action>, ev: Event)
    requires Smooth(env, trace)
    requires !ev.Raise? && !ev.LoadLost?
    requires var s := Execute(env, trace).value;
      && Advance(env, s.runs[0], s.workers[0], ev).Some?
      && (ev.Respond? && s.workers[0].phase.Executing? ==> ev.resp == env.source(s.workers[0].phase.page))
    ensures Smooth(env, trace + [Do(0, ev)])
    ensures var s := Execute(env, trace).value;
      var s' := Execute(env, trace + [Do(0, ev)]).value;
      var eff := Advance(env, s.runs[0], s.workers[0], ev).value;
      s'.runs[0] == eff.run && s'.workers[0] == eff.worker
  {
    hide Execute, Clean, Stable, Advance, InWindow, Inv;
    ExecuteAppend(env, trace, Do(0, ev), {0});
    Reachable(env, trace);
    var s := Execute(env, trace).value;
    WorkerFacts(env, s, 0);
    ChainKept(env, s, ev);
  }

  lemma {:induction false} ChainKept(env: Env, s: State, ev: Event)
    requires Inv(env, s) && DoNext(env, s, 0, ev).Some?
    ensures var eff := Advance(env, s.runs[s.workers[0].msg.run], s.workers[0], ev).value;
      eff.run.chain == s.runs[s.workers[0].msg.run].chain && eff.worker.msg == s.workers[0].msg
  {
    hide Inv, Advance, RunOk, ExecOk, Forward;
    DoKeeps(env, s, 0, ev);
  }

  /** Where the generator leaves the worker once the page is processed. */
  predicate AfterYield(env: Env, before: Worker, after: Worker, resp: Response) {
    && before.phase.Executing? && after.phase.Executing?
    && after.phase.maxPages == before.phase.maxPages
    && (EndsExtraction(env, resp) ==> after.phase.pc.Exhausted?)
    && (!EndsExtraction(env, resp) && before.phase.yielded + 1 < before.phase.maxPages ==>
          after.phase.pc.Fetching? && after.phase.page == before.phase.page + 1
          && after.phase.yielded == before.phase.yielded + 1)
  }

  /** The five events of a yielded page. */
  lemma {:induction false} SmoothPage(env: Env, trace: seq<Action>, cap: nat, n: nat)
    requires AtPage(env, trace, cap, n)
    requires Yieldable(env, env.source(env.startPage + n)) && PageMaps(env, env.startPage + n)
    ensures
      var resp := env.source(env.startPage + n);
      var after := trace + DoAll(PageEvents(resp));
      && Smooth(env, after)
      && AfterYield(env, Execute(env, trace).value.workers[0], Execute(env, after).value.workers[0], resp)
  {
    hide Execute, Smooth, MapRecords;
    var resp := env.source(env.startPage + n);
    MapRecordsSpec(resp.records, env.mapping, env.strict);
    SmoothFacts(env, trace);
    SmoothStep(env, trace, Respond(resp));
    var t1 := trace + [Do(0, Respond(resp))];
    SmoothFacts(env, t1);
    SmoothStep(env, t1, StoreRaw);
    var t2 := t1 + [Do(0, StoreRaw)];
    SmoothFacts(env, t2);
    SmoothStep(env, t2, Load);
    var t3 := t2 + [Do(0, Load)];
    SmoothFacts(env, t3);
    SmoothStep(env, t3, MarkLoaded);
    var t4 := t3 + [Do(0, MarkLoaded)];
    SmoothFacts(env, t4);
    SmoothStep(env, t4, Checkpoint);
    assert trace + DoAll(PageEvents(resp)) == t4 + [Do(0, Checkpoint)];
  }

  lemma {:induction false} SmoothFacts(env: Env, trace: seq<Action>)
    requires Smooth(env, trace)
    ensures Execute(env, trace).Some?
    ensures var s := Execute(env, trace).value; 0 in s.workers && 0 in s.runs
  {
    hide Execute, Clean, Stable;
  }

  lemma {:induction false} SmoothStart(env: Env, cap: nat)
    requires cap > 0
    ensures AtPage(env, StartTrace(cap), cap, 0)
  {
    var s0 := INIT;
    var t1 := [Create(0, None)];
    ExecuteAppend(env, [], Create(0, None), {0});
    assert [] + [Create(0, None)] == t1;
    ExecuteAppend(env, t1, Enqueue(0, 0), {0});
    var t2 := t1 + [Enqueue(0, 0)];
    ExecuteAppend(env, t2, Deliver(0), {0});
    var t3 := t2 + [Deliver(0)];
    ExecuteAppend(env, t3, Claim(0, cap), {0});
    assert StartTrace(cap) == t3 + [Claim(0, cap)];
  }

  lemma {:induction false} SmoothPages(env: Env, cap: nat, n: nat)
    requires n < cap
    requires forall page | env.startPage <= page < env.startPage + n ::
      !EndsExtraction(env, env.source(page)) && PageMaps(env, page)
    ensures AtPage(env, PagesTrace(env, cap, n), cap, n)
  {
    hide Execute, Smooth, PageMaps;
    if n == 0 {
      SmoothStart(env, cap);
    } else {
      SmoothPages(env, cap, n - 1);
      SmoothPage(env, PagesTrace(env, cap, n - 1), cap, n - 1);
      SmoothFacts(env, PagesTrace(env, cap, n));
    }
  }

  /** The uncapped run exists: for a source that ends and whose pages all map, it succeeds. */
  lemma {:induction false} UncappedSucceeds(env: Env, end: nat)
    requires FirstEnd(env, end)
    requires forall page | env.startPage <= page <= end :: PageMaps(env, page)
    ensures
      var trace := UncappedTrace(env, end);
      && Smooth(env, trace)
      && Execute(env, trace).value.runs[0].row.status == Succeeded
  {
    hide Execute, Smooth, PageMaps;
    var n := end - env.startPage;
    var resp := env.source(end);
    var base := PagesTrace(env, n + 2, n);
    SmoothPages(env, n + 2, n);
    SmoothFacts(env, base);
    var before := base + DoAll(if Yieldable(env, resp) then PageEvents(resp) else [Respond(resp)]);
    if Yieldable(env, resp) {
      SmoothPage(env, base, n + 2, n);
    } else {
      SmoothStep(env, base, Respond(resp));
      assert before == base + [Do(0, Respond(resp))];
    }
    SmoothFacts(env, before);
    ExhaustedRuns(env, before);
    SmoothStep(env, before, Finish);
    assert UncappedTrace(env, end) == before + [Do(0, Finish)];
  }

  lemma {:induction false} ExhaustedRuns(env: Env, trace: seq<Action>)
    requires Smooth(env, trace)
    requires var w := Execute(env, trace).value.workers[0]; w.phase.Executing? && w.phase.pc.Exhausted?
    ensures Execute(env, trace).value.workers[0].phase.mem.status == Running
  {
    hide Execute, Clean, Stable, RunOk, RunsOk, ChainsOk, PcOk;
    Reachable(env, trace);
    var s := Execute(env, trace).value;
    assert WorkerOk(env, s.runs, s.queue, 0, s.workers[0]);
  }

  /** Refinement, in one statement: a clean execution over a stable source that ends SUCCEEDED has
      left in the destination, in order, the rows of the single uncapped failure-free run. */
  lemma {:induction false} EveryCleanSuccessEqualsTheUncappedRun(env: Env, trace: seq<Action>, id: RunId)
    requires StableFor(env, trace, id) && CleanFor(env, trace, id)
    requires Execute(env, trace).value.runs[id].row.status == Succeeded
    ensures
      var s := Execute(env, trace).value;
      var end := CursorPage(env, s.runs[id].row);
      && env.startPage <= end
      && Execute(env, UncappedTrace(env, end)).Some?
      && var u := Execute(env, UncappedTrace(env, end)).value;
         0 in u.runs && u.runs[0].row.status == Succeeded
         && Flatten(ByChain(s.dest, s.runs[id].chain)) == Flatten(ByChain(u.dest, {0}))
  {
    hide Execute, Stable, Clean, RecordedIn, MapRecords, HistOk, AuditOk, DisjointOk, EndsOk, ByChain, UncappedTrace,
        HasRecordedPage;
    var s := Execute(env, trace).value;
    var rs := s.runs[id];
    var end := CursorPage(env, rs.row);
    SucceededAtFirstEnd(env, trace, id);
    NoSilentTruncation(env, trace, id);
    StableHistory(env, trace, id);
    HistoryFacts(env, trace, id);
    forall page | env.startPage <= page <= end ensures PageMaps(env, page) {
      if page < end {
        RecordedPageMaps(env, rs, page);
      } else {
        EndMaps(env, rs);
      }
    }
    UncappedSucceeds(env, end);
    CappedEqualsUncapped(env, trace, id, UncappedTrace(env, end), 0);
  }

  lemma {:induction false} RecordedPageMaps(env: Env, rs: RunState, page: nat)
    requires HasRecordedPage(env, rs.hist, page) && FromSource(env, rs)
    ensures PageMaps(env, page)
  {
    hide MapRecords;
  }

  lemma {:induction false} EndMaps(env: Env, rs: RunState)
    requires FromSource(env, rs) && rs.seen.Some? && RowsOk(env, rs.hist)
    requires Yieldable(env, rs.seen.value.resp) ==>
      exists i :: 0 <= i < |rs.hist| && rs.hist[i].recorded && rs.hist[i].resp == rs.seen.value.resp
        && rs.hist[i].page == rs.seen.value.page
    ensures PageMaps(env, rs.seen.value.page)
  {
    if !Yieldable(env, rs.seen.value.resp) {
      assert rs.seen.value.resp.records == [];
    }
  }
}
