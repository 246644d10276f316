/** One attempt from end to end: the page loop (`_extract_and_load`), `run_pipeline`
    (apps/execution/orchestration.py) and the task around it (apps/execution/tasks.py). Whatever the
    source, the raw store, the mapping and the destination do, the attempt is a sequence of steps
    of the protocol, so everything proved of its reachable states holds of the rows it leaves. */
module PipelineTask {
  import opened Prelude
  import opened Paths
  import opened Mapping
  import opened Claims
  import opened Protocol
  import opened Orchestration
  import opened Runs
  import opened RawStore
  import AuditTrail
  import ProtocolInvariant
  import RawService
  import RestApi
  import Retries
  import RunInvariant
  import SqlServer

  /** The generator and the protocol agree on where the attempt stands between two pages. */
  predicate Aligned(point: RestApi.Point, page: nat, pagesYielded: nat, cap: nat, e: Phase) {
    && e.Executing? && e.maxPages == cap
    && match point
       case NotStarted => e.pc == Fetching && e.page == page && e.yielded == pagesYielded == 0
       case AtEmptyYield => e.pc == Exhausted
       case AtYield(short) =>
         if short then e.pc == Exhausted
         else
           && e.yielded == pagesYielded + 1
           && (if e.yielded >= cap then e.pc == Raised(PAGE_LIMIT_EXCEEDED)
               else e.pc == Fetching && e.page == page + 1)
       case Closed => false
  }

  lemma {:induction false} ResumeAligned(env: Env, config: RestApi.Config, records: seq<Json>, body: Bytes, e: Phase)
    requires Matches(env, config) && e.Executing? && e.maxPages == Cap(config)
    ensures Aligned(RestApi.YieldPoint(config, records), e.page, e.yielded, Cap(config),
        Resume(env, e, Response(records, body)))
  {
  }

  /** The rows are those of the journal's state, where `t` executes `run` and has the same copy of it. */
  ghost predicate Current(env: Env, p: Platform, j: Journal, t: TaskId, run: PipelineRun)
    reads p, p.runs, p.records, p.table, run
  {
    && JournalOk(env, j) && Represents(p, j.now) && j.origin.task == t
    && t in j.now.workers && j.now.workers[t].msg.run == run.id && run.id in j.now.runs
    && j.now.workers[t].phase.Executing? && j.now.workers[t].phase.mem == run.Value()
  }

  lemma {:induction false} ResumeKeeps(env: Env, e: Phase, resp: Response)
    requires e.Executing?
    ensures var after := Resume(env, e, resp);
      after.Executing? && after.mem == e.mem && after.maxPages == e.maxPages && after.sequence == e.sequence
  {
  }

  lemma {:induction false} StoringFails(env: Env, p: Platform, id: RunId, world: World, k: nat, records: seq<Json>,
      body: Bytes, err: Error)
    requires RawService.StoreFails(p.store.client.objects, PageKey(p, id, env.sha, k + 1, body), body, world.store(k),
                                   AsError(world.insert(k)), err)
    ensures PageFails(env, p, id, world, k, records, body, err)
  {
    hide RawService.StoreFails, PageKey, MapRecords, SqlServer.CanFail;
  }

  lemma {:induction false} LoadingFails(env: Env, p: Platform, id: RunId, world: World, k: nat, records: seq<Json>,
      body: Bytes, err: Error)
    requires match MapRecords(records, env.mapping, env.strict)
      case Err(_) => err == MAPPING_ERROR
      case Ok(rows) => SqlServer.CanFail(world.destination, p.table.columns, rows, world.load(k), err)
    ensures PageFails(env, p, id, world, k, records, body, err)
  {
    hide RawService.StoreFails, PageKey, MapRecords, SqlServer.CanFail;
  }

  lemma {:induction false} SavingFails(env: Env, p: Platform, id: RunId, world: World, k: nat, records: seq<Json>,
      body: Bytes, err: Error)
    requires world.mark(k) == Some(err) || world.save(k) == Some(err)
    ensures PageFails(env, p, id, world, k, records, body, err)
  {
    hide RawService.StoreFails, PageKey, MapRecords, SqlServer.CanFail;
  }

  /** The last two writes of a page: the mark on the raw row and the checkpoint. */
  method SavePage(p: Platform, run: PipelineRun, env: Env, sequence: nat, page: RestApi.FetchResult, world: World,
      k: nat, count: nat, ghost j: Journal, ghost t: TaskId)
    returns (r: Result<(), Error>, ghost j': Journal)
    requires var resp := Response(page.records, page.body);
      && Current(env, p, j, t, run) && j.now.workers[t].phase.pc == Loaded(resp, count)
      && j.now.workers[t].phase.sequence == sequence && j.now.workers[t].phase.page == page.cursorUsed
      && page.nextCursor == (if EndsExtraction(env, resp) then None else Some(page.cursorUsed + 1))
    requires (p.name(run.id), sequence, env.sha(page.body)) in p.records.rows
    modifies p`raws, p.runs, p.records
    modifies run`pagesExtracted, run`recordsExtracted, run`recordsLoaded, run`rawPayloadCount, run`cursor
    ensures j'.origin == j.origin && t in j'.now.workers && j'.now.workers[t].msg == j.now.workers[t].msg
    ensures RawsKept(p, run.id, env.sha, p.store.client.objects, old(p.records.rows), p.store.client.objects,
        p.records.rows)
    ensures r.Err? ==> world.mark(k) == Some(r.error) || world.save(k) == Some(r.error)
    ensures r.Err? ==> Sim(env, p, j', t, run.id, Raised(r.error)) && j'.now.workers[t].phase.mem == run.Value()
    ensures r.Ok? ==>
      && Current(env, p, j', t, run)
      && j'.now.workers[t].phase
         == Resume(env, j.now.workers[t].phase.(mem := run.Value(),
             pc := Marked(Response(page.records, page.body), count)),
                   Response(page.records, page.body))
  {
    hide MapRecords, Agrees, JournalOk, EndsExtraction, Resume, Represents, RawsKept;
    ghost var resp := Response(page.records, page.body);
    RawsKeptItself(p, run.id, env.sha, p.store.client.objects, p.records.rows);
    MarkingKeeps(p, run.id, env.sha, p.store.client.objects, p.records.rows,
        (p.name(run.id), sequence, env.sha(page.body)));
    var marked;
    marked, j' := MarkRawLoaded(p, run.id, env, sequence, Response(page.records, page.body), count, world.mark(k),
        j, t);
    if marked.Err? {
      return marked, j';
    }
    ghost var e := j'.now.workers[t].phase;
    r, j' := CheckpointPage(p, run, env, sequence, page, count, world.save(k), j', t);
    ResumeKeeps(env, e.(mem := run.Value()), resp);
  }

  /** What a page reaches, once fetched: stored, mapped and loaded, marked, checkpointed. */
  method ProcessPage(p: Platform, run: PipelineRun, env: Env, sequence: nat, page: RestApi.FetchResult, world: World,
      k: nat, ghost j: Journal, ghost t: TaskId)
    returns (r: Result<(), Error>, ghost j': Journal)
    requires sequence == k + 1
    requires var resp := Response(page.records, page.body);
      && Current(env, p, j, t, run) && j.now.workers[t].phase.pc == Got(resp)
      && j.now.workers[t].phase.sequence == sequence && j.now.workers[t].phase.page == page.cursorUsed
      && page.nextCursor == (if EndsExtraction(env, resp) then None else Some(page.cursorUsed + 1))
    modifies p`raws, p`dest, p.runs, p.records, p.store.client, p.table
    modifies run`pagesExtracted, run`recordsExtracted, run`recordsLoaded, run`rawPayloadCount, run`cursor
    ensures RawsKept(p, run.id, env.sha, old(p.store.client.objects), old(p.records.rows),
                     p.store.client.objects, p.records.rows)
    ensures j'.origin == j.origin && t in j'.now.workers && j'.now.workers[t].msg == j.now.workers[t].msg
    ensures r.Err? ==> PageFails(env, p, run.id, world, k, page.records, page.body, r.error)
    ensures r.Err? ==> Sim(env, p, j', t, run.id, Raised(r.error)) && j'.now.workers[t].phase.mem == run.Value()
    ensures r.Ok? ==>
      && Current(env, p, j', t, run)
      && j'.now.workers[t].phase
         == Resume(env, j.now.workers[t].phase.(mem := run.Value(),
             pc := Marked(Response(page.records, page.body), |page.records|)),
                   Response(page.records, page.body))
  {
    hide MapRecords, Agrees, JournalOk, EndsExtraction, Resume, RawService.StoreFails, PageKey, PageFails,
        SqlServer.CanFail, Represents, RawsKept, RawService.Stores, PipelineRun.Value;
    ghost var resp := Response(page.records, page.body);
    var stored;
    stored, j' := StoreRawPayload(p, run.id, env, sequence, Response(page.records, page.body), world.contentType(k),
                                  world.store(k), world.insert(k), j, t);
    if stored.Err? {
      StoringFails(env, p, run.id, world, k, page.records, page.body, stored.error);
      return stored, j';
    }
    var loaded;
    loaded, j' := MapAndLoad(p, run.id, env, Response(page.records, page.body), world.destination, world.load(k), j',
        t);
    if loaded.Err? {
      LoadingFails(env, p, run.id, world, k, page.records, page.body, loaded.error);
      return Err(loaded.error), j';
    }
    ghost var objects, rows := p.store.client.objects, p.records.rows;
    r, j' := SavePage(p, run, env, sequence, page, world, k, loaded.value, j', t);
    RawsKeptMore(p, run.id, env.sha, old(p.store.client.objects), old(p.records.rows), objects, rows,
                 p.store.client.objects, p.records.rows);
    if r.Err? {
      SavingFails(env, p, run.id, world, k, page.records, page.body, r.error);
    }
  }

  /** The source answers; the page is yielded unless it is empty and empty pages are not retained. */
  ghost method Receive(env: Env, p: Platform, j: Journal, t: TaskId, run: PipelineRun, resp: Response)
      returns (j': Journal)
    requires Current(env, p, j, t, run) && j.now.workers[t].phase.pc == Fetching
    requires RestApi.Heard(j.origin.config, j.origin.wire, resp.records, resp.body)
    ensures Current(env, p, j', t, run) && j'.origin == j.origin
    ensures j'.now.workers[t].msg == j.now.workers[t].msg
    ensures var e := j.now.workers[t].phase;
      j'.now.workers[t].phase == if resp.records == [] && !env.retainEmpty then e.(pc := Exhausted)
                                 else e.(pc := Got(resp), sequence := e.sequence + 1)
  {
    hide MapRecords, Agrees, JournalOk, NextAll;
    j' := Journalled(env, p, j, t, run.id, Respond(resp),
        OnRespond(env, j.now.runs[run.id], j.now.workers[t], resp).value);
  }

  lemma {:induction false} NextCursorAgrees(env: Env, gen: RestApi.PageGenerator, page: RestApi.FetchResult,
      expected: nat)
    requires Matches(env, gen.config) && gen.Consistent(page, expected)
    ensures page.cursorUsed == expected
    ensures page.nextCursor == if EndsExtraction(env, Response(page.records, page.body)) then None
        else Some(page.cursorUsed + 1)
  {
  }

  lemma {:induction false} FetchArises(config: RestApi.Config, wire: RestApi.Wire, err: Error, sent: nat, page: nat)
    requires (err == Error(ConfigurationError, false) && (config.maxPages < 1 || config.startPage < 1))
          || (sent > 0 && RestApi.FailsAt(config, wire, err, sent - 1, page))
    ensures RestApi.CanFail(config, wire, err)
  {
    hide RestApi.FailsAt, RestApi.CanFail;
    if sent > 0 && RestApi.FailsAt(config, wire, err, sent - 1, page) {
      RestApi.FailsSome(config, wire, err, sent - 1, page);
    } else {
      RestApi.BadConfigFails(config, wire);
    }
  }

  /** Resume the generator, and record in the protocol what it received. */
  method NextPage(gen: RestApi.PageGenerator, p: Platform, run: PipelineRun, env: Env, ghost j: Journal,
      ghost t: TaskId)
    returns (step: RestApi.Step, ghost j': Journal)
    requires gen.Valid() && Matches(env, gen.config) && Current(env, p, j, t, run)
    requires j.origin.config == gen.config && j.origin.wire == gen.wire
    requires Aligned(gen.point, gen.page, gen.pagesYielded, Cap(gen.config), j.now.workers[t].phase)
    modifies gen
    ensures gen.Valid() && j'.origin == j.origin && Current(env, p, j', t, run)
    ensures j'.now.workers[t].msg == j.now.workers[t].msg
    ensures gen.pages == old(gen.pages) + (if step.Yield? then [step.result] else [])
    ensures step.Yield? ==> |gen.pages| <= Cap(gen.config)
    ensures step.Stop? ==> j'.now.workers[t].phase.pc == Exhausted
    ensures step.Fail? ==> j'.now.workers[t].phase.pc == Raised(step.err)
    ensures step.Fail? ==> step.err == PAGE_LIMIT_EXCEEDED || RestApi.CanFail(gen.config, gen.wire, step.err)
    ensures step.Yield? ==> RestApi.Heard(gen.config, gen.wire, step.result.records, step.result.body)
    ensures step.Yield? ==>
      var page := step.result;
      var resp := Response(page.records, page.body);
      && gen.point == RestApi.YieldPoint(gen.config, page.records)
      && page.nextCursor == (if EndsExtraction(env, resp) then None else Some(page.cursorUsed + 1))
      && j'.now.workers[t].phase
         == j.now.workers[t].phase.(page := page.cursorUsed, yielded := gen.pagesYielded, pc := Got(resp),
                                    sequence := j.now.workers[t].phase.sequence + 1)
      && gen.page == page.cursorUsed
  {
    hide MapRecords, Agrees, JournalOk, Represents, RestApi.Heard, RestApi.HeardAt, RestApi.CanFail, RestApi.FailsAt,
        RestApi.SendsOf, RestApi.PageGenerator.Valid, RestApi.YieldPoint, RestApi.PageGenerator.Consistent,
        EndsExtraction;
    j' := j;
    step := gen.Next();
    match step
    case Fail(err) =>
      if err != PAGE_LIMIT_EXCEEDED {
        FetchArises(gen.config, gen.wire, err, gen.sent, gen.page);
        j' := RaiseFault(env, p, j, t, run.id, Fetching, err);
      }
    case Stop =>
      if j.now.workers[t].phase.pc == Fetching {
        RestApi.HeardSome(gen.config, gen.wire, [], gen.body, gen.sent - 1, gen.page);
        j' := Receive(env, p, j, t, run, Response([], gen.body));
      }
    case Yield(page) =>
      NextCursorAgrees(env, gen, page, gen.page);
      RestApi.HeardSome(gen.config, gen.wire, page.records, page.body, gen.sent - 1, gen.page);
      j' := Receive(env, p, j, t, run, Response(page.records, page.body));
  }

  /** A page that was yielded, processed, and the generator and protocol aligned again. */
  method ProcessYielded(gen: RestApi.PageGenerator, p: Platform, run: PipelineRun, env: Env, sequence: nat,
      page: RestApi.FetchResult, world: World, k: nat, ghost j: Journal, ghost t: TaskId)
    returns (r: Result<(), Error>, ghost j': Journal)
    requires sequence == k + 1
    requires var resp := Response(page.records, page.body);
      && Matches(env, gen.config) && gen.wire == world.wire && Current(env, p, j, t, run)
      && j.now.workers[t].phase.pc == Got(resp) && j.now.workers[t].phase.maxPages == Cap(gen.config)
      && j.now.workers[t].phase.sequence == sequence && j.now.workers[t].phase.page == page.cursorUsed == gen.page
      && j.now.workers[t].phase.yielded == gen.pagesYielded
      && page.nextCursor == (if EndsExtraction(env, resp) then None else Some(page.cursorUsed + 1))
      && gen.point == RestApi.YieldPoint(gen.config, page.records)
      && RestApi.Heard(gen.config, gen.wire, page.records, page.body)
    modifies p`raws, p`dest, p.runs, p.records, p.store.client, p.table
    modifies run`pagesExtracted, run`recordsExtracted, run`recordsLoaded, run`rawPayloadCount, run`cursor
    ensures RawsKept(p, run.id, env.sha, old(p.store.client.objects), old(p.records.rows),
                     p.store.client.objects, p.records.rows)
    ensures j'.origin == j.origin && t in j'.now.workers && j'.now.workers[t].msg == j.now.workers[t].msg
    ensures r.Err? ==> Sim(env, p, j', t, run.id, Raised(r.error)) && j'.now.workers[t].phase.mem == run.Value()
    ensures r.Err? ==> Arises(env, gen.config, p, run.id, world, r.error)
    ensures r.Ok? ==>
      && Current(env, p, j', t, run) && j'.now.workers[t].phase.sequence == sequence
      && Aligned(gen.point, gen.page, gen.pagesYielded, Cap(gen.config), j'.now.workers[t].phase)
  {
    hide MapRecords, Represents, JournalOk, RestApi.Heard, RestApi.CanFail, PageFails, Resume, EndsExtraction,
        RestApi.YieldPoint, RawsKept, Aligned;
    ghost var e := j.now.workers[t].phase;
    r, j' := ProcessPage(p, run, env, sequence, page, world, k, j, t);
    ghost var resp := Response(page.records, page.body);
    ghost var marked := e.(mem := run.Value(), pc := Marked(resp, |page.records|));
    ResumeAligned(env, gen.config, page.records, page.body, marked);
    ResumeKeeps(env, marked, resp);
  }

  lemma {:induction false} ReadingArises(env: Env, config: RestApi.Config, p: Platform, id: RunId, world: World,
      err: Error)
    requires RestApi.CanFail(config, world.wire, err)
    ensures Arises(env, config, p, id, world, err)
  {
  }

  /** The page loop. It ends well when the generator stops, and otherwise with the first failure. */
  method ExtractAndLoad(p: Platform, run: PipelineRun, env: Env, config: RestApi.Config, world: World,
      ghost j: Journal, ghost t: TaskId)
    returns (r: Result<(), Error>, ghost j': Journal)
    requires Matches(env, config) && Current(env, p, j, t, run)
    requires j.origin.config == config && j.origin.wire == world.wire
    requires var e := j.now.workers[t].phase;
      && e.pc == Fetching && e.maxPages == Cap(config) && e.yielded == 0
      && e.page == CursorPage(env, run.Value()) && e.sequence == run.pagesExtracted
    modifies p`raws, p`dest, p.runs, p.records, p.store.client, p.table
    modifies run`pagesExtracted, run`recordsExtracted, run`recordsLoaded, run`rawPayloadCount, run`cursor
    ensures RawsKept(p, run.id, env.sha, old(p.store.client.objects), old(p.records.rows),
                     p.store.client.objects, p.records.rows)
    ensures j'.origin == j.origin && t in j'.now.workers && j'.now.workers[t].msg == j.now.workers[t].msg
    ensures r.Ok? ==> Current(env, p, j', t, run) && j'.now.workers[t].phase.pc == Exhausted
    ensures r.Err? ==> Sim(env, p, j', t, run.id, Raised(r.error)) && j'.now.workers[t].phase.mem == run.Value()
    ensures r.Err? ==> r.error == PAGE_LIMIT_EXCEEDED || Arises(env, config, p, run.id, world, r.error)
  {
    hide MapRecords, Represents, JournalOk, RestApi.Heard, RestApi.CanFail, Arises, RestApi.PageGenerator.Valid,
        EndsExtraction, RestApi.YieldPoint, RawsKept;
    j' := j;
    var gen := new RestApi.PageGenerator(config, world.wire, run.cursor);
    var sequence := run.pagesExtracted;
    RawsKeptItself(p, run.id, env.sha, p.store.client.objects, p.records.rows);
    while true
      invariant RawsKept(p, run.id, env.sha, old(p.store.client.objects), old(p.records.rows),
                         p.store.client.objects, p.records.rows)
      invariant fresh(gen) && gen.Valid() && gen.config == config && gen.wire == world.wire
      invariant Current(env, p, j', t, run) && j'.origin == j.origin && j'.now.workers[t].msg == j.now.workers[t].msg
      invariant Aligned(gen.point, gen.page, gen.pagesYielded, Cap(config), j'.now.workers[t].phase)
      invariant j'.now.workers[t].phase.sequence == sequence
      decreases Cap(config) - |gen.pages|
    {
      var k := sequence;
      var step;
      step, j' := NextPage(gen, p, run, env, j', t);
      match step
      case Fail(err) =>
        if err != PAGE_LIMIT_EXCEEDED {
          ReadingArises(env, config, p, run.id, world, err);
        }
        return Err(err), j';
      case Stop =>
        return Ok(()), j';
      case Yield(page) =>
        sequence := sequence + 1;
        ghost var objects, rows := p.store.client.objects, p.records.rows;
        r, j' := ProcessYielded(gen, p, run, env, sequence, page, world, k, j', t);
        RawsKeptMore(p, run.id, env.sha, old(p.store.client.objects), old(p.records.rows), objects, rows,
                     p.store.client.objects, p.records.rows);
        if r.Err? {
          return r, j';
        }
    }
  }

  /** `_execute`: a pipeline without a mapping, or whose connectors or credentials cannot be set up,
      fails before anything is fetched. */
  method ExecuteRun(p: Platform, run: PipelineRun, env: Env, config: RestApi.Config, world: World, ghost j: Journal,
      ghost t: TaskId)
    returns (r: Result<(), Error>, ghost j': Journal)
    requires Matches(env, config) && Current(env, p, j, t, run)
    requires j.origin.config == config && j.origin.wire == world.wire
    requires var e := j.now.workers[t].phase;
      && e.pc == Fetching && e.maxPages == Cap(config) && e.yielded == 0
      && e.page == CursorPage(env, run.Value()) && e.sequence == run.pagesExtracted
    modifies p`raws, p`dest, p.runs, p.records, p.store.client, p.table
    modifies run`pagesExtracted, run`recordsExtracted, run`recordsLoaded, run`rawPayloadCount, run`cursor
    ensures RawsKept(p, run.id, env.sha, old(p.store.client.objects), old(p.records.rows),
                     p.store.client.objects, p.records.rows)
    ensures j'.origin == j.origin && t in j'.now.workers && j'.now.workers[t].msg == j.now.workers[t].msg
    ensures env.mapping == [] ==> r == Err(MAPPING_ERROR) && p.dest == old(p.dest)
    ensures r.Ok? ==> Current(env, p, j', t, run) && j'.now.workers[t].phase.pc == Exhausted
    ensures r.Err? ==> Sim(env, p, j', t, run.id, Raised(r.error)) && j'.now.workers[t].phase.mem == run.Value()
    ensures r.Err? ==> r.error == PAGE_LIMIT_EXCEEDED || Arises(env, config, p, run.id, world, r.error)
  {
    hide MapRecords, Agrees, JournalOk, RawsKept;
    RawsKeptItself(p, run.id, env.sha, p.store.client.objects, p.records.rows);
    if env.mapping == [] {
      j' := RaiseFault(env, p, j, t, run.id, Fetching, MAPPING_ERROR);
      return Err(MAPPING_ERROR), j';
    }
    if world.setup.Some? {
      j' := RaiseFault(env, p, j, t, run.id, Fetching, world.setup.value);
      return Err(world.setup.value), j';
    }
    r, j' := ExtractAndLoad(p, run, env, config, world, j, t);
  }

  /** How `run_pipeline` ends: the claim was rejected, the run succeeded, or the failure it recorded
      is raised again. */
  datatype Ending = Rejected | Completed | Failure(err: Error)

  method RecordSuccess(p: Platform, run: PipelineRun, env: Env, ghost j: Journal, ghost t: TaskId)
    returns (ghost j': Journal)
    requires Current(env, p, j, t, run) && j.now.workers[t].phase.pc == Exhausted && run.status == Running
    modifies p.runs, run`status, run`error
    ensures JournalOk(env, j') && Represents(p, j'.now) && j'.origin == j.origin
    ensures t in j'.now.workers && j'.now.workers[t] == Worker(j.now.workers[t].msg, Finished)
    ensures run.id in old(p.runs.rows)
    ensures p.runs.rows == old(p.runs.rows)[run.id := old(p.runs.rows)[run.id].(status := Succeeded, error := None)]
  {
    hide MapRecords, Agrees, JournalOk;
    j' := Journalled(env, p, j, t, run.id, Finish, OnFinish(j.now.runs[run.id], j.now.workers[t]).value);
    var marked := run.MarkRunSucceeded(p.runs);
  }

  method RecordFailure(p: Platform, run: PipelineRun, env: Env, err: Error, isFinalAttempt: bool, ghost j: Journal,
      ghost t: TaskId)
    returns (ghost j': Journal)
    requires Sim(env, p, j, t, run.id, Raised(err)) && j.now.workers[t].phase.mem == run.Value()
        && run.status == Running
    requires isFinalAttempt == IsFinalAttempt(j.now.workers[t].msg)
    modifies p.runs, run`status, run`error
    ensures Sim(env, p, j', t, run.id, Recorded(err)) && j'.origin == j.origin
    ensures j'.now.workers[t].msg == j.now.workers[t].msg
    ensures run.id in old(p.runs.rows)
    ensures p.runs.rows == old(p.runs.rows)[run.id := old(p.runs.rows)[run.id].(
        error := Some(err),
        status := if isFinalAttempt || !err.retryable then Failed else old(p.runs.rows)[run.id].status)]
  {
    hide MapRecords, Agrees, JournalOk;
    j' := Journalled(env, p, j, t, run.id, Protocol.RecordFailure,
        OnRecordFailure(j.now.runs[run.id], j.now.workers[t]).value);
    var shouldFinalize := isFinalAttempt || !err.retryable;
    if shouldFinalize {
      var marked := run.MarkRunFailed(p.runs, err);
    } else {
      run.RecordPendingRetry(p.runs, err);
    }
  }

  /** Worker `t` holds `msg` and has not claimed its run yet. */
  ghost predicate Waiting(env: Env, p: Platform, j: Journal, t: TaskId, msg: Msg)
    reads p, p.runs, p.records, p.table
  {
    JournalOk(env, j) && Represents(p, j.now) && j.origin.task == t && t in j.now.workers
        && j.now.workers[t] == Worker(msg, Received)
  }

  lemma {:induction false} ClaimJournalled(env: Env, p: Platform, j: Journal, t: TaskId, msg: Msg, maxPages: nat)
      returns (j': Journal)
    requires Waiting(env, p, j, t, msg) && msg.task == t && maxPages == Cap(j.origin.config)
    requires msg.run in p.runs.rows && ClaimRow(p.runs.rows[msg.run], Some(t)).Ok?
    ensures JournalOk(env, j') && j'.origin == j.origin
    ensures var mem := ClaimRow(p.runs.rows[msg.run], Some(t)).value;
      && t in j'.now.workers && msg.run in j'.now.runs
      && j'.now.workers[t] == Worker(msg,
          Executing(mem, maxPages, CursorPage(env, mem), mem.pagesExtracted, 0, Fetching))
      && Agrees(p.runs.rows[msg.run := mem], p.raws, p.dest, p.queue, j'.now)
  {
    hide MapRecords, NextAll, Ended;
    var (run, worker) := ClaimStep(env, j.now.runs[msg.run], msg, maxPages).value;
    var now := j.now.(runs := j.now.runs[msg.run := run], workers := j.now.workers[t := worker]);
    NextAllAppend(env, j.origin.start, j.actions, Claim(t, maxPages));
    AgreesUpdate(p.runs.rows, p.raws, p.dest, p.queue, j.now, msg.run, run, now);
    j' := Journal(j.origin, j.actions + [Claim(t, maxPages)], now);
  }

  /** If another claim is said to hold the lock, it is a claim in progress. */
  predicate LockedOut(s: State, t: TaskId, lockedBy: Option<TaskId>) {
    lockedBy.Some? ==> lockedBy.value != t && HoldsLock(s, lockedBy.value)
  }

  lemma {:induction false} RejectJournalled(env: Env, p: Platform, j: Journal, t: TaskId, msg: Msg,
      lockedBy: Option<TaskId>)
      returns (j': Journal)
    requires Waiting(env, p, j, t, msg) && msg.task == t
    requires LockedOut(j.now, t, lockedBy)
    requires lockedBy.Some? || msg.run !in p.runs.rows || ClaimRow(p.runs.rows[msg.run], Some(t)).Err?
    ensures JournalOk(env, j') && j'.origin == j.origin && Represents(p, j'.now)
    ensures t in j'.now.workers && j'.now.workers[t] == Worker(msg, Finished)
  {
    hide MapRecords, NextAll;
    var a := if lockedBy.Some? then RejectLocked(t, lockedBy.value) else RejectClaim(t);
    NextAllAppend(env, j.origin.start, j.actions, a);
    j' := Journal(j.origin, j.actions + [a], RejectNext(j.now, t, lockedBy).value);
  }

  /** The claim the broker's worker is about to make, on both sides. */
  lemma {:induction false} ClaimOrReject(env: Env, p: Platform, j: Journal, t: TaskId, msg: Msg, maxPages: nat,
      lockedBy: Option<TaskId>) returns (j': Journal)
    requires LockedOut(j.now, t, lockedBy)
    requires Waiting(env, p, j, t, msg) && msg.task == t && maxPages == Cap(j.origin.config)
    ensures JournalOk(env, j') && j'.origin == j.origin && t in j'.now.workers
    ensures j'.now.workers[t]
         == if msg.run in p.runs.rows && lockedBy.None? && ClaimRow(p.runs.rows[msg.run], Some(t)).Ok? then
              var mem := ClaimRow(p.runs.rows[msg.run], Some(t)).value;
              Worker(msg, Executing(mem, maxPages, CursorPage(env, mem), mem.pagesExtracted, 0, Fetching))
            else Worker(msg, Finished)
    ensures if msg.run in p.runs.rows && lockedBy.None? && ClaimRow(p.runs.rows[msg.run], Some(t)).Ok? then
              && msg.run in j'.now.runs
              && Agrees(p.runs.rows[msg.run := ClaimRow(p.runs.rows[msg.run], Some(t)).value], p.raws, p.dest,
                  p.queue, j'.now)
            else Represents(p, j'.now)
  {
    hide MapRecords, Agrees, JournalOk;
    if msg.run in p.runs.rows && lockedBy.None? && ClaimRow(p.runs.rows[msg.run], Some(t)).Ok? {
      j' := ClaimJournalled(env, p, j, t, msg, maxPages);
    } else {
      j' := RejectJournalled(env, p, j, t, msg, lockedBy);
    }
  }

  method RunPipeline(p: Platform, id: RunId, task: TaskId, isFinalAttempt: bool, env: Env, config: RestApi.Config,
      world: World, ghost j: Journal, ghost msg: Msg)
    returns (r: Ending, ghost j': Journal)
    requires Matches(env, config) && Waiting(env, p, j, task, msg) && msg.task == task && msg.run == id
    requires LockedOut(j.now, task, world.lockedBy)
    requires isFinalAttempt == IsFinalAttempt(msg) && j.origin.config == config && j.origin.wire == world.wire
    modifies p`raws, p`dest, p.runs, p.records, p.store.client, p.table
    ensures RawsKept(p, id, env.sha, old(p.store.client.objects), old(p.records.rows),
                     p.store.client.objects, p.records.rows)
    ensures JournalOk(env, j') && Represents(p, j'.now) && j'.origin == j.origin
    ensures task in j'.now.workers && j'.now.workers[task].msg == msg
    ensures r.Rejected? <==>
      || id !in old(p.runs.rows) || world.lockedBy.Some?
      || var row := old(p.runs.rows)[id];
         row.status == Succeeded || row.status == Failed || (row.status == Running && row.taskId != Some(task))
    ensures r.Failure? ==> r.err == PAGE_LIMIT_EXCEEDED || Arises(env, config, p, id, world, r.err)
    ensures r.Rejected? ==>
      j'.now.workers[task].phase == Finished && p.runs.rows == old(p.runs.rows) && p.dest == old(p.dest)
    ensures r.Completed? ==>
      j'.now.workers[task].phase == Finished && id in p.runs.rows && p.runs.rows[id].status == Succeeded
    ensures r.Failure? ==>
      Stands(j', task, id, Recorded(r.err)) && id in p.runs.rows && p.runs.rows[id].error == Some(r.err)
    ensures r.Failure? && ShouldFinalize(r.err, isFinalAttempt) ==> p.runs.rows[id].status == Failed
  {
    hide MapRecords, Agrees, JournalOk, RawsKept, Arises, Matches;
    RawsKeptItself(p, id, env.sha, p.store.client.objects, p.records.rows);
    j' := ClaimOrReject(env, p, j, task, msg, Cap(config), world.lockedBy);
    var claimed := ClaimRun(p.runs, id, Some(task), world.lockedBy.Some?);
    if claimed.Err? {
      return Rejected, j';
    }
    var run := claimed.value;
    var executed;
    executed, j' := ExecuteRun(p, run, env, config, world, j', task);
    if executed.Err? {
      j' := RecordFailure(p, run, env, executed.error, isFinalAttempt, j', task);
      return Failure(executed.error), j';
    }
    j' := RecordSuccess(p, run, env, j', task);
    return Completed, j';
  }

  /** The worker has dealt with its message, or handed it on, and is about to acknowledge it. */
  predicate Handled(s: State, msg: Msg) {
    && msg.task in s.workers && s.workers[msg.task].msg == msg
    && (s.workers[msg.task].phase.Finished?
        || (s.workers[msg.task].phase.Executing? && s.workers[msg.task].phase.pc.Republished?))
  }

  /** The task decides; what it decides is what the orchestration has already assumed. */
  lemma {:induction false} DecideJournalled(env: Env, p: Platform, trace: seq<Action>, j: Journal, msg: Msg, err: Error)
      returns (j': Journal)
    requires Execute(env, trace) == Some(j.origin.start)
    requires Sim(env, p, j, msg.task, msg.run, Recorded(err)) && j.now.workers[msg.task].msg == msg
    ensures JournalOk(env, j') && j'.origin == j.origin && Handled(j'.now, msg)
    ensures msg.run in p.runs.rows
    ensures var retry := err.retryable && msg.retries < MAX_RETRIES;
      && p.runs.rows[msg.run].status == (if retry then Running else Failed)
      && Agrees(p.runs.rows, p.raws, p.dest, if retry then p.queue + [msg.(retries := msg.retries + 1)]
          else p.queue, j'.now)
  {
    hide MapRecords, Agrees, JournalOk, NextAll, Next, Execute;
    j' := Journalled(env, p, j, msg.task, msg.run, Decide,
        OnDecide(j.now.runs[msg.run], j.now.workers[msg.task]).value);
    StatusAfterFailure(env, trace, j, msg, err);
  }

  /** Once a failure is recorded, the row is RUNNING or FAILED as the task is about to decide. */
  lemma {:induction false} StatusAfterFailure(env: Env, trace: seq<Action>, j: Journal, msg: Msg, err: Error)
    requires Execute(env, trace) == Some(j.origin.start) && JournalOk(env, j)
    requires Stands(j, msg.task, msg.run, Recorded(err)) && j.now.workers[msg.task].msg == msg
    ensures j.now.runs[msg.run].row.status == if err.retryable && msg.retries < MAX_RETRIES then Running else Failed
  {
    hide NextAll, Execute;
    ExecuteThen(env, trace, j.actions);
    assert Next(env, j.now, Do(msg.task, Decide)).Some?;
    Retries.DecisionsAgree(env, trace + j.actions, msg.task);
    assert j.now.queue + [msg] != j.now.queue;
  }

  ghost function Start(env: Env, s: State, task: TaskId, config: RestApi.Config, wire: RestApi.Wire): (j: Journal)
    ensures JournalOk(env, j) && j.origin == Origin(s, task, config, wire) && j.now == s
  {
    Journal(Origin(s, task, config, wire), [], s)
  }

  lemma {:induction false} Extended(env: Env, trace: seq<Action>, j: Journal) returns (trace': seq<Action>)
    requires Execute(env, trace) == Some(j.origin.start) && JournalOk(env, j)
    ensures trace <= trace' && Execute(env, trace') == Some(j.now) && OwnActions(j.origin, trace'[|trace|..])
  {
    ExecuteThen(env, trace, j.actions);
    trace' := trace + j.actions;
    assert trace'[|trace|..] == j.actions;
  }

  /** The task body, from the delivered message to the retry decision. Started in any reachable
      state it ends in a reachable one, whatever happens in between. */
  method RunPipelineTask(p: Platform, msg: Msg, env: Env, config: RestApi.Config, world: World,
      ghost trace: seq<Action>)
    returns (r: Ending, ghost trace': seq<Action>)
    requires Matches(env, config) && Execute(env, trace).Some?
    requires var s := Execute(env, trace).value;
      Represents(p, s) && LockedOut(s, msg.task, world.lockedBy) && msg.task in s.workers
          && s.workers[msg.task] == Worker(msg, Received)
    modifies p, p.runs, p.records, p.store.client, p.table
    ensures RawsKept(p, msg.run, env.sha, old(p.store.client.objects), old(p.records.rows),
                     p.store.client.objects, p.records.rows)
    ensures trace <= trace' && Execute(env, trace').Some? && Represents(p, Execute(env, trace').value)
    ensures Handled(Execute(env, trace').value, msg)
    // It takes no steps but its own, and takes nothing for an answer but what it read from the wire.
    ensures OwnActions(Origin(Execute(env, trace).value, msg.task, config, world.wire), trace'[|trace|..])
    ensures r.Rejected? <==>
      || msg.run !in old(p.runs.rows) || world.lockedBy.Some?
      || var row := old(p.runs.rows)[msg.run];
         row.status == Succeeded || row.status == Failed || (row.status == Running && row.taskId != Some(msg.task))
    ensures r.Failure? ==> r.err == PAGE_LIMIT_EXCEEDED || Arises(env, config, p, msg.run, world, r.err)
    ensures r.Rejected? ==> p.runs.rows == old(p.runs.rows) && p.dest == old(p.dest) && p.queue == old(p.queue)
    ensures !r.Rejected? ==> msg.run in p.runs.rows
    ensures r.Completed? ==> p.runs.rows[msg.run].status == Succeeded && p.queue == old(p.queue)
    ensures r.Failure? && r.err.retryable && msg.retries < MAX_RETRIES ==>
      p.runs.rows[msg.run].status == Running && p.queue == old(p.queue) + [msg.(retries := msg.retries + 1)]
    ensures r.Failure? && !(r.err.retryable && msg.retries < MAX_RETRIES) ==>
      p.runs.rows[msg.run].status == Failed && p.queue == old(p.queue)
  {
    hide MapRecords, Agrees, NextAll, Next, Execute, JournalOk, RawsKept;
    ghost var start := Execute(env, trace).value;
    ghost var j := Start(env, start, msg.task, config, world.wire);
    var isFinalAttempt := msg.retries >= MAX_RETRIES;
    r, j := RunPipeline(p, msg.run, msg.task, isFinalAttempt, env, config, world, j, msg);
    if r.Failure? {
      j := DecideJournalled(env, p, trace, j, msg, r.err);
      if r.err.retryable && !isFinalAttempt {
        p.queue := p.queue + [msg.(retries := msg.retries + 1)];
      }
    }
    trace' := Extended(env, trace, j);
  }

  // ---- what the failures and the rows mean -----------------------------------------------------

  /** An answer that may be another one next time. */
  predicate MayPass(o: RestApi.Outcome, err: Error) {
    match o
    case TransportFailure => true
    case Refused(e) => e == err
    case Answer(status, _) => status == 429 || 500 <= status < 600
  }

  /** The database was out of reach, or held by others. */
  predicate OutOfReach(db: SqlServer.DbBehaviour, k: nat) {
    || db.reflect == Some(SqlServer.OperationalError)
    || db.insert(k) == Some(SqlServer.OperationalError)
    || (!db.commit.Committed? && db.commit.err == SqlServer.OperationalError)
  }

  /** An attempt is retried only after something that may pass: what setting up or preparing a request
      raised as retryable, a failure in transit, a 429 or a server error, or a database out of reach.
      Whatever is wrong with the data, the mapping, the configuration or the store ends the run. */
  lemma {:induction false} RetriedOnlyIfItMayPass(env: Env, config: RestApi.Config, p: Platform, id: RunId,
      world: World, err: Error)
    requires Arises(env, config, p, id, world, err) && err.retryable
    ensures
      || world.setup == Some(err)
      || (exists k: nat, page: nat :: MayPass(world.wire(k, page), err))
      || (exists k: nat, batch: nat :: OutOfReach(world.load(k), batch))
  {
    hide RestApi.HeardAt, MapRecords, SqlServer.ValidConfig, SqlServer.KnownColumns, PageKey;
    if RestApi.CanFail(config, world.wire, err) {
      if k, page :| RestApi.FailsAt(config, world.wire, err, k, page) {
        assert MayPass(world.wire(k, page), err);
      }
    } else if k, records, body :|
      RestApi.Heard(config, world.wire, records, body) && PageFails(env, p, id, world, k, records, body, err)
    {
      PageRetried(env, p, id, world, k, records, body, err);
    }
  }

  lemma {:induction false} PageRetried(env: Env, p: Platform, id: RunId, world: World, k: nat, records: seq<Json>,
      body: Bytes, err: Error)
    requires PageFails(env, p, id, world, k, records, body, err) && err.retryable
    ensures exists batch: nat :: OutOfReach(world.load(k), batch)
  {
    hide MapRecords, SqlServer.ValidConfig, SqlServer.KnownColumns, PageKey, Mismatched;
    var db := world.load(k);
    if batch :| SqlServer.IsInsertError(db.insert, batch, err) {
      assert OutOfReach(db, batch);
    } else {
      assert OutOfReach(db, 0);
    }
  }

  /** What the protocol records as loaded can be read back: each recorded page of a run has its raw row,
      flagged, whose URI gives bytes with the checksum of the page's bytes. */
  lemma {:induction false} RecordedPagesReadBack(p: Platform, env: Env, trace: seq<Action>, id: RunId, i: nat)
    requires Execute(env, trace).Some? && Represents(p, Execute(env, trace).value)
    requires id in Execute(env, trace).value.runs && i < |Execute(env, trace).value.runs[id].hist|
    requires var c := Execute(env, trace).value.runs[id].hist[i]; c.run == id && c.recorded
    requires Audited(p, id, env.sha, p.store.client.objects, p.records.rows)
    ensures
      var c := Execute(env, trace).value.runs[id].hist[i];
      var record := (p.name(id), c.sequence, env.sha(c.resp.body));
      && record in p.records.rows && p.records.rows[record].loaded
      && var read := ReadBack(env.sha, p.store.client.objects, p.store.bucket, p.store.tenant,
          p.records.rows[record].uri);
         read.Ok? && env.sha(read.value) == env.sha(c.resp.body)
  {
    hide Execute, ReadBack, NoForeign, Flatten, RowsOf;
    AuditTrail.MarksAreCommits(env, trace, id);
    var rs := Execute(env, trace).value.runs[id];
    var key := RunInvariant.RawKey(env, rs.hist[i]);
    assert RawAgrees(p.raws, p.records.rows, p.name, id, key);
    var record := (p.name(id), key.0, key.1);
    assert RawService.Readable(env.sha, p.store.client.objects, p.store.bucket, p.store.tenant, record,
        p.records.rows[record]);
  }
}
