/** Running a pipeline (apps/execution/orchestration.py) and its task (apps/execution/tasks.py), as
    methods over stored rows. Each method is shown to take steps of the protocol and nothing else:
    it returns the protocol state `s'` it reached and the actions that lead there. */
module Orchestration {
  import opened Prelude
  import opened Paths
  import opened Mapping
  import opened Claims
  import opened Protocol
  import opened Runs
  import opened Keys
  import opened RawStore
  import opened RawService
  import RestApi
  import SqlServer

  /** A naming of runs for the payload store: distinct runs have distinct, slash-free names. */
  ghost predicate NamesOk(name: RunId -> string) {
    (forall id :: Plain(name(id))) && (forall id, other | name(id) == name(other) :: id == other)
  }

  /** The platform's durable state: run rows, the payload store with its raw-record rows, the
      destination table and the broker queue. `raws` and `dest` are what the protocol sees of the
      raw-record rows and of the destination. */
  class Platform {
    const runs: RunTable
    const store: PayloadStore
    const records: RecordTable
    const table: SqlServer.Table
    const pipeline: string
    const name: RunId -> string
    ghost var raws: map<RunId, map<(nat, string), bool>>
    ghost var dest: seq<Transaction>
    var queue: seq<Msg>

    constructor (runs: RunTable, store: PayloadStore, records: RecordTable, table: SqlServer.Table, pipeline: string,
        name: RunId -> string)
      requires records.rows == map[] && table.rows == []
      requires store.bucket != "" && Plain(store.bucket) && Plain(store.tenant) && Plain(pipeline) && NamesOk(name)
      ensures this.runs == runs && this.store == store && this.records == records && this.table == table
      ensures raws == map[] && dest == [] && queue == [] && Backed()
    {
      this.runs, this.store, this.records, this.table := runs, store, records, table;
      this.pipeline, this.name := pipeline, name;
      raws, dest, queue := map[], [], [];
    }

    /** The rows and the table are what `raws` and `dest` say. */
    ghost predicate Backed()
      reads this, records, table
    {
      && store.bucket != "" && Plain(store.bucket) && Plain(store.tenant) && Plain(pipeline) && NamesOk(name)
      && RawsAgree(raws, records.rows, name)
      && table.rows == Flatten(RowsOf(dest))
    }
  }

  function RowsOf(dest: seq<Transaction>): seq<seq<Mapping.Row>> {
    seq(|dest|, i requires 0 <= i < |dest| => dest[i].rows)
  }

  predicate RawAgrees(raws: map<RunId, map<(nat, string), bool>>, rows: map<RecordId, Record>, name: RunId -> string,
      id: RunId, key: (nat, string)) {
    var record := (name(id), key.0, key.1);
    && (record in rows <==> id in raws && key in raws[id])
    && (record in rows ==> rows[record].loaded == raws[id][key])
  }

  ghost predicate RawsAgree(raws: map<RunId, map<(nat, string), bool>>, rows: map<RecordId, Record>,
      name: RunId -> string) {
    forall id, key :: RawAgrees(raws, rows, name, id, key)
  }

  lemma {:induction false} RawsAgreeUpdate(raws: map<RunId, map<(nat, string), bool>>, rows: map<RecordId, Record>,
      name: RunId -> string, id: RunId, key: (nat, string), row: Record)
    requires RawsAgree(raws, rows, name) && id in raws && NamesOk(name)
    ensures RawsAgree(raws[id := raws[id][key := row.loaded]], rows[(name(id), key.0, key.1) := row], name)
  {
    var raws' := raws[id := raws[id][key := row.loaded]];
    var rows' := rows[(name(id), key.0, key.1) := row];
    forall other, k ensures RawAgrees(raws', rows', name, other, k) {
      assert RawAgrees(raws, rows, name, other, k);
    }
  }

  lemma {:induction false} DestGrows(dest: seq<Transaction>, t: Transaction)
    ensures Flatten(RowsOf(dest + [t])) == Flatten(RowsOf(dest)) + t.rows
  {
    assert RowsOf(dest + [t]) == RowsOf(dest) + [t.rows];
    FlattenAppend(RowsOf(dest), t.rows);
  }

  /** A failure of a step other than the page cap. */
  type Failure = e: Error | !e.category.PageLimitExceededError? witness Error(LoadFailed, true)

  /** What the database raises when a row is inserted or saved: no error of the platform's own, so it is
      recorded as an unexpected one, never to be retried. */
  type Unforeseen = e: Error | e == Error(UnexpectedError, false) witness Error(UnexpectedError, false)

  /** What the environment does during one attempt: who holds the row lock, what setting up raises,
      what the source answers, and by page of the run how the payload store serves its requests,
      what the database raises when a row is inserted or saved, and what the destination does. */
  datatype World = World(
    lockedBy: Option<TaskId>,
    setup: Option<Failure>,
    wire: RestApi.Wire,
    contentType: nat -> string,
    store: nat -> Backend,
    insert: nat -> Option<Unforeseen>,
    destination: SqlServer.Config,
    load: nat -> SqlServer.DbBehaviour,
    mark: nat -> Option<Unforeseen>,
    save: nat -> Option<Unforeseen>)

  function AsError(fault: Option<Unforeseen>): Option<Error> {
    if fault.Some? then Some(fault.value) else None
  }

  /** The tenant's key of a page of the run. */
  function PageKey(p: Platform, id: RunId, sha: Sha, sequence: nat, body: Bytes): string {
    PrefixedKey(p.store.tenant, Version(p.pipeline, p.name(id), sequence, sha(body)))
  }

  /** The run's `k`-th page (from 0), as fetched, fails in one of its steps, and with this error. */
  ghost predicate PageFails(env: Env, p: Platform, id: RunId, world: World, k: nat, records: seq<Json>, body: Bytes,
      err: Error)
    reads p.store.client
  {
    || StoreFails(p.store.client.objects, PageKey(p, id, env.sha, k + 1, body), body, world.store(k),
                  AsError(world.insert(k)), err)
    || (match MapRecords(records, env.mapping, env.strict)
        case Err(_) => err == MAPPING_ERROR
        case Ok(rows) => SqlServer.CanFail(world.destination, p.table.columns, rows, world.load(k), err))
    || (world.mark(k).Some? && world.mark(k).value == err)
    || (world.save(k).Some? && world.save(k).value == err)
  }

  /** What may make an attempt fail, other than the page cap. */
  ghost predicate Arises(env: Env, config: RestApi.Config, p: Platform, id: RunId, world: World, err: Error)
    reads p.store.client
  {
    || (err == MAPPING_ERROR && env.mapping == [])
    || (world.setup.Some? && world.setup.value == err)
    || RestApi.CanFail(config, world.wire, err)
    || exists k, records, body ::
         RestApi.Heard(config, world.wire, records, body) && PageFails(env, p, id, world, k, records, body, err)
  }

  /** The configuration the protocol is stated for is the one the connector reads. */
  predicate Matches(env: Env, config: RestApi.Config) {
    && env.startPage == RestApi.StartPage(config)
    && env.pageSize == config.pageSize
    && env.retainEmpty == config.retainEmpty
  }

  function Cap(config: RestApi.Config): nat {
    if config.maxPages >= 1 then config.maxPages else 1
  }

  // ---- the refinement relation ----------------------------------------------------------------

  predicate Agrees(rows: map<RunId, Claims.Row>, raws: map<RunId, map<(nat, string), bool>>, dest: seq<Transaction>,
      queue: seq<Msg>, s: State) {
    && rows.Keys == raws.Keys == s.runs.Keys
    && (forall id | id in s.runs :: rows[id] == s.runs[id].row && raws[id] == s.runs[id].raws)
    && dest == s.dest
    && queue == s.queue
  }

  ghost predicate Represents(p: Platform, s: State)
    reads p, p.runs, p.records, p.table
  {
    Agrees(p.runs.rows, p.raws, p.dest, p.queue, s) && p.Backed()
  }

  /** Changing one run on both sides keeps the agreement. */
  lemma {:induction false} AgreesUpdate(rows: map<RunId, Claims.Row>, raws: map<RunId, map<(nat, string), bool>>,
      dest: seq<Transaction>, queue: seq<Msg>, s: State, id: RunId, run: RunState, s': State)
    requires Agrees(rows, raws, dest, queue, s) && id in s.runs && s'.runs == s.runs[id := run]
    ensures Agrees(rows[id := run.row], raws[id := run.raws], s'.dest, s'.queue, s')
    ensures rows[id] == s.runs[id].row && raws[id] == s.runs[id].raws && dest == s.dest && queue == s.queue
    ensures run.row == rows[id] ==> rows[id := run.row] == rows
    ensures run.raws == raws[id] ==> raws[id := run.raws] == raws
  {
  }

  /** The protocol state after one event of worker `t` whose effect is `eff`. */
  function After(s: State, t: TaskId, ev: Event, eff: Effect): State
    requires t in s.workers
  {
    var id := s.workers[t].msg.run;
    s.(runs := s.runs[id := eff.run],
       workers := s.workers[t := eff.worker],
       queue := s.queue + eff.published,
       dest := if ev.Load? || ev.LoadLost? then s.dest + [Transaction(id, eff.committed)] else s.dest)
  }

  lemma {:induction false} EventStep(env: Env, s0: State, actions: seq<Action>, s: State, t: TaskId, ev: Event,
      eff: Effect)
    requires NextAll(env, s0, actions) == Some(s)
    requires t in s.workers && s.workers[t].msg.run in s.runs
    requires Advance(env, s.runs[s.workers[t].msg.run], s.workers[t], ev) == Some(eff)
    ensures NextAll(env, s0, actions + [Do(t, ev)]) == Some(After(s, t, ev, eff))
  {
    hide Advance;
    NextAllAppend(env, s0, actions, Do(t, ev));
  }

  /** Where a method began: the state, the task it works for, and what it hears from the source. */
  datatype Origin = Origin(start: State, task: TaskId, config: RestApi.Config, wire: RestApi.Wire)

  /** The protocol state a method has reached, and how. */
  datatype Journal = Journal(origin: Origin, actions: seq<Action>, now: State)

  /** A step of the task itself: its claim, with the configured cap, or one of its events; and what
      it says the source answered is what was read from the wire. */
  ghost predicate OwnAction(o: Origin, a: Action) {
    || (a.Claim? && a.task == o.task && a.maxPages == Cap(o.config))
    || ((a.RejectLocked? || a.RejectClaim?) && a.task == o.task)
    || (a.Do? && a.task == o.task
        && (a.ev.Respond? ==> RestApi.Heard(o.config, o.wire, a.ev.resp.records, a.ev.resp.body)))
  }

  ghost predicate OwnActions(o: Origin, actions: seq<Action>) {
    forall a | a in actions :: OwnAction(o, a)
  }

  ghost predicate JournalOk(env: Env, j: Journal) {
    NextAll(env, j.origin.start, j.actions) == Some(j.now) && OwnActions(j.origin, j.actions)
  }

  /** Worker `t` executes run `id` and stands at `pc`. */
  ghost predicate Stands(j: Journal, t: TaskId, id: RunId, pc: Pc) {
    && j.origin.task == t
    && t in j.now.workers && j.now.workers[t].msg.run == id && id in j.now.runs
    && j.now.workers[t].phase.Executing? && j.now.workers[t].phase.pc == pc
  }

  /** The rows agree with the protocol state, and the worker stands where the code does. */
  ghost predicate Sim(env: Env, p: Platform, j: Journal, t: TaskId, id: RunId, pc: Pc)
    reads p, p.runs, p.records, p.table
  {
    JournalOk(env, j) && Represents(p, j.now) && Stands(j, t, id, pc)
  }

  /** `j'` is `j` with the worker moved to `pc`, everything else about the worker unchanged. */
  ghost predicate Moved(j: Journal, j': Journal, t: TaskId, pc: Pc)
    requires t in j.now.workers && j.now.workers[t].phase.Executing?
  {
    && j'.origin == j.origin
    && t in j'.now.workers
    && j'.now.workers[t] == j.now.workers[t].(phase := j.now.workers[t].phase.(pc := pc))
  }

  ghost function Extend(j: Journal, t: TaskId, ev: Event, eff: Effect): Journal
    requires t in j.now.workers
  {
    Journal(j.origin, j.actions + [Do(t, ev)], After(j.now, t, ev, eff))
  }

  lemma {:induction false} ExtendOk(env: Env, j: Journal, t: TaskId, ev: Event, eff: Effect)
    requires JournalOk(env, j) && t in j.now.workers && j.now.workers[t].msg.run in j.now.runs
    requires Advance(env, j.now.runs[j.now.workers[t].msg.run], j.now.workers[t], ev) == Some(eff)
    requires OwnAction(j.origin, Do(t, ev))
    ensures JournalOk(env, Extend(j, t, ev, eff))
  {
    hide Advance, After;
    EventStep(env, j.origin.start, j.actions, j.now, t, ev, eff);
  }

  /** One event of worker `t` on run `id`, recorded in the journal. */
  lemma {:induction false} JournalledFrom(env: Env, rows: map<RunId, Claims.Row>,
      raws: map<RunId, map<(nat, string), bool>>, dest: seq<Transaction>, queue: seq<Msg>, j: Journal, t: TaskId,
      id: RunId, ev: Event, eff: Effect)
      returns (j': Journal)
    requires JournalOk(env, j) && Agrees(rows, raws, dest, queue, j.now)
    requires t in j.now.workers && j.now.workers[t].msg.run == id && id in j.now.runs
    requires Advance(env, j.now.runs[id], j.now.workers[t], ev) == Some(eff)
    requires OwnAction(j.origin, Do(t, ev))
    ensures JournalOk(env, j') && j'.origin == j.origin
    ensures t in j'.now.workers && j'.now.workers[t] == eff.worker && id in j'.now.runs
    ensures j'.now.queue == if eff.published == [] then j.now.queue else j.now.queue + eff.published
    ensures j'.now.dest == if ev.Load? || ev.LoadLost? then j.now.dest + [Transaction(id, eff.committed)]
        else j.now.dest
    ensures Agrees(rows[id := eff.run.row], raws[id := eff.run.raws], j'.now.dest, j'.now.queue, j'.now)
    ensures id in rows && id in raws && rows[id] == j.now.runs[id].row && raws[id] == j.now.runs[id].raws
    ensures dest == j.now.dest && queue == j.now.queue
    ensures eff.run.row == rows[id] ==> rows[id := eff.run.row] == rows
    ensures eff.run.raws == raws[id] ==> raws[id := eff.run.raws] == raws
  {
    hide Advance, JournalOk;
    j' := Extend(j, t, ev, eff);
    ExtendOk(env, j, t, ev, eff);
    AgreesUpdate(rows, raws, dest, queue, j.now, id, eff.run, j'.now);
    assert j.now.queue + [] == j.now.queue;
  }

  lemma {:induction false} AgreesOn(p: Platform, s: State, id: RunId)
    requires Represents(p, s) && id in s.runs
    ensures id in p.raws && p.raws[id] == s.runs[id].raws
  {
    hide Platform.Backed;
  }

  lemma {:induction false} Journalled(env: Env, p: Platform, j: Journal, t: TaskId, id: RunId, ev: Event, eff: Effect)
      returns (j': Journal)
    requires JournalOk(env, j) && Agrees(p.runs.rows, p.raws, p.dest, p.queue, j.now)
    requires t in j.now.workers && j.now.workers[t].msg.run == id && id in j.now.runs
    requires Advance(env, j.now.runs[id], j.now.workers[t], ev) == Some(eff)
    requires OwnAction(j.origin, Do(t, ev))
    ensures JournalOk(env, j') && j'.origin == j.origin
    ensures t in j'.now.workers && j'.now.workers[t] == eff.worker && id in j'.now.runs
    ensures j'.now.queue == if eff.published == [] then j.now.queue else j.now.queue + eff.published
    ensures j'.now.dest == if ev.Load? || ev.LoadLost? then j.now.dest + [Transaction(id, eff.committed)]
        else j.now.dest
    ensures Agrees(p.runs.rows[id := eff.run.row], p.raws[id := eff.run.raws], j'.now.dest, j'.now.queue, j'.now)
    ensures id in p.runs.rows && id in p.raws && p.runs.rows[id] == j.now.runs[id].row
    ensures p.raws[id] == j.now.runs[id].raws
    ensures p.dest == j.now.dest && p.queue == j.now.queue
    ensures eff.run.row == p.runs.rows[id] ==> p.runs.rows[id := eff.run.row] == p.runs.rows
    ensures eff.run.raws == p.raws[id] ==> p.raws[id := eff.run.raws] == p.raws
  {
    hide Advance, JournalOk, Agrees;
    j' := JournalledFrom(env, p.runs.rows, p.raws, p.dest, p.queue, j, t, id, ev, eff);
  }

  /** Any failure of a step: the exception travels to `run_pipeline`. */
  ghost method RaiseFault(env: Env, p: Platform, j: Journal, t: TaskId, id: RunId, pc: Pc, err: Error)
      returns (j': Journal)
    requires Sim(env, p, j, t, id, pc) && !err.category.PageLimitExceededError?
    requires pc.Fetching? || pc.Got? || pc.Stored? || pc.Loaded? || pc.Marked?
    ensures Sim(env, p, j', t, id, Raised(err)) && j'.origin == j.origin
    ensures
      var e := j.now.workers[t].phase;
      j'.now.workers[t] == j.now.workers[t].(phase := e.(
        pc := Raised(err),
        mem := if pc.Marked? then AfterPage(env, e.mem, e.page, e.sequence, pc.resp, pc.count) else e.mem))
  {
    hide MapRecords, NextAll, Agrees, JournalOk, AfterPage, Platform.Backed;
    j' := Journalled(env, p, j, t, id, Raise(err), OnRaise(env, j.now.runs[id], j.now.workers[t], err).value);
  }

  // ---- the four durable writes of a page ------------------------------------------------------

  lemma {:induction false} NameIsPlain(name: RunId -> string, id: RunId)
    requires NamesOk(name)
    ensures Plain(name(id))
  {
  }

  // ---- raw rows and their objects -------------------------------------------------------------

  /** No object with other bytes sits under a key of the run. */
  ghost predicate NoForeign(p: Platform, id: RunId, sha: Sha, objects: Objects) {
    forall sequence, checksum | Plain(checksum) ::
      Intact(sha, objects, PrefixedKey(p.store.tenant, Version(p.pipeline, p.name(id), sequence, checksum)), checksum)
  }

  /** Every raw row reads back, through its URI, bytes of its checksum. */
  ghost predicate Audited(p: Platform, id: RunId, sha: Sha, objects: Objects, rows: map<RecordId, Record>) {
    AllReadable(sha, objects, p.store.bucket, p.store.tenant, rows) && NoForeign(p, id, sha, objects)
  }

  /** What a row created for a run says: its pipeline, and the URI of its key. */
  predicate RowFits(p: Platform, record: RecordId, row: Record) {
    row.pipeline == p.pipeline
    && row.uri == Uri(p.store.bucket, PrefixedKey(p.store.tenant, Version(p.pipeline, record.0, record.1, record.2)))
  }

  /** No raw row disappears or changes but for its flag being set, only rows of this run are created or
      flagged, and each new one has the URI of its key. */
  predicate RowsKept(p: Platform, id: RunId, before: map<RecordId, Record>, after: map<RecordId, Record>) {
    && (forall record | record in before ::
          && record in after
          && (after[record] == before[record]
              || (record.0 == p.name(id) && after[record] == before[record].(loaded := true))))
    && (forall record | record in after && record !in before ::
        record.0 == p.name(id) && RowFits(p, record, after[record]))
  }

  /** Objects are only added, rows kept, and if everything could be read back it still can. */
  ghost predicate RawsKept(p: Platform, id: RunId, sha: Sha, objects: Objects, rows: map<RecordId, Record>,
      objects': Objects, rows': map<RecordId, Record>) {
    && Preserves(objects, objects')
    && RowsKept(p, id, rows, rows')
    && (Audited(p, id, sha, objects, rows) ==> Audited(p, id, sha, objects', rows'))
  }

  lemma {:induction false} RawsKeptItself(p: Platform, id: RunId, sha: Sha, objects: Objects,
      rows: map<RecordId, Record>)
    ensures RawsKept(p, id, sha, objects, rows, objects, rows)
  {
    hide Audited;
  }

  lemma {:induction false} RowsKeptItself(p: Platform, id: RunId, rows: map<RecordId, Record>)
    ensures RowsKept(p, id, rows, rows)
  {
  }

  lemma {:induction false} RowsKeptMore(p: Platform, id: RunId, a: map<RecordId, Record>, b: map<RecordId, Record>,
      c: map<RecordId, Record>)
    requires RowsKept(p, id, a, b) && RowsKept(p, id, b, c)
    ensures RowsKept(p, id, a, c)
  {
    hide PrefixedKey, Uri;
  }

  lemma {:induction false} RawsKeptMore(p: Platform, id: RunId, sha: Sha, o0: Objects, r0: map<RecordId, Record>,
      o1: Objects, r1: map<RecordId, Record>, o2: Objects, r2: map<RecordId, Record>)
    requires RawsKept(p, id, sha, o0, r0, o1, r1) && RawsKept(p, id, sha, o1, r1, o2, r2)
    ensures RawsKept(p, id, sha, o0, r0, o2, r2)
  {
    hide Audited, RowsKept;
    RowsKeptMore(p, id, r0, r1, r2);
  }

  /** An object added under a key of the run has that key's checksum. */
  lemma {:induction false} AddingKeepsOut(p: Platform, id: RunId, sha: Sha, sequence: nat, obj: Obj, objects: Objects,
      objects': Objects)
    requires Plain(p.store.tenant) && Plain(p.pipeline) && Plain(p.name(id)) && NoForeign(p, id, sha, objects)
    requires AddsAtMost(objects, objects', PageKey(p, id, sha, sequence, obj.data), obj)
    ensures NoForeign(p, id, sha, objects')
  {
    hide PrefixedKey, NoForeign;
    var version := Version(p.pipeline, p.name(id), sequence, sha(obj.data));
    forall n, checksum | Plain(checksum)
      ensures Intact(sha, objects', PrefixedKey(p.store.tenant, Version(p.pipeline, p.name(id), n, checksum)), checksum)
    {
      NotForeign(p, id, sha, objects, n, checksum);
      KeyInjective(p.store.tenant, version, p.store.tenant, Version(p.pipeline, p.name(id), n, checksum));
    }
    assert NoForeign(p, id, sha, objects') by { FromAll(p, id, sha, objects'); }
  }

  lemma {:induction false} NotForeign(p: Platform, id: RunId, sha: Sha, objects: Objects, sequence: nat,
      checksum: string)
    requires NoForeign(p, id, sha, objects) && Plain(checksum)
    ensures Intact(sha, objects, PrefixedKey(p.store.tenant, Version(p.pipeline, p.name(id), sequence, checksum)),
        checksum)
  {
    hide PrefixedKey, Intact;
  }

  lemma {:induction false} FromAll(p: Platform, id: RunId, sha: Sha, objects: Objects)
    requires forall sequence: nat, checksum | Plain(checksum) ::
      Intact(sha, objects, PrefixedKey(p.store.tenant, Version(p.pipeline, p.name(id), sequence, checksum)), checksum)
    ensures NoForeign(p, id, sha, objects)
  {
    hide PrefixedKey, Intact;
  }

  lemma {:induction false} StoringKeepsRows(p: Platform, id: RunId, sha: Sha, sequence: nat, obj: Obj,
      objects: Objects, rows: map<RecordId, Record>, objects': Objects, rows': map<RecordId, Record>)
    requires Stores(sha, p.store.bucket, p.store.tenant, Version(p.pipeline, p.name(id), sequence, sha(obj.data)), obj,
                    objects, rows, objects', rows')
    ensures RowsKept(p, id, rows, rows')
  {
    hide PrefixedKey, Uri;
  }

  lemma {:induction false} MarkingKeeps(p: Platform, id: RunId, sha: Sha, objects: Objects,
      rows: map<RecordId, Record>, record: RecordId)
    requires record in rows && record.0 == p.name(id)
    ensures RawsKept(p, id, sha, objects, rows, objects, rows[record := rows[record].(loaded := true)])
  {
    hide ReadBack, NoForeign, PrefixedKey, Uri;
    var rows' := rows[record := rows[record].(loaded := true)];
    if AllReadable(sha, objects, p.store.bucket, p.store.tenant, rows) {
      forall other | other in rows' ensures Readable(sha, objects, p.store.bucket, p.store.tenant, other,
          rows'[other]) {
        assert Readable(sha, objects, p.store.bucket, p.store.tenant, other, rows[other]);
      }
    }
  }

  /** The payload service, with the rows the protocol sees kept in step. */
  method StoreBacked(p: Platform, id: RunId, sha: Sha, sequence: nat, body: Bytes, contentType: string,
      backend: Backend, insert: Option<Unforeseen>)
    returns (r: Result<Record, Error>)
    requires p.Backed() && id in p.raws
    modifies p`raws, p.records, p.store.client
    ensures p.Backed()
    ensures RawsKept(p, id, sha, old(p.store.client.objects), old(p.records.rows), p.store.client.objects,
        p.records.rows)
    // The object is under the page's own key, and the row has that key's URI, the content type and the size.
    ensures r.Ok? ==>
      Stores(sha, p.store.bucket, p.store.tenant, Version(p.pipeline, p.name(id), sequence, sha(body)),
             Obj(body, contentType), old(p.store.client.objects), old(p.records.rows), p.store.client.objects,
             p.records.rows)
    ensures r.Err? ==> p.records.rows == old(p.records.rows)
    ensures r.Err? ==> StoreFails(p.store.client.objects, PageKey(p, id, sha, sequence, body), body, backend,
                                  AsError(insert), r.error)
    ensures r.Err? ==> !r.error.category.PageLimitExceededError?
    ensures
      var key := (sequence, sha(body));
      p.raws == if r.Err? || key in old(p.raws)[id] then old(p.raws)
          else old(p.raws)[id := old(p.raws)[id][key := false]]
    ensures r.Ok? ==> insert.None? && (p.name(id), sequence, sha(body)) in p.records.rows
  {
    hide Preserves, PrefixedKey, NamesOk, Flatten, RowsOf, AllReadable, Intact, NoForeign, RowsKept, Uri;
    NameIsPlain(p.name, id);
    ghost var rows, objects := p.records.rows, p.store.client.objects;
    ghost var key := (sequence, sha(body));
    r := RawService.StoreRawPayload(p.store, p.records, sha, p.pipeline, p.name(id), sequence, body,
                                    contentType, backend, AsError(insert));
    AddingPreserves(old(p.store.client.objects), p.store.client.objects,
                    PrefixedKey(p.store.tenant, Version(p.pipeline, p.name(id), sequence, sha(body))),
                    Obj(body, contentType));
    if NoForeign(p, id, sha, objects) {
      NotForeign(p, id, sha, objects, sequence, sha(body));
      AddingKeepsOut(p, id, sha, sequence, Obj(body, contentType), objects, p.store.client.objects);
    }
    if r.Ok? {
      StoringKeepsRows(p, id, sha, sequence, Obj(body, contentType), objects, rows, p.store.client.objects,
          p.records.rows);
    } else {
      assert RowsKept(p, id, rows, rows) by { RowsKeptItself(p, id, rows); }
    }
    assert RawAgrees(p.raws, rows, p.name, id, key);
    if r.Ok? && key !in p.raws[id] {
      RawsAgreeUpdate(p.raws, rows, p.name, id, key, r.value);
      p.raws := p.raws[id := p.raws[id][key := false]];
    }
  }

  method StoreRawPayload(p: Platform, id: RunId, env: Env, sequence: nat, resp: Response, contentType: string,
      backend: Backend, insert: Option<Unforeseen>, ghost j: Journal, ghost t: TaskId)
    returns (r: Result<(), Error>, ghost j': Journal)
    requires Sim(env, p, j, t, id, Got(resp)) && j.now.workers[t].phase.sequence == sequence
    modifies p`raws, p.records, p.store.client
    ensures RawsKept(p, id, env.sha, old(p.store.client.objects), old(p.records.rows),
                     p.store.client.objects, p.records.rows)
    // The object is under the page's own key, and the row has that key's URI, the content type and the size.
    ensures r.Ok? ==>
      Stores(env.sha, p.store.bucket, p.store.tenant, Version(p.pipeline, p.name(id), sequence, env.sha(resp.body)),
             Obj(resp.body, contentType), old(p.store.client.objects), old(p.records.rows),
             p.store.client.objects, p.records.rows)
    ensures r.Err? ==> p.records.rows == old(p.records.rows)
    ensures r.Ok? ==> Sim(env, p, j', t, id, Stored(resp)) && Moved(j, j', t, Stored(resp))
    ensures r.Err? ==> Sim(env, p, j', t, id, Raised(r.error)) && Moved(j, j', t, Raised(r.error))
    ensures r.Err? ==> StoreFails(p.store.client.objects, PageKey(p, id, env.sha, sequence, resp.body), resp.body,
                                  backend, AsError(insert), r.error)
    ensures r.Ok? ==> insert.None? && (p.name(id), sequence, env.sha(resp.body)) in p.records.rows
  {
    hide MapRecords, JournalOk, Platform.Backed, StoreFails, PageKey, RawsKept, Stores;
    ghost var raws := p.raws;
    AgreesOn(p, j.now, id);
    var stored := StoreBacked(p, id, env.sha, sequence, resp.body, contentType, backend, insert);
    if stored.Err? {
      j' := RaiseFault(env, p, j, t, id, Got(resp), stored.error);
      return Err(stored.error), j';
    }
    j' := JournalledFrom(env, p.runs.rows, raws, p.dest, p.queue, j, t, id, StoreRaw,
                         OnStoreRaw(env, j.now.runs[id], j.now.workers[t]).value);
    return Ok(()), j';
  }

  method MapAndLoad(p: Platform, id: RunId, env: Env, resp: Response, config: SqlServer.Config,
      db: SqlServer.DbBehaviour, ghost j: Journal, ghost t: TaskId)
    returns (r: Result<nat, Error>, ghost j': Journal)
    requires Sim(env, p, j, t, id, Stored(resp))
    modifies p`dest, p.table
    ensures r.Ok? ==>
      r.value == |resp.records| && Sim(env, p, j', t, id, Loaded(resp, r.value))
          && Moved(j, j', t, Loaded(resp, r.value))
    ensures r.Err? ==> Sim(env, p, j', t, id, Raised(r.error)) && Moved(j, j', t, Raised(r.error))
    ensures
      match MapRecords(resp.records, env.mapping, env.strict)
      case Err(_) => r == Err(MAPPING_ERROR) && p.table.rows == old(p.table.rows)
      case Ok(rows) =>
        && (r.Ok? ==> p.table.rows == old(p.table.rows) + rows)
        && (r.Err? ==> SqlServer.CanFail(config, p.table.columns, rows, db, r.error))
        && (r.Err? ==>
              || p.table.rows == old(p.table.rows)
              || (db.commit.AnswerLost? && p.table.rows == old(p.table.rows) + rows))
  {
    hide MapRecords, Agrees, JournalOk, SqlServer.CanFail, SqlServer.EarlyAnswer, SqlServer.KnownColumns,
        SqlServer.ValidConfig, Flatten, RowsOf, RawsAgree, NamesOk;
    var mapped := MapRecords(resp.records, env.mapping, env.strict);
    MapRecordsSpec(resp.records, env.mapping, env.strict);
    if mapped.Err? {
      j' := RaiseFault(env, p, j, t, id, Stored(resp), mapped.error);
      return Err(mapped.error), j';
    }
    var before := p.table.rows;
    var loaded := SqlServer.Load(p.table, config, mapped.value, "append", db);
    if loaded.Err? && p.table.rows == before {
      j' := RaiseFault(env, p, j, t, id, Stored(resp), loaded.error);
      return loaded, j';
    }
    ghost var lost := if loaded.Err? then Some(loaded.error) else None;
    ghost var ev := if loaded.Err? then LoadLost(loaded.error) else Load;
    DestGrows(p.dest, Transaction(id, mapped.value));
    j' := Journalled(env, p, j, t, id, ev, OnLoad(env, j.now.runs[id], j.now.workers[t], lost).value);
    p.dest := p.dest + [Transaction(id, mapped.value)];
    return loaded, j';
  }

  method MarkRawLoaded(p: Platform, id: RunId, env: Env, sequence: nat, resp: Response, count: nat,
      fault: Option<Unforeseen>, ghost j: Journal, ghost t: TaskId)
    returns (r: Result<(), Error>, ghost j': Journal)
    requires Sim(env, p, j, t, id, Loaded(resp, count)) && j.now.workers[t].phase.sequence == sequence
    requires (p.name(id), sequence, env.sha(resp.body)) in p.records.rows
    modifies p`raws, p.records
    ensures r == if fault.Some? then Err(fault.value) else Ok(())
    ensures
      var record := (p.name(id), sequence, env.sha(resp.body));
      p.records.rows == if r.Err? then old(p.records.rows)
                        else old(p.records.rows)[record := old(p.records.rows)[record].(loaded := true)]
    ensures r.Ok? ==> Sim(env, p, j', t, id, Marked(resp, count)) && Moved(j, j', t, Marked(resp, count))
    ensures r.Err? ==> Sim(env, p, j', t, id, Raised(r.error)) && Moved(j, j', t, Raised(r.error))
  {
    hide MapRecords, Agrees, JournalOk;
    if fault.Some? {
      j' := RaiseFault(env, p, j, t, id, Loaded(resp, count), fault.value);
      return Err(fault.value), j';
    }
    j' := Journalled(env, p, j, t, id, MarkLoaded, OnMarkLoaded(env, j.now.runs[id], j.now.workers[t]).value);
    var record := (p.name(id), sequence, env.sha(resp.body));
    RawsAgreeUpdate(p.raws, p.records.rows, p.name, id, (sequence, env.sha(resp.body)),
        p.records.rows[record].(loaded := true));
    p.records.rows := p.records.rows[record := p.records.rows[record].(loaded := true)];
    p.raws := p.raws[id := p.raws[id][(sequence, env.sha(resp.body)) := true]];
    return Ok(()), j';
  }

  /** The protocol's checkpoint of a page, on both sides. */
  lemma {:induction false} CheckpointJournalled(env: Env, p: Platform, j: Journal, t: TaskId, id: RunId,
      resp: Response, count: nat, mem: Claims.Row)
      returns (j': Journal)
    requires Sim(env, p, j, t, id, Marked(resp, count))
    requires var e := j.now.workers[t].phase; mem == AfterPage(env, e.mem, e.page, e.sequence, resp, count)
    ensures JournalOk(env, j') && j'.origin == j.origin && t in j'.now.workers && id in j'.now.runs
    ensures j'.now.workers[t].msg == j.now.workers[t].msg
    ensures j'.now.workers[t].phase == Resume(env, j.now.workers[t].phase.(mem := mem), resp)
    ensures id in p.runs.rows
    ensures Agrees(p.runs.rows[id := SaveProgress(p.runs.rows[id], mem)], p.raws, p.dest, p.queue, j'.now)
  {
    hide MapRecords, Agrees, JournalOk, EndsExtraction, Resume, Platform.Backed, AfterPage;
    j' := Journalled(env, p, j, t, id, Checkpoint, OnCheckpoint(env, j.now.runs[id], j.now.workers[t]).value);
  }

  lemma {:induction false} AfterPageIs(env: Env, mem: Claims.Row, page: RestApi.FetchResult, sequence: nat, count: nat)
    requires var resp := Response(page.records, page.body);
      page.nextCursor == if EndsExtraction(env, resp) then None else Some(page.cursorUsed + 1)
    ensures AfterPage(env, mem, page.cursorUsed, sequence, Response(page.records, page.body), count)
         == mem.(pagesExtracted := sequence, recordsExtracted := mem.recordsExtracted + |page.records|,
                 recordsLoaded := mem.recordsLoaded + count, rawPayloadCount := mem.rawPayloadCount + 1,
                 cursor := if page.nextCursor.Some? then page.nextCursor else Some(page.cursorUsed))
  {
  }

  lemma {:induction false} RowStored(env: Env, p: Platform, j: Journal, t: TaskId, id: RunId, pc: Pc)
    requires Sim(env, p, j, t, id, pc)
    ensures id in p.runs.rows
  {
    hide JournalOk, Platform.Backed, RawsAgree;
  }

  /** The in-memory counters advance first; a failing save leaves the stored row as it was. */
  method CheckpointPage(p: Platform, run: PipelineRun, env: Env, sequence: nat, page: RestApi.FetchResult, count: nat,
      fault: Option<Unforeseen>, ghost j: Journal, ghost t: TaskId)
    returns (r: Result<(), Error>, ghost j': Journal)
    requires var resp := Response(page.records, page.body);
      && Sim(env, p, j, t, run.id, Marked(resp, count)) && j.now.workers[t].phase.sequence == sequence
      && j.now.workers[t].phase.page == page.cursorUsed && j.now.workers[t].phase.mem == run.Value()
      && page.nextCursor == (if EndsExtraction(env, resp) then None else Some(page.cursorUsed + 1))
    modifies p.runs, run`pagesExtracted, run`recordsExtracted, run`recordsLoaded, run`rawPayloadCount, run`cursor
    ensures r == if fault.Some? then Err(fault.value) else Ok(())
    // The in-memory row moves on in any case; its five columns are saved, or none.
    ensures run.Value() == old(run.Value()).(
        pagesExtracted := sequence, recordsExtracted := old(run.recordsExtracted) + |page.records|,
        recordsLoaded := old(run.recordsLoaded) + count, rawPayloadCount := old(run.rawPayloadCount) + 1,
        cursor := if page.nextCursor.Some? then page.nextCursor else Some(page.cursorUsed))
    ensures run.id in old(p.runs.rows)
    ensures p.runs.rows == if r.Err? then old(p.runs.rows) else old(p.runs.rows)[run.id := old(p.runs.rows)[run.id].(
        pagesExtracted := run.pagesExtracted, recordsExtracted := run.recordsExtracted,
        recordsLoaded := run.recordsLoaded, rawPayloadCount := run.rawPayloadCount, cursor := run.cursor)]
    ensures r.Err? ==>
      && Sim(env, p, j', t, run.id, Raised(r.error)) && j'.origin == j.origin
      && j'.now.workers[t].msg == j.now.workers[t].msg && j'.now.workers[t].phase.mem == run.Value()
    ensures r.Ok? ==>
      && JournalOk(env, j') && Represents(p, j'.now) && j'.origin == j.origin
      && t in j'.now.workers && j'.now.workers[t].msg == j.now.workers[t].msg && run.id in j'.now.runs
      && j'.now.workers[t].phase
          == Resume(env, j.now.workers[t].phase.(mem := run.Value()), Response(page.records, page.body))
  {
    hide MapRecords, Agrees, JournalOk, Resume, Platform.Backed, AfterPage, Stands;
    ghost var resp := Response(page.records, page.body);
    RowStored(env, p, j, t, run.id, Marked(resp, count));
    run.pagesExtracted := sequence;
    run.recordsExtracted := run.recordsExtracted + |page.records|;
    run.recordsLoaded := run.recordsLoaded + count;
    run.rawPayloadCount := run.rawPayloadCount + 1;
    run.cursor := if page.nextCursor.Some? then page.nextCursor else Some(page.cursorUsed);
    AfterPageIs(env, old(run.Value()), page, sequence, count);
    if fault.Some? {
      j' := RaiseFault(env, p, j, t, run.id, Marked(resp, count), fault.value);
      return Err(fault.value), j';
    }
    j' := CheckpointJournalled(env, p, j, t, run.id, resp, count, run.Value());
    p.runs.rows := p.runs.rows[run.id := SaveProgress(p.runs.rows[run.id], run.Value())];
    return Ok(()), j';
  }
}
