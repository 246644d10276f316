/** Creating and dispatching a run by hand (apps/execution/dispatch.py). */
module Dispatch {
  import opened Prelude
  import opened Mapping
  import opened Claims
  import opened Protocol
  import opened Orchestration
  import ProtocolInvariant
  import RawService

  type PipelineId = nat

  datatype Pipeline = Pipeline(id: PipelineId, isActive: bool)

  /** The run to continue, as the caller loaded it at some earlier time. */
  datatype PriorRun = PriorRun(pipeline: PipelineId, id: RunId, loaded: Claims.Row)

  /** The unique `idempotency_key` column: the pipeline and the run behind each key. */
  class KeyIndex {
    var keys: map<string, (PipelineId, RunId)>

    constructor ()
      ensures keys == map[]
    {
      keys := map[];
    }
  }

  /** The platform holds the runs of `pipeline`; those of other pipelines only occupy keys. */
  predicate Indexed(keys: map<string, (PipelineId, RunId)>, rows: map<RunId, Claims.Row>, pipeline: PipelineId) {
    forall key | key in keys && keys[key].0 == pipeline :: keys[key].1 in rows
  }

  /** The key the run is found or created under; an empty key counts as none. */
  function EffectiveKey(key: Option<string>, generated: string): string {
    if key.Some? && key.value != "" then key.value else generated
  }

  /** The request is refused before anything is written: the pipeline is not active, or the run to
      continue is another pipeline's or did not fail at its page limit. */
  predicate Refused(pipeline: Pipeline, prior: Option<PriorRun>) {
    || !pipeline.isActive
    || (prior.Some?
        && !(prior.value.pipeline == pipeline.id && prior.value.loaded.status == Failed
             && prior.value.loaded.error.Some? && prior.value.loaded.error.value.category == PageLimitExceededError))
  }

  /** The row of a new run: fresh, or with the cursor and the counters of the run it continues. */
  predicate IsNewRow(row: Claims.Row, prior: Option<PriorRun>) {
    && row.status == Pending && row.attempt == 0 && row.taskId.None? && row.error.None?
    && if prior.None? then
         row.cursor.None? && row.continuedFrom.None?
         && row.pagesExtracted == row.recordsExtracted == row.recordsLoaded == row.rawPayloadCount == 0
       else
         var from := prior.value.loaded;
         && row.cursor == from.cursor && row.pagesExtracted == from.pagesExtracted
         && row.recordsExtracted == from.recordsExtracted && row.recordsLoaded == from.recordsLoaded
         && row.rawPayloadCount == from.rawPayloadCount && row.continuedFrom == Some(prior.value.id)
  }

  /** The copy is the row of the run as it was stored after the first `moment` steps. */
  predicate LoadedAt(env: Env, trace: seq<Action>, moment: nat, prior: PriorRun) {
    && moment <= |trace| && Execute(env, trace[..moment]).Some?
    && prior.id in Execute(env, trace[..moment]).value.runs
    && prior.loaded == Execute(env, trace[..moment]).value.runs[prior.id].row
  }

  /** However long ago it was loaded, a copy of a continuable run is the row stored now. */
  lemma {:induction false} FinishedCopyIsCurrent(env: Env, trace: seq<Action>, moment: nat, prior: PriorRun)
    requires Execute(env, trace).Some? && LoadedAt(env, trace, moment, prior) && IsContinuable(prior.loaded)
    ensures prior.id in Execute(env, trace).value.runs
    ensures Execute(env, trace).value.runs[prior.id].row == prior.loaded
  {
    hide Execute;
    ProtocolInvariant.ExecutionForward(env, trace, moment, prior.id);
  }

  function Seed(prior: Option<PriorRun>): Option<(RunId, Claims.Row)> {
    if prior.None? then None else Some((prior.value.id, prior.value.loaded))
  }

  /** One run per key: a known key never creates a second run, and enqueues the first again only
      while it is still pending. A run created for a continuation carries the cursor and the
      counters of the run it continues. Either way the platform takes steps of the protocol. */
  method TriggerManualRun(p: Platform, index: KeyIndex, pipeline: Pipeline, key: Option<string>,
      prior: Option<PriorRun>, generated: string, newRun: RunId, newTask: TaskId, env: Env, ghost trace: seq<Action>,
      ghost moment: nat)
    returns (r: Result<(RunId, bool), Error>, ghost trace': seq<Action>)
    requires Execute(env, trace).Some? && Represents(p, Execute(env, trace).value)
    requires generated !in index.keys && newRun !in p.runs.rows && newTask !in Execute(env, trace).value.tasks
    requires Indexed(index.keys, p.runs.rows, pipeline.id)
    requires prior.Some? && prior.value.pipeline == pipeline.id ==> LoadedAt(env, trace, moment, prior.value)
    modifies p`raws, p`queue, p.runs, index
    ensures trace <= trace' && Execute(env, trace').Some? && Represents(p, Execute(env, trace').value)
    ensures Indexed(index.keys, p.runs.rows, pipeline.id)
    ensures
      var k := if key.Some? && key.value != "" then key.value else generated;
      var known := k in old(index.keys);
      if Refused(pipeline, prior) || (known && old(index.keys)[k].0 != pipeline.id) then
        r == Err(Error(ConfigurationError, false)) && index.keys == old(index.keys) && p.runs.rows == old(p.runs.rows)
            && p.queue == old(p.queue)
      else if known then
        var run := old(index.keys)[k].1;
        && r == Ok((run, old(p.runs.rows)[run].status == Pending))
        && index.keys == old(index.keys) && p.runs.rows == old(p.runs.rows)
        && p.queue == if r.value.1 then old(p.queue) + [Msg(newTask, run, 0)] else old(p.queue)
      else
        && r == Ok((newRun, true))
        && index.keys == old(index.keys)[k := (pipeline.id, newRun)]
        && newRun in p.runs.rows && IsNewRow(p.runs.rows[newRun], prior)
        && p.runs.rows == old(p.runs.rows)[newRun := p.runs.rows[newRun]]
        && p.queue == old(p.queue) + [Msg(newTask, newRun, 0)]
  {
    hide Execute, Agrees;
    trace' := trace;
    if !pipeline.isActive {
      return Err(CONFIGURATION_ERROR), trace';
    }
    if prior.Some? {
      if prior.value.pipeline != pipeline.id || !IsContinuable(prior.value.loaded) {
        return Err(CONFIGURATION_ERROR), trace';
      }
      FinishedCopyIsCurrent(env, trace, moment, prior.value);
      StoredRow(p, Execute(env, trace).value, prior.value.id);
    }
    var k := EffectiveKey(key, generated);
    var run;
    if k in index.keys {
      run := index.keys[k].1;
      if index.keys[k].0 != pipeline.id {
        return Err(CONFIGURATION_ERROR), trace';
      }
      if p.runs.rows[run].status != Pending {
        return Ok((run, false)), trace';
      }
    } else {
      run := newRun;
      trace' := CreateRun(p, env, trace, newRun, prior);
      index.keys := index.keys[k := (pipeline.id, newRun)];
    }
    trace' := EnqueueRun(p, env, trace', run, newTask);
    return Ok((run, true)), trace';
  }

  lemma {:induction false} StoredRow(p: Platform, s: State, id: RunId)
    requires Represents(p, s) && id in s.runs
    ensures id in p.runs.rows && p.runs.rows[id] == s.runs[id].row
  {
    hide Platform.Backed;
  }

  lemma {:induction false} RawsAgreeNew(raws: map<RunId, map<(nat, string), bool>>,
      rows: map<RawService.RecordId, RawService.Record>, name: RunId -> string, id: RunId)
    requires RawsAgree(raws, rows, name) && id !in raws
    ensures RawsAgree(raws[id := map[]], rows, name)
  {
    var raws' := raws[id := map[]];
    forall other, key ensures RawAgrees(raws', rows, name, other, key) {
      assert RawAgrees(raws, rows, name, other, key);
    }
  }

  method CreateRun(p: Platform, env: Env, ghost trace: seq<Action>, id: RunId, prior: Option<PriorRun>)
      returns (ghost trace': seq<Action>)
    requires Execute(env, trace).Some? && Represents(p, Execute(env, trace).value) && id !in p.runs.rows
    requires prior.Some? ==>
      prior.value.id in p.runs.rows && p.runs.rows[prior.value.id] == prior.value.loaded
          && IsContinuable(prior.value.loaded)
    modifies p`raws, p.runs
    ensures trace <= trace' && Execute(env, trace').Some? && Represents(p, Execute(env, trace').value)
    ensures p.runs.rows == old(p.runs.rows)[id := SeedRow(Seed(prior))]
    ensures Execute(env, trace').value.tasks == Execute(env, trace).value.tasks
  {
    hide Execute, Agrees, NewRun, RawsAgree, Flatten, RowsOf, NamesOk;
    ghost var s := Execute(env, trace).value;
    ghost var a := Create(id, if prior.None? then None else Some(prior.value.id));
    trace' := trace + [a];
    ExecuteOne(env, trace, a);
    CreatedAgrees(p, s, id, prior);
    RawsAgreeNew(p.raws, p.records.rows, p.name, id);
    p.runs.rows := p.runs.rows[id := SeedRow(Seed(prior))];
    p.raws := p.raws[id := map[]];
  }

  lemma {:induction false} CreatedAgrees(p: Platform, s: State, id: RunId, prior: Option<PriorRun>)
    requires Agrees(p.runs.rows, p.raws, p.dest, p.queue, s) && id !in p.runs.rows
    requires prior.Some? ==>
      prior.value.id in p.runs.rows && p.runs.rows[prior.value.id] == prior.value.loaded
          && IsContinuable(prior.value.loaded)
    ensures id !in p.raws
    ensures var s' := CreateNext(s, id, if prior.None? then None else Some(prior.value.id));
      && s'.Some? && s'.value.tasks == s.tasks
      && Agrees(p.runs.rows[id := SeedRow(Seed(prior))], p.raws[id := map[]], p.dest, p.queue, s'.value)
  {
  }

  method EnqueueRun(p: Platform, env: Env, ghost trace: seq<Action>, id: RunId, task: TaskId)
      returns (ghost trace': seq<Action>)
    requires Execute(env, trace).Some? && Represents(p, Execute(env, trace).value) && id in p.runs.rows
    requires task !in Execute(env, trace).value.tasks
    modifies p`queue
    ensures trace <= trace' && Execute(env, trace').Some? && Represents(p, Execute(env, trace').value)
    ensures p.queue == old(p.queue) + [Msg(task, id, 0)]
  {
    hide Execute;
    trace' := trace + [Enqueue(id, task)];
    ExecuteOne(env, trace, Enqueue(id, task));
    p.queue := p.queue + [Msg(task, id, 0)];
  }

  lemma {:induction false} ExecuteOne(env: Env, trace: seq<Action>, a: Action)
    requires Execute(env, trace).Some?
    ensures Execute(env, trace + [a]) == Next(env, Execute(env, trace).value, a)
  {
    hide Next;
    assert (trace + [a])[..|trace|] == trace;
  }
}
