/** Claiming a run, and the only places its status changes (apps/execution/claims.py).

    Each operation is given twice: as a function on the stored row, which the protocol and its
    proofs use, and as the method that updates the in-memory object and saves it. */
module Claims {
  import opened Prelude

  type TaskId = nat
  type RunId = nat

  datatype Status = Pending | Running | Succeeded | Failed

  predicate Terminal(status: Status) {
    status == Succeeded || status == Failed
  }

  /** The columns of a `PipelineRun`, timestamps and message texts apart. */
  datatype Row = Row(
    status: Status,
    attempt: nat,
    taskId: Option<TaskId>,
    cursor: Option<nat>,
    pagesExtracted: nat,
    recordsExtracted: nat,
    recordsLoaded: nat,
    rawPayloadCount: nat,
    error: Option<Error>,
    continuedFrom: Option<RunId>)

  const CLAIM_REJECTED := Error(RunClaimRejected, false)
  const INVALID_TRANSITION := Error(InvalidRunTransition, false)

  function ClaimRow(row: Row, task: Option<TaskId>): Result<Row, Error> {
    if Terminal(row.status) then Err(CLAIM_REJECTED)
    else if row.status == Running && row.taskId != task then Err(CLAIM_REJECTED)
    else Ok(row.(status := Running, taskId := task, attempt := row.attempt + 1))
  }

  function MarkSucceeded(row: Row): Result<Row, Error> {
    if row.status != Running then Err(INVALID_TRANSITION)
    else Ok(row.(status := Succeeded, error := None))
  }

  function MarkFailed(row: Row, error: Error): Result<Row, Error> {
    if row.status != Running then Err(INVALID_TRANSITION)
    else Ok(row.(status := Failed, error := Some(error)))
  }

  function PendingRetry(row: Row, error: Error): Row {
    row.(error := Some(error))
  }

  // The `save(update_fields=...)` calls: only the named columns of the stored row are written.

  function SaveClaim(stored: Row, mem: Row): Row {
    stored.(status := mem.status, taskId := mem.taskId, attempt := mem.attempt)
  }

  function SaveOutcome(stored: Row, mem: Row): Row {
    stored.(status := mem.status, error := mem.error)
  }

  function SaveError(stored: Row, mem: Row): Row {
    stored.(error := mem.error)
  }

  function SaveProgress(stored: Row, mem: Row): Row {
    stored.(pagesExtracted := mem.pagesExtracted,
            recordsExtracted := mem.recordsExtracted,
            recordsLoaded := mem.recordsLoaded,
            rawPayloadCount := mem.rawPayloadCount,
            cursor := mem.cursor)
  }

  /** What never goes backwards in the life of a run: a finished row is frozen, an owner is kept,
      a continuation link is kept and no counter falls. */
  predicate Forward(before: Row, after: Row) {
    && (Terminal(before.status) ==> after == before)
    && (before.status == Running ==> after.status != Pending)
    && (before.taskId.Some? ==> after.taskId == before.taskId)
    && after.continuedFrom == before.continuedFrom
    && before.attempt <= after.attempt
    && before.pagesExtracted <= after.pagesExtracted
    && before.recordsExtracted <= after.recordsExtracted
    && before.recordsLoaded <= after.recordsLoaded
    && before.rawPayloadCount <= after.rawPayloadCount
  }

  lemma ForwardTransitive(a: Row, b: Row, c: Row)
    requires Forward(a, b) && Forward(b, c)
    ensures Forward(a, c)
  {
  }

  /** The stored rows, keyed by run. */
  class RunTable {
    var rows: map<RunId, Row>

    constructor ()
      ensures rows == map[]
    {
      rows := map[];
    }
  }

  /** The in-memory copy of a row that one attempt works on. */
  class PipelineRun {
    const id: RunId
    var status: Status
    var attempt: nat
    var taskId: Option<TaskId>
    var cursor: Option<nat>
    var pagesExtracted: nat
    var recordsExtracted: nat
    var recordsLoaded: nat
    var rawPayloadCount: nat
    var error: Option<Error>
    const continuedFrom: Option<RunId>

    function Value(): Row
      reads this
    {
      Row(status, attempt, taskId, cursor, pagesExtracted, recordsExtracted, recordsLoaded,
          rawPayloadCount, error, continuedFrom)
    }

    constructor (id: RunId, row: Row)
      ensures this.id == id && Value() == row
    {
      this.id := id;
      status, attempt, taskId, cursor := row.status, row.attempt, row.taskId, row.cursor;
      pagesExtracted, recordsExtracted := row.pagesExtracted, row.recordsExtracted;
      recordsLoaded, rawPayloadCount := row.recordsLoaded, row.rawPayloadCount;
      error, continuedFrom := row.error, row.continuedFrom;
    }

    method MarkRunSucceeded(table: RunTable) returns (r: Result<(), Error>)
      requires id in table.rows
      modifies this`status, this`error, table
      ensures r.Ok? <==> old(status) == Running
      ensures r.Ok? ==>
        && Value() == old(Value()).(status := Succeeded, error := None)
        && table.rows == old(table.rows)[id := old(table.rows)[id].(status := Succeeded, error := None)]
      ensures r.Err? ==> r.error == Error(InvalidRunTransition, false)
      ensures r.Err? ==> Value() == old(Value()) && table.rows == old(table.rows)
    {
      if status != Running {
        return Err(INVALID_TRANSITION);
      }
      status := Succeeded;
      error := None;
      table.rows := table.rows[id := table.rows[id].(status := status, error := error)];
      return Ok(());
    }

    method MarkRunFailed(table: RunTable, err: Error) returns (r: Result<(), Error>)
      requires id in table.rows
      modifies this`status, this`error, table
      ensures r.Ok? <==> old(status) == Running
      ensures r.Ok? ==>
        && Value() == old(Value()).(status := Failed, error := Some(err))
        && table.rows == old(table.rows)[id := old(table.rows)[id].(status := Failed, error := Some(err))]
      ensures r.Err? ==> r.error == Error(InvalidRunTransition, false)
      ensures r.Err? ==> Value() == old(Value()) && table.rows == old(table.rows)
    {
      if status != Running {
        return Err(INVALID_TRANSITION);
      }
      status := Failed;
      error := Some(err);
      table.rows := table.rows[id := table.rows[id].(status := status, error := error)];
      return Ok(());
    }

    method RecordPendingRetry(table: RunTable, err: Error)
      requires id in table.rows
      modifies this`error, table
      ensures Value() == old(Value()).(error := Some(err))
      ensures table.rows == old(table.rows)[id := old(table.rows)[id].(error := Some(err))]
    {
      error := Some(err);
      table.rows := table.rows[id := table.rows[id].(error := error)];
    }
  }

  /** `lockedByAnother` is the `SKIP LOCKED` outcome: the row exists, but another open claim holds it. */
  method ClaimRun(table: RunTable, id: RunId, task: Option<TaskId>, lockedByAnother: bool)
    returns (r: Result<PipelineRun, Error>)
    modifies table
    ensures r.Ok? <==>
      && id in old(table.rows) && !lockedByAnother
      && var row := old(table.rows)[id]; row.status == Pending || (row.status == Running && row.taskId == task)
    ensures r.Err? ==> r.error == Error(RunClaimRejected, false) && table.rows == old(table.rows)
    ensures r.Ok? ==>
      && fresh(r.value)
      && r.value.id == id
      && var row := old(table.rows)[id];
         && r.value.Value() == row.(status := Running, taskId := task, attempt := row.attempt + 1)
         && table.rows == old(table.rows)[id := r.value.Value()]
  {
    if id !in table.rows || lockedByAnother {
      return Err(CLAIM_REJECTED);
    }
    var run := new PipelineRun(id, table.rows[id]);
    if Terminal(run.status) {
      return Err(CLAIM_REJECTED);
    }
    if run.status == Running && run.taskId != task {
      return Err(CLAIM_REJECTED);
    }
    run.status := Running;
    run.taskId := task;
    run.attempt := run.attempt + 1;
    table.rows := table.rows[id := SaveClaim(table.rows[id], run.Value())];
    return Ok(run);
  }
}
