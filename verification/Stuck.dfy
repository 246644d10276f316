/** When a RUNNING run can still end, and when it is stuck for good. */
module Stuck {
  import opened Prelude
  import opened Claims
  import opened Protocol
  import opened Runs
  import opened RunInvariant
  import opened ProtocolInvariant
  import opened Retries

  /** The run is RUNNING for task `t`, of which no message is queued. */
  predicate Abandoned(s: State, id: RunId, t: TaskId) {
    id in s.runs && t in s.tasks && s.runs[id].row.status == Running && s.runs[id].row.taskId == Some(t)
        && !HasMsg(s.queue, t)
  }

  lemma {:induction false} DoAbandoned(env: Env, s: State, u: TaskId, ev: Event, id: RunId, t: TaskId)
    requires Inv(env, s) && Abandoned(s, id, t) && DoNext(env, s, u, ev).Some?
    ensures Abandoned(DoNext(env, s, u, ev).value, id, t)
    ensures DoNext(env, s, u, ev).value.runs[id].row == s.runs[id].row
  {
    hide Inv, Advance;
    WorkerFacts(env, s, u);
    DoFacts(env, s, u, ev);
    assert HasMsg(s.queue, u);
    var s' := DoNext(env, s, u, ev).value;
    forall m | m in s'.queue ensures m.task != t {
    }
  }

  /** Nothing brings a worker back to an abandoned run: every step leaves its row as it is. */
  lemma {:induction false} NextAbandoned(env: Env, s: State, a: Action, id: RunId, t: TaskId)
    requires Inv(env, s) && Abandoned(s, id, t) && Next(env, s, a).Some?
    ensures Abandoned(Next(env, s, a).value, id, t)
    ensures Next(env, s, a).value.runs[id].row == s.runs[id].row
  {
    hide Inv, DoNext, Ended, NewRun, Charge, RemoveMsg;
    match a
    case Do(u, ev) => DoAbandoned(env, s, u, ev, id, t);
    case Claim(u, _) =>
      WorkerFacts(env, s, u);
      assert HasMsg(s.queue, u);
    case Enqueue(_, u) =>
      assert u != t;
    case Ack(u) => RemoveAbandoned(s.queue, s.workers[u].msg, t);
    case Crash(u, _) => RemoveAbandoned(s.queue, s.workers[u].msg, t);
    case _ =>
  }

  lemma {:induction false} RemoveAbandoned(queue: seq<Msg>, msg: Msg, t: TaskId)
    requires !HasMsg(queue, t)
    ensures !HasMsg(RemoveMsg(queue, msg), t)
  {
    forall m | m in RemoveMsg(queue, msg) ensures m.task != t {
      RemoveMsgMembers(queue, msg, m);
    }
  }

  /** An abandoned run is stuck: its row is frozen in every continuation of the execution. */
  lemma {:induction false} AbandonedForGood(env: Env, trace: seq<Action>, more: seq<Action>, id: RunId, t: TaskId)
    requires Execute(env, trace).Some? && Abandoned(Execute(env, trace).value, id, t)
    requires Execute(env, trace + more).Some?
    ensures Abandoned(Execute(env, trace + more).value, id, t)
    ensures Execute(env, trace + more).value.runs[id].row == Execute(env, trace).value.runs[id].row
  {
    hide Next, Inv, Abandoned;
    if more == [] {
      assert trace + more == trace;
    } else {
      var front := more[..|more| - 1];
      assert (trace + more)[..|trace + more| - 1] == trace + front;
      AbandonedForGood(env, trace, front, id, t);
      Reachable(env, trace + front);
      NextAbandoned(env, Execute(env, trace + front).value, more[|more| - 1], id, t);
    }
  }

  // ---- the way out ----------------------------------------------------------------------------

  const BROKEN := Error(FetchFailed, false)

  /** The owner's message is in the queue, and no worker holds it. */
  predicate Deliverable(s: State, id: RunId, t: TaskId, i: nat) {
    && id in s.runs && s.runs[id].row.status == Running && s.runs[id].row.taskId == Some(t)
    && t !in s.workers && i < |s.queue| && s.queue[i].task == t && s.queue[i].run == id
  }

  /** Delivered, claimed and failed for good. */
  function WayOut(t: TaskId, i: nat): seq<Action> {
    [Deliver(i)] + [Claim(t, 1)] + [Do(t, Raise(BROKEN))] + [Do(t, RecordFailure)]
  }

  lemma {:induction false} FourSteps(env: Env, s: State, a: Action, b: Action, c: Action, d: Action, s1: State,
      s2: State, s3: State, s4: State)
    requires Next(env, s, a) == Some(s1) && Next(env, s1, b) == Some(s2)
    requires Next(env, s2, c) == Some(s3) && Next(env, s3, d) == Some(s4)
    ensures NextAll(env, s, [a] + [b] + [c] + [d]) == Some(s4)
  {
    hide Next, NextAll;
    NextAllNone(env, s);
    NextAllAppend(env, s, [], a);
    assert [] + [a] == [a];
    NextAllAppend(env, s, [a], b);
    NextAllAppend(env, s, [a] + [b], c);
    NextAllAppend(env, s, [a] + [b] + [c], d);
  }

  lemma {:induction false} OwnerReclaims(env: Env, s: State, id: RunId, t: TaskId,
      i: nat) returns (s1: State, s2: State)
    requires Deliverable(s, id, t, i)
    ensures DeliverNext(s, i) == Some(s1) && ClaimNext(env, s1, t, 1) == Some(s2)
    ensures t in s2.workers && s2.workers[t].msg.run == id && id in s2.runs && s2.runs[id].row.status == Running
    ensures s2.workers[t].phase.Executing? && s2.workers[t].phase.pc == Fetching
        && s2.workers[t].phase.mem.status == Running
  {
    hide Ended, CursorPage, NewRun;
    s1 := DeliverNext(s, i).value;
    s2 := ClaimNext(env, s1, t, 1).value;
  }

  lemma {:induction false} FailsForGood(env: Env, s: State, id: RunId, t: TaskId) returns (s1: State, s2: State)
    requires t in s.workers && s.workers[t].msg.run == id && id in s.runs && s.runs[id].row.status == Running
    requires s.workers[t].phase.Executing? && s.workers[t].phase.pc == Fetching
        && s.workers[t].phase.mem.status == Running
    ensures DoNext(env, s, t, Raise(BROKEN)) == Some(s1) && DoNext(env, s1, t, RecordFailure) == Some(s2)
    ensures id in s2.runs && s2.runs[id].row.status == Failed
  {
    hide Ended, CursorPage, NewRun;
    s1 := DoNext(env, s, t, Raise(BROKEN)).value;
    s2 := DoNext(env, s1, t, RecordFailure).value;
  }

  lemma {:induction false} WayOutEnds(env: Env, s: State, id: RunId, t: TaskId, i: nat)
    requires Deliverable(s, id, t, i)
    ensures NextAll(env, s, WayOut(t, i)).Some?
    ensures var s' := NextAll(env, s, WayOut(t, i)).value; id in s'.runs && s'.runs[id].row.status == Failed
  {
    hide NextAll, DeliverNext, ClaimNext, DoNext;
    var s1, s2 := OwnerReclaims(env, s, id, t, i);
    var s3, s4 := FailsForGood(env, s2, id, t);
    FourSteps(env, s, Deliver(i), Claim(t, 1), Do(t, Raise(BROKEN)), Do(t, RecordFailure), s1, s2, s3, s4);
  }

  lemma {:induction false} NextAllNone(env: Env, s: State)
    ensures NextAll(env, s, []) == Some(s)
  {
  }

  /** Some continuation of the execution ends the run. */
  ghost predicate CanEnd(env: Env, trace: seq<Action>, id: RunId) {
    exists more :: Ends(env, trace, more, id)
  }

  predicate Ends(env: Env, trace: seq<Action>, more: seq<Action>, id: RunId) {
    && Execute(env, trace + more).Some?
    && id in Execute(env, trace + more).value.runs
    && Terminal(Execute(env, trace + more).value.runs[id].row.status)
  }

  /** With the owner's message in the queue the run can end: if a worker holds the message, that
      worker may die first. */
  lemma {:induction false} MessageLeadsOut(env: Env, trace: seq<Action>, id: RunId, t: TaskId)
    returns (more: seq<Action>)
    requires Execute(env, trace).Some?
    requires var s := Execute(env, trace).value;
      id in s.runs && s.runs[id].row.status == Running && s.runs[id].row.taskId == Some(t) && HasMsg(s.queue, t)
    ensures Ends(env, trace, more, id)
  {
    hide Execute, NextAll, Inv, BudgetOk, RetriesOk, Charge;
    var s := Execute(env, trace).value;
    Reachable(env, trace);
    BudgetsHold(env, trace);
    var m :| m in s.queue && m.task == t;
    QueueFacts(env, s, m);
    var i :| 0 <= i < |s.queue| && s.queue[i] == m;
    var idle := if t in s.workers then CrashNext(s, t, true).value else s;
    var first := if t in s.workers then [Crash(t, true)] else [];
    NextAllNone(env, s);
    NextAllAppend(env, s, [], Crash(t, true));
    assert [] + [Crash(t, true)] == [Crash(t, true)];
    assert NextAll(env, s, first) == Some(idle);
    WayOutEnds(env, idle, id, t, i);
    NextAllConcat(env, s, first, WayOut(t, i));
    more := first + WayOut(t, i);
    ExecuteThen(env, trace, more);
  }

  /** In every reachable state a RUNNING run can still end if and only if a message of its owner is
      queued; otherwise it stays RUNNING, with this very row, whatever happens. */
  lemma {:induction false} EndsIffMessageQueued(env: Env, trace: seq<Action>, id: RunId)
    requires Execute(env, trace).Some? && id in Execute(env, trace).value.runs
    requires Execute(env, trace).value.runs[id].row.status == Running
    ensures var s := Execute(env, trace).value;
      && s.runs[id].row.taskId.Some?
      && (CanEnd(env, trace, id) <==> HasMsg(s.queue, s.runs[id].row.taskId.value))
  {
    hide Execute, Inv, HasMsg, BudgetOk, RetriesOk;
    var s := Execute(env, trace).value;
    Reachable(env, trace);
    OwnerFacts(env, s, id);
    BudgetsHold(env, trace);
    var t := s.runs[id].row.taskId.value;
    if HasMsg(s.queue, t) {
      var more := MessageLeadsOut(env, trace, id, t);
    } else if CanEnd(env, trace, id) {
      var more :| Ends(env, trace, more, id);
      AbandonedForGood(env, trace, more, id, t);
    }
  }

  // ---- what strands a run ---------------------------------------------------------------------

  /** A message of the task goes away unhandled: its claim loses the row lock, or its worker dies and
      the broker drops the message. */
  predicate Strands(a: Action, t: TaskId) {
    || (a.RejectLocked? && a.task == t)
    || (a.Crash? && a.task == t && !a.redelivered)
  }

  lemma {:induction false} StepStrands(env: Env, s: State, a: Action, t: TaskId)
    requires Next(env, s, a).Some? && t in Next(env, s, a).value.stranded && t !in s.stranded
    ensures Strands(a, t)
  {
    hide ClaimStep, Advance, NewRun, RemoveMsg, Charge;
  }

  lemma {:induction false} StrandedBy(env: Env, trace: seq<Action>, t: TaskId)
    requires Execute(env, trace).Some? && t in Execute(env, trace).value.stranded
    ensures exists a :: a in trace && Strands(a, t)
  {
    hide Next, Strands;
    var front, a := trace[..|trace| - 1], trace[|trace| - 1];
    assert trace == front + [a];
    if t in Execute(env, front).value.stranded {
      StrandedBy(env, front, t);
      var b :| b in front && Strands(b, t);
      assert b in trace;
    } else {
      StepStrands(env, Execute(env, front).value, a, t);
      assert a in trace;
    }
  }

  /** A RUNNING run that can no longer end is stuck because a message of its owner went away
      unhandled; if no worker of the owner has died, its claim has lost the row lock. */
  lemma {:induction false} WhatStrandsARun(env: Env, trace: seq<Action>, id: RunId)
    requires Execute(env, trace).Some? && id in Execute(env, trace).value.runs
    requires Execute(env, trace).value.runs[id].row.status == Running && !CanEnd(env, trace, id)
    ensures var owner := Execute(env, trace).value.runs[id].row.taskId;
      owner.Some? && exists a :: a in trace && Strands(a, owner.value)
  {
    hide Execute, HasMsg, Strands, CanEnd;
    EndsIffMessageQueued(env, trace, id);
    RunningIsAttended(env, trace, id);
    StrandedBy(env, trace, Execute(env, trace).value.runs[id].row.taskId.value);
  }
}
