/** Executions that do happen: crashes that lead to a sixth and to a ninth attempt, a redelivered
    message, a failed checkpoint that leaves the in-memory row ahead, and a lost row lock that
    strands a run. */
module Witnesses {
  import opened Prelude
  import opened Mapping
  import opened Claims
  import opened Protocol
  import opened RunInvariant
  import opened ProtocolInvariant
  import opened Retries

  const OUTAGE := Error(FetchFailed, true)

  function Try(n: nat): Msg {
    Msg(0, 0, n)
  }

  /** An execution that reaches `s`, and how many workers of task 0 died in it. */
  predicate Reaches(env: Env, trace: seq<Action>, s: State, crashes: nat, late: nat) {
    Execute(env, trace) == Some(s) && Crashes(trace, 0) == crashes && LateCrashes(env, trace, 0) == late
  }

  /** Task 0 has no worker; its run can be claimed and has been `n` times. */
  predicate Waits(s: State, queue: seq<Msg>, n: nat) {
    && s.workers == map[] && s.queue == queue && 0 in s.runs
    && s.runs[0].row.attempt == n && ClaimRow(s.runs[0].row, Some(0)).Ok?
  }

  /** Its only worker executes try `k` in attempt `n`. */
  predicate Works(s: State, queue: seq<Msg>, k: nat, n: nat, pc: Pc) {
    && s.workers.Keys == {0} && s.queue == queue && 0 in s.runs
    && s.workers[0].msg == Try(k) && s.workers[0].phase.Executing? && s.workers[0].phase.pc == pc
    && s.workers[0].phase.mem.status == s.runs[0].row.status == Running
    && s.runs[0].row.attempt == n && s.runs[0].row.taskId == Some(0)
  }

  lemma {:induction false} Step(env: Env, trace: seq<Action>, s: State, crashes: nat, late: nat, a: Action,
      after: State)
    requires Reaches(env, trace, s, crashes, late) && Next(env, s, a) == Some(after)
    ensures
      var dies := a.Crash? && a.task == 0;
      Reaches(env, trace + [a], after, crashes + (if dies then 1 else 0),
          late + (if dies && IsLate(s, 0) then 1 else 0))
  {
    hide Next, IsLate;
    assert (trace + [a])[..|trace|] == trace;
  }

  lemma {:induction false} Enqueued(env: Env) returns (trace: seq<Action>, s: State)
    ensures Reaches(env, trace, s, 0, 0) && Waits(s, [Try(0)], 0)
    ensures trace == [Create(0, None), Enqueue(0, 0)] && 1 !in s.tasks && s.dest == []
    ensures s.runs[0] == NewRun(0, None)
  {
    var s1 := CreateNext(INIT, 0, None).value;
    s := EnqueueNext(s1, 0, 0).value;
    Step(env, [], INIT, 0, 0, Create(0, None), s1);
    Step(env, [] + [Create(0, None)], s1, 0, 0, Enqueue(0, 0), s);
    trace := [] + [Create(0, None)] + [Enqueue(0, 0)];
  }

  lemma {:induction false} Claimed(env: Env, trace: seq<Action>, s: State, crashes: nat, late: nat, queue: seq<Msg>,
      n: nat, k: nat, i: nat)
      returns (trace': seq<Action>, s': State)
    requires Reaches(env, trace, s, crashes, late) && Waits(s, queue, n) && i < |queue| && queue[i] == Try(k)
    ensures Reaches(env, trace', s', crashes, late) && Works(s', queue, k, n + 1, Fetching)
    ensures trace' == trace + [Deliver(i)] + [Claim(0, 1)]
  {
    hide CursorPage, Ended, CreateNext, DoNext, AckNext, CrashNext, RejectNext, Crashes, LateCrashes, IsLate, Execute;
    var s1 := DeliverNext(s, i).value;
    s' := ClaimNext(env, s1, 0, 1).value;
    Step(env, trace, s, crashes, late, Deliver(i), s1);
    Step(env, trace + [Deliver(i)], s1, crashes, late, Claim(0, 1), s');
    trace' := trace + [Deliver(i)] + [Claim(0, 1)];
  }

  /** One event that leaves the destination alone. */
  lemma {:induction false} Event(env: Env, trace: seq<Action>, s: State, crashes: nat, late: nat, queue: seq<Msg>,
      k: nat, n: nat, pc: Pc, ev: Protocol.Event, eff: Effect) returns (trace': seq<Action>, s': State)
    requires Reaches(env, trace, s, crashes, late) && Works(s, queue, k, n, pc) && !ev.Load? && !ev.LoadLost?
    requires Advance(env, s.runs[0], s.workers[0], ev) == Some(eff)
    ensures Reaches(env, trace', s', crashes, late)
    ensures s'.workers == s.workers[0 := eff.worker] && s'.queue == queue + eff.published
        && s'.runs == s.runs[0 := eff.run]
  {
    hide Advance, Crashes, LateCrashes, IsLate, Execute;
    s' := DoNext(env, s, 0, ev).value;
    Step(env, trace, s, crashes, late, Do(0, ev), s');
    trace' := trace + [Do(0, ev)];
  }

  lemma {:induction false} Raises(env: Env, trace: seq<Action>, s: State, crashes: nat, late: nat, queue: seq<Msg>,
      k: nat, n: nat)
      returns (trace': seq<Action>, s': State)
    requires Reaches(env, trace, s, crashes, late) && Works(s, queue, k, n, Fetching)
    ensures Reaches(env, trace', s', crashes, late) && Works(s', queue, k, n, Raised(OUTAGE))
  {
    hide Reaches;
    trace', s' := Event(env, trace, s, crashes, late, queue, k, n, Fetching, Raise(OUTAGE),
                        OnRaise(env, s.runs[0], s.workers[0], OUTAGE).value);
    assert queue + [] == queue;
  }

  /** A failing attempt that is not the last: its retry is published. */
  lemma {:induction false} Fails(env: Env, trace: seq<Action>, s: State, crashes: nat, late: nat, queue: seq<Msg>,
      k: nat, n: nat)
      returns (trace': seq<Action>, s': State)
    requires Reaches(env, trace, s, crashes, late) && Works(s, queue, k, n, Fetching) && k < MAX_RETRIES
    ensures Reaches(env, trace', s', crashes, late) && Works(s', queue + [Try(k + 1)], k, n, Republished)
  {
    hide Reaches;
    var t1, s1 := Raises(env, trace, s, crashes, late, queue, k, n);
    var t2, s2 := Event(env, t1, s1, crashes, late, queue, k, n, Raised(OUTAGE), RecordFailure,
                        OnRecordFailure(s1.runs[0], s1.workers[0]).value);
    assert queue + [] == queue;
    assert Works(s2, queue, k, n, Recorded(OUTAGE));
    trace', s' := Event(env, t2, s2, crashes, late, queue, k, n, Recorded(OUTAGE), Decide,
                        OnDecide(s2.runs[0], s2.workers[0]).value);
  }

  /** The last attempt fails and finalises the run. */
  lemma {:induction false} FailsForGood(env: Env, trace: seq<Action>, s: State, crashes: nat, late: nat,
      queue: seq<Msg>, n: nat)
      returns (trace': seq<Action>, s': State)
    requires Reaches(env, trace, s, crashes, late) && Works(s, queue, MAX_RETRIES, n, Fetching)
    ensures Reaches(env, trace', s', crashes, late)
    ensures 0 in s'.runs && s'.runs[0].row.status == Failed && s'.runs[0].row.attempt == n
        && s'.runs[0].row.taskId == Some(0)
  {
    hide Reaches;
    var t1, s1 := Raises(env, trace, s, crashes, late, queue, MAX_RETRIES, n);
    trace', s' := Event(env, t1, s1, crashes, late, queue, MAX_RETRIES, n, Raised(OUTAGE), RecordFailure,
                        OnRecordFailure(s1.runs[0], s1.workers[0]).value);
  }

  /** The worker acknowledges a message whose retry it has published, or dies at that point. */
  lemma {:induction false} Acknowledges(env: Env, trace: seq<Action>, s: State, crashes: nat, late: nat,
      queue: seq<Msg>, k: nat, n: nat)
      returns (trace': seq<Action>, s': State)
    requires Reaches(env, trace, s, crashes, late) && Works(s, queue, k, n, Republished)
    ensures Reaches(env, trace', s', crashes, late) && Waits(s', RemoveMsg(queue, Try(k)), n)
    ensures s'.runs == s.runs
  {
    hide Crashes, LateCrashes, IsLate, Execute;
    s' := AckNext(s, 0).value;
    Step(env, trace, s, crashes, late, Ack(0), s');
    trace' := trace + [Ack(0)];
  }

  lemma {:induction false} Dies(env: Env, trace: seq<Action>, s: State, crashes: nat, late: nat, queue: seq<Msg>,
      k: nat, n: nat, pc: Pc)
      returns (trace': seq<Action>, s': State)
    requires Reaches(env, trace, s, crashes, late) && Works(s, queue, k, n, pc)
    ensures Reaches(env, trace', s', crashes + 1, late + if pc.Republished? then 1 else 0) && Waits(s', queue, n)
    ensures trace' == trace + [Crash(0, true)]
  {
    hide Crashes, LateCrashes, Execute, RemoveMsg;
    s' := CrashNext(s, 0, true).value;
    Step(env, trace, s, crashes, late, Crash(0, true), s');
    trace' := trace + [Crash(0, true)];
  }

  predicate OnlyTries(queue: seq<Msg>) {
    forall m | m in queue :: m.task == 0 && m.run == 0 && m.retries <= MAX_RETRIES
  }

  /** While the queued tries have budget left, one of them can be attempted and fail; that takes one
      from the budget. */
  lemma {:induction false} Attempts(env: Env, trace: seq<Action>, s: State, crashes: nat, late: nat, queue: seq<Msg>,
      n: nat)
      returns (trace': seq<Action>, s': State, queue': seq<Msg>)
    requires Reaches(env, trace, s, crashes, late) && Waits(s, queue, n) && OnlyTries(queue) && Budget(queue, 0) > 0
    ensures Reaches(env, trace', s', crashes, late) && Waits(s', queue', n + 1)
    ensures OnlyTries(queue') && queue' != [] && Budget(queue', 0) == Budget(queue, 0) - 1
  {
    hide Reaches, Waits, Works, Budget, RemoveMsg;
    var i := WithBudget(queue);
    var k := queue[i].retries;
    assert queue[i] == Try(k);
    var more := queue + [Try(k + 1)];
    var t1, s1 := Claimed(env, trace, s, crashes, late, queue, n, k, i);
    var t2, s2 := Fails(env, t1, s1, crashes, late, queue, k, n + 1);
    trace', s' := Acknowledges(env, t2, s2, crashes, late, more, k, n + 1);
    queue' := RemoveMsg(more, Try(k));
    BudgetAppend(queue, [Try(k + 1)], 0);
    BudgetOne(Try(k + 1), 0);
    assert Try(k) in more;
    BudgetRemove(more, Try(k), 0);
    RemoveShortens(more, Try(k));
    forall m | m in queue' ensures m.task == 0 && m.run == 0 && m.retries <= MAX_RETRIES {
      RemoveMsgMembers(more, Try(k), m);
    }
  }

  lemma {:induction false} WithBudget(queue: seq<Msg>) returns (i: nat)
    requires OnlyTries(queue) && Budget(queue, 0) > 0
    ensures i < |queue| && queue[i].retries < MAX_RETRIES
  {
    if queue[0].retries < MAX_RETRIES {
      i := 0;
    } else {
      i := WithBudget(queue[1..]);
      i := i + 1;
    }
  }

  lemma {:induction false} WithoutBudget(queue: seq<Msg>)
    requires OnlyTries(queue) && queue != [] && Budget(queue, 0) == 0
    ensures queue[0] == Try(MAX_RETRIES)
  {
  }

  /** All the budget can be used up, and then the last attempt made. */
  lemma {:induction false} UsesUp(env: Env, trace: seq<Action>, s: State, crashes: nat, late: nat, queue: seq<Msg>,
      n: nat)
      returns (trace': seq<Action>, s': State)
    requires Reaches(env, trace, s, crashes, late) && Waits(s, queue, n) && OnlyTries(queue) && queue != []
    ensures Reaches(env, trace', s', crashes, late)
    ensures 0 in s'.runs && s'.runs[0].row.taskId == Some(0) && s'.runs[0].row.attempt == n + Budget(queue, 0) + 1
    decreases Budget(queue, 0)
  {
    hide Reaches, Waits, Works, Budget, OnlyTries;
    if Budget(queue, 0) == 0 {
      WithoutBudget(queue);
      var t1, s1 := Claimed(env, trace, s, crashes, late, queue, n, MAX_RETRIES, 0);
      trace', s' := FailsForGood(env, t1, s1, crashes, late, queue, n + 1);
    } else {
      var t1, s1, rest := Attempts(env, trace, s, crashes, late, queue, n);
      trace', s' := UsesUp(env, t1, s1, crashes, late, rest, n + 1);
    }
  }

  /** Early crashes of the first try, one after another. */
  lemma {:induction false} EarlyCrashes(env: Env, early: nat) returns (trace: seq<Action>, s: State)
    ensures Reaches(env, trace, s, early, 0) && Waits(s, [Try(0)], early)
  {
    hide Reaches, Waits, Works;
    if early == 0 {
      trace, s := Enqueued(env);
    } else {
      var t1, s1 := EarlyCrashes(env, early - 1);
      var t2, s2 := Claimed(env, t1, s1, early - 1, 0, [Try(0)], early - 1, 0, 0);
      trace, s := Dies(env, t2, s2, early - 1, 0, [Try(0)], 0, early, Fetching);
    }
  }

  /** After them late crashes of the first try: each leaves its message and its retry in the queue. */
  lemma {:induction false} LateOnes(env: Env, early: nat, late: nat)
    returns (trace: seq<Action>, s: State, queue: seq<Msg>)
    ensures Reaches(env, trace, s, early + late, late) && Waits(s, queue, early + late)
    ensures OnlyTries(queue) && queue != [] && queue[0] == Try(0)
        && Budget(queue, 0) == MAX_RETRIES + (MAX_RETRIES - 1) * late
  {
    hide Reaches, Waits, Works;
    if late == 0 {
      trace, s := EarlyCrashes(env, early);
      queue := [Try(0)];
      BudgetOne(Try(0), 0);
    } else {
      hide Budget;
      var t1, s1, q1 := LateOnes(env, early, late - 1);
      var n := early + late - 1;
      var t2, s2 := Claimed(env, t1, s1, n, late - 1, q1, n, 0, 0);
      var t3, s3 := Fails(env, t2, s2, n, late - 1, q1, 0, n + 1);
      queue := q1 + [Try(1)];
      trace, s := Dies(env, t3, s3, n, late - 1, queue, 0, n + 1, Republished);
      BudgetAppend(q1, [Try(1)], 0);
      BudgetOne(Try(1), 0);
    }
  }

  /** The bound on attempts is attained, for any number of crashes and late crashes: one crash leads
      to a sixth attempt, one late crash to a ninth. */
  lemma {:induction false} BoundAttained(env: Env, early: nat, late: nat) returns (trace: seq<Action>)
    ensures Execute(env, trace).Some?
    ensures Crashes(trace, 0) == early + late && LateCrashes(env, trace, 0) == late
    ensures var s := Execute(env, trace).value;
      && 0 in s.runs && s.runs[0].row.taskId == Some(0)
      && s.runs[0].row.attempt == MAX_RUN_ATTEMPTS + Crashes(trace, 0) + (MAX_RETRIES - 1) * LateCrashes(env, trace, 0)
  {
    hide Waits, Budget, OnlyTries, Crashes, LateCrashes, Execute;
    var t1, s1, queue := LateOnes(env, early, late);
    var t2, s2 := UsesUp(env, t1, s1, early + late, late, queue, early + late);
    trace := t2;
  }

  /** A worker dies in the middle of an attempt: its message is delivered again, and the same task
      claims the run a second time. */
  lemma {:induction false} RedeliveredAfterACrash(env: Env) returns (trace: seq<Action>)
    ensures trace == [Create(0, None), Enqueue(0, 0), Deliver(0), Claim(0, 1), Crash(0, true), Deliver(0), Claim(0, 1)]
    ensures Execute(env, trace).Some?
    ensures var s := Execute(env, trace).value;
      && 0 in s.runs && s.runs[0].row.status == Running && s.runs[0].row.taskId == Some(0) && s.runs[0].row.attempt == 2
      && 0 in s.workers && s.workers[0].msg == Try(0) && s.workers[0].phase.Executing?
  {
    hide Waits, Crashes, LateCrashes, Execute;
    var t1, s1 := Enqueued(env);
    var t2, s2 := Claimed(env, t1, s1, 0, 0, [Try(0)], 0, 0, 0);
    var t3, s3 := Dies(env, t2, s2, 0, 0, [Try(0)], 0, 1, Fetching);
    var t4, s4 := Claimed(env, t3, s3, 1, 0, [Try(0)], 1, 0, 0);
    trace := t4;
  }

  // ---- a lost lock ----------------------------------------------------------------------------

  const OTHER := Msg(1, 0, 0)

  /** The run is dispatched a second time while it is still pending, as a repeated trigger does. */
  lemma {:induction false} EnqueuedTwice(env: Env) returns (trace: seq<Action>, s: State)
    ensures Reaches(env, trace, s, 0, 0) && Waits(s, [Try(0), OTHER], 0)
  {
    hide Crashes, LateCrashes, Execute;
    var t1, s1 := Enqueued(env);
    s := EnqueueNext(s1, 0, 1).value;
    Step(env, t1, s1, 0, 0, Enqueue(0, 1), s);
    trace := t1 + [Enqueue(0, 1)];
  }

  /** The first attempt fails and publishes its retry; the message of the second dispatch waits. */
  lemma {:induction false} RetryPublished(env: Env) returns (trace: seq<Action>, s: State)
    ensures Reaches(env, trace, s, 0, 0) && s.workers == map[] && s.queue == [OTHER, Try(1)]
    ensures 0 in s.runs && s.runs[0].row.status == Running && s.runs[0].row.taskId == Some(0)
  {
    hide Reaches;
    var t1, s1 := EnqueuedTwice(env);
    var t2, s2 := Claimed(env, t1, s1, 0, 0, [Try(0), OTHER], 0, 0, 0);
    var t3, s3 := Fails(env, t2, s2, 0, 0, [Try(0), OTHER], 0, 1);
    assert [Try(0), OTHER] + [Try(1)] == [Try(0), OTHER, Try(1)];
    trace, s := Acknowledges(env, t3, s3, 0, 0, [Try(0), OTHER, Try(1)], 0, 1);
    assert [Try(0), OTHER, Try(1)][1..] == [OTHER, Try(1)];
  }

  /** Both messages are with a worker, and neither has claimed yet. */
  lemma {:induction false} BothDelivered(env: Env) returns (trace: seq<Action>, s: State)
    ensures Reaches(env, trace, s, 0, 0) && s.queue == [OTHER, Try(1)]
    ensures s.workers == map[1 := Worker(OTHER, Received), 0 := Worker(Try(1), Received)]
    ensures 0 in s.runs && s.runs[0].row.status == Running && s.runs[0].row.taskId == Some(0)
  {
    hide Reaches, Execute, CreateNext, DoNext, ClaimNext, IsLate, NewRun;
    var t0, s0 := RetryPublished(env);
    var s1 := DeliverNext(s0, 0).value;
    Step(env, t0, s0, 0, 0, Deliver(0), s1);
    s := DeliverNext(s1, 1).value;
    Step(env, t0 + [Deliver(0)], s1, 0, 0, Deliver(1), s);
    trace := t0 + [Deliver(0)] + [Deliver(1)];
  }

  /** No worker dies and no message is lost. The claim of the second dispatch is in progress when the
      retry comes to claim its own run: it finds the row locked and is dropped as "nothing to do". The
      second dispatch is then refused, because the run belongs to the first. The run stays RUNNING
      with no worker and no message. */
  lemma {:induction false} LosingTheLockStrandsARun(env: Env) returns (trace: seq<Action>)
    ensures Execute(env, trace).Some? && Crashes(trace, 0) == 0
    ensures var s := Execute(env, trace).value;
      0 in s.runs && s.runs[0].row.status == Running && s.workers == map[] && s.queue == []
    ensures exists front :: |front| < |trace| && front + [RejectLocked(0, 1)] == trace[..|front| + 1]
  {
    hide Crashes, LateCrashes, Execute, CreateNext, DoNext, ClaimNext, IsLate, NewRun;
    var front, s0 := BothDelivered(env);
    var s1 := RejectNext(s0, 0, Some(1)).value;
    Step(env, front, s0, 0, 0, RejectLocked(0, 1), s1);
    trace := DropsBoth(env, front + [RejectLocked(0, 1)], s1);
    assert front + [RejectLocked(0, 1)] == trace[..|front| + 1];
  }

  /** Both messages are acknowledged, the second after its claim is refused. */
  lemma {:induction false} DropsBoth(env: Env, trace: seq<Action>, s: State) returns (trace': seq<Action>)
    requires Reaches(env, trace, s, 0, 0) && s.queue == [OTHER, Try(1)]
    requires s.workers == map[1 := Worker(OTHER, Received), 0 := Worker(Try(1), Finished)]
    requires 0 in s.runs && s.runs[0].row.status == Running && s.runs[0].row.taskId == Some(0)
    ensures trace <= trace' && Execute(env, trace').Some? && Crashes(trace', 0) == 0
    ensures var s' := Execute(env, trace').value;
      0 in s'.runs && s'.runs[0].row.status == Running && s'.workers == map[] && s'.queue == []
  {
    hide Crashes, LateCrashes, Execute, CreateNext, DoNext, ClaimNext, IsLate;
    var s4 := AckNext(s, 0).value;
    DropsSecond();
    assert s4.workers == map[1 := Worker(OTHER, Received)];
    Step(env, trace, s, 0, 0, Ack(0), s4);
    var t4 := trace + [Ack(0)];
    var s5 := RejectNext(s4, 1, None).value;
    Step(env, t4, s4, 0, 0, RejectClaim(1), s5);
    var t5 := t4 + [RejectClaim(1)];
    var s6 := AckNext(s5, 1).value;
    Step(env, t5, s5, 0, 0, Ack(1), s6);
    trace' := t5 + [Ack(1)];
  }

  lemma {:induction false} DropsSecond()
    ensures RemoveMsg([OTHER, Try(1)], Try(1)) == [OTHER]
    ensures RemoveMsg([OTHER], OTHER) == []
  {
    assert [OTHER, Try(1)][1..] == [Try(1)];
    assert [Try(1)][1..] == [] && [OTHER] + [] == [OTHER] && [OTHER][1..] == [];
    assert RemoveMsg([Try(1)], Try(1)) == [];
  }

  // ---- a failed checkpoint --------------------------------------------------------------------

  /** One event of an attempt, whatever it does to the destination. */
  lemma {:induction false} Happens(env: Env, trace: seq<Action>, s: State, ev: Protocol.Event, eff: Effect)
      returns (trace': seq<Action>, s': State)
    requires Execute(env, trace) == Some(s) && 0 in s.workers && 0 in s.runs && s.workers[0].msg.run == 0
    requires Advance(env, s.runs[0], s.workers[0], ev) == Some(eff) && eff.worker.msg == s.workers[0].msg
    ensures Execute(env, trace') == Some(s') && 0 in s'.workers && 0 in s'.runs
    ensures s'.workers[0] == eff.worker && s'.runs[0] == eff.run
    ensures |s'.dest| == |s.dest| + if ev.Load? || ev.LoadLost? then 1 else 0
  {
    hide Advance;
    s' := DoNext(env, s, 0, ev).value;
    trace' := trace + [Do(0, ev)];
    assert trace'[..|trace|] == trace;
  }

  /** The save of a checkpoint fails after its page was committed: the in-memory row is a page ahead
      of the stored one. */
  lemma {:induction false} MemoryAhead(env: Env, resp: Response) returns (trace: seq<Action>)
    requires resp.records != [] && MapRecords(resp.records, env.mapping, env.strict).Ok?
    ensures Execute(env, trace).Some?
    ensures var s := Execute(env, trace).value;
      && 0 in s.workers && 0 in s.runs && s.workers[0].msg.run == 0 && s.workers[0].phase.Executing?
      && s.workers[0].phase.mem.pagesExtracted == 1 && s.runs[0].row.pagesExtracted == 0
      && |s.dest| == 1
  {
    hide Execute, MapRecords, EndsExtraction, Crashes, LateCrashes;
    var t0, s0 := Enqueued(env);
    var t1, s1 := ClaimedFirst(env, t0, s0);
    var t2, s2 := Happens(env, t1, s1, Respond(resp), OnRespond(env, s1.runs[0], s1.workers[0], resp).value);
    var t3, s3 := Happens(env, t2, s2, StoreRaw, OnStoreRaw(env, s2.runs[0], s2.workers[0]).value);
    var t4, s4 := Happens(env, t3, s3, Load, OnLoad(env, s3.runs[0], s3.workers[0], None).value);
    var t5, s5 := Happens(env, t4, s4, MarkLoaded, OnMarkLoaded(env, s4.runs[0], s4.workers[0]).value);
    var t6, s6 := Happens(env, t5, s5, Raise(OUTAGE), OnRaise(env, s5.runs[0], s5.workers[0], OUTAGE).value);
    trace := t6;
  }

  lemma {:induction false} ClaimedFirst(env: Env, trace: seq<Action>, s: State) returns (trace': seq<Action>, s': State)
    requires Reaches(env, trace, s, 0, 0) && Waits(s, [Try(0)], 0) && s.dest == [] && s.runs[0] == NewRun(0, None)
    ensures Execute(env, trace') == Some(s') && s'.workers.Keys == {0} && 0 in s'.runs && s'.dest == []
    ensures s'.workers[0].msg == Try(0) && s'.workers[0].phase.Executing? && s'.workers[0].phase.pc == Fetching
    ensures s'.workers[0].phase.sequence == 0 && s'.runs[0].row.pagesExtracted == 0
  {
    hide CursorPage, Ended, CreateNext, DoNext, AckNext, CrashNext, RejectNext, Crashes, LateCrashes, IsLate, Execute;
    var s1 := DeliverNext(s, 0).value;
    s' := ClaimNext(env, s1, 0, 1).value;
    Step(env, trace, s, 0, 0, Deliver(0), s1);
    Step(env, trace + [Deliver(0)], s1, 0, 0, Claim(0, 1), s');
    trace' := trace + [Deliver(0)] + [Claim(0, 1)];
  }
}
