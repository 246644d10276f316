/** Any number of concurrent `put` calls, from pipeline workers and migrations alike
    (apps/rawstore/backends/s3.py), interleaved request by request. The conditional write is atomic;
    the fallback checks first and writes later, and anything may happen in between. */
module WriteOnce {
  import opened Prelude
  import opened Keys
  import opened RawStore

  datatype Pc =
    | Writing
    | Checking
    | Overwriting
    | Verifying
    | Returned

  /** One `put` in flight: its key is derived from its data. */
  datatype Call = Call(key: string, obj: Obj, pc: Pc)

  datatype State = State(objects: Objects, calls: map<nat, Call>)

  /** How the backend answers the conditional write: it serves it, it does not know the precondition,
      or it claims the object exists. An error may follow a write that took effect. */
  datatype Answer = Serves | Unsupported(applied: bool) | ClaimsExists(applied: bool)

  datatype Action =
    | Start(id: nat, tenant: string, version: Version, obj: Obj)
    | Conditional(id: nat, answer: Answer)
    | Check(id: nat)
    | PlainWrite(id: nat)
    | Verify(id: nat)
    | Abandon(id: nat, applied: bool)

  function Advanced(s: State, id: nat, objects: Objects, pc: Pc): State
    requires id in s.calls
  {
    State(objects, s.calls[id := s.calls[id].(pc := pc)])
  }

  function IfAbsent(objects: Objects, key: string, obj: Obj): Objects {
    if key in objects then objects else objects[key := obj]
  }

  /** `store_raw_payload` and the migration both put under a key that carries the checksum of the data. */
  predicate Addressed(sha: Sha, v: Version, data: Bytes) {
    PlainVersion(v) && v.checksum == sha(data)
  }

  function Next(sha: Sha, s: State, a: Action): Option<State> {
    match a
    case Start(id, tenant, version, obj) =>
      if id in s.calls || !Plain(tenant) || !Addressed(sha, version, obj.data) then None
      else Some(s.(calls := s.calls[id := Call(PrefixedKey(tenant, version), obj, Writing)]))
    case Conditional(id, answer) =>
      if id !in s.calls || s.calls[id].pc != Writing then None
      else
        var call := s.calls[id];
        var written := IfAbsent(s.objects, call.key, call.obj);
        (match answer
         case Serves => Some(Advanced(s, id, written, if call.key in s.objects then Verifying else Returned))
         case Unsupported(applied) => Some(Advanced(s, id, if applied then written else s.objects, Checking))
         case ClaimsExists(applied) => Some(Advanced(s, id, if applied then written else s.objects, Verifying)))
    case Check(id) =>
      if id !in s.calls || s.calls[id].pc != Checking then None
      else Some(Advanced(s, id, s.objects, if s.calls[id].key in s.objects then Verifying else Overwriting))
    case PlainWrite(id) =>
      if id !in s.calls || s.calls[id].pc != Overwriting then None
      else Some(Advanced(s, id, s.objects[s.calls[id].key := s.calls[id].obj], Returned))
    case Verify(id) =>
      if id !in s.calls || s.calls[id].pc != Verifying || s.calls[id].key !in s.objects then None
      else if |s.objects[s.calls[id].key].data| != |s.calls[id].obj.data| then None
      else Some(Advanced(s, id, s.objects, Returned))
    case Abandon(id, applied) =>
      if id !in s.calls then None
      else
        var call := s.calls[id];
        var objects := if !applied then s.objects
                       else if call.pc == Writing then IfAbsent(s.objects, call.key, call.obj)
                       else if call.pc == Overwriting then s.objects[call.key := call.obj]
                       else s.objects;
        Some(State(objects, s.calls - {id}))
  }

  function Execute(sha: Sha, initial: Objects, trace: seq<Action>): Option<State> {
    if trace == [] then Some(State(initial, map[]))
    else
      match Execute(sha, initial, trace[..|trace| - 1])
      case None => None
      case Some(s) => Next(sha, s, trace[|trace| - 1])
  }

  /** The bytes that callers hand to the store. */
  function Occurring(trace: seq<Action>): set<Bytes> {
    set a | a in trace && a.Start? :: a.obj.data
  }

  ghost predicate NoCollision(sha: Sha, bytes: set<Bytes>) {
    forall a, b | a in bytes && b in bytes && sha(a) == sha(b) :: a == b
  }

  /** Written by a `put` rather than found: bytes that occur, under a key with their checksum. */
  predicate Genuine(sha: Sha, bytes: set<Bytes>, key: string, obj: Obj) {
    obj.data in bytes && ChecksumFromKey(key) == Some(sha(obj.data))
  }

  /** A call about to overwrite saw no object under its key, so none that was there from the start. */
  predicate CallOk(sha: Sha, bytes: set<Bytes>, initial: Objects, objects: Objects, call: Call) {
    && Genuine(sha, bytes, call.key, call.obj)
    && (call.pc == Overwriting ==> call.key !in initial)
    && (call.pc == Returned ==> Sized(objects, call))
  }

  /** There is an object under the call's key, and it has the size of the call's own. */
  predicate Sized(objects: Objects, call: Call) {
    call.key in objects && |objects[call.key].data| == |call.obj.data|
  }

  predicate CallsOk(sha: Sha, bytes: set<Bytes>, initial: Objects, objects: Objects, calls: map<nat, Call>) {
    forall id | id in calls :: CallOk(sha, bytes, initial, objects, calls[id])
  }

  /** Everything found at the start is untouched; everything else was written by a `put`. */
  predicate ObjectsOk(sha: Sha, bytes: set<Bytes>, initial: Objects, objects: Objects) {
    && (forall key | key in initial :: key in objects && objects[key] == initial[key])
    && (forall key | key in objects && key !in initial :: Genuine(sha, bytes, key, objects[key]))
  }

  /** Same keys and bytes, and perhaps more; the content type of an object may differ. */
  predicate SameBytes(before: Objects, after: Objects) {
    forall key | key in before :: key in after && after[key].data == before[key].data
  }

  lemma {:induction false} WriteKeeps(sha: Sha, bytes: set<Bytes>, initial: Objects, objects: Objects,
      calls: map<nat, Call>, key: string, obj: Obj)
    requires NoCollision(sha, bytes) && Genuine(sha, bytes, key, obj) && key !in initial
    requires CallsOk(sha, bytes, initial, objects, calls) && ObjectsOk(sha, bytes, initial, objects)
    ensures CallsOk(sha, bytes, initial, objects[key := obj], calls)
    ensures ObjectsOk(sha, bytes, initial, objects[key := obj])
    ensures SameBytes(objects, objects[key := obj])
  {
    hide ChecksumFromKey;
    forall id | id in calls ensures CallOk(sha, bytes, initial, objects[key := obj], calls[id]) {
      assert CallOk(sha, bytes, initial, objects, calls[id]);
    }
  }

  lemma {:induction false} StartGenuine(sha: Sha, bytes: set<Bytes>, a: Action)
    requires a.Start? && a.obj.data in bytes && Plain(a.tenant) && Addressed(sha, a.version, a.obj.data)
    ensures Genuine(sha, bytes, PrefixedKey(a.tenant, a.version), a.obj)
  {
    ChecksumRoundTrip(a.tenant, a.version);
  }

  ghost predicate Inv(sha: Sha, bytes: set<Bytes>, initial: Objects, s: State) {
    CallsOk(sha, bytes, initial, s.objects, s.calls) && ObjectsOk(sha, bytes, initial, s.objects)
  }

  /** A call goes on to `pc` after at most one write of its own object. */
  lemma {:induction false} AdvanceKeeps(sha: Sha, bytes: set<Bytes>, initial: Objects, s: State, id: nat,
      objects: Objects, pc: Pc)
    requires NoCollision(sha, bytes) && Inv(sha, bytes, initial, s) && id in s.calls
    requires var call := s.calls[id];
      && (objects == s.objects || (call.key !in initial && objects == s.objects[call.key := call.obj]))
      && (pc == Overwriting ==> call.key !in initial) && (pc == Returned ==> Sized(objects, call))
    ensures Inv(sha, bytes, initial, Advanced(s, id, objects, pc)) && SameBytes(s.objects, objects)
    ensures Inv(sha, bytes, initial, State(objects, s.calls - {id}))
  {
    hide Genuine, NoCollision, ObjectsOk;
    var call := s.calls[id];
    assert CallOk(sha, bytes, initial, s.objects, call);
    if objects != s.objects {
      WriteKeeps(sha, bytes, initial, s.objects, s.calls, call.key, call.obj);
    }
    forall k | k in s.calls ensures CallOk(sha, bytes, initial, objects, s.calls[k]) {
    }
  }

  lemma {:induction false} StartKeeps(sha: Sha, bytes: set<Bytes>, initial: Objects, s: State, a: Action)
    requires Inv(sha, bytes, initial, s) && a.Start? && a.obj.data in bytes && Next(sha, s, a).Some?
    ensures Inv(sha, bytes, initial, Next(sha, s, a).value) && Next(sha, s, a).value.objects == s.objects
  {
    hide Genuine, ObjectsOk, PrefixedKey, Addressed;
    StartGenuine(sha, bytes, a);
  }

  lemma {:induction false} NextKeeps(sha: Sha, bytes: set<Bytes>, initial: Objects, s: State, a: Action)
    requires NoCollision(sha, bytes) && Inv(sha, bytes, initial, s) && Next(sha, s, a).Some?
    requires a.Start? ==> a.obj.data in bytes
    ensures Inv(sha, bytes, initial, Next(sha, s, a).value)
    ensures SameBytes(s.objects, Next(sha, s, a).value.objects)
  {
    hide NoCollision, Inv, PrefixedKey, Addressed;
    if a.Start? {
      StartKeeps(sha, bytes, initial, s, a);
    } else {
      var call := s.calls[a.id];
      CallFacts(sha, bytes, initial, s, a.id);
      var written := s.objects[call.key := call.obj];
      match a
      case Conditional(_, answer) =>
        var applied := answer.Serves? || answer.applied;
        AdvanceKeeps(sha, bytes, initial, s, a.id, if applied then IfAbsent(s.objects, call.key, call.obj)
            else s.objects,
                     if answer.Serves? && call.key !in s.objects then Returned
                         else if answer.Unsupported? then Checking else Verifying);
      case Check(_) =>
        AdvanceKeeps(sha, bytes, initial, s, a.id, s.objects, if call.key in s.objects then Verifying else Overwriting);
      case PlainWrite(_) =>
        AdvanceKeeps(sha, bytes, initial, s, a.id, written, Returned);
      case Verify(_) =>
        AdvanceKeeps(sha, bytes, initial, s, a.id, s.objects, Returned);
      case Abandon(_, _) =>
        AdvanceKeeps(sha, bytes, initial, s, a.id, Next(sha, s, a).value.objects, Writing);
    }
  }

  lemma {:induction false} CallFacts(sha: Sha, bytes: set<Bytes>, initial: Objects, s: State, id: nat)
    requires Inv(sha, bytes, initial, s) && id in s.calls
    ensures CallOk(sha, bytes, initial, s.objects, s.calls[id])
    ensures s.calls[id].key !in s.objects ==> s.calls[id].key !in initial
  {
    hide Genuine;
  }

  lemma {:induction false} Reachable(sha: Sha, bytes: set<Bytes>, initial: Objects, trace: seq<Action>)
    requires Execute(sha, initial, trace).Some?
    requires NoCollision(sha, bytes) && Occurring(trace) <= bytes
    ensures Inv(sha, bytes, initial, Execute(sha, initial, trace).value)
  {
    hide NoCollision, Next, Genuine;
    if trace != [] {
      var last := trace[|trace| - 1];
      OccurringPrefix(trace);
      Reachable(sha, bytes, initial, trace[..|trace| - 1]);
      NextKeeps(sha, bytes, initial, Execute(sha, initial, trace[..|trace| - 1]).value, last);
    }
  }

  lemma {:induction false} OccurringPrefix(trace: seq<Action>)
    requires trace != []
    ensures Occurring(trace[..|trace| - 1]) <= Occurring(trace)
    ensures var a := trace[|trace| - 1]; a.Start? ==> a.obj.data in Occurring(trace)
  {
    var last := trace[|trace| - 1];
    assert last in trace;
  }

  // ---- results --------------------------------------------------------------------------------

  /** Write once: however the calls interleave, an object that exists at some moment exists with the
      same bytes at every later one, given that the bytes that occur do not collide; and an object
      older than all the calls is not touched at all. */
  lemma {:induction false} NothingChangesOrDisappears(sha: Sha, initial: Objects, trace: seq<Action>, n: nat)
    requires n <= |trace| && Execute(sha, initial, trace).Some?
    requires NoCollision(sha, Occurring(trace))
    ensures Execute(sha, initial, trace[..n]).Some?
    ensures SameBytes(Execute(sha, initial, trace[..n]).value.objects, Execute(sha, initial, trace).value.objects)
    ensures Preserves(initial, Execute(sha, initial, trace).value.objects)
  {
    hide NoCollision, Next;
    SameBytesUpTo(sha, Occurring(trace), initial, trace, n);
    Reachable(sha, Occurring(trace), initial, trace);
  }

  lemma {:induction false} SameBytesUpTo(sha: Sha, bytes: set<Bytes>, initial: Objects, trace: seq<Action>, n: nat)
    requires n <= |trace| && Execute(sha, initial, trace).Some?
    requires NoCollision(sha, bytes) && Occurring(trace) <= bytes
    ensures Execute(sha, initial, trace[..n]).Some?
    ensures SameBytes(Execute(sha, initial, trace[..n]).value.objects, Execute(sha, initial, trace).value.objects)
  {
    hide NoCollision, Next, Genuine;
    if n == |trace| {
      assert trace[..n] == trace;
    } else {
      var front := trace[..|trace| - 1];
      OccurringPrefix(trace);
      SameBytesUpTo(sha, bytes, initial, front, n);
      Reachable(sha, bytes, initial, front);
      NextKeeps(sha, bytes, initial, Execute(sha, initial, front).value, trace[|trace| - 1]);
      assert front[..n] == trace[..n];
    }
  }

  /** A `put` that has returned left its bytes in the store, unless its key was already taken before
      all the calls; then that older object, of the same size, is what it reused. */
  lemma {:induction false} ReturnedIsStored(sha: Sha, initial: Objects, trace: seq<Action>, id: nat)
    requires Execute(sha, initial, trace).Some? && NoCollision(sha, Occurring(trace))
    requires var s := Execute(sha, initial, trace).value; id in s.calls && s.calls[id].pc == Returned
    ensures
      var s := Execute(sha, initial, trace).value;
      var call := s.calls[id];
      && call.key in s.objects
      && (if call.key in initial then s.objects[call.key] == initial[call.key]
          else s.objects[call.key].data == call.obj.data)
      && |s.objects[call.key].data| == |call.obj.data|
  {
    hide Execute, ChecksumFromKey;
    Reachable(sha, Occurring(trace), initial, trace);
    var s := Execute(sha, initial, trace).value;
    assert CallOk(sha, Occurring(trace), initial, s.objects, s.calls[id]);
  }

  /** Only a plain write over an object that appeared after the check replaces anything. */
  lemma {:induction false} ReplacedOnlyByPlainWrite(sha: Sha, s: State, a: Action, key: string)
    requires Next(sha, s, a).Some? && key in s.objects
    ensures
      var s' := Next(sha, s, a).value;
      key in s'.objects
      && (s'.objects[key] != s.objects[key]
          <==> (a.PlainWrite? || (a.Abandon? && a.applied)) && s.calls[a.id].pc == Overwriting
               && s.calls[a.id].key == key && s.calls[a.id].obj != s.objects[key])
  {
    hide PrefixedKey, Addressed;
  }

  lemma {:induction false} PairUpdate(x: Call, y: Call, z: Call)
    ensures map[0 := x, 1 := y][0 := z] == map[0 := z, 1 := y]
    ensures map[0 := x, 1 := y][1 := z] == map[0 := x, 1 := z]
  {
  }

  function Race(tenant: string, v: Version, a: Obj, b: Obj): seq<Action> {
    [Start(0, tenant, v, a), Start(1, tenant, v, b), Conditional(0, Unsupported(false)),
        Conditional(1, Unsupported(false)),
     Check(0), Check(1), PlainWrite(0), PlainWrite(1)]
  }

  /** The two calls of the race, both standing at `pc`. */
  function Both(key: string, a: Obj, b: Obj, pc: Pc): State {
    State(map[], map[0 := Call(key, a, pc), 1 := Call(key, b, pc)])
  }

  lemma {:induction false} RaceToChecking(sha: Sha, tenant: string, v: Version, a: Obj, b: Obj)
    requires Plain(tenant) && Addressed(sha, v, a.data) && Addressed(sha, v, b.data)
    ensures Execute(sha, map[], Race(tenant, v, a, b)[..4]) == Some(Both(PrefixedKey(tenant, v), a, b, Checking))
  {
    hide PrefixedKey, Addressed, Execute;
    var t := Race(tenant, v, a, b);
    var key := PrefixedKey(tenant, v);
    assert Execute(sha, map[], t[..0]) == Some(State(map[], map[])) by { assert t[..0] == []; ExecuteNone(sha, map[]); }
    ExecuteStep(sha, map[], t, 0);
    ExecuteStep(sha, map[], t, 1);
    assert Execute(sha, map[], t[..2]) == Some(Both(key, a, b, Writing));
    ExecuteStep(sha, map[], t, 2);
    PairUpdate(Call(key, a, Writing), Call(key, b, Writing), Call(key, a, Checking));
    ExecuteStep(sha, map[], t, 3);
    PairUpdate(Call(key, a, Checking), Call(key, b, Writing), Call(key, b, Checking));
  }

  /** Without the precondition two calls with one key may both find it free and both write: the second
      replaces the first. So the content type of an object can change, and with a collision its bytes. */
  lemma {:induction false} FallbackRace(sha: Sha, tenant: string, v: Version, a: Obj, b: Obj)
    requires Plain(tenant) && Addressed(sha, v, a.data) && Addressed(sha, v, b.data)
    ensures
      var key := PrefixedKey(tenant, v);
      var trace := Race(tenant, v, a, b);
      && Execute(sha, map[], trace[..7]).Some? && Execute(sha, map[], trace[..7]).value.objects == map[key := a]
      && Execute(sha, map[], trace).Some? && Execute(sha, map[], trace).value.objects == map[key := b]
  {
    hide PrefixedKey, Addressed, Execute;
    var t := Race(tenant, v, a, b);
    var key := PrefixedKey(tenant, v);
    RaceToChecking(sha, tenant, v, a, b);
    ExecuteStep(sha, map[], t, 4);
    PairUpdate(Call(key, a, Checking), Call(key, b, Checking), Call(key, a, Overwriting));
    ExecuteStep(sha, map[], t, 5);
    PairUpdate(Call(key, a, Overwriting), Call(key, b, Checking), Call(key, b, Overwriting));
    ExecuteStep(sha, map[], t, 6);
    ExecuteStep(sha, map[], t, 7);
    assert t[..8] == t;
  }

  lemma {:induction false} ExecuteNone(sha: Sha, initial: Objects)
    ensures Execute(sha, initial, []) == Some(State(initial, map[]))
  {
  }

  lemma {:induction false} ExecuteStep(sha: Sha, initial: Objects, trace: seq<Action>, k: nat)
    requires k < |trace|
    ensures Execute(sha, initial, trace[..k + 1])
         == match Execute(sha, initial, trace[..k]) case None => None case Some(s) => Next(sha, s, trace[k])
  {
    hide Next;
    assert trace[..k + 1][..k] == trace[..k];
  }
}
