/** Pipelines that store payloads while migration passes are at work: records that exist are stored
    again, and new ones appear (apps/rawstore/service.py beside apps/rawstore/migration.py). The passes
    do what they would have done without: the executions of Convergence account for them. */
module Storing {
  import opened Prelude
  import opened Keys
  import opened RawStore
  import opened Migration
  import Convergence
  import WriteOnce

  /** The passes and their data, the keys a plain write may still go to because they were found free, and
      the records created meanwhile, whose URI is that of their key. */
  datatype State = State(data: Convergence.State, probed: set<string>, created: set<Version>)

  /** `Store` is a conditional write; `ProbeKey` and `StorePlain` are the fallback without it. `CreateRow`
      is `get_or_create`, which leaves the row of a record that exists alone. */
  datatype Action =
    | Pass(step: Convergence.Action)
    | Store(version: Version, obj: Obj)
    | ProbeKey(version: Version)
    | StorePlain(version: Version, obj: Obj)
    | CreateRow(version: Version)

  function TenantKey(site: Site, v: Version): string {
    PrefixedKey(site.tenant, v)
  }

  predicate Fits(site: Site, v: Version, obj: Obj) {
    PlainVersion(v) && v.checksum == site.sha(obj.data)
  }

  function WithObject(s: State, key: string, obj: Obj): State {
    s.(data := s.data.(db := s.data.db.(objects := s.data.db.objects[key := obj])))
  }

  function Next(site: Site, s: State, a: Action): Option<State> {
    match a
    case Pass(step) =>
      (match Convergence.Next(site, s.data, step)
       case None => None
       case Some(data) => Some(s.(data := data)))
    case Store(v, obj) =>
      if !Fits(site, v, obj) then None
      else if TenantKey(site, v) in s.data.db.objects then Some(s)
      else Some(WithObject(s, TenantKey(site, v), obj))
    case ProbeKey(v) =>
      if !PlainVersion(v) || TenantKey(site, v) in s.data.db.objects then None
      else Some(s.(probed := s.probed + {TenantKey(site, v)}))
    case StorePlain(v, obj) =>
      if !Fits(site, v, obj) || TenantKey(site, v) !in s.probed then None
      else Some(WithObject(s, TenantKey(site, v), obj))
    case CreateRow(v) =>
      if !PlainVersion(v) || |v.checksum| != CHECKSUM_LENGTH || TenantKey(site, v) !in s.data.db.objects then None
      else Some(s.(created := s.created + if v in site.versions then {} else {v}))
  }

  function Execute(site: Site, s0: Db, trace: seq<Action>): Option<State> {
    if trace == [] then Some(State(Convergence.State(s0, map[]), {}, {}))
    else
      match Execute(site, s0, trace[..|trace| - 1])
      case None => None
      case Some(s) => Next(site, s, trace[|trace| - 1])
  }

  /** All bytes that occur: those that were there, and those stored. */
  predicate Occur(bytes: set<Bytes>, s0: Db, trace: seq<Action>) {
    && (forall key | key in s0.objects :: s0.objects[key].data in bytes)
    && (forall a | a in trace && (a.Store? || a.StorePlain?) :: a.obj.data in bytes)
  }

  // ---- the passes without the pipelines ---------------------------------------------------------

  /** An object a pipeline put there: its bytes have the checksum of its key. */
  ghost predicate IsStored(site: Site, bytes: set<Bytes>, key: string, obj: Obj) {
    obj.data in bytes && exists v :: StoredAs(site, key, obj, v)
  }

  predicate StoredAs(site: Site, key: string, obj: Obj, v: Version) {
    Fits(site, v, obj) && key == TenantKey(site, v)
  }

  /** `a` is `c` without what the pipelines stored: the same passes and URIs, and each of its objects is
      there with the same bytes. */
  ghost predicate Related(site: Site, s0: Db, bytes: set<Bytes>, c: State, a: Convergence.State) {
    && c.data.passes == a.passes && c.data.db.uris == a.db.uris
    && ObjectsRelated(site, s0, bytes, c.data.db.objects, a.db.objects)
    && (forall key | key in c.probed :: key !in s0.objects)
    && CreatedOk(site, c)
  }

  predicate CreatedOk(site: Site, c: State) {
    forall v | v in c.created ::
      PlainVersion(v) && |v.checksum| == CHECKSUM_LENGTH && v !in site.versions
          && TenantKey(site, v) in c.data.db.objects
  }

  ghost predicate ObjectsRelated(site: Site, s0: Db, bytes: set<Bytes>, c: Objects, a: Objects) {
    && Preserves(s0.objects, c)
    && (forall key | key in a :: key in c && c[key].data == a[key].data)
    && (forall key | key in c && key !in a :: IsStored(site, bytes, key, c[key]))
  }

  /** The step of the passes that accounts for an action; none for what a pipeline does. A pass of the
      fallback that finds a key just stored goes on like one whose conditional write is answered. */
  function ShadowStep(site: Site, a: Convergence.State, c: State, act: Action): seq<Convergence.Action> {
    if !act.Pass? then []
    else
      var id := act.step.pass;
      if act.step.Probe? && id in a.passes && a.passes[id].index < |site.versions|
         && Target(site, a.passes[id].index) in c.data.db.objects then [Convergence.PutCreateOnly(id)]
      else [act.step]
  }

  function Shadow(site: Site, s0: Db, trace: seq<Action>): seq<Convergence.Action> {
    if trace == [] then []
    else
      var front := trace[..|trace| - 1];
      var steps := Shadow(site, s0, front);
      match (Convergence.Execute(site, s0, steps), Execute(site, s0, front))
      case (Some(a), Some(c)) => steps + ShadowStep(site, a, c, trace[|trace| - 1])
      case _ => steps
  }

  lemma {:induction false} ShadowPrefix(site: Site, s0: Db, trace: seq<Action>, n: nat)
    requires n <= |trace|
    ensures Shadow(site, s0, trace[..n]) <= Shadow(site, s0, trace)
  {
    hide ShadowStep, Execute;
    if n == |trace| {
      assert trace[..n] == trace;
    } else {
      var front := trace[..|trace| - 1];
      assert front[..n] == trace[..n];
      ShadowPrefix(site, s0, front, n);
      assert Shadow(site, s0, front) <= Shadow(site, s0, trace);
    }
  }

  // ---- objects ----------------------------------------------------------------------------------

  /** No legacy key is a key a pipeline stores under. */
  lemma {:induction false} LegacyKeyIsNotStored(site: Site, bytes: set<Bytes>, i: nat, uri: string, obj: Obj)
    requires WellFormed(site) && i < |site.versions| && HasLegacyKey(Classify(site, site.versions[i], uri))
    ensures !IsStored(site, bytes, Classify(site, site.versions[i], uri).key, obj)
  {
    hide PrefixedKey, LogicalKey, ParseUri;
    var key := Classify(site, site.versions[i], uri).key;
    forall v ensures !StoredAs(site, key, obj, v) {
      if PlainVersion(v) {
        PrefixedIsNotLogical(site.tenant, v, site.versions[i]);
        KeyInjective(site.schema, site.versions[i], site.tenant, v);
      }
    }
  }

  lemma {:induction false} SameLegacyFound(site: Site, s0: Db, bytes: set<Bytes>, c: Objects, a: Objects, i: nat,
      uri: string)
    requires WellFormed(site) && ObjectsRelated(site, s0, bytes, c, a) && i < |site.versions|
    ensures Convergence.LegacyFound(site, c, site.versions[i], uri)
        == Convergence.LegacyFound(site, a, site.versions[i], uri)
  {
    hide Classify, IsStored, WellFormed, Preserves;
    var g := Classify(site, site.versions[i], uri);
    if HasLegacyKey(g) && g.key in c {
      LegacyKeyIsNotStored(site, bytes, i, uri, c[g.key]);
    }
  }

  /** What a pipeline stored under a record's new key has the bytes of the record's legacy object. */
  lemma {:induction false} StoredIsLegacy(site: Site, s0: Db, bytes: set<Bytes>, i: nat, obj: Obj)
    requires WellFormed(site) && i < |site.versions| == |s0.uris| && IsReady(site, s0, i)
    requires WriteOnce.NoCollision(site.sha, bytes) && IsStored(site, bytes, Target(site, i), obj)
    requires forall key | key in s0.objects :: s0.objects[key].data in bytes
    ensures obj.data == LegacyObject(site, s0, i).data
  {
    hide Classify, PrefixedKey;
    var v :| StoredAs(site, Target(site, i), obj, v);
    KeyInjective(site.tenant, v, site.tenant, site.versions[i]);
    assert site.sha(obj.data) == site.sha(LegacyObject(site, s0, i).data);
  }

  /** A pass and a pipeline write the same object on both sides. */
  lemma {:induction false} BothWrite(site: Site, s0: Db, bytes: set<Bytes>, c: Objects, a: Objects, key: string,
      obj: Obj)
    requires ObjectsRelated(site, s0, bytes, c, a) && key !in s0.objects
    ensures ObjectsRelated(site, s0, bytes, c[key := obj], a[key := obj])
  {
    hide IsStored;
  }

  /** The pass would have written what a pipeline has stored. */
  lemma {:induction false} ShadowWrites(site: Site, s0: Db, bytes: set<Bytes>, c: Objects, a: Objects, key: string,
      obj: Obj)
    requires ObjectsRelated(site, s0, bytes, c, a) && key in c && c[key].data == obj.data
    ensures ObjectsRelated(site, s0, bytes, c, a[key := obj])
  {
    hide IsStored, Preserves;
  }

  lemma {:induction false} PipelineWrites(site: Site, s0: Db, bytes: set<Bytes>, c: Objects, a: Objects, key: string,
      obj: Obj)
    requires ObjectsRelated(site, s0, bytes, c, a) && key !in s0.objects && IsStored(site, bytes, key, obj)
    requires key in a ==> a[key].data == obj.data
    ensures ObjectsRelated(site, s0, bytes, c[key := obj], a)
  {
    hide IsStored;
  }

  // ---- one action -------------------------------------------------------------------------------

  /** The data of `c` with the passes' own step made on `a`. */
  predicate Follows(site: Site, a: Convergence.State, steps: seq<Convergence.Action>, a': Convergence.State) {
    if steps == [] then a' == a
    else |steps| == 1 && Convergence.Next(site, a, steps[0]) == Some(a')
  }

  lemma {:induction false} ReadSteps(site: Site, s0: Db, bytes: set<Bytes>, c: State, a: Convergence.State,
      step: Convergence.Action, c': State) returns (a': Convergence.State)
    requires WellFormed(site) && Convergence.Inv(site, s0, a) && Related(site, s0, bytes, c, a)
    requires step.Begin? || step.Inspect? || step.Download? || step.SaveUri? || step.Stop?
    requires Next(site, c, Pass(step)) == Some(c')
    ensures Convergence.Next(site, a, step) == Some(a') && Related(site, s0, bytes, c', a')
  {
    hide Classify, Target, TargetUri, CopyOf, WellFormed, ObjectsRelated, Convergence.LegacyFound, Convergence.Inv,
        PlainVersion, TenantKey;
    var id := step.pass;
    if !step.Begin? {
      var p := a.passes[id];
      if step.Inspect? {
        SameLegacyFound(site, s0, bytes, c.data.db.objects, a.db.objects, p.index, p.snapshot[p.index]);
      } else if step.Download? {
        SameDownload(site, s0, bytes, c, a, id);
      }
    }
    a' := Convergence.Next(site, a, step).value;
  }

  lemma {:induction false} SameDownload(site: Site, s0: Db, bytes: set<Bytes>, c: State, a: Convergence.State, id: nat)
    requires WellFormed(site) && Convergence.Inv(site, s0, a) && Related(site, s0, bytes, c, a)
    requires id in a.passes && a.passes[id].pc.Found?
    ensures var key := a.passes[id].pc.key;
      key in a.db.objects && key in c.data.db.objects && a.db.objects[key] == c.data.db.objects[key]
  {
    hide Classify, Copied, UriMoved, IsStored, WellFormed, Convergence.Behind, Convergence.SnapshotOk;
    Convergence.PassOkOf(site, s0, a, id);
  }

  lemma {:induction false} WriteSteps(site: Site, s0: Db, bytes: set<Bytes>, c: State, a: Convergence.State,
      step: Convergence.Action, c': State) returns (a': Convergence.State)
    requires WellFormed(site) && Convergence.Inv(site, s0, a) && Related(site, s0, bytes, c, a)
    requires WriteOnce.NoCollision(site.sha, bytes) && forall key | key in s0.objects :: s0.objects[key].data in bytes
    requires step.PutCreateOnly? || step.Probe? || step.PutPlain?
    requires Next(site, c, Pass(step)) == Some(c')
    ensures Follows(site, a, ShadowStep(site, a, c, Pass(step)), a') && Related(site, s0, bytes, c', a')
  {
    hide IsReady, LegacyObject, Target, CopyOf, WellFormed, ObjectsRelated, WriteOnce.NoCollision, Convergence.Inv,
        Convergence.SnapshotOk, Convergence.Behind, PlainVersion;
    var id := step.pass;
    var p := a.passes[id];
    var key := Target(site, p.index);
    var oc, oa := c.data.db.objects, a.db.objects;
    Convergence.PassOkOf(site, s0, a, id);
    TargetFacts(site, s0, bytes, c, a, id);
    if step.PutPlain? {
      BothWrite(site, s0, bytes, oc, oa, key, p.pc.obj);
      a' := Convergence.PutPlainNext(site, a, id).value;
    } else if key in oc && key !in oa {
      ShadowWrites(site, s0, bytes, oc, oa, key, p.pc.obj);
      a' := Convergence.PutNext(site, a, id).value;
    } else if key in oc {
      a' := Convergence.PutNext(site, a, id).value;
    } else if step.PutCreateOnly? {
      BothWrite(site, s0, bytes, oc, oa, key, p.pc.obj);
      a' := Convergence.PutNext(site, a, id).value;
    } else {
      a' := Convergence.ProbeNext(site, a, id).value;
    }
    CreatedKept(site, c, c');
  }

  /** Whatever is under the new key of a record being copied: it is there on both sides with the same
      bytes, or a pipeline has stored the bytes of the legacy object. */
  lemma {:induction false} TargetFacts(site: Site, s0: Db, bytes: set<Bytes>, c: State, a: Convergence.State, id: nat)
    requires WellFormed(site) && Convergence.Inv(site, s0, a) && Related(site, s0, bytes, c, a)
    requires WriteOnce.NoCollision(site.sha, bytes) && forall key | key in s0.objects :: s0.objects[key].data in bytes
    requires id in a.passes && (a.passes[id].pc.Verified? || a.passes[id].pc.FoundFree?)
    ensures a.passes[id].index < |site.versions|
    ensures var key := Target(site, a.passes[id].index);
      && (key in a.db.objects ==> key in c.data.db.objects && a.db.objects[key].data == c.data.db.objects[key].data)
      && (key !in c.data.db.objects ==> key !in s0.objects)
      && (key in c.data.db.objects && key !in a.db.objects ==>
            c.data.db.objects[key].data == a.passes[id].pc.obj.data)
  {
    hide IsReady, LegacyObject, Target, WellFormed, WriteOnce.NoCollision, IsStored, Copied, UriMoved,
        Convergence.SnapshotOk, Convergence.Behind;
    var i := a.passes[id].index;
    Convergence.PassOkOf(site, s0, a, id);
    var key := Target(site, i);
    if key in c.data.db.objects && key !in a.db.objects {
      StoredIsLegacy(site, s0, bytes, i, c.data.db.objects[key]);
    }
  }

  lemma {:induction false} CreatedKept(site: Site, c: State, c': State)
    requires c'.created == c.created && (forall key | key in c.data.db.objects :: key in c'.data.db.objects)
    requires CreatedOk(site, c)
    ensures CreatedOk(site, c')
  {
  }

  /** What a pipeline does leaves the passes, and all that is known of them, as they are. */
  lemma {:induction false} PipelineSteps(site: Site, s0: Db, bytes: set<Bytes>, c: State, a: Convergence.State,
      act: Action, c': State)
    requires WellFormed(site) && Convergence.Inv(site, s0, a) && Related(site, s0, bytes, c, a)
    requires WriteOnce.NoCollision(site.sha, bytes) && forall key | key in s0.objects :: s0.objects[key].data in bytes
    requires !act.Pass? && Next(site, c, act) == Some(c') && (act.Store? || act.StorePlain? ==> act.obj.data in bytes)
    ensures Related(site, s0, bytes, c', a)
  {
    hide ObjectsRelated, WriteOnce.NoCollision, Convergence.Inv, PrefixedKey, WellFormed, Fits, PlainVersion;
    var key := TenantKey(site, act.version);
    StartPreserved(site, s0, bytes, c, a);
    if act.Store? || act.StorePlain? {
      assert StoredAs(site, key, act.obj, act.version);
      if act.StorePlain? || key !in c.data.db.objects {
        if key in a.db.objects {
          CopiedIsStored(site, s0, bytes, a, act.version, act.obj);
        }
        PipelineWrites(site, s0, bytes, c.data.db.objects, a.db.objects, key, act.obj);
      }
      CreatedKept(site, c, c');
    }
  }

  lemma {:induction false} StartPreserved(site: Site, s0: Db, bytes: set<Bytes>, c: State, a: Convergence.State)
    requires Related(site, s0, bytes, c, a)
    ensures forall key | key in s0.objects :: key in c.data.db.objects
  {
  }

  /** What a pass has copied to the key, a pipeline stores there too. */
  lemma {:induction false} CopiedIsStored(site: Site, s0: Db, bytes: set<Bytes>, a: Convergence.State, v: Version,
      obj: Obj)
    requires WellFormed(site) && Convergence.Inv(site, s0, a) && Fits(site, v, obj) && obj.data in bytes
    requires WriteOnce.NoCollision(site.sha, bytes) && forall key | key in s0.objects :: s0.objects[key].data in bytes
    requires TenantKey(site, v) in a.db.objects && TenantKey(site, v) !in s0.objects
    ensures a.db.objects[TenantKey(site, v)].data == obj.data
  {
    hide IsReady, LegacyObject, Target, WellFormed, WriteOnce.NoCollision, UriMoved, Convergence.PassesOk,
        Convergence.MovedUnblocked, TenantKey, Fits;
    var key := TenantKey(site, v);
    var i :| CopiedFor(site, s0, |site.versions|, key, a.db.objects[key], i);
    assert StoredAs(site, key, obj, v);
    StoredIsLegacy(site, s0, bytes, i, obj);
  }

  lemma {:induction false} StepFollows(site: Site, s0: Db, bytes: set<Bytes>, c: State, a: Convergence.State,
      act: Action, c': State) returns (a': Convergence.State)
    requires WellFormed(site) && Convergence.Inv(site, s0, a) && Related(site, s0, bytes, c, a)
    requires WriteOnce.NoCollision(site.sha, bytes) && forall key | key in s0.objects :: s0.objects[key].data in bytes
    requires Next(site, c, act) == Some(c') && (act.Store? || act.StorePlain? ==> act.obj.data in bytes)
    ensures Follows(site, a, ShadowStep(site, a, c, act), a') && Related(site, s0, bytes, c', a')
  {
    hide Next, Related, Convergence.Next, Convergence.Inv, WellFormed, WriteOnce.NoCollision;
    if !act.Pass? {
      PipelineSteps(site, s0, bytes, c, a, act, c');
      a' := a;
    } else if act.step.PutCreateOnly? || act.step.Probe? || act.step.PutPlain? {
      a' := WriteSteps(site, s0, bytes, c, a, act.step, c');
    } else {
      a' := ReadSteps(site, s0, bytes, c, a, act.step, c');
    }
  }

  // ---- results ----------------------------------------------------------------------------------

  lemma {:induction false} RelatedAtStart(site: Site, s0: Db, bytes: set<Bytes>)
    ensures Related(site, s0, bytes, State(Convergence.State(s0, map[]), {}, {}), Convergence.State(s0, map[]))
  {
  }

  /** Whatever pipelines store meanwhile, the passes do what they do in some execution without them: in
      every reachable state the same passes stand at the same places, the URIs are the same, no object
      that was there has changed, and every object is there with the same bytes. */
  lemma {:induction false} PassesUnaffected(site: Site, s0: Db, bytes: set<Bytes>, trace: seq<Action>)
    requires WellFormed(site) && |s0.uris| == |site.versions| && Execute(site, s0, trace).Some?
    requires WriteOnce.NoCollision(site.sha, bytes) && Occur(bytes, s0, trace)
    ensures Convergence.Execute(site, s0, Shadow(site, s0, trace)).Some?
    ensures Related(site, s0, bytes, Execute(site, s0, trace).value,
                    Convergence.Execute(site, s0, Shadow(site, s0, trace)).value)
  {
    hide Next, Related, WellFormed, WriteOnce.NoCollision, ShadowStep, Convergence.Next, Convergence.Inv;
    if trace == [] {
      RelatedAtStart(site, s0, bytes);
    } else {
      var front, act := trace[..|trace| - 1], trace[|trace| - 1];
      assert act in trace && forall b | b in front :: b in trace;
      PassesUnaffected(site, s0, bytes, front);
      var steps := Shadow(site, s0, front);
      var c, a := Execute(site, s0, front).value, Convergence.Execute(site, s0, steps).value;
      Convergence.Reachable(site, s0, steps);
      var a' := StepFollows(site, s0, bytes, c, a, act, Execute(site, s0, trace).value);
      Extended(site, s0, steps, ShadowStep(site, a, c, act), a, a');
    }
  }

  lemma {:induction false} Extended(site: Site, s0: Db, steps: seq<Convergence.Action>, more: seq<Convergence.Action>,
      a: Convergence.State, a': Convergence.State)
    requires Convergence.Execute(site, s0, steps) == Some(a) && Follows(site, a, more, a')
    ensures Convergence.Execute(site, s0, steps + more) == Some(a')
  {
    hide Convergence.Next;
    if more == [] {
      assert steps + more == steps;
    } else {
      assert (steps + more)[..|steps|] == steps;
    }
  }

  /** Once one pass has been through all records, they are migrated and stay so, also with pipelines
      storing all the time: every record that was ready has its new URI, no record was blocked, and the
      new URI reads back the legacy bytes unless other bytes had been under the new key from the start. */
  lemma {:induction false} MigratedAmidStores(site: Site, s0: Db, bytes: set<Bytes>, trace: seq<Action>, n: nat,
      id: nat, i: nat)
    requires WellFormed(site) && |s0.uris| == |site.versions| && n <= |trace|
    requires Execute(site, s0, trace).Some? && Execute(site, s0, trace[..n]).Some?
    requires WriteOnce.NoCollision(site.sha, bytes) && Occur(bytes, s0, trace)
    requires var s := Execute(site, s0, trace[..n]).value.data; id in s.passes && s.passes[id].index == |site.versions|
    requires i < |site.versions| && IsReady(site, s0, i)
    ensures NoneBlocked(site, s0, |site.versions|)
    ensures var db := Execute(site, s0, trace).value.data.db;
      var legacy := LegacyObject(site, s0, i).data;
      && |db.uris| == |site.versions| && db.uris[i] == TargetUri(site, i)
      && (ReadBack(site.sha, db.objects, site.bucket, site.tenant, db.uris[i]) == Ok(legacy)
          <==> Target(site, i) in s0.objects ==> s0.objects[Target(site, i)].data == legacy)
  {
    hide Execute, Shadow, WellFormed, IsReady, Target, TargetUri, LegacyObject, ReadBack, WriteOnce.NoCollision,
        Convergence.Execute, Copied, UriMoved, NoneBlocked, Judge;
    var steps, early := Shadow(site, s0, trace), Shadow(site, s0, trace[..n]);
    ShadowPrefix(site, s0, trace, n);
    assert steps[..|early|] == early;
    assert Occur(bytes, s0, trace[..n]);
    PassesUnaffected(site, s0, bytes, trace);
    PassesUnaffected(site, s0, bytes, trace[..n]);
    Convergence.OneCompletePassIsEnough(site, s0, steps, |early|, id);
    var a := Convergence.Execute(site, s0, steps).value;
    MeaningPreserved(site, s0, a.db, |site.versions|, i);
    MovedHasObject(site, s0, a.db, |site.versions|, i);
    SameRead(site, a.db.objects, Execute(site, s0, trace).value.data.db.objects, i);
  }

  lemma {:induction false} SameRead(site: Site, a: Objects, c: Objects, i: nat)
    requires i < |site.versions| && WellFormed(site) && |site.versions[i].checksum| == CHECKSUM_LENGTH
    requires Target(site, i) in a && Target(site, i) in c && a[Target(site, i)].data == c[Target(site, i)].data
    ensures ReadBack(site.sha, c, site.bucket, site.tenant, TargetUri(site, i))
         == ReadBack(site.sha, a, site.bucket, site.tenant, TargetUri(site, i))
  {
    hide ReadBack, WellFormed, Target, TargetUri;
    ReadMoved(site, a, i);
    ReadMoved(site, c, i);
  }

  /** A record created meanwhile has a URI that no pass would touch, and reads back bytes with its
      checksum, unless other bytes had been under its key from the start. */
  lemma {:induction false} CreatedRowsReadable(site: Site, s0: Db, bytes: set<Bytes>, trace: seq<Action>, v: Version)
    requires WellFormed(site) && |s0.uris| == |site.versions| && Execute(site, s0, trace).Some?
    requires WriteOnce.NoCollision(site.sha, bytes) && Occur(bytes, s0, trace)
    requires v in Execute(site, s0, trace).value.created
    ensures var key := TenantKey(site, v);
      var read := ReadBack(site.sha, Execute(site, s0, trace).value.data.db.objects, site.bucket, site.tenant,
          Uri(site.bucket, key));
      && Classify(site, v, Uri(site.bucket, key)) == Current
      && (read.Ok? <==> key in s0.objects ==> site.sha(s0.objects[key].data) == v.checksum)
      && (read.Ok? ==> site.sha(read.value) == v.checksum)
  {
    hide Execute, Shadow, WriteOnce.NoCollision, Convergence.Execute, ReadBack, PrefixedKey, Classify, IsStored, Uri,
        PlainVersion;
    var c := Execute(site, s0, trace).value;
    PassesUnaffected(site, s0, bytes, trace);
    ReadBackExactly(site.sha, c.data.db.objects, site.bucket, site.tenant, site.tenant, v);
    GenerationsDoNotOverlap(site, v);
    if TenantKey(site, v) !in s0.objects {
      NewObjectFits(site, s0, bytes, trace, v);
    }
  }

  lemma {:induction false} NewIsNotCopied(site: Site, s0: Db, v: Version, obj: Obj)
    requires WellFormed(site) && |s0.uris| == |site.versions| && PlainVersion(v) && v !in site.versions
    ensures !Copied(site, s0, |site.versions|, TenantKey(site, v), obj)
  {
    hide PrefixedKey, IsReady, LegacyObject, CopyOf;
    forall i ensures !CopiedFor(site, s0, |site.versions|, TenantKey(site, v), obj, i) {
      if 0 <= i < |site.versions| {
        KeyInjective(site.tenant, v, site.tenant, site.versions[i]);
      }
    }
  }

  lemma {:induction false} NewObjectFits(site: Site, s0: Db, bytes: set<Bytes>, trace: seq<Action>, v: Version)
    requires WellFormed(site) && |s0.uris| == |site.versions| && Execute(site, s0, trace).Some?
    requires WriteOnce.NoCollision(site.sha, bytes) && Occur(bytes, s0, trace)
    requires v in Execute(site, s0, trace).value.created && TenantKey(site, v) !in s0.objects
    ensures TenantKey(site, v) in Execute(site, s0, trace).value.data.db.objects
    ensures site.sha(Execute(site, s0, trace).value.data.db.objects[TenantKey(site, v)].data) == v.checksum
  {
    hide Execute, Shadow, WriteOnce.NoCollision, Convergence.Execute, PrefixedKey, IsReady, LegacyObject, UriMoved,
        PlainVersion;
    var c := Execute(site, s0, trace).value;
    var steps := Shadow(site, s0, trace);
    PassesUnaffected(site, s0, bytes, trace);
    Convergence.Reachable(site, s0, steps);
    var a := Convergence.Execute(site, s0, steps).value;
    Convergence.BetweenOf(site, s0, a);
    var key := TenantKey(site, v);
    NewIsNotCopied(site, s0, v, if key in a.db.objects then a.db.objects[key] else c.data.db.objects[key]);
    var u :| StoredAs(site, key, c.data.db.objects[key], u);
    KeyInjective(site.tenant, v, site.tenant, u);
  }
}
