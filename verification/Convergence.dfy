/** Any number of real migration passes over the same records, interleaved request by request: passes
    that overlap because a stalled job was superseded, and passes whose worker dies, is cancelled or
    fails at any point, also between copying an object and saving the record's new URI
    (apps/rawstore/migration.py, apps/opsui/services.py). */
module Convergence {
  import opened Prelude
  import opened Keys
  import opened RawStore
  import opened Migration

  /** Where a pass stands within one record: about to inspect it; its object found under a legacy key;
      the object downloaded, verified and about to be put; in the fallback, the new key found free; the
      object stored and the URI not yet saved. */
  datatype Pc =
    | AtRecord
    | Found(key: string)
    | Verified(obj: Obj)
    | FoundFree(obj: Obj)
    | Stored

  /** `snapshot` holds the URIs as they were when the pass started its query. */
  datatype Pass = Pass(snapshot: seq<string>, index: nat, pc: Pc)

  datatype State = State(db: Db, passes: map<nat, Pass>)

  datatype Action =
    | Begin(pass: nat)
    | Inspect(pass: nat)
    | Download(pass: nat)
    | PutCreateOnly(pass: nat)
    | Probe(pass: nat)
    | PutPlain(pass: nat)
    | SaveUri(pass: nat)
    | Stop(pass: nat)

  function With(s: State, id: nat, p: Pass): State {
    s.(passes := s.passes[id := p])
  }

  function Without(s: State, id: nat): State {
    s.(passes := s.passes - {id})
  }

  /** An object is already under the new key: it is reused if it has the same size, and otherwise the
      pass fails with an integrity error. */
  function Reuse(site: Site, s: State, id: nat, obj: Obj): State
    requires id in s.passes && s.passes[id].index < |site.versions| && Target(site, s.passes[id].index) in s.db.objects
  {
    var p := s.passes[id];
    if |s.db.objects[Target(site, p.index)].data| == |obj.data| then With(s, id, p.(pc := Stored)) else Without(s, id)
  }

  /** Whether the record was read with a legacy key and an object is there. */
  predicate LegacyFound(site: Site, objects: Objects, v: Version, uri: string) {
    var g := Classify(site, v, uri);
    HasLegacyKey(g) && g.key in objects
  }

  function InspectNext(site: Site, s: State, id: nat): Option<State>
    requires id in s.passes
  {
    var p := s.passes[id];
    if p.index >= |site.versions| || p.index >= |p.snapshot| || !p.pc.AtRecord? then None
    else if LegacyFound(site, s.db.objects, site.versions[p.index], p.snapshot[p.index]) then
      Some(With(s, id, p.(pc := Found(Classify(site, site.versions[p.index], p.snapshot[p.index]).key))))
    else Some(With(s, id, p.(index := p.index + 1)))
  }

  function DownloadNext(site: Site, s: State, id: nat): Option<State>
    requires id in s.passes
  {
    var p := s.passes[id];
    if p.index >= |site.versions| || !p.pc.Found? || p.pc.key !in s.db.objects then None
    else if site.sha(s.db.objects[p.pc.key].data) != site.versions[p.index].checksum then
      Some(With(s, id, p.(pc := AtRecord, index := p.index + 1)))
    else Some(With(s, id, p.(pc := Verified(CopyOf(s.db.objects[p.pc.key])))))
  }

  function PutNext(site: Site, s: State, id: nat): Option<State>
    requires id in s.passes
  {
    var p := s.passes[id];
    if p.index >= |site.versions| || !p.pc.Verified? then None
    else
      var target := Target(site, p.index);
      if target in s.db.objects then Some(Reuse(site, s, id, p.pc.obj))
      else Some(With(s.(db := s.db.(objects := s.db.objects[target := p.pc.obj])), id, p.(pc := Stored)))
  }

  function ProbeNext(site: Site, s: State, id: nat): Option<State>
    requires id in s.passes
  {
    var p := s.passes[id];
    if p.index >= |site.versions| || !p.pc.Verified? then None
    else if Target(site, p.index) in s.db.objects then Some(Reuse(site, s, id, p.pc.obj))
    else Some(With(s, id, p.(pc := FoundFree(p.pc.obj))))
  }

  function PutPlainNext(site: Site, s: State, id: nat): Option<State>
    requires id in s.passes
  {
    var p := s.passes[id];
    if p.index >= |site.versions| || !p.pc.FoundFree? then None
    else Some(With(s.(db := s.db.(objects := s.db.objects[Target(site, p.index) := p.pc.obj])), id, p.(pc := Stored)))
  }

  function SaveNext(site: Site, s: State, id: nat): Option<State>
    requires id in s.passes
  {
    var p := s.passes[id];
    if p.index >= |site.versions| || p.index >= |s.db.uris| || !p.pc.Stored? then None
    else
      Some(With(s.(db := s.db.(uris := s.db.uris[p.index := TargetUri(site, p.index)])), id,
          p.(pc := AtRecord, index := p.index + 1)))
  }

  function Next(site: Site, s: State, a: Action): Option<State> {
    if a.Begin? then
      if a.pass in s.passes then None else Some(With(s, a.pass, Pass(s.db.uris, 0, AtRecord)))
    else if a.pass !in s.passes then None
    else
      match a
      case Inspect(id) => InspectNext(site, s, id)
      case Download(id) => DownloadNext(site, s, id)
      case PutCreateOnly(id) => PutNext(site, s, id)
      case Probe(id) => ProbeNext(site, s, id)
      case PutPlain(id) => PutPlainNext(site, s, id)
      case SaveUri(id) => SaveNext(site, s, id)
      case Stop(id) => Some(Without(s, id))
  }

  function Execute(site: Site, s0: Db, trace: seq<Action>): Option<State> {
    if trace == [] then Some(State(s0, map[]))
    else
      match Execute(site, s0, trace[..|trace| - 1])
      case None => None
      case Some(s) => Next(site, s, trace[|trace| - 1])
  }

  // ---- the invariant --------------------------------------------------------------------------

  predicate IsMoved(site: Site, s0: Db, s: Db, i: nat)
    requires i < |site.versions| == |s0.uris| == |s.uris|
  {
    IsReady(site, s0, i) && s.uris[i] == TargetUri(site, i)
  }

  /** What a pass read at its start is the old URI or, if the record has been moved, the new one. */
  predicate SnapshotOk(site: Site, s0: Db, s: Db, snapshot: seq<string>)
    requires |site.versions| == |s0.uris| == |s.uris|
  {
    && |snapshot| == |site.versions|
    && (forall i | 0 <= i < |snapshot| ::
          snapshot[i] == s0.uris[i] || (snapshot[i] == TargetUri(site, i) && IsMoved(site, s0, s, i)))
  }

  /** The records a pass has behind it: those that were ready are moved, and none was blocked. */
  predicate Behind(site: Site, s0: Db, s: Db, index: nat)
    requires |site.versions| == |s0.uris| == |s.uris|
  {
    && index <= |site.versions|
    && (forall i | 0 <= i < index && IsReady(site, s0, i) :: IsMoved(site, s0, s, i))
    && NoneBlocked(site, s0, index)
  }

  /** A pass in the middle of a record has found, or is copying, that record's legacy object. */
  predicate PcOk(site: Site, s0: Db, s: Db, index: nat, pc: Pc)
    requires |site.versions| == |s0.uris|
  {
    pc.AtRecord? ||
    (pc.Found? && index < |site.versions| && LegacyFound(site, s0.objects, site.versions[index], s0.uris[index])
     && pc.key == Classify(site, site.versions[index], s0.uris[index]).key) ||
    (&& !pc.Found? && index < |site.versions| && IsReady(site, s0, index)
     && (pc.Verified? || pc.FoundFree? ==> pc.obj == CopyOf(LegacyObject(site, s0, index)))
     && (pc.FoundFree? ==> Target(site, index) !in s0.objects)
     && (pc.Stored? ==> Target(site, index) in s.objects && !Blocked(site, s0, index)))
  }

  predicate PassOk(site: Site, s0: Db, s: Db, p: Pass)
    requires |site.versions| == |s0.uris| == |s.uris|
  {
    SnapshotOk(site, s0, s, p.snapshot) && Behind(site, s0, s, p.index) && PcOk(site, s0, s, p.index, p.pc)
  }

  predicate PassesOk(site: Site, s0: Db, s: Db, passes: map<nat, Pass>)
    requires |site.versions| == |s0.uris| == |s.uris|
  {
    forall id | id in passes :: PassOk(site, s0, s, passes[id])
  }

  predicate MovedUnblocked(site: Site, s0: Db, s: Db)
    requires |site.versions| == |s0.uris| == |s.uris|
  {
    forall i | 0 <= i < |s.uris| && IsMoved(site, s0, s, i) :: !Blocked(site, s0, i)
  }

  ghost predicate Inv(site: Site, s0: Db, s: State) {
    && Between(site, s0, s.db, |site.versions|)
    && MovedUnblocked(site, s0, s.db)
    && PassesOk(site, s0, s.db, s.passes)
  }

  /** Objects are only added, and a moved record stays moved. */
  predicate Onward(site: Site, s0: Db, s: Db, s': Db)
    requires |site.versions| == |s0.uris| == |s.uris| == |s'.uris|
  {
    && (forall key | key in s.objects :: key in s'.objects)
    && (forall i | 0 <= i < |s.uris| && IsMoved(site, s0, s, i) :: IsMoved(site, s0, s', i))
  }

  lemma {:induction false} OnwardKeeps(site: Site, s0: Db, s: Db, s': Db, p: Pass)
    requires |site.versions| == |s0.uris| == |s.uris| == |s'.uris|
    requires Onward(site, s0, s, s') && PassOk(site, s0, s, p)
    ensures PassOk(site, s0, s', p)
  {
    hide IsReady, Target, TargetUri, LegacyObject, CopyOf, Blocked, NoneBlocked;
  }

  /** A step that changes the database as `Onward` allows and leaves the other passes alone. */
  lemma {:induction false} StepKeeps(site: Site, s0: Db, s: State, db: Db, id: nat, p: Pass)
    requires Inv(site, s0, s) && Between(site, s0, db, |site.versions|) && Onward(site, s0, s.db, db)
    requires MovedUnblocked(site, s0, db) && PassOk(site, s0, db, p)
    ensures Inv(site, s0, With(s.(db := db), id, p))
  {
    hide PassOk, Onward, MovedUnblocked;
    forall k | k in s.passes ensures PassOk(site, s0, db, s.passes[k]) {
      OnwardKeeps(site, s0, s.db, db, s.passes[k]);
    }
  }

  lemma {:induction false} OnwardItself(site: Site, s0: Db, s: Db)
    requires |site.versions| == |s0.uris| == |s.uris|
    ensures Onward(site, s0, s, s)
  {
  }

  lemma {:induction false} BeginKeeps(site: Site, s0: Db, s: State, id: nat)
    requires WellFormed(site) && Inv(site, s0, s)
    ensures Inv(site, s0, With(s, id, Pass(s.db.uris, 0, AtRecord)))
  {
    hide IsReady, Target, TargetUri, Copied, WellFormed, PassesOk;
    forall i | 0 <= i < |s.db.uris|
      ensures s.db.uris[i] == s0.uris[i] || (s.db.uris[i] == TargetUri(site, i) && IsMoved(site, s0, s.db, i))
    {
      assert UriMoved(site, s0, s.db, |site.versions|, i);
    }
    OnwardItself(site, s0, s.db);
    StepKeeps(site, s0, s, s.db, id, Pass(s.db.uris, 0, AtRecord));
  }

  /** Whichever URI the pass read, what it finds is what was there at the start; a record it passes by
      has been moved or was not ready. */
  lemma {:induction false} InspectVerdict(site: Site, s0: Db, s: Db, snapshot: seq<string>, i: nat)
    requires WellFormed(site) && Between(site, s0, s, |site.versions|)
    requires SnapshotOk(site, s0, s, snapshot) && i < |site.versions|
    ensures
      if LegacyFound(site, s.objects, site.versions[i], snapshot[i]) then
        snapshot[i] == s0.uris[i] && LegacyFound(site, s0.objects, site.versions[i], s0.uris[i])
      else
        && (IsReady(site, s0, i) ==> IsMoved(site, s0, s, i))
        && (!IsReady(site, s0, i) ==> !Blocked(site, s0, i))
  {
    hide Classify, Copied, WellFormed, UriMoved, Target, TargetUri;
    if snapshot[i] == s0.uris[i] {
      if HasLegacyKey(Classify(site, site.versions[i], s0.uris[i])) {
        LegacyUntouched(site, s0, s, |site.versions|, i, s0.uris[i]);
      }
    } else {
      TargetIsCurrent(site, i);
    }
  }

  lemma {:induction false} InspectKeeps(site: Site, s0: Db, s: State, id: nat)
    requires WellFormed(site) && Inv(site, s0, s) && id in s.passes && InspectNext(site, s, id).Some?
    ensures Inv(site, s0, InspectNext(site, s, id).value)
  {
    hide IsReady, Classify, Target, TargetUri, LegacyObject, CopyOf, Copied, WellFormed, PassesOk, Between,
        SnapshotOk;
    var p := s.passes[id];
    PassOkOf(site, s0, s, id);
    InspectVerdict(site, s0, s.db, p.snapshot, p.index);
    OnwardItself(site, s0, s.db);
    if LegacyFound(site, s.db.objects, site.versions[p.index], p.snapshot[p.index]) {
      StepKeeps(site, s0, s, s.db, id,
          p.(pc := Found(Classify(site, site.versions[p.index], p.snapshot[p.index]).key)));
    } else {
      StepKeeps(site, s0, s, s.db, id, p.(index := p.index + 1));
    }
  }

  /** The object found is still there, and has the record's checksum exactly if the record was ready. */
  lemma {:induction false} DownloadVerdict(site: Site, s0: Db, s: Db, i: nat)
    requires WellFormed(site) && Between(site, s0, s, |site.versions|) && i < |site.versions|
    requires LegacyFound(site, s0.objects, site.versions[i], s0.uris[i])
    ensures var key := Classify(site, site.versions[i], s0.uris[i]).key;
      && key in s.objects
      && (site.sha(s.objects[key].data) == site.versions[i].checksum <==> IsReady(site, s0, i))
      && (IsReady(site, s0, i) ==> s.objects[key] == LegacyObject(site, s0, i))
  {
    hide Classify, Copied, WellFormed, UriMoved;
    LegacyUntouched(site, s0, s, |site.versions|, i, s0.uris[i]);
  }

  lemma {:induction false} DownloadKeeps(site: Site, s0: Db, s: State, id: nat)
    requires WellFormed(site) && Inv(site, s0, s) && id in s.passes && DownloadNext(site, s, id).Some?
    ensures Inv(site, s0, DownloadNext(site, s, id).value)
  {
    hide IsReady, LegacyFound, Classify, Target, TargetUri, LegacyObject, CopyOf, Copied, WellFormed, PassesOk,
        Between, SnapshotOk;
    var p := s.passes[id];
    PassOkOf(site, s0, s, id);
    DownloadVerdict(site, s0, s.db, p.index);
    OnwardItself(site, s0, s.db);
    if IsReady(site, s0, p.index) {
      StepKeeps(site, s0, s, s.db, id, p.(pc := Verified(CopyOf(s.db.objects[p.pc.key]))));
    } else {
      StepKeeps(site, s0, s, s.db, id, p.(pc := AtRecord, index := p.index + 1));
    }
  }

  lemma {:induction false} PassOkOf(site: Site, s0: Db, s: State, id: nat)
    requires Inv(site, s0, s) && id in s.passes
    ensures |site.versions| == |s0.uris| == |s.db.uris| && PassOk(site, s0, s.db, s.passes[id])
  {
    hide PassOk;
  }

  /** Writing the copy under a key that was free at the start. */
  lemma {:induction false} WriteKeeps(site: Site, s0: Db, s: State, id: nat, obj: Obj)
    requires WellFormed(site) && Inv(site, s0, s) && id in s.passes
    requires s.passes[id].index < |site.versions| && IsReady(site, s0, s.passes[id].index)
    requires obj == CopyOf(LegacyObject(site, s0, s.passes[id].index))
        && Target(site, s.passes[id].index) !in s0.objects
    ensures var p := s.passes[id];
      Inv(site, s0, With(s.(db := s.db.(objects := s.db.objects[Target(site, p.index) := obj])), id, p.(pc := Stored)))
  {
    hide IsReady, Target, TargetUri, LegacyObject, CopyOf, Copied, UriMoved, WellFormed, PassesOk;
    var p := s.passes[id];
    var db := s.db.(objects := s.db.objects[Target(site, p.index) := obj]);
    PassOkOf(site, s0, s, id);
    CopyKeeps(site, s0, s.db, |site.versions|, p.index);
    OnwardKeeps(site, s0, s.db, db, p);
    StepKeeps(site, s0, s, db, id, p.(pc := Stored));
  }

  lemma {:induction false} ReuseKeeps(site: Site, s0: Db, s: State, id: nat)
    requires WellFormed(site) && Inv(site, s0, s) && id in s.passes && s.passes[id].pc.Verified?
    requires s.passes[id].index < |site.versions| && Target(site, s.passes[id].index) in s.db.objects
    ensures Inv(site, s0, Reuse(site, s, id, s.passes[id].pc.obj))
  {
    hide IsReady, Target, TargetUri, LegacyObject, Copied, UriMoved, WellFormed, PassesOk, SnapshotOk, Behind;
    var p := s.passes[id];
    PassOkOf(site, s0, s, id);
    OnwardItself(site, s0, s.db);
    if |s.db.objects[Target(site, p.index)].data| == |p.pc.obj.data| {
      StepKeeps(site, s0, s, s.db, id, p.(pc := Stored));
    } else {
      StopKeeps(site, s0, s, id);
    }
  }

  lemma {:induction false} StopKeeps(site: Site, s0: Db, s: State, id: nat)
    requires Inv(site, s0, s)
    ensures Inv(site, s0, Without(s, id))
  {
    hide PassOk, MovedUnblocked, Between;
  }

  lemma {:induction false} PutKeeps(site: Site, s0: Db, s: State, id: nat)
    requires WellFormed(site) && Inv(site, s0, s) && id in s.passes && PutNext(site, s, id).Some?
    ensures Inv(site, s0, PutNext(site, s, id).value)
  {
    hide IsReady, Target, TargetUri, LegacyObject, CopyOf, Copied, UriMoved, WellFormed, PassesOk, SnapshotOk, Behind,
        Reuse;
    var p := s.passes[id];
    PassOkOf(site, s0, s, id);
    if Target(site, p.index) in s.db.objects {
      ReuseKeeps(site, s0, s, id);
    } else {
      WriteKeeps(site, s0, s, id, p.pc.obj);
    }
  }

  lemma {:induction false} ProbeKeeps(site: Site, s0: Db, s: State, id: nat)
    requires WellFormed(site) && Inv(site, s0, s) && id in s.passes && ProbeNext(site, s, id).Some?
    ensures Inv(site, s0, ProbeNext(site, s, id).value)
  {
    hide IsReady, Target, TargetUri, LegacyObject, CopyOf, Copied, UriMoved, WellFormed, PassesOk, SnapshotOk, Behind,
        Reuse;
    var p := s.passes[id];
    PassOkOf(site, s0, s, id);
    if Target(site, p.index) in s.db.objects {
      ReuseKeeps(site, s0, s, id);
    } else {
      OnwardItself(site, s0, s.db);
      StepKeeps(site, s0, s, s.db, id, p.(pc := FoundFree(p.pc.obj)));
    }
  }

  lemma {:induction false} PutPlainKeeps(site: Site, s0: Db, s: State, id: nat)
    requires WellFormed(site) && Inv(site, s0, s) && id in s.passes && PutPlainNext(site, s, id).Some?
    ensures Inv(site, s0, PutPlainNext(site, s, id).value)
  {
    hide IsReady, Target, TargetUri, LegacyObject, CopyOf, WellFormed, PassesOk, SnapshotOk, Behind, Between;
    PassOkOf(site, s0, s, id);
    WriteKeeps(site, s0, s, id, s.passes[id].pc.obj);
  }

  lemma {:induction false} SaveUriKeeps(site: Site, s0: Db, s: State, id: nat)
    requires WellFormed(site) && Inv(site, s0, s) && id in s.passes && SaveNext(site, s, id).Some?
    ensures Inv(site, s0, SaveNext(site, s, id).value)
  {
    hide IsReady, Target, TargetUri, LegacyObject, CopyOf, Copied, UriMoved, WellFormed, PassesOk, Blocked;
    var p := s.passes[id];
    var db := s.db.(uris := s.db.uris[p.index := TargetUri(site, p.index)]);
    PassOkOf(site, s0, s, id);
    SaveKeeps(site, s0, s.db, |site.versions|, p.index);
    OnwardKeeps(site, s0, s.db, db, p);
    StepKeeps(site, s0, s, db, id, p.(pc := AtRecord, index := p.index + 1));
  }

  lemma {:induction false} NextKeeps(site: Site, s0: Db, s: State, a: Action)
    requires WellFormed(site) && Inv(site, s0, s) && Next(site, s, a).Some?
    ensures Inv(site, s0, Next(site, s, a).value)
  {
    hide Inv, With, WellFormed, InspectNext, DownloadNext, PutNext, ProbeNext, PutPlainNext, SaveNext;
    match a
    case Begin(id) => BeginKeeps(site, s0, s, id);
    case Inspect(id) => InspectKeeps(site, s0, s, id);
    case Download(id) => DownloadKeeps(site, s0, s, id);
    case PutCreateOnly(id) => PutKeeps(site, s0, s, id);
    case Probe(id) => ProbeKeeps(site, s0, s, id);
    case PutPlain(id) => PutPlainKeeps(site, s0, s, id);
    case SaveUri(id) => SaveUriKeeps(site, s0, s, id);
    case Stop(id) => StopKeeps(site, s0, s, id);
  }

  lemma {:induction false} Reachable(site: Site, s0: Db, trace: seq<Action>)
    requires WellFormed(site) && |s0.uris| == |site.versions| && Execute(site, s0, trace).Some?
    ensures Inv(site, s0, Execute(site, s0, trace).value)
  {
    hide Next, WellFormed, IsReady, Copied, TargetUri;
    if trace == [] {
      BetweenStart(site, s0);
      BetweenMore(site, s0, s0, 0, |site.versions|);
      StartUnblocked(site, s0);
    } else {
      Reachable(site, s0, trace[..|trace| - 1]);
      NextKeeps(site, s0, Execute(site, s0, trace[..|trace| - 1]).value, trace[|trace| - 1]);
    }
  }

  lemma {:induction false} StartUnblocked(site: Site, s0: Db)
    requires WellFormed(site) && |s0.uris| == |site.versions|
    ensures MovedUnblocked(site, s0, s0)
  {
    hide Judge, Target, TargetUri, WellFormed;
    forall i | 0 <= i < |s0.uris| ensures !IsMoved(site, s0, s0, i) {
      if s0.uris[i] == TargetUri(site, i) {
        MovedIsNotReady(site, s0, i);
      }
    }
  }

  // ---- results --------------------------------------------------------------------------------

  /** Nothing that was in the bucket at the start is ever altered or removed, and every URI is the
      old one or the new one with the copied object behind it, whatever the passes do. */
  lemma {:induction false} SafeThroughout(site: Site, s0: Db, trace: seq<Action>)
    requires WellFormed(site) && |s0.uris| == |site.versions| && Execute(site, s0, trace).Some?
    ensures Between(site, s0, Execute(site, s0, trace).value.db, |site.versions|)
  {
    hide Execute, Between, WellFormed;
    Reachable(site, s0, trace);
  }

  lemma {:induction false} NextOnward(site: Site, s0: Db, s: State, a: Action)
    requires |site.versions| == |s0.uris| == |s.db.uris| && Next(site, s, a).Some?
    ensures |Next(site, s, a).value.db.uris| == |s0.uris| && Onward(site, s0, s.db, Next(site, s, a).value.db)
  {
    hide IsReady, Target, TargetUri, Judge, CopyOf;
  }

  lemma {:induction false} ExecuteOnward(site: Site, s0: Db, trace: seq<Action>, n: nat)
    requires |site.versions| == |s0.uris| && n <= |trace| && Execute(site, s0, trace).Some?
    ensures Execute(site, s0, trace[..n]).Some?
    ensures |Execute(site, s0, trace[..n]).value.db.uris| == |s0.uris| == |Execute(site, s0, trace).value.db.uris|
    ensures Onward(site, s0, Execute(site, s0, trace[..n]).value.db, Execute(site, s0, trace).value.db)
  {
    hide Next, IsMoved;
    if trace == [] {
      assert trace[..n] == trace;
    } else {
      var front := trace[..|trace| - 1];
      ExecuteOnward(site, s0, front, if n < |trace| then n else n - 1);
      NextOnward(site, s0, Execute(site, s0, front).value, trace[|trace| - 1]);
      if n == |trace| {
        assert trace[..n] == trace;
      } else {
        assert front[..n] == trace[..n];
      }
    }
  }

  /** Once one pass has been through all records, the database is and stays migrated: it is what a
      single uninterrupted pass makes of the start, however many other passes ran, died or still run.
      Such a pass exists only if no record was blocked. */
  lemma {:induction false} OneCompletePassIsEnough(site: Site, s0: Db, trace: seq<Action>, n: nat, id: nat)
    requires WellFormed(site) && |s0.uris| == |site.versions| && Execute(site, s0, trace).Some?
    requires n <= |trace| && Execute(site, s0, trace[..n]).Some?
    requires var s := Execute(site, s0, trace[..n]).value; id in s.passes && s.passes[id].index == |site.versions|
    ensures Migrated(site, s0, Execute(site, s0, trace).value.db, |site.versions|)
    ensures forall whole | Migrated(site, s0, whole, |site.versions|) :: whole == Execute(site, s0, trace).value.db
    ensures NoneBlocked(site, s0, |site.versions|)
  {
    hide Execute, WellFormed, IsReady, Target, TargetUri, Copied, UriMoved, PassesOk, Blocked;
    Reachable(site, s0, trace[..n]);
    Reachable(site, s0, trace);
    ExecuteOnward(site, s0, trace, n);
    PassOkOf(site, s0, Execute(site, s0, trace[..n]).value, id);
    forall whole | Migrated(site, s0, whole, |site.versions|) ensures whole == Execute(site, s0, trace).value.db {
      MigratedUnique(site, s0, Execute(site, s0, trace).value.db, whole);
    }
  }

  // ---- the uninterrupted pass -----------------------------------------------------------------

  /** The only pass is between two records. */
  predicate AloneAt(s: State, snapshot: seq<string>, i: nat) {
    s.passes.Keys == {0} && s.passes[0] == Pass(snapshot, i, AtRecord)
  }

  /** The steps that take a pass through a record: one if it finds no object, two if it finds a
      conflicting one, four if the record is ready. */
  function StepsThrough(site: Site, s0: Db, s: Db, i: nat): seq<Action>
    requires i < |site.versions| == |s0.uris|
  {
    if !LegacyFound(site, s.objects, site.versions[i], s0.uris[i]) then [Inspect(0)]
    else if !IsReady(site, s0, i) then [Inspect(0), Download(0)]
    else [Inspect(0), Download(0), PutCreateOnly(0), SaveUri(0)]
  }

  function NextAll(site: Site, s: State, steps: seq<Action>): Option<State> {
    if steps == [] then Some(s)
    else
      match NextAll(site, s, steps[..|steps| - 1])
      case None => None
      case Some(mid) => Next(site, mid, steps[|steps| - 1])
  }

  lemma {:induction false} NextAllMore(site: Site, s: State, steps: seq<Action>, a: Action)
    ensures NextAll(site, s, steps + [a])
         == match NextAll(site, s, steps) case None => None case Some(mid) => Next(site, mid, a)
  {
    hide Next;
    assert (steps + [a])[..|steps|] == steps;
  }

  /** After the first `k` of these steps the pass is in the middle of its record. */
  predicate MidRecord(site: Site, s: State, steps: seq<Action>, k: nat)
    requires k <= |steps|
  {
    var mid := NextAll(site, s, steps[..k]);
    mid.Some? && 0 in mid.value.passes && !mid.value.passes[0].pc.AtRecord?
  }

  /** The inspection, and the download if there is something to download. */
  lemma {:induction false} HandlesFirst(site: Site, s0: Db, s: State, i: nat)
    requires WellFormed(site) && Inv(site, s0, s) && i < |site.versions| && !Blocked(site, s0, i)
    requires |s0.uris| == |site.versions| && AloneAt(s, s0.uris, i)
    ensures
      if !LegacyFound(site, s.db.objects, site.versions[i], s0.uris[i]) then
        InspectNext(site, s, 0).Some? && AloneAt(InspectNext(site, s, 0).value, s0.uris, i + 1)
      else
        && InspectNext(site, s, 0).Some?
        && var s1 := InspectNext(site, s, 0).value;
           && 0 in s1.passes && s1.passes[0].pc.Found? && Inv(site, s0, s1)
           && DownloadNext(site, s1, 0).Some?
           && var s2 := DownloadNext(site, s1, 0).value;
              && Inv(site, s0, s2)
              && if IsReady(site, s0, i) then s2.passes.Keys == {0} && s2.passes[0].pc.Verified?
                  && s2.passes[0].index == i && s2.passes[0].snapshot == s0.uris
                 else AloneAt(s2, s0.uris, i + 1)
  {
    hide WellFormed, Inv, IsReady, LegacyObject, Classify, Target, TargetUri, CopyOf, Between, Blocked;
    PassOkOf(site, s0, s, 0);
    BetweenOf(site, s0, s);
    InspectVerdict(site, s0, s.db, s0.uris, i);
    if LegacyFound(site, s.db.objects, site.versions[i], s0.uris[i]) {
      InspectKeeps(site, s0, s, 0);
      DownloadVerdict(site, s0, s.db, i);
      DownloadKeeps(site, s0, InspectNext(site, s, 0).value, 0);
    }
  }

  /** The copy and the save of the URI. */
  lemma {:induction false} HandlesLast(site: Site, s0: Db, s: State, i: nat)
    requires WellFormed(site) && Inv(site, s0, s) && i < |site.versions| && !Blocked(site, s0, i)
    requires |s0.uris| == |site.versions| && s.passes.Keys == {0} && s.passes[0].pc.Verified? && s.passes[0].index == i
    requires s.passes[0].snapshot == s0.uris
    ensures
      && PutNext(site, s, 0).Some?
      && var s1 := PutNext(site, s, 0).value;
         && 0 in s1.passes && s1.passes[0].pc.Stored?
         && SaveNext(site, s1, 0).Some? && AloneAt(SaveNext(site, s1, 0).value, s0.uris, i + 1)
  {
    hide WellFormed, Inv, IsReady, LegacyObject, Target, TargetUri, CopyOf, Between, Blocked;
    PassOkOf(site, s0, s, 0);
    BetweenOf(site, s0, s);
    SizesAgree(site, s0, s.db, i);
  }

  /** Left alone, a pass gets through a record that is not blocked. */
  lemma {:induction false} HandlesRecord(site: Site, s0: Db, s: State, i: nat)
    requires WellFormed(site) && Inv(site, s0, s) && i < |site.versions| && !Blocked(site, s0, i)
    requires |s0.uris| == |site.versions| && AloneAt(s, s0.uris, i)
    ensures var steps := StepsThrough(site, s0, s.db, i);
      && NextAll(site, s, steps).Some? && AloneAt(NextAll(site, s, steps).value, s0.uris, i + 1)
      && forall k | 0 < k < |steps| :: MidRecord(site, s, steps, k)
  {
    hide WellFormed, Inv, IsReady, LegacyFound, NextAll, Blocked, InspectNext, DownloadNext, PutNext, SaveNext;
    HandlesFirst(site, s0, s, i);
    var steps := StepsThrough(site, s0, s.db, i);
    NextAllNone(site, s);
    NextAllMore(site, s, [], Inspect(0));
    assert steps[..1] == [] + [Inspect(0)];
    if !LegacyFound(site, s.db.objects, site.versions[i], s0.uris[i]) {
      assert steps == steps[..1];
    } else {
      NextAllMore(site, s, steps[..1], Download(0));
      assert steps[..2] == steps[..1] + [Download(0)];
      if !IsReady(site, s0, i) {
        assert steps == steps[..2];
      } else {
        HandlesLast(site, s0, DownloadNext(site, InspectNext(site, s, 0).value, 0).value, i);
        NextAllMore(site, s, steps[..2], PutCreateOnly(0));
        assert steps[..3] == steps[..2] + [PutCreateOnly(0)];
        NextAllMore(site, s, steps[..3], SaveUri(0));
        assert steps == steps[..3] + [SaveUri(0)];
      }
    }
  }

  lemma {:induction false} NextAllNone(site: Site, s: State)
    ensures NextAll(site, s, []) == Some(s)
  {
  }

  lemma {:induction false} BetweenOf(site: Site, s0: Db, s: State)
    requires Inv(site, s0, s)
    ensures Between(site, s0, s.db, |site.versions|)
  {
    hide Between, MovedUnblocked, PassesOk;
  }

  lemma {:induction false} SizesAgree(site: Site, s0: Db, s: Db, i: nat)
    requires WellFormed(site) && Between(site, s0, s, |site.versions|) && i < |site.versions|
    requires IsReady(site, s0, i) && !Blocked(site, s0, i)
    ensures Target(site, i) in s.objects ==>
        |s.objects[Target(site, i)].data| == |CopyOf(LegacyObject(site, s0, i)).data|
  {
    hide WellFormed, IsReady, LegacyObject, Target, Copied, UriMoved;
    if Target(site, i) in s.objects && Target(site, i) !in s0.objects {
      CopiedIs(site, s0, s, |site.versions|, i);
    }
  }

  lemma {:induction false} ExecuteMore(site: Site, s0: Db, trace: seq<Action>, steps: seq<Action>)
    requires Execute(site, s0, trace).Some?
    ensures Execute(site, s0, trace + steps) == NextAll(site, Execute(site, s0, trace).value, steps)
  {
    hide Next;
    if steps == [] {
      assert trace + steps == trace;
    } else {
      ExecuteMore(site, s0, trace, steps[..|steps| - 1]);
      assert (trace + steps)[..|trace + steps| - 1] == trace + steps[..|steps| - 1];
    }
  }

  /** If no record is blocked, a pass that is left alone goes through all records; so the passes
      modelled here and the loop of the single pass have the same outcome. */
  lemma {:induction false} LonePassCompletes(site: Site, s0: Db, i: nat) returns (trace: seq<Action>)
    requires WellFormed(site) && |s0.uris| == |site.versions| && i <= |site.versions| && NoneBlocked(site, s0, i)
    ensures Execute(site, s0, trace).Some? && AloneAt(Execute(site, s0, trace).value, s0.uris, i)
    ensures i == |site.versions| ==> Migrated(site, s0, Execute(site, s0, trace).value.db, i)
  {
    hide Execute, WellFormed, Blocked, Migrated, NextAll, Inv, StepsThrough;
    if i == 0 {
      trace := [Begin(0)];
      BeginsAlone(site, s0);
    } else {
      var front := LonePassCompletes(site, s0, i - 1);
      var s := Execute(site, s0, front).value;
      Reachable(site, s0, front);
      HandlesRecord(site, s0, s, i - 1);
      ExecuteMore(site, s0, front, StepsThrough(site, s0, s.db, i - 1));
      trace := front + StepsThrough(site, s0, s.db, i - 1);
    }
    if i == |site.versions| {
      assert trace[..|trace|] == trace;
      OneCompletePassIsEnough(site, s0, trace, |trace|, 0);
    }
  }

  lemma {:induction false} BeginsAlone(site: Site, s0: Db)
    ensures Execute(site, s0, [Begin(0)]).Some? && AloneAt(Execute(site, s0, [Begin(0)]).value, s0.uris, 0)
  {
    assert [Begin(0)][..0] == [];
  }
}
