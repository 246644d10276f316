/** What a migration pass decides about each record and what it leaves behind
    (apps/rawstore/migration.py). Three generations of keys exist: unprefixed, prefixed with the
    schema name, and prefixed with the tenant's UUID; a pass moves the first two to the third. */
module Migration {
  import opened Prelude
  import opened Keys
  import opened RawStore

  /** A tenant's bucket and its records in the order of their ids. The records' run, sequence and
      checksum are unique; `sha` is the checksum function. */
  datatype Site = Site(bucket: string, tenant: string, schema: string, sha: Sha, versions: seq<Version>)

  /** Identifiers carry no slash, and a record is unique by run, sequence and checksum. */
  predicate WellFormed(site: Site) {
    && site.bucket != "" && Plain(site.bucket) && Plain(site.tenant) && Plain(site.schema)
    && (forall i | 0 <= i < |site.versions| :: PlainVersion(site.versions[i]))
    && (forall i, j | 0 <= i < j < |site.versions| :: site.versions[i] != site.versions[j])
  }

  /** The objects in the bucket and the `storage_uri` column, by record. */
  datatype Db = Db(objects: Objects, uris: seq<string>)

  datatype Generation =
    | Current
    | SchemaPrefixed(key: string)
    | Unprefixed(key: string)
    | Unrecognized

  predicate HasLegacyKey(g: Generation) {
    g.SchemaPrefixed? || g.Unprefixed?
  }

  /** A URI that does not parse, or names another bucket, is of no recognized shape. */
  function Classify(site: Site, v: Version, uri: string): Generation {
    match ParseUri(site.bucket, uri)
    case Err(_) => Unrecognized
    case Ok(key) =>
      if key == PrefixedKey(site.tenant, v) then Current
      else if key == PrefixedKey(site.schema, v) then SchemaPrefixed(key)
      else if key == LogicalKey(v) then Unprefixed(key)
      else Unrecognized
  }

  /** Each generation's URI is recognized as what it is, exactly when tenant and schema differ. */
  lemma {:induction false} GenerationsDoNotOverlap(site: Site, v: Version)
    requires site.bucket != "" && Plain(site.bucket) && Plain(site.tenant) && Plain(site.schema) && PlainVersion(v)
    ensures Classify(site, v, Uri(site.bucket, PrefixedKey(site.tenant, v))) == Current
    ensures Classify(site, v, Uri(site.bucket, LogicalKey(v))) == Unprefixed(LogicalKey(v))
    ensures site.tenant != site.schema <==>
      Classify(site, v, Uri(site.bucket, PrefixedKey(site.schema, v))) == SchemaPrefixed(PrefixedKey(site.schema, v))
  {
    hide ParseUri, Uri;
    ParseUriExact(site.bucket, Uri(site.bucket, PrefixedKey(site.tenant, v)), PrefixedKey(site.tenant, v));
    ParseUriExact(site.bucket, Uri(site.bucket, PrefixedKey(site.schema, v)), PrefixedKey(site.schema, v));
    ParseUriExact(site.bucket, Uri(site.bucket, LogicalKey(v)), LogicalKey(v));
    PrefixedIsNotLogical(site.tenant, v, v);
    PrefixedIsNotLogical(site.schema, v, v);
    KeyInjective(site.tenant, v, site.schema, v);
  }

  datatype Verdict =
    | AlreadyMigrated
    | Missing
    | Conflict
    | Ready(key: string)

  /** What one record turns out to be: `exists` and the checksum are looked at only for a legacy key. */
  function Judge(site: Site, objects: Objects, v: Version, uri: string): Verdict {
    var g := Classify(site, v, uri);
    if g.Current? then AlreadyMigrated
    else if g.Unrecognized? then Conflict
    else if g.key !in objects then Missing
    else if site.sha(objects[g.key].data) != v.checksum then Conflict
    else Ready(g.key)
  }

  predicate IsReady(site: Site, s: Db, i: nat)
    requires i < |site.versions| == |s.uris|
  {
    Judge(site, s.objects, site.versions[i], s.uris[i]).Ready?
  }

  function Target(site: Site, i: nat): string
    requires i < |site.versions|
  {
    PrefixedKey(site.tenant, site.versions[i])
  }

  function TargetUri(site: Site, i: nat): string
    requires i < |site.versions|
  {
    Uri(site.bucket, Target(site, i))
  }

  const DEFAULT_CONTENT_TYPE := "application/json"

  /** The object written under the new key: the same bytes, with a content type if there was none. */
  function CopyOf(obj: Obj): Obj {
    if obj.contentType == "" then obj.(contentType := DEFAULT_CONTENT_TYPE) else obj
  }

  function LegacyObject(site: Site, s: Db, i: nat): Obj
    requires i < |site.versions| == |s.uris| && IsReady(site, s, i)
  {
    s.objects[Judge(site, s.objects, site.versions[i], s.uris[i]).key]
  }

  /** The new key is taken by an object of another size: the pass stops there with an integrity error. */
  predicate Blocked(site: Site, s: Db, i: nat)
    requires i < |site.versions| == |s.uris|
  {
    IsReady(site, s, i) && Target(site, i) in s.objects
    && |s.objects[Target(site, i)].data| != |LegacyObject(site, s, i).data|
  }

  predicate NoneBlocked(site: Site, s: Db, m: nat)
    requires m <= |site.versions| == |s.uris|
  {
    forall i | 0 <= i < m :: !Blocked(site, s, i)
  }

  // ---- keys never collide ---------------------------------------------------------------------

  lemma {:induction false} TargetsDistinct(site: Site, i: nat, j: nat)
    requires WellFormed(site) && i < |site.versions| && j < |site.versions|
    ensures Target(site, i) == Target(site, j) <==> i == j
  {
    hide PrefixedKey;
    KeyInjective(site.tenant, site.versions[i], site.tenant, site.versions[j]);
  }

  /** No record's new key is a legacy key that some record is still stored under. */
  lemma {:induction false} LegacyKeyIsNoTarget(site: Site, i: nat, uri: string, j: nat)
    requires WellFormed(site) && i < |site.versions| && j < |site.versions|
    requires HasLegacyKey(Classify(site, site.versions[i], uri))
    ensures Classify(site, site.versions[i], uri).key != Target(site, j)
  {
    hide PrefixedKey, LogicalKey, ParseUri;
    PrefixedIsNotLogical(site.tenant, site.versions[j], site.versions[i]);
    KeyInjective(site.schema, site.versions[i], site.tenant, site.versions[j]);
  }

  lemma {:induction false} TargetIsCurrent(site: Site, i: nat)
    requires WellFormed(site) && i < |site.versions|
    ensures Classify(site, site.versions[i], TargetUri(site, i)) == Current
  {
    hide PrefixedKey, LogicalKey, ParseUri, Uri;
    assert PrefixedKey(site.tenant, site.versions[i]) != "" by { PrefixedNotEmpty(site.tenant, site.versions[i]); }
    ParseUriExact(site.bucket, TargetUri(site, i), Target(site, i));
  }

  lemma {:induction false} PrefixedNotEmpty(prefix: string, v: Version)
    ensures PrefixedKey(prefix, v) != ""
  {
  }

  // ---- between the start and the end of a pass ------------------------------------------------

  /** Where an object that was not there at the start comes from. */
  ghost predicate Copied(site: Site, s0: Db, m: nat, key: string, obj: Obj)
    requires m <= |site.versions| == |s0.uris|
  {
    exists i :: CopiedFor(site, s0, m, key, obj, i)
  }

  predicate CopiedFor(site: Site, s0: Db, m: nat, key: string, obj: Obj, i: int)
    requires m <= |site.versions| == |s0.uris|
  {
    0 <= i < m && IsReady(site, s0, i) && Target(site, i) == key && obj == CopyOf(LegacyObject(site, s0, i))
  }

  /** A record's URI is the old one, or the new one with an object behind it. */
  predicate UriMoved(site: Site, s0: Db, s: Db, m: nat, i: nat)
    requires m <= |site.versions| == |s0.uris| == |s.uris| && i < |s.uris|
  {
    s.uris[i] == s0.uris[i]
    || (i < m && IsReady(site, s0, i) && s.uris[i] == TargetUri(site, i) && Target(site, i) in s.objects)
  }

  /** `s` is `s0` with some of the first `m` records' objects copied, and some of those records moved. */
  ghost predicate Between(site: Site, s0: Db, s: Db, m: nat) {
    && m <= |site.versions| == |s0.uris| == |s.uris|
    && Preserves(s0.objects, s.objects)
    && (forall key | key in s.objects && key !in s0.objects :: Copied(site, s0, m, key, s.objects[key]))
    && (forall i | 0 <= i < |s.uris| :: UriMoved(site, s0, s, m, i))
  }

  /** Every one of the first `m` records that was ready has been moved. */
  ghost predicate Migrated(site: Site, s0: Db, s: Db, m: nat) {
    && Between(site, s0, s, m)
    && (forall i | 0 <= i < m && IsReady(site, s0, i) :: s.uris[i] == TargetUri(site, i))
  }

  lemma {:induction false} BetweenStart(site: Site, s: Db)
    requires |site.versions| == |s.uris|
    ensures Between(site, s, s, 0) && Migrated(site, s, s, 0)
  {
    hide IsReady;
  }

  /** A legacy object is never touched, and none appears at a legacy key. */
  lemma {:induction false} LegacyUntouched(site: Site, s0: Db, s: Db, m: nat, i: nat, uri: string)
    requires WellFormed(site) && Between(site, s0, s, m) && i < |site.versions|
    requires HasLegacyKey(Classify(site, site.versions[i], uri))
    ensures var key := Classify(site, site.versions[i], uri).key;
      && (key in s.objects <==> key in s0.objects)
      && (key in s.objects ==> s.objects[key] == s0.objects[key])
  {
    hide Classify, IsReady, Target, UriMoved;
    var key := Classify(site, site.versions[i], uri).key;
    if key in s.objects && key !in s0.objects {
      var j :| CopiedFor(site, s0, m, key, s.objects[key], j);
      LegacyKeyIsNoTarget(site, i, uri, j);
    }
  }

  /** The verdict on a record read with its original URI is the same at any time during the pass. */
  lemma {:induction false} JudgedAsAtStart(site: Site, s0: Db, s: Db, m: nat, i: nat)
    requires WellFormed(site) && Between(site, s0, s, m) && i < |site.versions|
    ensures Judge(site, s.objects, site.versions[i], s0.uris[i])
        == Judge(site, s0.objects, site.versions[i], s0.uris[i])
  {
    hide Classify, UriMoved, Copied;
    if HasLegacyKey(Classify(site, site.versions[i], s0.uris[i])) {
      LegacyUntouched(site, s0, s, m, i, s0.uris[i]);
    }
  }

  lemma {:induction false} MovedIsCurrent(site: Site, i: nat, objects: Objects)
    requires WellFormed(site) && i < |site.versions|
    ensures Judge(site, objects, site.versions[i], TargetUri(site, i)) == AlreadyMigrated
  {
    hide Classify;
    TargetIsCurrent(site, i);
  }

  // ---- what keeps a state between start and end -----------------------------------------------

  lemma {:induction false} BetweenMore(site: Site, s0: Db, s: Db, m: nat, m': nat)
    requires Between(site, s0, s, m) && m <= m' <= |site.versions|
    ensures Between(site, s0, s, m')
  {
    hide IsReady, Target, TargetUri, LegacyObject, CopyOf;
    forall key | key in s.objects && key !in s0.objects ensures Copied(site, s0, m', key, s.objects[key]) {
      var i :| CopiedFor(site, s0, m, key, s.objects[key], i);
      assert CopiedFor(site, s0, m', key, s.objects[key], i);
    }
    forall i | 0 <= i < |s.uris| ensures UriMoved(site, s0, s, m', i) {
      assert UriMoved(site, s0, s, m, i);
    }
  }

  /** Once copied during the pass, an object is the copy of its record's legacy object. */
  lemma {:induction false} CopiedIs(site: Site, s0: Db, s: Db, m: nat, i: nat)
    requires WellFormed(site) && Between(site, s0, s, m) && i < |site.versions| && IsReady(site, s0, i)
    requires Target(site, i) in s.objects && Target(site, i) !in s0.objects
    ensures i < m && s.objects[Target(site, i)] == CopyOf(LegacyObject(site, s0, i))
  {
    hide IsReady, Target, UriMoved, CopyOf, LegacyObject, WellFormed;
    var j :| CopiedFor(site, s0, m, Target(site, i), s.objects[Target(site, i)], j);
    TargetsDistinct(site, i, j);
  }

  /** Copying a ready record's object keeps the state between start and end, even when another
      worker has copied it in the meantime: the bytes and the content type are the same. */
  lemma {:induction false} CopyKeeps(site: Site, s0: Db, s: Db, m: nat, i: nat)
    requires WellFormed(site) && Between(site, s0, s, m) && i < m && IsReady(site, s0, i)
    requires Target(site, i) !in s0.objects
    ensures Between(site, s0, s.(objects := s.objects[Target(site, i) := CopyOf(LegacyObject(site, s0, i))]), m)
    ensures Target(site, i) in s.objects ==>
        s.objects[Target(site, i) := CopyOf(LegacyObject(site, s0, i))] == s.objects
  {
    hide IsReady, Target, TargetUri, LegacyObject, CopyOf, WellFormed, Copied;
    var target := Target(site, i);
    var copy := CopyOf(LegacyObject(site, s0, i));
    var s' := s.(objects := s.objects[target := copy]);
    if target in s.objects {
      CopiedIs(site, s0, s, m, i);
    }
    CopyOrigin(site, s0, m, i);
    forall k | 0 <= k < |s'.uris| ensures UriMoved(site, s0, s', m, k) {
      assert UriMoved(site, s0, s, m, k);
    }
  }

  lemma {:induction false} CopyOrigin(site: Site, s0: Db, m: nat, i: nat)
    requires m <= |site.versions| == |s0.uris| && i < m && IsReady(site, s0, i)
    ensures Copied(site, s0, m, Target(site, i), CopyOf(LegacyObject(site, s0, i)))
  {
    hide IsReady, Target, LegacyObject, CopyOf;
    assert CopiedFor(site, s0, m, Target(site, i), CopyOf(LegacyObject(site, s0, i)), i);
  }

  lemma {:induction false} SaveKeeps(site: Site, s0: Db, s: Db, m: nat, i: nat)
    requires Between(site, s0, s, m) && i < m && IsReady(site, s0, i) && Target(site, i) in s.objects
    ensures Between(site, s0, s.(uris := s.uris[i := TargetUri(site, i)]), m)
  {
    hide IsReady, Target, TargetUri, Copied;
    var s' := s.(uris := s.uris[i := TargetUri(site, i)]);
    forall k | 0 <= k < |s'.uris| ensures UriMoved(site, s0, s', m, k) {
      assert UriMoved(site, s0, s, m, k);
    }
  }

  // ---- results --------------------------------------------------------------------------------

  lemma {:induction false} MovedHasObject(site: Site, s0: Db, s: Db, m: nat, i: nat)
    requires WellFormed(site) && Migrated(site, s0, s, m) && i < m && IsReady(site, s0, i)
    ensures s.uris[i] == TargetUri(site, i) && Target(site, i) in s.objects
  {
    hide Target, TargetUri, Copied, WellFormed, Classify;
    assert UriMoved(site, s0, s, m, i);
    if s0.uris[i] == TargetUri(site, i) {
      MovedIsCurrent(site, i, s0.objects);
    }
  }

  lemma {:induction false} MigratedObjects(site: Site, s0: Db, a: Db, b: Db, n: nat)
    requires WellFormed(site) && Migrated(site, s0, a, n) && Migrated(site, s0, b, n)
    ensures forall key | key in a.objects :: key in b.objects && a.objects[key] == b.objects[key]
  {
    hide IsReady, Target, TargetUri, LegacyObject, CopyOf, WellFormed, UriMoved;
    forall key | key in a.objects ensures key in b.objects && a.objects[key] == b.objects[key] {
      if key !in s0.objects {
        var i :| CopiedFor(site, s0, n, key, a.objects[key], i);
        MovedHasObject(site, s0, b, n, i);
        CopiedIs(site, s0, b, n, i);
      }
    }
  }

  /** A complete pass has one possible outcome. */
  lemma {:induction false} MigratedUnique(site: Site, s0: Db, a: Db, b: Db)
    requires WellFormed(site) && Migrated(site, s0, a, |site.versions|) && Migrated(site, s0, b, |site.versions|)
    ensures a == b
  {
    hide IsReady, TargetUri, WellFormed, Copied;
    MigratedObjects(site, s0, a, b, |site.versions|);
    MigratedObjects(site, s0, b, a, |site.versions|);
    assert a.objects == b.objects;
    forall i | 0 <= i < |a.uris| ensures a.uris[i] == b.uris[i] {
      assert UriMoved(site, s0, a, |site.versions|, i) && UriMoved(site, s0, b, |site.versions|, i);
    }
  }

  /** Records that were ready are the only ones a state in between can still find ready. */
  lemma {:induction false} ReadyInBetween(site: Site, s0: Db, s: Db, m: nat, i: nat)
    requires WellFormed(site) && Between(site, s0, s, m) && i < |site.versions|
    ensures IsReady(site, s, i) <==> IsReady(site, s0, i) && s.uris[i] == s0.uris[i]
    ensures IsReady(site, s, i) ==> LegacyObject(site, s, i) == LegacyObject(site, s0, i)
  {
    hide Classify, Copied, WellFormed;
    assert UriMoved(site, s0, s, m, i);
    JudgedAsAtStart(site, s0, s, m, i);
    if s.uris[i] == TargetUri(site, i) {
      MovedIsCurrent(site, i, s.objects);
      MovedIsCurrent(site, i, s0.objects);
    }
    if IsReady(site, s, i) {
      LegacyObjectKept(site, s0, s, m, i);
    }
  }

  lemma {:induction false} LegacyObjectKept(site: Site, s0: Db, s: Db, m: nat, i: nat)
    requires Between(site, s0, s, m) && i < |site.versions| && IsReady(site, s0, i) && IsReady(site, s, i)
    requires s.uris[i] == s0.uris[i]
    ensures LegacyObject(site, s, i) == LegacyObject(site, s0, i)
  {
    hide Classify, Copied, UriMoved;
  }

  lemma {:induction false} BetweenComposes(site: Site, s0: Db, s: Db, s': Db, n: nat)
    requires WellFormed(site) && Between(site, s0, s, n) && Between(site, s, s', n)
    ensures Between(site, s0, s', n)
  {
    hide IsReady, Target, TargetUri, LegacyObject, CopyOf, WellFormed;
    forall key | key in s'.objects && key !in s0.objects ensures Copied(site, s0, n, key, s'.objects[key]) {
      if key !in s.objects {
        var i :| CopiedFor(site, s, n, key, s'.objects[key], i);
        ReadyInBetween(site, s0, s, n, i);
        assert CopiedFor(site, s0, n, key, s'.objects[key], i);
      }
    }
    forall i | 0 <= i < |s'.uris| ensures UriMoved(site, s0, s', n, i) {
      assert UriMoved(site, s0, s, n, i) && UriMoved(site, s, s', n, i);
      ReadyInBetween(site, s0, s, n, i);
    }
  }

  /** Convergence: whatever a stopped or overlapped pass has done so far, completing one full pass
      from there gives what one uninterrupted pass gives. */
  lemma {:induction false} PassCompletes(site: Site, s0: Db, s: Db, s': Db, whole: Db)
    requires WellFormed(site) && Between(site, s0, s, |site.versions|)
    requires Migrated(site, s, s', |site.versions|) && Migrated(site, s0, whole, |site.versions|)
    ensures s' == whole
  {
    hide IsReady, Target, TargetUri, LegacyObject, CopyOf, WellFormed, Copied, UriMoved;
    var n := |site.versions|;
    BetweenComposes(site, s0, s, s', n);
    forall i | 0 <= i < n && IsReady(site, s0, i) ensures s'.uris[i] == TargetUri(site, i) {
      MovedEitherWay(site, s0, s, s', i);
    }
    MigratedUnique(site, s0, s', whole);
  }

  lemma {:induction false} MovedEitherWay(site: Site, s0: Db, s: Db, s': Db, i: nat)
    requires WellFormed(site) && Between(site, s0, s, |site.versions|) && Migrated(site, s, s', |site.versions|)
    requires i < |site.versions| && IsReady(site, s0, i)
    ensures s'.uris[i] == TargetUri(site, i)
  {
    hide IsReady, Target, TargetUri, LegacyObject, CopyOf, WellFormed, Copied;
    ReadyInBetween(site, s0, s, |site.versions|, i);
    assert UriMoved(site, s0, s, |site.versions|, i) && UriMoved(site, s, s', |site.versions|, i);
  }

  /** After a complete pass no record is ready, so a further pass changes nothing. */
  lemma {:induction false} NothingLeftToDo(site: Site, s0: Db, s: Db, s': Db)
    requires WellFormed(site) && Migrated(site, s0, s, |site.versions|) && Migrated(site, s, s', |site.versions|)
    ensures s' == s && forall i | 0 <= i < |site.versions| :: !IsReady(site, s, i)
  {
    hide IsReady, Target, TargetUri, LegacyObject, CopyOf, WellFormed, Copied, UriMoved;
    forall i | 0 <= i < |site.versions| ensures !IsReady(site, s, i) {
      ReadyInBetween(site, s0, s, |site.versions|, i);
      if IsReady(site, s0, i) && s.uris[i] == s0.uris[i] {
        MovedIsNotReady(site, s0, i);
      }
    }
    assert Migrated(site, s, s, |site.versions|) by {
      BetweenStart(site, s);
      BetweenMore(site, s, s, 0, |site.versions|);
    }
    MigratedUnique(site, s, s, s');
  }

  lemma {:induction false} MovedIsNotReady(site: Site, s: Db, i: nat)
    requires WellFormed(site) && i < |site.versions| == |s.uris| && s.uris[i] == TargetUri(site, i)
    ensures !IsReady(site, s, i)
  {
    hide Classify, WellFormed;
    MovedIsCurrent(site, i, s.objects);
  }

  /** What a moved record's new URI reads back in its own tenant, at any moment of any passes: the
      bytes of the legacy object, which is still there, exactly unless other bytes had been under the
      new key from the start. */
  lemma {:induction false} MeaningPreserved(site: Site, s0: Db, s: Db, m: nat, i: nat)
    requires WellFormed(site) && Between(site, s0, s, m)
    requires i < |site.versions| && IsReady(site, s0, i) && s.uris[i] == TargetUri(site, i)
    ensures
      var key := Judge(site, s0.objects, site.versions[i], s0.uris[i]).key;
      var legacy := LegacyObject(site, s0, i);
      var target := Target(site, i);
      var read := ReadBack(site.sha, s.objects, site.bucket, site.tenant, s.uris[i]);
      && key in s.objects && s.objects[key] == legacy
      && site.sha(legacy.data) == site.versions[i].checksum
      && (read == Ok(legacy.data) <==> target in s0.objects ==> s0.objects[target].data == legacy.data)
      && (read == Err(INTEGRITY)
          <==> target in s0.objects && site.sha(s0.objects[target].data) != site.sha(legacy.data))
  {
    hide Classify, WellFormed, Copied, ReadBack, TargetUri;
    assert UriMoved(site, s0, s, m, i);
    if s0.uris[i] == TargetUri(site, i) {
      MovedIsNotReady(site, s0, i);
    }
    if Target(site, i) !in s0.objects {
      CopiedIs(site, s0, s, m, i);
    }
    ReadMoved(site, s.objects, i);
  }

  lemma {:induction false} ReadMoved(site: Site, objects: Objects, i: nat)
    requires WellFormed(site) && i < |site.versions| && |site.versions[i].checksum| == CHECKSUM_LENGTH
    ensures ReadBack(site.sha, objects, site.bucket, site.tenant, TargetUri(site, i))
         == if Target(site, i) !in objects then Err(UNCLASSIFIED)
            else if site.sha(objects[Target(site, i)].data) != site.versions[i].checksum then Err(INTEGRITY)
            else Ok(objects[Target(site, i)].data)
  {
    hide ReadBack;
    ReadBackExactly(site.sha, objects, site.bucket, site.tenant, site.tenant, site.versions[i]);
  }
}
