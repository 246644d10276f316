/** What the verdicts and the counters of a migration pass say about the records, in terms of their URIs
    and of the objects there (apps/rawstore/migration.py). */
module Counters {
  import opened Prelude
  import opened Keys
  import opened RawStore
  import opened Migration
  import opened MigrationPass

  // ---- verdicts -------------------------------------------------------------------------------

  predicate AtTenantKey(site: Site, v: Version, uri: string) {
    uri == Uri(site.bucket, PrefixedKey(site.tenant, v))
  }

  predicate AtSchemaKey(site: Site, v: Version, uri: string) {
    uri == Uri(site.bucket, PrefixedKey(site.schema, v)) && site.schema != site.tenant
  }

  predicate AtPlainKey(site: Site, v: Version, uri: string) {
    uri == Uri(site.bucket, LogicalKey(v))
  }

  /** The legacy key a record is stored under, if its URI is one of the two legacy forms. */
  function LegacyKey(site: Site, v: Version, uri: string): Option<string> {
    if AtSchemaKey(site, v, uri) then Some(PrefixedKey(site.schema, v))
    else if AtPlainKey(site, v, uri) then Some(LogicalKey(v))
    else None
  }

  predicate PlainSite(site: Site, v: Version) {
    site.bucket != "" && Plain(site.bucket) && Plain(site.tenant) && Plain(site.schema) && PlainVersion(v)
  }

  lemma {:induction false} KeysNotEmpty(site: Site, v: Version)
    ensures PrefixedKey(site.tenant, v) != "" && PrefixedKey(site.schema, v) != "" && LogicalKey(v) != ""
  {
    assert '/' in PrefixedKey(site.tenant, v) && '/' in PrefixedKey(site.schema, v);
    assert LogicalKey(v)[|v.pipeline|] == '/';
  }

  /** The generation of a URI: it is one of the three printed forms of the record's key, or none. */
  lemma {:induction false} ClassifiedExactly(site: Site, v: Version, uri: string)
    requires PlainSite(site, v)
    ensures Classify(site, v, uri).Current? <==> AtTenantKey(site, v, uri)
    ensures Classify(site, v, uri).SchemaPrefixed? <==> AtSchemaKey(site, v, uri)
    ensures Classify(site, v, uri).Unprefixed? <==> AtPlainKey(site, v, uri)
    ensures HasLegacyKey(Classify(site, v, uri)) ==> LegacyKey(site, v, uri) == Some(Classify(site, v, uri).key)
  {
    hide ParseUri, Uri, PrefixedKey, LogicalKey;
    KeysNotEmpty(site, v);
    ParseUriExact(site.bucket, uri, PrefixedKey(site.tenant, v));
    ParseUriExact(site.bucket, uri, PrefixedKey(site.schema, v));
    ParseUriExact(site.bucket, uri, LogicalKey(v));
    PrefixedIsNotLogical(site.tenant, v, v);
    PrefixedIsNotLogical(site.schema, v, v);
    KeyInjective(site.tenant, v, site.schema, v);
  }

  /** Already migrated: the URI is the tenant's own. Missing: it is a legacy one and nothing is there.
      Ready: what is there has the record's checksum. Conflict: it has another, or the URI is none of the
      three. */
  lemma {:induction false} JudgedExactly(site: Site, objects: Objects, v: Version, uri: string)
    requires PlainSite(site, v)
    ensures
      var verdict, legacy := Judge(site, objects, v, uri), LegacyKey(site, v, uri);
      && (verdict.AlreadyMigrated? <==> AtTenantKey(site, v, uri))
      && (verdict.Missing? <==> legacy.Some? && legacy.value !in objects)
      && (verdict.Ready? <==>
            legacy.Some? && legacy.value in objects && site.sha(objects[legacy.value].data) == v.checksum)
      && (verdict.Ready? ==> verdict.key == legacy.value)
      && (verdict.Conflict? <==>
            || (legacy.Some? && legacy.value in objects && site.sha(objects[legacy.value].data) != v.checksum)
            || (legacy.None? && !AtTenantKey(site, v, uri)))
  {
    hide Classify, Uri, PrefixedKey, LogicalKey;
    ClassifiedExactly(site, v, uri);
    KeysDiffer(site, v, uri);
  }

  lemma {:induction false} KeysDiffer(site: Site, v: Version, uri: string)
    requires PlainSite(site, v)
    ensures AtTenantKey(site, v, uri) ==> LegacyKey(site, v, uri).None?
  {
    hide Classify, Uri, PrefixedKey, LogicalKey;
    ClassifiedExactly(site, v, uri);
  }

  // ---- counters -------------------------------------------------------------------------------

  /** How many of the first `n` numbers have the property. */
  ghost function Count(has: nat -> bool, n: nat): nat {
    |set i: nat | i < n && has(i)|
  }

  lemma {:induction false} CountMore(has: nat -> bool, n: nat)
    ensures Count(has, n + 1) == Count(has, n) + if has(n) then 1 else 0
  {
    var small := set i: nat | i < n && has(i);
    var large := set i: nat | i < n + 1 && has(i);
    assert large == if has(n) then small + {n} else small;
  }

  lemma {:induction false} CountNone(has: nat -> bool)
    ensures Count(has, 0) == 0
  {
    assert (set i: nat | i < 0 && has(i)) == {};
  }

  /** The kinds of records the counters count, by how a record was at the start. */
  datatype Kind = AtTarget | AtPlain | AtSchema | Absent | Mismatched | Movable

  predicate IsKind(site: Site, s0: Db, kind: Kind, i: nat)
    requires |site.versions| == |s0.uris|
  {
    i < |site.versions|
    && var v, uri := site.versions[i], s0.uris[i];
       var legacy := LegacyKey(site, v, uri);
       match kind
       case AtTarget => AtTenantKey(site, v, uri)
       case AtPlain => AtPlainKey(site, v, uri) && legacy.value in s0.objects
       case AtSchema => AtSchemaKey(site, v, uri) && legacy.value in s0.objects
       case Absent => legacy.Some? && legacy.value !in s0.objects
       case Mismatched =>
         if legacy.Some? then legacy.value in s0.objects && site.sha(s0.objects[legacy.value].data) != v.checksum
         else !AtTenantKey(site, v, uri)
       case Movable =>
         legacy.Some? && legacy.value in s0.objects && site.sha(s0.objects[legacy.value].data) == v.checksum
  }

  ghost function Of(site: Site, s0: Db, kind: Kind, n: nat): nat
    requires |site.versions| == |s0.uris|
  {
    Count((i: nat) => IsKind(site, s0, kind, i), n)
  }

  /** Each counter counts the records of its kind among those inspected; a dry run migrates none, a real
      pass those that were ready. */
  lemma {:induction false} CountersExactly(site: Site, s0: Db, n: nat, dryRun: bool)
    requires WellFormed(site) && n <= |site.versions| == |s0.uris|
    ensures var c := Finished(Tally(site, s0, n, dryRun));
      && c.inspected == n
      && c.alreadyMigrated == Of(site, s0, AtTarget, n)
      && c.legacyUnprefixed == Of(site, s0, AtPlain, n)
      && c.schemaPrefixed == Of(site, s0, AtSchema, n)
      && c.missing == Of(site, s0, Absent, n)
      && c.conflicts == Of(site, s0, Mismatched, n)
      && c.ready == Of(site, s0, Movable, n)
      && c.migrated == (if dryRun then 0 else c.ready)
      && c.skipped == Of(site, s0, AtTarget, n) + Of(site, s0, Absent, n) + Of(site, s0, Mismatched, n)
  {
    hide Tally, Of, WellFormed;
    TallyExactly(site, s0, n, dryRun);
  }

  /** The counters of a pass that goes on. */
  ghost predicate Exact(site: Site, s0: Db, n: nat, dryRun: bool, c: Counts)
    requires |site.versions| == |s0.uris|
  {
    && c.inspected == n
    && c.alreadyMigrated == Of(site, s0, AtTarget, n)
    && c.legacyUnprefixed == Of(site, s0, AtPlain, n)
    && c.schemaPrefixed == Of(site, s0, AtSchema, n)
    && c.missing == Of(site, s0, Absent, n)
    && c.conflicts == Of(site, s0, Mismatched, n)
    && c.ready == Of(site, s0, Movable, n)
    && c.migrated == (if dryRun then 0 else c.ready)
  }

  lemma {:induction false} TallyExactly(site: Site, s0: Db, n: nat, dryRun: bool)
    requires WellFormed(site) && n <= |site.versions| == |s0.uris|
    ensures Exact(site, s0, n, dryRun, Tally(site, s0, n, dryRun))
  {
    hide Judge, Classify, LegacyKey, WellFormed, IsKind, Of, Counted;
    if n == 0 {
      NoneYet(site, s0);
    } else {
      TallyExactly(site, s0, n - 1, dryRun);
      CountedExactly(site, s0, n - 1, dryRun, Tally(site, s0, n - 1, dryRun));
    }
  }

  lemma {:induction false} CountedExactly(site: Site, s0: Db, i: nat, dryRun: bool, c: Counts)
    requires WellFormed(site) && i < |site.versions| == |s0.uris| && Exact(site, s0, i, dryRun, c)
    ensures
      var v, uri := site.versions[i], s0.uris[i];
      Exact(site, s0, i + 1, dryRun,
            Counted(c, v, Classify(site, v, uri), Judge(site, s0.objects, v, uri), dryRun))
  {
    hide Judge, Classify, LegacyKey, WellFormed, IsKind, Of;
    OneMore(site, s0, i);
    KindsOf(site, s0, i);
  }

  lemma {:induction false} NoneYet(site: Site, s0: Db)
    requires |site.versions| == |s0.uris|
    ensures forall kind :: Of(site, s0, kind, 0) == 0
  {
    forall kind ensures Of(site, s0, kind, 0) == 0 {
      CountNone((i: nat) => IsKind(site, s0, kind, i));
    }
  }

  lemma {:induction false} OneMore(site: Site, s0: Db, n: nat)
    requires |site.versions| == |s0.uris|
    ensures forall kind ::
      Of(site, s0, kind, n + 1) == Of(site, s0, kind, n) + if IsKind(site, s0, kind, n) then 1 else 0
  {
    forall kind ensures Of(site, s0, kind, n + 1)
         == Of(site, s0, kind, n) + if IsKind(site, s0, kind, n) then 1 else 0 {
      CountMore((i: nat) => IsKind(site, s0, kind, i), n);
    }
  }

  /** The verdict on a record, and its generation, as kinds. */
  lemma {:induction false} KindsOf(site: Site, s0: Db, i: nat)
    requires WellFormed(site) && i < |site.versions| == |s0.uris|
    ensures
      var v, uri := site.versions[i], s0.uris[i];
      var verdict, g := Judge(site, s0.objects, v, uri), Classify(site, v, uri);
      && (verdict.AlreadyMigrated? <==> IsKind(site, s0, AtTarget, i))
      && (g.Unprefixed? && !verdict.Missing? <==> IsKind(site, s0, AtPlain, i))
      && (g.SchemaPrefixed? && !verdict.Missing? <==> IsKind(site, s0, AtSchema, i))
      && (verdict.Missing? <==> IsKind(site, s0, Absent, i))
      && (verdict.Conflict? <==> IsKind(site, s0, Mismatched, i))
      && (verdict.Ready? <==> IsKind(site, s0, Movable, i))
  {
    hide Judge, Classify, Uri, PrefixedKey, LogicalKey;
    ClassifiedExactly(site, site.versions[i], s0.uris[i]);
    JudgedExactly(site, s0.objects, site.versions[i], s0.uris[i]);
    KeysDiffer(site, site.versions[i], s0.uris[i]);
  }

  // ---- the problem records --------------------------------------------------------------------

  /** The problem records among the first `n`, in order, with what an operator gets to see of each: run,
      sequence number, the first twelve characters of the checksum, and what is wrong. */
  function ProblemsOf(site: Site, s0: Db, n: nat): seq<Problem>
    requires n <= |site.versions| == |s0.uris|
  {
    if n == 0 then []
    else
      var v := site.versions[n - 1];
      var prefix := v.checksum[..if |v.checksum| < 12 then |v.checksum| else 12];
      ProblemsOf(site, s0, n - 1)
      + (if IsKind(site, s0, Absent, n - 1) then [Problem(v.run, v.sequence, prefix, MissingObject)]
         else if IsKind(site, s0, Mismatched, n - 1) then [Problem(v.run, v.sequence, prefix, ChecksumConflict)]
         else [])
  }

  function Front(problems: seq<Problem>): seq<Problem> {
    problems[..if |problems| < 200 then |problems| else 200]
  }

  lemma {:induction false} FrontMore(problems: seq<Problem>, p: Problem)
    ensures Front(problems + [p]) == Sampled(Front(problems), p)
  {
  }

  /** An operator sees the first 200 problem records. */
  lemma {:induction false} SampleExactly(site: Site, s0: Db, n: nat, dryRun: bool)
    requires WellFormed(site) && n <= |site.versions| == |s0.uris|
    ensures
      var all := ProblemsOf(site, s0, n);
      Tally(site, s0, n, dryRun).problems == all[..if |all| < 200 then |all| else 200]
  {
    hide Judge, Classify, LegacyKey, WellFormed, IsKind, Sampled, SafeProblemEntry;
    if n > 0 {
      var v, before := site.versions[n - 1], ProblemsOf(site, s0, n - 1);
      SampleExactly(site, s0, n - 1, dryRun);
      KindsOf(site, s0, n - 1);
      EntryIs(v, MissingObject);
      EntryIs(v, ChecksumConflict);
      FrontMore(before, SafeProblemEntry(v, MissingObject));
      FrontMore(before, SafeProblemEntry(v, ChecksumConflict));
      assert before + [] == before;
    }
  }

  lemma {:induction false} EntryIs(v: Version, category: ProblemCategory)
    ensures SafeProblemEntry(v, category)
         == Problem(v.run, v.sequence, v.checksum[..if |v.checksum| < 12 then |v.checksum| else 12], category)
  {
    assert |v.checksum| <= 12 ==> v.checksum[..|v.checksum|] == v.checksum;
  }
}
