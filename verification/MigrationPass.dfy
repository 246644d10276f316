/** One pass over a tenant's raw payload records (`run_raw_payload_migration` in
    apps/rawstore/migration.py), with nobody else at work. */
module MigrationPass {
  import opened Prelude
  import opened Keys
  import opened RawStore
  import opened Migration

  const DEFAULT_BATCH_SIZE: nat := 100
  const MAX_SAMPLE_PROBLEM_RECORDS: nat := 200

  datatype ProblemCategory = MissingObject | ChecksumConflict

  /** What an operator gets to see of a problem record. */
  datatype Problem = Problem(run: string, sequence: nat, checksumPrefix: string, category: ProblemCategory)

  function SafeProblemEntry(v: Version, category: ProblemCategory): Problem {
    Problem(v.run, v.sequence, if |v.checksum| > 12 then v.checksum[..12] else v.checksum, category)
  }

  datatype Counts = Counts(
    inspected: nat,
    alreadyMigrated: nat,
    legacyUnprefixed: nat,
    schemaPrefixed: nat,
    missing: nat,
    conflicts: nat,
    ready: nat,
    migrated: nat,
    skipped: nat,
    problems: seq<Problem>)

  const ZERO := Counts(0, 0, 0, 0, 0, 0, 0, 0, 0, [])

  function Sampled(problems: seq<Problem>, p: Problem): seq<Problem> {
    if |problems| < MAX_SAMPLE_PROBLEM_RECORDS then problems + [p] else problems
  }

  /** The counts after one more record of the given generation and verdict. */
  function Counted(c: Counts, v: Version, g: Generation, verdict: Verdict, dryRun: bool): Counts {
    var seen := c.(inspected := c.inspected + 1,
                   legacyUnprefixed := c.legacyUnprefixed + if g.Unprefixed? && !verdict.Missing? then 1 else 0,
                   schemaPrefixed := c.schemaPrefixed + if g.SchemaPrefixed? && !verdict.Missing? then 1 else 0);
    match verdict
    case AlreadyMigrated => seen.(alreadyMigrated := c.alreadyMigrated + 1)
    case Missing => seen.(missing := c.missing + 1, problems := Sampled(c.problems, SafeProblemEntry(v, MissingObject)))
    case Conflict => seen.(conflicts := c.conflicts + 1,
        problems := Sampled(c.problems, SafeProblemEntry(v, ChecksumConflict)))
    case Ready(_) => seen.(ready := c.ready + 1, migrated := c.migrated + if dryRun then 0 else 1)
  }

  /** The counts over the first `n` records, each judged as it was before the pass. */
  function Tally(site: Site, s0: Db, n: nat, dryRun: bool): Counts
    requires n <= |site.versions| == |s0.uris|
  {
    if n == 0 then ZERO
    else
      var v := site.versions[n - 1];
      Counted(Tally(site, s0, n - 1, dryRun), v, Classify(site, v, s0.uris[n - 1]),
              Judge(site, s0.objects, v, s0.uris[n - 1]), dryRun)
  }

  function Finished(c: Counts): Counts {
    c.(skipped := c.alreadyMigrated + c.missing + c.conflicts)
  }

  // ---- accounting -----------------------------------------------------------------------------

  /** How the counters of a pass over `n` records add up. */
  predicate Balanced(c: Counts, n: nat, dryRun: bool) {
    && c.inspected == n == c.alreadyMigrated + c.missing + c.conflicts + c.ready
    && c.migrated == (if dryRun then 0 else c.ready)
    && c.ready <= c.legacyUnprefixed + c.schemaPrefixed <= c.ready + c.conflicts
    && |c.problems| == (if c.missing + c.conflicts < MAX_SAMPLE_PROBLEM_RECORDS then c.missing + c.conflicts
                        else MAX_SAMPLE_PROBLEM_RECORDS)
  }

  lemma {:induction false} CountedBalanced(c: Counts, n: nat, v: Version, g: Generation, verdict: Verdict, dryRun: bool)
    requires Balanced(c, n, dryRun)
    requires verdict.AlreadyMigrated? <==> g.Current?
    requires verdict.Ready? ==> HasLegacyKey(g)
    ensures Balanced(Counted(c, v, g, verdict, dryRun), n + 1, dryRun)
  {
  }

  lemma {:induction false} ZeroBalanced(dryRun: bool)
    ensures Balanced(ZERO, 0, dryRun)
  {
  }

  lemma {:induction false} TallyBalanced(site: Site, s0: Db, n: nat, dryRun: bool)
    requires n <= |site.versions| == |s0.uris|
    ensures Balanced(Tally(site, s0, n, dryRun), n, dryRun)
  {
    hide Classify, Counted, Balanced, Judge;
    if n == 0 {
      ZeroBalanced(dryRun);
    } else {
      var v := site.versions[n - 1];
      TallyBalanced(site, s0, n - 1, dryRun);
      JudgeShape(site, s0.objects, v, s0.uris[n - 1]);
      CountedBalanced(Tally(site, s0, n - 1, dryRun), n - 1, v, Classify(site, v, s0.uris[n - 1]),
                      Judge(site, s0.objects, v, s0.uris[n - 1]), dryRun);
    }
  }

  lemma {:induction false} JudgeShape(site: Site, objects: Objects, v: Version, uri: string)
    ensures Judge(site, objects, v, uri).AlreadyMigrated? <==> Classify(site, v, uri).Current?
    ensures Judge(site, objects, v, uri).Ready? ==> HasLegacyKey(Classify(site, v, uri))
  {
    hide Classify;
  }

  /** Every record is in one of four classes; a real pass migrates all that were ready and a dry run
      none; at most 200 problem records are kept. */
  lemma {:induction false} Accounting(site: Site, s0: Db, n: nat, dryRun: bool)
    requires n <= |site.versions| == |s0.uris|
    ensures var c := Finished(Tally(site, s0, n, dryRun));
      && c.inspected == n == c.alreadyMigrated + c.missing + c.conflicts + c.ready == c.skipped + c.ready
      && c.migrated == (if dryRun then 0 else c.ready)
      && c.ready <= c.legacyUnprefixed + c.schemaPrefixed <= c.ready + c.conflicts
      && |c.problems| == (if c.missing + c.conflicts < MAX_SAMPLE_PROBLEM_RECORDS then c.missing + c.conflicts
                          else MAX_SAMPLE_PROBLEM_RECORDS)
  {
    hide Tally;
    TallyBalanced(site, s0, n, dryRun);
  }

  /** `ready` is zero exactly when no record is ready. */
  lemma {:induction false} ReadyCount(site: Site, s0: Db, n: nat, dryRun: bool)
    requires n <= |site.versions| == |s0.uris|
    ensures Tally(site, s0, n, dryRun).ready == 0 <==> forall i | 0 <= i < n :: !IsReady(site, s0, i)
  {
    hide Classify, Judge;
    if n > 0 {
      ReadyCount(site, s0, n - 1, dryRun);
      assert IsReady(site, s0, n - 1) <==> Judge(site, s0.objects, site.versions[n - 1], s0.uris[n - 1]).Ready?;
    }
  }

  /** Nothing is missing or in conflict exactly when every record is either migrated or ready. */
  lemma {:induction false} CleanCount(site: Site, s0: Db, n: nat, dryRun: bool)
    requires n <= |site.versions| == |s0.uris|
    ensures Tally(site, s0, n, dryRun).missing == Tally(site, s0, n, dryRun).conflicts == 0
       <==> forall i | 0 <= i < n ::
           IsReady(site, s0, i) || Judge(site, s0.objects, site.versions[i], s0.uris[i]).AlreadyMigrated?
  {
    hide Classify, Judge;
    if n > 0 {
      CleanCount(site, s0, n - 1, dryRun);
      assert IsReady(site, s0, n - 1) <==> Judge(site, s0.objects, site.versions[n - 1], s0.uris[n - 1]).Ready?;
    }
  }

  /** A pass over records that are all done reports that it migrated none. */
  lemma {:induction false} SecondPassMigratesNone(site: Site, s0: Db, s: Db)
    requires WellFormed(site) && Migrated(site, s0, s, |site.versions|)
    ensures Tally(site, s, |site.versions|, false).ready == Tally(site, s, |site.versions|, false).migrated == 0
  {
    hide Tally, IsReady, Judge;
    forall i | 0 <= i < |site.versions| ensures !IsReady(site, s, i) {
      NotReadyAgain(site, s0, s, i);
    }
    ReadyCount(site, s, |site.versions|, false);
    Accounting(site, s, |site.versions|, false);
  }

  lemma {:induction false} NotReadyAgain(site: Site, s0: Db, s: Db, i: nat)
    requires WellFormed(site) && Migrated(site, s0, s, |site.versions|) && i < |site.versions|
    ensures !IsReady(site, s, i)
  {
    hide IsReady, Target, TargetUri, LegacyObject, CopyOf, WellFormed, Copied, UriMoved;
    ReadyInBetween(site, s0, s, |site.versions|, i);
    if IsReady(site, s0, i) && s.uris[i] == s0.uris[i] {
      MovedIsNotReady(site, s0, i);
    }
  }

  // ---- the pass -------------------------------------------------------------------------------

  /** The counters of a running pass. */
  class InspectionResult {
    var counts: Counts

    constructor ()
      ensures counts == ZERO
    {
      counts := ZERO;
    }

    method Inspect(v: Version, g: Generation, verdict: Verdict, dryRun: bool)
      requires verdict.AlreadyMigrated? ==> g.Current?
      modifies this
      ensures counts == Counted(old(counts), v, g, verdict, dryRun)
    {
      counts := counts.(inspected := counts.inspected + 1);
      if verdict.AlreadyMigrated? {
        counts := counts.(alreadyMigrated := counts.alreadyMigrated + 1);
      } else if verdict.Missing? {
        counts := counts.(missing := counts.missing + 1);
        AddProblem(SafeProblemEntry(v, MissingObject));
      } else {
        if g.Unprefixed? {
          counts := counts.(legacyUnprefixed := counts.legacyUnprefixed + 1);
        } else if g.SchemaPrefixed? {
          counts := counts.(schemaPrefixed := counts.schemaPrefixed + 1);
        }
        if verdict.Conflict? {
          counts := counts.(conflicts := counts.conflicts + 1);
          AddProblem(SafeProblemEntry(v, ChecksumConflict));
        } else {
          counts := counts.(ready := counts.ready + 1);
          if !dryRun {
            counts := counts.(migrated := counts.migrated + 1);
          }
        }
      }
    }

    method AddProblem(p: Problem)
      modifies this
      ensures counts == old(counts).(problems := Sampled(old(counts).problems, p))
    {
      if |counts.problems| < MAX_SAMPLE_PROBLEM_RECORDS {
        counts := counts.(problems := counts.problems + [p]);
      }
    }
  }

  /** The `storage_uri` column of the records, in the order of their ids. */
  class UriColumn {
    var uris: seq<string>

    constructor (uris: seq<string>)
      ensures this.uris == uris
    {
      this.uris := uris;
    }
  }

  /** The service the requests for one record get. */
  datatype RecordService = RecordService(lookup: HeadService, download: Service, put: Backend)

  predicate Answers(service: RecordService) {
    service.lookup.Served? && service.download.Served? && service.put.write.Served?
        && service.put.verify == Served(true)
  }

  /** Where a pass stands after `m` records. */
  ghost predicate Standing(site: Site, s0: Db, s: Db, m: nat, dryRun: bool) {
    |site.versions| == |s0.uris| && if dryRun then s == s0 else Migrated(site, s0, s, m)
  }

  ghost function Now(store: PayloadStore, column: UriColumn): Db
    reads store.client, column
  {
    Db(store.client.objects, column.uris)
  }

  lemma {:induction false} StandingBetween(site: Site, s0: Db, s: Db, m: nat, dryRun: bool)
    requires Standing(site, s0, s, m, dryRun) && m <= |site.versions|
    ensures Between(site, s0, s, m)
  {
    if dryRun {
      BetweenStart(site, s0);
      BetweenMore(site, s0, s0, 0, m);
    }
  }

  lemma {:induction false} PassOver(site: Site, s0: Db, s: Db, i: nat, dryRun: bool)
    requires i < |site.versions| && Standing(site, s0, s, i, dryRun) && !IsReady(site, s0, i)
    ensures Standing(site, s0, s, i + 1, dryRun) && !Blocked(site, s0, i)
  {
    hide IsReady, Copied, UriMoved;
    if !dryRun {
      BetweenMore(site, s0, s, i, i + 1);
    }
  }

  lemma {:induction false} CopyAdded(site: Site, s0: Db, s: Db, s': Db, i: nat)
    requires WellFormed(site) && Migrated(site, s0, s, i) && i < |site.versions| && IsReady(site, s0, i)
    requires AddsAtMost(s.objects, s'.objects, Target(site, i), CopyOf(LegacyObject(site, s0, i))) && s'.uris == s.uris
    ensures Between(site, s0, s', i + 1)
    ensures Blocked(site, s0, i)
       <==> Target(site, i) in s.objects
            && |s.objects[Target(site, i)].data| != |CopyOf(LegacyObject(site, s0, i)).data|
  {
    hide IsReady, Target, LegacyObject, Copied, UriMoved, WellFormed;
    BetweenMore(site, s0, s, i, i + 1);
    if Target(site, i) !in s0.objects {
      if Target(site, i) in s.objects {
        CopiedIs(site, s0, s, i + 1, i);
      }
      if s'.objects != s.objects {
        CopyKeeps(site, s0, s, i + 1, i);
      }
    }
  }

  lemma {:induction false} Moved(site: Site, s0: Db, s: Db, s': Db, i: nat)
    requires Migrated(site, s0, s, i) && i < |site.versions| && IsReady(site, s0, i)
    requires Between(site, s0, s', i + 1) && s'.uris == s.uris && Target(site, i) in s'.objects
    ensures Migrated(site, s0, s'.(uris := s'.uris[i := TargetUri(site, i)]), i + 1)
  {
    hide IsReady, Target, TargetUri, Copied, UriMoved;
    SaveKeeps(site, s0, s', i + 1, i);
  }

  /** `_verify_and_maybe_migrate` and the save of the new URI, for a record whose object exists. */
  method VerifyAndMaybeMigrate(site: Site, store: PayloadStore, column: UriColumn, i: nat, key: string, dryRun: bool,
      service: RecordService, ghost s0: Db)
    returns (r: Result<bool, Error>)
    requires WellFormed(site) && store.bucket == site.bucket && store.tenant == site.tenant
    requires i < |site.versions| == |column.uris| && Standing(site, s0, Now(store, column), i, dryRun)
    requires HasLegacyKey(Classify(site, site.versions[i], s0.uris[i]))
    requires Classify(site, site.versions[i], s0.uris[i]).key == key
    requires key in s0.objects && key in store.client.objects && store.client.objects[key] == s0.objects[key]
    modifies store.client, column
    ensures r.Ok? ==> r.value == IsReady(site, s0, i) && Standing(site, s0, Now(store, column), i + 1, dryRun)
    ensures r.Err? ==> if dryRun then Now(store, column) == s0 else Between(site, s0, Now(store, column), i + 1)
    ensures |column.uris| == |site.versions|
    ensures Answers(service) ==> if !dryRun && Blocked(site, s0, i) then r == Err(INTEGRITY) else r.Ok?
    // What is copied is the legacy object's bytes and content type, with a default for a missing one.
    ensures r == Ok(true) && !dryRun && Target(site, i) !in old(store.client.objects) ==>
      Target(site, i) in store.client.objects
      && var copy, legacy := store.client.objects[Target(site, i)], s0.objects[key];
         && copy.data == legacy.data
         && copy.contentType == (if legacy.contentType == "" then "application/json" else legacy.contentType)
  {
    hide Classify, PrefixedKey, LogicalKey, Copied, UriMoved, WellFormed, Uri, Between, Preserves;
    ghost var s := Now(store, column);
    if service.download.Failing? {
      if !dryRun { StandingBetween(site, s0, s, i, dryRun); BetweenMore(site, s0, s, i, i + 1); }
      return Err(UNCLASSIFIED);
    }
    var obj := store.client.objects[key];
    if site.sha(obj.data) != site.versions[i].checksum {
      PassOver(site, s0, s, i, dryRun);
      return Ok(false);
    }
    if dryRun {
      return Ok(true);
    }
    var contentType := if obj.contentType == "" then DEFAULT_CONTENT_TYPE else obj.contentType;
    var put := store.Put(LogicalKey(site.versions[i]), obj.data, contentType, service.put);
    assert store.TenantKey(LogicalKey(site.versions[i])) == Target(site, i) by { TargetIsTenantKey(site, store, i); }
    CopyAdded(site, s0, s, Now(store, column), i);
    if put.Err? {
      return Err(put.error);
    }
    Moved(site, s0, s, Now(store, column), i);
    column.uris := column.uris[i := put.value];
    return Ok(true);
  }

  lemma {:induction false} TargetIsTenantKey(site: Site, store: PayloadStore, i: nat)
    requires i < |site.versions| && store.tenant == site.tenant
    ensures store.TenantKey(LogicalKey(site.versions[i])) == Target(site, i)
  {
  }

  /** One record: classify it, look its object up, verify and perhaps migrate it. `uri` is the
      `storage_uri` it had when the pass began. */
  method MigrateRecord(site: Site, store: PayloadStore, column: UriColumn, i: nat, uri: string, dryRun: bool,
      service: RecordService, ghost s0: Db)
    returns (r: Result<Verdict, Error>)
    requires WellFormed(site) && store.bucket == site.bucket && store.tenant == site.tenant
    requires i < |site.versions| == |column.uris| && Standing(site, s0, Now(store, column), i, dryRun)
    requires uri == s0.uris[i]
    modifies store.client, column
    ensures r.Ok? ==>
      r.value == Judge(site, s0.objects, site.versions[i], uri) && Standing(site, s0, Now(store, column), i + 1, dryRun)
    ensures r.Err? ==> if dryRun then Now(store, column) == s0 else Between(site, s0, Now(store, column), i + 1)
    ensures |column.uris| == |site.versions|
    ensures Answers(service) ==> if !dryRun && Blocked(site, s0, i) then r == Err(INTEGRITY) else r.Ok?
  {
    hide Classify, Copied, UriMoved, WellFormed, Preserves, Blocked;
    ghost var s := Now(store, column);
    var g := Classify(site, site.versions[i], uri);
    if !HasLegacyKey(g) {
      PassOver(site, s0, s, i, dryRun);
      return Ok(if g.Current? then AlreadyMigrated else Conflict);
    }
    StandingBetween(site, s0, s, i, dryRun);
    LegacyUntouched(site, s0, s, i, i, uri);
    var found := store.Exists(g.key, service.lookup);
    if found.Err? {
      if !dryRun { BetweenMore(site, s0, s, i, i + 1); }
      return Err(found.error);
    }
    if !found.value {
      PassOver(site, s0, s, i, dryRun);
      return Ok(Missing);
    }
    var verified := VerifyAndMaybeMigrate(site, store, column, i, g.key, dryRun, service, s0);
    if verified.Err? {
      return Err(verified.error);
    }
    return Ok(if verified.value then Ready(g.key) else Conflict);
  }

  /** Where progress is persisted while a pass runs. */
  class ProgressSink {
    var saved: Counts

    constructor (saved: Counts)
      ensures this.saved == saved
    {
      this.saved := saved;
    }
  }

  /** The batches polled before the pass stopped did not ask for a cancel; when it stopped short of
      the last record, the poll of the batch it had just finished did. */
  predicate StoppedBy(cancel: nat -> bool, batchSize: nat, n: nat, total: nat)
    requires batchSize > 0
  {
    && n <= total
    && (forall k | 0 <= k < n / batchSize - 1 :: !cancel(k))
    && (n < total ==> n % batchSize == 0 && n / batchSize > 0 && cancel(n / batchSize - 1))
  }

  lemma {:induction false} FarFromZero(d: int, b: int)
    requires b >= 0
    ensures d >= 1 ==> d * b >= b
    ensures d <= -1 ==> d * b <= -b
  {
    assert d * b == (d - 1) * b + b;
    assert d * b == (d + 1) * b - b;
  }

  /** `i` records make `polls` full batches and `rest` records of the next. */
  predicate Position(i: nat, polls: nat, batchSize: nat, rest: nat) {
    i == polls * batchSize + rest && rest < batchSize
  }

  lemma {:induction false} FirstPosition(batchSize: nat)
    requires batchSize > 0
    ensures Position(0, 0, batchSize, 0)
  {
  }

  lemma {:induction false} NextPosition(i: nat, polls: nat, batchSize: nat, rest: nat)
    requires Position(i, polls, batchSize, rest)
    ensures if rest + 1 >= batchSize then Position(i + 1, polls + 1, batchSize, 0)
        else Position(i + 1, polls, batchSize, rest + 1)
  {
    assert (polls + 1) * batchSize == polls * batchSize + batchSize;
  }

  lemma {:induction false} Quotient(i: nat, polls: nat, batchSize: nat, rest: nat)
    requires Position(i, polls, batchSize, rest)
    ensures i / batchSize == polls && i % batchSize == rest
  {
    var d := i / batchSize - polls;
    assert d * batchSize == (i / batchSize) * batchSize - polls * batchSize;
    FarFromZero(d, batchSize);
  }

  /** Of the polls made so far only the last one found a cancel, and only if the loop is to stop. */
  predicate Polled(cancel: nat -> bool, polls: nat, cancelled: bool) {
    && (forall k | 0 <= k < polls :: !cancel(k) || (cancelled && k == polls - 1))
    && (cancelled ==> polls > 0 && cancel(polls - 1))
  }

  lemma {:induction false} NonePolled(cancel: nat -> bool)
    ensures Polled(cancel, 0, false)
  {
  }

  lemma {:induction false} PolledMore(cancel: nat -> bool, polls: nat)
    requires Polled(cancel, polls, false)
    ensures Polled(cancel, polls + 1, cancel(polls))
  {
  }

  lemma {:induction false} Stopped(cancel: nat -> bool, batchSize: nat, i: nat, total: nat, polls: nat, rest: nat,
      cancelled: bool)
    requires i <= total && (i == total || cancelled) && Position(i, polls, batchSize, rest)
    requires Polled(cancel, polls, cancelled) && (cancelled ==> rest == 0)
    ensures StoppedBy(cancel, batchSize, i, total)
  {
    Quotient(i, polls, batchSize, rest);
  }

  /** The body of the loop: one record, and its count. */
  method InspectRecord(site: Site, store: PayloadStore, column: UriColumn, i: nat, uri: string, dryRun: bool,
      service: RecordService, result: InspectionResult, ghost s0: Db)
    returns (r: Result<(), Error>)
    requires WellFormed(site) && store.bucket == site.bucket && store.tenant == site.tenant
    requires i < |site.versions| == |column.uris| && Standing(site, s0, Now(store, column), i, dryRun)
    requires uri == s0.uris[i] && result.counts == Tally(site, s0, i, dryRun)
    modifies store.client, column, result
    ensures |column.uris| == |site.versions|
    ensures r.Ok? ==>
      Standing(site, s0, Now(store, column), i + 1, dryRun) && result.counts == Tally(site, s0, i + 1, dryRun)
    ensures Between(site, s0, Now(store, column), |site.versions|)
    ensures dryRun ==> Now(store, column) == s0
    ensures Answers(service) ==> if !dryRun && Blocked(site, s0, i) then r == Err(INTEGRITY) else r.Ok?
  {
    hide Copied, UriMoved, WellFormed, Preserves, Blocked, Judge, Counted, Classify, Between, Answers;
    var v := site.versions[i];
    var verdict := MigrateRecord(site, store, column, i, uri, dryRun, service, s0);
    if verdict.Err? {
      if dryRun { StandingBetween(site, s0, s0, i, dryRun); }
      BetweenMore(site, s0, Now(store, column), if dryRun then i else i + 1, |site.versions|);
      return Err(verdict.error);
    }
    JudgeShape(site, s0.objects, v, uri);
    result.Inspect(v, Classify(site, v, uri), verdict.value, dryRun);
    StandingBetween(site, s0, Now(store, column), i + 1, dryRun);
    BetweenMore(site, s0, Now(store, column), i + 1, |site.versions|);
    return Ok(());
  }

  lemma {:induction false} TallyNone(site: Site, s0: Db, dryRun: bool)
    requires |site.versions| == |s0.uris|
    ensures Tally(site, s0, 0, dryRun) == ZERO
  {
  }

  lemma {:induction false} TallyInspected(site: Site, s0: Db, n: nat, dryRun: bool)
    requires n <= |site.versions| == |s0.uris|
    ensures Tally(site, s0, n, dryRun).inspected == n
  {
    hide Tally;
    TallyBalanced(site, s0, n, dryRun);
  }

  /** What the last progress callback saved of a pass that got to record `i`: the counters at the end of
      the last full batch, or nothing. */
  function LastSaved(site: Site, s0: Db, i: nat, batchSize: nat, dryRun: bool, before: Counts): Counts
    requires i <= |site.versions| == |s0.uris| && batchSize > 0
  {
    SavedBefore(site, s0, i - i % batchSize, dryRun, before)
  }

  /** The counters when `full` records fill whole batches. */
  function SavedBefore(site: Site, s0: Db, full: nat, dryRun: bool, before: Counts): Counts
    requires full <= |site.versions| == |s0.uris|
  {
    if full == 0 then before else Tally(site, s0, full, dryRun)
  }

  lemma {:induction false} NothingBlocked(site: Site, s0: Db)
    requires |site.versions| == |s0.uris|
    ensures NoneBlocked(site, s0, 0)
  {
  }

  lemma {:induction false} NoneBlockedMore(site: Site, s0: Db, i: nat)
    requires i < |site.versions| == |s0.uris| && NoneBlocked(site, s0, i)
    ensures !Blocked(site, s0, i) ==> NoneBlocked(site, s0, i + 1)
    ensures Blocked(site, s0, i) ==> !NoneBlocked(site, s0, |site.versions|)
  {
    hide Blocked;
  }

  lemma {:induction false} NothingSaved(site: Site, s0: Db, dryRun: bool, before: Counts)
    requires |site.versions| == |s0.uris|
    ensures SavedBefore(site, s0, 0, dryRun, before) == before
  {
  }

  lemma {:induction false} SavedAfterBatch(site: Site, s0: Db, full: nat, dryRun: bool, before: Counts)
    requires 0 < full <= |site.versions| == |s0.uris|
    ensures SavedBefore(site, s0, full, dryRun, before) == Tally(site, s0, full, dryRun)
  {
  }

  lemma {:induction false} FailedAt(site: Site, s0: Db, i: nat, polls: nat, batchSize: nat, rest: nat, dryRun: bool,
      before: Counts, cancel: nat -> bool)
    requires Position(i, polls, batchSize, rest) && rest <= i <= |site.versions| == |s0.uris|
    requires Polled(cancel, polls, false)
    ensures LastSaved(site, s0, i, batchSize, dryRun, before) == SavedBefore(site, s0, i - rest, dryRun, before)
    ensures NoCancel(cancel, batchSize, i)
  {
    hide SavedBefore;
    Quotient(i, polls, batchSize, rest);
  }

  /** None of the polls made before record `i` asks for a cancel. */
  predicate NoCancel(cancel: nat -> bool, batchSize: nat, i: nat)
    requires batchSize > 0
  {
    forall k | 0 <= k < i / batchSize :: !cancel(k)
  }

  /** The loop over the records, up to its end, a cancel or a failure at record `i`; `rest` records are in
      the batch that is not full. */
  method InspectRecords(site: Site, store: PayloadStore, column: UriColumn, dryRun: bool, batchSize: nat,
      progress: ProgressSink, cancel: nat -> bool, service: nat -> RecordService, result: InspectionResult,
      ghost s0: Db)
    returns (r: Result<(), Error>, i: nat, ghost polls: nat, ghost rest: nat, ghost cancelled: bool)
    requires WellFormed(site) && store.bucket == site.bucket && store.tenant == site.tenant
    requires |column.uris| == |site.versions| && batchSize > 0 && s0 == Now(store, column) && result.counts == ZERO
    modifies store.client, column, progress, result
    ensures |column.uris| == |s0.uris| == |site.versions| && i <= |site.versions|
    ensures Between(site, s0, Now(store, column), |site.versions|)
    ensures dryRun ==> Now(store, column) == s0
    ensures r.Ok? ==>
      && result.counts == Tally(site, s0, i, dryRun) && Standing(site, s0, Now(store, column), i, dryRun)
      && (i == |site.versions| || cancelled) && (cancelled ==> rest == 0)
    ensures Position(i, polls, batchSize, rest) && rest <= i && Polled(cancel, polls, cancelled)
    ensures r.Err? ==> i < |site.versions| && !cancelled
    ensures r.Err? ==> progress.saved == SavedBefore(site, s0, i - rest, dryRun, old(progress.saved))
    ensures (forall k :: Answers(service(k))) ==>
      && (dryRun || NoneBlocked(site, s0, i))
      && (r.Err? ==> r.error == INTEGRITY && !dryRun && Blocked(site, s0, i))
  {
    hide Copied, UriMoved, WellFormed, Preserves, Blocked, Between, Position, Polled, Answers, Tally, Migrated,
        SavedBefore, NoneBlocked, IsReady, Judge, Classify, CopyOf, LegacyObject, TargetUri, Target;
    ghost var saved := progress.saved;
    var snapshot := column.uris;
    var sinceLastCallback, polled := 0, 0;
    i := 0;
    var stop := false;
    BetweenStart(site, s0);
    BetweenMore(site, s0, s0, 0, |site.versions|);
    FirstPosition(batchSize);
    NonePolled(cancel);
    NothingSaved(site, s0, dryRun, saved);
    NothingBlocked(site, s0);
    TallyNone(site, s0, dryRun);
    while i < |site.versions| && !stop
      invariant i <= |site.versions| == |column.uris| == |snapshot|
      invariant Between(site, s0, Now(store, column), |site.versions|)
      invariant result.counts == Tally(site, s0, i, dryRun)
      invariant Standing(site, s0, Now(store, column), i, dryRun)
      invariant Position(i, polled, batchSize, sinceLastCallback)
      invariant Polled(cancel, polled, stop) && (stop ==> sinceLastCallback == 0)
      invariant (forall k :: Answers(service(k))) && !dryRun ==> NoneBlocked(site, s0, i)
      invariant sinceLastCallback <= i && progress.saved == SavedBefore(site, s0, i - sinceLastCallback, dryRun, saved)
    {
      if NoneBlocked(site, s0, i) {
        NoneBlockedMore(site, s0, i);
      }
      var inspected := InspectRecord(site, store, column, i, snapshot[i], dryRun, service(i), result, s0);
      if inspected.Err? {
        return Err(inspected.error), i, polled, sinceLastCallback, false;
      }
      NextPosition(i, polled, batchSize, sinceLastCallback);
      i := i + 1;
      sinceLastCallback := sinceLastCallback + 1;
      if sinceLastCallback >= batchSize {
        sinceLastCallback := 0;
        SavedAfterBatch(site, s0, i, dryRun, saved);
        progress.saved := result.counts;
        PolledMore(cancel, polled);
        stop := cancel(polled);
        polled := polled + 1;
      }
    }
    return Ok(()), i, polled, sinceLastCallback, stop;
  }

  /** The pass. Whatever the store answers, the outcome lies between start and end; it completes
      unless a new key is taken by an object of another size. `cancel(k)` is the answer to the poll
      after batch `k`, and `at` the record at which the pass ended or failed. */
  method RunRawPayloadMigration(site: Site, store: PayloadStore, column: UriColumn, dryRun: bool, batchSize: nat,
      progress: ProgressSink, cancel: nat -> bool, service: nat -> RecordService)
    returns (r: Result<Counts, Error>, ghost at: nat)
    requires WellFormed(site) && store.bucket == site.bucket && store.tenant == site.tenant
    requires |column.uris| == |site.versions| && batchSize > 0
    modifies store.client, column, progress
    ensures at <= |site.versions| && (r.Ok? ==> at == r.value.inspected)
    // A pass that fails was not cancelled before, and leaves what the last full batch saved.
    ensures r.Err? ==>
      && at < |site.versions| && NoCancel(cancel, batchSize, at)
      && progress.saved == LastSaved(site, old(Now(store, column)), at, batchSize, dryRun, old(progress.saved))
    ensures Between(site, old(Now(store, column)), Now(store, column), |site.versions|)
    ensures dryRun ==> Now(store, column) == old(Now(store, column))
    ensures r.Ok? ==>
      var s0 := old(Now(store, column));
      var n := r.value.inspected;
      && StoppedBy(cancel, batchSize, n, |site.versions|)
      && r.value == Finished(Tally(site, s0, n, dryRun)) == progress.saved
      && (!dryRun ==> Migrated(site, s0, Now(store, column), n))
    ensures (forall i :: Answers(service(i))) ==>
      var s0 := old(Now(store, column));
      && (dryRun || NoneBlocked(site, s0, |site.versions|) ==> r.Ok?)
      && (r.Ok? && !dryRun ==> NoneBlocked(site, s0, r.value.inspected))
      && (r.Err? ==> r.error == INTEGRITY && !dryRun && Blocked(site, s0, at) && NoneBlocked(site, s0, at))
  {
    hide Copied, UriMoved, WellFormed, Preserves, Blocked, Between, Position, Polled, StoppedBy, Answers, Tally,
        Migrated, LastSaved, SavedBefore, NoCancel, NoneBlocked;
    ghost var s0, saved := Now(store, column), progress.saved;
    var result := new InspectionResult();
    var inspected, i, polls, rest, cancelled :=
      InspectRecords(site, store, column, dryRun, batchSize, progress, cancel, service, result, s0);
    if NoneBlocked(site, s0, i) && i < |site.versions| {
      NoneBlockedMore(site, s0, i);
    }
    if inspected.Err? {
      FailedAt(site, s0, i, polls, batchSize, rest, dryRun, saved, cancel);
      return Err(inspected.error), i;
    }
    Stopped(cancel, batchSize, i, |site.versions|, polls, rest, cancelled);
    TallyInspected(site, s0, i, dryRun);
    result.counts := Finished(result.counts);
    progress.saved := result.counts;
    return Ok(result.counts), i;
  }
}
