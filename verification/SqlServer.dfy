/** The SQL Server destination connector (apps/connectors/destinations/sqlserver.py): checks first,
    then one transaction of bounded insert batches. */
module SqlServer {
  import opened Prelude
  import opened Mapping

  /** A configuration value, as far as the connector looks at it. */
  datatype Setting = Text(text: string) | Whole(number: int) | Other

  datatype Config = Config(schemaName: Setting, tableName: Setting, batchSize: Setting)

  const UNSUPPORTED := Error(UnsupportedCapability, false)
  const SCHEMA_MISMATCH := Error(SchemaMismatchError, false)

  /** What SQLAlchemy raises: connectivity and lock trouble may pass, anything else will not. */
  datatype DbError = OperationalError | IntegrityError | OtherDbError

  function LoadError(e: DbError): Error {
    Error(LoadFailed, e.OperationalError?)
  }

  /** How the transaction ends: committed, rolled back, or committed with the answer lost. */
  datatype CommitOutcome = Committed | RolledBack(err: DbError) | AnswerLost(err: DbError)

  /** What the database does during one load: `insert(k)` fails or not for batch `k`. */
  datatype DbBehaviour = DbBehaviour(reflect: Option<DbError>, insert: nat -> Option<DbError>, commit: CommitOutcome)

  predicate IsIdentifier(name: string) {
    && 1 <= |name| <= 128
    && !('0' <= name[0] <= '9')
    && forall c | c in name :: 'A' <= c <= 'Z' || 'a' <= c <= 'z' || '0' <= c <= '9' || c == '_'
  }

  /** The `$` of the pattern also matches before a final line feed. */
  predicate ValidSqlIdentifier(s: Setting) {
    s.Text? && (IsIdentifier(s.text)
        || (|s.text| > 1 && s.text[|s.text| - 1] == '\n' && IsIdentifier(s.text[..|s.text| - 1])))
  }

  predicate IsLetter(c: char) {
    'A' <= c <= 'Z' || 'a' <= c <= 'z'
  }

  /** A letter or underscore, then letters, digits and underscores, 128 characters at most. */
  predicate SqlName(name: string) {
    && 0 < |name| <= 128
    && (IsLetter(name[0]) || name[0] == '_')
    && forall i | 0 < i < |name| :: IsLetter(name[i]) || name[i] == '_' || '0' <= name[i] <= '9'
  }

  /** The setting is such a name, perhaps with a line feed after it. */
  ghost predicate Names(s: Setting) {
    s.Text? && exists name :: SqlName(name) && (s.text == name || s.text == name + "\n")
  }

  lemma {:induction false} IdentifierIsName(name: string)
    ensures IsIdentifier(name) <==> SqlName(name)
  {
    if SqlName(name) {
      forall c | c in name ensures IsLetter(c) || '0' <= c <= '9' || c == '_' {
        var i :| 0 <= i < |name| && name[i] == c;
      }
    }
    if IsIdentifier(name) {
      forall i | 0 <= i < |name| ensures IsLetter(name[i]) || name[i] == '_' || '0' <= name[i] <= '9' {
        assert name[i] in name;
      }
    }
  }

  /** The settings accepted are exactly the names. */
  lemma {:induction false} ValidIdentifierExactly(s: Setting)
    ensures ValidSqlIdentifier(s) <==> Names(s)
  {
    hide IsIdentifier, SqlName;
    if s.Text? {
      IdentifierIsName(s.text);
      if |s.text| > 1 && s.text[|s.text| - 1] == '\n' {
        var front := s.text[..|s.text| - 1];
        IdentifierIsName(front);
        assert s.text == front + "\n";
      }
      if Names(s) {
        var name :| SqlName(name) && (s.text == name || s.text == name + "\n");
        IdentifierIsName(name);
        NameNotEmpty(name);
        assert s.text == name + "\n" ==> s.text[..|s.text| - 1] == name;
      }
    }
  }

  lemma {:induction false} NameNotEmpty(name: string)
    requires SqlName(name)
    ensures name != ""
  {
  }

  ghost predicate ValidConfig(config: Config) {
    Names(config.schemaName) && Names(config.tableName) && config.batchSize.Whole? && config.batchSize.number >= 1
  }

  /** The destination table; None for `columns` if it does not exist. */
  class Table {
    const columns: Option<set<string>>
    var rows: seq<Row>

    constructor (columns: Option<set<string>>)
      ensures this.columns == columns && rows == []
    {
      this.columns := columns;
      rows := [];
    }
  }

  predicate KnownColumns(columns: set<string>, records: seq<Row>) {
    forall r | r in records :: r.Keys <= columns
  }

  method ValidateColumns(known: set<string>, records: seq<Row>) returns (r: Result<(), Error>)
    ensures r == if KnownColumns(known, records) then Ok(()) else Err(SCHEMA_MISMATCH)
  {
    var used: set<string> := {};
    for i := 0 to |records|
      invariant used <= known <==> KnownColumns(known, records[..i])
    {
      used := used + records[i].Keys;
      assert records[..i + 1] == records[..i] + [records[i]];
    }
    assert records[..|records|] == records;
    if !(used <= known) {
      return Err(SCHEMA_MISMATCH);
    }
    return Ok(());
  }

  /** Batches that partition `records` in order: full ones, except perhaps the last. */
  predicate Partitions(batches: seq<seq<Row>>, records: seq<Row>, size: nat) {
    && Flatten(batches) == records
    && (forall i | 0 <= i < |batches| :: 1 <= |batches[i]| <= size)
    && (forall i | 0 <= i < |batches| - 1 :: |batches[i]| == size)
  }

  lemma {:induction false} FirstBatch(batches: seq<seq<Row>>, records: seq<Row>, size: nat)
    requires batches != [] && Partitions(batches, records, size)
    ensures batches[0] == records[..if |records| < size then |records| else size]
    ensures Partitions(batches[1..], records[|batches[0]|..], size)
  {
    var rest := batches[1..];
    assert records == batches[0] + Flatten(rest);
    assert forall i | 0 <= i < |rest| :: rest[i] == batches[i + 1];
    if rest == [] {
      assert Flatten(rest) == [];
    } else {
      assert Flatten(rest) == rest[0] + Flatten(rest[1..]);
    }
  }

  /** The size alone determines the batches, and however the records are batched the same rows are
      inserted in the same order as by one insert. */
  lemma {:induction false} PartitionUnique(a: seq<seq<Row>>, b: seq<seq<Row>>, records: seq<Row>, size: nat)
    requires Partitions(a, records, size) && Partitions(b, records, size)
    ensures a == b
  {
    if a == [] || b == [] {
      NoBatches(a, records, size);
      NoBatches(b, records, size);
    } else {
      FirstBatch(a, records, size);
      FirstBatch(b, records, size);
      PartitionUnique(a[1..], b[1..], records[|a[0]|..], size);
      assert a == [a[0]] + a[1..] && b == [b[0]] + b[1..];
    }
  }

  lemma {:induction false} NoBatches(batches: seq<seq<Row>>, records: seq<Row>, size: nat)
    requires Partitions(batches, records, size)
    ensures batches == [] <==> records == []
  {
    if batches != [] {
      assert records == batches[0] + Flatten(batches[1..]);
    }
  }

  /** How many batches `n` records make. */
  function BatchCount(n: nat, size: nat): nat
    requires size >= 1
  {
    if n == 0 then 0 else 1 + BatchCount(if n > size then n - size else 0, size)
  }

  predicate AllInserted(insert: nat -> Option<DbError>, n: nat) {
    forall k | 0 <= k < n :: insert(k).None?
  }

  /** The batches sent to the database inside the transaction, up to the first that fails. */
  method InsertBatches(records: seq<Row>, size: nat, insert: nat -> Option<DbError>)
    returns (r: Result<nat, DbError>, batches: seq<seq<Row>>)
    requires size >= 1
    ensures r.Ok? ==> r.value == |records| && Partitions(batches, records, size)
    ensures r.Ok? <==> AllInserted(insert, BatchCount(|records|, size))
    ensures r.Err? ==> batches != [] && AllInserted(insert, |batches| - 1) && insert(|batches| - 1) == Some(r.error)
  {
    var start, totalLoaded := 0, 0;
    batches := [];
    while start < |records|
      invariant 0 <= start && totalLoaded == (if start <= |records| then start else |records|)
      invariant Partitions(batches, records[..totalLoaded], size)
      invariant start < |records| ==> forall i | 0 <= i < |batches| :: |batches[i]| == size
      invariant AllInserted(insert, |batches|)
      invariant |batches| + BatchCount(|records| - totalLoaded, size) == BatchCount(|records|, size)
      decreases |records| - start
    {
      var end := if start + size <= |records| then start + size else |records|;
      var batch := records[start..end];
      FlattenAppend(batches, batch);
      assert records[..start] + batch == records[..end];
      batches := batches + [batch];
      if insert(|batches| - 1).Some? {
        return Err(insert(|batches| - 1).value), batches;
      }
      totalLoaded := totalLoaded + |batch|;
      start := start + size;
    }
    assert records[..|records|] == records;
    return Ok(totalLoaded), batches;
  }

  /** The refusals before the database is asked, in the order they are made; None goes on. */
  ghost function EarlyAnswer(config: Config, records: seq<Row>, mode: string): Option<Result<nat, Error>> {
    if mode != "append" then Some(Err(Error(UnsupportedCapability, false)))
    else if records == [] then Some(Ok(0))
    else if !ValidConfig(config) then Some(Err(Error(ConfigurationError, false)))
    else None
  }

  /** A failure of the load that `e` stopped: it may be retried after a connectivity error only. */
  predicate IsLoadFailure(err: Error, e: DbError) {
    match e
    case OperationalError => err == Error(LoadFailed, true)
    case IntegrityError => err == Error(LoadFailed, false)
    case OtherDbError => err == Error(LoadFailed, false)
  }

  /** Batch `k` is the first that fails, and with this error. */
  predicate IsInsertError(insert: nat -> Option<DbError>, k: nat, err: Error) {
    AllInserted(insert, k) && insert(k).Some? && IsLoadFailure(err, insert(k).value)
  }

  /** Why a load may fail, given what it is asked to insert. */
  ghost predicate CanFail(config: Config, columns: Option<set<string>>, records: seq<Row>, db: DbBehaviour,
      err: Error) {
    || (err == Error(ConfigurationError, false) && !ValidConfig(config))
    || (err == Error(SchemaMismatchError, false) && (columns.None? || !KnownColumns(columns.value, records)))
    || (db.reflect.Some? && IsLoadFailure(err, db.reflect.value))
    || (exists k :: IsInsertError(db.insert, k, err))
    || (!db.commit.Committed? && IsLoadFailure(err, db.commit.err))
  }

  /** On success all records are in the table, in order, after what was there; a load that fails
      leaves the table as it was, unless it is the answer to the commit that got lost. */
  method Load(table: Table, config: Config, records: seq<Row>, mode: string, db: DbBehaviour)
      returns (r: Result<nat, Error>)
    modifies table
    ensures r.Ok? ==> r.value == |records| && table.rows == old(table.rows) + records
    ensures r.Err? && mode == "append" ==> CanFail(config, table.columns, records, db, r.error)
    ensures r.Err? ==> !r.error.category.PageLimitExceededError?
    ensures r.Err? ==>
      table.rows == old(table.rows) || (db.commit.AnswerLost? && table.rows == old(table.rows) + records)
    ensures EarlyAnswer(config, records, mode).Some? ==>
      r == EarlyAnswer(config, records, mode).value && table.rows == old(table.rows)
    ensures EarlyAnswer(config, records, mode).None? ==>
      if db.reflect.Some? then r.Err? && IsLoadFailure(r.error, db.reflect.value) && table.rows == old(table.rows)
      else if table.columns.None? || !KnownColumns(table.columns.value, records) then
        r == Err(Error(SchemaMismatchError, false)) && table.rows == old(table.rows)
      else if !AllInserted(db.insert, BatchCount(|records|, config.batchSize.number)) then
        r.Err? && (exists k :: IsInsertError(db.insert, k, r.error)) && table.rows == old(table.rows)
      else
        match db.commit
        case Committed => r == Ok(|records|)
        case RolledBack(e) => r.Err? && IsLoadFailure(r.error, e) && table.rows == old(table.rows)
        case AnswerLost(e) => r.Err? && IsLoadFailure(r.error, e) && table.rows == old(table.rows) + records
  {
    hide IsIdentifier, Names, ValidSqlIdentifier;
    if mode != "append" {
      return Err(UNSUPPORTED);
    }
    if records == [] {
      assert table.rows + records == table.rows;
      return Ok(0);
    }
    ValidIdentifierExactly(config.schemaName);
    ValidIdentifierExactly(config.tableName);
    if !ValidSqlIdentifier(config.schemaName) || !ValidSqlIdentifier(config.tableName) {
      return Err(CONFIGURATION_ERROR);
    }
    if !config.batchSize.Whole? || config.batchSize.number < 1 {
      return Err(CONFIGURATION_ERROR);
    }
    if db.reflect.Some? {
      return Err(LoadError(db.reflect.value));
    }
    if table.columns.None? {
      return Err(SCHEMA_MISMATCH);
    }
    var valid := ValidateColumns(table.columns.value, records);
    if valid.Err? {
      return Err(valid.error);
    }
    var inserted, batches := InsertBatches(records, config.batchSize.number, db.insert);
    if inserted.Err? {
      assert IsInsertError(db.insert, |batches| - 1, LoadError(inserted.error));
      return Err(LoadError(inserted.error));
    }
    if db.commit.RolledBack? {
      return Err(LoadError(db.commit.err));
    }
    table.rows := table.rows + Flatten(batches);
    if db.commit.AnswerLost? {
      return Err(LoadError(db.commit.err));
    }
    return Ok(inserted.value);
  }
}
