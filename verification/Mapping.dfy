/** Destination mapping of extracted records (apps/pipelines/mapping.py). */
module Mapping {
  import opened Prelude
  import opened Paths

  type Row = map<string, Json>

  predicate DistinctColumns(items: seq<(string, string)>) {
    forall i, j | 0 <= i < j < |items| :: items[i].0 != items[j].0
  }

  /** The items of a `{destination_column: source_field}` dictionary, in insertion order. */
  type ColumnMapping = items: seq<(string, string)> | DistinctColumns(items)

  const MAPPING_ERROR := Error(MappingError, false)

  function PrefixColumns(mapping: ColumnMapping, n: nat): set<string>
    requires n <= |mapping|
  {
    set i | 0 <= i < n :: mapping[i].0
  }

  /** The first `n` source fields the mapping names are present in `record`. */
  predicate CompletePrefix(record: Json, mapping: ColumnMapping, n: nat)
    requires n <= |mapping|
  {
    forall i | 0 <= i < n :: Lookup(record, mapping[i].1).Some?
  }

  predicate Mappable(record: Json, mapping: ColumnMapping, strict: bool) {
    record.JObject? && (strict ==> CompletePrefix(record, mapping, |mapping|))
  }

  function ValueOrNull(record: Json, path: string): Json {
    match Lookup(record, path) case Some(v) => v case None => JNull
  }

  /** `row` is the image of `record`: exactly the mapped columns, each holding its source value or null. */
  ghost predicate IsImage(row: Row, record: Json, mapping: ColumnMapping) {
    IsImageOfPrefix(row, record, mapping, |mapping|)
  }

  lemma {:induction false} ImageUnique(a: Row, b: Row, record: Json, mapping: ColumnMapping)
    requires IsImage(a, record, mapping) && IsImage(b, record, mapping)
    ensures a == b
  {
    forall column | column in a ensures a[column] == b[column] {
      var i :| 0 <= i < |mapping| && mapping[i].0 == column;
    }
  }

  function MapFrom(record: Json, mapping: ColumnMapping, strict: bool, n: nat): Result<Row, Error>
    requires n <= |mapping|
  {
    if !record.JObject? then Err(MAPPING_ERROR)
    else if n == 0 then Ok(map[])
    else
      match MapFrom(record, mapping, strict, n - 1)
      case Err(e) => Err(e)
      case Ok(row) =>
        var found := Lookup(record, mapping[n - 1].1);
        if found.None? && strict then Err(MAPPING_ERROR)
        else Ok(row[mapping[n - 1].0 := ValueOrNull(record, mapping[n - 1].1)])
  }

  function MapRecord(record: Json, mapping: ColumnMapping, strict: bool): Result<Row, Error> {
    MapFrom(record, mapping, strict, |mapping|)
  }

  ghost predicate IsImageOfPrefix(row: Row, record: Json, mapping: ColumnMapping, n: nat)
    requires n <= |mapping|
  {
    && row.Keys == PrefixColumns(mapping, n)
    && forall i | 0 <= i < n :: row[mapping[i].0] == ValueOrNull(record, mapping[i].1)
  }

  lemma {:induction false} ImageStep(row: Row, record: Json, mapping: ColumnMapping, n: nat)
    requires n < |mapping| && IsImageOfPrefix(row, record, mapping, n)
    ensures IsImageOfPrefix(row[mapping[n].0 := ValueOrNull(record, mapping[n].1)], record, mapping, n + 1)
  {
    hide Lookup, ValueOrNull;
    assert PrefixColumns(mapping, n + 1) == PrefixColumns(mapping, n) + {mapping[n].0};
  }

  lemma {:induction false} MapFromOk(record: Json, mapping: ColumnMapping, strict: bool, n: nat)
    requires n <= |mapping|
    ensures
      var r := MapFrom(record, mapping, strict, n);
      && (r.Ok? <==> record.JObject? && (strict ==> CompletePrefix(record, mapping, n)))
      && (r.Err? ==> r.error == Error(MappingError, false))
  {
    if n > 0 {
      MapFromOk(record, mapping, strict, n - 1);
      assert CompletePrefix(record, mapping, n)
        <==> CompletePrefix(record, mapping, n - 1) && Lookup(record, mapping[n - 1].1).Some?;
    }
  }

  lemma {:induction false} MapFromImage(record: Json, mapping: ColumnMapping, strict: bool, n: nat)
    requires n <= |mapping|
    requires MapFrom(record, mapping, strict, n).Ok?
    ensures IsImageOfPrefix(MapFrom(record, mapping, strict, n).value, record, mapping, n)
  {
    if n > 0 {
      MapFromImage(record, mapping, strict, n - 1);
      ImageStep(MapFrom(record, mapping, strict, n - 1).value, record, mapping, n - 1);
    }
  }

  /** A record maps exactly when it is an object and, in strict mode, lacks no mapped field. */
  lemma MapRecordSpec(record: Json, mapping: ColumnMapping, strict: bool)
    ensures
      var r := MapRecord(record, mapping, strict);
      && (r.Ok? <==> Mappable(record, mapping, strict))
      && (r.Ok? ==> IsImage(r.value, record, mapping))
      && (r.Err? ==> r.error == Error(MappingError, false))
  {
    MapFromOk(record, mapping, strict, |mapping|);
    if Mappable(record, mapping, strict) {
      MapFromImage(record, mapping, strict, |mapping|);
    }
  }

  method MapRecordLoop(record: Json, mapping: ColumnMapping, strict: bool) returns (r: Result<Row, Error>)
    ensures r == MapRecord(record, mapping, strict)
    ensures r.Ok? <==> Mappable(record, mapping, strict)
    ensures r.Ok? ==> IsImage(r.value, record, mapping)
  {
    MapRecordSpec(record, mapping, strict);
    if !record.JObject? {
      MapFromOk(record, mapping, strict, |mapping|);
      return Err(MAPPING_ERROR);
    }
    var mapped: Row := map[];
    for i := 0 to |mapping|
      invariant MapFrom(record, mapping, strict, i) == Ok(mapped)
    {
      var value, found := GetByPath(record, mapping[i].1);
      if !found && strict {
        MapFromOk(record, mapping, strict, i + 1);
        assert !CompletePrefix(record, mapping, |mapping|);
        MapFromOk(record, mapping, strict, |mapping|);
        return Err(MAPPING_ERROR);
      }
      mapped := mapped[mapping[i].0 := value];
    }
    return Ok(mapped);
  }

  /** `[map_record(r) for r in records]`: the first record that fails aborts the page. */
  function MapRecords(records: seq<Json>, mapping: ColumnMapping, strict: bool): Result<seq<Row>, Error> {
    if records == [] then Ok([])
    else
      match MapRecord(records[0], mapping, strict)
      case Err(e) => Err(e)
      case Ok(row) =>
        match MapRecords(records[1..], mapping, strict)
        case Err(e) => Err(e)
        case Ok(rows) => Ok([row] + rows)
  }

  /** A page is mapped whole or not at all, one row per record, in record order. */
  lemma {:induction false} MapRecordsSpec(records: seq<Json>, mapping: ColumnMapping, strict: bool)
    ensures
      var r := MapRecords(records, mapping, strict);
      && (r.Ok? <==> forall i | 0 <= i < |records| :: Mappable(records[i], mapping, strict))
      && (r.Ok? ==> |r.value| == |records|)
      && (r.Ok? ==> forall i | 0 <= i < |records| :: IsImage(r.value[i], records[i], mapping))
      && (r.Err? ==> r.error == Error(MappingError, false))
  {
    if records != [] {
      MapRecordSpec(records[0], mapping, strict);
      MapRecordsSpec(records[1..], mapping, strict);
      assert forall i | 1 <= i < |records| :: records[i] == records[1..][i - 1];
      var rest := MapRecords(records[1..], mapping, strict);
      if rest.Err? && MapRecord(records[0], mapping, strict).Ok? {
        var i :| 0 <= i < |records[1..]| && !Mappable(records[1..][i], mapping, strict);
        assert !Mappable(records[i + 1], mapping, strict);
      }
    }
  }
}
