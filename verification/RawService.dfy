/** Storing one page (apps/rawstore/service.py): an object under a content-addressed key and the row
    that makes it discoverable. */
module RawService {
  import opened Prelude
  import opened Keys
  import opened RawStore

  /** A `RawPayloadRecord`; `id` below is its unique (run, sequence, checksum). */
  datatype Record = Record(pipeline: string, uri: string, contentType: string, size: nat, loaded: bool)

  type RecordId = (string, nat, string)

  class RecordTable {
    var rows: map<RecordId, Record>

    constructor ()
      ensures rows == map[]
    {
      rows := map[];
    }
  }

  /** The bytes a row promises can be read back through its URI. */
  predicate Readable(sha: Sha, objects: Objects, bucket: string, tenant: string, id: RecordId, row: Record) {
    var read := ReadBack(sha, objects, bucket, tenant, row.uri);
    read.Ok? && sha(read.value) == id.2
  }

  predicate AllReadable(sha: Sha, objects: Objects, bucket: string, tenant: string, rows: map<RecordId, Record>) {
    forall id | id in rows :: Readable(sha, objects, bucket, tenant, id, rows[id])
  }

  /** No object with other bytes sits under the key. */
  predicate Intact(sha: Sha, objects: Objects, key: string, checksum: string) {
    key in objects ==> sha(objects[key].data) == checksum
  }

  lemma {:induction false} ReadBackPreserved(sha: Sha, before: Objects, after: Objects, bucket: string,
      tenant: string, uri: string)
    requires Preserves(before, after) && ReadBack(sha, before, bucket, tenant, uri).Ok?
    ensures ReadBack(sha, after, bucket, tenant, uri) == ReadBack(sha, before, bucket, tenant, uri)
  {
    hide ChecksumFromKey, ParseAndAuthorize;
  }

  /** Rows stay readable, with the same bytes, when objects are only added. */
  lemma {:induction false} ReadablePreserved(sha: Sha, before: Objects, after: Objects, bucket: string,
      tenant: string, rows: map<RecordId, Record>)
    requires Preserves(before, after) && AllReadable(sha, before, bucket, tenant, rows)
    ensures AllReadable(sha, after, bucket, tenant, rows)
  {
    hide ReadBack, Preserves;
    forall id | id in rows ensures Readable(sha, after, bucket, tenant, id, rows[id]) {
      assert Readable(sha, before, bucket, tenant, id, rows[id]);
      ReadBackPreserved(sha, before, after, bucket, tenant, rows[id].uri);
    }
  }

  /** What one successful `store_raw_payload` makes of the objects and the rows. */
  predicate Stores(sha: Sha, bucket: string, tenant: string, v: Version, obj: Obj, objects: Objects,
      rows: map<RecordId, Record>, objects': Objects, rows': map<RecordId, Record>) {
    var id := (v.run, v.sequence, v.checksum);
    var key := PrefixedKey(tenant, v);
    && v.checksum == sha(obj.data)
    && AddsAtMost(objects, objects', key, obj) && key in objects'
    && rows' == if id in rows then rows
                else rows[id := Record(v.pipeline, Uri(bucket, key), obj.contentType, |obj.data|, false)]
  }

  /** A page stored twice in one run and sequence: the same bytes leave everything as the first store
      left it; other bytes get a key and a row of their own, and both versions are read back. */
  lemma {:induction false} VersionsCoexist(sha: Sha, bucket: string, tenant: string, v: Version, a: Obj, u: Version,
      b: Obj, o0: Objects, r0: map<RecordId, Record>, o1: Objects, r1: map<RecordId, Record>, o2: Objects,
      r2: map<RecordId, Record>)
    requires bucket != "" && Plain(bucket) && Plain(tenant) && PlainVersion(v) && PlainVersion(u)
    requires u == v.(checksum := u.checksum)
    requires Stores(sha, bucket, tenant, v, a, o0, r0, o1, r1) && Stores(sha, bucket, tenant, u, b, o1, r1, o2, r2)
    requires PrefixedKey(tenant, v) !in o0 && PrefixedKey(tenant, u) !in o0
    ensures sha(a.data) == sha(b.data) ==> o2 == o1 && r2 == r1
    ensures sha(a.data) != sha(b.data) ==>
      && (v.run, v.sequence, v.checksum) in r2 && (u.run, u.sequence, u.checksum) in r2
      && ReadBack(sha, o2, bucket, tenant, Uri(bucket, PrefixedKey(tenant, v))) == Ok(a.data)
      && ReadBack(sha, o2, bucket, tenant, Uri(bucket, PrefixedKey(tenant, u))) == Ok(b.data)
  {
    hide ReadBack, PrefixedKey, Uri;
    KeyInjective(tenant, v, tenant, u);
    if sha(a.data) != sha(b.data) {
      ReadBackExactly(sha, o2, bucket, tenant, tenant, v);
      ReadBackExactly(sha, o2, bucket, tenant, tenant, u);
    }
  }

  /** Why storing a page may fail, given the objects then there: the database refuses the row, what is
      under the key is not what was to be stored, or the backend does not serve a request. */
  predicate StoreFails(objects: Objects, key: string, data: Bytes, backend: Backend, insert: Option<Error>,
      err: Error) {
    || (insert.Some? && err == insert.value)
    || (err == INTEGRITY && Mismatched(objects, key, data, backend))
    || ((err == NO_BUCKET || err == UNCLASSIFIED)
        && !(backend.write.Served? && backend.check.Served? && backend.plainWrite.Served? && backend.verify.Served?))
  }

  /** The stored rows stay readable, and the new one is, unless foreign bytes sit under its key. */
  method StoreRawPayload(store: PayloadStore, table: RecordTable, sha: Sha, pipeline: string, run: string,
      sequence: nat, data: Bytes, contentType: string, backend: Backend, insert: Option<Error>)
    returns (r: Result<Record, Error>)
    requires store.bucket != "" && Plain(store.bucket) && Plain(store.tenant) && Plain(pipeline) && Plain(run)
    modifies store.client, table
    ensures
      var key := PrefixedKey(store.tenant, Version(pipeline, run, sequence, sha(data)));
      && AddsAtMost(old(store.client.objects), store.client.objects, key, Obj(data, contentType))
      && (r.Ok? ==> key in store.client.objects)
      && (Intact(sha, old(store.client.objects), key, sha(data))
          && old(AllReadable(sha, store.client.objects, store.bucket, store.tenant, table.rows))
          ==> AllReadable(sha, store.client.objects, store.bucket, store.tenant, table.rows))
    // With the backend and the database answering, only an object of another size under the new key makes it fail.
    ensures backend.write.Served? && backend.verify == Served(true) && insert.None? ==>
      var key := PrefixedKey(store.tenant, Version(pipeline, run, sequence, sha(data)));
      r.Ok? <==> key in old(store.client.objects) ==> |old(store.client.objects)[key].data| == |data|
    ensures r.Err? ==>
      var key := PrefixedKey(store.tenant, Version(pipeline, run, sequence, sha(data)));
      table.rows == old(table.rows) && StoreFails(store.client.objects, key, data, backend, insert, r.error)
    ensures r.Ok? ==> insert.None?
    ensures r.Ok? ==>
      var version := Version(pipeline, run, sequence, sha(data));
      var id := (run, sequence, sha(data));
      && Stores(sha, store.bucket, store.tenant, version, Obj(data, contentType),
                old(store.client.objects), old(table.rows), store.client.objects, table.rows)
      && id in table.rows && r.value == table.rows[id]
  {
    hide ReadBack, PrefixedKey, LogicalKey, Preserves;
    var checksum := sha(data);
    var version := Version(pipeline, run, sequence, checksum);
    ghost var before := store.client.objects;
    var put := store.Put(LogicalKey(version), data, contentType, backend);
    assert store.TenantKey(LogicalKey(version)) == PrefixedKey(store.tenant, version) by {
      TenantKeyIsPrefixed(store, version);
    }
    AddingPreserves(before, store.client.objects, PrefixedKey(store.tenant, version), Obj(data, contentType));
    if AllReadable(sha, before, store.bucket, store.tenant, table.rows) {
      ReadablePreserved(sha, before, store.client.objects, store.bucket, store.tenant, table.rows);
    }
    if put.Err? {
      return Err(put.error);
    }
    if insert.Some? {
      return Err(insert.value);
    }
    var id := (run, sequence, checksum);
    ReadBackExactly(sha, store.client.objects, store.bucket, store.tenant, store.tenant, version);
    if id !in table.rows {
      table.rows := table.rows[id := Record(pipeline, put.value, contentType, |data|, false)];
    }
    return Ok(table.rows[id]);
  }

  lemma {:induction false} TenantKeyIsPrefixed(store: PayloadStore, v: Version)
    ensures store.TenantKey(LogicalKey(v)) == PrefixedKey(store.tenant, v)
  {
  }
}
