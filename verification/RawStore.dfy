/** The write-once payload store (apps/rawstore/backends/s3.py), one caller at a time; WriteOnce takes
    up concurrent callers, and RawService the service that stores a page here. */
module RawStore {
  import opened Prelude
  import opened Keys

  datatype Obj = Obj(data: Bytes, contentType: string)

  type Objects = map<string, Obj>

  const UNCLASSIFIED := Error(UnexpectedError, false)
  const NO_BUCKET := Error(ConfigurationError, false)
  const INTEGRITY := Error(RawPayloadIntegrityError, false)

  // ---- the backend ----------------------------------------------------------------------------

  datatype ClientError = ClientError(code: string, status: nat)

  const PRECONDITION_FAILED := ClientError("PreconditionFailed", 412)
  const NOT_FOUND := ClientError("404", 404)

  /** What becomes of one request: it is served (a HEAD answer may lack the size), or it is answered
      with an error, which a write may have preceded. */
  datatype Service =
    | Served(sized: bool)
    | Failing(err: ClientError, applied: bool)

  /** The bucket, with S3's semantics; `If-None-Match: *` is the precondition of section 13.1.2 of
      RFC 9110 and its failure the 412 answer of section 15.5.13. */
  class Bucket {
    var objects: Objects

    constructor ()
      ensures objects == map[]
    {
      objects := map[];
    }

    method PutObject(key: string, data: Bytes, contentType: string, ifNoneMatch: bool, service: Service)
      returns (r: Result<(), ClientError>)
      modifies this
      ensures
        var refused := ifNoneMatch && key in old(objects);
        && (service.Served? ==> r == if refused then Err(PRECONDITION_FAILED) else Ok(()))
        && (service.Failing? ==> r == Err(service.err))
        && objects == if refused || (service.Failing? && !service.applied) then old(objects)
                      else old(objects)[key := Obj(data, contentType)]
    {
      if ifNoneMatch && key in objects {
        return Err(if service.Failing? then service.err else PRECONDITION_FAILED);
      }
      if service.Served? || service.applied {
        objects := objects[key := Obj(data, contentType)];
      }
      return if service.Failing? then Err(service.err) else Ok(());
    }

    method HeadObject(key: string, service: Service) returns (r: Result<Option<nat>, ClientError>)
      ensures r == HeadAnswer(objects, key, service)
    {
      if service.Failing? {
        return Err(service.err);
      }
      if key !in objects {
        return Err(NOT_FOUND);
      }
      return Ok(if service.sized then Some(|objects[key].data|) else None);
    }
  }

  function HeadAnswer(objects: Objects, key: string, service: Service): Result<Option<nat>, ClientError> {
    if service.Failing? then Err(service.err)
    else if key !in objects then Err(NOT_FOUND)
    else Ok(if service.sized then Some(|objects[key].data|) else None)
  }

  predicate SaysMissing(e: ClientError) {
    e.code == "404" || e.code == "NoSuchKey" || e.code == "NotFound"
  }

  predicate SaysExists(e: ClientError) {
    e.code == "PreconditionFailed" || e.status == 412
  }

  predicate SaysUnsupported(e: ClientError) {
    e.code == "NotImplemented" || e.code == "XNotImplemented" || e.code == "InvalidArgument" || e.status == 400
        || e.status == 501
  }

  /** A HEAD request is answered "not found" only for a missing object. */
  type HeadService = s: Service | s.Served? || s.err.code !in ["404", "NoSuchKey", "NotFound"] witness Served(true)

  /** The service each request of one `put` gets: the conditional write, the existence check and the
      plain write of the fallback, and the check of an object that was already there. */
  datatype Backend = Backend(write: Service, check: HeadService, plainWrite: Service, verify: HeadService)

  // ---- the store ------------------------------------------------------------------------------

  /** Every object that was there is still there, byte for byte. */
  ghost predicate Preserves(before: Objects, after: Objects) {
    forall key | key in before :: key in after && after[key] == before[key]
  }

  /** At most the object at `key` is new, and then it is `obj`. */
  predicate AddsAtMost(before: Objects, after: Objects, key: string, obj: Obj) {
    after == before || (key !in before && after == before[key := obj])
  }

  lemma {:induction false} AddingPreserves(before: Objects, after: Objects, key: string, obj: Obj)
    requires AddsAtMost(before, after, key, obj)
    ensures Preserves(before, after)
  {
  }

  /** The check of an existing object finds one of another size; or finds none, although the write was
      answered as if there were one. */
  predicate Mismatched(objects: Objects, key: string, data: Bytes, backend: Backend) {
    && backend.verify.Served?
    && (if key in objects then backend.verify.sized && |objects[key].data| != |data|
        else backend.write.Failing? && SaysExists(backend.write.err))
  }

  class PayloadStore {
    const bucket: string
    const tenant: string
    const client: Bucket

    constructor (bucket: string, tenant: string, client: Bucket)
      ensures this.bucket == bucket && this.tenant == tenant && this.client == client
    {
      this.bucket, this.tenant, this.client := bucket, tenant, client;
    }

    method Exists(key: string, service: HeadService) returns (r: Result<bool, Error>)
      ensures r.Ok? ==> r.value == (key in client.objects)
      ensures service.Served? ==> r.Ok?
      ensures service.Failing? ==>
        r == Err(if service.err.code == "NoSuchBucket" then Error(ConfigurationError, false)
            else Error(UnexpectedError, false))
    {
      var head := client.HeadObject(key, service);
      if head.Ok? {
        return Ok(true);
      }
      if SaysMissing(head.error) {
        return Ok(false);
      }
      if head.error.code == "NoSuchBucket" {
        return Err(NO_BUCKET);
      }
      return Err(UNCLASSIFIED);
    }

    /** Write only if absent. True means this call wrote the object, false that it already existed. */
    method PutCreateOnly(key: string, data: Bytes, contentType: string, backend: Backend)
      returns (r: Result<bool, Error>)
      modifies client
      ensures AddsAtMost(old(client.objects), client.objects, key, Obj(data, contentType))
      ensures r == Ok(true) ==> key !in old(client.objects) && key in client.objects
      ensures r == Ok(false) ==> key in client.objects || (backend.write.Failing? && SaysExists(backend.write.err))
      ensures backend.write.Served? ==> r == Ok(key !in old(client.objects))
      ensures r.Err? ==> r.error == NO_BUCKET || r.error == UNCLASSIFIED
      // The answers are told apart in this order.
      ensures backend.write.Failing? ==>
        var e := backend.write.err;
        if e.code == "PreconditionFailed" || e.status == 412 then r == Ok(false)
        else if e.code == "NoSuchBucket" then r == Err(Error(ConfigurationError, false))
        else if e.code !in ["NotImplemented", "XNotImplemented", "InvalidArgument"] && e.status != 400
            && e.status != 501 then
          r == Err(Error(UnexpectedError, false))
        else backend.check.Served? && backend.plainWrite.Served? ==>
            r == Ok(key !in old(client.objects) && !backend.write.applied)
    {
      var put := client.PutObject(key, data, contentType, true, backend.write);
      if put.Ok? {
        return Ok(true);
      }
      if SaysExists(put.error) {
        return Ok(false);
      }
      if put.error.code == "NoSuchBucket" {
        return Err(NO_BUCKET);
      }
      if SaysUnsupported(put.error) {
        r := PutCheckThenWrite(key, data, contentType, backend);
        return;
      }
      return Err(UNCLASSIFIED);
    }

    method PutCheckThenWrite(key: string, data: Bytes, contentType: string, backend: Backend)
        returns (r: Result<bool, Error>)
      modifies client
      ensures AddsAtMost(old(client.objects), client.objects, key, Obj(data, contentType))
      ensures r == Ok(true) ==> key !in old(client.objects) && key in client.objects
      ensures r == Ok(false) ==> key in client.objects
      ensures backend.check.Served? && (key in old(client.objects) || backend.plainWrite.Served?) ==>
        r == Ok(key !in old(client.objects))
      ensures backend.check.Served? && key !in old(client.objects) && backend.plainWrite.Failing? ==>
        r == Err(if backend.plainWrite.err.code == "NoSuchBucket" then Error(ConfigurationError, false)
                 else Error(UnexpectedError, false))
      ensures r.Err? ==> r.error == NO_BUCKET || r.error == UNCLASSIFIED
    {
      var present := Exists(key, backend.check);
      if present.Err? {
        return Err(present.error);
      }
      if present.value {
        return Ok(false);
      }
      var put := client.PutObject(key, data, contentType, false, backend.plainWrite);
      if put.Err? {
        return Err(if put.error.code == "NoSuchBucket" then NO_BUCKET else UNCLASSIFIED);
      }
      return Ok(true);
    }

    /** An object that was already there must at least have the size of the bytes being stored. */
    method VerifyExistingObject(key: string, data: Bytes, service: HeadService) returns (r: Result<(), Error>)
      ensures r.Ok? ==> key in client.objects
      ensures r.Ok? && service.Served? && service.sized ==> |client.objects[key].data| == |data|
      ensures service.Served? && key in client.objects && |client.objects[key].data| == |data| ==> r.Ok?
      ensures service.Served? && r.Err? ==> r.error == INTEGRITY && (key !in client.objects || service.sized)
      ensures service.Failing? ==> r == Err(UNCLASSIFIED)
    {
      var head := client.HeadObject(key, service);
      if head.Err? {
        return Err(if SaysMissing(head.error) then INTEGRITY else UNCLASSIFIED);
      }
      if head.value.Some? && head.value.value != |data| {
        return Err(INTEGRITY);
      }
      return Ok(());
    }

    /** Store `data` under the tenant's key. Nothing that was stored changes; on success an object of
        the same size is there, and when it was not there before it holds `data`. */
    method Put(key: string, data: Bytes, contentType: string, backend: Backend) returns (r: Result<string, Error>)
      modifies client
      ensures AddsAtMost(old(client.objects), client.objects, TenantKey(key), Obj(data, contentType))
      ensures r.Ok? ==> r.value == Uri(bucket, TenantKey(key)) && TenantKey(key) in client.objects
      ensures r.Err? ==> r.error == INTEGRITY || r.error == NO_BUCKET || r.error == UNCLASSIFIED
      ensures r.Err? && r.error != INTEGRITY ==>
        !(backend.write.Served? && backend.check.Served? && backend.plainWrite.Served? && backend.verify.Served?)
      ensures r == Err(INTEGRITY) ==> Mismatched(client.objects, TenantKey(key), data, backend)
      ensures r.Ok? && backend.verify.Served? && backend.verify.sized ==>
          |client.objects[TenantKey(key)].data| == |data|
      // With the backend answering, a put fails only on an existing object of another size.
      ensures backend.write.Served? && backend.verify == Served(true) ==>
        r == if TenantKey(key) in old(client.objects) && |old(client.objects)[TenantKey(key)].data| != |data|
             then Err(INTEGRITY) else Ok(Uri(bucket, TenantKey(key)))
    {
      var written := PutCreateOnly(TenantKey(key), data, contentType, backend);
      if written.Err? {
        return Err(written.error);
      }
      if !written.value {
        var verified := VerifyExistingObject(TenantKey(key), data, backend.verify);
        if verified.Err? {
          return Err(verified.error);
        }
      }
      return Ok(Uri(bucket, TenantKey(key)));
    }

    function TenantKey(key: string): string {
      tenant + "/" + key
    }

    method Get(sha: Sha, uri: string) returns (r: Result<Bytes, Error>)
      ensures r == ReadBack(sha, client.objects, bucket, tenant, uri)
    {
      var parsed := ParseAndAuthorize(bucket, tenant, uri);
      if parsed.Err? {
        return Err(parsed.error);
      }
      if parsed.value !in client.objects {
        return Err(UNCLASSIFIED);
      }
      var data := client.objects[parsed.value].data;
      var expected := ChecksumFromKey(parsed.value);
      if expected.Some? && sha(data) != expected.value {
        return Err(INTEGRITY);
      }
      return Ok(data);
    }
  }

  /** What `get` answers for a URI when the object store holds `objects`. */
  function ReadBack(sha: Sha, objects: Objects, bucket: string, tenant: string, uri: string): Result<Bytes, Error> {
    match ParseAndAuthorize(bucket, tenant, uri)
    case Err(e) => Err(e)
    case Ok(key) =>
      if key !in objects then Err(UNCLASSIFIED)
      else if ChecksumFromKey(key).Some? && sha(objects[key].data) != ChecksumFromKey(key).value then Err(INTEGRITY)
      else Ok(objects[key].data)
  }

  /** A read gives `data` if and only if the URI names an object of the tenant that holds these bytes, and
      the checksum its key embeds, if any, is theirs. */
  lemma {:induction false} ReadExactly(sha: Sha, objects: Objects, bucket: string, tenant: string, uri: string,
      data: Bytes)
    requires bucket != "" && Plain(bucket) && Plain(tenant)
    ensures ReadBack(sha, objects, bucket, tenant, uri) == Ok(data)
       <==> exists key :: MayRead(bucket, tenant, uri, key) && key in objects && objects[key].data == data
                          && forall checksum | EmbedsChecksum(key, checksum) :: checksum == sha(data)
  {
    hide ParseAndAuthorize, ChecksumFromKey, MayRead, EmbedsChecksum;
    forall key ensures ParseAndAuthorize(bucket, tenant, uri) == Ok(key) <==> MayRead(bucket, tenant, uri, key) {
      ReadableKeys(bucket, tenant, uri, key);
    }
    forall key, checksum ensures ChecksumFromKey(key) == Some(checksum) <==> EmbedsChecksum(key, checksum) {
      ChecksumExactly(key, checksum);
    }
  }

  /** A stored version is read back by its own tenant exactly when the bytes there have the checksum
      of the key; whatever the store holds, every other tenant is refused. */
  lemma {:induction false} ReadBackExactly(sha: Sha, objects: Objects, bucket: string, reader: string, tenant: string,
      v: Version)
    requires bucket != "" && Plain(bucket) && Plain(tenant) && PlainVersion(v) && |v.checksum| == CHECKSUM_LENGTH
    ensures
      var key := PrefixedKey(tenant, v);
      ReadBack(sha, objects, bucket, reader, Uri(bucket, key))
      == if reader != tenant then Err(ACCESS_DENIED)
         else if key !in objects then Err(UNCLASSIFIED)
         else if sha(objects[key].data) != v.checksum then Err(INTEGRITY)
         else Ok(objects[key].data)
  {
    hide ParseAndAuthorize, ChecksumFromKey, PrefixedKey, Uri;
    AuthorizedExactly(bucket, reader, tenant, v);
    ChecksumRoundTrip(tenant, v);
  }
}
