/** Object keys of raw payloads (apps/rawstore/service.py, apps/rawstore/backends/s3.py): how a key is
    printed from its parts, and what is read back out of a key or a URI. */
module Keys {
  import opened Prelude
  import opened Paths

  const URI_SCHEME := "s3://"
  const RAW_SUFFIX := ".raw"
  const CHECKSUM_LENGTH: nat := 64
  const SEQUENCE_WIDTH: nat := 6

  // ---- decimal numbers ------------------------------------------------------------------------

  predicate IsDigit(c: char) {
    '0' <= c <= '9'
  }

  predicate AllDigits(s: string) {
    forall c | c in s :: IsDigit(c)
  }

  function Digit(d: nat): char
    requires d < 10
  {
    '0' + d as char
  }

  function Digits(n: nat): (s: string)
    ensures |s| > 0 && AllDigits(s)
  {
    if n < 10 then [Digit(n)] else Digits(n / 10) + [Digit(n % 10)]
  }

  function Zeros(n: nat): (s: string)
    ensures |s| == n && AllDigits(s)
  {
    seq(n, _ => '0')
  }

  /** `f"{n:06d}"`: padded with zeros up to six digits, never truncated. */
  function Padded(n: nat): (s: string)
    ensures AllDigits(s) && |s| >= SEQUENCE_WIDTH
  {
    var digits := Digits(n);
    if |digits| < SEQUENCE_WIDTH then Zeros(SEQUENCE_WIDTH - |digits|) + digits else digits
  }

  function ParseNat(s: string): nat
    requires AllDigits(s)
  {
    if s == "" then 0
    else
      var last := s[|s| - 1];
      assert IsDigit(last) by { assert last in s; }
      ParseNat(s[..|s| - 1]) * 10 + (last - '0') as nat
  }

  lemma {:induction false} ParseDigits(n: nat)
    ensures ParseNat(Digits(n)) == n
  {
    if n >= 10 {
      ParseDigits(n / 10);
      assert Digits(n)[..|Digits(n)| - 1] == Digits(n / 10);
    }
  }

  lemma {:induction false} LeadingZeros(k: nat, s: string)
    requires AllDigits(s)
    ensures ParseNat(Zeros(k) + s) == ParseNat(s)
  {
    if s != "" {
      LeadingZeros(k, s[..|s| - 1]);
      assert (Zeros(k) + s)[..k + |s| - 1] == Zeros(k) + s[..|s| - 1];
    } else if k > 0 {
      LeadingZeros(k - 1, "");
      assert (Zeros(k) + "")[..k - 1] == Zeros(k - 1) + "";
    }
  }

  /** Sequence numbers read back from their padded form, beyond six digits too. */
  lemma {:induction false} ParsePadded(n: nat)
    ensures ParseNat(Padded(n)) == n
  {
    ParseDigits(n);
    if |Digits(n)| < SEQUENCE_WIDTH {
      LeadingZeros(SEQUENCE_WIDTH - |Digits(n)|, Digits(n));
    }
  }

  function Pow10(k: nat): nat {
    if k == 0 then 1 else 10 * Pow10(k - 1)
  }

  lemma {:induction false} DigitsAtMost(n: nat, k: nat)
    requires 0 < k && n < Pow10(k)
    ensures |Digits(n)| <= k
  {
    if n >= 10 {
      DigitsAtMost(n / 10, k - 1);
    }
  }

  /** Six digits, for the first million sequence numbers. */
  lemma {:induction false} SixDigits(n: nat)
    ensures n < 1000000 ==> |Padded(n)| == 6
  {
    if n < 1000000 {
      assert Pow10(3) == 1000 && Pow10(6) == 1000000 by { assert Pow10(4) == 10000 && Pow10(5) == 100000; }
      DigitsAtMost(n, 6);
    }
  }

  // ---- taking text apart ----------------------------------------------------------------------

  /** `text.partition(sep)`: what is before and after the first separator. */
  function Partition(text: string, sep: char): (r: (string, bool, string))
    ensures if r.1 then text == r.0 + [sep] + r.2 && sep !in r.0 else sep !in text && r.0 == text && r.2 == ""
  {
    if text == "" then ("", false, "")
    else if text[0] == sep then ("", true, text[1..])
    else
      var (head, found, tail) := Partition(text[1..], sep);
      ([text[0]] + head, found, tail)
  }

  lemma {:induction false} PartitionAt(head: string, tail: string, sep: char)
    requires sep !in head
    ensures Partition(head + [sep] + tail, sep) == (head, true, tail)
  {
    var text := head + [sep] + tail;
    if head == "" {
      assert text[1..] == tail;
    } else {
      assert text[1..] == head[1..] + [sep] + tail;
      PartitionAt(head[1..], tail, sep);
      assert text[0] == head[0] != sep;
      assert head == [head[0]] + head[1..];
    }
  }

  predicate EndsWith(text: string, suffix: string) {
    |text| >= |suffix| && text[|text| - |suffix|..] == suffix
  }

  // ---- keys -----------------------------------------------------------------------------------

  /** What identifies one stored version of a page within a tenant. */
  datatype Version = Version(pipeline: string, run: string, sequence: nat, checksum: string)

  /** Identifiers and checksums contain no slash: they are UUIDs and hexadecimal digests. */
  predicate Plain(text: string) {
    '/' !in text
  }

  /** The checksum function. Its values are 64 hexadecimal digits; nothing else is known of it. */
  type Sha = f: Bytes -> string | forall data: Bytes :: |f(data)| == CHECKSUM_LENGTH && Plain(f(data))
    witness (data: Bytes) => Zeros(CHECKSUM_LENGTH)

  predicate PlainVersion(v: Version) {
    Plain(v.pipeline) && Plain(v.run) && Plain(v.checksum)
  }

  function Filename(sequence: nat, checksum: string): string {
    Padded(sequence) + "-" + checksum + RAW_SUFFIX
  }

  /** The key before any tenant prefix, as `store_raw_payload` builds it. */
  function LogicalKey(v: Version): string {
    v.pipeline + "/" + v.run + "/" + Filename(v.sequence, v.checksum)
  }

  function PrefixedKey(prefix: string, v: Version): string {
    prefix + "/" + LogicalKey(v)
  }

  /** `name` is what follows the last slash of `key`. */
  ghost predicate FileOf(key: string, name: string) {
    Plain(name) && (key == name || exists dir :: key == dir + "/" + name)
  }

  lemma {:induction false} JoinLast(parts: seq<string>, sep: char)
    requires |parts| > 1
    ensures Join(parts, sep) == Join(parts[..|parts| - 1], sep) + [sep] + parts[|parts| - 1]
  {
    if |parts| > 2 {
      var rest := parts[1..];
      JoinLast(rest, sep);
      assert parts[..|parts| - 1][1..] == rest[..|rest| - 1];
    }
  }

  lemma {:induction false} LastPart(key: string, name: string)
    ensures var parts := Split(key, '/'); parts[|parts| - 1] == name <==> FileOf(key, name)
  {
    hide Split, Join;
    var parts := Split(key, '/');
    if parts[|parts| - 1] == name {
      JoinSplit(key, '/');
      if |parts| > 1 {
        JoinLast(parts, '/');
        assert key == Join(parts[..|parts| - 1], '/') + "/" + name;
      } else {
        JoinOne(parts, '/');
      }
    }
    if FileOf(key, name) {
      SplitPlain(name, '/');
      if dir :| key == dir + "/" + name {
        SplitConcat(dir, name, '/');
      }
    }
  }

  lemma {:induction false} JoinOne(parts: seq<string>, sep: char)
    requires |parts| == 1
    ensures Join(parts, sep) == parts[0]
  {
  }

  /** The file name is a text without dash, a dash, the checksum and `.raw`. */
  ghost predicate EmbedsChecksum(key: string, checksum: string) {
    |checksum| == 64 && exists sequence :: '-' !in sequence && FileOf(key, sequence + "-" + checksum + ".raw")
  }

  /** The checksum of any key whatsoever, or none. */
  lemma {:induction false} ChecksumExactly(key: string, checksum: string)
    ensures ChecksumFromKey(key) == Some(checksum) <==> EmbedsChecksum(key, checksum)
  {
    hide FileOf, Split;
    var parts := Split(key, '/');
    var name := parts[|parts| - 1];
    LastPart(key, name);
    if ChecksumFromKey(key) == Some(checksum) {
      var (sequence, _, _) := Partition(name[..|name| - 4], '-');
      assert name == name[..|name| - 4] + ".raw" == sequence + "-" + checksum + ".raw";
    }
    if EmbedsChecksum(key, checksum) {
      var sequence :| '-' !in sequence && FileOf(key, sequence + "-" + checksum + ".raw");
      LastPart(key, sequence + "-" + checksum + ".raw");
      PartitionAt(sequence, checksum, '-');
      assert name[..|name| - 4] == sequence + ['-'] + checksum && name[|name| - 4..] == ".raw";
    }
  }

  /** `prefix/pipeline/run/sequence-checksum.raw`, with the sequence number in six digits or more. */
  lemma {:induction false} KeyForm(prefix: string, v: Version)
    ensures PrefixedKey(prefix, v)
         == prefix + "/" + v.pipeline + "/" + v.run + "/" + Padded(v.sequence) + "-" + v.checksum + ".raw"
  {
    hide Padded;
    var name := Padded(v.sequence) + "-" + v.checksum + ".raw";
    assert LogicalKey(v) == v.pipeline + "/" + v.run + "/" + name;
    assert PrefixedKey(prefix, v) == prefix + "/" + (v.pipeline + "/" + v.run + "/" + name);
  }

  /** The checksum embedded in a content-addressed key; None for a key of any other shape. */
  function ChecksumFromKey(key: string): Option<string> {
    var parts := Split(key, '/');
    var filename := parts[|parts| - 1];
    if !EndsWith(filename, RAW_SUFFIX) then None
    else
      var (sequence, found, checksum) := Partition(filename[..|filename| - |RAW_SUFFIX|], '-');
      if !found || |checksum| != CHECKSUM_LENGTH then None else Some(checksum)
  }

  lemma {:induction false} PlainFilename(sequence: nat, checksum: string)
    requires Plain(checksum)
    ensures Plain(Filename(sequence, checksum))
  {
    assert '/' !in Padded(sequence);
  }

  lemma {:induction false} SplitLogicalKey(v: Version)
    requires PlainVersion(v)
    ensures Split(LogicalKey(v), '/') == [v.pipeline, v.run, Filename(v.sequence, v.checksum)]
  {
    hide Padded, Split;
    var name := Filename(v.sequence, v.checksum);
    PlainFilename(v.sequence, v.checksum);
    SplitPlain(v.pipeline, '/');
    SplitPlain(v.run, '/');
    SplitPlain(name, '/');
    SplitConcat(v.run, name, '/');
    SplitConcat(v.pipeline, v.run + "/" + name, '/');
    assert LogicalKey(v) == v.pipeline + ['/'] + (v.run + "/" + name);
  }

  lemma {:induction false} SplitPrefixedKey(prefix: string, v: Version)
    requires Plain(prefix) && PlainVersion(v)
    ensures Split(PrefixedKey(prefix, v), '/') == [prefix, v.pipeline, v.run, Filename(v.sequence, v.checksum)]
  {
    hide LogicalKey, Split;
    SplitLogicalKey(v);
    SplitPlain(prefix, '/');
    SplitConcat(prefix, LogicalKey(v), '/');
  }

  /** A file name determines the sequence number and the checksum printed into it. */
  lemma {:induction false} FilenameInjective(n: nat, a: string, m: nat, b: string)
    requires Filename(n, a) == Filename(m, b)
    ensures n == m && a == b
  {
    hide Padded;
    assert Filename(n, a) == Padded(n) + ['-'] + (a + RAW_SUFFIX);
    assert Filename(m, b) == Padded(m) + ['-'] + (b + RAW_SUFFIX);
    PartitionAt(Padded(n), a + RAW_SUFFIX, '-');
    PartitionAt(Padded(m), b + RAW_SUFFIX, '-');
    ParsePadded(n);
    ParsePadded(m);
    assert a == (a + RAW_SUFFIX)[..|a + RAW_SUFFIX| - |RAW_SUFFIX|];
    assert b == (b + RAW_SUFFIX)[..|b + RAW_SUFFIX| - |RAW_SUFFIX|];
  }

  lemma {:induction false} LogicalKeyInjective(v: Version, u: Version)
    requires PlainVersion(v) && PlainVersion(u) && LogicalKey(v) == LogicalKey(u)
    ensures v == u
  {
    hide LogicalKey, Filename, Split;
    SplitLogicalKey(v);
    SplitLogicalKey(u);
    var parts := Split(LogicalKey(v), '/');
    assert parts[0] == v.pipeline == u.pipeline && parts[1] == v.run == u.run
        && parts[2] == Filename(u.sequence, u.checksum);
    FilenameInjective(v.sequence, v.checksum, u.sequence, u.checksum);
  }

  /** Distinct (tenant, pipeline, run, sequence, checksum) have distinct keys. */
  lemma {:induction false} KeyInjective(prefix: string, v: Version, other: string, u: Version)
    requires Plain(prefix) && PlainVersion(v) && Plain(other) && PlainVersion(u)
    ensures PrefixedKey(prefix, v) == PrefixedKey(other, u) <==> prefix == other && v == u
  {
    hide LogicalKey, Filename, Split;
    if PrefixedKey(prefix, v) == PrefixedKey(other, u) {
      SplitPrefixedKey(prefix, v);
      SplitPrefixedKey(other, u);
      var parts := Split(PrefixedKey(prefix, v), '/');
      assert parts[0] == prefix == other;
      assert LogicalKey(v) == PrefixedKey(prefix, v)[|prefix| + 1..];
      LogicalKeyInjective(v, u);
    }
  }

  /** A prefixed key is never the unprefixed key of any version. */
  lemma {:induction false} PrefixedIsNotLogical(prefix: string, v: Version, u: Version)
    requires Plain(prefix) && PlainVersion(v) && PlainVersion(u)
    ensures PrefixedKey(prefix, v) != LogicalKey(u)
  {
    hide LogicalKey, PrefixedKey, Split;
    SplitPrefixedKey(prefix, v);
    SplitLogicalKey(u);
  }

  /** The checksum is read back from any key a version is stored under, in each generation. */
  lemma {:induction false} ChecksumRoundTrip(prefix: string, v: Version)
    requires Plain(prefix) && PlainVersion(v) && |v.checksum| == CHECKSUM_LENGTH
    ensures ChecksumFromKey(PrefixedKey(prefix, v)) == Some(v.checksum)
    ensures ChecksumFromKey(LogicalKey(v)) == Some(v.checksum)
  {
    hide LogicalKey, PrefixedKey, Padded, Split;
    SplitPrefixedKey(prefix, v);
    SplitLogicalKey(v);
    var name := Filename(v.sequence, v.checksum);
    var stem := Padded(v.sequence) + "-" + v.checksum;
    assert name == stem + RAW_SUFFIX;
    assert name[..|name| - |RAW_SUFFIX|] == stem && name[|name| - |RAW_SUFFIX|..] == RAW_SUFFIX;
    PartitionAt(Padded(v.sequence), v.checksum, '-');
  }

  // ---- URIs -----------------------------------------------------------------------------------

  const ACCESS_DENIED := Error(RawPayloadAccessDenied, false)

  function Uri(bucket: string, key: string): string {
    URI_SCHEME + bucket + "/" + key
  }

  function ParseUri(configured: string, uri: string): Result<string, Error> {
    if !(URI_SCHEME <= uri) then Err(ACCESS_DENIED)
    else
      var (bucket, found, key) := Partition(uri[|URI_SCHEME|..], '/');
      if bucket == "" || key == "" then Err(ACCESS_DENIED)
      else if bucket != configured then Err(ACCESS_DENIED)
      else Ok(key)
  }

  /** A URI is accepted exactly when it names a key in the configured bucket, and that key is what
      parsing returns. */
  lemma {:induction false} ParseUriExact(bucket: string, uri: string, key: string)
    requires bucket != "" && Plain(bucket)
    ensures ParseUri(bucket, uri) == Ok(key) <==> key != "" && uri == Uri(bucket, key)
  {
    if ParseUri(bucket, uri) == Ok(key) {
      assert uri == URI_SCHEME + uri[|URI_SCHEME|..];
    }
    if key != "" && uri == Uri(bucket, key) {
      assert uri[|URI_SCHEME|..] == bucket + ['/'] + key;
      PartitionAt(bucket, key, '/');
    }
  }

  /** Reading a URI also demands that its key lies under the active tenant's prefix. */
  function ParseAndAuthorize(bucket: string, tenant: string, uri: string): Result<string, Error> {
    match ParseUri(bucket, uri)
    case Err(e) => Err(e)
    case Ok(key) => if Split(key, '/')[0] != tenant then Err(ACCESS_DENIED) else Ok(key)
  }

  lemma {:induction false} FirstPart(key: string, tenant: string)
    requires Plain(tenant)
    ensures Split(key, '/')[0] == tenant <==> key == tenant || tenant + "/" <= key
  {
    hide Split, Join;
    var parts := Split(key, '/');
    if parts[0] == tenant {
      JoinSplit(key, '/');
      JoinFirst(parts, '/');
    }
    SplitPlain(tenant, '/');
    if tenant + "/" <= key {
      SplitConcat(tenant, key[|tenant| + 1..], '/');
      assert key == tenant + ['/'] + key[|tenant| + 1..];
    }
  }

  lemma {:induction false} JoinFirst(parts: seq<string>, sep: char)
    requires |parts| > 0
    ensures Join(parts, sep) == if |parts| == 1 then parts[0] else parts[0] + [sep] + Join(parts[1..], sep)
  {
  }

  /** `uri` names the key, in the bucket and under the tenant's prefix. */
  predicate MayRead(bucket: string, tenant: string, uri: string, key: string) {
    key != "" && uri == "s3://" + bucket + "/" + key && (key == tenant || tenant + "/" <= key)
  }

  /** Whatever the URI, a tenant gets exactly the keys under its own prefix. */
  lemma {:induction false} ReadableKeys(bucket: string, tenant: string, uri: string, key: string)
    requires bucket != "" && Plain(bucket) && Plain(tenant)
    ensures ParseAndAuthorize(bucket, tenant, uri) == Ok(key) <==> MayRead(bucket, tenant, uri, key)
    ensures ParseAndAuthorize(bucket, tenant, uri).Err? ==>
      ParseAndAuthorize(bucket, tenant, uri).error == Error(RawPayloadAccessDenied, false)
  {
    hide ParseUri, Split;
    ParseUriExact(bucket, uri, key);
    RefusalIsDenial(bucket, uri);
    FirstPart(key, tenant);
  }

  lemma {:induction false} RefusalIsDenial(bucket: string, uri: string)
    ensures ParseUri(bucket, uri).Err? ==> ParseUri(bucket, uri).error == ACCESS_DENIED
  {
  }

  /** A tenant can read back the URIs of its own keys, and no other tenant's. */
  lemma {:induction false} AuthorizedExactly(bucket: string, tenant: string, owner: string, v: Version)
    requires bucket != "" && Plain(bucket) && Plain(owner) && PlainVersion(v)
    ensures ParseAndAuthorize(bucket, tenant, Uri(bucket, PrefixedKey(owner, v)))
         == if tenant == owner then Ok(PrefixedKey(owner, v)) else Err(ACCESS_DENIED)
  {
    hide ParseUri, Split, LogicalKey;
    ParseUriExact(bucket, Uri(bucket, PrefixedKey(owner, v)), PrefixedKey(owner, v));
    SplitPrefixedKey(owner, v);
  }
}
