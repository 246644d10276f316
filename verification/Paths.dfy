/** Dotted lookups into JSON values (apps/core/paths.py). */
module Paths {
  import opened Prelude

  datatype Json =
    | JNull
    | JBool(b: bool)
    | JNumber(literal: string)
    | JString(s: string)
    | JArray(items: seq<Json>)
    | JObject(fields: map<string, Json>)

  /** `path.split(sep)`: the empty text splits into one empty part. */
  function Split(text: string, sep: char): (parts: seq<string>)
    ensures |parts| > 0
    ensures forall i | 0 <= i < |parts| :: sep !in parts[i]
  {
    if text == "" then [""]
    else
      var rest := Split(text[1..], sep);
      if text[0] == sep then [""] + rest else [[text[0]] + rest[0]] + rest[1..]
  }

  function Join(parts: seq<string>, sep: char): string {
    if parts == [] then ""
    else if |parts| == 1 then parts[0]
    else parts[0] + [sep] + Join(parts[1..], sep)
  }

  lemma {:induction false} JoinSplit(text: string, sep: char)
    ensures Join(Split(text, sep), sep) == text
  {
    if text != "" {
      var rest := Split(text[1..], sep);
      JoinSplit(text[1..], sep);
      assert text == [text[0]] + text[1..];
      if text[0] == sep {
        assert ([""] + rest)[1..] == rest;
      } else {
        var parts := [[text[0]] + rest[0]] + rest[1..];
        assert parts[1..] == rest[1..];
      }
    }
  }

  lemma {:induction false} SplitConcat(left: string, right: string, sep: char)
    ensures Split(left + [sep] + right, sep) == Split(left, sep) + Split(right, sep)
  {
    var whole := left + [sep] + right;
    if left == "" {
      assert whole[1..] == right;
    } else {
      assert whole[1..] == left[1..] + [sep] + right;
      SplitConcat(left[1..], right, sep);
    }
  }

  /** Walks the parts one key at a time; None once a key is absent or the value is not an object. */
  function Walk(value: Json, parts: seq<string>): Option<Json> {
    if parts == [] then Some(value)
    else if !value.JObject? || parts[0] !in value.fields then None
    else Walk(value.fields[parts[0]], parts[1..])
  }

  function Lookup(value: Json, path: string): Option<Json> {
    Walk(value, Split(path, '.'))
  }

  lemma {:induction false} SplitPlain(text: string, sep: char)
    requires sep !in text
    ensures Split(text, sep) == [text]
  {
    if text != "" {
      SplitPlain(text[1..], sep);
      assert text[0] != sep && text == [text[0]] + text[1..];
    }
  }

  /** A single key finds what the object holds under it, be it an explicit null, and nothing where there
      is no such key or no object. */
  lemma {:induction false} LookupKey(value: Json, key: string)
    requires '.' !in key
    ensures Lookup(value, key) == if value.JObject? && key in value.fields then Some(value.fields[key]) else None
  {
    SplitPlain(key, '.');
    if value.JObject? && key in value.fields {
      assert Walk(value, [key]) == Walk(value.fields[key], [key][1..]);
    }
  }

  lemma {:induction false} WalkConcat(value: Json, front: seq<string>, back: seq<string>)
    ensures Walk(value, front + back)
         == match Walk(value, front) case None => None case Some(inner) => Walk(inner, back)
  {
    if front == [] {
      assert front + back == back;
    } else {
      assert (front + back)[1..] == front[1..] + back;
      if value.JObject? && front[0] in value.fields {
        WalkConcat(value.fields[front[0]], front[1..], back);
      }
    }
  }

  /** A dotted path is a composition of lookups: "a.b" is "b" looked up inside "a". */
  lemma LookupComposes(value: Json, outer: string, inner: string)
    ensures Lookup(value, outer + "." + inner)
         == match Lookup(value, outer) case None => None case Some(v) => Lookup(v, inner)
  {
    SplitConcat(outer, inner, '.');
    WalkConcat(value, Split(outer, '.'), Split(inner, '.'));
  }

  /** A missing field and a field holding an explicit null are told apart by `found`. */
  method GetByPath(obj: Json, path: string) returns (value: Json, found: bool)
    ensures found <==> Lookup(obj, path).Some?
    ensures value == if found then Lookup(obj, path).value else JNull
  {
    var parts := Split(path, '.');
    var current := obj;
    for i := 0 to |parts|
      invariant Walk(obj, parts) == Walk(current, parts[i..])
    {
      if !current.JObject? || parts[i] !in current.fields {
        return JNull, false;
      }
      current := current.fields[parts[i]];
    }
    return current, true;
  }
}
