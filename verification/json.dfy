/** The value tree shared by the cache and the feed parser. Python's JSON
    values, and the nested dict/list/text/None tree that `xmltodict.parse`
    returns for a NextBus document, are both modelled as `Json`: an element
    is a `JObj` whose keys are `@attribute` names, `#text` and child element
    names; a repeated child is a `JArr`; an absent or empty one is `JNull`. */
module Json {
  import opened Wrappers
  import opened Errors

  datatype Json =
    | JNull
    | JStr(str: string)
    | JArr(items: seq<Json>)
    | JObj(fields: seq<Field>)

  /** One key of a dict, in insertion order (an `OrderedDict` entry). */
  datatype Field = Field(key: string, value: Json)

  function Lookup(fs: seq<Field>, k: string): Option<Json> {
    if |fs| == 0 then None
    else if fs[0].key == k then Some(fs[0].value)
    else Lookup(fs[1..], k)
  }

  /** A key is found exactly when some field has it, and what is found is
      that field's value. */
  lemma {:induction false} LookupIndex(fs: seq<Field>, k: string)
    ensures Lookup(fs, k).Some? <==> exists i :: 0 <= i < |fs| && fs[i].key == k
    ensures Lookup(fs, k).Some? ==> exists i :: 0 <= i < |fs| && fs[i].key == k && fs[i].value == Lookup(fs, k).value
  {
    if |fs| > 0 {
      LookupIndex(fs[1..], k);
      if Lookup(fs[1..], k).Some? && fs[0].key != k {
        var i :| 0 <= i < |fs| - 1 && fs[1..][i].key == k && fs[1..][i].value == Lookup(fs, k).value;
        assert fs[i + 1] == fs[1..][i];
      }
      if fs[0].key != k && exists i :: 0 <= i < |fs| && fs[i].key == k {
        var i :| 0 <= i < |fs| && fs[i].key == k;
        assert fs[1..][i - 1] == fs[i];
      }
    }
  }

  function Keys(fs: seq<Field>): set<string> {
    if |fs| == 0 then {} else {fs[0].key} + Keys(fs[1..])
  }

  lemma {:induction false} KeysIndex(fs: seq<Field>, k: string)
    ensures k in Keys(fs) <==> exists i :: 0 <= i < |fs| && fs[i].key == k
  {
    if |fs| > 0 {
      KeysIndex(fs[1..], k);
      if k in Keys(fs[1..]) {
        var i :| 0 <= i < |fs| - 1 && fs[1..][i].key == k;
        assert fs[i + 1].key == k;
      }
      if exists i :: 0 <= i < |fs| && fs[i].key == k {
        var i :| 0 <= i < |fs| && fs[i].key == k;
        if i > 0 { assert fs[1..][i - 1].key == k; }
      }
    }
  }

  predicate UniqueKeys(fs: seq<Field>) {
    forall i, j :: 0 <= i < j < |fs| ==> fs[i].key != fs[j].key
  }

  /** `d[k] = v` on an ordered dict: an existing key keeps its position and
      takes the new value; a new key goes last. */
  function Put(fs: seq<Field>, k: string, v: Json): (r: seq<Field>)
    ensures Lookup(r, k) == Some(v)
    ensures forall k' :: k' != k ==> Lookup(r, k') == Lookup(fs, k')
  {
    if |fs| == 0 then [Field(k, v)]
    else if fs[0].key == k then [Field(k, v)] + fs[1..]
    else [fs[0]] + Put(fs[1..], k, v)
  }

  /** Assignment adds exactly its key; a key not already present goes last. */
  lemma {:induction false} PutKeys(fs: seq<Field>, k: string, v: Json)
    ensures Keys(Put(fs, k, v)) == Keys(fs) + {k}
    ensures k in Keys(fs) ==> |Put(fs, k, v)| == |fs|
    ensures k !in Keys(fs) ==> Put(fs, k, v) == fs + [Field(k, v)]
  {
    var r := Put(fs, k, v);
    if |fs| > 0 {
      assert r[1..] == (if fs[0].key == k then fs[1..] else Put(fs[1..], k, v));
      if fs[0].key != k {
        PutKeys(fs[1..], k, v);
        assert fs == [fs[0]] + fs[1..];
      }
    }
  }

  /** A field goes in front of distinct keys without clashing when its key
      is not among them. */
  lemma ConsUnique(f: Field, rest: seq<Field>)
    requires UniqueKeys(rest) && f.key !in Keys(rest)
    ensures UniqueKeys([f] + rest)
  {
    var r := [f] + rest;
    KeysIndex(rest, f.key);
    forall i, j | 0 <= i < j < |r| ensures r[i].key != r[j].key {
      assert r[j] == rest[j - 1];
      if i > 0 { assert r[i] == rest[i - 1]; }
    }
  }

  /** The keys of a tail are distinct when those of the whole are, and
      leave out the head's key. */
  lemma TailUnique(fs: seq<Field>)
    requires |fs| > 0 && UniqueKeys(fs)
    ensures UniqueKeys(fs[1..]) && fs[0].key !in Keys(fs[1..])
  {
    KeysIndex(fs[1..], fs[0].key);
    assert forall i :: 0 <= i < |fs[1..]| ==> fs[1..][i] == fs[i + 1];
  }

  /** Assignment keeps the keys of an ordered dict distinct. */
  lemma {:induction false} PutUnique(fs: seq<Field>, k: string, v: Json)
    requires UniqueKeys(fs)
    ensures UniqueKeys(Put(fs, k, v))
  {
    if |fs| > 0 {
      TailUnique(fs);
      if fs[0].key == k {
        ConsUnique(Field(k, v), fs[1..]);
      } else {
        PutUnique(fs[1..], k, v);
        PutKeys(fs[1..], k, v);
        ConsUnique(fs[0], Put(fs[1..], k, v));
      }
    }
  }

  /** Python truthiness: None, '' and empty containers are false. */
  predicate Truthy(j: Json) {
    match j
    case JNull => false
    case JStr(s) => |s| > 0
    case JArr(xs) => |xs| > 0
    case JObj(fs) => |fs| > 0
  }

  /** `j.get(k)`: a dict answers its value or None; anything else has no
      `get` and raises AttributeError. */
  function PyGet(j: Json, k: string): (r: Outcome<Json>)
    ensures r.Success? <==> j.JObj?
    ensures j.JObj? && Lookup(j.fields, k).None? ==> r == Success(JNull)
    ensures j.JObj? && Lookup(j.fields, k).Some? ==> r == Success(Lookup(j.fields, k).value)
    ensures r.Failure? ==> r.error.kind == AttributeError
  {
    match j
    case JObj(fs) => Success(Lookup(fs, k).GetOr(JNull))
    case _ => Raise(AttributeError, "object has no attribute 'get'")
  }

  /** `j[k]` with a text key: KeyError on a dict without it, TypeError on anything but a dict. */
  function Subscript(j: Json, k: string): (r: Outcome<Json>)
    ensures r.Success? <==> j.JObj? && k in Keys(j.fields)
    ensures r.Success? ==> Lookup(j.fields, k) == Some(r.value)
    ensures r.Failure? ==> r.error.kind == (if j.JObj? then KeyError else TypeError)
  {
    match j
    case JObj(fs) =>
      KeysIndex(fs, k);
      LookupIndex(fs, k);
      (match Lookup(fs, k)
       case Some(v) => Success(v)
       case None => Raise(KeyError, k))
    case _ => Raise(TypeError, "indices must be integers")
  }

  /** The one-item-or-list normalisation of the feed builders in
      `next_bus_xml.py`: a list stays, None becomes [], anything else [it]. */
  function AsList(j: Json): (r: seq<Json>)
    ensures j.JArr? ==> r == j.items
    ensures j.JNull? ==> r == []
    ensures !j.JArr? && !j.JNull? ==> r == [j]
  {
    match j
    case JArr(xs) => xs
    case JNull => []
    case _ => [j]
  }

  /** The normalisation of `next_bus.py`: anything but a list becomes [it],
      so an absent child becomes [None]. */
  function WrapList(j: Json): (r: seq<Json>)
    ensures j.JArr? ==> r == j.items
    ensures !j.JArr? ==> r == [j]
  {
    match j
    case JArr(xs) => xs
    case _ => [j]
  }

  /** What `for x in j` walks: a list's items, a dict's keys, a text's
      characters; iterating None raises TypeError. */
  function Iterate(j: Json): (r: Outcome<seq<Json>>)
    ensures r.Failure? <==> j.JNull?
    ensures j.JArr? ==> r == Success(j.items)
    ensures j.JObj? ==> r.Success? && |r.value| == |j.fields|
    ensures j.JStr? ==> r.Success? && |r.value| == |j.str|
  {
    match j
    case JNull => Raise(TypeError, "'NoneType' object is not iterable")
    case JArr(xs) => Success(xs)
    case JObj(fs) => Success(seq(|fs|, i requires 0 <= i < |fs| => JStr(fs[i].key)))
    case JStr(s) => Success(seq(|s|, i requires 0 <= i < |s| => JStr([s[i]])))
  }
}
