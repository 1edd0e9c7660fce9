/** Values shared by every part of the model: optional values and results, the
    exceptions the core raises, and the JSON-like values that payloads, metadata
    and request dictionaries hold, with Python's truthiness rules for them. */
module Common {

  datatype Option<+T> = None | Some(value: T)

  /** The exceptions the core raises or lets through, one variant per cause. */
  datatype Error =
    | InvalidContent                     // ValueError("Invalid type or missing content")
    | InvalidMemoryId(memoryId: string)  // int(memory_id) rejects the id text
    | InvalidDocumentId(id: string)      // int(doc['id']) rejects a bulk document's id
    | MemoryNotFound(memoryId: string)   // ValueError("Memory with ID ... not found")
    | ImageFileNotFound(path: string)    // FileNotFoundError from the image embedder
    | CollectionNotFound(name: string)   // the vector store has no such collection
    | ValidationError                    // a record type refuses a field's value

  datatype Result<+T> = Ok(value: T) | Err(error: Error)

  datatype Outcome = Pass | Fail(error: Error)

  /** An embedding; its numbers are produced and compared only by external code. */
  type Vector = seq<real>

  /** A payload or request value: JSON null, a string, or a list of strings. */
  datatype Value = Null | Str(s: string) | StrList(items: seq<string>)

  /** Python truthiness of a value: None, "" and [] are false. */
  predicate Truthy(v: Value) {
    match v
    case Null => false
    case Str(s) => s != ""
    case StrList(xs) => xs != []
  }

  /** Truthiness of an `Optional[str]`. */
  predicate Given(o: Option<string>) {
    o.Some? && o.value != ""
  }

  /** Truthiness of an `Optional[list[str]]`. */
  predicate GivenList(o: Option<seq<string>>) {
    o.Some? && o.value != []
  }

  /** An optional string field as a dictionary value (None becomes null). */
  function OptStr(o: Option<string>): Value {
    if o.Some? then Str(o.value) else Null
  }

  /** An optional list field as a dictionary value (None becomes null). */
  function OptList(o: Option<seq<string>>): Value {
    if o.Some? then StrList(o.value) else Null
  }

  /** A stored payload: a JSON object, where key order carries no meaning. */
  type Payload = map<string, Value>

  /** A Python dict whose insertion order matters (its `str()` depends on it).
      A Python dict never repeats a key (`UniqueKeys`); every dict the routes
      build is proved to be such, and a sequence that repeats a key stands for
      no Python value and lies outside the model. */
  type Dict = seq<(string, Value)>

  /** No key occurs twice, as in every dict built by a literal. */
  ghost predicate UniqueKeys(d: Dict) {
    forall i, j :: 0 <= i < j < |d| ==> d[i].0 != d[j].0
  }

  /** The dict's contents as a map; a later entry for a key replaces an earlier one. */
  function AsMap(d: Dict): Payload
    decreases |d|
  {
    if d == [] then map[]
    else
      var init := d[..|d| - 1];
      assert d == init + [d[|d| - 1]];
      AsMap(init)[d[|d| - 1].0 := d[|d| - 1].1]
  }

  /** `p.get(key)`: the value, or None when the key is absent. */
  function Get(p: Payload, key: string): Value {
    if key in p then p[key] else Null
  }

  /** `{k: v for k, v in d.items() if v is not None}`. */
  function DropNulls(d: Dict): Dict
    decreases |d|
  {
    if d == [] then []
    else
      var init := d[..|d| - 1];
      assert d == init + [d[|d| - 1]];
      DropNulls(init) + (if d[|d| - 1].1 == Null then [] else [d[|d| - 1]])
  }

  /** The map's keys are exactly the dict's keys. */
  lemma {:induction false} AsMapKeys(d: Dict)
    ensures AsMap(d).Keys == set e | e in d :: e.0
    decreases |d|
  {
    if d != [] {
      var init := d[..|d| - 1];
      assert d == init + [d[|d| - 1]];
      AsMapKeys(init);
    }
  }

  /** Dropping nulls keeps exactly the entries whose value is not null. */
  lemma {:induction false} DropNullsMembers(d: Dict)
    ensures forall e :: e in DropNulls(d) <==> e in d && e.1 != Null
    decreases |d|
  {
    if d != [] {
      var init := d[..|d| - 1];
      assert d == init + [d[|d| - 1]];
      DropNullsMembers(init);
    }
  }

  /** In a dict without repeated keys, each entry's value is what the map holds. */
  lemma {:induction false} AsMapLookup(d: Dict, i: nat)
    requires UniqueKeys(d) && i < |d|
    ensures d[i].0 in AsMap(d) && AsMap(d)[d[i].0] == d[i].1
  {
    var n := |d| - 1;
    if i < n {
      AsMapLookup(d[..n], i);
      assert d[i].0 != d[n].0;
    }
  }

  /** Dropping nulls keeps the remaining entries in their original order. */
  lemma {:induction false} DropNullsAppend(a: Dict, b: Dict)
    ensures DropNulls(a + b) == DropNulls(a) + DropNulls(b)
    decreases |b|
  {
    if b == [] {
      assert a + b == a;
    } else {
      var n := |b| - 1;
      assert (a + b)[..|a + b| - 1] == a + b[..n];
      DropNullsAppend(a, b[..n]);
    }
  }

  /** A dict without repeated keys keeps that property once its nulls are dropped. */
  lemma {:induction false} DropNullsUnique(d: Dict)
    requires UniqueKeys(d)
    ensures UniqueKeys(DropNulls(d))
    decreases |d|
  {
    if d != [] {
      var n := |d| - 1;
      var init := d[..n];
      assert UniqueKeys(init);
      DropNullsUnique(init);
      var r := DropNulls(init);
      DropNullsMembers(init);
      forall j | 0 <= j < |r|
        ensures r[j].0 != d[n].0
      {
        assert r[j] in init;
        var i :| 0 <= i < n && init[i] == r[j];
        assert d[i] == r[j];
      }
    }
  }

  /** After dropping nulls, exactly the keys with a non-null value remain, with
      their values. */
  lemma DropNullsAsMap(d: Dict, k: string)
    requires UniqueKeys(d)
    ensures k in AsMap(DropNulls(d)) <==> k in AsMap(d) && AsMap(d)[k] != Null
    ensures k in AsMap(DropNulls(d)) ==> AsMap(DropNulls(d))[k] == AsMap(d)[k]
  {
    var r := DropNulls(d);
    DropNullsUnique(d);
    DropNullsMembers(d);
    AsMapKeys(r);
    AsMapKeys(d);
    if k in AsMap(r) {
      var e :| e in r && e.0 == k;
      var j :| 0 <= j < |r| && r[j] == e;
      AsMapLookup(r, j);
      var i :| 0 <= i < |d| && d[i] == e;
      AsMapLookup(d, i);
    } else if k in AsMap(d) {
      var e :| e in d && e.0 == k;
      var i :| 0 <= i < |d| && d[i] == e;
      AsMapLookup(d, i);
      assert e !in r;
    }
  }

  /** An entry of a dict without repeated keys survives dropping nulls exactly
      when its value is not null, and keeps that value. */
  lemma DropNullsEntry(d: Dict, i: nat)
    requires UniqueKeys(d) && i < |d|
    ensures var m := AsMap(DropNulls(d));
      (d[i].0 in m <==> d[i].1 != Null) && (d[i].0 in m ==> m[d[i].0] == d[i].1)
  {
    AsMapLookup(d, i);
    DropNullsAsMap(d, d[i].0);
  }

  /** A key the dict does not have is not there after dropping nulls either. */
  lemma DropNullsNoKey(d: Dict, k: string)
    requires forall i :: 0 <= i < |d| ==> d[i].0 != k
    ensures k !in AsMap(DropNulls(d))
  {
    DropNullsMembers(d);
    AsMapKeys(DropNulls(d));
    forall e | e in DropNulls(d)
      ensures e.0 != k
    {
      var i :| 0 <= i < |d| && d[i] == e;
    }
  }
}
