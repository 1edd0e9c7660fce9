/** Building the store predicate from optional filter arguments, and the search
    call that passes it on (qdrant/search.py). */
module Search {
  import opened Common
  import opened Qdrant
  import opened Embeddings

  /** The arguments of `build_filter`, in the order of its signature. */
  datatype FilterArgs = FilterArgs(
    department: Option<string>,
    dateFrom: Option<string>,
    dateTo: Option<string>,
    outcome: Option<string>,
    typeFilter: Option<string>,
    location: Option<string>,
    tags: Option<seq<string>>)

  /** An exact-match condition on one payload key. */
  function Exact(key: string, value: string): Condition {
    FieldMatch(key, MatchValue(value))
  }

  /** The any-of entries of the tags condition: one exact-match condition object
      per tag, in the order given (condition objects, not the tag strings). */
  function TagEntries(tags: seq<string>): seq<Condition> {
    seq(|tags|, i requires 0 <= i < |tags| => Exact("tags", tags[i]))
  }

  /** The date range: `gte` only when `date_from` is given, `lte` only when
      `date_to` is. */
  function DateBounds(a: FilterArgs): Range {
    Range(if Given(a.dateFrom) then a.dateFrom else None,
          if Given(a.dateTo) then a.dateTo else None)
  }

  function ExactIf(key: string, v: Option<string>): seq<Condition> {
    if Given(v) then [Exact(key, v.value)] else []
  }

  function TagsIf(tags: Option<seq<string>>): seq<Condition> {
    if GivenList(tags) then [FieldMatch("tags", MatchAny(TagEntries(tags.value)))] else []
  }

  function DateIf(a: FilterArgs): seq<Condition> {
    if Given(a.dateFrom) || Given(a.dateTo) then [FieldRange("date", DateBounds(a))] else []
  }

  /** The conditions `build_filter` collects, in the order it collects them. */
  function Conditions(a: FilterArgs): seq<Condition> {
    ExactIf("department", a.department) + ExactIf("outcome", a.outcome)
    + ExactIf("type", a.typeFilter) + ExactIf("location", a.location)
    + TagsIf(a.tags) + DateIf(a)
  }

  /** What `build_filter` returns: one `must` conjunction, or None without conditions. */
  function FilterFor(a: FilterArgs): Option<Filter> {
    if Conditions(a) == [] then None else Some(Filter(Conditions(a)))
  }

  /** Every argument is falsy: None, "" or []. */
  predicate NothingSet(a: FilterArgs) {
    !Given(a.department) && !Given(a.outcome) && !Given(a.typeFilter) && !Given(a.location)
    && !GivenList(a.tags) && !Given(a.dateFrom) && !Given(a.dateTo)
  }

  /** `build_filter`: grows the condition list one field at a time and the tag
      entries one tag at a time. */
  method BuildFilter(
    department: Option<string> := None,
    dateFrom: Option<string> := None,
    dateTo: Option<string> := None,
    outcome: Option<string> := None,
    typeFilter: Option<string> := None,
    location: Option<string> := None,
    tags: Option<seq<string>> := None)
    returns (r: Option<Filter>)
    ensures r == FilterFor(FilterArgs(department, dateFrom, dateTo, outcome, typeFilter, location, tags))
  {
    ghost var a := FilterArgs(department, dateFrom, dateTo, outcome, typeFilter, location, tags);
    var conditions: seq<Condition> := [];
    if Given(department) {
      conditions := conditions + [Exact("department", department.value)];
    }
    assert conditions == ExactIf("department", department);
    if Given(outcome) {
      conditions := conditions + [Exact("outcome", outcome.value)];
    }
    assert conditions == ExactIf("department", department) + ExactIf("outcome", outcome);
    if Given(typeFilter) {
      conditions := conditions + [Exact("type", typeFilter.value)];
    }
    if Given(location) {
      conditions := conditions + [Exact("location", location.value)];
    }
    ghost var scalars := conditions;
    assert scalars == ExactIf("department", department) + ExactIf("outcome", outcome)
      + ExactIf("type", typeFilter) + ExactIf("location", location);
    if GivenList(tags) {
      var tagConditions: seq<Condition> := [];
      for i := 0 to |tags.value|
        invariant |tagConditions| == i
        invariant forall j :: 0 <= j < i ==> tagConditions[j] == Exact("tags", tags.value[j])
      {
        tagConditions := tagConditions + [Exact("tags", tags.value[i])];
      }
      assert tagConditions == TagEntries(tags.value);
      if tagConditions != [] {
        conditions := conditions + [FieldMatch("tags", MatchAny(tagConditions))];
      }
    }
    assert conditions == scalars + TagsIf(tags);
    if Given(dateFrom) || Given(dateTo) {
      var gte: Option<string> := None;
      var lte: Option<string> := None;
      if Given(dateFrom) {
        gte := dateFrom;
      }
      if Given(dateTo) {
        lte := dateTo;
      }
      assert Range(gte, lte) == DateBounds(a);
      conditions := conditions + [FieldRange("date", Range(gte, lte))];
    }
    assert conditions == Conditions(a);
    r := if conditions != [] then Some(Filter(conditions)) else None;
  }

  lemma KeyCountSingle(c: Condition, key: string)
    ensures KeyCount([c], key) == if c.key == key then 1 else 0
  {
    assert [c][1..] == [];
  }

  /** The number of conditions on a key. */
  function KeyCount(cs: seq<Condition>, key: string): nat
    decreases |cs|
  {
    if cs == [] then 0 else (if cs[0].key == key then 1 else 0) + KeyCount(cs[1..], key)
  }

  lemma {:induction false} KeyCountAppend(xs: seq<Condition>, ys: seq<Condition>, key: string)
    ensures KeyCount(xs + ys, key) == KeyCount(xs, key) + KeyCount(ys, key)
    decreases |xs|
  {
    if xs == [] {
      assert xs + ys == ys;
    } else {
      assert (xs + ys)[0] == xs[0];
      assert (xs + ys)[1..] == xs[1..] + ys;
      KeyCountAppend(xs[1..], ys, key);
    }
  }

  /** The fixed position of each key in the condition list. */
  function KeyRank(key: string): nat {
    if key == "department" then 0
    else if key == "outcome" then 1
    else if key == "type" then 2
    else if key == "location" then 3
    else if key == "tags" then 4
    else if key == "date" then 5
    else 6
  }

  ghost predicate Ordered(cs: seq<Condition>) {
    forall i, j :: 0 <= i < j < |cs| ==> KeyRank(cs[i].key) < KeyRank(cs[j].key)
  }

  ghost predicate RanksBelow(cs: seq<Condition>, bound: nat) {
    forall c :: c in cs ==> KeyRank(c.key) < bound
  }

  ghost predicate RanksAre(cs: seq<Condition>, rank: nat) {
    |cs| <= 1 && forall c :: c in cs ==> KeyRank(c.key) == rank
  }

  lemma OrderedAppend(xs: seq<Condition>, ys: seq<Condition>, rank: nat)
    requires Ordered(xs) && RanksBelow(xs, rank) && RanksAre(ys, rank)
    ensures Ordered(xs + ys) && RanksBelow(xs + ys, rank + 1)
  {
    forall i, j | 0 <= i < j < |xs + ys|
      ensures KeyRank((xs + ys)[i].key) < KeyRank((xs + ys)[j].key)
    {
      if j >= |xs| {
        assert (xs + ys)[j] in ys;
        assert (xs + ys)[i] in xs;
      }
    }
  }

  /** `build_filter` returns None exactly when every argument is falsy. */
  lemma FilterAbsentIffNothingSet(a: FilterArgs)
    ensures FilterFor(a) == None <==> NothingSet(a)
    ensures FilterFor(a) != None ==> FilterFor(a).value.must == Conditions(a)
  {
  }

  /** One condition per truthy scalar argument, one for non-empty tags, and one
      for any date bound. */
  lemma ConditionCount(a: FilterArgs)
    ensures |Conditions(a)| ==
      (if Given(a.department) then 1 else 0) + (if Given(a.outcome) then 1 else 0)
      + (if Given(a.typeFilter) then 1 else 0) + (if Given(a.location) then 1 else 0)
      + (if GivenList(a.tags) then 1 else 0)
      + (if Given(a.dateFrom) || Given(a.dateTo) then 1 else 0)
  {
  }

  lemma PiecesRanked(a: FilterArgs)
    ensures RanksAre(ExactIf("department", a.department), 0)
    ensures RanksAre(ExactIf("outcome", a.outcome), 1)
    ensures RanksAre(ExactIf("type", a.typeFilter), 2)
    ensures RanksAre(ExactIf("location", a.location), 3)
    ensures RanksAre(TagsIf(a.tags), 4)
    ensures RanksAre(DateIf(a), 5)
  {
  }

  /** Conditions come in the fixed order department, outcome, type, location,
      tags, date. */
  lemma ConditionsOrdered(a: FilterArgs)
    ensures Ordered(Conditions(a))
  {
    PiecesRanked(a);
    var c1 := ExactIf("department", a.department);
    var c2 := c1 + ExactIf("outcome", a.outcome);
    var c3 := c2 + ExactIf("type", a.typeFilter);
    var c4 := c3 + ExactIf("location", a.location);
    var c5 := c4 + TagsIf(a.tags);
    assert Ordered(c1) && RanksBelow(c1, 1);
    OrderedAppend(c1, ExactIf("outcome", a.outcome), 1);
    OrderedAppend(c2, ExactIf("type", a.typeFilter), 2);
    OrderedAppend(c3, ExactIf("location", a.location), 3);
    OrderedAppend(c4, TagsIf(a.tags), 4);
    OrderedAppend(c5, DateIf(a), 5);
  }

  /** Each truthy scalar argument yields exactly one condition on its key; a
      falsy one yields none. */
  lemma ExactCounts(a: FilterArgs)
    ensures KeyCount(Conditions(a), "department") == (if Given(a.department) then 1 else 0)
    ensures KeyCount(Conditions(a), "outcome") == (if Given(a.outcome) then 1 else 0)
    ensures KeyCount(Conditions(a), "type") == (if Given(a.typeFilter) then 1 else 0)
    ensures KeyCount(Conditions(a), "location") == (if Given(a.location) then 1 else 0)
  {
    SplitCount(a, "department");
    SplitCount(a, "outcome");
    SplitCount(a, "type");
    SplitCount(a, "location");
  }

  /** That condition is an exact match carrying the argument's value. */
  lemma ExactValues(a: FilterArgs)
    ensures Given(a.department) ==> Exact("department", a.department.value) in Conditions(a)
    ensures Given(a.outcome) ==> Exact("outcome", a.outcome.value) in Conditions(a)
    ensures Given(a.typeFilter) ==> Exact("type", a.typeFilter.value) in Conditions(a)
    ensures Given(a.location) ==> Exact("location", a.location.value) in Conditions(a)
  {
  }

  /** The conditions on `key`: one for each truthy argument stored under it. */
  lemma SplitCount(a: FilterArgs, key: string)
    ensures KeyCount(Conditions(a), key) ==
      (if Given(a.department) && key == "department" then 1 else 0)
      + (if Given(a.outcome) && key == "outcome" then 1 else 0)
      + (if Given(a.typeFilter) && key == "type" then 1 else 0)
      + (if Given(a.location) && key == "location" then 1 else 0)
      + (if GivenList(a.tags) && key == "tags" then 1 else 0)
      + (if (Given(a.dateFrom) || Given(a.dateTo)) && key == "date" then 1 else 0)
  {
    var c1 := ExactIf("department", a.department);
    var c2 := c1 + ExactIf("outcome", a.outcome);
    var c3 := c2 + ExactIf("type", a.typeFilter);
    var c4 := c3 + ExactIf("location", a.location);
    var c5 := c4 + TagsIf(a.tags);
    PieceCounts(a, key);
    KeyCountAppend(c1, ExactIf("outcome", a.outcome), key);
    KeyCountAppend(c2, ExactIf("type", a.typeFilter), key);
    KeyCountAppend(c3, ExactIf("location", a.location), key);
    KeyCountAppend(c4, TagsIf(a.tags), key);
    KeyCountAppend(c5, DateIf(a), key);
  }

  lemma PieceCounts(a: FilterArgs, key: string)
    ensures KeyCount(ExactIf("department", a.department), key) == if Given(a.department) && key == "department" then 1 else 0
    ensures KeyCount(ExactIf("outcome", a.outcome), key) == if Given(a.outcome) && key == "outcome" then 1 else 0
    ensures KeyCount(ExactIf("type", a.typeFilter), key) == if Given(a.typeFilter) && key == "type" then 1 else 0
    ensures KeyCount(ExactIf("location", a.location), key) == if Given(a.location) && key == "location" then 1 else 0
    ensures KeyCount(TagsIf(a.tags), key) == if GivenList(a.tags) && key == "tags" then 1 else 0
    ensures KeyCount(DateIf(a), key) == if (Given(a.dateFrom) || Given(a.dateTo)) && key == "date" then 1 else 0
  {
    if Given(a.department) { KeyCountSingle(Exact("department", a.department.value), key); }
    if Given(a.outcome) { KeyCountSingle(Exact("outcome", a.outcome.value), key); }
    if Given(a.typeFilter) { KeyCountSingle(Exact("type", a.typeFilter.value), key); }
    if Given(a.location) { KeyCountSingle(Exact("location", a.location.value), key); }
    if GivenList(a.tags) { KeyCountSingle(FieldMatch("tags", MatchAny(TagEntries(a.tags.value))), key); }
    if Given(a.dateFrom) || Given(a.dateTo) { KeyCountSingle(FieldRange("date", DateBounds(a)), key); }
  }

  /** Non-empty tags yield exactly one "tags" condition: an any-of whose entries
      are one exact-match condition per tag, in input order. */
  lemma TagsCondition(a: FilterArgs)
    ensures KeyCount(Conditions(a), "tags") == (if GivenList(a.tags) then 1 else 0)
    ensures forall c :: c in Conditions(a) && c.key == "tags" ==>
      c == FieldMatch("tags", MatchAny(TagEntries(a.tags.value)))
    ensures GivenList(a.tags) ==>
      var entries := TagEntries(a.tags.value);
      |entries| == |a.tags.value| &&
      forall i :: 0 <= i < |entries| ==> entries[i] == FieldMatch("tags", MatchValue(a.tags.value[i]))
  {
    SplitCount(a, "tags");
    forall c | c in Conditions(a) && c.key == "tags"
      ensures c == FieldMatch("tags", MatchAny(TagEntries(a.tags.value)))
    {
      ConditionPiece(a, c);
    }
  }

  /** A date range condition is present iff a bound is truthy; it has `gte` iff
      `date_from` is truthy and `lte` iff `date_to` is, carrying those values. */
  lemma DateCondition(a: FilterArgs)
    ensures KeyCount(Conditions(a), "date") == (if Given(a.dateFrom) || Given(a.dateTo) then 1 else 0)
    ensures forall c :: c in Conditions(a) && c.key == "date" ==>
      c.FieldRange?
      && (c.range.gte.Some? <==> Given(a.dateFrom)) && (c.range.gte.Some? ==> c.range.gte == a.dateFrom)
      && (c.range.lte.Some? <==> Given(a.dateTo)) && (c.range.lte.Some? ==> c.range.lte == a.dateTo)
  {
    SplitCount(a, "date");
    forall c | c in Conditions(a) && c.key == "date"
      ensures c == FieldRange("date", DateBounds(a))
    {
      ConditionPiece(a, c);
    }
  }

  /** Every condition comes from the piece of one argument. */
  lemma ConditionPiece(a: FilterArgs, c: Condition)
    requires c in Conditions(a)
    ensures c in ExactIf("department", a.department) || c in ExactIf("outcome", a.outcome)
      || c in ExactIf("type", a.typeFilter) || c in ExactIf("location", a.location)
      || c in TagsIf(a.tags) || c in DateIf(a)
  {
  }

  /** `search_memories`: embeds the query and hands the vector, the limit, the
      filter and the collection name to the store unchanged, returning its hits
      unchanged. */
  method SearchMemories(
    client: Client, emb: Embedders, query: string,
    collectionName: string := "memories", limit: Option<int> := Some(5),
    filters: Option<Filter> := None)
    returns (r: Result<seq<Hit>>)
    ensures r == client.SearchResult(SearchRequest(collectionName, emb.text(query), limit, filters))
  {
    var queryVector := emb.text(query);
    r := client.Search(SearchRequest(collectionName, queryVector, limit, filters));
  }
}
