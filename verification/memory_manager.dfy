/** Retrieval: turning optional query filters into a store predicate, searching,
    and hydrating each hit into a MemoryItem (memory/memory_manager.py). */
module MemoryManagement {
  import opened Common
  import opened Text
  import opened Qdrant
  import opened Embeddings
  import opened Schema
  import Search

  /** `payload.get(key)` for an optional string field: None when absent or null;
      a list is refused by the record type. */
  function OptionalStr(p: Payload, key: string): Result<Option<string>> {
    match Get(p, key)
    case Null => Ok(None)
    case Str(s) => Ok(Some(s))
    case StrList(_) => Err(ValidationError)
  }

  /** `payload.get(key, '')` for a required string field: "" when absent; a null
      or a list is refused by the record type. */
  function RequiredStr(p: Payload, key: string): Result<string> {
    if key !in p then Ok("")
    else match p[key]
      case Str(s) => Ok(s)
      case _ => Err(ValidationError)
  }

  /** `payload.get('tags')`: None when absent or null; a plain string is refused. */
  function OptionalTags(p: Payload): Result<Option<seq<string>>> {
    match Get(p, "tags")
    case Null => Ok(None)
    case StrList(xs) => Ok(Some(xs))
    case Str(_) => Err(ValidationError)
  }

  /** Every field the item reads has a shape the record type accepts. */
  predicate WellShaped(p: Payload) {
    OptionalStr(p, "text").Ok? && OptionalStr(p, "image_url").Ok?
    && RequiredStr(p, "department").Ok? && RequiredStr(p, "date").Ok?
    && RequiredStr(p, "outcome").Ok? && RequiredStr(p, "type").Ok?
    && OptionalStr(p, "location").Ok? && OptionalTags(p).Ok?
  }

  /** One search hit as a MemoryItem: the id as its decimal text, the score
      dropped, known payload fields copied, required ones defaulting to "". The
      record type refuses a payload with a wrongly shaped field. */
  function Hydrate(h: Hit): (r: Result<MemoryItem>)
    ensures r.Ok? <==> WellShaped(h.payload)
  {
    var p := h.payload;
    if WellShaped(p) then
      Ok(MemoryItem(
        id := NatToString(h.id),
        text := OptionalStr(p, "text").value,
        imageUrl := OptionalStr(p, "image_url").value,
        department := RequiredStr(p, "department").value,
        date := RequiredStr(p, "date").value,
        outcome := RequiredStr(p, "outcome").value,
        kind := RequiredStr(p, "type").value,
        location := OptionalStr(p, "location").value,
        tags := OptionalTags(p).value))
    else Err(ValidationError)
  }

  /** A required field is the payload's string, or "" when the key is absent. */
  ghost predicate DefaultsToEmpty(p: Payload, key: string, v: string) {
    (key !in p ==> v == "") && (key in p ==> p[key] == Str(v))
  }

  /** An optional field is None exactly when the payload has no value for the key,
      and otherwise the payload's string. */
  ghost predicate CopiedOrNone(p: Payload, key: string, v: Option<string>) {
    (v == None <==> Get(p, key) == Null) && (v.Some? ==> p[key] == Str(v.value))
  }

  /** The fields of a hydrated item: id reads back as the hit's id; department,
      date, outcome and type default to ""; text, image_url, location and tags are
      copied when present and None otherwise. */
  lemma HydrateFields(h: Hit)
    requires WellShaped(h.payload)
    ensures var m := Hydrate(h).value;
      ParseNat(m.id) == Some(h.id)
      && DefaultsToEmpty(h.payload, "department", m.department)
      && DefaultsToEmpty(h.payload, "date", m.date)
      && DefaultsToEmpty(h.payload, "outcome", m.outcome)
      && DefaultsToEmpty(h.payload, "type", m.kind)
      && CopiedOrNone(h.payload, "text", m.text)
      && CopiedOrNone(h.payload, "image_url", m.imageUrl)
      && CopiedOrNone(h.payload, "location", m.location)
      && (m.tags == None <==> Get(h.payload, "tags") == Null)
      && (m.tags.Some? ==> h.payload["tags"] == StrList(m.tags.value))
  {
    ParseNatOfNatToString(h.id);
  }

  /** The hits hydrated in order; the first refused payload ends the loop with
      its error. */
  function HydrateAll(hits: seq<Hit>): (r: Result<seq<MemoryItem>>)
    ensures r.Ok? <==> forall i :: 0 <= i < |hits| ==> Hydrate(hits[i]).Ok?
    ensures r.Ok? ==>
      |r.value| == |hits| && forall i :: 0 <= i < |hits| ==> r.value[i] == Hydrate(hits[i]).value
    decreases |hits|
  {
    if hits == [] then Ok([])
    else
      var init := hits[..|hits| - 1];
      var last := hits[|hits| - 1];
      match HydrateAll(init)
      case Err(e) => Err(e)
      case Ok(items) =>
        match Hydrate(last)
        case Err(e) => Err(e)
        case Ok(m) => Ok(items + [m])
  }

  /** The predicate a retrieval searches with: none without filters, otherwise
      `build_filter` of the filter fields, `type` passed as `type_filter`. */
  function StoreFilter(filters: Option<QueryFilters>): Option<Filter> {
    if filters.None? then None
    else
      var f := filters.value;
      Search.FilterFor(Search.FilterArgs(f.department, f.dateFrom, f.dateTo, f.outcome, f.kind, f.location, f.tags))
  }

  /** The search request a retrieval makes: collection and limit unchanged. */
  function RetrievalRequest(emb: Embedders, collectionName: string, query: string,
                            filters: Option<QueryFilters>, limit: Option<int>): SearchRequest
  {
    SearchRequest(collectionName, emb.text(query), limit, StoreFilter(filters))
  }

  /** What `retrieve_memories` returns. */
  function Retrieval(client: Client, emb: Embedders, collectionName: string, query: string,
                     filters: Option<QueryFilters>, limit: Option<int>): Result<seq<MemoryItem>>
    reads client
  {
    match client.SearchResult(RetrievalRequest(emb, collectionName, query, filters, limit))
    case Err(e) => Err(e)
    case Ok(hits) => HydrateAll(hits)
  }

  class MemoryManager {
    const collectionName: string

    constructor (collectionName: string := "memories")
      ensures this.collectionName == collectionName
    {
      this.collectionName := collectionName;
    }

    /** `retrieve_memories`: builds the predicate, searches this manager's
        collection, and appends one hydrated item per hit. */
    method RetrieveMemories(client: Client, emb: Embedders, query: string,
                            filters: Option<QueryFilters> := None, limit: Option<int> := Some(5))
      returns (r: Result<seq<MemoryItem>>)
      ensures r == Retrieval(client, emb, collectionName, query, filters, limit)
    {
      var qdrantFilter: Option<Filter> := None;
      if filters.Some? {
        var f := filters.value;
        qdrantFilter := Search.BuildFilter(
          department := f.department, outcome := f.outcome, typeFilter := f.kind,
          location := f.location, dateFrom := f.dateFrom, dateTo := f.dateTo, tags := f.tags);
      }
      var results := Search.SearchMemories(client, emb, query, collectionName, limit, qdrantFilter);
      if results.Err? {
        return Err(results.error);
      }
      var hits := results.value;
      var memories: seq<MemoryItem> := [];
      for i := 0 to |hits|
        invariant HydrateAll(hits[..i]) == Ok(memories)
      {
        assert hits[..i + 1][..i] == hits[..i];
        var memory := Hydrate(hits[i]);
        if memory.Err? {
          assert HydrateAll(hits[..i + 1]) == Err(memory.error);
          HydrateAllPrefixError(hits, i + 1);
          return Err(memory.error);
        }
        memories := memories + [memory.value];
      }
      assert hits[..|hits|] == hits;
      r := Ok(memories);
    }
  }

  /** Once a prefix of the hits fails to hydrate, the whole sequence fails with the
      same error. */
  lemma {:induction false} HydrateAllPrefixError(hits: seq<Hit>, n: nat)
    requires n <= |hits| && HydrateAll(hits[..n]).Err?
    ensures HydrateAll(hits) == HydrateAll(hits[..n])
    decreases |hits| - n
  {
    if n < |hits| {
      assert hits[..n + 1][..n] == hits[..n];
      HydrateAllPrefixError(hits, n + 1);
    } else {
      assert hits[..n] == hits;
    }
  }

  /** A successful retrieval yields exactly one item per hit, in the store's order,
      whose id reads back as the hit's id. */
  lemma RetrievalPreservesHits(client: Client, emb: Embedders, collectionName: string, query: string,
                               filters: Option<QueryFilters>, limit: Option<int>)
    requires Retrieval(client, emb, collectionName, query, filters, limit).Ok?
    ensures var hits := client.SearchResult(RetrievalRequest(emb, collectionName, query, filters, limit)).value;
      var items := Retrieval(client, emb, collectionName, query, filters, limit).value;
      |items| == |hits| && forall i :: 0 <= i < |hits| ==> ParseNat(items[i].id) == Some(hits[i].id)
  {
    var hits := client.SearchResult(RetrievalRequest(emb, collectionName, query, filters, limit)).value;
    var items := Retrieval(client, emb, collectionName, query, filters, limit).value;
    forall i | 0 <= i < |hits|
      ensures ParseNat(items[i].id) == Some(hits[i].id)
    {
      HydrateFields(hits[i]);
    }
  }
}
