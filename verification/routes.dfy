/** The HTTP handlers' own logic (api/routes.py): turning a query request into
    filters and a response, stripping unset fields before ingest and update, and
    the lazily created singletons. */
module Routes {
  import opened Common
  import opened Text
  import opened Schema
  import opened ApiSchemas
  import opened Qdrant
  import opened Embeddings
  import opened MemoryManagement
  import opened Reasoning
  import Search
  import Ingest

  // ---- query_memories ----

  /** `QueryFilters(**request.filters) if request.filters else QueryFilters()`:
      no filter object, or an empty one, gives all-None filters; otherwise the
      seven known keys are read (absent or null is None), other keys are
      ignored, and a wrongly shaped value is refused by the record type. */
  function FiltersOf(filters: Option<map<string, Value>>): (r: Result<QueryFilters>)
    ensures filters.None? || filters == Some(map[]) ==> r == Ok(QueryFilters())
  {
    if filters.None? || filters.value == map[] then Ok(QueryFilters())
    else
      var d := filters.value;
      if OptionalStr(d, "department").Ok? && OptionalStr(d, "outcome").Ok? && OptionalStr(d, "type").Ok?
         && OptionalStr(d, "location").Ok? && OptionalStr(d, "date_from").Ok?
         && OptionalStr(d, "date_to").Ok? && OptionalTags(d).Ok?
      then
        Ok(QueryFilters(
          department := OptionalStr(d, "department").value,
          outcome := OptionalStr(d, "outcome").value,
          kind := OptionalStr(d, "type").value,
          location := OptionalStr(d, "location").value,
          dateFrom := OptionalStr(d, "date_from").value,
          dateTo := OptionalStr(d, "date_to").value,
          tags := OptionalTags(d).value))
      else Err(ValidationError)
  }

  /** The keys the filter record knows. */
  predicate FilterKey(k: string) {
    k in {"department", "outcome", "type", "location", "date_from", "date_to", "tags"}
  }

  /** Each filter field is None exactly when the request object has no value for
      its key, and otherwise that value. */
  lemma FiltersOfFields(d: map<string, Value>)
    requires FiltersOf(Some(d)).Ok?
    ensures var f := FiltersOf(Some(d)).value;
      CopiedOrNone(d, "department", f.department) && CopiedOrNone(d, "outcome", f.outcome)
      && CopiedOrNone(d, "type", f.kind) && CopiedOrNone(d, "location", f.location)
      && CopiedOrNone(d, "date_from", f.dateFrom) && CopiedOrNone(d, "date_to", f.dateTo)
      && (f.tags == None <==> Get(d, "tags") == Null)
      && (f.tags.Some? ==> d["tags"] == StrList(f.tags.value))
  {
  }

  /** A key the filter record does not know changes nothing. */
  lemma FiltersIgnoreUnknownKeys(d: map<string, Value>, k: string, v: Value)
    requires !FilterKey(k)
    ensures FiltersOf(Some(d[k := v])) == FiltersOf(Some(d))
  {
    var e := d[k := v];
    assert k in e;
    forall key | FilterKey(key)
      ensures Get(e, key) == Get(d, key)
    {
    }
    assert OptionalStr(e, "department") == OptionalStr(d, "department");
    assert OptionalStr(e, "outcome") == OptionalStr(d, "outcome");
    assert OptionalStr(e, "type") == OptionalStr(d, "type");
    assert OptionalStr(e, "location") == OptionalStr(d, "location");
    assert OptionalStr(e, "date_from") == OptionalStr(d, "date_from");
    assert OptionalStr(e, "date_to") == OptionalStr(d, "date_to");
    assert OptionalTags(e) == OptionalTags(d);
    if d == map[] {
      assert FiltersOf(Some(e)).value == QueryFilters();
    }
  }

  /** A truthy `data_type` other than "both" replaces the filter's type. */
  predicate OverridesType(dataType: Option<string>) {
    Given(dataType) && dataType.value != "both"
  }

  /** The filters a query searches with, after the `data_type` override. */
  function QueryFiltersFor(req: QueryRequest): Result<QueryFilters> {
    match FiltersOf(req.filters)
    case Err(e) => Err(e)
    case Ok(f) => if OverridesType(req.dataType) then Ok(f.(kind := req.dataType)) else Ok(f)
  }

  /** The store predicate of a query holds exactly one "type" condition, matching
      `data_type`, when `data_type` names a type; with "both" it holds the type
      condition of the filter object, if any. */
  lemma DataTypeSelectsType(req: QueryRequest)
    requires QueryFiltersFor(req).Ok?
    ensures var f := QueryFiltersFor(req).value;
      var cs := Search.Conditions(Search.FilterArgs(f.department, f.dateFrom, f.dateTo, f.outcome, f.kind, f.location, f.tags));
      (OverridesType(req.dataType) ==>
         Search.KeyCount(cs, "type") == 1 && Search.Exact("type", req.dataType.value) in cs)
      && (!OverridesType(req.dataType) ==> f == FiltersOf(req.filters).value)
  {
    var f := QueryFiltersFor(req).value;
    var a := Search.FilterArgs(f.department, f.dateFrom, f.dateTo, f.outcome, f.kind, f.location, f.tags);
    Search.ExactCounts(a);
    Search.ExactValues(a);
  }

  /** The reasoning text of the response, by reasoning mode. */
  function ModeReasoning(mode: Option<string>, apiKey: Option<string>, query: string,
                         ms: seq<MemoryItem>, llm: Llm): string
  {
    if mode == Some("recommendation") then
      (if Given(apiKey) then llm.reasoningReply(query, Join("\n", Lines(ms, ReasoningContextLine)))
                             + Footer(ms, ReasoningSourceLine)
       else BasicReasoningText(query, ms))
    else if mode == Some("comparison") then "Comparing retrieved memories: " + NatToString(|ms|) + " items found."
    else "Summary of " + NatToString(|ms|) + " relevant memories."
  }

  /** One response record per retrieved memory. */
  function Responses(ms: seq<MemoryItem>): (r: seq<MemoryResponse>)
    ensures |r| == |ms| && forall i :: 0 <= i < |ms| ==> ItemOf(r[i]) == ms[i]
  {
    seq(|ms|, i requires 0 <= i < |ms| => ResponseOf(ms[i]))
  }

  /** The responses are the memories themselves, in the same order: converting
      them back gives the retrieved list. */
  lemma ResponsesRoundTrip(ms: seq<MemoryItem>)
    ensures seq(|ms|, i requires 0 <= i < |ms| => ItemOf(Responses(ms)[i])) == ms
  {
  }

  /** What `/query` answers: the error raised while building the filters or
      retrieving, or the query, the retrieved memories as responses, the
      reasoning text of the mode, and a summary. */
  ghost predicate QueryAnswer(req: QueryRequest, client: Client, emb: Embedders, apiKey: Option<string>,
                              llm: Llm, r: Result<QueryResponse>)
    reads client
  {
    match QueryFiltersFor(req)
    case Err(e) => r == Err(e)
    case Ok(f) =>
      match Retrieval(client, emb, "memories", req.query, Some(f), req.limit)
      case Err(e) => r == Err(e)
      case Ok(ms) =>
        r.Ok? && r.value.query == req.query && r.value.memories == Responses(ms)
        && r.value.reasoning == ModeReasoning(req.reasoningMode, apiKey, req.query, ms, llm)
        && IsSummary(apiKey, req.query, ms, llm, r.value.summary)
  }

  // ---- ingest_document ----

  /** The metadata dict literal of `ingest_document`, before unset fields are dropped. */
  function IngestEntries(req: IngestRequest): Dict {
    [("department", Str(req.department)), ("date", Str(req.date)), ("outcome", Str(req.outcome)),
     ("type", Str(req.kind)), ("location", OptStr(req.location)), ("tags", OptList(req.tags)),
     ("document_type", OptStr(req.documentType)), ("confidence", OptStr(req.confidence)),
     ("source", OptStr(req.source)), ("notes", OptStr(req.notes)),
     ("image_category", OptStr(req.imageCategory)), ("related_event", OptStr(req.relatedEvent))]
  }

  /** The metadata passed on: every None-valued entry dropped, order kept. */
  function IngestMetadata(req: IngestRequest): (d: Dict)
    ensures forall e :: e in d ==> e.1 != Null
  {
    DropNullsMembers(IngestEntries(req));
    DropNulls(IngestEntries(req))
  }

  /** `request.text or request.description`. */
  function IngestText(req: IngestRequest): Option<string> {
    if Given(req.text) then req.text else req.description
  }

  /** The four required fields are always in the metadata, with the request's
      values. */
  lemma IngestMetadataRequired(req: IngestRequest)
    ensures var m := AsMap(IngestMetadata(req));
      "department" in m && "date" in m && "outcome" in m && "type" in m
      && m["department"] == Str(req.department) && m["date"] == Str(req.date)
      && m["outcome"] == Str(req.outcome) && m["type"] == Str(req.kind)
  {
    var d := IngestEntries(req);
    assert UniqueKeys(d);
    DropNullsEntry(d, 0);
    DropNullsEntry(d, 1);
    DropNullsEntry(d, 2);
    DropNullsEntry(d, 3);
  }

  /** An optional field is in the metadata exactly when the request sets it. */
  lemma IngestMetadataOptional(req: IngestRequest)
    ensures var m := AsMap(IngestMetadata(req));
      ("location" in m <==> req.location.Some?) && ("tags" in m <==> req.tags.Some?)
      && ("document_type" in m <==> req.documentType.Some?) && ("confidence" in m <==> req.confidence.Some?)
      && ("source" in m <==> req.source.Some?) && ("notes" in m <==> req.notes.Some?)
      && ("image_category" in m <==> req.imageCategory.Some?)
      && ("related_event" in m <==> req.relatedEvent.Some?)
  {
    var d := IngestEntries(req);
    assert UniqueKeys(d);
    DropNullsEntry(d, 4);
    DropNullsEntry(d, 5);
    DropNullsEntry(d, 6);
    DropNullsEntry(d, 7);
    DropNullsEntry(d, 8);
    DropNullsEntry(d, 9);
    DropNullsEntry(d, 10);
    DropNullsEntry(d, 11);
  }

  /** The ingest route takes the text branch exactly for type "text" with a
      non-empty text or, failing that, description; and the image branch for
      type "image" with a non-empty image path. */
  lemma IngestRouteBranch(req: IngestRequest)
    ensures Ingest.TextIngest(IngestText(req), Some(IngestMetadata(req)))
      <==> req.kind == "text" && Given(IngestText(req))
    ensures Ingest.ImageIngest(IngestText(req), req.imagePath, Some(IngestMetadata(req)))
      <==> req.kind == "image" && Given(req.imagePath)
  {
    IngestMetadataRequired(req);
  }

  // ---- update_memory ----

  /** The update dict literal of `update_memory`, before unset fields are dropped. */
  function UpdateEntries(req: UpdateMemoryRequest): Dict {
    [("text", OptStr(req.text)), ("image_path", OptStr(req.imagePath)),
     ("description", OptStr(req.description)), ("department", OptStr(req.department)),
     ("date", OptStr(req.date)), ("outcome", OptStr(req.outcome)),
     ("location", OptStr(req.location)), ("tags", OptList(req.tags)),
     ("confidence", OptStr(req.confidence)), ("notes", OptStr(req.notes))]
  }

  /** The update data passed on: every None-valued entry dropped. */
  function UpdateData(req: UpdateMemoryRequest): (d: Dict)
    ensures forall e :: e in d ==> e.1 != Null
    ensures Ingest.ContentIsText(AsMap(d))
  {
    var d := DropNulls(UpdateEntries(req));
    DropNullsMembers(UpdateEntries(req));
    UpdateDataFields(req);
    d
  }

  /** A field is in the update data exactly when the request sets it, with the
      request's value; there is no "type" key, so an update never retypes a memory. */
  lemma UpdateDataFields(req: UpdateMemoryRequest)
    ensures var u := AsMap(DropNulls(UpdateEntries(req)));
      ("text" in u <==> req.text.Some?) && ("text" in u ==> u["text"] == Str(req.text.value))
      && ("image_path" in u <==> req.imagePath.Some?) && ("image_path" in u ==> u["image_path"] == Str(req.imagePath.value))
      && ("description" in u <==> req.description.Some?)
      && ("department" in u <==> req.department.Some?)
      && ("date" in u <==> req.date.Some?)
      && ("outcome" in u <==> req.outcome.Some?)
      && ("location" in u <==> req.location.Some?)
      && ("tags" in u <==> req.tags.Some?)
      && ("confidence" in u <==> req.confidence.Some?)
      && ("notes" in u <==> req.notes.Some?)
      && "type" !in u && "image_url" !in u
  {
    var d := UpdateEntries(req);
    assert UniqueKeys(d);
    DropNullsEntry(d, 0);
    DropNullsEntry(d, 1);
    DropNullsEntry(d, 2);
    DropNullsEntry(d, 3);
    DropNullsEntry(d, 4);
    DropNullsEntry(d, 5);
    DropNullsEntry(d, 6);
    DropNullsEntry(d, 7);
    DropNullsEntry(d, 8);
    DropNullsEntry(d, 9);
    DropNullsNoKey(d, "type");
    DropNullsNoKey(d, "image_url");
  }

  /** Unset request fields never overwrite stored values: after an update through
      the API, every stored key the request leaves unset (other than `image_url`,
      which an image re-embed rewrites) keeps its value, and the stored type is
      kept. */
  lemma UnsetFieldsAreKept(emb: Embedders, current: Point, req: UpdateMemoryRequest, k: string)
    requires Ingest.UpdatedPoint(emb, current, AsMap(UpdateData(req))).Ok?
    requires k in current.payload && k !in AsMap(UpdateData(req)) && k != "image_url"
    ensures var p := Ingest.UpdatedPoint(emb, current, AsMap(UpdateData(req))).value.payload;
      k in p && p[k] == current.payload[k]
  {
    Ingest.UpdateMergesPayload(emb, current, AsMap(UpdateData(req)), k);
  }

  /** The stored type survives every API update. */
  lemma UpdateKeepsType(emb: Embedders, current: Point, req: UpdateMemoryRequest)
    requires Ingest.UpdatedPoint(emb, current, AsMap(UpdateData(req))).Ok?
    ensures Get(Ingest.UpdatedPoint(emb, current, AsMap(UpdateData(req))).value.payload, "type")
      == Get(current.payload, "type")
  {
    UpdateDataFields(req);
    Ingest.UpdateMergesPayload(emb, current, AsMap(UpdateData(req)), "type");
  }

  // ---- the handlers ----

  /** The module-level state of the API: the two lazily created singletons, and
      the process environment's API key, read when the engine is created. */
  class App {
    var memoryManager: MemoryManager?
    var recommendationEngine: ReasoningEngine?
    const environmentKey: Option<string>

    ghost predicate Valid()
      reads this
    {
      (memoryManager != null ==> memoryManager.collectionName == "memories")
      && (recommendationEngine != null ==> recommendationEngine.apiKey == environmentKey)
    }

    constructor (environmentKey: Option<string>)
      ensures this.environmentKey == environmentKey
      ensures memoryManager == null && recommendationEngine == null && Valid()
    {
      this.environmentKey := environmentKey;
      memoryManager := null;
      recommendationEngine := null;
    }

    /** `get_memory_manager`: created on first use, then always the same one. */
    method GetMemoryManager() returns (m: MemoryManager)
      requires Valid()
      modifies this
      ensures Valid() && memoryManager == m
      ensures old(memoryManager) != null ==> m == old(memoryManager)
      ensures recommendationEngine == old(recommendationEngine)
    {
      if memoryManager == null {
        memoryManager := new MemoryManager();
      }
      m := memoryManager;
    }

    /** `get_recommendation_engine`: created on first use, then always the same one. */
    method GetRecommendationEngine() returns (e: ReasoningEngine)
      requires Valid()
      modifies this
      ensures Valid() && recommendationEngine == e
      ensures old(recommendationEngine) != null ==> e == old(recommendationEngine)
      ensures memoryManager == old(memoryManager)
    {
      if recommendationEngine == null {
        recommendationEngine := new ReasoningEngine(environmentKey);
      }
      e := recommendationEngine;
    }

    /** `query_memories`: filters from the request, the `data_type` override,
        retrieval, the reasoning of the mode, the summary, and one response per
        memory. Every error raised on the way is the answer. */
    method QueryMemories(req: QueryRequest, client: Client, emb: Embedders, llm: Llm)
      returns (r: Result<QueryResponse>)
      requires Valid()
      modifies this
      ensures Valid() && memoryManager != null && recommendationEngine != null
      ensures old(memoryManager) != null ==> memoryManager == old(memoryManager)
      ensures old(recommendationEngine) != null ==> recommendationEngine == old(recommendationEngine)
      ensures QueryAnswer(req, client, emb, environmentKey, llm, r)
    {
      var memoryManager := GetMemoryManager();
      var recommendationEngine := GetRecommendationEngine();

      var built := FiltersOf(req.filters);
      if built.Err? {
        return Err(built.error);
      }
      var filters := built.value;
      if Given(req.dataType) && req.dataType.value != "both" {
        filters := filters.(kind := req.dataType);
      }
      assert QueryFiltersFor(req) == Ok(filters);

      var memories := memoryManager.RetrieveMemories(client, emb, req.query, Some(filters), req.limit);
      if memories.Err? {
        return Err(memories.error);
      }
      var ms := memories.value;
      assert Retrieval(client, emb, "memories", req.query, Some(filters), req.limit) == Ok(ms);

      var reasoning: string;
      if req.reasoningMode == Some("recommendation") {
        reasoning := recommendationEngine.GenerateReasoning(req.query, ms, llm);
      } else if req.reasoningMode == Some("comparison") {
        reasoning := "Comparing retrieved memories: " + NatToString(|ms|) + " items found.";
      } else {
        reasoning := "Summary of " + NatToString(|ms|) + " relevant memories.";
      }
      assert reasoning == ModeReasoning(req.reasoningMode, environmentKey, req.query, ms, llm);

      var summary := recommendationEngine.SummarizeMemories(req.query, ms, llm);

      r := Ok(QueryResponse(req.query, Responses(ms), reasoning, summary));
    }
  }

  /** `ingest_document`: the metadata without unset fields, the text or else the
      description, and a confirmation naming the capitalised type. */
  method IngestDocument(client: Client, emb: Embedders, md5: string -> Ingest.Digest, req: IngestRequest)
    returns (r: Result<string>)
    modifies client
    ensures var after := Ingest.Ingested(old(client.collections), emb, md5, IngestText(req), req.imagePath,
                                         Some(IngestMetadata(req)), "memories");
      (r.Ok? <==> after.Ok?)
      && (r.Ok? ==> r.value == Capitalize(req.kind) + " ingested successfully" && client.collections == after.value)
      && (r.Err? ==> r.error == after.error && client.collections == old(client.collections))
  {
    var metadata := IngestMetadata(req);
    var outcome := Ingest.IngestSingleDocument(client, emb, md5, text := IngestText(req),
                                               imagePath := req.imagePath, metadata := Some(metadata));
    if outcome.Fail? {
      return Err(outcome.error);
    }
    r := Ok(Capitalize(req.kind) + " ingested successfully");
  }

  /** `update_memory`: the update data without unset fields, applied to the
      memory named in the path (the body's `memory_id` is not used). */
  method UpdateMemory(client: Client, emb: Embedders, memoryId: string, req: UpdateMemoryRequest)
    returns (r: Result<string>)
    modifies client
    ensures var after := Ingest.Updated(old(client.collections), emb, memoryId, UpdateData(req), "memories");
      (r.Ok? <==> after.Ok?)
      && (r.Ok? ==> r.value == "Memory " + memoryId + " updated successfully" && client.collections == after.value)
      && (r.Err? ==> r.error == after.error && client.collections == old(client.collections))
  {
    var updateData := UpdateData(req);
    var outcome := Ingest.UpdateMemoryDocument(client, emb, memoryId, updateData);
    if outcome.Fail? {
      return Err(outcome.error);
    }
    r := Ok("Memory " + memoryId + " updated successfully");
  }
}
