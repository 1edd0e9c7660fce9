/** The request and response records of the HTTP API (api/schemas.py). */
module ApiSchemas {
  import opened Common
  import opened Schema

  /** A query: text, an optional loose filter object, and options with defaults. */
  datatype QueryRequest = QueryRequest(
    query: string,
    filters: Option<map<string, Value>> := None,
    limit: Option<int> := Some(5),
    dataType: Option<string> := Some("both"),
    reasoningMode: Option<string> := Some("summary"),
    includeImages: Option<bool> := Some(true),
    evidenceStrictness: Option<int> := Some(7))

  /** A memory as the API returns it: the fields of a MemoryItem, same optionality. */
  datatype MemoryResponse = MemoryResponse(
    id: string,
    text: Option<string> := None,
    imageUrl: Option<string> := None,
    department: string,
    date: string,
    outcome: string,
    kind: string,
    location: Option<string> := None,
    tags: Option<seq<string>> := None)

  datatype QueryResponse = QueryResponse(
    query: string,
    memories: seq<MemoryResponse>,
    reasoning: string,
    summary: string)

  /** A document or image to ingest: four required metadata fields, everything
      else optional. */
  datatype IngestRequest = IngestRequest(
    text: Option<string> := None,
    imagePath: Option<string> := None,
    description: Option<string> := None,
    department: string,
    date: string,
    outcome: string,
    kind: string,
    location: Option<string> := None,
    tags: Option<seq<string>> := None,
    documentType: Option<string> := None,
    confidence: Option<string> := None,
    source: Option<string> := None,
    notes: Option<string> := None,
    imageCategory: Option<string> := None,
    relatedEvent: Option<string> := None)

  /** A partial update: only the memory id is required, and there is no `type`
      field, so an update through the API never changes a memory's type. */
  datatype UpdateMemoryRequest = UpdateMemoryRequest(
    memoryId: string,
    text: Option<string> := None,
    imagePath: Option<string> := None,
    description: Option<string> := None,
    department: Option<string> := None,
    date: Option<string> := None,
    outcome: Option<string> := None,
    location: Option<string> := None,
    tags: Option<seq<string>> := None,
    confidence: Option<string> := None,
    notes: Option<string> := None)

  /** The response record of a memory item, field by field. */
  function ResponseOf(m: MemoryItem): MemoryResponse {
    MemoryResponse(m.id, m.text, m.imageUrl, m.department, m.date, m.outcome, m.kind, m.location, m.tags)
  }

  /** The memory item a response record describes. */
  function ItemOf(r: MemoryResponse): MemoryItem {
    MemoryItem(r.id, r.text, r.imageUrl, r.department, r.date, r.outcome, r.kind, r.location, r.tags)
  }

  /** MemoryResponse carries exactly the information of MemoryItem: converting
      either way and back loses nothing. */
  lemma ResponseMirrorsItem(m: MemoryItem, r: MemoryResponse)
    ensures ItemOf(ResponseOf(m)) == m
    ensures ResponseOf(ItemOf(r)) == r
  {
  }

  /** The defaults of the request records. */
  lemma RequestDefaults(query: string, memoryId: string)
    ensures var q := QueryRequest(query);
      q.filters == None && q.limit == Some(5) && q.dataType == Some("both")
      && q.reasoningMode == Some("summary") && q.includeImages == Some(true)
      && q.evidenceStrictness == Some(7)
    ensures var u := UpdateMemoryRequest(memoryId);
      u.text == None && u.imagePath == None && u.description == None && u.department == None
      && u.date == None && u.outcome == None && u.location == None && u.tags == None
      && u.confidence == None && u.notes == None
  {
  }
}
