/** The record types of the memory layer (memory/schema.py). The source field
    `type` is called `kind` here, `type` being a Dafny keyword. */
module Schema {
  import opened Common

  /** One retrieved memory. `id`, `department`, `date`, `outcome` and `kind` are
      required strings; the content fields, location and tags are optional. */
  datatype MemoryItem = MemoryItem(
    id: string,
    text: Option<string> := None,
    imageUrl: Option<string> := None,
    department: string,
    date: string,
    outcome: string,
    kind: string,
    location: Option<string> := None,
    tags: Option<seq<string>> := None)

  /** The structured filter of a query: seven optional fields. */
  datatype QueryFilters = QueryFilters(
    department: Option<string> := None,
    outcome: Option<string> := None,
    kind: Option<string> := None,
    location: Option<string> := None,
    dateFrom: Option<string> := None,
    dateTo: Option<string> := None,
    tags: Option<seq<string>> := None)

  /** A memory item built from its required fields alone has no content, location
      or tags, and `QueryFilters()` sets no field. */
  lemma RecordDefaults(id: string, department: string, date: string, outcome: string, kind: string)
    ensures var m := MemoryItem(id := id, department := department, date := date, outcome := outcome, kind := kind);
      m.text == None && m.imageUrl == None && m.location == None && m.tags == None
    ensures var f := QueryFilters();
      f.department == None && f.outcome == None && f.kind == None && f.location == None
      && f.dateFrom == None && f.dateTo == None && f.tags == None
  {
  }
}
