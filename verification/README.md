# Chronicle-AI core, modelled in Dafny

Chronicle-AI is an institutional-memory service. It stores text documents and
images as vectors in a Qdrant collection, retrieves them by similarity under
structured filters, and explains the results either with an LLM or with
fixed-text templates. This project models the deterministic logic around those
external calls:

- the filter builder (`build_filter`) and the search pass-through;
- hydration of search hits into `MemoryItem` records (`MemoryManager.retrieve_memories`);
- single-document ingest with a content-derived id, partial update with
  conditional re-embedding, and bulk ingest of documents zipped with metadata;
- the reasoning engine's template fallbacks (`_basic_reasoning`,
  `_basic_summary`), the API-key dispatch, and the context and "Sources"
  renderings placed around the LLM reply;
- the HTTP handlers' request normalisation for `/query`, `/ingest` and
  `/update/{memory_id}`, and the two lazily created singletons;
- the request, response and record types.

Files and modules:

| file | module | models |
|---|---|---|
| common.dfy | Common | Option, Result, the raised errors, JSON-like values, Python truthiness, ordered dicts and dropping `None` entries |
| text.dfy | Text | `str(int)`, `int(str)`, `int(s, 16)`, `str.join`, `upper`/`lower`/`capitalize`, `repr` of a dict |
| schema.dfy | Schema | `MemoryItem`, `QueryFilters` |
| api_schemas.dfy | ApiSchemas | `QueryRequest`, `MemoryResponse`, `QueryResponse`, `IngestRequest`, `UpdateMemoryRequest` |
| embeddings.dfy | Embeddings | the text and image embedders as functions, plus the missing-file rule |
| qdrant.dfy | Qdrant | filter, point and search models; a `Client` class holding the collections and a ranking oracle |
| search.dfy | Search | `build_filter`, `search_memories` |
| memory_manager.dfy | MemoryManagement | `MemoryManager.retrieve_memories` |
| ingest.dfy | Ingest | `ingest_single_document`, `update_memory_document`, `ingest_documents`, the file filter of `ingest_images` |
| reasoning.dfy | Reasoning | `ReasoningEngine` |
| routes.dfy | Routes | `query_memories`, `ingest_document`, `update_memory`, the singletons |

Modelling choices:

- **Store.** The store is a map from collection name to `map<nat, Point>`. Each point is an opaque vector plus a payload `map<string, Value>`.
- **Dicts.** Metadata and update dicts are ordered sequences of entries, because `str(metadata)` feeds the id hash and depends on insertion order.
- **Oracles.** Search ranking is an oracle on the client. Both embedders and md5 are function parameters. The md5 result is a 32-digit lower-case hex string.
- **LLM.** The two LLM replies are oracles from (query, rendered memories) to the stripped reply text.
- **Set order.** Python's set iteration order in `_basic_summary` is left open. The summary is specified up to any enumeration that lists each distinct value once.
- **Errors.** Raised exceptions become `Err`/`Fail` values naming their cause. The store is left unchanged on every error path.
- **Behaviours of the code the model keeps:**
  - Filter arguments count when they are truthy, not merely non-null: an empty string adds no condition.
  - The entries of the tags any-of condition are per-tag match-condition objects, not the tag strings.
  - An image ingested with a non-empty text derives its id from the text and the metadata, not from the image path. Two different images with the same text and metadata therefore share an id (`Ingest.ImageIdIgnoresPath`).

## Model

| member | source | states |
|---|---|---|
| Search.BuildFilter | qdrant/search.py:29-74 | the filter built by appending conditions, and tag entries in a loop, equals `FilterFor` of the arguments |
| Search.FilterAbsentIffNothingSet | qdrant/search.py:30-74 | the result is None exactly when every argument is falsy (None, "" or []); otherwise it is one `must` conjunction of all the conditions |
| Search.ConditionCount | qdrant/search.py:30-72 | the number of conditions is the number of truthy scalar arguments, plus one for non-empty tags, plus one for any date bound |
| Search.ConditionsOrdered | qdrant/search.py:31-72 | conditions appear in the fixed key order department, outcome, type, location, tags, date |
| Search.ExactCounts | qdrant/search.py:31-50 | each truthy department/outcome/type/location argument gives exactly one condition on its key, and a falsy one gives none |
| Search.ExactValues | qdrant/search.py:31-50 | that condition is an exact match carrying the argument's value |
| Search.SplitCount | qdrant/search.py:30-72 | the number of conditions on any key is the number of truthy arguments stored under that key |
| Search.TagsCondition | qdrant/search.py:51-62 | non-empty tags give exactly one "tags" condition, an any-of whose entries are one exact-match condition per tag, in input order |
| Search.DateCondition | qdrant/search.py:63-72 | a "date" range is present iff a bound is truthy; `gte` is set iff `date_from` is truthy and `lte` iff `date_to` is, with those values |
| Search.SearchMemories | qdrant/search.py:9-27 | the store receives the collection, the query embedding, the limit and the filter unchanged, and its hits are returned unchanged |
| Qdrant.UpsertedOne | qdrant/ingest.py:73 | upserting one point inserts or replaces that id and changes nothing else |
| Qdrant.Client.Retrieve | qdrant/ingest.py:81 | `retrieve` returns the point with the id, its vector included (an assumption, see Left out), none when it is absent, and an error for an unknown collection |
| Qdrant.Client.Upsert | qdrant/ingest.py:111 | `upsert` replaces the named collection by its upserted form, or fails and leaves the store unchanged |
| MemoryManagement.MemoryManager.constructor | memory/memory_manager.py:5-6 | the manager keeps the collection name it is given (default "memories") |
| MemoryManagement.MemoryManager.RetrieveMemories | memory/memory_manager.py:8-39 | the loop's result equals `Retrieval`: the search with `build_filter` of the filters (none without filters), then every hit hydrated in order; the first refused payload is the error |
| MemoryManagement.Hydrate | memory/memory_manager.py:26-36 | a hit hydrates exactly when every field the record reads has a shape the record type accepts |
| MemoryManagement.HydrateFields | memory/memory_manager.py:26-36 | the id reads back as the hit's id; department, date, outcome and type default to ""; text, image_url, location and tags are copied when present and None otherwise |
| MemoryManagement.HydrateAll | memory/memory_manager.py:23-39 | hydration succeeds iff every hit hydrates, and then yields one item per hit, the i-th from the i-th hit |
| MemoryManagement.HydrateAllPrefixError | memory/memory_manager.py:24-37 | once a prefix of the hits fails to hydrate, the whole list fails with that error |
| MemoryManagement.RetrievalPreservesHits | memory/memory_manager.py:21-39 | a successful retrieval has one item per search hit, in the store's order, each id reading back as its hit's id |
| Ingest.DerivedId | qdrant/ingest.py:63-65 | the id from the first 16 hex digits of the md5 digest is below 2^64 |
| Ingest.IngestSingleDocument | qdrant/ingest.py:41-75 | succeeds iff `Ingested` does, and then the store is `Ingested`'s store; on failure it reports the same error and the store is unchanged |
| Ingest.IngestedPoint | qdrant/ingest.py:41-73 | every ingested point has an id below 2^64 |
| Ingest.TextIngestPoint | qdrant/ingest.py:45-51 | text branch: the payload is the metadata plus `text`, the vector is the text embedding, and the id comes from the text and the metadata |
| Ingest.ImageIngestPoint | qdrant/ingest.py:53-59 | image branch: fails only for a missing image file; otherwise the payload is the metadata plus `image_url`, plus `text` iff the text is non-empty, the vector is the image embedding, and the id comes from the text if it is non-empty and from the image path otherwise |
| Ingest.InvalidContentIff | qdrant/ingest.py:42-43 | ValueError is raised exactly when neither branch applies, and always for missing metadata (read as {}) |
| Ingest.ReingestIsIdempotent | qdrant/ingest.py:63-73 | ingesting the same content and metadata again leaves the store as one ingest does |
| Ingest.ImageIdIgnoresPath | qdrant/ingest.py:63-65 | an image with a non-empty text gets the same id whatever its path |
| Ingest.UpdateMemoryDocument | qdrant/ingest.py:77-117 | succeeds iff `Updated` does, and then the store is `Updated`'s store; every failure is reported with the store unchanged |
| Ingest.UpdateOfMissingIdFails | qdrant/ingest.py:81-83 | an id absent from the collection gives "not found" |
| Ingest.UpdateMergesPayload | qdrant/ingest.py:89-90 | update keys overwrite, other keys keep their values, and an image re-embed also sets `image_url` to the new path |
| Ingest.UpdateVectorRule | qdrant/ingest.py:92-107 | the vector is recomputed from a non-empty new text for a "text" memory, or from a non-empty new image path for an "image" memory, and kept otherwise; only a missing image file fails |
| Ingest.MetadataUpdateKeepsVector | qdrant/ingest.py:89-107 | an update without `text` or `image_path` keeps the vector and merges the payload, given a retrieved point that carries its vector (see Left out) |
| Ingest.UpdateTouchesOnlyItsPoint | qdrant/ingest.py:105-111 | a successful update stores, under the parsed id in the named collection, exactly the merged (and, if the text changed, re-embedded) point that UpdatedPoint computes; every other point and every other collection is unchanged |
| Ingest.DocumentPoint | qdrant/ingest.py:28-35 | a document's point exists exactly when `int(doc['id'])` reads its id, and otherwise the error is a ValueError naming that id |
| Ingest.PointsOf | qdrant/ingest.py:26-36 | the first n pairs give points iff every one of their ids reads, and then exactly one point per pair, the j-th from the j-th pair |
| Ingest.DocumentPoints | qdrant/ingest.py:27 | `zip` yields min(#documents, #metadata) points |
| Ingest.PointsOfPrefixError | qdrant/ingest.py:27-36 | once a prefix of the pairs fails, the whole loop fails with that error |
| Ingest.IngestDocuments | qdrant/ingest.py:14-39 | an unreadable id fails before the upsert with the store unchanged; otherwise the points are upserted in one call, and an unknown collection fails with the store unchanged |
| Ingest.DocumentsStored | qdrant/ingest.py:26-38 | when no later zipped document reads as the same id, the document is stored under its id with its text embedding and its metadata with `text` overridden |
| Ingest.BadIdFailsBatch | qdrant/ingest.py:32 | one unreadable id among the zipped documents makes the whole batch fail |
| Ingest.UpsertedLastWins | qdrant/ingest.py:38 | after a batch upsert, a point that no later point shares an id with is stored as given |
| Ingest.UpsertedKeeps | qdrant/ingest.py:38 | a batch upsert that does not mention an id leaves that entry as it was |
| Ingest.ImageFileIgnoresCase | qdrant/ingest.py:125 | the image-extension test gives the same answer for a name and its lower-case form |
| Embeddings.EmbedImage | embeddings/image_embedder.py:12-13 | embedding an image succeeds iff the file exists, and otherwise reports FileNotFoundError for the path |
| Reasoning.BasicReasoning | reasoning/reasoning_engine.py:42-64 | the text built by `+=` in loops and branches equals `BasicReasoningText`: header, counts, visual section, recommendation, sources |
| Reasoning.OfKind | reasoning/reasoning_engine.py:43-44 | filtering by type keeps exactly the memories of that type and never adds any |
| Reasoning.OfKindAppend | reasoning/reasoning_engine.py:43-44 | filtering by type keeps the input order |
| Reasoning.KindCounts | reasoning/reasoning_engine.py:43-47 | the text and image counts never exceed the total, and add up to it exactly when every memory is "text" or "image" |
| Reasoning.VisualSectionIffImage | reasoning/reasoning_engine.py:49-55 | the "Visual evidence found" section is present exactly when some memory has type "image" |
| Reasoning.SourcesInInputOrder | reasoning/reasoning_engine.py:59-62 | the sources lines follow the input order: the lines of a concatenation are the two blocks joined by a line break |
| Reasoning.BasicSummary | reasoning/reasoning_engine.py:90-106 | the summary is `SummaryText` for some enumerations that list each distinct department and outcome once |
| Reasoning.EmptySummary | reasoning/reasoning_engine.py:90-106 | with no memories the summary is "Summary for '<query>': Found 0 memories ).\n\n": an unbalanced ")" and no department or outcome lines |
| Reasoning.CountParenthetical | reasoning/reasoning_engine.py:95-99 | the parenthetical is "(t text documents, i images)", "(t text documents)" or "(i images)" by which counts are positive, and a lone ")" when both are zero |
| Reasoning.SummaryListsEachValueOnce | reasoning/reasoning_engine.py:101-104 | the department and outcome lines list every memory's value, only values that occur, and each distinct value once |
| Reasoning.DistinctCard | reasoning/reasoning_engine.py:101-104 | a list that enumerates a set without repeats is as long as the set |
| Reasoning.SetOrder | reasoning/reasoning_engine.py:102-103 | iterating a set yields each element exactly once |
| Reasoning.ReasoningEngine.constructor | reasoning/reasoning_engine.py:7-8 | the engine keeps the configured API key |
| Reasoning.ReasoningEngine.GenerateReasoning | reasoning/reasoning_engine.py:15-40 | without a key, the template text; with one, the LLM's reply to the rendered memories followed by "\n\nSources:\n" and one "- dept (date) - Outcome: o - Type: t" line per memory |
| Reasoning.ReasoningEngine.SummarizeMemories | reasoning/reasoning_engine.py:66-88 | without a key, a basic summary; with one, the LLM's reply followed by "\n\nSources:\n" and one "- dept (date)" line per memory |
| Routes.FiltersOf | api/routes.py:46 | no filter object, or an empty one, gives a `QueryFilters` with every field None |
| Routes.FiltersOfFields | api/routes.py:46 | each filter field is None exactly when the object has no value for its key, and otherwise that value |
| Routes.FiltersIgnoreUnknownKeys | api/routes.py:46 | a key the filter record does not know changes nothing |
| Routes.DataTypeSelectsType | api/routes.py:46-49 | a truthy `data_type` other than "both" gives exactly one "type" condition matching it; otherwise the filters are those of the request object |
| Routes.Responses | api/routes.py:66-78 | one response per retrieved memory, the i-th describing the i-th memory |
| Routes.ResponsesRoundTrip | api/routes.py:66-78 | converting the responses back gives the retrieved list |
| Routes.App.QueryMemories | api/routes.py:40-90 | the answer is `QueryAnswer`: the filter or retrieval error, or the query, the responses, the reasoning of the mode and a summary; both singletons exist afterwards, and a singleton that existed before is kept |
| Routes.App.GetMemoryManager | api/routes.py:11-16 | the manager is created on first use and is the same object afterwards |
| Routes.App.GetRecommendationEngine | api/routes.py:18-23 | the engine is created on first use with the environment's key and is the same object afterwards |
| Routes.App.constructor | api/routes.py:8-9 | both singletons start unset |
| Routes.IngestMetadata | api/routes.py:97-111 | the metadata holds no None value |
| Routes.IngestMetadataRequired | api/routes.py:97-111 | department, date, outcome and type are always in the metadata, with the request's values |
| Routes.IngestMetadataOptional | api/routes.py:102-111 | each optional field is in the metadata exactly when the request sets it |
| Routes.IngestRouteBranch | api/routes.py:97-113 | the text branch is taken iff the type is "text" and `text or description` is non-empty; the image branch iff the type is "image" and the image path is non-empty |
| Routes.IngestDocument | api/routes.py:92-118 | the store is ingested with the stripped metadata and `text or description`; on success the message is "<Type> ingested successfully", and on failure the store is unchanged |
| Routes.UpdateData | api/routes.py:125-137 | the update data holds no None value, and its content fields are strings |
| Routes.UpdateDataFields | api/routes.py:125-137 | a field is in the update data exactly when the request sets it, text and image_path with the request's values, and never "type" or "image_url" |
| Routes.UnsetFieldsAreKept | api/routes.py:125-139 | a stored key the request leaves unset, other than `image_url`, keeps its value |
| Routes.UpdateKeepsType | api/routes.py:125-139 | an update through the API never changes the stored type |
| Routes.UpdateMemory | api/routes.py:120-144 | the stripped update data is applied to the memory in the path; on success the message is "Memory <id> updated successfully", and on failure the store is unchanged |
| Schema.RecordDefaults | memory/schema.py:4-22 | a `MemoryItem` built from its required fields has no content, location or tags, and `QueryFilters()` sets no field |
| ApiSchemas.ResponseMirrorsItem | api/schemas.py:13-22 | `MemoryResponse` and `MemoryItem` carry the same fields: converting either way and back loses nothing |
| ApiSchemas.RequestDefaults | api/schemas.py:4-11 | query defaults: no filters, limit 5, data_type "both", reasoning_mode "summary", include_images true, evidence_strictness 7 |
| Text.ParseNatOfNatToString | memory/memory_manager.py:27 | `int(str(n)) == n` for a point id |
| Text.NatToString | memory/memory_manager.py:27 | `str(n)` is a non-empty string of digits without a leading zero |
| Common.DropNullsAsMap | api/routes.py:111 | after dropping None entries, exactly the keys with a non-None value remain, with their values |
| Common.DropNullsAppend | api/routes.py:111 | dropping None entries keeps the remaining entries in order |
| Common.DropNullsUnique | api/routes.py:111 | a dict literal without repeated keys keeps that property once None entries are dropped |

## Left out

- I/O is not modelled. This covers reading the two JSON files of `ingest_documents` (the parsed lists are parameters), listing the images directory, logging and printing.
- Ingest.IngestDocuments: each document is a record holding an id text and a text, so the KeyError of a document without `id` or `text`, and ids that are JSON numbers rather than strings, are not modelled.
- The LLM calls and the prompt templates are represented only as oracles. Only the rendering around the reply is modelled.
- Embedding inference (CLIP, torch), the numerics of embedding_utils.py, and Qdrant's scoring and ranking are left out. Search results are whatever the ranking oracle returns.
- Client creation and collection setup are left out (qdrant/client.py, qdrant/collections.py). A missing collection is an error value.
- `ingest_images` is left out except for its extension filter. Its ids come from Python's per-process randomised `hash()`, and it depends on a directory listing.
- reasoning/recommendation.py is left out. It only delegates, so the singleton engine of the routes is the `ReasoningEngine` it wraps.
- The root and health endpoints, the async handlers and the `HTTPException` wrapping are left out. An error the handlers would wrap is returned as it was raised.
- The validation details of qdrant_client's models are left out. The tags any-of is built as the code builds it, whether or not the client library would accept it.
- pydantic error details are left out. A refused field value is a single `ValidationError`, and values are strings, lists of strings or null (no numbers or booleans).
- Text.ParseNat: only plain decimal digits are read. Python's `int()` also accepts surrounding whitespace, a sign and underscores.
- Text.Upper, Text.Lower, Text.Capitalize: only ASCII letters change case. Python maps all of Unicode.
- Text.DictRepr: `repr` of strings does not escape quotes or control characters.
- Qdrant.Client.Retrieve: returns the stored point with its vector, whereas `client.retrieve` as called at qdrant/ingest.py:81 passes no `with_vectors` argument, which defaults to false, so the real records carry no vector; the update path relies on the stronger model behaviour (see the Ingest.UpdateMemoryDocument line below).
- Ingest.UpdateMemoryDocument: the model assumes the retrieved point carries its vector. `client.retrieve` as called here does not ask for vectors, so on the path that keeps the vector Python would build the point with no vector, which the client library refuses; the model instead upserts the stored vector, and `Ingest.MetadataUpdateKeepsVector` states that assumed behaviour.
- Ingest.UpdateMemoryDocument: requires that `text` and `image_path` in the update data are strings or null. The API only sends those; a list there would make Python's embedders raise.
- Routes.App.QueryMemories: the in-place assignment `filters.type = ...` is modelled as a record update of the filters value.
- The retrieve-then-upsert of an update is not atomic under concurrent requests. The model is sequential.
- frontend/app.py, the scripts and the demonstration files are drivers and are not part of this model.
