/** Writing memories into the store (qdrant/ingest.py): single-document ingest
    with a content-derived id, partial update with conditional re-embedding, and
    bulk ingest of documents zipped with their metadata. */
module Ingest {
  import opened Common
  import opened Text
  import opened Qdrant
  import opened Embeddings

  type HexDigit = c: char | IsHexDigit(c) witness '0'

  /** `hashlib.md5(...).hexdigest()`: 32 lower-case hexadecimal digits. */
  type Digest = s: seq<HexDigit> | |s| == 32 witness seq(32, i => '0')

  /** Ids derived from a digest are below 2^64. */
  const IdSpace: nat := 0x1_0000_0000_0000_0000

  lemma Pow16Of16()
    ensures Pow16(16) == IdSpace
  {
    assert Pow16(4) == 65536 by {
      assert Pow16(1) == 16;
      assert Pow16(2) == 256;
      assert Pow16(3) == 4096;
    }
    Pow16Add(4, 4);
    Pow16Add(8, 8);
  }

  /** `int(md5((content + str(metadata)).encode()).hexdigest()[:16], 16)`. */
  function DerivedId(md5: string -> Digest, content: string, metadata: Dict): (id: PointId)
    ensures id < IdSpace
  {
    Pow16Of16();
    HexValue(md5(content + DictRepr(metadata))[..16])
  }

  /** `metadata.get("type") == kind`. */
  predicate TypeIs(p: Payload, kind: string) {
    Get(p, "type") == Str(kind)
  }

  /** `metadata`, with None read as `{}`. */
  function MetadataOf(metadata: Option<Dict>): Dict {
    if metadata.Some? then metadata.value else []
  }

  /** The text branch applies: type "text" and a non-empty text. */
  predicate TextIngest(text: Option<string>, metadata: Option<Dict>) {
    TypeIs(AsMap(MetadataOf(metadata)), "text") && Given(text)
  }

  /** The image branch applies: type "image" and a non-empty image path (and the
      text branch does not). */
  predicate ImageIngest(text: Option<string>, imagePath: Option<string>, metadata: Option<Dict>) {
    !TextIngest(text, metadata) && TypeIs(AsMap(MetadataOf(metadata)), "image") && Given(imagePath)
  }

  /** The point `ingest_single_document` upserts, or the error it raises. */
  function IngestedPoint(emb: Embedders, md5: string -> Digest, text: Option<string>,
                         imagePath: Option<string>, metadata: Option<Dict>): (r: Result<PointStruct>)
    ensures r.Ok? ==> r.value.id < IdSpace
  {
    var meta := MetadataOf(metadata);
    var payload := AsMap(meta);
    if TextIngest(text, metadata) then
      Ok(PointStruct(DerivedId(md5, text.value, meta), emb.text(text.value), payload["text" := Str(text.value)]))
    else if ImageIngest(text, imagePath, metadata) then
      match EmbedImage(emb, imagePath.value)
      case Err(e) => Err(e)
      case Ok(vector) =>
        var withUrl := payload["image_url" := Str(imagePath.value)];
        var content := if Given(text) then text.value else imagePath.value;
        Ok(PointStruct(DerivedId(md5, content, meta), vector,
                       if Given(text) then withUrl["text" := Str(text.value)] else withUrl))
    else Err(InvalidContent)
  }

  /** The store after `ingest_single_document`, or the error it raises. */
  function Ingested(cols: map<string, Collection>, emb: Embedders, md5: string -> Digest,
                    text: Option<string>, imagePath: Option<string>, metadata: Option<Dict>,
                    name: string): Result<map<string, Collection>>
  {
    match IngestedPoint(emb, md5, text, imagePath, metadata)
    case Err(e) => Err(e)
    case Ok(p) =>
      if name in cols then Ok(cols[name := Upserted(cols[name], [p])]) else Err(CollectionNotFound(name))
  }

  /** `ingest_single_document`: copies the metadata, picks the vector and extends
      the payload by content type, derives the id, and upserts one point. */
  method IngestSingleDocument(client: Client, emb: Embedders, md5: string -> Digest,
                              text: Option<string> := None, imagePath: Option<string> := None,
                              metadata: Option<Dict> := None, collectionName: string := "memories")
    returns (r: Outcome)
    modifies client
    ensures var after := Ingested(old(client.collections), emb, md5, text, imagePath, metadata, collectionName);
      (r.Pass? <==> after.Ok?)
      && (r.Pass? ==> client.collections == after.value)
      && (r.Fail? ==> r.error == after.error && client.collections == old(client.collections))
  {
    var meta := if metadata.None? then [] else metadata.value;
    var payload := AsMap(meta);
    var vector: Vector;
    if TypeIs(payload, "text") && Given(text) {
      vector := emb.text(text.value);
      payload := payload["text" := Str(text.value)];
    } else if TypeIs(payload, "image") && Given(imagePath) {
      var embedded := EmbedImage(emb, imagePath.value);
      if embedded.Err? {
        return Fail(embedded.error);
      }
      vector := embedded.value;
      payload := payload["image_url" := Str(imagePath.value)];
      if Given(text) {
        payload := payload["text" := Str(text.value)];
      }
    } else {
      return Fail(InvalidContent);
    }
    var content := if Given(text) then text.value else imagePath.value;
    var docId := DerivedId(md5, content, meta);
    var point := PointStruct(docId, vector, payload);
    assert IngestedPoint(emb, md5, text, imagePath, metadata) == Ok(point);
    r := client.Upsert(collectionName, [point]);
  }

  /** Text branch: the payload is the metadata plus `text`, the vector is the text
      embedding, and the id comes from the text and the metadata. */
  lemma TextIngestPoint(emb: Embedders, md5: string -> Digest, text: Option<string>,
                        imagePath: Option<string>, metadata: Option<Dict>)
    requires TextIngest(text, metadata)
    ensures var r := IngestedPoint(emb, md5, text, imagePath, metadata);
      var meta := AsMap(MetadataOf(metadata));
      r.Ok? && r.value.vector == emb.text(text.value)
      && r.value.id == DerivedId(md5, text.value, MetadataOf(metadata))
      && r.value.payload.Keys == meta.Keys + {"text"}
      && r.value.payload["text"] == Str(text.value)
      && forall k :: k in meta && k != "text" ==> r.value.payload[k] == meta[k]
  {
  }

  /** Image branch: fails only when the image file is missing; otherwise the
      payload is the metadata plus `image_url`, plus `text` iff the text is
      non-empty, the vector is the image embedding, and the id comes from the
      text when it is non-empty and from the image path otherwise. */
  lemma ImageIngestPoint(emb: Embedders, md5: string -> Digest, text: Option<string>,
                         imagePath: Option<string>, metadata: Option<Dict>)
    requires ImageIngest(text, imagePath, metadata)
    ensures var r := IngestedPoint(emb, md5, text, imagePath, metadata);
      var meta := AsMap(MetadataOf(metadata));
      (r.Err? <==> imagePath.value !in emb.files)
      && (r.Err? ==> r.error == ImageFileNotFound(imagePath.value))
      && (r.Ok? ==>
            r.value.vector == emb.image(imagePath.value)
            && r.value.id == DerivedId(md5, if Given(text) then text.value else imagePath.value, MetadataOf(metadata))
            && r.value.payload.Keys == meta.Keys + {"image_url"} + (if Given(text) then {"text"} else {})
            && r.value.payload["image_url"] == Str(imagePath.value)
            && (Given(text) ==> r.value.payload["text"] == Str(text.value))
            && forall k :: k in meta && k != "image_url" && (k != "text" || !Given(text)) ==>
                 r.value.payload[k] == meta[k])
  {
  }

  /** Any other type and content combination, missing metadata included, raises
      ValueError. */
  lemma InvalidContentIff(emb: Embedders, md5: string -> Digest, text: Option<string>,
                          imagePath: Option<string>, metadata: Option<Dict>)
    ensures IngestedPoint(emb, md5, text, imagePath, metadata) == Err(InvalidContent)
      <==> !TextIngest(text, metadata) && !ImageIngest(text, imagePath, metadata)
    ensures metadata == None ==> IngestedPoint(emb, md5, text, imagePath, metadata) == Err(InvalidContent)
  {
  }

  /** Ingesting the same content with the same metadata twice leaves the store as
      one ingest does: same id, the point overwritten with itself. */
  lemma ReingestIsIdempotent(cols: map<string, Collection>, emb: Embedders, md5: string -> Digest,
                             text: Option<string>, imagePath: Option<string>, metadata: Option<Dict>,
                             name: string)
    requires Ingested(cols, emb, md5, text, imagePath, metadata, name).Ok?
    ensures var once := Ingested(cols, emb, md5, text, imagePath, metadata, name).value;
      Ingested(once, emb, md5, text, imagePath, metadata, name) == Ok(once)
  {
    var p := IngestedPoint(emb, md5, text, imagePath, metadata).value;
    var c := cols[name];
    var c1 := Upserted(c, [p]);
    UpsertedOne(c, p);
    UpsertedOne(c1, p);
    var once := cols[name := c1];
    assert Ingested(cols, emb, md5, text, imagePath, metadata, name).value == once;
    assert c1[p.id := Point(p.vector, p.payload)] == c1;
    assert once[name := c1] == once;
  }

  /** For an image with a non-empty text, the id is derived from the text and the
      metadata alone: two different image files with the same text and metadata
      get the same id, so the second ingest replaces the first. */
  lemma ImageIdIgnoresPath(emb: Embedders, md5: string -> Digest, text: Option<string>,
                           path1: string, path2: string, metadata: Option<Dict>)
    requires Given(text) && TypeIs(AsMap(MetadataOf(metadata)), "image")
    requires path1 != "" && path2 != "" && path1 in emb.files && path2 in emb.files
    ensures IngestedPoint(emb, md5, text, Some(path1), metadata).Ok?
    ensures IngestedPoint(emb, md5, text, Some(path2), metadata).Ok?
    ensures IngestedPoint(emb, md5, text, Some(path1), metadata).value.id
         == IngestedPoint(emb, md5, text, Some(path2), metadata).value.id
  {
  }

  // ---- update_memory_document ----

  /** The content fields of update data hold strings or null, as the API sends
      them (only strings are ever embedded). */
  predicate ContentIsText(u: Payload) {
    ("text" in u ==> !u["text"].StrList?) && ("image_path" in u ==> !u["image_path"].StrList?)
  }

  /** Re-embed from text: a non-empty `text` update on a memory stored as "text". */
  predicate TextChanged(current: Payload, u: Payload) {
    "text" in u && Truthy(u["text"]) && TypeIs(current, "text")
  }

  /** Re-embed from image: a non-empty `image_path` update on a memory stored as
      "image" (checked only when the text rule does not apply). */
  predicate ImageChanged(current: Payload, u: Payload) {
    !TextChanged(current, u) && "image_path" in u && Truthy(u["image_path"]) && TypeIs(current, "image")
  }

  /** The point after merging `u` into it and re-embedding if its embedded
      content changed. */
  function UpdatedPoint(emb: Embedders, current: Point, u: Payload): (r: Result<Point>)
    requires ContentIsText(u)
  {
    var merged := current.payload + u;
    if TextChanged(current.payload, u) then
      Ok(Point(emb.text(u["text"].s), merged))
    else if ImageChanged(current.payload, u) then
      match EmbedImage(emb, u["image_path"].s)
      case Err(e) => Err(e)
      case Ok(vector) => Ok(Point(vector, merged["image_url" := u["image_path"]]))
    else
      Ok(Point(current.vector, merged))
  }

  /** The store after `update_memory_document`, or the error it raises. */
  function Updated(cols: map<string, Collection>, emb: Embedders, memoryId: string,
                   updateData: Dict, name: string): Result<map<string, Collection>>
    requires ContentIsText(AsMap(updateData))
  {
    match ParseNat(memoryId)
    case None => Err(InvalidMemoryId(memoryId))
    case Some(id) =>
      if name !in cols then Err(CollectionNotFound(name))
      else if id !in cols[name] then Err(MemoryNotFound(memoryId))
      else
        match UpdatedPoint(emb, cols[name][id], AsMap(updateData))
        case Err(e) => Err(e)
        case Ok(p) => Ok(cols[name := Upserted(cols[name], [PointStruct(id, p.vector, p.payload)])])
  }

  /** `update_memory_document`: fetches the point, merges the update into a copy
      of its payload, re-embeds when the embedded content changed, and upserts
      the point under the same id. Every failure is re-raised. */
  method UpdateMemoryDocument(client: Client, emb: Embedders, memoryId: string, updateData: Dict,
                              collectionName: string := "memories")
    returns (r: Outcome)
    requires ContentIsText(AsMap(updateData))
    modifies client
    ensures var after := Updated(old(client.collections), emb, memoryId, updateData, collectionName);
      (r.Pass? <==> after.Ok?)
      && (r.Pass? ==> client.collections == after.value)
      && (r.Fail? ==> r.error == after.error && client.collections == old(client.collections))
  {
    var id := ParseNat(memoryId);
    if id.None? {
      return Fail(InvalidMemoryId(memoryId));
    }
    var existing := client.Retrieve(collectionName, id.value);
    if existing.Err? {
      return Fail(existing.error);
    }
    if existing.value.None? {
      return Fail(MemoryNotFound(memoryId));
    }
    var existingPoint := existing.value.value;
    var currentPayload := existingPoint.payload;
    var currentVector := existingPoint.vector;
    var update := AsMap(updateData);

    var updatedPayload := currentPayload + update;

    var vectorUpdated := false;
    if "text" in update && Truthy(update["text"]) && TypeIs(currentPayload, "text") {
      currentVector := emb.text(update["text"].s);
      vectorUpdated := true;
    } else if "image_path" in update && Truthy(update["image_path"]) && TypeIs(currentPayload, "image") {
      var embedded := EmbedImage(emb, update["image_path"].s);
      if embedded.Err? {
        return Fail(embedded.error);
      }
      currentVector := embedded.value;
      updatedPayload := updatedPayload["image_url" := update["image_path"]];
      vectorUpdated := true;
    }

    assert UpdatedPoint(emb, existingPoint, update) == Ok(Point(currentVector, updatedPayload));
    r := client.Upsert(collectionName, [PointStruct(id.value, currentVector, updatedPayload)]);
  }

  /** Updating an id that is not in the collection raises "not found" (and the
      method leaves the store unchanged). */
  lemma UpdateOfMissingIdFails(cols: map<string, Collection>, emb: Embedders, memoryId: string,
                               updateData: Dict, name: string)
    requires ContentIsText(AsMap(updateData))
    requires ParseNat(memoryId).Some? && name in cols && ParseNat(memoryId).value !in cols[name]
    ensures Updated(cols, emb, memoryId, updateData, name) == Err(MemoryNotFound(memoryId))
  {
  }

  /** The merged payload: update keys overwrite, other keys keep their values, and
      an image re-embed also sets `image_url` to the new image path. */
  lemma UpdateMergesPayload(emb: Embedders, current: Point, u: Payload, k: string)
    requires ContentIsText(u) && UpdatedPoint(emb, current, u).Ok?
    ensures var p := UpdatedPoint(emb, current, u).value.payload;
      var setsUrl := ImageChanged(current.payload, u) && k == "image_url";
      (k in p <==> k in current.payload || k in u || setsUrl)
      && (setsUrl ==> p[k] == u["image_path"])
      && (!setsUrl && k in u ==> p[k] == u[k])
      && (!setsUrl && k !in u && k in current.payload ==> p[k] == current.payload[k])
  {
  }

  /** The vector is recomputed from the new text for a text memory, from the new
      image for an image memory, and kept otherwise; only a missing image file
      makes the update fail. */
  lemma UpdateVectorRule(emb: Embedders, current: Point, u: Payload)
    requires ContentIsText(u)
    ensures var r := UpdatedPoint(emb, current, u);
      (r.Err? <==> ImageChanged(current.payload, u) && u["image_path"].s !in emb.files)
      && (r.Ok? && TextChanged(current.payload, u) ==> r.value.vector == emb.text(u["text"].s))
      && (r.Ok? && ImageChanged(current.payload, u) ==> r.value.vector == emb.image(u["image_path"].s))
      && (r.Ok? && !TextChanged(current.payload, u) && !ImageChanged(current.payload, u) ==>
            r.value.vector == current.vector)
  {
  }

  /** An update that touches neither `text` nor `image_path` (say, only `notes`)
      never re-embeds: the vector is kept and only the payload changes. */
  lemma MetadataUpdateKeepsVector(emb: Embedders, current: Point, u: Payload)
    requires "text" !in u && "image_path" !in u
    ensures UpdatedPoint(emb, current, u) == Ok(Point(current.vector, current.payload + u))
  {
  }

  /** A successful update stores the merged, possibly re-embedded point under the
      parsed id, in the named collection, and changes nothing else. */
  lemma UpdateTouchesOnlyItsPoint(cols: map<string, Collection>, emb: Embedders, memoryId: string,
                                  updateData: Dict, name: string)
    requires ContentIsText(AsMap(updateData)) && Updated(cols, emb, memoryId, updateData, name).Ok?
    ensures var after := Updated(cols, emb, memoryId, updateData, name).value;
      var id := ParseNat(memoryId).value;
      after.Keys == cols.Keys && name in after && id in after[name] && after[name].Keys == cols[name].Keys
      && after[name][id] == UpdatedPoint(emb, cols[name][id], AsMap(updateData)).value
      && (forall n :: n in cols && n != name ==> after[n] == cols[n])
      && (forall i :: i in cols[name] && i != id ==> after[name][i] == cols[name][i])
  {
    var id := ParseNat(memoryId).value;
    var p := UpdatedPoint(emb, cols[name][id], AsMap(updateData)).value;
    UpsertedOne(cols[name], PointStruct(id, p.vector, p.payload));
  }

  // ---- ingest_documents ----

  /** A document record of the bulk-ingest file: its id as written, and its text. */
  datatype Document = Document(id: string, text: string)

  /** The point for one document: the metadata with `text` replaced by the
      document's text, embedded as text, under `int(doc['id'])`; a ValueError
      when the id text is not a number. */
  function DocumentPoint(emb: Embedders, doc: Document, meta: Dict): (r: Result<PointStruct>)
    ensures r.Ok? <==> ParseNat(doc.id).Some?
    ensures r.Err? ==> r.error == InvalidDocumentId(doc.id)
  {
    match ParseNat(doc.id)
    case None => Err(InvalidDocumentId(doc.id))
    case Some(id) => Ok(PointStruct(id, emb.text(doc.text), AsMap(meta)["text" := Str(doc.text)]))
  }

  function Min(a: nat, b: nat): nat {
    if a <= b then a else b
  }

  /** The points of the first `n` pairs of `zip(documents, metadata)`, in order;
      the first unreadable id ends the loop with its error. */
  function PointsOf(emb: Embedders, docs: seq<Document>, metas: seq<Dict>, n: nat): (r: Result<seq<PointStruct>>)
    requires n <= |docs| && n <= |metas|
    ensures r.Ok? <==> forall j :: 0 <= j < n ==> DocumentPoint(emb, docs[j], metas[j]).Ok?
    ensures r.Ok? ==>
      |r.value| == n && forall j :: 0 <= j < n ==> Ok(r.value[j]) == DocumentPoint(emb, docs[j], metas[j])
    decreases n
  {
    if n == 0 then Ok([])
    else
      match PointsOf(emb, docs, metas, n - 1)
      case Err(e) => Err(e)
      case Ok(ps) =>
        match DocumentPoint(emb, docs[n - 1], metas[n - 1])
        case Err(e) => Err(e)
        case Ok(p) => Ok(ps + [p])
  }

  /** `zip(documents, metadata)` mapped to points; the longer list's tail is dropped. */
  function DocumentPoints(emb: Embedders, docs: seq<Document>, metas: seq<Dict>): (r: Result<seq<PointStruct>>)
    ensures r.Ok? ==> |r.value| == Min(|docs|, |metas|)
  {
    PointsOf(emb, docs, metas, Min(|docs|, |metas|))
  }

  /** Once the first `n` pairs fail, every longer prefix fails with the same error. */
  lemma {:induction false} PointsOfPrefixError(emb: Embedders, docs: seq<Document>, metas: seq<Dict>, n: nat, m: nat)
    requires n <= m <= |docs| && m <= |metas| && PointsOf(emb, docs, metas, n).Err?
    ensures PointsOf(emb, docs, metas, m) == PointsOf(emb, docs, metas, n)
    decreases m - n
  {
    if n < m {
      PointsOfPrefixError(emb, docs, metas, n + 1, m);
    }
  }

  /** `ingest_documents` over the already-parsed document and metadata lists:
      builds one point per pair, then upserts them in one call. An unreadable id
      raises before the upsert, so nothing is stored. */
  method IngestDocuments(client: Client, emb: Embedders, documents: seq<Document>, metadata: seq<Dict>,
                         collectionName: string := "memories")
    returns (r: Outcome)
    modifies client
    ensures var pts := DocumentPoints(emb, documents, metadata);
      r == (if pts.Err? then Fail(pts.error)
            else if collectionName in old(client.collections) then Pass
            else Fail(CollectionNotFound(collectionName)))
    ensures r.Pass? ==>
      client.collections == old(client.collections)[collectionName :=
        Upserted(old(client.collections)[collectionName], DocumentPoints(emb, documents, metadata).value)]
    ensures r.Fail? ==> client.collections == old(client.collections)
  {
    var points: seq<PointStruct> := [];
    var n := Min(|documents|, |metadata|);
    for i := 0 to n
      invariant PointsOf(emb, documents, metadata, i) == Ok(points)
    {
      var doc := documents[i];
      var meta := metadata[i];
      var vector := emb.text(doc.text);
      var payload := AsMap(meta)["text" := Str(doc.text)];
      var id := ParseNat(doc.id);
      if id.None? {
        assert PointsOf(emb, documents, metadata, i + 1) == Err(InvalidDocumentId(doc.id));
        PointsOfPrefixError(emb, documents, metadata, i + 1, n);
        return Fail(InvalidDocumentId(doc.id));
      }
      points := points + [PointStruct(id.value, vector, payload)];
    }
    r := client.Upsert(collectionName, points);
  }

  /** With no later zipped document reading as the same id, bulk ingest leaves
      the i-th document stored under its id, with its text embedding and its
      metadata plus its text. */
  lemma DocumentsStored(c: Collection, emb: Embedders, docs: seq<Document>, metas: seq<Dict>, i: nat)
    requires DocumentPoints(emb, docs, metas).Ok? && i < Min(|docs|, |metas|)
    requires forall j :: i < j < Min(|docs|, |metas|) ==> ParseNat(docs[j].id) != ParseNat(docs[i].id)
    ensures var id := ParseNat(docs[i].id).value;
      var after := Upserted(c, DocumentPoints(emb, docs, metas).value);
      id in after && after[id] == Point(emb.text(docs[i].text), AsMap(metas[i])["text" := Str(docs[i].text)])
  {
    var ps := DocumentPoints(emb, docs, metas).value;
    assert Ok(ps[i]) == DocumentPoint(emb, docs[i], metas[i]);
    forall j | i < j < |ps|
      ensures ps[j].id != ps[i].id
    {
      assert Ok(ps[j]) == DocumentPoint(emb, docs[j], metas[j]);
    }
    UpsertedLastWins(c, ps, i);
  }

  /** A document whose id is not a number makes the whole bulk ingest fail before
      anything is stored, whatever the other documents are. */
  lemma BadIdFailsBatch(emb: Embedders, docs: seq<Document>, metas: seq<Dict>, i: nat)
    requires i < Min(|docs|, |metas|) && ParseNat(docs[i].id).None?
    ensures DocumentPoints(emb, docs, metas).Err?
  {
  }

  /** After upserting a batch, a point no later point shares an id with is stored. */
  lemma {:induction false} UpsertedLastWins(c: Collection, points: seq<PointStruct>, i: nat)
    requires i < |points|
    requires forall j :: i < j < |points| ==> points[j].id != points[i].id
    ensures var after := Upserted(c, points);
      points[i].id in after && after[points[i].id] == Point(points[i].vector, points[i].payload)
    decreases |points|
  {
    var c1 := c[points[0].id := Point(points[0].vector, points[0].payload)];
    if i == 0 {
      UpsertedKeeps(c1, points[1..], points[0].id);
    } else {
      UpsertedLastWins(c1, points[1..], i - 1);
    }
  }

  /** Upserting points that all have other ids leaves an entry as it was. */
  lemma {:induction false} UpsertedKeeps(c: Collection, points: seq<PointStruct>, id: PointId)
    requires id in c
    requires forall j :: 0 <= j < |points| ==> points[j].id != id
    ensures id in Upserted(c, points) && Upserted(c, points)[id] == c[id]
    decreases |points|
  {
    if points != [] {
      UpsertedKeeps(c[points[0].id := Point(points[0].vector, points[0].payload)], points[1..], id);
    }
  }

  // ---- ingest_images (file selection only) ----

  /** `s.endswith(suffix)`. */
  predicate EndsWith(s: string, suffix: string) {
    |suffix| <= |s| && s[|s| - |suffix|..] == suffix
  }

  /** `filename.lower().endswith(('.png', '.jpg', '.jpeg', '.gif', '.bmp'))`. */
  predicate IsImageFile(filename: string) {
    var lower := Lower(filename);
    EndsWith(lower, ".png") || EndsWith(lower, ".jpg") || EndsWith(lower, ".jpeg")
    || EndsWith(lower, ".gif") || EndsWith(lower, ".bmp")
  }

  /** The extension test ignores letter case: a name is selected exactly when its
      lower-case form is. */
  lemma ImageFileIgnoresCase(filename: string)
    ensures IsImageFile(filename) <==> IsImageFile(Lower(filename))
  {
    assert Lower(Lower(filename)) == Lower(filename);
  }
}
