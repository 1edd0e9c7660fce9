/** The vector store as the core sees it: Qdrant's filter and point models, and
    a client over named collections of points. Ranking is Qdrant's business; the
    client answers a search with whatever its `rank` oracle returns. */
module Qdrant {
  import opened Common

  type PointId = nat

  /** A datetime range; an absent bound is unconstrained. */
  datatype Range = Range(gte: Option<string>, lte: Option<string>)

  /** `MatchValue(value=...)` or `MatchAny(any=[...])`. */
  datatype Match = MatchValue(value: string) | MatchAny(any: seq<Condition>)

  /** `FieldCondition(key=..., match=...)` (its `match` is `matcher` here) or `FieldCondition(key=..., range=...)`. */
  datatype Condition =
    | FieldMatch(key: string, matcher: Match)
    | FieldRange(key: string, range: Range)

  /** `Filter(must=[...])`: every condition must hold. */
  datatype Filter = Filter(must: seq<Condition>)

  datatype Point = Point(vector: Vector, payload: Payload)

  datatype PointStruct = PointStruct(id: PointId, vector: Vector, payload: Payload)

  /** One search result; the score is produced by the store. */
  datatype Hit = Hit(id: PointId, score: real, payload: Payload)

  datatype SearchRequest = SearchRequest(
    collection: string,
    queryVector: Vector,
    limit: Option<int>,
    filter: Option<Filter>)

  type Collection = map<PointId, Point>

  /** A collection after upserting `points` in order: each point inserts or
      fully replaces the one with its id. */
  function Upserted(c: Collection, points: seq<PointStruct>): Collection
    decreases |points|
  {
    if points == [] then c
    else Upserted(c[points[0].id := Point(points[0].vector, points[0].payload)], points[1..])
  }

  /** Upserting one point sets that id and nothing else. */
  lemma UpsertedOne(c: Collection, p: PointStruct)
    ensures Upserted(c, [p]) == c[p.id := Point(p.vector, p.payload)]
  {
    assert [p][1..] == [];
  }

  class Client {
    var collections: map<string, Collection>
    /** Qdrant's ranked search over a collection's contents (an oracle). */
    const rank: (Collection, SearchRequest) -> seq<Hit>

    constructor (collections: map<string, Collection>, rank: (Collection, SearchRequest) -> seq<Hit>)
      ensures this.collections == collections && this.rank == rank
    {
      this.collections := collections;
      this.rank := rank;
    }

    /** What `client.search` returns for a request. */
    function SearchResult(req: SearchRequest): Result<seq<Hit>>
      reads this
    {
      if req.collection in collections then Ok(rank(collections[req.collection], req))
      else Err(CollectionNotFound(req.collection))
    }

    method Search(req: SearchRequest) returns (r: Result<seq<Hit>>)
      ensures r == SearchResult(req)
    {
      r := SearchResult(req);
    }

    /** `client.retrieve(collection, ids=[id])`: the point, or none when absent. */
    method Retrieve(name: string, id: PointId) returns (r: Result<Option<Point>>)
      ensures name !in collections ==> r == Err(CollectionNotFound(name))
      ensures name in collections ==>
        r == Ok(if id in collections[name] then Some(collections[name][id]) else None)
    {
      if name !in collections {
        return Err(CollectionNotFound(name));
      }
      r := Ok(if id in collections[name] then Some(collections[name][id]) else None);
    }

    /** `client.upsert(collection, points)`. */
    method Upsert(name: string, points: seq<PointStruct>) returns (r: Outcome)
      modifies this
      ensures r == (if name in old(collections) then Pass else Fail(CollectionNotFound(name)))
      ensures collections == if r.Pass? then old(collections)[name := Upserted(old(collections)[name], points)]
                             else old(collections)
    {
      if name !in collections {
        return Fail(CollectionNotFound(name));
      }
      collections := collections[name := Upserted(collections[name], points)];
      r := Pass;
    }
  }
}
