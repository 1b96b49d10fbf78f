/** The vector index: an in-memory store of named collections of points,
    and the manager that creates the ads collection, turns embedded ads into
    points, and maps search hits back to their payloads. */
module QdrantSetup {
  import opened Wrappers
  import opened PyValues
  import Embeddings

  const DefaultCollectionName := "ads_collection"

  /** The dimension of the sentence-embedding model's vectors. */
  const MiniLmVectorSize: nat := 384

  datatype Distance = Cosine | Euclid | Dot | Manhattan

  /** A stored point: its id in the collection, its vector and its payload. */
  datatype Point = Point(id: nat, vector: Vector, payload: Record)

  datatype Collection = Collection(size: nat, distance: Distance, points: seq<Point>)

  /** Positions into `count` stored points: no more hits than points, and
      at most `limit` of them. */
  predicate ValidRanking(positions: seq<nat>, count: nat, limit: int)
  {
    && |positions| <= count
    && (limit >= 0 ==> |positions| <= limit)
    && forall j :: 0 <= j < |positions| ==> positions[j] < count
  }

  ghost predicate RanksStoredPoints(f: (seq<Point>, Vector, int) -> seq<nat>)
  {
    forall points, query, limit :: ValidRanking(f(points, query, limit), |points|, limit)
  }

  /** The store's nearest-neighbour search: for the stored points, a query
      vector and a limit, the positions of the hits, best first. How it
      ranks (cosine similarity, ties) is the library's business. */
  type Ranking = f: (seq<Point>, Vector, int) -> seq<nat> | RanksStoredPoints(f)
    witness (points: seq<Point>, query: Vector, limit: int) => []

  /** Every vector of the collection has the collection's dimension. */
  predicate Uniform(c: Collection)
  {
    forall j :: 0 <= j < |c.points| ==> |c.points[j].vector| == c.size
  }

  /** Inserts `p`, replacing the stored point with the same id if there is one. */
  function UpsertOne(points: seq<Point>, p: Point): seq<Point>
  {
    var j := FirstFailing(points, (q: Point) => q.id != p.id);
    if j < |points| then points[j := p] else points + [p]
  }

  function UpsertAll(points: seq<Point>, batch: seq<Point>): seq<Point>
    decreases |batch|
  {
    if batch == [] then points else UpsertAll(UpsertOne(points, batch[0]), batch[1..])
  }

  /** An upsert into a collection: refused as a whole when some vector has
      the wrong dimension. */
  function Upserted(c: Collection, batch: seq<Point>): Result<Collection, StoreFault>
  {
    var i := FirstFailing(batch, (p: Point) => |p.vector| == c.size);
    if i < |batch| then Failure(WrongVectorSize(c.size, |batch[i].vector|))
    else Success(c.(points := UpsertAll(c.points, batch)))
  }

  predicate DistinctIds(batch: seq<Point>)
  {
    forall j, k :: 0 <= j < k < |batch| ==> batch[j].id != batch[k].id
  }

  /** Points with new, distinct ids are appended in order. */
  lemma {:induction false} UpsertAllFresh(points: seq<Point>, batch: seq<Point>)
    requires DistinctIds(batch)
    requires forall j, k :: 0 <= j < |points| && 0 <= k < |batch| ==> points[j].id != batch[k].id
    ensures UpsertAll(points, batch) == points + batch
    decreases |batch|
  {
    if batch != [] {
      var p := batch[0];
      var j := FirstFailing(points, (q: Point) => q.id != p.id);
      assert j == |points|;
      var next := points + [p];
      assert UpsertOne(points, p) == next;
      forall a, b | 0 <= a < |next| && 0 <= b < |batch[1..]|
        ensures next[a].id != batch[1..][b].id
      {
        if a == |points| {
          assert next[a] == batch[0] && batch[1..][b] == batch[b + 1];
        } else {
          assert batch[1..][b] == batch[b + 1];
        }
      }
      UpsertAllFresh(next, batch[1..]);
      assert next + batch[1..] == points + batch;
    }
  }

  /** Every point an upsert leaves is a point that was stored or sent. */
  lemma {:induction false} UpsertAllFrom(points: seq<Point>, batch: seq<Point>)
    ensures forall p :: p in UpsertAll(points, batch) ==> p in points || p in batch
    decreases |batch|
  {
    if batch != [] {
      var next := UpsertOne(points, batch[0]);
      assert forall p :: p in next ==> p in points || p == batch[0];
      UpsertAllFrom(next, batch[1..]);
    }
  }

  /** An upsert keeps the collection's configuration and the dimension of
      every stored vector. */
  lemma UpsertKeepsUniform(c: Collection, batch: seq<Point>)
    requires Uniform(c)
    ensures Upserted(c, batch).Success? ==>
              var d := Upserted(c, batch).value;
              Uniform(d) && d.size == c.size && d.distance == c.distance
  {
    if Upserted(c, batch).Success? {
      var d := Upserted(c, batch).value;
      UpsertAllFrom(c.points, batch);
      assert forall j :: 0 <= j < |batch| ==> |batch[j].vector| == c.size;
      forall j | 0 <= j < |d.points|
        ensures |d.points[j].vector| == c.size
      {
        assert d.points[j] in c.points || d.points[j] in batch;
      }
    }
  }

  /** A search in one collection: the ranked hits, or an error when the
      query has the wrong dimension. */
  function SearchIn(c: Collection, rank: Ranking, query: Vector, limit: int): (r: Result<seq<Point>, PyException>)
    ensures r.Success? ==> (limit >= 0 ==> |r.value| <= limit) &&
                           forall j :: 0 <= j < |r.value| ==> r.value[j] in c.points
  {
    if |query| != c.size then Failure(QdrantError(WrongVectorSize(c.size, |query|)))
    else
      var positions := rank(c.points, query, limit);
      assert ValidRanking(positions, |c.points|, limit);
      Success(seq(|positions|, j requires 0 <= j < |positions| => c.points[positions[j]]))
  }

  /** A search in an empty collection finds nothing and does not fail. */
  lemma SearchEmptyCollection(size: nat, distance: Distance, rank: Ranking, query: Vector, limit: int)
    requires |query| == size
    ensures SearchIn(Collection(size, distance, []), rank, query, limit) == Success([])
  {
    assert ValidRanking(rank([], query, limit), 0, limit);
  }

  /** The in-memory store: named collections of points. */
  class QdrantClient {
    const location: string
    const rank: Ranking
    var collections: map<string, Collection>

    ghost predicate Valid()
      reads this
    {
      forall name :: name in collections ==> Uniform(collections[name])
    }

    constructor (location: string, rank: Ranking)
      ensures Valid() && collections == map[]
      ensures this.location == location && this.rank == rank
    {
      this.location := location;
      this.rank := rank;
      collections := map[];
    }

    /** Replaces any collection of that name by an empty one. */
    method RecreateCollection(name: string, size: nat, distance: Distance)
      requires Valid()
      modifies this
      ensures Valid()
      ensures collections == old(collections)[name := Collection(size, distance, [])]
    {
      collections := collections[name := Collection(size, distance, [])];
    }

    method Upsert(name: string, points: seq<Point>) returns (r: Outcome<PyException>)
      requires Valid()
      modifies this
      ensures Valid()
      ensures name !in old(collections) ==>
                r == Fail(QdrantError(CollectionNotFound(name))) && collections == old(collections)
      ensures name in old(collections) ==>
                match Upserted(old(collections)[name], points)
                case Failure(f) => r == Fail(QdrantError(f)) && collections == old(collections)
                case Success(c) => r == Pass && collections == old(collections)[name := c]
    {
      if name !in collections {
        return Fail(QdrantError(CollectionNotFound(name)));
      }
      var updated := Upserted(collections[name], points);
      if updated.Failure? {
        return Fail(QdrantError(updated.error));
      }
      UpsertKeepsUniform(collections[name], points);
      collections := collections[name := updated.value];
      r := Pass;
    }

    function Search(name: string, query: Vector, limit: int): Result<seq<Point>, PyException>
      reads this
    {
      if name !in collections then Failure(QdrantError(CollectionNotFound(name)))
      else SearchIn(collections[name], rank, query, limit)
    }
  }

  /** The fields an ad's payload carries, in the order they are read. */
  const PayloadOrder: seq<string> := ["ad_id", "tagline", "text", "image_url", "link"]

  /** The same fields, as a set: the keys of every payload. */
  const PayloadFields: set<string> := {"ad_id", "tagline", "text", "image_url", "link"}

  /** The list and the set name the same five fields, each listed once. */
  lemma PayloadFieldsListed()
    ensures PayloadFields == set f <- PayloadOrder
    ensures |PayloadOrder| == |PayloadFields|
  {
  }

  /** An ad can be turned into a point: it has a vector embedding and every
      payload field. */
  predicate Pointable(m: Record)
  {
    Embeddings.EmbeddingKey in m && m[Embeddings.EmbeddingKey].Vec? && PayloadFields <= m.Keys
  }

  /** The payload of an ad: exactly its five display and id fields, copied. */
  function Payload(m: Record): (p: Record)
    requires PayloadFields <= m.Keys
    ensures p.Keys == PayloadFields
    ensures forall key :: key in p ==> p[key] == m[key]
  {
    map["ad_id" := m["ad_id"], "tagline" := m["tagline"], "text" := m["text"],
        "image_url" := m["image_url"], "link" := m["link"]]
  }

  /** The error building a point from an ad raises: a KeyError for a missing
      embedding, an AttributeError when the embedding is not an array, or a
      KeyError for the first payload field missing. */
  function PointError(m: Record): PyException
    requires !Pointable(m)
  {
    if Embeddings.EmbeddingKey !in m then KeyError(Embeddings.EmbeddingKey)
    else if !m[Embeddings.EmbeddingKey].Vec? then AttributeError(m[Embeddings.EmbeddingKey].TypeName(), "tolist")
    else
      var j := FirstFailing(PayloadOrder, (key: string) => key in m);
      if j < |PayloadOrder| then KeyError(PayloadOrder[j])
      else assert false; KeyError("")
  }

  /** The points `upload_ads` builds, or the error of the first ad it cannot
      turn into one. */
  function BuildPoints(ms: seq<Record>): Result<seq<Point>, PyException>
  {
    var i := FirstFailing(ms, Pointable);
    if i < |ms| then Failure(PointError(ms[i]))
    else Success(seq(|ms|, k requires 0 <= k < |ms| && Pointable(ms[k]) =>
                   Point(k, ms[k][Embeddings.EmbeddingKey].v, Payload(ms[k]))))
  }

  /** One point per ad, in input order: the k-th point has id k whatever the
      ad's own ad_id, the ad's embedding as vector, and a payload of exactly
      the five fields, so neither `category` nor `embedding` is carried. */
  lemma BuildPointsShape(ms: seq<Record>)
    ensures BuildPoints(ms).Success? <==> forall k :: 0 <= k < |ms| ==> Pointable(ms[k])
    ensures BuildPoints(ms).Success? ==>
              var points := BuildPoints(ms).value;
              && |points| == |ms|
              && DistinctIds(points)
              && forall k :: 0 <= k < |ms| ==>
                   && points[k].id == k
                   && Vec(points[k].vector) == ms[k][Embeddings.EmbeddingKey]
                   && points[k].payload.Keys == PayloadFields
                   && (forall key :: key in PayloadFields ==> points[k].payload[key] == ms[k][key])
                   && "category" !in points[k].payload && Embeddings.EmbeddingKey !in points[k].payload
  {
    var i := FirstFailing(ms, Pointable);
    if i < |ms| {
      assert !Pointable(ms[i]);
    }
  }

  /** The first ad that cannot become a point decides the error. */
  lemma BuildPointsFailsAt(ms: seq<Record>, i: nat)
    requires i < |ms| && !Pointable(ms[i])
    requires forall k :: 0 <= k < i ==> Pointable(ms[k])
    ensures BuildPoints(ms) == Failure(PointError(ms[i]))
  {
    assert FirstFailing(ms, Pointable) == i;
  }

  /** What `upload_ads` does, on values: its outcome and the collections it
      leaves. An ad that cannot become a point raises before anything is
      sent; otherwise the store answers the one upsert. */
  function UploadEffect(store: map<string, Collection>, name: string, ms: seq<Record>)
    : (Outcome<PyException>, map<string, Collection>)
  {
    match BuildPoints(ms)
    case Failure(e) => (Fail(e), store)
    case Success(points) =>
      if name !in store then (Fail(QdrantError(CollectionNotFound(name))), store)
      else
        match Upserted(store[name], points)
        case Failure(f) => (Fail(QdrantError(f)), store)
        case Success(c) => (Pass, store[name := c])
  }

  class QdrantManager {
    const client: QdrantClient
    const collectionName: string
    const vectorSize: nat

    ghost predicate Valid()
      reads this, client
    {
      vectorSize == MiniLmVectorSize && client.Valid()
    }

    constructor (rank: Ranking, collectionName: string := DefaultCollectionName)
      ensures Valid() && fresh(client)
      ensures this.collectionName == collectionName && client.collections == map[] && client.rank == rank
    {
      client := new QdrantClient(":memory:", rank);
      this.collectionName := collectionName;
      vectorSize := MiniLmVectorSize;
    }

    /** (Re)creates the ads collection for cosine search over 384-dimensional
        vectors, dropping whatever a collection of that name held. */
    method CreateCollection()
      requires Valid()
      modifies client
      ensures Valid()
      ensures client.collections == old(client.collections)[collectionName := Collection(MiniLmVectorSize, Cosine, [])]
    {
      client.RecreateCollection(collectionName, vectorSize, Cosine);
    }

    /** Builds one point per ad and sends them all in one upsert to the ads
        collection; an ad that cannot become a point raises before anything
        is sent. */
    method UploadAds(ads: seq<Dict>) returns (r: Outcome<PyException>)
      requires Valid()
      modifies client
      ensures Valid()
      ensures (r, client.collections) == UploadEffect(old(client.collections), collectionName, Entries(ads))
    {
      ghost var ms := Entries(ads);
      var points: seq<Point> := [];
      var i := 0;
      while i < |ads|
        invariant 0 <= i <= |ads| && |points| == i
        invariant forall k :: 0 <= k < i ==>
                    Pointable(ms[k]) && points[k] == Point(k, ms[k][Embeddings.EmbeddingKey].v, Payload(ms[k]))
      {
        var ad := ads[i].entries;
        if !Pointable(ad) {
          BuildPointsFailsAt(ms, i);
          return Fail(PointError(ad));
        }
        points := points + [Point(i, ad[Embeddings.EmbeddingKey].v, Payload(ad))];
        i := i + 1;
      }
      assert FirstFailing(ms, Pointable) == |ms|;
      assert BuildPoints(ms).value == points by {
        var built := BuildPoints(ms).value;
        assert forall k :: 0 <= k < |ms| ==> built[k] == points[k];
      }
      r := client.Upsert(collectionName, points);
    }

    /** The payload of every hit, in the order the store returned the hits. */
    method SearchSimilarAds(query: Vector, limit: int := 5) returns (r: Result<seq<Record>, PyException>)
      ensures match client.Search(collectionName, query, limit)
              case Failure(e) => r == Failure(e)
              case Success(hits) =>
                r.Success? && |r.value| == |hits| &&
                forall j :: 0 <= j < |hits| ==> r.value[j] == hits[j].payload
    {
      var hits := client.Search(collectionName, query, limit);
      if hits.Failure? {
        return Failure(hits.error);
      }
      r := Success(seq(|hits.value|, j requires 0 <= j < |hits.value| => hits.value[j].payload));
    }
  }
}
