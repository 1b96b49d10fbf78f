/** The recommendation engine: a run-once initialisation (load, embed,
    create the collection, upload) guarded by the `initialized` flag, and the
    query paths that initialise lazily, embed the query and search. */
module Recommendation {
  import opened Wrappers
  import opened PyValues
  import opened DataLoading
  import opened Embeddings
  import opened QdrantSetup

  const DefaultRecommendations := 5

  /** The stages of initialisation, in the order they run. */
  datatype Stage = LoadAds | EmbedAds | CreateIndex | UploadIndex

  const FullRun: seq<Stage> := [LoadAds, EmbedAds, CreateIndex, UploadIndex]

  /** The points built from a validated catalog: the k-th has id k, the
      embedding of the k-th ad's tagline and text, and its payload. */
  function IndexedPoints(recs: seq<Record>, encode: string -> Vector): seq<Point>
    requires AllComplete(recs)
  {
    seq(|recs|, k requires 0 <= k < |recs| && IsComplete(recs[k]) =>
      Point(k, encode(CombinedText(recs[k])), Payload(recs[k])))
  }

  /** Embedding then building points turns a validated catalog into exactly
      IndexedPoints: embedding never fails on it, and the payload of an
      embedded ad is the payload of the ad. */
  lemma PipelineBuildsIndex(recs: seq<Record>, encode: string -> Vector)
    requires AllComplete(recs)
    ensures EmbedAll(recs, encode).Success?
    ensures BuildPoints(EmbedAll(recs, encode).value) == Success(IndexedPoints(recs, encode))
  {
    assert forall k :: 0 <= k < |recs| ==> IsComplete(recs[k]) && HasTextFields(recs[k]);
    EmbedAllSucceedsIff(recs, encode);
    var embedded := EmbedAll(recs, encode).value;
    assert forall k :: 0 <= k < |recs| ==> embedded[k] == WithEmbedding(recs[k], encode);
    assert forall k :: 0 <= k < |recs| ==> Pointable(embedded[k]);
    assert FirstFailing(embedded, Pointable) == |embedded|;
    var built := BuildPoints(embedded).value;
    var expected := IndexedPoints(recs, encode);
    forall k | 0 <= k < |recs|
      ensures built[k] == expected[k]
    {
      assert embedded[k] == WithEmbedding(recs[k], encode);
      assert embedded[k][EmbeddingKey].v == encode(CombinedText(recs[k]));
      assert Payload(embedded[k]) == Payload(recs[k]);
    }
    assert built == expected;
  }

  /** The collection initialisation leaves behind for a validated catalog. */
  function BuildIndex(recs: seq<Record>, encode: string -> Vector): Result<Collection, StoreFault>
    requires AllComplete(recs)
  {
    Upserted(Collection(MiniLmVectorSize, Cosine, []), IndexedPoints(recs, encode))
  }

  /** Uploading into the fresh collection succeeds exactly when the model
      gives every ad a 384-dimensional vector, and then the collection holds
      one point per ad, in catalog order. */
  lemma BuildIndexHoldsCatalog(recs: seq<Record>, encode: string -> Vector)
    requires AllComplete(recs)
    ensures BuildIndex(recs, encode).Success? <==>
              forall k :: 0 <= k < |recs| ==> |encode(CombinedText(recs[k]))| == MiniLmVectorSize
    ensures BuildIndex(recs, encode).Success? ==>
              BuildIndex(recs, encode).value == Collection(MiniLmVectorSize, Cosine, IndexedPoints(recs, encode))
  {
    var points := IndexedPoints(recs, encode);
    if forall k :: 0 <= k < |recs| ==> |encode(CombinedText(recs[k]))| == MiniLmVectorSize {
      assert forall j :: 0 <= j < |points| ==> |points[j].vector| == MiniLmVectorSize;
      UpsertAllFresh([], points);
      assert [] + points == points;
    } else {
      var k :| 0 <= k < |recs| && |encode(CombinedText(recs[k]))| != MiniLmVectorSize;
      assert |points[k].vector| != MiniLmVectorSize;
    }
  }

  /** The outcome of indexing a validated catalog into the collection
      `name`, and the collections it leaves: BuildIndex's collection under
      that name, or, when the store refuses the batch, an empty one. */
  function IndexOutcome(store: map<string, Collection>, name: string, recs: seq<Record>, encode: string -> Vector)
    : (Outcome<PyException>, map<string, Collection>)
    requires AllComplete(recs)
  {
    match BuildIndex(recs, encode)
    case Failure(f) => (Fail(QdrantError(f)), store[name := Collection(MiniLmVectorSize, Cosine, [])])
    case Success(c) => (Pass, store[name := c])
  }

  /** Recreating the collection and uploading the embedded catalog into it
      has exactly IndexOutcome's effect. */
  lemma UploadIndexesCatalog(store: map<string, Collection>, name: string, recs: seq<Record>,
                             embedded: seq<Record>, encode: string -> Vector)
    requires AllComplete(recs)
    requires EmbedAll(recs, encode) == Success(embedded)
    ensures UploadEffect(store[name := Collection(MiniLmVectorSize, Cosine, [])], name, embedded) ==
              IndexOutcome(store, name, recs, encode)
  {
    PipelineBuildsIndex(recs, encode);
    BuildIndexHoldsCatalog(recs, encode);
    var empty := Collection(MiniLmVectorSize, Cosine, []);
    assert store[name := empty][name] == empty;
    if BuildIndex(recs, encode).Success? {
      var c := BuildIndex(recs, encode).value;
      assert store[name := empty][name := c] == store[name := c];
    }
  }

  /** What a query returns once the engine is ready: the payloads of the
      hits for the query's embedding, in the order the store ranked them. */
  function Recommend(recs: seq<Record>, encode: string -> Vector, rank: Ranking, query: string, limit: int)
    : Result<seq<Record>, PyException>
    requires AllComplete(recs)
  {
    match SearchIn(Collection(MiniLmVectorSize, Cosine, IndexedPoints(recs, encode)), rank, encode(query), limit)
    case Failure(e) => Failure(e)
    case Success(hits) => Success(seq(|hits|, j requires 0 <= j < |hits| => hits[j].payload))
  }

  /** A query fails only when the model's vector for it has the wrong
      dimension; otherwise it returns at most `limit` payloads, each the
      payload of some ad of the catalog, carrying exactly its five fields. */
  lemma RecommendationsComeFromCatalog(recs: seq<Record>, encode: string -> Vector, rank: Ranking,
                                       query: string, limit: int)
    requires AllComplete(recs)
    ensures Recommend(recs, encode, rank, query, limit).Success? <==> |encode(query)| == MiniLmVectorSize
    ensures Recommend(recs, encode, rank, query, limit).Success? ==>
              var out := Recommend(recs, encode, rank, query, limit).value;
              && (limit >= 0 ==> |out| <= limit)
              && forall j :: 0 <= j < |out| ==>
                   out[j].Keys == PayloadFields &&
                   exists k :: 0 <= k < |recs| && out[j] == Payload(recs[k])
  {
    var points := IndexedPoints(recs, encode);
    var found := SearchIn(Collection(MiniLmVectorSize, Cosine, points), rank, encode(query), limit);
    if found.Success? {
      var out := Recommend(recs, encode, rank, query, limit).value;
      forall j | 0 <= j < |out|
        ensures exists k :: 0 <= k < |recs| && out[j] == Payload(recs[k])
      {
        var hit := found.value[j];
        assert hit in points;
        var k :| 0 <= k < |points| && points[k] == hit;
        assert out[j] == Payload(recs[k]);
      }
    }
  }

  /** An empty catalog gives no recommendations, and no error. */
  lemma EmptyCatalogRecommendsNothing(encode: string -> Vector, rank: Ranking, query: string, limit: int)
    requires |encode(query)| == MiniLmVectorSize
    ensures Recommend([], encode, rank, query, limit) == Success([])
  {
    SearchEmptyCollection(MiniLmVectorSize, Cosine, rank, encode(query), limit);
    assert IndexedPoints([], encode) == [];
    var hits: seq<Point> := [];
    assert seq(|hits|, j requires 0 <= j < |hits| => hits[j].payload) == [];
  }

  predicate CategoryMatches(p: Record, category: string)
    requires "category" in p && p["category"].Str?
  {
    Lower(p["category"].s) == Lower(category)
  }

  /** The in-order sub-list of payloads whose `category` equals `category`
      ignoring case; a payload without a category raises KeyError, one whose
      category is not a string raises AttributeError. */
  function FilterByCategory(recs: seq<Record>, category: string): (r: Result<seq<Record>, PyException>)
    ensures r.Success? <==> forall k :: 0 <= k < |recs| ==> "category" in recs[k] && recs[k]["category"].Str?
    ensures r.Success? ==> |r.value| <= |recs|
    ensures r.Success? ==> forall p :: p in r.value <==> p in recs && CategoryMatches(p, category)
    ensures r.Success? ==> forall p ::
              multiset(r.value)[p] == (if p in recs && CategoryMatches(p, category) then multiset(recs)[p] else 0)
  {
    if recs == [] then Success([])
    else
      var p := recs[0];
      if "category" !in p then Failure(KeyError("category"))
      else if !p["category"].Str? then Failure(AttributeError(p["category"].TypeName(), "lower"))
      else
        match FilterByCategory(recs[1..], category)
        case Failure(e) => Failure(e)
        case Success(rest) =>
          assert forall q :: q in recs <==> q == p || q in recs[1..];
          assert recs == [p] + recs[1..];
          Success(if CategoryMatches(p, category) then [p] + rest else rest)
  }

  /** Payloads never carry a category, so the filter raises KeyError on any
      non-empty list and returns an empty list only for an empty one. */
  lemma CategoryFilterOnPayloads(recs: seq<Record>, category: string)
    requires forall k :: 0 <= k < |recs| ==> "category" !in recs[k]
    ensures FilterByCategory(recs, category) ==
              if recs == [] then Success([]) else Failure(KeyError("category"))
  {
  }

  /** Whatever the catalog and the query, the category filter over
      recommendations never returns an ad. */
  lemma CategoryRecommendationsEmptyOrFail(recs: seq<Record>, encode: string -> Vector, rank: Ranking,
                                           category: string, limit: int)
    requires AllComplete(recs)
    requires Recommend(recs, encode, rank, category, limit).Success?
    ensures var out := Recommend(recs, encode, rank, category, limit).value;
            FilterByCategory(out, category) == if out == [] then Success([]) else Failure(KeyError("category"))
  {
    RecommendationsComeFromCatalog(recs, encode, rank, category, limit);
    var out := Recommend(recs, encode, rank, category, limit).value;
    assert forall j :: 0 <= j < |out| ==> out[j].Keys == PayloadFields;
    CategoryFilterOnPayloads(out, category);
  }

  /** The catalog `get_all_ads` yields: the cached one, or a fresh load.
      Either way it has passed validation. */
  function CatalogAfterLoad(cached: Option<seq<Record>>, path: string, src: Source): (r: Result<seq<Record>, PyException>)
    requires cached.Some? ==> AllComplete(cached.value)
    ensures r.Success? ==> AllComplete(r.value)
    ensures cached.Some? ==> r == Success(cached.value)
  {
    if cached.Some? then Success(cached.value)
    else
      LoadSucceedsIff(path, src);
      Load(path, src)
  }

  /** The engine's state, as values: its `initialized` flag, the loader's
      cached catalog and the store's collections. */
  datatype Engine = Engine(initialized: bool, data: Option<seq<Record>>, collections: map<string, Collection>)

  /** The collection `name` holds exactly the points of the cached catalog. */
  predicate Indexed(e: Engine, name: string, encode: string -> Vector)
  {
    && e.data.Some?
    && AllComplete(e.data.value)
    && name in e.collections
    && e.collections[name] == Collection(MiniLmVectorSize, Cosine, IndexedPoints(e.data.value, encode))
  }

  /** A cached catalog passed validation, and an initialised engine's index
      matches its catalog. */
  predicate Consistent(e: Engine, name: string, encode: string -> Vector)
  {
    && (e.data.Some? ==> AllComplete(e.data.value))
    && (e.initialized ==> Indexed(e, name, encode))
  }

  /** One call of `initialize`: what it returned or raised, the state it
      left, and the stages it entered. */
  datatype InitStep = InitStep(outcome: Outcome<PyException>, after: Engine, run: seq<Stage>)

  /** What `initialize` does, on values. When already initialised, nothing.
      Otherwise the stages run in order until one raises: a failed load
      changes nothing; a refused upload leaves the catalog cached and the
      collection recreated empty; the flag is set only when all four stages
      returned. */
  function InitializeStep(e: Engine, path: string, name: string, encode: string -> Vector, src: Source): (s: InitStep)
    requires Consistent(e, name, encode)
    ensures s.after.data.Some? ==> AllComplete(s.after.data.value)
    ensures s.outcome.Pass? <==> s.after.initialized
    ensures s.outcome.Pass? ==> s.after.data.Some?
  {
    if e.initialized then InitStep(Pass, e, [])
    else
      match CatalogAfterLoad(e.data, path, src)
      case Failure(err) => InitStep(Fail(err), e, [LoadAds])
      case Success(recs) =>
        var (outcome, collections) := IndexOutcome(e.collections, name, recs, encode);
        InitStep(outcome, Engine(outcome.Pass?, Some(recs), collections), FullRun)
  }

  /** Initialisation keeps the engine consistent: whenever it sets the flag,
      the collection holds one point per cached ad, in catalog order. */
  lemma InitializeKeepsConsistent(e: Engine, path: string, name: string, encode: string -> Vector, src: Source)
    requires Consistent(e, name, encode)
    ensures Consistent(InitializeStep(e, path, name, encode, src).after, name, encode)
  {
    if !e.initialized {
      var loaded := CatalogAfterLoad(e.data, path, src);
      if loaded.Success? {
        BuildIndexHoldsCatalog(loaded.value, encode);
      }
    }
  }

  /** Initialisation succeeds exactly when the engine was initialised
      already, or the catalog loads and the model gives every ad a vector of
      the collection's dimension. */
  lemma InitializeSucceedsIff(e: Engine, path: string, name: string, encode: string -> Vector, src: Source)
    requires Consistent(e, name, encode)
    ensures InitializeStep(e, path, name, encode, src).outcome.Pass? <==>
              || e.initialized
              || (&& CatalogAfterLoad(e.data, path, src).Success?
                  && var recs := CatalogAfterLoad(e.data, path, src).value;
                     forall k :: 0 <= k < |recs| ==> |encode(CombinedText(recs[k]))| == MiniLmVectorSize)
  {
    if !e.initialized && CatalogAfterLoad(e.data, path, src).Success? {
      BuildIndexHoldsCatalog(CatalogAfterLoad(e.data, path, src).value, encode);
    }
  }

  /** Initialisation runs once: after it succeeded, a second call changes
      nothing and enters no stage. After it failed past the load, a retry
      works from the cached catalog, whatever the file now holds. */
  lemma InitializeRunsOnce(e: Engine, path: string, name: string, encode: string -> Vector, src: Source, later: Source)
    requires Consistent(e, name, encode)
    ensures Consistent(InitializeStep(e, path, name, encode, src).after, name, encode)
    ensures var s := InitializeStep(e, path, name, encode, src);
            s.outcome.Pass? ==> InitializeStep(s.after, path, name, encode, later) == InitStep(Pass, s.after, [])
    ensures var s := InitializeStep(e, path, name, encode, src);
            s.after.data.Some? && !s.after.initialized ==>
              InitializeStep(s.after, path, name, encode, later) == InitializeStep(s.after, path, name, encode, src)
  {
    InitializeKeepsConsistent(e, path, name, encode, src);
  }

  class RecommendationEngine {
    const dataLoader: DataLoader
    const embeddingGenerator: EmbeddingGenerator
    const qdrantManager: QdrantManager
    var initialized: bool
    /** The initialisation stages entered so far, in order. */
    ghost var stages: seq<Stage>

    function State(): Engine
      reads this, dataLoader, qdrantManager.client
    {
      Engine(initialized, dataLoader.data, qdrantManager.client.collections)
    }

    ghost predicate Valid()
      reads this, dataLoader, qdrantManager, qdrantManager.client
    {
      && dataLoader.Valid()
      && qdrantManager.Valid()
      && Consistent(State(), qdrantManager.collectionName, embeddingGenerator.encode)
    }

    constructor (dataPath: string, encode: string -> Vector, rank: Ranking)
      ensures Valid() && stages == []
      ensures State() == Engine(false, None, map[])
      ensures fresh(dataLoader) && fresh(qdrantManager) && fresh(qdrantManager.client)
      ensures dataLoader.filePath == dataPath
      ensures embeddingGenerator.modelName == DefaultModelName && embeddingGenerator.encode == encode
      ensures qdrantManager.collectionName == DefaultCollectionName && qdrantManager.client.rank == rank
    {
      dataLoader := new DataLoader(dataPath);
      embeddingGenerator := new EmbeddingGenerator(encode);
      qdrantManager := new QdrantManager(rank);
      initialized := false;
      stages := [];
    }

    /** The last two stages: recreates the collection and uploads the
        embedded ads. */
    method UploadCatalog(processedAds: seq<Dict>, ghost recs: seq<Record>) returns (r: Outcome<PyException>)
      requires qdrantManager.Valid()
      requires AllComplete(recs) && EmbedAll(recs, embeddingGenerator.encode) == Success(Entries(processedAds))
      modifies this`stages, qdrantManager.client
      ensures qdrantManager.Valid()
      ensures stages == old(stages) + [CreateIndex, UploadIndex]
      ensures (r, qdrantManager.client.collections) ==
                IndexOutcome(old(qdrantManager.client.collections), qdrantManager.collectionName, recs,
                             embeddingGenerator.encode)
    {
      ghost var store := qdrantManager.client.collections;
      ghost var embedded := Entries(processedAds);
      ghost var done := stages;
      UploadIndexesCatalog(store, qdrantManager.collectionName, recs, embedded, embeddingGenerator.encode);
      stages := done + [CreateIndex];
      qdrantManager.CreateCollection();
      stages := done + [CreateIndex, UploadIndex];
      r := qdrantManager.UploadAds(processedAds);
      assert Entries(processedAds) == embedded;
    }

    /** The stages after loading: embeds the freshly loaded ad dicts in
        place, then indexes them. */
    method IndexCatalog(ads: seq<Dict>, ghost recs: seq<Record>) returns (r: Outcome<PyException>)
      requires qdrantManager.Valid()
      requires AllComplete(recs) && Entries(ads) == recs
      modifies this`stages, ads, qdrantManager.client
      ensures qdrantManager.Valid()
      ensures stages == old(stages) + [EmbedAds, CreateIndex, UploadIndex]
      ensures (r, qdrantManager.client.collections) ==
                IndexOutcome(old(qdrantManager.client.collections), qdrantManager.collectionName, recs,
                             embeddingGenerator.encode)
    {
      assert EmbedAll(recs, embeddingGenerator.encode).Success? by {
        PipelineBuildsIndex(recs, embeddingGenerator.encode);
      }
      stages := stages + [EmbedAds];
      var processedAds := embeddingGenerator.PrepareAdEmbeddings(ads);
      assert processedAds.Success?;
      r := UploadCatalog(processedAds.value, recs);
    }

    /** Runs load, embed, create and upload once, as InitializeStep says. */
    method Initialize(src: Source) returns (r: Outcome<PyException>)
      requires Valid()
      modifies this, dataLoader, qdrantManager.client
      ensures Valid()
      ensures var step := InitializeStep(old(State()), dataLoader.filePath, qdrantManager.collectionName,
                                      embeddingGenerator.encode, src);
              r == step.outcome && State() == step.after && stages == old(stages) + step.run
    {
      InitializeKeepsConsistent(State(), dataLoader.filePath, qdrantManager.collectionName, embeddingGenerator.encode, src);
      if initialized {
        return Pass;
      }
      ghost var done := stages;
      stages := done + [LoadAds];
      var ads := dataLoader.GetAllAds(src);
      if ads.Failure? {
        return Fail(ads.error);
      }
      var indexed := IndexCatalog(ads.value, dataLoader.data.value);
      assert stages == done + FullRun;
      if indexed.Fail? {
        return Fail(indexed.error);
      }
      initialized := true;
      r := Pass;
    }

    /** The payloads of the ads nearest to the query, after initialising when
        needed; an initialisation error propagates. */
    method GetRecommendations(src: Source, userQuery: string, numRecommendations: int := DefaultRecommendations)
      returns (r: Result<seq<Record>, PyException>)
      requires Valid()
      modifies this, dataLoader, qdrantManager.client
      ensures Valid()
      ensures r.Success? ==> initialized
      ensures var step := InitializeStep(old(State()), dataLoader.filePath, qdrantManager.collectionName,
                                      embeddingGenerator.encode, src);
              && State() == step.after && stages == old(stages) + step.run
              && r == match step.outcome
                      case Fail(e) => Failure(e)
                      case Pass => Recommend(step.after.data.value, embeddingGenerator.encode,
                                             qdrantManager.client.rank, userQuery, numRecommendations)
    {
      if !initialized {
        var init := Initialize(src);
        if init.Fail? {
          return Failure(init.error);
        }
      }
      var queryEmbedding := embeddingGenerator.GenerateEmbedding(userQuery);
      r := qdrantManager.SearchSimilarAds(queryEmbedding, numRecommendations);
      ghost var index := Collection(MiniLmVectorSize, Cosine, IndexedPoints(dataLoader.data.value, embeddingGenerator.encode));
      ghost var found := SearchIn(index, qdrantManager.client.rank, queryEmbedding, numRecommendations);
      assert qdrantManager.client.Search(qdrantManager.collectionName, queryEmbedding, numRecommendations) == found;
      if found.Success? {
        assert r.value == seq(|found.value|, j requires 0 <= j < |found.value| => found.value[j].payload);
      }
    }

    /** The recommendations for the category used as the query, kept when
        their category matches it ignoring case. Payloads carry no category,
        so it never returns an ad. */
    method GetRecommendationsByCategory(src: Source, category: string, numRecommendations: int := DefaultRecommendations)
      returns (r: Result<seq<Record>, PyException>)
      requires Valid()
      modifies this, dataLoader, qdrantManager.client
      ensures Valid()
      ensures var step := InitializeStep(old(State()), dataLoader.filePath, qdrantManager.collectionName,
                                      embeddingGenerator.encode, src);
              && State() == step.after && stages == old(stages) + step.run
              && r == match step.outcome
                      case Fail(e) => Failure(e)
                      case Pass =>
                        match Recommend(step.after.data.value, embeddingGenerator.encode,
                                        qdrantManager.client.rank, category, numRecommendations)
                        case Failure(e) => Failure(e)
                        case Success(found) => FilterByCategory(found, category)
      ensures r.Success? ==> r.value == []
    {
      if !initialized {
        var init := Initialize(src);
        if init.Fail? {
          return Failure(init.error);
        }
      }
      var recommendations := GetRecommendations(src, category, numRecommendations);
      if recommendations.Failure? {
        return Failure(recommendations.error);
      }
      CategoryRecommendationsEmptyOrFail(dataLoader.data.value, embeddingGenerator.encode, qdrantManager.client.rank,
                                         category, numRecommendations);
      r := FilterByCategory(recommendations.value, category);
    }
  }
}
