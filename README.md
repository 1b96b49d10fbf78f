# Ads recommendation pipeline, modelled in Dafny

This project models the recommendation pipeline of the Ads-Recommendation-System
repository. It has four parts:

- **The catalog loader** (`DataLoading`). It validates the decoded ads file: a list of objects, each holding `ad_id`, `image_url`, `link`, `tagline` and `text`. It maps each failure to its own exception, caches the catalog on first use and looks ads up by id.
- **The embedding pass** (`Embeddings`). It gives every ad dict, in place, an `embedding` computed from `tagline + " " + text`.
- **The vector index** (`QdrantSetup`). This covers the ads collection, the points built from the embedded ads and the mapping from search hits back to payloads.
- **The engine** (`Recommendation`). It runs load, embed, create and upload once, guarded by an `initialized` flag. It serves queries and the category-filtered variant, initialising lazily.

Python values become a `Value` sum type (`Int | Str | Vec | Other`), and records become `map<string, Value>`. A dict that the code updates in place is a `Dict` object whose `entries` field the methods assign. Aliased dicts in one list are handled too. The loader, generator, manager, client and engine are classes whose methods carry `modifies` clauses. Each method is proved against a pure function of its inputs and old state:

- `Load` for `load_data`;
- `EmbedAll` for `prepare_ad_embeddings`;
- `BuildPoints`, `Upserted` and `UploadEffect` for `upload_ads`;
- `InitializeStep` for `initialize`.

The properties the code promises are proved about those functions.

The things the pipeline does not own are parameters:

- **The file.** A `Source` is the outcome of opening and decoding it: not found, bad JSON, another I/O failure, or a parsed value.
- **The sentence-embedding model.** It is an uninterpreted function `encode: string -> Vector`.
- **The store's nearest-neighbour ranking.** It is a `Ranking` oracle. The only constraints are that it returns positions of stored points, no more hits than points, and at most `limit` hits when `limit >= 0`.

The in-memory store is a map from collection name to a collection of points. An upsert inserts, or replaces a point with the same id. The store refuses the whole batch when a vector has the wrong dimension.

Some behaviours of the code are worth stating outright:

- **Payloads include `ad_id`.** Every returned item carries the ad's id beside its image, link, tagline and text.
- **A catalog record missing `tagline` or `text` fails in the loader, before embedding.** The loader raises a generic `Exception` ("Error loading data: ...") listing the missing fields. The embedding pass's `KeyError` path is still modelled. On a validated catalog it is proved unreachable.
- **The category filter raises on any non-empty search result.** Payloads never carry `category`, so it raises `KeyError('category')`. It returns `[]` only when the search found nothing.
- **`initialize` has no guard against concurrent callers.** The engine is a plain flag, and the model has no concurrency.
- **`num_recommendations` is passed to the store as the limit whatever its value.** Zero and negative values are not rejected by the engine.

## Model

| member | source | states |
|---|---|---|
| Wrappers.FirstFailing | src/data_loader.py:23-26 | the index of the first element a check rejects: every earlier element passes, and the one at the index (if any) fails, so a fail-fast loop stops exactly there |
| PyValues.ParseShowNat | src/data_loader.py:57-58 | int() of the decimal digits str() gives for a natural number is that number |
| DataLoading.RequiredFieldsListed | src/data_loader.py:22-26 | the required-field set the code checks and the field list the error message is rendered from name the same five fields, none twice |
| DataLoading.NothingMissingIffComplete | src/data_loader.py:24-25 | the set of required fields an ad lacks is empty exactly when the ad holds all five |
| DataLoading.Load | src/data_loader.py:13-36 | what one load_data call returns: the catalog in file order, or the exception it raises; characterised by LoadSucceedsIff, LoadErrorKinds and FirstIncompleteAdFailsLoad |
| DataLoading.LoadSucceedsIff | src/data_loader.py:13-29 | a load succeeds iff the decoded value is a list of objects each holding every required field (extra keys allowed), and then yields exactly those objects in file order |
| DataLoading.LoadErrorKinds | src/data_loader.py:31-36 | a missing file raises FileNotFoundError naming the path, bad JSON raises ValueError naming the path, and every other failure raises Exception whose message starts "Error loading data: " |
| DataLoading.FirstIncompleteAdFailsLoad | src/data_loader.py:18-26 | the first ad lacking a required field fails the whole load, with a message listing exactly the fields it lacks; later ads are not looked at |
| DataLoading.CoerceId | src/data_loader.py:57-58 | the key after the digit-string coercion; characterised by ParseShowNat, DigitStringFindsIntId and DigitStringMissesStringId |
| DataLoading.FindById | src/data_loader.py:60-63 | Some exactly when some record has that ad_id, and then the first such record; None otherwise |
| DataLoading.LookupAd | src/data_loader.py:53-63 | what get_ad_by_id returns on a loaded catalog: the missing-column ValueError, the first match or None; characterised by LookupOnLoadedCatalog, DigitStringFindsIntId and DigitStringMissesStringId |
| DataLoading.LookupOnLoadedCatalog | src/data_loader.py:53-63 | on a validated catalog a lookup raises only when the catalog is empty (no ad_id column); otherwise it returns the first match or None, never an error for an absent id |
| DataLoading.DigitStringFindsIntId | src/data_loader.py:56-60 | the digit string of n and the integer n find the same ad |
| DataLoading.DigitStringMissesStringId | src/data_loader.py:56-60 | a digit-string key only ever finds an ad whose ad_id is the integer it spells, so a catalog of string ids yields None, or on an empty catalog the missing-column ValueError |
| DataLoading.DataLoader.constructor | src/data_loader.py:6-9 | the loader keeps the path and starts with no cached data |
| DataLoading.DataLoader.LoadData | src/data_loader.py:11-36 | returns or raises as Load says, caches the catalog only on success, and leaves the cache as it was on any failure |
| DataLoading.DataLoader.GetAdById | src/data_loader.py:38-63 | loads only when nothing is cached, propagates a load error, and otherwise returns the lookup on the cached catalog |
| DataLoading.DataLoader.GetAllAds | src/data_loader.py:65-71 | loads only when nothing is cached; on success returns new dicts holding every cached record in file order, and on failure the load error with nothing cached |
| Embeddings.WithEmbedding | src/embeddings.py:30-32 | the ad gains an `embedding` key holding the model's vector for `tagline + " " + text`, and every other key keeps its value |
| Embeddings.WithEmbeddingIdempotent | src/embeddings.py:30-32 | embedding an already embedded ad again changes nothing, as its tagline and text are untouched |
| Embeddings.EmbedAll | src/embeddings.py:25-36 | the ads prepare_ad_embeddings returns, or its KeyError; characterised by EmbedAllSucceedsIff and EmbedAllFailsAt, and PrepareAdEmbeddings is proved against it |
| Embeddings.EmbedAllSucceedsIff | src/embeddings.py:25-36 | preparation succeeds iff every ad has a tagline and a text; it then keeps length and order, and each ad gains the embedding of its own combined text with all other entries unchanged |
| Embeddings.EmbedAllFailsAt | src/embeddings.py:28-35 | the first ad lacking tagline or text decides the KeyError raised, naming the missing field |
| Embeddings.EmbeddingGenerator.constructor | src/embeddings.py:7-9 | the generator keeps its model name (by default all-MiniLM-L6-v2) and encoder |
| Embeddings.EmbeddingGenerator.GenerateEmbedding | src/embeddings.py:11-16 | returns the model's encoding of exactly the given text |
| Embeddings.EmbeddingGenerator.PrepareAdEmbeddings | src/embeddings.py:25-36 | on success returns the same dict objects in order, whose contents are then EmbedAll of their old contents; on a missing field raises EmbedAll's KeyError after every earlier ad (and every alias of one) has been embedded and the rest left as they were |
| QdrantSetup.UpsertAllFresh | src/qdrant_setup.py:35-38 | upserting points with new, distinct ids appends them in order |
| QdrantSetup.UpsertAllFrom | src/qdrant_setup.py:35-38 | every point after an upsert was stored before or sent in the batch |
| QdrantSetup.UpsertKeepsUniform | src/qdrant_setup.py:35-38 | an accepted upsert keeps the collection's size, metric and the dimension of every stored vector |
| QdrantSetup.SearchIn | src/qdrant_setup.py:42-46 | a search fails on a query of the wrong dimension; otherwise it returns at most `limit` hits, each a stored point |
| QdrantSetup.SearchEmptyCollection | src/qdrant_setup.py:42-46 | a search in an empty collection returns no hits and no error |
| QdrantSetup.QdrantClient.constructor | src/qdrant_setup.py:9 | the in-memory store starts with no collections |
| QdrantSetup.QdrantClient.Search | src/qdrant_setup.py:42-46 | the hits client.search gives for a collection: a missing collection fails, otherwise SearchIn's result; characterised by SearchIn's contract and SearchEmptyCollection |
| QdrantSetup.QdrantClient.RecreateCollection | src/qdrant_setup.py:15-18 | the named collection becomes empty with the given size and metric, whatever it held; others are untouched |
| QdrantSetup.QdrantClient.Upsert | src/qdrant_setup.py:35-38 | an upsert to a missing collection or with a vector of the wrong dimension fails and changes nothing; otherwise the collection becomes Upserted's |
| QdrantSetup.PayloadFieldsListed | src/qdrant_setup.py:27-33 | the payload's keys and the order the code reads them in name the same five fields, none twice |
| QdrantSetup.Payload | src/qdrant_setup.py:27-33 | a payload has exactly the keys ad_id, tagline, text, image_url and link, each copied from the ad |
| QdrantSetup.BuildPoints | src/qdrant_setup.py:22-34 | the points upload_ads builds, or the error raised while building them; characterised by BuildPointsShape and BuildPointsFailsAt |
| QdrantSetup.BuildPointsShape | src/qdrant_setup.py:22-34 | points are built iff every ad has an array embedding and the payload fields; then one point per ad, in order, with id equal to its position, the ad's embedding as vector, and a five-field payload without category or embedding |
| QdrantSetup.BuildPointsFailsAt | src/qdrant_setup.py:23-33 | the first ad that cannot become a point decides the error (KeyError on a missing key, AttributeError when the embedding is not an array) |
| QdrantSetup.UploadEffect | src/qdrant_setup.py:20-38 | the outcome of upload_ads and the collections it leaves: the build error with the store unchanged, or one upsert of all points; UploadAds is proved against it, and UploadIndexesCatalog computes it for the engine |
| QdrantSetup.QdrantManager.constructor | src/qdrant_setup.py:7-11 | the manager uses a fresh in-memory store, the given collection name (by default ads_collection) and vector size 384 |
| QdrantSetup.QdrantManager.CreateCollection | src/qdrant_setup.py:13-18 | the ads collection is recreated empty for 384-dimensional cosine vectors |
| QdrantSetup.QdrantManager.UploadAds | src/qdrant_setup.py:20-38 | raises the first point-building error before sending anything; otherwise sends all points in one upsert to the ads collection and reports the store's answer, as UploadEffect says |
| QdrantSetup.QdrantManager.SearchSimilarAds | src/qdrant_setup.py:40-47 | returns one payload per hit, in the order the store returned them, or the store's error; the limit defaults to 5 |
| Recommendation.PipelineBuildsIndex | src/recommendation_engine.py:18-23 | on a validated catalog embedding never fails, and the points built from the embedded ads are exactly one per ad with its own embedding and payload |
| Recommendation.BuildIndexHoldsCatalog | src/recommendation_engine.py:22-23 | the upload into the fresh collection succeeds iff the model gives every ad a 384-dimensional vector, and the collection then holds one point per ad in catalog order |
| Recommendation.UploadIndexesCatalog | src/recommendation_engine.py:22-23 | recreating the collection and uploading the embedded catalog leaves the index IndexOutcome describes, or an empty collection when the batch is refused |
| Recommendation.Recommend | src/recommendation_engine.py:33-41 | what get_recommendations returns once initialised: the payloads of the hits for the query's embedding; characterised by RecommendationsComeFromCatalog, EmptyCatalogRecommendsNothing and CategoryRecommendationsEmptyOrFail |
| Recommendation.RecommendationsComeFromCatalog | src/recommendation_engine.py:33-41 | a query fails only when its vector has the wrong dimension; otherwise it returns at most the requested number of payloads, each exactly the payload of some catalog ad |
| Recommendation.EmptyCatalogRecommendsNothing | src/recommendation_engine.py:33-41 | an empty catalog yields an empty list of recommendations and no error |
| Recommendation.FilterByCategory | src/recommendation_engine.py:52 | the filter succeeds iff every payload has a string category, and then keeps exactly the payloads whose category matches ignoring case, each as many times as it occurs in the input; a missing category raises KeyError |
| Recommendation.CategoryFilterOnPayloads | src/recommendation_engine.py:52 | on payloads without a category the filter returns [] for an empty list and raises KeyError('category') otherwise |
| Recommendation.CategoryRecommendationsEmptyOrFail | src/recommendation_engine.py:43-52 | for every catalog and query, filtering the recommendations by category returns [] when there were none and raises KeyError('category') otherwise |
| Recommendation.CatalogAfterLoad | src/data_loader.py:67-68 | the catalog the engine gets is the cached one when present, and always one that passed validation |
| Recommendation.InitializeStep | src/recommendation_engine.py:14-25 | one call of initialize reports success exactly when it leaves the engine initialised, and then with a catalog cached |
| Recommendation.InitializeKeepsConsistent | src/recommendation_engine.py:14-25 | initialisation keeps the engine consistent: whenever the flag is set, the collection holds one point per cached ad, in catalog order |
| Recommendation.InitializeSucceedsIff | src/recommendation_engine.py:16-25 | initialisation succeeds iff the engine was initialised already, or the catalog loads and every ad gets a 384-dimensional vector |
| Recommendation.InitializeRunsOnce | src/recommendation_engine.py:16 | after success a second call changes nothing and enters no stage; after a failed upload a retry reuses the cached catalog whatever the file now holds |
| Recommendation.RecommendationEngine.constructor | src/recommendation_engine.py:7-12 | the engine starts uninitialised, with an empty store, no cached catalog and the default model and collection name |
| Recommendation.RecommendationEngine.UploadCatalog | src/recommendation_engine.py:22-23 | recreates the collection, then uploads, with the effect IndexOutcome describes, entering the two stages in order |
| Recommendation.RecommendationEngine.IndexCatalog | src/recommendation_engine.py:19-23 | embeds the loaded dicts, then recreates and fills the collection, entering the three stages in order |
| Recommendation.RecommendationEngine.Initialize | src/recommendation_engine.py:14-25 | does what InitializeStep says: a no-op when initialised; otherwise the stages in order until one raises, with the flag set only when all four returned |
| Recommendation.RecommendationEngine.GetRecommendations | src/recommendation_engine.py:27-41 | initialises when needed and propagates its error; otherwise returns exactly the payloads of the search for the query's embedding with limit `num_recommendations` (default 5); success implies the engine is initialised |
| Recommendation.RecommendationEngine.GetRecommendationsByCategory | src/recommendation_engine.py:43-52 | initialises when needed, queries with the category and filters the payloads by category; any success returns [] |

## Left out

- **Files and JSON.** Opening and decoding the file are I/O. `Source` gives their outcome, and the encoding and the JSON grammar are not modelled.
- **The embedding model.** The sentence-transformer, torch and numpy conversions and their floating point are foreign numerics, so the model is the uninterpreted `encode`.
- `generate_batch_embeddings` is not modelled: nothing in the pipeline calls it, and it only wraps the same model.
- **Nearest-neighbour search.** Cosine similarity, scores, tie order and how the store enforces `limit` are library internals, so the `Ranking` oracle replaces them.
- **The store's other failure modes and configuration.** Errors other than a missing collection or a wrong vector dimension, `recreate_collection` options, and the behaviour for `limit < 0` belong to the library. The model assumes a limit of 0 returns no hits.
- **pandas frame behaviour.** NaN filling of keys missing from some records, dtype promotion of `ad_id` and `to_dict` conversions are library behaviour. Records stay plain maps, so `get_all_ads` and `get_ad_by_id` return the records as loaded.
- The "Failed to load advertisement data" ValueError (src/data_loader.py:50-51, 69-70) is not a separate path: `load_data` either caches the catalog or raises, so that branch cannot be reached.
- **Atomic upsert.** The model assumes the store accepts or refuses an upsert batch as a whole: one vector of the wrong dimension leaves the collection unchanged. Nothing in the repository decides this. IndexOutcome's empty collection after a refused batch, and UploadIndexesCatalog, rest on it.
- **Concurrency.** The code has no lock around `initialize`, and the model is sequential.
- **main.py.** It is the Streamlit page and only calls the engine.
- ShowFieldSet: lists the missing fields in the fixed order ad_id, image_url, link, tagline, text. Python prints a set in an order that depends on string hashing.
- PyStr: renders a numpy array as the empty string, and any other non-int, non-string value as the text it carries. numpy's own array formatting is not modelled.
- IsAsciiDigits: accepts ASCII digits only. Python's `str.isdigit` also accepts other Unicode digits, some of which `int()` rejects.
- Lower: lower-cases ASCII letters only, not the full Unicode case mapping of `str.lower`.
- FilterByCategory: states which payloads are kept and how many times each, but not that the kept payloads keep their relative order.
- HasId: compares ids as Dafny values, so a JSON id of `3.0` or `true` never matches the key `3` or `1`. Python's `==` matches both pairs.
- RecommendationEngine.stages: a ghost log of the stages entered. Raising inside `prepare_ad_embeddings` or `create_collection` during initialisation is proved impossible or not modelled, so a failed run records either only the load stage or all four.
