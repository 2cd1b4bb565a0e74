# Ingestion script for the Indian bail judgments vector store

This project models the ingestion script `upload_data.py`. When run as a
program, the script:

1. Derives the name of the collection's single vector field from the
   embedding model identifier: `fast-` followed by the lower-cased last
   `/`-separated segment.
2. Recreates the collection in a Qdrant store. It asks whether the
   collection exists, deletes it if so, and creates it with a one-field
   schema.
3. Turns every dataset row into a point:
   - the id is the row's position;
   - the payload holds the rendered document (`title: summary`) and the
     row itself;
   - the vector request embeds the row's summary with the configured model.
4. Uploads the points.
5. Polls the collection's status until it is GREEN.
6. Queries the collection with row 0's document text and takes the first
   result.

The Dafny modules follow that structure:

- `Python` (python.dfy) holds the parts of Python the script relies on:
  - exceptions as a `Result`;
  - dictionary subscript and `get`;
  - string `+`;
  - `split` and `lower`.
- `Config` (config.dfy) holds the constants and the vector-name derivation.
- `Points` (points.dfy) holds the point-building comprehension and the
  query text, as pure functions with lemmas.
- `Store` (store.dfy) is the store as the client sees it:
  - it is a class whose named collections change in place;
  - it logs every client call;
  - small pure helpers define what an upload stores (`Upsert`) and what a
    query returns (`TopK`).
- `Ingest` (ingest.dfy) holds the main block:
  - each step is a method over the store, proved against a pure
    specification;
  - the whole run (`Ingest.Run`) is proved against `RunSpec`.
- `Runs` (runs.dfy) holds what a whole run guarantees, stated as lemmas
  about `RunSpec`.

The parts of the store's behaviour that the script cannot see are inputs of
the model:

- `afterUpload`: the status reported once the points are accepted;
- `later`: the status left after each one-second sleep;
- `ranked`: the store's similarity ranking of point ids. A similarity
  search without a filter ranks every stored point, so `ranked` lists every
  stored id exactly once (`Store.RanksAll`).

The model follows the script as written:

- The vector request embeds the raw summary, read without a default. It
  does not embed the rendered document text.
- A row without a summary therefore raises KeyError, although its document
  text defaults the summary to empty.
- A row without a title raises KeyError. No dedicated malformed-record error
  exists.

## Model

| member | source | states |
|---|---|---|
| Python.Subscript | upload_data.py:39 | `row[key]`: defined by its body (the value, or KeyError when the key is absent); proved: Points.PayloadDocumentShape, Points.MissingSummaryRaises |
| Python.Get | upload_data.py:39 | `row.get(key, default)`: defined by its body, never raises; proved: Points.PayloadDocumentShape |
| Python.Concat | upload_data.py:39 | string `+`: defined by its body (TypeError unless both operands are text); proved: Points.PayloadDocumentShape, Points.BuildPointsSucceedsIff |
| Python.Split | upload_data.py:24 | splitting gives at least one piece and no piece holds the separator |
| Python.SplitJoin | upload_data.py:24 | joining the pieces of a split with the separator gives back the string |
| Python.Lower | upload_data.py:24 | lower-casing keeps the length and maps every character through the ASCII lower-case map |
| Python.LoweredCharacters | upload_data.py:24 | a lower-cased string has no upper-case letter, and no `/` when the original had none |
| Python.LowerOfLowercase | upload_data.py:24 | a string without upper-case letters is unchanged by lower-casing |
| Python.LowerIdempotent | upload_data.py:24 | lower-casing an already lower-cased string changes nothing |
| Python.SplitWithoutSeparator | upload_data.py:24 | a string without the separator splits into itself alone |
| Config.LastSegment | upload_data.py:24 | the segment has no `/`; it is a suffix of the identifier, and either the whole identifier or preceded by a `/` |
| Config.VectorName | upload_data.py:24 | the name is the `fast-` prefix plus exactly as many characters as the last segment; after the prefix there is no `/` and no upper-case letter |
| Config.VectorNameIgnoresNamespace | upload_data.py:24 | a namespace in front of the last segment does not change the name; the name of a bare segment is the prefix plus the lower-cased segment |
| Config.VectorNameOfLowercase | upload_data.py:24 | an identifier `namespace/segment` with a lower-case segment gives `fast-` followed by that segment unchanged |
| Config.VectorNameIgnoresCase | upload_data.py:24 | identifiers that agree up to ASCII case give the same vector name |
| Points.PayloadDocument | upload_data.py:39 | the payload's document expression: defined by its body; proved: Points.PayloadDocumentShape |
| Points.BuildPoint | upload_data.py:39 | one point of the comprehension, payload evaluated before vector: defined by its body; proved: Points.MissingSummaryRaises, Points.PointPayloads, Points.PointVectors |
| Points.BuildFrom | upload_data.py:39 | the comprehension over rows k..: defined by its body; proved: Points.BuildFromContents |
| Points.BuildPoints | upload_data.py:39 | the whole comprehension: defined by its body; proved: Points.BuildPointsSucceedsIff, Points.PointIdsAreDense |
| Points.QueryText | upload_data.py:49 | the query text expression on row 0: defined by its body; proved: Points.QueryTextIsFirstDocument, Points.FirstPointMatchesQueryText |
| Points.PayloadDocumentShape | upload_data.py:39 | the document text is title + ": " + summary, with a missing summary rendered as empty; a missing title raises KeyError; a non-text title or summary raises TypeError |
| Points.BuildFromContents | upload_data.py:39 | the comprehension over rows k.. succeeds iff every row builds; it then gives one point per row, in order; otherwise it gives the exception of the first row that fails |
| Points.BuildPointsSucceedsIff | upload_data.py:39 | building all points succeeds exactly when every row has a text title and a text summary |
| Points.MissingSummaryRaises | upload_data.py:39 | a row with a title but no summary has the document "title: " yet raises KeyError("summary") when its vector is built |
| Points.PointIdsAreDense | upload_data.py:39 | there is one point per row, point j has id j, the id set is exactly 0..N-1, and ids are distinct |
| Points.PointPayloads | upload_data.py:39 | each payload's metadata is its row unchanged, and its document is the row's document text |
| Points.PointVectors | upload_data.py:39 | each vector map has the one key VECTOR_NAME; its request is the raw summary with the model; that summary is a proper suffix of the document text |
| Points.PointVectorKeys | upload_data.py:39 | every point's vector map has exactly the key VECTOR_NAME |
| Points.SecondRowWithoutSummaryAborts | upload_data.py:39 | three rows, of which the second has no summary, give KeyError("summary") and no points |
| Points.QueryTextIsFirstDocument | upload_data.py:49 | the query text is row 0's document text, exception for exception, and IndexError on an empty dataset |
| Points.FirstPointMatchesQueryText | upload_data.py:49 | when the points build, the query text is point 0's payload document |
| Store.Ids | upload_data.py:42 | the upload request lists each point's id, in order |
| Store.Upsert | upload_data.py:42 | what an upload stores: defined by its body; proved: Store.UpsertKeys, Store.UpsertLastWins, Store.UpsertProvenance, Store.UpsertDense |
| Store.UpsertKeys | upload_data.py:42 | the upload keeps the stored ids, adds the uploaded ones, and leaves a stored point alone unless an uploaded point has its id |
| Store.UpsertLastWins | upload_data.py:42 | the last point uploaded with an id is the one stored under it |
| Store.UpsertProvenance | upload_data.py:42 | each point in the result was stored before or is one of the uploaded points |
| Store.UpsertContents | upload_data.py:42 | the conjunction of the three Upsert properties above |
| Store.UpsertDense | upload_data.py:42 | uploading points with ids 0..N-1 into an empty collection stores exactly those ids, each with its own point |
| Store.StoredInOrder | upload_data.py:50 | the stored points of the ranked ids, in ranking order: defined by its body; proved: Store.StoredInOrderContents, Store.StoredInOrderAllStored |
| Store.TopK | upload_data.py:50 | what a query returns: defined by its body; proved: Store.TopKContents, Store.TopKOfRanking |
| Store.StoredInOrderContents | upload_data.py:50 | the ranking filtered to stored ids holds only stored points; the best-ranked stored id comes first; the result is empty iff no ranked id is stored |
| Store.StoredInOrderAllStored | upload_data.py:50 | when every ranked id is stored, the filtered ranking is the stored point of each ranked id, in order |
| Store.DistinctCard | upload_data.py:50 | a ranking without repetitions names as many ids as it has entries |
| Store.TopKContents | upload_data.py:50 | the query returns at most `limit` stored points; the best-ranked id, if stored, comes first; for a positive limit, there is a result iff some ranked id is stored |
| Store.TopKOfRanking | upload_data.py:50 | over a ranking of every stored id exactly once, the query returns min(limit, stored points) results, the stored points of the best-ranked ids in order, and no point twice when points are stored under their own ids |
| Store.QdrantStore.constructor | upload_data.py:29 | a client connected to a store with the given collections, with no calls made yet |
| Store.QdrantStore.CollectionExists | upload_data.py:32 | answers whether the name is in use, changes no collection, and logs the call |
| Store.QdrantStore.DeleteCollection | upload_data.py:33 | removes exactly that collection, reports whether it was there, and logs the call |
| Store.QdrantStore.CreateCollection | upload_data.py:35 | on a free name, adds a collection with the schema, no points and status GREEN (`EmptyCollection`); on a name in use, fails with AlreadyExists and changes nothing; logs the call either way |
| Store.QdrantStore.UploadPoints | upload_data.py:42 | succeeds iff the collection exists and every point uses only schema fields; then its points become Upsert(old points, points); otherwise nothing changes; the store stays consistent |
| Store.QdrantStore.GetCollectionStatus | upload_data.py:45 | returns the collection's current status, or NotFound, and logs a successful read |
| Store.QdrantStore.Elapse | upload_data.py:46 | a sleep changes that collection's status and nothing else |
| Store.QdrantStore.QueryPoints | upload_data.py:50 | succeeds iff the collection exists and `using` is one of its vector fields; then returns TopK of the ranking: min(limit, stored points) distinct stored points, those of the best-ranked ids in order; logs the query |
| Ingest.Recreated | upload_data.py:32-35 | the collections after the recreate step: defined by its body; proved: Ingest.RecreatedIsFresh, Ingest.RecreatedForgetsOld, Ingest.RecreateIdempotent |
| Ingest.RecreatedIsFresh | upload_data.py:32-35 | after recreating, the collection exists with exactly the schema (`VectorsConfig`, the dictionary of line 34), no points, status GREEN; all other collections are unchanged |
| Ingest.RecreatedForgetsOld | upload_data.py:32-35 | the result of recreating does not depend on whether or with what the collection existed |
| Ingest.RecreateIdempotent | upload_data.py:32-35 | recreating twice gives the same collections as recreating once |
| Ingest.RecreateCallsKinds | upload_data.py:32-35 | the recreate step ends with the create call and makes only exists, delete and create calls |
| Ingest.DropIfExists | upload_data.py:32-33 | removes the collection if present; logs the existence check, then a delete only when it existed |
| Ingest.Recreate | upload_data.py:32-35 | the collections become Recreated(old, name, schema), and the calls are exists, [delete], create |
| Ingest.FirstGreen | upload_data.py:45 | the index of the first GREEN is at most the number of statuses |
| Ingest.FirstGreenIsFirst | upload_data.py:45 | no GREEN comes before that index; the status there is GREEN unless the index is past the end; the index is in range iff GREEN occurs |
| Ingest.Polls | upload_data.py:45-46 | the wait polls at least once and at most once per status |
| Ingest.PollsStopAtFirstGreen | upload_data.py:45-46 | the last poll reads GREEN iff some status is GREEN, and no earlier poll does |
| Ingest.StatusCalls | upload_data.py:45 | one status read is logged per poll |
| Ingest.StatusCallsAt | upload_data.py:45 | the j-th logged status read reports the j-th status |
| Ingest.StatusCallsAreReads | upload_data.py:45 | every call of the wait is a status read of that collection |
| Ingest.SleepAndPoll | upload_data.py:45-46 | a sleep leaves the new status on that collection only; one status read reporting it is logged |
| Ingest.AwaitGreen | upload_data.py:45-46 | the loop makes Polls(observed) reads, logs exactly those reads, and changes only the collection's status; it returns ready iff a GREEN was seen, which holds iff the final status is GREEN |
| Ingest.ReadyAfterThreeSleeps | upload_data.py:45-46 | GREEN on the fourth poll is the first GREEN, at index 3 |
| Ingest.ProbeResult | upload_data.py:49-51 | the sanity query's outcome: defined by its body; proved: Ingest.ProbeOnlyRaises, Runs.ReadyRunResult, Runs.RunSucceedsIff |
| Ingest.ProbeOnlyRaises | upload_data.py:49-51 | the sanity query fails only by raising an exception, never by waiting |
| Ingest.Probe | upload_data.py:49-51 | the result is ProbeResult: a query-text exception, IndexError on an empty result, or the first result; the query is logged only when its text evaluates |
| Ingest.RowIdsBelow | upload_data.py:39 | the row positions of an N-row dataset are exactly 0..N-1 |
| Ingest.StoredIds | upload_data.py:39-42 | uploading the points of every row into an empty collection stores them under exactly the row positions |
| Ingest.UploadAll | upload_data.py:42 | uploading into the freshly created collection always succeeds and stores Upsert(empty, points) |
| Ingest.WaitAndProbe | upload_data.py:45-51 | the wait and the query follow AfterUpload: result, collections and logged calls |
| Ingest.UploadWaitProbe | upload_data.py:42-51 | the upload, the wait and the query follow AfterBuild |
| Ingest.BuildUploadWaitProbe | upload_data.py:39-51 | the points are built; a row that fails stops here, and otherwise the remaining steps follow AfterRecreate |
| Ingest.Run | upload_data.py:31-51 | on a store that ranks every stored id once, the main block's result, final collections and calls are those of RunSpec |
| Ingest.RunSpec | upload_data.py:31-51 | the main block as a function of the store's collections and behaviour: defined by its body; proved: the Runs lemmas |
| Ingest.AfterRecreate | upload_data.py:37-51 | the run after the recreate step: defined by its body; proved: Runs.BadRowStopsBeforeUpload, Runs.RunAfterBuild |
| Ingest.AfterBuild | upload_data.py:41-51 | the run from the upload on: defined by its body; proved: Runs.RunAfterBuild |
| Ingest.AfterUpload | upload_data.py:44-51 | the run from the wait on: defined by its body; proved: Runs.AfterUploadForm |
| Runs.RunKeepsSchemaAndOthers | upload_data.py:32-35 | whatever happens after the recreate step, the collection exists with exactly the schema, and every other collection is unchanged |
| Runs.BadRowStopsBeforeUpload | upload_data.py:39-42 | a row that does not build raises its exception; the collection stays empty, and only the recreate calls are made, with no upload and no query |
| Runs.NeverGreenIff | upload_data.py:45-46 | the wait gives up iff every row built and no status in the trace is GREEN |
| Runs.RunAfterBuild | upload_data.py:41-51 | once every row builds, the run's final collection, calls and result in closed form: the upload, one read per poll, and the query only after GREEN |
| Runs.AfterUploadForm | upload_data.py:44-51 | the wait leaves the last polled status, logs one read per poll, and queries iff GREEN occurs |
| Runs.QueriesOnlyWhenReady | upload_data.py:45-50 | a query is made only if every row built, the dataset is non-empty and GREEN was seen |
| Runs.NoQueryUnlessReady | upload_data.py:45-50 | a run whose rows built but that saw no GREEN or has no row 0 makes no query |
| Runs.EmptyDatasetFails | upload_data.py:49 | an empty dataset uploads nothing, makes no query, and ends in NeverGreen or IndexError |
| Runs.SucceedsOnlyWhenReady | upload_data.py:39-51 | a run that returns a point has built every row, seen GREEN and had a row 0 |
| Runs.ReadyRunStoresEveryRow | upload_data.py:39-46 | once all rows built and GREEN was seen, the collection is GREEN and holds exactly ids 0..N-1, id j holding row j's point |
| Runs.ReadyRunQueriesFirstDocument | upload_data.py:45-50 | the last two calls are the GREEN status read and the query with point 0's document under VECTOR_NAME |
| Runs.ReadyRunResult | upload_data.py:50-51 | the run returns a point iff the ranking names a stored id; the point is a stored one, and it is the best-ranked row's point when that id is stored |
| Runs.RunSucceedsIff | upload_data.py:39-51 | on a store that ranks every row id once, a run returns a point iff every row is well formed, the dataset is non-empty and GREEN occurs; so a ready run never raises IndexError at line 51; the point is that of the best-ranked row |
| Runs.ProbeFindsFirstRow | upload_data.py:49-51 | when row 0 is ranked first, the result is row 0's point, with row 0 as metadata and its document text |
| Runs.CallOrder | upload_data.py:32-50 | the upload comes right after the create; a query can only be the last call, right after a GREEN status read, and it uses VECTOR_NAME |
| Runs.CallOrderBadRow | upload_data.py:32-39 | a run stopped by a bad row makes its calls in that order |
| Runs.CallOrderAfterBuild | upload_data.py:41-50 | a run whose rows all built makes its calls in that order |
| Runs.OneVectorName | upload_data.py:34-42 | VECTOR_NAME is the schema's only field and every stored point's only vector field |

## Left out

- The configuration is not loaded:
  - reading the environment and `.env` is left out;
  - the settings are a parameter of `Run`;
  - the values stay untyped: `VECTOR_SIZE` and `DISTANCE_METRIC` are strings in the environment and become `nat` and an enumeration here;
  - a missing `EMBEDDING_MODEL`, which fails at import, is not modelled.
- Downloading the dataset is left out. The dataset is a parameter, a sequence of rows.
- The client's network connection, its timeout and gRPC preference, and closing it are not modelled.
- The final status line with the score is left out: it is output only, and scores are not modelled.
- Embedding is left out: a vector is the embedding request (text and model), not numbers, and similarity is the given `ranked` order. Which order the store's similarity search produces is not modelled; the model only requires that it ranks every stored id exactly once.
- Batching and parallelism of the upload (`BatchSize`, `UploadParallel`) are recorded in the logged call only. Batches are not modelled; the upload is modelled as one atomic step.
- Client-side validation of the point models is not modelled. Only the exceptions raised by evaluating the comprehension's own expressions are.
- Ingest.AwaitGreen: the loop in the script is unbounded. The model runs it over a finite trace of statuses, and a trace without GREEN ends in the `NeverGreen` outcome, where the script would keep polling.
- Ingest.SleepAndPoll: the sleep's duration is not modelled. Only the status the store reports after it is.
- Python.Lower: lower-casing is modelled on ASCII letters only. Unicode case mapping is not.
- Store.QdrantStore.Elapse: when and how the store's optimizer changes the status is not modelled. The statuses come from the trace.
- `memory_agent.py`, the repository's other program, is not part of this model.
