/** The main block of the ingestion script: recreate the collection, build
    and upload the points, wait until the store reports GREEN, and query the
    text of the first row. */
module Ingest {
  import opened Python
  import opened Config
  import opened Points
  import opened Store

  /** The settings the script reads from its environment. */
  datatype Settings = Settings(collection: string, embeddingModel: string, vectorSize: nat, distance: Distance)

  /** Why a run stops without a first result. `NeverGreen`: the store was
      still not GREEN on the last status the given trace provides (the
      script itself would keep polling). */
  datatype Failure = Raised(exception: Exception) | NeverGreen

  /** The collection schema: one vector field, named after the model, with the
      configured size and distance. */
  function VectorsConfig(s: Settings): (schema: Schema)
    ensures schema.Keys == {VectorName(s.embeddingModel)}
    ensures schema[VectorName(s.embeddingModel)] == VectorParams(s.vectorSize, s.distance)
  {
    map[VectorName(s.embeddingModel) := VectorParams(s.vectorSize, s.distance)]
  }

  // ---------------------------------------------------------------------
  // Recreating the collection

  /** The collections after the recreate step. */
  function Recreated(collections: map<string, Collection>, name: string, vectors: Schema): map<string, Collection>
  {
    collections[name := EmptyCollection(vectors)]
  }

  /** The client calls of the recreate step. */
  function RecreateCalls(existed: bool, name: string, vectors: Schema): seq<Call>
  {
    [Exists(name)] + (if existed then [Delete(name)] else []) + [Create(name, vectors)]
  }

  /** `a` and `b` hold the same collections under every name but `name`. */
  ghost predicate SameExcept(a: map<string, Collection>, b: map<string, Collection>, name: string)
  {
    forall k :: k != name ==> (k in a <==> k in b) && (k in a ==> a[k] == b[k])
  }

  /** The recreate step asks, perhaps deletes, and ends with the creation;
      it neither uploads nor queries. */
  lemma RecreateCallsKinds(existed: bool, name: string, vectors: Schema)
    ensures var calls := RecreateCalls(existed, name, vectors);
      && |calls| > 0 && calls[|calls| - 1] == Create(name, vectors)
      && forall c :: c in calls ==> c == Exists(name) || c == Delete(name) || c == Create(name, vectors)
  {
    var calls := RecreateCalls(existed, name, vectors);
    var prefix := [Exists(name)] + (if existed then [Delete(name)] else []);
    assert calls == prefix + [Create(name, vectors)];
    assert forall c :: c in calls ==> c in prefix || c == Create(name, vectors);
  }

  /** Whatever the collection held before, and whether it existed, the
      recreate step leaves it empty with exactly the given schema, and
      leaves every other collection alone. */
  lemma RecreatedIsFresh(collections: map<string, Collection>, name: string, vectors: Schema)
    ensures var after := Recreated(collections, name, vectors);
      && name in after && after[name].vectors == vectors
      && |after[name].points| == 0 && after[name].status == Green
      && SameExcept(after, collections, name)
  {
  }

  /** What the collection held before, and whether it existed, makes no
      difference to the recreate step. */
  lemma RecreatedForgetsOld(collections: map<string, Collection>, name: string, vectors: Schema)
    ensures Recreated(collections, name, vectors) == Recreated(collections - {name}, name, vectors)
  {
    var after := Recreated(collections, name, vectors);
    assert forall k :: k in after <==> k in Recreated(collections - {name}, name, vectors);
  }

  /** Recreating twice gives the state of recreating once. */
  lemma RecreateIdempotent(collections: map<string, Collection>, name: string, vectors: Schema)
    ensures Recreated(Recreated(collections, name, vectors), name, vectors) == Recreated(collections, name, vectors)
  {
  }

  /** Ask whether the collection exists, and delete it when it does. */
  method DropIfExists(store: QdrantStore, name: string)
    requires store.Valid()
    modifies store
    ensures store.Valid()
    ensures store.collections == old(store.collections) - {name}
    ensures store.log == old(store.log) + [Exists(name)] + (if name in old(store.collections) then [Delete(name)] else [])
  {
    var existed := store.CollectionExists(name);
    if existed {
      var _ := store.DeleteCollection(name);
    }
  }

  /** Delete the collection if it exists, then create it with `vectors`. */
  method Recreate(store: QdrantStore, name: string, vectors: Schema)
    requires store.Valid()
    modifies store
    ensures store.Valid()
    ensures store.collections == Recreated(old(store.collections), name, vectors)
    ensures store.log == old(store.log) + RecreateCalls(name in old(store.collections), name, vectors)
  {
    DropIfExists(store, name);
    var created := store.CreateCollection(name, vectors);
    assert created.Ok?;  // the name is free at this point, so creation succeeds
    RecreatedForgetsOld(old(store.collections), name, vectors);
  }

  // ---------------------------------------------------------------------
  // Waiting until the store reports GREEN

  /** The position of the first GREEN in `observed`, or `|observed|`. */
  function FirstGreen(observed: seq<Status>): (k: nat)
    ensures k <= |observed|
  {
    if observed == [] then 0
    else if observed[0] == Green then 0
    else 1 + FirstGreen(observed[1..])
  }

  /** FirstGreen is the first GREEN: there is none before it, and it is one
      unless it is `|observed|`. */
  lemma {:induction false} FirstGreenIsFirst(observed: seq<Status>)
    ensures forall j :: 0 <= j < FirstGreen(observed) ==> observed[j] != Green
    ensures FirstGreen(observed) < |observed| ==> observed[FirstGreen(observed)] == Green
    ensures FirstGreen(observed) < |observed| <==> Green in observed
  {
    if observed != [] && observed[0] != Green {
      FirstGreenIsFirst(observed[1..]);
    }
  }

  /** How many polls the wait makes on `observed`: up to the first GREEN,
      or all of them. */
  function Polls(observed: seq<Status>): (polls: nat)
    requires |observed| > 0
    ensures 1 <= polls <= |observed|
  {
    if FirstGreen(observed) < |observed| then FirstGreen(observed) + 1 else |observed|
  }

  /** The last poll reads GREEN exactly when some status is GREEN, and no
      earlier poll does. */
  lemma PollsStopAtFirstGreen(observed: seq<Status>)
    requires |observed| > 0
    ensures observed[Polls(observed) - 1] == Green <==> FirstGreen(observed) < |observed|
    ensures forall j :: 0 <= j < Polls(observed) - 1 ==> observed[j] != Green
  {
    FirstGreenIsFirst(observed);
    var k := FirstGreen(observed);
    if k < |observed| {
      assert Polls(observed) - 1 == k;
    } else {
      assert Polls(observed) - 1 == |observed| - 1 == k - 1;
    }
  }

  /** The status reads of a list of polls. */
  function StatusCalls(name: string, reported: seq<Status>): (calls: seq<Call>)
    ensures |calls| == |reported|
  {
    if reported == [] then []
    else StatusCalls(name, reported[..|reported| - 1]) + [GetStatus(name, reported[|reported| - 1])]
  }

  /** The j-th status read reports the j-th status. */
  lemma {:induction false} StatusCallsAt(name: string, reported: seq<Status>)
    ensures forall j :: 0 <= j < |reported| ==> StatusCalls(name, reported)[j] == GetStatus(name, reported[j])
    decreases |reported|
  {
    if reported != [] {
      StatusCallsAt(name, reported[..|reported| - 1]);
    }
  }

  /** The wait makes status reads and nothing else. */
  lemma StatusCallsAreReads(name: string, reported: seq<Status>)
    ensures forall c :: c in StatusCalls(name, reported) ==> c.GetStatus? && c.name == name
  {
    StatusCallsAt(name, reported);
  }

  /** One sleep of the wait, during which the store's indexing leaves the
      status `next`, followed by a read of the collection's status. */
  method SleepAndPoll(store: QdrantStore, name: string, next: Status) returns (status: Status)
    requires store.Valid() && name in store.collections
    modifies store
    ensures store.Valid()
    ensures status == next
    ensures store.collections == old(store.collections)[name := old(store.collections)[name].(status := next)]
    ensures store.log == old(store.log) + [GetStatus(name, next)]
  {
    store.Elapse(name, next);
    var r := store.GetCollectionStatus(name);
    status := r.value;
  }

  /** The readiness wait: read the status, and sleep and read again for as
      long as it is not GREEN, with `later[j]` the status the store's
      indexing leaves after the j-th sleep. The polls see the current
      status and then `later`; the loop stops at the
      first GREEN, or when the trace runs out. */
  method AwaitGreen(store: QdrantStore, name: string, later: seq<Status>) returns (ready: bool, polls: nat)
    requires store.Valid() && name in store.collections
    modifies store
    ensures store.Valid()
    ensures var observed := [old(store.collections)[name].status] + later;
      && ready == (FirstGreen(observed) < |observed|)
      && polls == Polls(observed)
      && store.collections == old(store.collections)[name := old(store.collections)[name].(status := observed[polls - 1])]
      && store.log == old(store.log) + StatusCalls(name, observed[..polls])
    ensures ready <==> store.collections[name].status == Green
  {
    ghost var base, log0 := store.collections, store.log;
    ghost var observed := [base[name].status] + later;
    var r := store.GetCollectionStatus(name);
    var status := r.value;
    polls := 1;
    assert observed[..polls] == [status];
    while status != Green && polls <= |later|
      invariant 1 <= polls <= |observed|
      invariant status == observed[polls - 1]
      invariant forall j :: 0 <= j < polls - 1 ==> observed[j] != Green
      invariant store.Valid() && name in store.collections
      invariant store.collections == base[name := base[name].(status := status)]
      invariant store.log == log0 + StatusCalls(name, observed[..polls])
      decreases |observed| - polls
    {
      status := SleepAndPoll(store, name, later[polls - 1]);
      StatusCallsSnoc(name, observed, polls);
      polls := polls + 1;
    }
    ready := status == Green;
    NoGreenBefore(observed, polls - 1);
  }

  /** One more poll appends one status read. */
  lemma StatusCallsSnoc(name: string, observed: seq<Status>, n: nat)
    requires n < |observed|
    ensures StatusCalls(name, observed[..n + 1]) == StatusCalls(name, observed[..n]) + [GetStatus(name, observed[n])]
  {
    assert observed[..n + 1][..n] == observed[..n];
  }

  /** A GREEN at `k` with none before it is the first GREEN; no GREEN in
      the first `k + 1` entries makes the first one at least `k + 1`. */
  lemma {:induction false} NoGreenBefore(observed: seq<Status>, k: nat)
    requires k < |observed| && forall j :: 0 <= j < k ==> observed[j] != Green
    ensures observed[k] == Green ==> FirstGreen(observed) == k
    ensures observed[k] != Green ==> FirstGreen(observed) > k
  {
    if k > 0 {
      NoGreenBefore(observed[1..], k - 1);
    }
  }

  /** A wait that sees GREEN on the fourth poll ends after four polls and
      three sleeps. */
  lemma ReadyAfterThreeSleeps(observed: seq<Status>)
    requires observed == [Yellow, Yellow, Yellow, Green, Yellow]
    ensures FirstGreen(observed) == 3
  {
    NoGreenBefore(observed, 3);
  }

  // ---------------------------------------------------------------------
  // The sanity query

  /** The first result of the query for row 0's document text; an empty
      result raises IndexError. */
  function ProbeResult(stored: map<nat, Point>, dataset: seq<Row>, ranked: seq<nat>): Result<Point, Failure>
  {
    match QueryText(dataset)
    case Err(e) => Err(Raised(e))
    case Ok(_) =>
      var found := TopK(stored, ranked, DefaultLimit);
      if |found| == 0 then Err(Raised(IndexError)) else Ok(found[0])
  }

  /** The sanity query does not wait: it fails only by raising. */
  lemma ProbeOnlyRaises(stored: map<nat, Point>, dataset: seq<Row>, ranked: seq<nat>)
    ensures ProbeResult(stored, dataset, ranked).Err? ==> ProbeResult(stored, dataset, ranked).error.Raised?
  {
  }

  /** The client calls of the sanity query: none when its text raises. */
  function ProbeCalls(name: string, vectorName: string, model: string, dataset: seq<Row>): seq<Call>
  {
    match QueryText(dataset)
    case Err(_) => []
    case Ok(text) => [Query(name, vectorName, Document(text, model), DefaultLimit)]
  }

  /** Query the collection for row 0's document text and take the first
      result. */
  method Probe(store: QdrantStore, name: string, vectorName: string, model: string, dataset: seq<Row>, ranked: seq<nat>)
    returns (r: Result<Point, Failure>)
    requires store.Valid() && name in store.collections && vectorName in store.collections[name].vectors
    requires RanksAll(ranked, store.collections[name].points.Keys)
    modifies store`log
    ensures r == ProbeResult(store.collections[name].points, dataset, ranked)
    ensures store.log == old(store.log) + ProbeCalls(name, vectorName, model, dataset)
  {
    var queryText := QueryText(dataset);
    if queryText.Err? {
      return Err(Raised(queryText.error));
    }
    var found := store.QueryPoints(name, Document(queryText.value, model), vectorName, DefaultLimit, ranked);
    assert found.Ok?;  // the query names the schema's vector field
    if |found.value| == 0 {
      return Err(Raised(IndexError));
    }
    r := Ok(found.value[0]);
  }

  // ---------------------------------------------------------------------
  // The whole run

  /** The ids of the points of a dataset of `n` rows: its row positions. */
  ghost function RowIds(n: nat): set<nat>
  {
    if n == 0 then {} else RowIds(n - 1) + {n - 1}
  }

  /** The row positions are the numbers below `n`. */
  lemma {:induction false} RowIdsBelow(n: nat)
    ensures forall id: int :: id in RowIds(n) <==> 0 <= id < n
  {
    if n > 0 {
      RowIdsBelow(n - 1);
    }
  }

  /** Uploading the points of every row into an empty collection stores
      them under exactly the row positions. */
  lemma StoredIds(dataset: seq<Row>, vectorName: string, model: string)
    requires BuildPoints(dataset, vectorName, model).Ok?
    ensures Upsert(map[], BuildPoints(dataset, vectorName, model).value).Keys == RowIds(|dataset|)
  {
    var points := BuildPoints(dataset, vectorName, model).value;
    PointIdsAreDense(dataset, vectorName, model);
    UpsertDense(points);
    RowIdsBelow(|dataset|);
  }

  /** What a run returns, the collections it leaves and the client calls it
      makes. */
  datatype Outcome = Outcome(result: Result<Point, Failure>, collections: map<string, Collection>, calls: seq<Call>)

  /** The run of the script, step by step, on a store that holds `before`.
      The store's behaviour that the script cannot see is given:
      `afterUpload`, the status reported once the points are accepted;
      `later`, the statuses after each sleep; `ranked`, the store's
      similarity ranking of the stored ids for the query (for the store
      the script talks to, every stored id exactly once: RanksAll). */
  function RunSpec(before: map<string, Collection>, s: Settings, dataset: seq<Row>,
                   afterUpload: Status, later: seq<Status>, ranked: seq<nat>): Outcome
  {
    var vectors := VectorsConfig(s);
    var rest := AfterRecreate(Recreated(before, s.collection, vectors), s, dataset, afterUpload, later, ranked);
    Outcome(rest.result, rest.collections, RecreateCalls(s.collection in before, s.collection, vectors) + rest.calls)
  }

  /** The run from the building of the points on, on the recreated
      collections: a row that does not build stops it before the upload. */
  function AfterRecreate(recreated: map<string, Collection>, s: Settings, dataset: seq<Row>,
                         afterUpload: Status, later: seq<Status>, ranked: seq<nat>): Outcome
  {
    var built := BuildPoints(dataset, VectorName(s.embeddingModel), s.embeddingModel);
    if built.Err? then Outcome(Err(Raised(built.error)), recreated, [])
    else AfterBuild(recreated, s.collection, VectorName(s.embeddingModel), s.embeddingModel, VectorsConfig(s),
                    built.value, dataset, afterUpload, later, ranked)
  }

  /** The run from the upload on, on the recreated collections. */
  function AfterBuild(recreated: map<string, Collection>, name: string, vectorName: string, model: string,
                      vectors: Schema, points: seq<Point>, dataset: seq<Row>,
                      afterUpload: Status, later: seq<Status>, ranked: seq<nat>): Outcome
  {
    var uploaded := recreated[name := Collection(vectors, Upsert(map[], points), afterUpload)];
    var rest := AfterUpload(uploaded, name, vectorName, model, dataset, [afterUpload] + later, ranked);
    Outcome(rest.result, rest.collections, [Upload(name, Ids(points), BatchSize, UploadParallel)] + rest.calls)
  }

  /** The run from the readiness wait on, where the store's statuses are
      `observed`, the first of them the one the collection has now. */
  function AfterUpload(uploaded: map<string, Collection>, name: string, vectorName: string, model: string,
                       dataset: seq<Row>, observed: seq<Status>, ranked: seq<nat>): Outcome
    requires name in uploaded && |observed| > 0
  {
    var polls := Polls(observed);
    var after := uploaded[name := uploaded[name].(status := observed[polls - 1])];
    var waitCalls := StatusCalls(name, observed[..polls]);
    if FirstGreen(observed) == |observed| then Outcome(Err(NeverGreen), after, waitCalls)
    else Outcome(ProbeResult(uploaded[name].points, dataset, ranked), after,
                 waitCalls + ProbeCalls(name, vectorName, model, dataset))
  }

  /** Upload the points into the freshly recreated collection. */
  method UploadAll(store: QdrantStore, name: string, vectors: Schema, points: seq<Point>, afterUpload: Status)
    requires store.Valid() && name in store.collections && store.collections[name] == EmptyCollection(vectors)
    requires forall p :: p in points ==> p.vector.Keys <= vectors.Keys
    modifies store
    ensures store.Valid()
    ensures store.collections == old(store.collections)[name := Collection(vectors, Upsert(map[], points), afterUpload)]
    ensures store.log == old(store.log) + [Upload(name, Ids(points), BatchSize, UploadParallel)]
  {
    var uploaded := store.UploadPoints(name, points, BatchSize, UploadParallel, afterUpload);
    assert uploaded.Ok?;  // every point uses only the schema's vector field
  }

  /** Wait for GREEN, then run the sanity query. */
  method WaitAndProbe(store: QdrantStore, name: string, vectorName: string, model: string,
                      dataset: seq<Row>, later: seq<Status>, ranked: seq<nat>)
    returns (r: Result<Point, Failure>)
    requires store.Valid() && name in store.collections && vectorName in store.collections[name].vectors
    requires RanksAll(ranked, store.collections[name].points.Keys)
    modifies store
    ensures store.Valid()
    ensures var out := AfterUpload(old(store.collections), name, vectorName, model, dataset,
                                   [old(store.collections)[name].status] + later, ranked);
      r == out.result && store.collections == out.collections && store.log == old(store.log) + out.calls
  {
    var ready, polls := AwaitGreen(store, name, later);
    if !ready {
      return Err(NeverGreen);
    }
    ghost var log1 := store.log;
    r := Probe(store, name, vectorName, model, dataset, ranked);
    assert store.log == log1 + ProbeCalls(name, vectorName, model, dataset);
  }

  /** Upload the points into the recreated collection, wait for GREEN and
      run the sanity query. */
  method UploadWaitProbe(store: QdrantStore, name: string, vectorName: string, model: string, vectors: Schema,
                         points: seq<Point>, dataset: seq<Row>, afterUpload: Status, later: seq<Status>, ranked: seq<nat>)
    returns (r: Result<Point, Failure>)
    requires store.Valid() && name in store.collections && store.collections[name] == EmptyCollection(vectors)
    requires vectors.Keys == {vectorName}
    requires forall p :: p in points ==> p.vector.Keys == {vectorName}
    requires RanksAll(ranked, Upsert(map[], points).Keys)
    modifies store
    ensures store.Valid()
    ensures var out := AfterBuild(old(store.collections), name, vectorName, model, vectors, points, dataset, afterUpload, later, ranked);
      r == out.result && store.collections == out.collections && store.log == old(store.log) + out.calls
  {
    ghost var log0 := store.log;
    UploadAll(store, name, vectors, points, afterUpload);
    ghost var log1 := store.log;
    r := WaitAndProbe(store, name, vectorName, model, dataset, later, ranked);
    ghost var rest := AfterUpload(old(store.collections)[name := Collection(vectors, Upsert(map[], points), afterUpload)],
                                  name, vectorName, model, dataset, [afterUpload] + later, ranked);
    AppendAssoc(log0, [Upload(name, Ids(points), BatchSize, UploadParallel)], rest.calls);
  }

  /** Build the points, and upload and probe them when every row builds. */
  method BuildUploadWaitProbe(store: QdrantStore, s: Settings, dataset: seq<Row>,
                              afterUpload: Status, later: seq<Status>, ranked: seq<nat>)
    returns (r: Result<Point, Failure>)
    requires store.Valid() && s.collection in store.collections
    requires store.collections[s.collection] == EmptyCollection(VectorsConfig(s))
    requires RanksAll(ranked, RowIds(|dataset|))
    modifies store
    ensures store.Valid()
    ensures var out := AfterRecreate(old(store.collections), s, dataset, afterUpload, later, ranked);
      r == out.result && store.collections == out.collections && store.log == old(store.log) + out.calls
  {
    var vectorName := VectorName(s.embeddingModel);
    var built := BuildPoints(dataset, vectorName, s.embeddingModel);
    if built.Err? {
      return Err(Raised(built.error));
    }
    PointVectorKeys(dataset, vectorName, s.embeddingModel);
    StoredIds(dataset, vectorName, s.embeddingModel);
    r := UploadWaitProbe(store, s.collection, vectorName, s.embeddingModel, VectorsConfig(s),
                         built.value, dataset, afterUpload, later, ranked);
  }

  /** The main block, against `store`. */
  method Run(store: QdrantStore, s: Settings, dataset: seq<Row>, afterUpload: Status, later: seq<Status>, ranked: seq<nat>)
    returns (r: Result<Point, Failure>)
    requires store.Valid()
    requires RanksAll(ranked, RowIds(|dataset|))
    modifies store
    ensures store.Valid()
    ensures var out := RunSpec(old(store.collections), s, dataset, afterUpload, later, ranked);
      r == out.result && store.collections == out.collections && store.log == old(store.log) + out.calls
  {
    ghost var log0 := store.log;
    ghost var recreateCalls := RecreateCalls(s.collection in store.collections, s.collection, VectorsConfig(s));
    ghost var rest := AfterRecreate(Recreated(store.collections, s.collection, VectorsConfig(s)),
                                    s, dataset, afterUpload, later, ranked);
    Recreate(store, s.collection, VectorsConfig(s));
    r := BuildUploadWaitProbe(store, s, dataset, afterUpload, later, ranked);
    AppendAssoc(log0, recreateCalls, rest.calls);
  }

  /** Appending is associative; stated once so that the call logs of
      consecutive steps can be joined. */
  lemma AppendAssoc<T>(a: seq<T>, b: seq<T>, c: seq<T>)
    ensures (a + b) + c == a + (b + c)
  {
  }
}
