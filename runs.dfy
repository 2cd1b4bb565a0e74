/** What a whole run of the ingestion script guarantees, stated about the
    run specification that `Ingest.Run` is proved to follow. */
module Runs {
  import opened Python
  import opened Config
  import opened Points
  import opened Store
  import opened Ingest

  /** Whatever happens after the recreate step, the collection is there with
      exactly the configured schema, and every other collection is as it was. */
  lemma RunKeepsSchemaAndOthers(before: map<string, Collection>, s: Settings, dataset: seq<Row>,
                                afterUpload: Status, later: seq<Status>, ranked: seq<nat>)
    ensures var out := RunSpec(before, s, dataset, afterUpload, later, ranked);
      && s.collection in out.collections
      && out.collections[s.collection].vectors == VectorsConfig(s)
      && SameExcept(out.collections, before, s.collection)
  {
    var name, model := s.collection, s.embeddingModel;
    var recreated := Recreated(before, name, VectorsConfig(s));
    var out := RunSpec(before, s, dataset, afterUpload, later, ranked);
    RecreatedIsFresh(before, name, VectorsConfig(s));
    if BuildPoints(dataset, VectorName(model), model).Ok? {
      RunAfterBuild(before, s, dataset, afterUpload, later, ranked);
      assert SameExcept(out.collections, recreated, name);
    }
  }

  /** A row that does not build stops the run right after the recreate step:
      the collection stays empty, and neither an upload nor a query is made. */
  lemma BadRowStopsBeforeUpload(before: map<string, Collection>, s: Settings, dataset: seq<Row>,
                                afterUpload: Status, later: seq<Status>, ranked: seq<nat>)
    requires BuildPoints(dataset, VectorName(s.embeddingModel), s.embeddingModel).Err?
    ensures var out := RunSpec(before, s, dataset, afterUpload, later, ranked);
      && out.result == Err(Raised(BuildPoints(dataset, VectorName(s.embeddingModel), s.embeddingModel).error))
      && out.collections[s.collection] == EmptyCollection(VectorsConfig(s))
      && out.calls == RecreateCalls(s.collection in before, s.collection, VectorsConfig(s))
      && forall c :: c in out.calls ==> !c.Upload? && !c.Query?
  {
    var name, vectors := s.collection, VectorsConfig(s);
    var built := BuildPoints(dataset, VectorName(s.embeddingModel), s.embeddingModel);
    var recreated := Recreated(before, name, vectors);
    var rc := RecreateCalls(name in before, name, vectors);
    assert AfterRecreate(recreated, s, dataset, afterUpload, later, ranked) == Outcome(Err(Raised(built.error)), recreated, []);
    assert rc + [] == rc;
    RecreateCallsKinds(name in before, name, vectors);
  }

  /** The run gives up waiting exactly when every row built and no status
      the store reports is GREEN. */
  lemma NeverGreenIff(before: map<string, Collection>, s: Settings, dataset: seq<Row>,
                      afterUpload: Status, later: seq<Status>, ranked: seq<nat>)
    ensures RunSpec(before, s, dataset, afterUpload, later, ranked).result == Err(NeverGreen) <==>
      BuildPoints(dataset, VectorName(s.embeddingModel), s.embeddingModel).Ok? && Green !in [afterUpload] + later
  {
    var model := s.embeddingModel;
    if BuildPoints(dataset, VectorName(model), model).Err? {
      BadRowStopsBeforeUpload(before, s, dataset, afterUpload, later, ranked);
    } else {
      var points := BuildPoints(dataset, VectorName(model), model).value;
      RunAfterBuild(before, s, dataset, afterUpload, later, ranked);
      ProbeOnlyRaises(Upsert(map[], points), dataset, ranked);
    }
  }

  /** The run once every row has built, step by step. */
  lemma RunAfterBuild(before: map<string, Collection>, s: Settings, dataset: seq<Row>,
                      afterUpload: Status, later: seq<Status>, ranked: seq<nat>)
    requires BuildPoints(dataset, VectorName(s.embeddingModel), s.embeddingModel).Ok?
    ensures var out := RunSpec(before, s, dataset, afterUpload, later, ranked);
      var name, model := s.collection, s.embeddingModel;
      var points := BuildPoints(dataset, VectorName(model), model).value;
      var observed := [afterUpload] + later;
      var polls := Polls(observed);
      && out.collections[name] == Collection(VectorsConfig(s), Upsert(map[], points), observed[polls - 1])
      && out.calls == RecreateCalls(name in before, name, VectorsConfig(s))
           + ([Upload(name, Ids(points), BatchSize, UploadParallel)] + StatusCalls(name, observed[..polls])
           + (if Green in observed then ProbeCalls(name, VectorName(model), model, dataset) else []))
      && out.result == (if Green in observed then ProbeResult(Upsert(map[], points), dataset, ranked) else Err(NeverGreen))
  {
    var name, model := s.collection, s.embeddingModel;
    var points := BuildPoints(dataset, VectorName(model), model).value;
    var observed := [afterUpload] + later;
    var polls := Polls(observed);
    var vectors := VectorsConfig(s);
    var recreated := Recreated(before, name, vectors);
    var uploaded := recreated[name := Collection(vectors, Upsert(map[], points), afterUpload)];
    var probe := if Green in observed then ProbeCalls(name, VectorName(model), model, dataset) else [];
    var waited := AfterUpload(uploaded, name, VectorName(model), model, dataset, observed, ranked);
    AfterUploadForm(uploaded, name, VectorName(model), model, dataset, observed, ranked);
    var upload := [Upload(name, Ids(points), BatchSize, UploadParallel)];
    assert AfterRecreate(recreated, s, dataset, afterUpload, later, ranked)
        == Outcome(waited.result, waited.collections, upload + waited.calls);
    AppendAssoc(upload, StatusCalls(name, observed[..polls]), probe);
  }

  /** The wait and the sanity query, in closed form. */
  lemma AfterUploadForm(uploaded: map<string, Collection>, name: string, vectorName: string, model: string,
                        dataset: seq<Row>, observed: seq<Status>, ranked: seq<nat>)
    requires name in uploaded && |observed| > 0
    ensures var out := AfterUpload(uploaded, name, vectorName, model, dataset, observed, ranked);
      var polls := Polls(observed);
      && out.collections[name] == uploaded[name].(status := observed[polls - 1])
      && out.calls == StatusCalls(name, observed[..polls])
                        + (if Green in observed then ProbeCalls(name, vectorName, model, dataset) else [])
      && out.result == (if Green in observed then ProbeResult(uploaded[name].points, dataset, ranked) else Err(NeverGreen))
  {
    FirstGreenIsFirst(observed);
    if Green !in observed {
      assert StatusCalls(name, observed[..Polls(observed)]) + [] == StatusCalls(name, observed[..Polls(observed)]);
    }
  }

  /** A run makes no query unless every row builds, the dataset is not
      empty and the store reports GREEN. */
  lemma QueriesOnlyWhenReady(before: map<string, Collection>, s: Settings, dataset: seq<Row>,
                             afterUpload: Status, later: seq<Status>, ranked: seq<nat>)
    ensures || (forall c :: c in RunSpec(before, s, dataset, afterUpload, later, ranked).calls ==> !c.Query?)
            || (&& BuildPoints(dataset, VectorName(s.embeddingModel), s.embeddingModel).Ok?
                && |dataset| > 0 && Green in [afterUpload] + later)
  {
    var model := s.embeddingModel;
    if BuildPoints(dataset, VectorName(model), model).Err? {
      BadRowStopsBeforeUpload(before, s, dataset, afterUpload, later, ranked);
    } else if Green !in [afterUpload] + later || |dataset| == 0 {
      NoQueryUnlessReady(before, s, dataset, afterUpload, later, ranked);
    }
  }

  /** The calls of a run whose rows all built but that never reached a
      query: the wait gave up, or there was no row 0 to query with. */
  lemma NoQueryUnlessReady(before: map<string, Collection>, s: Settings, dataset: seq<Row>,
                           afterUpload: Status, later: seq<Status>, ranked: seq<nat>)
    requires BuildPoints(dataset, VectorName(s.embeddingModel), s.embeddingModel).Ok?
    requires Green !in [afterUpload] + later || |dataset| == 0
    ensures forall c :: c in RunSpec(before, s, dataset, afterUpload, later, ranked).calls ==> !c.Query?
  {
    var name, model := s.collection, s.embeddingModel;
    var points := BuildPoints(dataset, VectorName(model), model).value;
    var observed := [afterUpload] + later;
    var polls := Polls(observed);
    RunAfterBuild(before, s, dataset, afterUpload, later, ranked);
    var rc := RecreateCalls(name in before, name, VectorsConfig(s));
    var statusReads := StatusCalls(name, observed[..polls]);
    var waits := [Upload(name, Ids(points), BatchSize, UploadParallel)] + statusReads;
    StatusCallsAreReads(name, observed[..polls]);
    RecreateCallsKinds(name in before, name, VectorsConfig(s));
    assert QueryText(dataset).Err? || Green !in observed;
    var calls := RunSpec(before, s, dataset, afterUpload, later, ranked).calls;
    assert waits + [] == waits;
    assert calls == rc + waits;
    forall c | c in calls ensures !c.Query? {
      if c !in rc {
        assert c in waits;
        assert c.Upload? || c in statusReads;
      }
    }
  }

  /** An empty dataset uploads nothing and never gets a first result: the
      wait gives up, or reading row 0 raises IndexError before any query. */
  lemma EmptyDatasetFails(before: map<string, Collection>, s: Settings,
                          afterUpload: Status, later: seq<Status>, ranked: seq<nat>)
    ensures var out := RunSpec(before, s, [], afterUpload, later, ranked);
      && (out.result == Err(NeverGreen) || out.result == Err(Raised(IndexError)))
      && s.collection in out.collections && |out.collections[s.collection].points| == 0
      && forall c :: c in out.calls ==> !c.Query?
  {
    var model := s.embeddingModel;
    assert BuildPoints([], VectorName(model), model) == Ok([]);
    assert QueryText([]) == Err(IndexError);
    RunAfterBuild(before, s, [], afterUpload, later, ranked);
    var out := RunSpec(before, s, [], afterUpload, later, ranked);
    QueriesOnlyWhenReady(before, s, [], afterUpload, later, ranked);
  }

  /** A run that returns a point has built every row, seen GREEN, and had a
      first row to query with. */
  lemma SucceedsOnlyWhenReady(before: map<string, Collection>, s: Settings, dataset: seq<Row>,
                              afterUpload: Status, later: seq<Status>, ranked: seq<nat>)
    requires RunSpec(before, s, dataset, afterUpload, later, ranked).result.Ok?
    ensures BuildPoints(dataset, VectorName(s.embeddingModel), s.embeddingModel).Ok?
    ensures |dataset| > 0 && Green in [afterUpload] + later
  {
    var model := s.embeddingModel;
    if BuildPoints(dataset, VectorName(model), model).Err? {
      BadRowStopsBeforeUpload(before, s, dataset, afterUpload, later, ranked);
      assert false;
    }
    RunAfterBuild(before, s, dataset, afterUpload, later, ranked);
  }

  /** Once every row has built and the store has reported GREEN, the
      collection holds exactly one point per row, under the row's position,
      and is GREEN. */
  lemma ReadyRunStoresEveryRow(before: map<string, Collection>, s: Settings, dataset: seq<Row>,
                               afterUpload: Status, later: seq<Status>, ranked: seq<nat>)
    requires BuildPoints(dataset, VectorName(s.embeddingModel), s.embeddingModel).Ok?
    requires Green in [afterUpload] + later
    ensures var out := RunSpec(before, s, dataset, afterUpload, later, ranked);
      var points := BuildPoints(dataset, VectorName(s.embeddingModel), s.embeddingModel).value;
      && s.collection in out.collections
      && out.collections[s.collection].status == Green
      && |points| == |dataset|
      && (forall id: int :: id in out.collections[s.collection].points <==> 0 <= id < |dataset|)
      && (forall j :: 0 <= j < |points| ==> out.collections[s.collection].points[j] == points[j])
  {
    var model := s.embeddingModel;
    var points := BuildPoints(dataset, VectorName(model), model).value;
    var observed := [afterUpload] + later;
    RunAfterBuild(before, s, dataset, afterUpload, later, ranked);
    PollsStopAtFirstGreen(observed);
    PointIdsAreDense(dataset, VectorName(model), model);
    UpsertDense(points);
  }

  /** Once every row has built and the store has reported GREEN, the run's
      last two calls are that status read and the query with the first row's
      document, under the schema's vector name. */
  lemma ReadyRunQueriesFirstDocument(before: map<string, Collection>, s: Settings, dataset: seq<Row>,
                                     afterUpload: Status, later: seq<Status>, ranked: seq<nat>)
    requires BuildPoints(dataset, VectorName(s.embeddingModel), s.embeddingModel).Ok?
    requires Green in [afterUpload] + later && |dataset| > 0
    ensures |BuildPoints(dataset, VectorName(s.embeddingModel), s.embeddingModel).value| == |dataset|
    ensures var out := RunSpec(before, s, dataset, afterUpload, later, ranked);
      var name, model := s.collection, s.embeddingModel;
      var first := BuildPoints(dataset, VectorName(model), model).value[0];
      && |out.calls| >= 2
      && out.calls[|out.calls| - 2] == GetStatus(name, Green)
      && out.calls[|out.calls| - 1] == Query(name, VectorName(model), Document(first.payload.document, model), DefaultLimit)
  {
    var name, model := s.collection, s.embeddingModel;
    var points := BuildPoints(dataset, VectorName(model), model).value;
    var observed := [afterUpload] + later;
    var polls := Polls(observed);
    PointIdsAreDense(dataset, VectorName(model), model);
    RunAfterBuild(before, s, dataset, afterUpload, later, ranked);
    FirstGreenIsFirst(observed);
    PollsStopAtFirstGreen(observed);
    FirstPointMatchesQueryText(dataset, VectorName(model), model);
    var statusReads := StatusCalls(name, observed[..polls]);
    assert observed[..polls][polls - 1] == Green;
    assert statusReads[polls - 1] == GetStatus(name, Green);
    var waits := [Upload(name, Ids(points), BatchSize, UploadParallel)] + statusReads;
    assert waits[|waits| - 1] == statusReads[polls - 1];
  }

  /** Once every row has built, the store has reported GREEN and there is a
      first row: the run returns a point exactly when the store ranks some
      stored id, the point is a stored one, and it is the point of the
      best-ranked row when that id is stored. */
  lemma ReadyRunResult(before: map<string, Collection>, s: Settings, dataset: seq<Row>,
                       afterUpload: Status, later: seq<Status>, ranked: seq<nat>)
    requires BuildPoints(dataset, VectorName(s.embeddingModel), s.embeddingModel).Ok?
    requires Green in [afterUpload] + later && |dataset| > 0
    ensures |BuildPoints(dataset, VectorName(s.embeddingModel), s.embeddingModel).value| == |dataset|
    ensures var out := RunSpec(before, s, dataset, afterUpload, later, ranked);
      var points := BuildPoints(dataset, VectorName(s.embeddingModel), s.embeddingModel).value;
      && s.collection in out.collections
      && (out.result.Ok? <==> exists j :: 0 <= j < |ranked| && ranked[j] < |dataset|)
      && (out.result.Ok? ==> out.result.value in out.collections[s.collection].points.Values)
      && (|ranked| > 0 && ranked[0] < |dataset| ==> out.result == Ok(points[ranked[0]]))
  {
    var model := s.embeddingModel;
    var points := BuildPoints(dataset, VectorName(model), model).value;
    var observed := [afterUpload] + later;
    RunAfterBuild(before, s, dataset, afterUpload, later, ranked);
    PollsStopAtFirstGreen(observed);
    PointIdsAreDense(dataset, VectorName(model), model);
    UpsertDense(points);
    QueryTextIsFirstDocument(dataset);
    FirstPointMatchesQueryText(dataset, VectorName(model), model);
    TopKContents(Upsert(map[], points), ranked, DefaultLimit);
  }

  /** On a store that ranks every stored point, a run returns a point
      exactly when every row is well formed, there is a first row and the
      store reports GREEN at some poll; the point is that of the row the
      store ranks best. In particular a ready run never raises IndexError
      at the first result. */
  lemma RunSucceedsIff(before: map<string, Collection>, s: Settings, dataset: seq<Row>,
                       afterUpload: Status, later: seq<Status>, ranked: seq<nat>)
    requires RanksAll(ranked, RowIds(|dataset|))
    ensures RunSpec(before, s, dataset, afterUpload, later, ranked).result.Ok? <==>
      && (forall j :: 0 <= j < |dataset| ==> WellFormed(dataset[j]))
      && |dataset| > 0
      && Green in [afterUpload] + later
    ensures var r := RunSpec(before, s, dataset, afterUpload, later, ranked).result;
      var built := BuildPoints(dataset, VectorName(s.embeddingModel), s.embeddingModel);
      r.Ok? ==> && built.Ok? && |built.value| == |dataset|
                && |ranked| > 0 && ranked[0] < |dataset|
                && r.value == built.value[ranked[0]]
  {
    var model := s.embeddingModel;
    RowIdsBelow(|dataset|);
    BuildPointsSucceedsIff(dataset, VectorName(model), model);
    if RunSpec(before, s, dataset, afterUpload, later, ranked).result.Ok? {
      SucceedsOnlyWhenReady(before, s, dataset, afterUpload, later, ranked);
    }
    if BuildPoints(dataset, VectorName(model), model).Ok? && Green in [afterUpload] + later && |dataset| > 0 {
      assert 0 in RowIds(|dataset|);
      assert ranked[0] in RowIds(|dataset|);
      ReadyRunResult(before, s, dataset, afterUpload, later, ranked);
    }
  }

  /** When the store ranks row 0 first, the sanity query finds row 0 itself:
      its point, with the row as metadata and its document text. */
  lemma ProbeFindsFirstRow(before: map<string, Collection>, s: Settings, dataset: seq<Row>,
                           afterUpload: Status, later: seq<Status>, ranked: seq<nat>)
    requires forall j :: 0 <= j < |dataset| ==> WellFormed(dataset[j])
    requires |dataset| > 0 && Green in [afterUpload] + later
    requires |ranked| > 0 && ranked[0] == 0
    ensures var r := RunSpec(before, s, dataset, afterUpload, later, ranked).result;
      && r.Ok? && r.value.id == 0
      && r.value.payload.metadata == dataset[0]
      && r.value.payload.document == dataset[0]["case_title"].s + ": " + dataset[0]["summary"].s
  {
    var model := s.embeddingModel;
    BuildPointsSucceedsIff(dataset, VectorName(model), model);
    ReadyRunResult(before, s, dataset, afterUpload, later, ranked);
    PointIdsAreDense(dataset, VectorName(model), model);
    PointPayloads(dataset, VectorName(model), model, 0);
  }

  /** Upload right after Create; a query only last, right after a GREEN
      status read, and under `vectorName`. */
  ghost predicate WellOrdered(calls: seq<Call>, name: string, vectors: Schema, vectorName: string)
  {
    && (forall i :: 0 <= i < |calls| && calls[i].Upload? ==> i > 0 && calls[i - 1] == Create(name, vectors))
    && (forall i :: 0 <= i < |calls| && calls[i].Query? ==>
          i == |calls| - 1 && i > 0 && calls[i - 1] == GetStatus(name, Green) && calls[i].using == vectorName)
  }

  /** The calls of a run that stops after the recreate step, or that goes on
      with one upload, status reads and at most a final query after a GREEN
      read, are well ordered. */
  lemma WellOrderedShape(rc: seq<Call>, rest: seq<Call>, name: string, vectors: Schema, vectorName: string)
    requires |rc| > 0 && rc[|rc| - 1] == Create(name, vectors)
    requires forall c :: c in rc ==> !c.Upload? && !c.Query?
    requires rest == [] || (rest[0].Upload? && forall i :: 1 <= i < |rest| ==> !rest[i].Upload?)
    requires forall i :: 0 <= i < |rest| && rest[i].Query? ==>
               i == |rest| - 1 && i > 0 && rest[i - 1] == GetStatus(name, Green) && rest[i].using == vectorName
    ensures WellOrdered(rc + rest, name, vectors, vectorName)
  {
    var calls := rc + rest;
    forall i | |rc| <= i < |calls| && (calls[i].Upload? || calls[i].Query?)
      ensures calls[i].Upload? ==> i > 0 && calls[i - 1] == Create(name, vectors)
      ensures calls[i].Query? ==> i == |calls| - 1 && i > 0 && calls[i - 1] == GetStatus(name, Green) && calls[i].using == vectorName
    {
      assert calls[i] == rest[i - |rc|];
      if i > |rc| {
        assert calls[i - 1] == rest[i - 1 - |rc|];
      }
    }
  }

  /** The order of the client calls: the upload comes right after the
      collection's creation, and a query only as the very last call, right
      after a status read that reported GREEN, and under the schema's vector
      name. */
  lemma CallOrder(before: map<string, Collection>, s: Settings, dataset: seq<Row>,
                  afterUpload: Status, later: seq<Status>, ranked: seq<nat>)
    ensures WellOrdered(RunSpec(before, s, dataset, afterUpload, later, ranked).calls,
                        s.collection, VectorsConfig(s), VectorName(s.embeddingModel))
  {
    var model := s.embeddingModel;
    if BuildPoints(dataset, VectorName(model), model).Err? {
      CallOrderBadRow(before, s, dataset, afterUpload, later, ranked);
    } else {
      CallOrderAfterBuild(before, s, dataset, afterUpload, later, ranked);
    }
  }

  /** The order of the client calls of a run stopped by a bad row. */
  lemma CallOrderBadRow(before: map<string, Collection>, s: Settings, dataset: seq<Row>,
                        afterUpload: Status, later: seq<Status>, ranked: seq<nat>)
    requires BuildPoints(dataset, VectorName(s.embeddingModel), s.embeddingModel).Err?
    ensures WellOrdered(RunSpec(before, s, dataset, afterUpload, later, ranked).calls,
                        s.collection, VectorsConfig(s), VectorName(s.embeddingModel))
  {
    BadRowStopsBeforeUpload(before, s, dataset, afterUpload, later, ranked);
    var calls := RunSpec(before, s, dataset, afterUpload, later, ranked).calls;
    forall i | 0 <= i < |calls|
      ensures !calls[i].Upload? && !calls[i].Query?
    {
      assert calls[i] in calls;
    }
  }

  /** The order of the client calls of a run whose rows all built. */
  lemma CallOrderAfterBuild(before: map<string, Collection>, s: Settings, dataset: seq<Row>,
                            afterUpload: Status, later: seq<Status>, ranked: seq<nat>)
    requires BuildPoints(dataset, VectorName(s.embeddingModel), s.embeddingModel).Ok?
    ensures WellOrdered(RunSpec(before, s, dataset, afterUpload, later, ranked).calls,
                        s.collection, VectorsConfig(s), VectorName(s.embeddingModel))
  {
    var name, model := s.collection, s.embeddingModel;
    var rc := RecreateCalls(name in before, name, VectorsConfig(s));
    RecreateCallsKinds(name in before, name, VectorsConfig(s));
    var points := BuildPoints(dataset, VectorName(model), model).value;
    var observed := [afterUpload] + later;
    var polls := Polls(observed);
    RunAfterBuild(before, s, dataset, afterUpload, later, ranked);
    var statusCalls := StatusCalls(name, observed[..polls]);
    var probe := if Green in observed then ProbeCalls(name, VectorName(model), model, dataset) else [];
    var rest := [Upload(name, Ids(points), BatchSize, UploadParallel)] + statusCalls + probe;
    RestIsOrdered(name, observed, VectorName(model), model, dataset, Ids(points));
    WellOrderedShape(rc, rest, name, VectorsConfig(s), VectorName(model));
  }

  /** The calls after the recreate step of a run whose rows all built. */
  lemma RestIsOrdered(name: string, observed: seq<Status>, vectorName: string, model: string,
                      dataset: seq<Row>, ids: seq<nat>)
    requires |observed| > 0
    ensures var statusCalls := StatusCalls(name, observed[..Polls(observed)]);
      var probe := if Green in observed then ProbeCalls(name, vectorName, model, dataset) else [];
      var rest := [Upload(name, ids, BatchSize, UploadParallel)] + statusCalls + probe;
      && rest[0].Upload? && (forall i :: 1 <= i < |rest| ==> !rest[i].Upload?)
      && (forall i :: 0 <= i < |rest| && rest[i].Query? ==>
            i == |rest| - 1 && i > 0 && rest[i - 1] == GetStatus(name, Green) && rest[i].using == vectorName)
  {
    var polls := Polls(observed);
    PollsStopAtFirstGreen(observed);
    FirstGreenIsFirst(observed);
    StatusCallsAt(name, observed[..polls]);
    var statusCalls := StatusCalls(name, observed[..polls]);
    var probe := if Green in observed then ProbeCalls(name, vectorName, model, dataset) else [];
    var rest := [Upload(name, ids, BatchSize, UploadParallel)] + statusCalls + probe;
    assert |probe| <= 1 && forall c :: c in probe ==> c.Query?;
    forall i | 1 <= i < |rest|
      ensures !rest[i].Upload?
      ensures rest[i].Query? ==> i == |rest| - 1 && rest[i - 1] == GetStatus(name, Green) && rest[i].using == vectorName
    {
      if i <= |statusCalls| {
        assert rest[i] == statusCalls[i - 1];
      } else {
        assert rest[i] == probe[i - 1 - |statusCalls|] && probe != [];
        assert rest[i - 1] == statusCalls[polls - 1];
      }
    }
  }

  /** One vector name throughout: it is the schema's only field and every
      stored point's only vector field (the query uses it too: CallOrder). */
  lemma OneVectorName(before: map<string, Collection>, s: Settings, dataset: seq<Row>,
                      afterUpload: Status, later: seq<Status>, ranked: seq<nat>)
    ensures var out := RunSpec(before, s, dataset, afterUpload, later, ranked);
      var vectorName := VectorName(s.embeddingModel);
      && s.collection in out.collections
      && out.collections[s.collection].vectors.Keys == {vectorName}
      && (forall id :: id in out.collections[s.collection].points ==>
            out.collections[s.collection].points[id].vector.Keys == {vectorName})
  {
    var model := s.embeddingModel;
    RunKeepsSchemaAndOthers(before, s, dataset, afterUpload, later, ranked);
    if BuildPoints(dataset, VectorName(model), model).Err? {
      BadRowStopsBeforeUpload(before, s, dataset, afterUpload, later, ranked);
    } else {
      RunAfterBuild(before, s, dataset, afterUpload, later, ranked);
      StoredVectorKeys(dataset, VectorName(model), model);
    }
  }

  /** Every point the upload stores has the single vector field `vectorName`. */
  lemma StoredVectorKeys(dataset: seq<Row>, vectorName: string, model: string)
    requires BuildPoints(dataset, vectorName, model).Ok?
    ensures var stored := Upsert(map[], BuildPoints(dataset, vectorName, model).value);
      forall id :: id in stored ==> stored[id].vector.Keys == {vectorName}
  {
    var points := BuildPoints(dataset, vectorName, model).value;
    PointVectorKeys(dataset, vectorName, model);
    UpsertContents(map[], points);
  }
}
