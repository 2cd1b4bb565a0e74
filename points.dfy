/** Building the points to upload from the dataset rows (the list
    comprehension of the script), and the text of the sanity query, which
    the script derives from row 0 with the same expression as a point's
    document. */
module Points {
  import opened Python

  /** A deferred embedding request: the store embeds `text` with `model`. */
  datatype Document = Document(text: string, model: string)

  /** The payload stored with a point. */
  datatype Payload = Payload(document: string, metadata: Row)

  /** The unit of storage. `vector` maps vector field names to the request
      that produces the vector. */
  datatype Point = Point(id: nat, payload: Payload, vector: map<string, Document>)

  /** The document text of the point built from `row`: its title, a colon
      and a space, and its summary, read with an empty default. */
  function PayloadDocument(row: Row): Result<string, Exception>
  {
    var title :- Subscript(row, "case_title");
    var head :- Concat(title, Str(": "));
    Concat(Str(head), Get(row, "summary", Str("")))
  }

  /** The point the comprehension builds for row `i`: the payload is
      evaluated first, then the vector, whose text is the summary read
      without a default. */
  function BuildPoint(i: nat, row: Row, vectorName: string, model: string): Result<Point, Exception>
  {
    var document :- PayloadDocument(row);
    var text :- Subscript(row, "summary");
    assert text.Str?;  // a present summary that is not a str already failed the payload
    Ok(Point(i, Payload(document, row), map[vectorName := Document(text.s, model)]))
  }

  /** The points for rows `k..` of the dataset, or the first exception. */
  function BuildFrom(dataset: seq<Row>, k: nat, vectorName: string, model: string): Result<seq<Point>, Exception>
    requires k <= |dataset|
    decreases |dataset| - k
  {
    if k == |dataset| then Ok([])
    else
      var p := BuildPoint(k, dataset[k], vectorName, model);
      if p.Err? then Err(p.error)
      else
        var rest := BuildFrom(dataset, k + 1, vectorName, model);
        if rest.Err? then Err(rest.error) else Ok([p.value] + rest.value)
  }

  /** Rows `k..` build exactly when each of them does; the points are then
      theirs, in order; otherwise the exception is the first row's that
      does not build. */
  lemma {:induction false} BuildFromContents(dataset: seq<Row>, k: nat, vectorName: string, model: string)
    requires k <= |dataset|
    ensures var r := BuildFrom(dataset, k, vectorName, model);
      && (r.Ok? <==> forall j :: k <= j < |dataset| ==> BuildPoint(j, dataset[j], vectorName, model).Ok?)
      && (r.Ok? ==> |r.value| == |dataset| - k)
      && (r.Ok? ==> forall j :: k <= j < |dataset| ==> r.value[j - k] == BuildPoint(j, dataset[j], vectorName, model).value)
      && (r.Err? ==> exists j :: k <= j < |dataset| && FailsFirstAt(dataset, k, j, vectorName, model, r.error))
    decreases |dataset| - k
  {
    if k < |dataset| {
      var p := BuildPoint(k, dataset[k], vectorName, model);
      if p.Err? {
        assert FailsFirstAt(dataset, k, k, vectorName, model, p.error);
      } else {
        BuildFromContents(dataset, k + 1, vectorName, model);
        var rest := BuildFrom(dataset, k + 1, vectorName, model);
        if rest.Err? {
          FailsFirstAtEarlier(dataset, k, k + 1, vectorName, model, rest.error);
        }
      }
    }
  }

  /** Rows `k..j-1` build and row `j` raises `e`. */
  ghost predicate FailsFirstAt(dataset: seq<Row>, k: nat, j: nat, vectorName: string, model: string, e: Exception)
    requires k <= j < |dataset|
  {
    && (forall l :: k <= l < j ==> BuildPoint(l, dataset[l], vectorName, model).Ok?)
    && BuildPoint(j, dataset[j], vectorName, model) == Err(e)
  }

  /** A first failure among rows `k+1..` is also the first among rows `k..`
      when row `k` builds. */
  lemma FailsFirstAtEarlier(dataset: seq<Row>, k: nat, next: nat, vectorName: string, model: string, e: Exception)
    requires next == k + 1 && k < |dataset| && BuildPoint(k, dataset[k], vectorName, model).Ok?
    requires exists j :: next <= j < |dataset| && FailsFirstAt(dataset, next, j, vectorName, model, e)
    ensures exists j :: k <= j < |dataset| && FailsFirstAt(dataset, k, j, vectorName, model, e)
  {
    var j :| next <= j < |dataset| && FailsFirstAt(dataset, next, j, vectorName, model, e);
    assert FailsFirstAt(dataset, k, j, vectorName, model, e);
  }

  /** One point per row, in dataset order, each under its row's position. */
  function BuildPoints(dataset: seq<Row>, vectorName: string, model: string): Result<seq<Point>, Exception>
  {
    BuildFrom(dataset, 0, vectorName, model)
  }

  /** The sanity query's text, computed from row 0 the way a document text
      is; an empty dataset has no row 0 and raises IndexError. */
  function QueryText(dataset: seq<Row>): Result<string, Exception>
  {
    if |dataset| == 0 then Err(IndexError)
    else
      var title :- Subscript(dataset[0], "case_title");
      var head :- Concat(title, Str(": "));
      Concat(Str(head), Get(dataset[0], "summary", Str("")))
  }

  /** The summary as the payload renders it: missing means empty. */
  function SummaryOrEmpty(row: Row): Value
  {
    Get(row, "summary", Str(""))
  }

  /** The identifiers of a sequence of points. */
  ghost function IdSet(points: seq<Point>): set<nat>
  {
    set p | p in points :: p.id
  }

  /** A row the comprehension accepts: a text title and a text summary. */
  predicate WellFormed(row: Row)
  {
    && "case_title" in row && row["case_title"].Str?
    && "summary" in row && row["summary"].Str?
  }

  // ---------------------------------------------------------------------
  // Properties of the document text

  /** The document text is the title, ": " and the summary, with a missing
      summary rendered as empty; it fails exactly when the title is missing
      (KeyError) or either field present is not text (TypeError). */
  lemma PayloadDocumentShape(row: Row)
    ensures PayloadDocument(row).Ok? <==>
      "case_title" in row && row["case_title"].Str? && SummaryOrEmpty(row).Str?
    ensures "case_title" !in row ==> PayloadDocument(row) == Err(KeyError("case_title"))
    ensures "case_title" in row && !(row["case_title"].Str? && SummaryOrEmpty(row).Str?) ==>
      PayloadDocument(row) == Err(TypeError)
    ensures PayloadDocument(row).Ok? ==>
      PayloadDocument(row).value == row["case_title"].s + ": " + SummaryOrEmpty(row).s
    ensures PayloadDocument(row).Ok? && "summary" !in row ==>
      PayloadDocument(row).value == row["case_title"].s + ": "
  {
  }

  /** The sanity query's text is the document text of row 0: the two
      expressions agree on every dataset, including their exceptions. */
  lemma QueryTextIsFirstDocument(dataset: seq<Row>)
    ensures |dataset| == 0 ==> QueryText(dataset) == Err(IndexError)
    ensures |dataset| > 0 ==> QueryText(dataset) == PayloadDocument(dataset[0])
  {
  }

  // ---------------------------------------------------------------------
  // Properties of the points

  /** The comprehension succeeds exactly when every row is well formed;
      otherwise it raises the exception of the first row that is not. */
  lemma {:induction false} BuildPointsSucceedsIff(dataset: seq<Row>, vectorName: string, model: string)
    ensures BuildPoints(dataset, vectorName, model).Ok? <==> forall j :: 0 <= j < |dataset| ==> WellFormed(dataset[j])
  {
    BuildFromContents(dataset, 0, vectorName, model);
    forall j | 0 <= j < |dataset|
      ensures BuildPoint(j, dataset[j], vectorName, model).Ok? <==> WellFormed(dataset[j])
    {
      PayloadDocumentShape(dataset[j]);
    }
  }

  /** A row with a text title and no summary gets a document ("title: ")
      but no point: its vector reads the summary without a default. */
  lemma MissingSummaryRaises(i: nat, row: Row, vectorName: string, model: string)
    requires "case_title" in row && row["case_title"].Str? && "summary" !in row
    ensures PayloadDocument(row) == Ok(row["case_title"].s + ": ")
    ensures BuildPoint(i, row, vectorName, model) == Err(KeyError("summary"))
  {
    assert row["case_title"].s + ": " + "" == row["case_title"].s + ": ";
  }

  /** One point per row, in dataset order, with identifiers exactly 0..N-1. */
  lemma PointIdsAreDense(dataset: seq<Row>, vectorName: string, model: string)
    requires BuildPoints(dataset, vectorName, model).Ok?
    ensures var points := BuildPoints(dataset, vectorName, model).value;
      && |points| == |dataset|
      && (forall j :: 0 <= j < |points| ==> points[j].id == j)
      && (forall id: int :: id in IdSet(points) <==> 0 <= id < |dataset|)
      && (forall a, b :: 0 <= a < b < |points| ==> points[a].id != points[b].id)
  {
    BuildFromContents(dataset, 0, vectorName, model);
    var points := BuildPoints(dataset, vectorName, model).value;
    forall j | 0 <= j < |points| ensures points[j].id == j {
      assert points[j] == BuildPoint(j, dataset[j], vectorName, model).value;
    }
    forall id: int | 0 <= id < |dataset| ensures id in IdSet(points) {
      assert points[id] in points;
    }
  }

  /** Each payload holds the rendered document and the unchanged row. */
  lemma PointPayloads(dataset: seq<Row>, vectorName: string, model: string, j: nat)
    requires BuildPoints(dataset, vectorName, model).Ok? && j < |dataset|
    ensures |BuildPoints(dataset, vectorName, model).value| == |dataset| && WellFormed(dataset[j])
    ensures var p := BuildPoints(dataset, vectorName, model).value[j];
      && p.payload.metadata == dataset[j]
      && p.payload.document == dataset[j]["case_title"].s + ": " + dataset[j]["summary"].s
      && Ok(p.payload.document) == PayloadDocument(dataset[j])
  {
    BuildPointsSucceedsIff(dataset, vectorName, model);
    BuildFromContents(dataset, 0, vectorName, model);
    assert BuildPoints(dataset, vectorName, model).value[j] == BuildPoint(j, dataset[j], vectorName, model).value;
    PayloadDocumentShape(dataset[j]);
  }

  /** Each vector map has the one key `vectorName`, and its request embeds
      the raw summary with `model` -- not the document text, of which the
      summary is a proper suffix. */
  lemma PointVectors(dataset: seq<Row>, vectorName: string, model: string, j: nat)
    requires BuildPoints(dataset, vectorName, model).Ok? && j < |dataset|
    ensures |BuildPoints(dataset, vectorName, model).value| == |dataset| && WellFormed(dataset[j])
    ensures var p := BuildPoints(dataset, vectorName, model).value[j];
      && p.vector.Keys == {vectorName}
      && p.vector[vectorName] == Document(dataset[j]["summary"].s, model)
      && |p.vector[vectorName].text| < |p.payload.document|
      && p.payload.document[|p.payload.document| - |p.vector[vectorName].text|..] == p.vector[vectorName].text
  {
    BuildPointsSucceedsIff(dataset, vectorName, model);
    BuildFromContents(dataset, 0, vectorName, model);
    var p := BuildPoints(dataset, vectorName, model).value[j];
    assert p == BuildPoint(j, dataset[j], vectorName, model).value;
    PayloadDocumentShape(dataset[j]);
    var title, summary := dataset[j]["case_title"].s, dataset[j]["summary"].s;
    assert p.payload.document == (title + ": ") + summary;
  }

  /** Every point's vector map has the single key `vectorName`. */
  lemma PointVectorKeys(dataset: seq<Row>, vectorName: string, model: string)
    requires BuildPoints(dataset, vectorName, model).Ok?
    ensures forall p :: p in BuildPoints(dataset, vectorName, model).value ==> p.vector.Keys == {vectorName}
  {
    BuildFromContents(dataset, 0, vectorName, model);
    var points := BuildPoints(dataset, vectorName, model).value;
    forall p | p in points ensures p.vector.Keys == {vectorName} {
      var j :| 0 <= j < |points| && points[j] == p;
      PointVectors(dataset, vectorName, model, j);
    }
  }

  /** The first point's document is the sanity query's text. */
  lemma FirstPointMatchesQueryText(dataset: seq<Row>, vectorName: string, model: string)
    requires BuildPoints(dataset, vectorName, model).Ok? && |dataset| > 0
    ensures QueryText(dataset) == Ok(BuildPoints(dataset, vectorName, model).value[0].payload.document)
  {
    PointPayloads(dataset, vectorName, model, 0);
  }

  /** Three rows of which the second has no summary: the second row raises
      KeyError("summary") and no point is built at all. */
  lemma SecondRowWithoutSummaryAborts(dataset: seq<Row>, vectorName: string, model: string)
    requires dataset == [map["case_title" := Str("A"), "summary" := Str("x")],
                         map["case_title" := Str("B")],
                         map["case_title" := Str("C"), "summary" := Str("z")]]
    ensures BuildPoints(dataset, vectorName, model) == Err(KeyError("summary"))
  {
    assert BuildPoint(0, dataset[0], vectorName, model).Ok?;
    MissingSummaryRaises(1, dataset[1], vectorName, model);
    assert BuildFrom(dataset, 1, vectorName, model) == Err(KeyError("summary"));
  }
}
