/** The vector store as the script sees it through its client: named
    collections, each with a fixed vector schema, its points keyed by id and
    an indexing status. Every client call is appended to `log`, so that the
    order of the script's calls can be stated. */
module Store {
  import opened Python
  import opened Points

  datatype Distance = Cosine | Euclid | Dot | Manhattan

  /** The configuration of one named vector field. */
  datatype VectorParams = VectorParams(size: nat, distance: Distance)

  /** Vector field name to its configuration. */
  type Schema = map<string, VectorParams>

  /** The store's collection status; GREEN means everything is indexed. */
  datatype Status = Green | Yellow | Grey | Red

  datatype Collection = Collection(vectors: Schema, points: map<nat, Point>, status: Status)

  datatype StoreError = NotFound(name: string) | AlreadyExists(name: string) | UnknownVector

  /** One request of the client to the store, with what it reported. */
  datatype Call =
    | Exists(name: string)
    | Delete(name: string)
    | Create(name: string, vectors: Schema)
    | Upload(name: string, ids: seq<nat>, batchSize: nat, parallel: nat)
    | GetStatus(name: string, reported: Status)
    | Query(name: string, using: string, request: Document, limit: nat)

  /** The number of results a query returns unless told otherwise. */
  const DefaultLimit: nat := 10

  /** A freshly created collection: the schema, no points, nothing to index. */
  function EmptyCollection(vectors: Schema): (c: Collection)
    ensures c.vectors == vectors && |c.points| == 0 && c.status == Green
  {
    Collection(vectors, map[], Green)
  }

  /** Every point is stored under its own id and uses only vector fields of
      the schema. */
  ghost predicate Consistent(c: Collection)
  {
    forall id :: id in c.points ==> c.points[id].id == id && c.points[id].vector.Keys <= c.vectors.Keys
  }

  /** The ids of a point sequence, in order. */
  function Ids(points: seq<Point>): (ids: seq<nat>)
    ensures |ids| == |points|
    ensures forall j :: 0 <= j < |points| ==> ids[j] == points[j].id
  {
    if points == [] then [] else Ids(points[..|points| - 1]) + [points[|points| - 1].id]
  }

  /** Storing `points` in order; a later point replaces an earlier one, or a
      stored one, with the same id. */
  function Upsert(stored: map<nat, Point>, points: seq<Point>): map<nat, Point>
    decreases |points|
  {
    if points == [] then stored
    else Upsert(stored, points[..|points| - 1])[points[|points| - 1].id := points[|points| - 1]]
  }

  /** Upsert keeps the stored ids and adds the uploaded ones, and leaves a
      stored point alone unless an uploaded point has its id. */
  lemma {:induction false} UpsertKeys(stored: map<nat, Point>, points: seq<Point>)
    ensures var r := Upsert(stored, points);
      && (forall id :: id in r <==> id in stored || id in Ids(points))
      && (forall id :: id in stored && id !in Ids(points) ==> r[id] == stored[id])
    decreases |points|
  {
    if points != [] {
      UpsertKeys(stored, points[..|points| - 1]);
      assert Ids(points) == Ids(points[..|points| - 1]) + [points[|points| - 1].id];
    }
  }

  /** No point after position `j` has the id of the point at `j`. */
  ghost predicate LastWithId(points: seq<Point>, j: nat)
    requires j < |points|
  {
    forall l :: j < l < |points| ==> points[l].id != points[j].id
  }

  /** The last point uploaded with an id is the one stored under it. */
  lemma {:induction false} UpsertLastWins(stored: map<nat, Point>, points: seq<Point>)
    ensures var r := Upsert(stored, points);
      forall j :: 0 <= j < |points| && LastWithId(points, j) ==> points[j].id in r && r[points[j].id] == points[j]
    decreases |points|
  {
    if points != [] {
      var n := |points| - 1;
      var before := points[..n];
      UpsertLastWins(stored, before);
      var r := Upsert(stored, points);
      forall j | 0 <= j < n && LastWithId(points, j)
        ensures points[j].id in r && r[points[j].id] == points[j]
      {
        assert points[n].id != points[j].id;
        assert LastWithId(before, j);
      }
    }
  }

  /** Each point Upsert leaves is a stored or an uploaded one. */
  lemma {:induction false} UpsertProvenance(stored: map<nat, Point>, points: seq<Point>)
    ensures var r := Upsert(stored, points);
      forall id :: id in r ==> (id in stored && r[id] == stored[id]) || r[id] in points
    decreases |points|
  {
    if points != [] {
      var before := points[..|points| - 1];
      UpsertProvenance(stored, before);
      assert forall p :: p in before ==> p in points;
    }
  }

  /** What Upsert stores: the stored and the uploaded ids; the last point
      uploaded with an id; an old point wherever no uploaded point has its
      id; and nothing that was neither stored nor uploaded. */
  lemma UpsertContents(stored: map<nat, Point>, points: seq<Point>)
    ensures var r := Upsert(stored, points);
      && (forall id :: id in r <==> id in stored || id in Ids(points))
      && (forall j :: 0 <= j < |points| && LastWithId(points, j) ==> points[j].id in r && r[points[j].id] == points[j])
      && (forall id :: id in stored && id !in Ids(points) ==> r[id] == stored[id])
      && (forall id :: id in r ==> (id in stored && r[id] == stored[id]) || r[id] in points)
  {
    UpsertKeys(stored, points);
    UpsertLastWins(stored, points);
    UpsertProvenance(stored, points);
  }

  /** The stored points of the ranked ids, in ranking order; ranked ids
      that are not stored are skipped. */
  function StoredInOrder(stored: map<nat, Point>, ranked: seq<nat>): seq<Point>
  {
    if ranked == [] then []
    else if ranked[0] in stored then [stored[ranked[0]]] + StoredInOrder(stored, ranked[1..])
    else StoredInOrder(stored, ranked[1..])
  }

  /** The first `limit` stored points, in the order in which the store's
      similarity search ranked their ids. */
  function TopK(stored: map<nat, Point>, ranked: seq<nat>, limit: nat): seq<Point>
  {
    var all := StoredInOrder(stored, ranked);
    if |all| <= limit then all else all[..limit]
  }

  /** Every point of the filtered ranking is stored; the best-ranked id, when
      stored, comes first; and the filtered ranking is empty exactly when no
      ranked id is stored. */
  lemma {:induction false} StoredInOrderContents(stored: map<nat, Point>, ranked: seq<nat>)
    ensures var all := StoredInOrder(stored, ranked);
      && (forall p :: p in all ==> p in stored.Values)
      && (|ranked| > 0 && ranked[0] in stored ==> |all| > 0 && all[0] == stored[ranked[0]])
      && ((exists j :: 0 <= j < |ranked| && ranked[j] in stored) <==> |all| > 0)
  {
    if ranked != [] {
      StoredInOrderContents(stored, ranked[1..]);
      assert forall j :: 1 <= j < |ranked| ==> ranked[j] == ranked[1..][j - 1];
    }
  }

  /** At most `limit` results, all of them stored points; the best-ranked id,
      when it is stored, gives the first result; and, for a positive limit,
      there is a result exactly when some ranked id is stored. */
  lemma TopKContents(stored: map<nat, Point>, ranked: seq<nat>, limit: nat)
    ensures var r := TopK(stored, ranked, limit);
      && |r| <= limit
      && (forall p :: p in r ==> p in stored.Values)
      && (limit > 0 && |ranked| > 0 && ranked[0] in stored ==> |r| > 0 && r[0] == stored[ranked[0]])
      && (limit > 0 ==> ((exists j :: 0 <= j < |ranked| && ranked[j] in stored) <==> |r| > 0))
  {
    StoredInOrderContents(stored, ranked);
    var all := StoredInOrder(stored, ranked);
    if |all| > limit {
      assert forall p :: p in all[..limit] ==> p in all;
    }
  }

  /** `ranked` lists every id of `ids` exactly once and nothing else: the
      order in which a similarity search without a filter ranks all the
      points of a collection. */
  ghost predicate RanksAll(ranked: seq<nat>, ids: set<nat>)
  {
    && (forall i :: 0 <= i < |ranked| ==> ranked[i] in ids)
    && (forall id :: id in ids ==> id in ranked)
    && (forall i, j :: 0 <= i < j < |ranked| ==> ranked[i] != ranked[j])
  }

  /** The ids a ranking names. */
  ghost function Named(ranked: seq<nat>): set<nat>
  {
    set id | id in ranked
  }

  /** A ranking without repetitions names as many ids as it has entries. */
  lemma {:induction false} DistinctCard(ranked: seq<nat>)
    requires forall i, j :: 0 <= i < j < |ranked| ==> ranked[i] != ranked[j]
    ensures |Named(ranked)| == |ranked|
  {
    if ranked != [] {
      var rest := ranked[1..];
      assert forall i, j :: 0 <= i < j < |rest| ==> rest[i] != rest[j] by {
        forall i, j | 0 <= i < j < |rest| ensures rest[i] != rest[j] {
          assert rest[i] == ranked[i + 1] && rest[j] == ranked[j + 1];
        }
      }
      DistinctCard(rest);
      assert ranked[0] !in rest by {
        forall j | 0 <= j < |rest| ensures rest[j] != ranked[0] {
          assert rest[j] == ranked[j + 1];
        }
      }
      assert forall id :: id in ranked <==> id == ranked[0] || id in rest;
      assert Named(ranked) == {ranked[0]} + Named(rest);
    } else {
      assert Named(ranked) == {};
    }
  }

  /** When every ranked id is stored, nothing is skipped: the filtered
      ranking is the stored point of each ranked id, in order. */
  lemma {:induction false} StoredInOrderAllStored(stored: map<nat, Point>, ranked: seq<nat>)
    requires forall i :: 0 <= i < |ranked| ==> ranked[i] in stored
    ensures var all := StoredInOrder(stored, ranked);
      && |all| == |ranked|
      && forall i :: 0 <= i < |all| ==> all[i] == stored[ranked[i]]
  {
    if ranked != [] {
      assert forall i :: 0 <= i < |ranked[1..]| ==> ranked[1..][i] == ranked[i + 1];
      StoredInOrderAllStored(stored, ranked[1..]);
    }
  }

  /** A query over a ranking of all stored ids returns min(limit, number of
      stored points) results: the stored points of the best-ranked ids, in
      ranking order; when every point is stored under its own id, no point
      comes twice. */
  lemma TopKOfRanking(stored: map<nat, Point>, ranked: seq<nat>, limit: nat)
    requires RanksAll(ranked, stored.Keys)
    ensures var r := TopK(stored, ranked, limit);
      && |ranked| == |stored|
      && |r| == (if |stored| <= limit then |stored| else limit)
      && (forall i :: 0 <= i < |r| ==> r[i] == stored[ranked[i]])
      && ((forall id :: id in stored ==> stored[id].id == id) ==>
            forall i, j :: 0 <= i < j < |r| ==> r[i] != r[j])
  {
    StoredInOrderAllStored(stored, ranked);
    DistinctCard(ranked);
    assert Named(ranked) == stored.Keys;
    var r := TopK(stored, ranked, limit);
    if forall id :: id in stored ==> stored[id].id == id {
      forall i, j | 0 <= i < j < |r| ensures r[i] != r[j] {
        assert r[i].id == ranked[i] && r[j].id == ranked[j];
      }
    }
  }

  class QdrantStore {
    var collections: map<string, Collection>
    var log: seq<Call>

    ghost predicate Valid()
      reads this`collections
    {
      forall name :: name in collections ==> Consistent(collections[name])
    }

    /** A client connected to a store that already holds `existing`. */
    constructor (existing: map<string, Collection>)
      requires forall name :: name in existing ==> Consistent(existing[name])
      ensures Valid() && collections == existing && log == []
    {
      collections := existing;
      log := [];
    }

    method CollectionExists(name: string) returns (b: bool)
      modifies this`log
      ensures b <==> name in collections
      ensures log == old(log) + [Exists(name)]
    {
      b := name in collections;
      log := log + [Exists(name)];
    }

    /** Deleting a collection that does not exist is not an error; the
        result says whether there was one. */
    method DeleteCollection(name: string) returns (deleted: bool)
      requires Valid()
      modifies this
      ensures Valid()
      ensures deleted <==> name in old(collections)
      ensures collections == old(collections) - {name}
      ensures log == old(log) + [Delete(name)]
    {
      deleted := name in collections;
      collections := collections - {name};
      log := log + [Delete(name)];
    }

    /** Creating a collection under a name in use is refused. */
    method CreateCollection(name: string, vectors: Schema) returns (r: Result<(), StoreError>)
      requires Valid()
      modifies this
      ensures Valid()
      ensures r.Ok? <==> name !in old(collections)
      ensures r.Err? ==> r.error == AlreadyExists(name) && collections == old(collections)
      ensures r.Ok? ==> collections == old(collections)[name := EmptyCollection(vectors)]
      ensures log == old(log) + [Create(name, vectors)]
    {
      if name in collections {
        r := Err(AlreadyExists(name));
      } else {
        collections := collections[name := EmptyCollection(vectors)];
        r := Ok(());
      }
      log := log + [Create(name, vectors)];
    }

    /** Stores every point, unless the collection is missing or a point names
        a vector field that is not in the schema. `afterwards` is the status
        the store reports once it has accepted the points (its optimizer is
        not modelled). */
    method UploadPoints(name: string, points: seq<Point>, batchSize: nat, parallel: nat, afterwards: Status)
      returns (r: Result<(), StoreError>)
      requires Valid()
      modifies this
      ensures Valid()
      ensures r.Ok? <==> name in old(collections) && forall p :: p in points ==> p.vector.Keys <= old(collections)[name].vectors.Keys
      ensures r.Err? ==> collections == old(collections)
      ensures r.Ok? ==> var c := old(collections)[name];
        collections == old(collections)[name := Collection(c.vectors, Upsert(c.points, points), afterwards)]
      ensures log == old(log) + [Upload(name, Ids(points), batchSize, parallel)]
    {
      log := log + [Upload(name, Ids(points), batchSize, parallel)];
      if name !in collections {
        r := Err(NotFound(name));
        return;
      }
      var c := collections[name];
      if exists p :: p in points && !(p.vector.Keys <= c.vectors.Keys) {
        r := Err(UnknownVector);
        return;
      }
      var stored := Upsert(c.points, points);
      UpsertContents(c.points, points);
      assert Consistent(Collection(c.vectors, stored, afterwards)) by {
        forall id | id in stored
          ensures stored[id].id == id && stored[id].vector.Keys <= c.vectors.Keys
        {
          if id in c.points && stored[id] == c.points[id] {
          } else {
            var j :| 0 <= j < |points| && points[j] == stored[id];
            assert id in Ids(points) || id in c.points;
            UpsertKeepsIds(c.points, points, id);
          }
        }
      }
      collections := collections[name := Collection(c.vectors, stored, afterwards)];
      r := Ok(());
    }

    /** Reading a collection's status. */
    method GetCollectionStatus(name: string) returns (r: Result<Status, StoreError>)
      modifies this`log
      ensures r.Ok? <==> name in collections
      ensures r.Ok? ==> r.value == collections[name].status
      ensures r.Err? ==> r.error == NotFound(name)
      ensures log == old(log) + (if r.Ok? then [GetStatus(name, r.value)] else [])
    {
      if name in collections {
        r := Ok(collections[name].status);
        log := log + [GetStatus(name, r.value)];
      } else {
        r := Err(NotFound(name));
      }
    }

    /** Time passing while the client sleeps: the store's background indexing
        may change a collection's status, and nothing else. The client makes
        no request. */
    method Elapse(name: string, reported: Status)
      requires Valid() && name in collections
      modifies this`collections
      ensures Valid()
      ensures collections == old(collections)[name := old(collections)[name].(status := reported)]
    {
      collections := collections[name := collections[name].(status := reported)];
    }

    /** A similarity query for `request` against the vector field `using`,
        returning the `limit` best points, or all of them when there are
        fewer. The store ranks every stored point by similarity to
        `request`; that ranking of their ids is given as `ranked`. */
    method QueryPoints(name: string, request: Document, using: string, limit: nat, ranked: seq<nat>)
      returns (r: Result<seq<Point>, StoreError>)
      requires Valid()
      requires name in collections ==> RanksAll(ranked, collections[name].points.Keys)
      modifies this`log
      ensures r.Ok? <==> name in collections && using in collections[name].vectors
      ensures r.Ok? ==> r.value == TopK(collections[name].points, ranked, limit)
      ensures r.Ok? ==> var stored := collections[name].points;
        && |ranked| == |stored|
        && |r.value| == (if |stored| <= limit then |stored| else limit)
        && (forall i :: 0 <= i < |r.value| ==> r.value[i] == stored[ranked[i]])
        && (forall i, j :: 0 <= i < j < |r.value| ==> r.value[i] != r.value[j])
      ensures log == old(log) + [Query(name, using, request, limit)]
    {
      log := log + [Query(name, using, request, limit)];
      if name !in collections {
        r := Err(NotFound(name));
      } else if using !in collections[name].vectors {
        r := Err(UnknownVector);
      } else {
        TopKOfRanking(collections[name].points, ranked, limit);
        r := Ok(TopK(collections[name].points, ranked, limit));
      }
    }
  }

  /** A point that Upsert stored under `id` came from the uploaded sequence
      with that id, or was already stored under it. */
  lemma {:induction false} UpsertKeepsIds(stored: map<nat, Point>, points: seq<Point>, id: nat)
    requires id in Upsert(stored, points)
    ensures (id in stored && Upsert(stored, points)[id] == stored[id])
         || exists j :: 0 <= j < |points| && points[j] == Upsert(stored, points)[id] && points[j].id == id
    decreases |points|
  {
    if points != [] {
      var last := points[|points| - 1];
      var before := points[..|points| - 1];
      if id != last.id {
        UpsertKeepsIds(stored, before, id);
        if !(id in stored && Upsert(stored, before)[id] == stored[id]) {
          var j :| 0 <= j < |before| && before[j] == Upsert(stored, before)[id] && before[j].id == id;
          assert points[j] == before[j];
        }
      } else {
        assert points[|points| - 1] == last;
      }
    }
  }

  /** Uploading points whose ids are their positions into an empty collection
      stores exactly those points, each under its position. */
  lemma UpsertDense(points: seq<Point>)
    requires forall j :: 0 <= j < |points| ==> points[j].id == j
    ensures forall id: int :: id in Upsert(map[], points) <==> 0 <= id < |points|
    ensures forall j :: 0 <= j < |points| ==> Upsert(map[], points)[j] == points[j]
  {
    var r := Upsert(map[], points);
    UpsertContents(map[], points);
    forall id: int | 0 <= id < |points| ensures id in r {
      assert Ids(points)[id] == id;
    }
    forall j | 0 <= j < |points| ensures r[j] == points[j] {
      assert points[j].id == j;
    }
  }
}
