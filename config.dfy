/** The configuration section of the ingestion script: its constants and the
    name of the collection's vector field, derived from the embedding model
    identifier. */
module Config {
  import opened Python

  const DatasetName: string := "SnehaDeshmukh/IndianBailJudgments-1200"
  /** Points per upload request. */
  const BatchSize: nat := 64
  /** Concurrent upload workers. */
  const UploadParallel: nat := 16

  /** Every vector field name starts with this. */
  const VectorPrefix: string := "fast-"

  /** The last slash-separated segment of a model identifier: everything
      after its last `/`, or all of it when there is none. */
  function LastSegment(model: string): (segment: string)
    ensures '/' !in segment
    ensures |segment| <= |model| && model[|model| - |segment|..] == segment
    ensures |segment| == |model| || model[|model| - |segment| - 1] == '/'
  {
    var parts := Split(model, '/');
    SplitJoin(model, '/');
    var n := |parts|;
    if n >= 2 then
      JoinLast(parts, '/');
      parts[n - 1]
    else
      parts[0]
  }

  /** The name of the collection's vector field: the prefix followed by the
      lower-cased last segment of the embedding model identifier. */
  function VectorName(model: string): (name: string)
    ensures |name| == |VectorPrefix| + |LastSegment(model)|
    ensures name[..|VectorPrefix|] == VectorPrefix
    ensures '/' !in name[|VectorPrefix|..]
    ensures forall k :: |VectorPrefix| <= k < |name| ==> !('A' <= name[k] <= 'Z')
  {
    var lowered := Lower(LastSegment(model));
    LoweredCharacters(LastSegment(model));
    var name := VectorPrefix + lowered;
    assert name[|VectorPrefix|..] == lowered;
    name
  }

  /** Only the last path segment matters: an organisation or namespace in
      front of it does not change the vector name. */
  lemma VectorNameIgnoresNamespace(namespace: string, segment: string)
    requires '/' !in segment
    ensures VectorName(namespace + "/" + segment) == VectorName(segment)
    ensures VectorName(segment) == VectorPrefix + Lower(segment)
  {
    SplitAround(namespace, segment, '/');
    SplitWithoutSeparator(segment, '/');
  }

  /** A model whose last segment is already lower case, as in the usual
      organisation/model identifiers, gives the prefix and that segment
      unchanged. */
  lemma VectorNameOfLowercase(namespace: string, segment: string)
    requires '/' !in segment
    requires forall k :: 0 <= k < |segment| ==> !('A' <= segment[k] <= 'Z')
    ensures VectorName(namespace + "/" + segment) == VectorPrefix + segment
  {
    VectorNameIgnoresNamespace(namespace, segment);
    LowerOfLowercase(segment);
  }

  /** Case in the last segment does not matter either. */
  lemma VectorNameIgnoresCase(model: string, model': string)
    requires |model| == |model'|
    requires forall k :: 0 <= k < |model| ==> LowerChar(model[k]) == LowerChar(model'[k])
    ensures VectorName(model) == VectorName(model')
  {
    var seg, seg' := LastSegment(model), LastSegment(model');
    assert forall k :: 0 <= k < |model| ==> (model[k] == '/' <==> model'[k] == '/');
    assert |seg| == |seg'|;
    assert Lower(seg) == Lower(seg') by {
      forall k | 0 <= k < |seg| ensures Lower(seg)[k] == Lower(seg')[k] {
        assert seg[k] == model[|model| - |seg| + k];
        assert seg'[k] == model'[|model'| - |seg'| + k];
      }
    }
  }
}
