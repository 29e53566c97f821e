/** The combined tail and eyes tracking method: a fixed chain of two member
    detectors whose messages, results, parameters and column names are
    concatenated in chain order. */
module EyesTail {
  import opened Types
  import opened Decimal

  /** Keyword arguments forwarded unchanged to every member detector. */
  type Kwargs = map<string, ParamValue>

  /** What a detector returns for one image: a diagnostic message and the
      fields of its result tuple. */
  datatype Detection = Detection(message: string, fields: seq<Value>)

  /** A member detector as the chain sees it: the parameters declared by the
      annotations of its `detect`, and `detect` itself. */
  datatype Detector = Detector(annotations: map<string, ParamValue>, detect: (Image, Kwargs) -> Detection)

  // ---------------------------------------------------------------------
  // Column names
  // ---------------------------------------------------------------------

  /** `len(range(n))`: a negative count gives an empty range. */
  function RangeLen(n: int): nat
  {
    if n < 0 then 0 else n
  }

  function ThetaHeader(i: nat): string
  {
    "theta_" + ZeroPad2(i)
  }

  /** The five columns of eye i: position, dimensions and angle of its ellipse. */
  function EyeHeaders(i: nat): seq<string>
  {
    var e := NatToString(i);
    ["pos_x_e" + e, "pos_y_e" + e, "dim_x_e" + e, "dim_y_e" + e, "th_e" + e]
  }

  /** The ten eye columns, written out. */
  const EyeColumns: seq<string> :=
    ["pos_x_e0", "pos_y_e0", "dim_x_e0", "dim_y_e0", "th_e0",
     "pos_x_e1", "pos_y_e1", "dim_x_e1", "dim_y_e1", "th_e1"]

  /** The columns of eye 0 and eye 1 are the ten written out. */
  lemma EyeHeadersWrittenOut()
    ensures EyeHeaders(0) + EyeHeaders(1) == EyeColumns
  {
    assert NatToString(0) == "0" && NatToString(1) == "1";
    assert "pos_x_e" + "0" == "pos_x_e0" && "pos_y_e" + "0" == "pos_y_e0";
    assert "dim_x_e" + "0" == "dim_x_e0" && "dim_y_e" + "0" == "dim_y_e0" && "th_e" + "0" == "th_e0";
    assert "pos_x_e" + "1" == "pos_x_e1" && "pos_y_e" + "1" == "pos_y_e1";
    assert "dim_x_e" + "1" == "dim_x_e1" && "dim_y_e" + "1" == "dim_y_e1" && "th_e" + "1" == "th_e1";
  }

  /** One angle column per tail segment. */
  function ThetaHeaders(nSegments: int): seq<string>
  {
    seq(RangeLen(nSegments), i requires 0 <= i => ThetaHeader(i))
  }

  /** The column schema for `nSegments` tail segments. */
  function AccumulatorHeaders(nSegments: int): seq<string>
  {
    ["tail_sum"] + ThetaHeaders(nSegments) + EyeHeaders(0) + EyeHeaders(1)
  }

  /** The columns surfaced for live plotting. */
  const MonitoredHeaders: seq<string> := ["tail_sum", "th_e0", "th_e1"]

  /** Builds the column names the way `__init__` and `reset_state` do: the
      tail columns first, then the five columns of each eye appended in a loop. */
  method BuildHeaders(nSegments: int) returns (headers: seq<string>)
    ensures headers == AccumulatorHeaders(nSegments)
  {
    var tail := ["tail_sum"] + ThetaHeaders(nSegments);
    headers := tail;
    for i := 0 to 2
      invariant headers == tail + (if i == 0 then [] else EyeHeaders(0)) + (if i == 2 then EyeHeaders(1) else [])
    {
      headers := headers + EyeHeaders(i);
    }
  }

  /** The layout of the schema: one sum column, one angle column per segment,
      then the ten eye columns in a fixed order. */
  lemma AccumulatorHeadersLayout(nSegments: int)
    ensures |AccumulatorHeaders(nSegments)| == 1 + RangeLen(nSegments) + 10
    ensures AccumulatorHeaders(nSegments)[0] == "tail_sum"
    ensures forall i :: 0 <= i < RangeLen(nSegments) ==>
              AccumulatorHeaders(nSegments)[1 + i] == "theta_" + ZeroPad2(i)
    ensures AccumulatorHeaders(nSegments)[1 + RangeLen(nSegments)..] == EyeColumns
  {
    var n := RangeLen(nSegments);
    assert AccumulatorHeaders(nSegments) == (["tail_sum"] + ThetaHeaders(nSegments)) + (EyeHeaders(0) + EyeHeaders(1));
    EyeHeadersWrittenOut();
    assert AccumulatorHeaders(nSegments)[1 + n..] == EyeHeaders(0) + EyeHeaders(1);
  }

  /** The column at one index: the sum, an angle or an eye column. */
  lemma HeaderAt(nSegments: int, i: nat)
    requires i < |AccumulatorHeaders(nSegments)|
    ensures var n := RangeLen(nSegments);
      (i == 0 ==> AccumulatorHeaders(nSegments)[i] == "tail_sum") &&
      (1 <= i <= n ==> AccumulatorHeaders(nSegments)[i] == ThetaHeader(i - 1)) &&
      (n < i ==> i - 1 - n < 10 && AccumulatorHeaders(nSegments)[i] == EyeColumns[i - 1 - n])
  {
    var n := RangeLen(nSegments);
    AccumulatorHeadersLayout(nSegments);
    if n < i {
      assert AccumulatorHeaders(nSegments)[i] == AccumulatorHeaders(nSegments)[1 + n..][i - 1 - n];
    }
  }

  /** Every monitored column is a column of the schema, at a fixed place. */
  lemma MonitoredHeadersInSchema(nSegments: int)
    ensures forall h :: h in MonitoredHeaders ==> h in AccumulatorHeaders(nSegments)
    ensures var n := RangeLen(nSegments);
      AccumulatorHeaders(nSegments)[0] == MonitoredHeaders[0] &&
      AccumulatorHeaders(nSegments)[n + 5] == MonitoredHeaders[1] &&
      AccumulatorHeaders(nSegments)[n + 10] == MonitoredHeaders[2]
  {
    AccumulatorHeadersLayout(nSegments);
    var n := RangeLen(nSegments);
    HeaderAt(nSegments, 0);
    HeaderAt(nSegments, n + 5);
    HeaderAt(nSegments, n + 10);
  }

  /** Every angle column is `theta_` followed by its segment's zero-padded
      numeral, so it is at least eight characters long and has the 'e' of
      `theta_` as its third character. */
  lemma ThetaHeaderShape(i: nat)
    ensures |ThetaHeader(i)| >= 8 && ThetaHeader(i)[..6] == "theta_" && ThetaHeader(i)[6..] == ZeroPad2(i)
    ensures ThetaHeader(i)[2] == 'e'
  {
  }

  /** The eye columns differ from each other and from the sum column, and
      none has an 'e' as its third character. */
  lemma EyeColumnsDistinct()
    ensures forall a, b :: 0 <= a < b < 10 ==> EyeColumns[a] != EyeColumns[b]
    ensures forall m :: 0 <= m < 10 ==> EyeColumns[m][2] != 'e' && EyeColumns[m] != "tail_sum"
  {
  }

  /** Two different indices of the schema hold different names. */
  lemma HeadersDiffer(nSegments: int, i: nat, j: nat)
    requires i < j < |AccumulatorHeaders(nSegments)|
    ensures AccumulatorHeaders(nSegments)[i] != AccumulatorHeaders(nSegments)[j]
  {
    var n := RangeLen(nSegments);
    HeaderAt(nSegments, i);
    HeaderAt(nSegments, j);
    EyeColumnsDistinct();
    assert "tail_sum"[2] == 'i';
    if 1 <= i <= n {
      ThetaHeaderShape(i - 1);
    }
    if 1 <= j <= n {
      ThetaHeaderShape(j - 1);
    }
    if 1 <= i && j <= n {
      ZeroPad2Injective(i - 1, j - 1);
    }
  }

  /** No two columns of the schema share a name. */
  lemma AccumulatorHeadersDistinct(nSegments: int)
    ensures var h := AccumulatorHeaders(nSegments);
      forall i, j :: 0 <= i < j < |h| ==> h[i] != h[j]
  {
    forall i, j | 0 <= i < j < |AccumulatorHeaders(nSegments)|
      ensures AccumulatorHeaders(nSegments)[i] != AccumulatorHeaders(nSegments)[j]
    {
      HeadersDiffer(nSegments, i, j);
    }
  }

  // ---------------------------------------------------------------------
  // Detection and parameters of a chain
  // ---------------------------------------------------------------------

  /** The messages of the members, concatenated in chain order. */
  function ChainMessages(chain: seq<Detector>, im: Image, kwargs: Kwargs): string
  {
    if chain == [] then "" else chain[0].detect(im, kwargs).message + ChainMessages(chain[1..], im, kwargs)
  }

  /** The result fields of the members, concatenated in chain order. */
  function ChainResults(chain: seq<Detector>, im: Image, kwargs: Kwargs): seq<Value>
  {
    if chain == [] then [] else chain[0].detect(im, kwargs).fields + ChainResults(chain[1..], im, kwargs)
  }

  /** The total number of result fields the members produce. */
  function FieldCount(chain: seq<Detector>, im: Image, kwargs: Kwargs): nat
  {
    if chain == [] then 0 else |chain[0].detect(im, kwargs).fields| + FieldCount(chain[1..], im, kwargs)
  }

  /** Running a chain made of two chains is running one after the other. */
  lemma {:induction false} ChainConcat(a: seq<Detector>, b: seq<Detector>, im: Image, kwargs: Kwargs)
    ensures ChainMessages(a + b, im, kwargs) == ChainMessages(a, im, kwargs) + ChainMessages(b, im, kwargs)
    ensures ChainResults(a + b, im, kwargs) == ChainResults(a, im, kwargs) + ChainResults(b, im, kwargs)
    decreases |a|
  {
    if a == [] {
      assert a + b == b;
    } else {
      assert (a + b)[1..] == a[1..] + b;
      ChainConcat(a[1..], b, im, kwargs);
    }
  }

  /** The length of the concatenated result is the sum of the members' lengths. */
  lemma {:induction false} ChainResultsLength(chain: seq<Detector>, im: Image, kwargs: Kwargs)
    ensures |ChainResults(chain, im, kwargs)| == FieldCount(chain, im, kwargs)
    decreases |chain|
  {
    if chain != [] {
      ChainResultsLength(chain[1..], im, kwargs);
    }
  }

  /** For the tail-then-eyes chain, the tail fields come first and the eye
      fields follow them. */
  lemma TailFieldsBeforeEyeFields(centroid: Detector, eyes: Detector, im: Image, kwargs: Kwargs)
    ensures var r := ChainResults([centroid, eyes], im, kwargs);
      var t := centroid.detect(im, kwargs).fields;
      |r| == |t| + |eyes.detect(im, kwargs).fields| &&
      r[..|t|] == t && r[|t|..] == eyes.detect(im, kwargs).fields
    ensures ChainMessages([centroid, eyes], im, kwargs) ==
              centroid.detect(im, kwargs).message + eyes.detect(im, kwargs).message
  {
    ChainConcat([centroid], [eyes], im, kwargs);
    assert [centroid, eyes] == [centroid] + [eyes];
  }

  /** `params.update(annotations)` applied for each member in chain order. */
  function MergeAnnotations(chain: seq<Detector>): map<string, ParamValue>
  {
    if chain == [] then map[] else MergeAnnotations(chain[..|chain| - 1]) + chain[|chain| - 1].annotations
  }

  /** The merged keys are exactly the keys some member declares. */
  lemma {:induction false} MergeAnnotationsKeys(chain: seq<Detector>, key: string)
    ensures key in MergeAnnotations(chain) <==>
              exists j :: 0 <= j < |chain| && key in chain[j].annotations
    decreases |chain|
  {
    if chain != [] {
      var init := chain[..|chain| - 1];
      MergeAnnotationsKeys(init, key);
      if exists j :: 0 <= j < |init| && key in init[j].annotations {
        var j :| 0 <= j < |init| && key in init[j].annotations;
        assert chain[j] == init[j];
      }
      if exists j :: 0 <= j < |chain| && key in chain[j].annotations {
        var j :| 0 <= j < |chain| && key in chain[j].annotations;
        if j < |init| {
          assert init[j] == chain[j];
        }
      }
    }
  }

  /** On a key declared by several members, the last of them in the chain wins. */
  lemma {:induction false} MergeAnnotationsLastWins(chain: seq<Detector>, key: string, j: nat)
    requires j < |chain| && key in chain[j].annotations
    requires forall l :: j < l < |chain| ==> key !in chain[l].annotations
    ensures key in MergeAnnotations(chain)
    ensures MergeAnnotations(chain)[key] == chain[j].annotations[key]
    decreases |chain|
  {
    if j < |chain| - 1 {
      var init := chain[..|chain| - 1];
      assert init[j] == chain[j];
      MergeAnnotationsLastWins(init, key, j);
    }
  }

  /** Merges the members' parameters the way `__init__` does, one member at
      a time in chain order. */
  method MergeParams(chain: seq<Detector>) returns (params: map<string, ParamValue>)
    ensures params == MergeAnnotations(chain)
  {
    params := map[];
    for i := 0 to |chain|
      invariant params == MergeAnnotations(chain[..i])
    {
      assert chain[..i + 1][..i] == chain[..i];
      params := params + chain[i].annotations;
    }
    assert chain[..|chain|] == chain;
  }

  /** True when the merged parameters carry an integer `n_segments`, which the
      header construction reads. */
  predicate DeclaresSegments(values: map<string, ParamValue>)
  {
    "n_segments" in values && values["n_segments"].IntValue?
  }

  function NSegments(values: map<string, ParamValue>): int
    requires DeclaresSegments(values)
  {
    values["n_segments"].i
  }

  // ---------------------------------------------------------------------
  // The tracking method object
  // ---------------------------------------------------------------------

  class TailEyesTrackingMethod {
    static const name: string := "eyes_tail"

    var methodChain: seq<Detector>
    var processedImageNames: seq<string>
    var params: Parametrized
    var accumulatorHeaders: seq<string>
    var monitoredHeaders: seq<string>
    var dataLogName: string

    /** The column names agree with the current `n_segments` parameter. */
    ghost predicate HeadersCurrent()
      reads this, params
    {
      DeclaresSegments(params.values) &&
      accumulatorHeaders == AccumulatorHeaders(NSegments(params.values)) &&
      monitoredHeaders == MonitoredHeaders
    }

    /** `centroid` and `eyes` are the two member detectors the source
        instantiates itself; their code is not part of this model. */
    constructor (centroid: Detector, eyes: Detector)
      requires DeclaresSegments(MergeAnnotations([centroid, eyes]))
      ensures methodChain == [centroid, eyes]
      ensures processedImageNames == ["thresholded"]
      ensures fresh(params) && params.name == "tracking/eyes_tail"
      ensures params.values == MergeAnnotations([centroid, eyes])
      ensures HeadersCurrent()
      ensures dataLogName == "behavior_tail_eyes_log"
    {
      methodChain := [centroid, eyes];
      processedImageNames := ["thresholded"];
      var merged := MergeParams([centroid, eyes]);
      var p := new Parametrized("tracking/eyes_tail", merged);
      params := p;
      var headers := BuildHeaders(NSegments(merged));
      monitoredHeaders := MonitoredHeaders;
      accumulatorHeaders := headers;
      dataLogName := "behavior_tail_eyes_log";
    }

    /** Runs every member on the same image, in chain order, and joins their
        messages and results. */
    method Detect(im: Image, kwargs: Kwargs) returns (messages: string, results: seq<Value>)
      ensures messages == ChainMessages(methodChain, im, kwargs)
      ensures results == ChainResults(methodChain, im, kwargs)
    {
      messages := "";
      results := [];
      for i := 0 to |methodChain|
        invariant messages == ChainMessages(methodChain[..i], im, kwargs)
        invariant results == ChainResults(methodChain[..i], im, kwargs)
      {
        var met := methodChain[i];
        var d := met.detect(im, kwargs);
        ChainConcat(methodChain[..i], [met], im, kwargs);
        assert methodChain[..i + 1] == methodChain[..i] + [met];
        messages := messages + d.message;
        results := results + d.fields;
      }
      assert methodChain[..|methodChain|] == methodChain;
    }

    /** Regenerates the column names from the current `n_segments`; the
        chain and the parameters are left as they are. */
    method ResetState()
      requires DeclaresSegments(params.values)
      modifies this`accumulatorHeaders, this`monitoredHeaders
      ensures HeadersCurrent()
      ensures methodChain == old(methodChain) && params == old(params)
      ensures params.values == old(params.values)
    {
      var headers := BuildHeaders(NSegments(params.values));
      monitoredHeaders := MonitoredHeaders;
      accumulatorHeaders := headers;
    }
  }
}
