/** Counting-accuracy evaluation (evaluate_counting.py): every video is reduced to the
    per-class maxima over its frames, which are scored against a ground-truth map by
    mean absolute error, mean absolute percentage error and exact-match accuracy, and
    the per-video scores are averaged without weights. Ratios are exact rationals. */
module Evaluation {
  import opened Aggregates
  import opened Detector

  /** Expected count per class for one video, as read from the ground-truth file. */
  type GroundTruth = map<ClassName, int>

  /** A video's frames, or None when the video cannot be opened; reading past the last
      frame is the failed read that ends the frame loop. */
  type VideoSource = Option<seq<seq<Box>>>

  /** The result record of one evaluated video (the metrics are not rounded in this model). */
  datatype EvaluationResult = EvaluationResult(
    video: string,
    predicted: Counts,
    groundTruth: GroundTruth,
    mae: real,
    mape: real,
    accuracy: real,
    correctCounts: nat,
    totalClasses: nat)

  /** The overall averages printed at the end of a batch. */
  datatype Overall = Overall(avgMae: real, avgMape: real, avgAccuracy: real)

  /** `os.path.basename`: the part of a path after its last '/'. */
  function Basename(path: string): string
  {
    if path == [] || path[|path| - 1] == '/' then []
    else Basename(path[..|path| - 1]) + [path[|path| - 1]]
  }

  /** The base name is the longest suffix of the path without a '/'. */
  lemma {:induction false} BasenameIsLastSegment(path: string)
    ensures '/' !in Basename(path)
    ensures |Basename(path)| <= |path| && Basename(path) == path[|path| - |Basename(path)|..]
    ensures |Basename(path)| < |path| ==> path[|path| - |Basename(path)| - 1] == '/'
  {
    if path != [] && path[|path| - 1] != '/' {
      var front, last := path[..|path| - 1], path[|path| - 1];
      BasenameIsLastSegment(front);
      var b := Basename(front);
      assert Basename(path) == b + [last];
      assert path == front + [last];
      assert path[|path| - |b| - 1..] == front[|front| - |b|..] + [last];
      if |b| < |front| {
        assert path[|path| - |b| - 2] == front[|front| - |b| - 1];
      }
    }
  }

  function Abs(x: int): (r: nat)
    ensures r == x || r == -x
  {
    if x < 0 then -x else x
  }

  /** The absolute error of every ground-truth class; a class never predicted counts as 0. */
  function Errors(predicted: Counts, gt: GroundTruth): (r: Counts)
    ensures r.Keys == gt.Keys
  {
    map c | c in gt :: Abs(Lookup(predicted, c) - gt[c])
  }

  /** A class's absolute error is 0 exactly when it is predicted exactly. */
  lemma ErrorsZeroIffMatch(predicted: Counts, gt: GroundTruth)
    ensures forall c | c in gt :: Errors(predicted, gt)[c] == 0 <==> Lookup(predicted, c) == gt[c]
  {
  }

  /** The percentage error of the ground-truth classes whose expected count is positive. */
  function PercentageErrors(predicted: Counts, gt: GroundTruth): map<ClassName, real>
  {
    map c | c in gt && gt[c] > 0 :: PercentageError(Lookup(predicted, c), gt[c])
  }

  /** Exactly the classes with a positive expected count have a percentage error, and it is 0
      exactly when the class is predicted exactly. */
  lemma PercentageErrorsDomain(predicted: Counts, gt: GroundTruth)
    ensures PercentageErrors(predicted, gt).Keys == set c | c in gt && gt[c] > 0
    ensures forall c | c in PercentageErrors(predicted, gt) :: PercentageErrors(predicted, gt)[c] >= 0.0
    ensures forall c | c in PercentageErrors(predicted, gt) ::
      PercentageErrors(predicted, gt)[c] == 0.0 <==> Lookup(predicted, c) == gt[c]
  {
    forall c | c in PercentageErrors(predicted, gt)
      ensures PercentageErrors(predicted, gt)[c] == 0.0 <==> Lookup(predicted, c) == gt[c]
    {
      PercentageErrorZero(Lookup(predicted, c), gt[c]);
    }
  }

  /** A class's absolute error as a percentage of its positive expected count. */
  function PercentageError(predictedCount: nat, expected: int): (r: real)
    requires expected > 0
    ensures r >= 0.0
  {
    Abs(predictedCount - expected) as real / expected as real * 100.0
  }

  lemma PercentageErrorZero(predictedCount: nat, expected: int)
    requires expected > 0
    ensures PercentageError(predictedCount, expected) == 0.0 <==> predictedCount == expected
  {
    var e := Abs(predictedCount - expected) as real;
    var q := e / expected as real;
    if q * 100.0 == 0.0 {
      assert e == q * expected as real;
    }
  }

  /** The ground-truth classes predicted exactly. */
  function Matched(predicted: Counts, gt: GroundTruth): (r: set<ClassName>)
    ensures r <= gt.Keys
  {
    set c | c in gt && Lookup(predicted, c) == gt[c]
  }

  /** part out of whole as a percentage, or 0 when there is nothing to score. */
  function Percent(part: nat, whole: nat): real
  {
    if whole > 0 then part as real / whole as real * 100.0 else 0.0
  }

  /** The mean absolute error over all ground-truth classes. */
  ghost function MeanAbsoluteError(predicted: Counts, gt: GroundTruth): real
  {
    Mean(Total(Errors(predicted, gt)) as real, |gt|)
  }

  /** The mean percentage error over the ground-truth classes with a positive expected count. */
  ghost function MeanPercentageError(predicted: Counts, gt: GroundTruth): real
  {
    var pct := PercentageErrors(predicted, gt);
    Mean(RealTotal(pct), |pct|)
  }

  /** The share of ground-truth classes predicted exactly, in percent. */
  function Accuracy(predicted: Counts, gt: GroundTruth): real
  {
    Percent(|Matched(predicted, gt)|, |gt|)
  }

  /** The metrics of one video: the reference definition `calculate_metrics` is checked against. */
  ghost function Metrics(predicted: Counts, gt: GroundTruth, videoName: string): EvaluationResult
  {
    EvaluationResult(
      Basename(videoName), predicted, gt,
      MeanAbsoluteError(predicted, gt), MeanPercentageError(predicted, gt), Accuracy(predicted, gt),
      |Matched(predicted, gt)|, |gt|)
  }

  /** Ground-truth entries in the order `calculate_metrics` visits them. */
  type Items = seq<(ClassName, int)>

  /** The ground-truth map made of visited entries. */
  ghost function ItemsMap(items: Items): GroundTruth
  {
    if items == [] then map[]
    else
      var (c, v) := items[|items| - 1];
      ItemsMap(items[..|items| - 1])[c := v]
  }

  /** No class is visited twice. */
  ghost predicate NoClassRepeated(items: Items)
  {
    items == [] || (NoClassRepeated(items[..|items| - 1]) && items[|items| - 1].0 !in ItemsMap(items[..|items| - 1]))
  }

  /** The `errors` list after visiting the entries. */
  function ErrorList(predicted: Counts, items: Items): (r: seq<nat>)
    ensures |r| == |items|
  {
    if items == [] then []
    else
      var (c, v) := items[|items| - 1];
      ErrorList(predicted, items[..|items| - 1]) + [Abs(Lookup(predicted, c) - v)]
  }

  /** The `percentage_errors` list after visiting the entries: only positive expected counts contribute. */
  function PercentageErrorList(predicted: Counts, items: Items): seq<real>
  {
    if items == [] then []
    else
      var (c, v) := items[|items| - 1];
      var prev := PercentageErrorList(predicted, items[..|items| - 1]);
      if v > 0 then prev + [PercentageError(Lookup(predicted, c), v)] else prev
  }

  /** The `correct_counts` counter after visiting the entries. */
  function MatchCount(predicted: Counts, items: Items): nat
  {
    if items == [] then 0
    else
      var (c, v) := items[|items| - 1];
      MatchCount(predicted, items[..|items| - 1]) + (if Lookup(predicted, c) == v then 1 else 0)
  }

  /** `calculate_metrics`: one pass over the ground-truth classes accumulating the error
      list, the percentage-error list and the exact-match count. */
  method CalculateMetrics(predicted: Counts, groundTruth: GroundTruth, videoName: string) returns (r: EvaluationResult)
    ensures r == Metrics(predicted, groundTruth, videoName)
  {
    var rest := groundTruth.Keys;
    var errors: seq<nat> := [];
    var percentageErrors: seq<real> := [];
    var correct: nat := 0;
    var total: nat := 0;
    ghost var seen: Items := [];
    while rest != {}
      invariant rest <= groundTruth.Keys
      invariant ItemsMap(seen).Keys == groundTruth.Keys - rest
      invariant forall c | c in ItemsMap(seen) :: ItemsMap(seen)[c] == groundTruth[c]
      invariant NoClassRepeated(seen)
      invariant errors == ErrorList(predicted, seen)
      invariant percentageErrors == PercentageErrorList(predicted, seen)
      invariant correct == MatchCount(predicted, seen)
      invariant total == |seen|
      decreases rest
    {
      var animal :| animal in rest;
      var predCount := Lookup(predicted, animal);
      var gtCount := groundTruth[animal];
      var error := Abs(predCount - gtCount);
      errors := errors + [error];
      if gtCount > 0 {
        var pe := PercentageError(predCount, gtCount);
        percentageErrors := percentageErrors + [pe];
      }
      if predCount == gtCount {
        correct := correct + 1;
      }
      total := total + 1;
      VisitStep(predicted, seen, animal, gtCount);
      seen := seen + [(animal, gtCount)];
      rest := rest - {animal};
    }
    var mae := Mean(Sum(errors) as real, |errors|);
    var mape := Mean(RealSum(percentageErrors), |percentageErrors|);
    var accuracy := Percent(correct, total);
    r := EvaluationResult(Basename(videoName), predicted, groundTruth, mae, mape, accuracy, correct, total);
    LoopDone(predicted, groundTruth, videoName, seen);
  }

  /** Once every ground-truth entry has been visited, the means of the accumulated lists,
      the match counter and the visit count make up the reference metrics. */
  lemma LoopDone(predicted: Counts, groundTruth: GroundTruth, videoName: string, seen: Items)
    requires NoClassRepeated(seen)
    requires ItemsMap(seen).Keys == groundTruth.Keys
    requires forall c | c in ItemsMap(seen) :: ItemsMap(seen)[c] == groundTruth[c]
    ensures Metrics(predicted, groundTruth, videoName) == EvaluationResult(
      Basename(videoName), predicted, groundTruth,
      Mean(Sum(ErrorList(predicted, seen)) as real, |ErrorList(predicted, seen)|),
      Mean(RealSum(PercentageErrorList(predicted, seen)), |PercentageErrorList(predicted, seen)|),
      Percent(MatchCount(predicted, seen), |seen|),
      MatchCount(predicted, seen),
      |seen|)
  {
    DoneAll(groundTruth, ItemsMap(seen));
    MetricsFromItems(predicted, seen);
  }

  /** Visiting one more entry extends the map by it and each accumulated value by its score. */
  lemma VisitStep(predicted: Counts, items: Items, c: ClassName, v: int)
    ensures ItemsMap(items + [(c, v)]) == ItemsMap(items)[c := v]
    ensures NoClassRepeated(items) && c !in ItemsMap(items) ==> NoClassRepeated(items + [(c, v)])
    ensures ErrorList(predicted, items + [(c, v)]) == ErrorList(predicted, items) + [Abs(Lookup(predicted, c) - v)]
    ensures PercentageErrorList(predicted, items + [(c, v)]) ==
      if v > 0 then PercentageErrorList(predicted, items) + [PercentageError(Lookup(predicted, c), v)]
      else PercentageErrorList(predicted, items)
    ensures MatchCount(predicted, items + [(c, v)]) ==
      MatchCount(predicted, items) + (if Lookup(predicted, c) == v then 1 else 0)
  {
    ItemsMapStep(items, c, v);
    ErrorListStep(predicted, items, c, v);
    PercentageErrorListStep(predicted, items, c, v);
    MatchCountStep(predicted, items, c, v);
  }

  lemma ItemsMapStep(items: Items, c: ClassName, v: int)
    ensures ItemsMap(items + [(c, v)]) == ItemsMap(items)[c := v]
    ensures NoClassRepeated(items) && c !in ItemsMap(items) ==> NoClassRepeated(items + [(c, v)])
  {
    assert (items + [(c, v)])[..|items|] == items;
  }

  lemma ErrorListStep(predicted: Counts, items: Items, c: ClassName, v: int)
    ensures ErrorList(predicted, items + [(c, v)]) == ErrorList(predicted, items) + [Abs(Lookup(predicted, c) - v)]
  {
    assert (items + [(c, v)])[..|items|] == items;
  }

  lemma PercentageErrorListStep(predicted: Counts, items: Items, c: ClassName, v: int)
    ensures PercentageErrorList(predicted, items + [(c, v)]) ==
      if v > 0 then PercentageErrorList(predicted, items) + [PercentageError(Lookup(predicted, c), v)]
      else PercentageErrorList(predicted, items)
  {
    assert (items + [(c, v)])[..|items|] == items;
  }

  lemma MatchCountStep(predicted: Counts, items: Items, c: ClassName, v: int)
    ensures MatchCount(predicted, items + [(c, v)]) ==
      MatchCount(predicted, items) + (if Lookup(predicted, c) == v then 1 else 0)
  {
    assert (items + [(c, v)])[..|items|] == items;
  }

  lemma DoneAll(groundTruth: GroundTruth, done: GroundTruth)
    requires done.Keys == groundTruth.Keys
    requires forall k | k in done :: done[k] == groundTruth[k]
    ensures done == groundTruth
  {
  }

  /** The values accumulated over all visited entries give the reference scores of their map. */
  lemma MetricsFromItems(predicted: Counts, items: Items)
    requires NoClassRepeated(items)
    ensures MeanAbsoluteError(predicted, ItemsMap(items)) ==
      Mean(Sum(ErrorList(predicted, items)) as real, |ErrorList(predicted, items)|)
    ensures MeanPercentageError(predicted, ItemsMap(items)) ==
      Mean(RealSum(PercentageErrorList(predicted, items)), |PercentageErrorList(predicted, items)|)
    ensures Accuracy(predicted, ItemsMap(items)) == Percent(MatchCount(predicted, items), |items|)
    ensures MatchCount(predicted, items) == |Matched(predicted, ItemsMap(items))| && |items| == |ItemsMap(items)|
  {
    ErrorListTotal(predicted, items);
    PercentageErrorListTotal(predicted, items);
    MatchCountMatched(predicted, items);
  }

  /** The errors summed in visiting order are the total of the error map. */
  lemma {:induction false} ErrorListTotal(predicted: Counts, items: Items)
    requires NoClassRepeated(items)
    ensures Sum(ErrorList(predicted, items)) == Total(Errors(predicted, ItemsMap(items)))
    ensures |items| == |ItemsMap(items)|
  {
    if items == [] {
      assert Errors(predicted, map[]) == map[];
    } else {
      var front := items[..|items| - 1];
      var (c, v) := items[|items| - 1];
      ErrorListTotal(predicted, front);
      ErrorsStep(predicted, ItemsMap(front), c, v);
      SumAppend(ErrorList(predicted, front), Abs(Lookup(predicted, c) - v));
    }
  }

  /** The percentage errors summed in visiting order are the total of the percentage-error map. */
  lemma {:induction false} PercentageErrorListTotal(predicted: Counts, items: Items)
    requires NoClassRepeated(items)
    ensures |PercentageErrorList(predicted, items)| == |PercentageErrors(predicted, ItemsMap(items))|
    ensures RealSum(PercentageErrorList(predicted, items)) == RealTotal(PercentageErrors(predicted, ItemsMap(items)))
  {
    if items == [] {
      assert PercentageErrors(predicted, map[]) == map[];
    } else {
      var front := items[..|items| - 1];
      var (c, v) := items[|items| - 1];
      PercentageErrorListTotal(predicted, front);
      PercentageErrorsStep(predicted, ItemsMap(front), c, v);
      if v > 0 {
        RealSumAppend(PercentageErrorList(predicted, front), PercentageError(Lookup(predicted, c), v));
      }
    }
  }

  /** The exact-match counter is the number of exactly predicted classes. */
  lemma {:induction false} MatchCountMatched(predicted: Counts, items: Items)
    requires NoClassRepeated(items)
    ensures MatchCount(predicted, items) == |Matched(predicted, ItemsMap(items))|
  {
    if items == [] {
      assert Matched(predicted, map[]) == {};
    } else {
      var front := items[..|items| - 1];
      var (c, v) := items[|items| - 1];
      MatchCountMatched(predicted, front);
      MatchedStep(predicted, ItemsMap(front), c, v);
    }
  }

  lemma ErrorsStep(predicted: Counts, done: GroundTruth, c: ClassName, expected: int)
    requires c !in done
    ensures Total(Errors(predicted, done[c := expected])) ==
      Total(Errors(predicted, done)) + Abs(Lookup(predicted, c) - expected)
  {
    var error := Abs(Lookup(predicted, c) - expected);
    var before := Errors(predicted, done);
    var after := Errors(predicted, done[c := expected]);
    assert after.Keys == before[c := error].Keys;
    forall k | k in after
      ensures after[k] == before[c := error][k]
    {
      if k != c {
        assert done[c := expected][k] == done[k];
      }
    }
    assert after == before[c := error];
    TotalInsert(before, c, error);
  }

  lemma PercentageErrorsStep(predicted: Counts, done: GroundTruth, c: ClassName, expected: int)
    requires c !in done
    ensures expected > 0 ==>
      && |PercentageErrors(predicted, done[c := expected])| == |PercentageErrors(predicted, done)| + 1
      && RealTotal(PercentageErrors(predicted, done[c := expected])) ==
         RealTotal(PercentageErrors(predicted, done)) + PercentageError(Lookup(predicted, c), expected)
    ensures expected <= 0 ==> PercentageErrors(predicted, done[c := expected]) == PercentageErrors(predicted, done)
  {
    var before := PercentageErrors(predicted, done);
    if expected > 0 {
      var pe := PercentageError(Lookup(predicted, c), expected);
      assert PercentageErrors(predicted, done[c := expected]) == before[c := pe];
      RealTotalInsert(before, c, pe);
    } else {
      assert PercentageErrors(predicted, done[c := expected]) == before;
    }
  }

  lemma MatchedStep(predicted: Counts, done: GroundTruth, c: ClassName, expected: int)
    requires c !in done
    ensures |Matched(predicted, done[c := expected])| ==
      |Matched(predicted, done)| + (if Lookup(predicted, c) == expected then 1 else 0)
  {
    if Lookup(predicted, c) == expected {
      assert Matched(predicted, done[c := expected]) == Matched(predicted, done) + {c};
    } else {
      assert Matched(predicted, done[c := expected]) == Matched(predicted, done);
    }
  }

  lemma {:induction false} CardinalityOfSubset(a: set<ClassName>, b: set<ClassName>)
    requires a <= b
    ensures |a| <= |b|
    ensures |a| == |b| ==> a == b
    decreases a
  {
    if a != {} {
      var x :| x in a;
      CardinalityOfSubset(a - {x}, b - {x});
      if |a| == |b| {
        assert a == (a - {x}) + {x};
        assert b == (b - {x}) + {x};
      }
    }
  }

  /** Every ground-truth class is matched exactly when the matched set is as large as the ground truth. */
  lemma MatchedAll(predicted: Counts, gt: GroundTruth)
    ensures |Matched(predicted, gt)| <= |gt|
    ensures |Matched(predicted, gt)| == |gt| <==> forall c | c in gt :: Lookup(predicted, c) == gt[c]
  {
    var m := Matched(predicted, gt);
    CardinalityOfSubset(m, gt.Keys);
    assert |gt.Keys| == |gt|;
    if forall c | c in gt :: Lookup(predicted, c) == gt[c] {
      assert m == gt.Keys;
    }
    if |m| == |gt| {
      forall c | c in gt
        ensures Lookup(predicted, c) == gt[c]
      {
        assert c in m;
      }
    }
  }

  /** A percentage of a part of a whole lies in [0, 100] and is 100 exactly for the whole. */
  lemma PercentBounds(part: nat, whole: nat)
    requires part <= whole
    ensures 0.0 <= Percent(part, whole) <= 100.0
    ensures Percent(part, whole) == 100.0 <==> whole > 0 && part == whole
  {
    if whole > 0 {
      var q := part as real / whole as real;
      assert Percent(part, whole) == q * 100.0;
      MeanBetween(part as real, whole as real, 0.0, 1.0);
      if q == 1.0 {
        assert part as real == q * whole as real;
      }
    }
  }

  /** Every score lies in its natural range, and no more classes match than are scored. */
  lemma ScoreBounds(predicted: Counts, gt: GroundTruth)
    ensures |Matched(predicted, gt)| <= |gt|
    ensures MeanAbsoluteError(predicted, gt) >= 0.0
    ensures MeanPercentageError(predicted, gt) >= 0.0
    ensures 0.0 <= Accuracy(predicted, gt) <= 100.0
  {
    MatchedAll(predicted, gt);
    MaeNonNegative(predicted, gt);
    MapeNonNegative(predicted, gt);
    AccuracyBounds(predicted, gt);
  }

  lemma MaeNonNegative(predicted: Counts, gt: GroundTruth)
    ensures MeanAbsoluteError(predicted, gt) >= 0.0
  {
  }

  lemma MapeNonNegative(predicted: Counts, gt: GroundTruth)
    ensures MeanPercentageError(predicted, gt) >= 0.0
  {
    PercentageErrorsDomain(predicted, gt);
    RealTotalNonNegative(PercentageErrors(predicted, gt));
  }

  lemma AccuracyBounds(predicted: Counts, gt: GroundTruth)
    ensures 0.0 <= Accuracy(predicted, gt) <= 100.0
  {
    MatchedAll(predicted, gt);
    PercentBounds(|Matched(predicted, gt)|, |gt|);
  }

  /** Accuracy is 100 exactly when there is at least one ground-truth class and every
      ground-truth class is predicted exactly. */
  lemma AccuracyFullIffAllMatch(predicted: Counts, gt: GroundTruth)
    ensures Accuracy(predicted, gt) == 100.0 <==>
      |gt| > 0 && forall c | c in gt :: Lookup(predicted, c) == gt[c]
  {
    MatchedAll(predicted, gt);
    PercentBounds(|Matched(predicted, gt)|, |gt|);
  }

  /** The mean absolute error is 0 exactly when every ground-truth class is predicted
      exactly, which is exactly when the exact-match count equals the number of classes. */
  lemma MaeZeroIffAllMatch(predicted: Counts, gt: GroundTruth)
    ensures MeanAbsoluteError(predicted, gt) == 0.0 <==> forall c | c in gt :: Lookup(predicted, c) == gt[c]
    ensures MeanAbsoluteError(predicted, gt) == 0.0 <==> |Matched(predicted, gt)| == |gt|
  {
    var errs := Errors(predicted, gt);
    MatchedAll(predicted, gt);
    TotalZero(errs);
    ErrorsZeroIffMatch(predicted, gt);
    MeanZero(Total(errs) as real, |gt|);
    if |gt| == 0 {
      assert gt == map[];
    }
  }

  /** Classes that are predicted but absent from the ground truth do not affect any score. */
  lemma MetricsIgnorePredictedOnly(p1: Counts, p2: Counts, gt: GroundTruth)
    requires forall c | c in gt :: Lookup(p1, c) == Lookup(p2, c)
    ensures MeanAbsoluteError(p1, gt) == MeanAbsoluteError(p2, gt)
    ensures MeanPercentageError(p1, gt) == MeanPercentageError(p2, gt)
    ensures Accuracy(p1, gt) == Accuracy(p2, gt)
    ensures |Matched(p1, gt)| == |Matched(p2, gt)|
  {
    SameErrorsOnGroundTruth(p1, p2, gt);
  }

  lemma SameErrorsOnGroundTruth(p1: Counts, p2: Counts, gt: GroundTruth)
    requires forall c | c in gt :: Lookup(p1, c) == Lookup(p2, c)
    ensures Errors(p1, gt) == Errors(p2, gt)
    ensures PercentageErrors(p1, gt) == PercentageErrors(p2, gt)
    ensures Matched(p1, gt) == Matched(p2, gt)
  {
  }

  /** A class with ground truth 0 counts towards the mean absolute error but not towards
      the percentage error: G = {a: 0, b: 10}, P = {a: 5, b: 8} gives MAE 3.5 and MAPE 20. */
  lemma ZeroGroundTruthExample()
    ensures MeanAbsoluteError(map["a" := 5, "b" := 8], map["a" := 0, "b" := 10]) == 3.5
    ensures MeanPercentageError(map["a" := 5, "b" := 8], map["a" := 0, "b" := 10]) == 20.0
    ensures Accuracy(map["a" := 5, "b" := 8], map["a" := 0, "b" := 10]) == 0.0
  {
    ZeroGroundTruthMae();
    ZeroGroundTruthMape();
    ZeroGroundTruthAccuracy();
  }

  lemma ZeroGroundTruthMae()
    ensures MeanAbsoluteError(map["a" := 5, "b" := 8], map["a" := 0, "b" := 10]) == 3.5
  {
    var p: Counts := map["a" := 5, "b" := 8];
    var g: GroundTruth := map["a" := 0, "b" := 10];
    var once: Counts := map["a" := 5];
    assert Errors(p, g) == once["b" := 2];
    TotalInsert(map[], "a", 5);
    TotalInsert(once, "b", 2);
    assert Total(map[]) == 0;
    assert Total(Errors(p, g)) == 7;
    assert MeanAbsoluteError(p, g) == Mean(7.0, 2);
  }

  lemma ZeroGroundTruthMape()
    ensures MeanPercentageError(map["a" := 5, "b" := 8], map["a" := 0, "b" := 10]) == 20.0
  {
    var p: Counts := map["a" := 5, "b" := 8];
    var g: GroundTruth := map["a" := 0, "b" := 10];
    assert PercentageError(8, 10) == 20.0;
    assert PercentageErrors(p, g) == map[]["b" := 20.0];
    RealTotalInsert(map[], "b", 20.0);
    assert RealTotal(map[]) == 0.0;
    assert MeanPercentageError(p, g) == Mean(20.0, 1);
  }

  lemma ZeroGroundTruthAccuracy()
    ensures Accuracy(map["a" := 5, "b" := 8], map["a" := 0, "b" := 10]) == 0.0
  {
    assert Matched(map["a" := 5, "b" := 8], map["a" := 0, "b" := 10]) == {};
  }

  /** A class with positive ground truth that is predicted exactly still enters the percentage
      error, with 0: G = {horse: 2, cow: 1}, P = {horse: 2, cow: 0} gives MAE 0.5, MAPE 50
      and accuracy 50. */
  lemma ExactClassEntersMapeExample()
    ensures MeanAbsoluteError(map["horse" := 2, "cow" := 0], map["horse" := 2, "cow" := 1]) == 0.5
    ensures MeanPercentageError(map["horse" := 2, "cow" := 0], map["horse" := 2, "cow" := 1]) == 50.0
    ensures Accuracy(map["horse" := 2, "cow" := 0], map["horse" := 2, "cow" := 1]) == 50.0
  {
    ExactClassMae();
    ExactClassMape();
    ExactClassAccuracy();
  }

  lemma ExactClassMae()
    ensures MeanAbsoluteError(map["horse" := 2, "cow" := 0], map["horse" := 2, "cow" := 1]) == 0.5
  {
    var p: Counts := map["horse" := 2, "cow" := 0];
    var g: GroundTruth := map["horse" := 2, "cow" := 1];
    var once: Counts := map["horse" := 0];
    assert Errors(p, g) == once["cow" := 1];
    TotalInsert(map[], "horse", 0);
    TotalInsert(once, "cow", 1);
    assert Total(map[]) == 0;
    assert Total(Errors(p, g)) == 1;
    assert MeanAbsoluteError(p, g) == Mean(1.0, 2);
  }

  lemma ExactClassMape()
    ensures MeanPercentageError(map["horse" := 2, "cow" := 0], map["horse" := 2, "cow" := 1]) == 50.0
  {
    var p: Counts := map["horse" := 2, "cow" := 0];
    var g: GroundTruth := map["horse" := 2, "cow" := 1];
    assert PercentageError(2, 2) == 0.0;
    assert PercentageError(0, 1) == 100.0;
    var pctOnce: map<ClassName, real> := map["horse" := 0.0];
    assert PercentageErrors(p, g) == pctOnce["cow" := 100.0];
    RealTotalInsert(map[], "horse", 0.0);
    RealTotalInsert(pctOnce, "cow", 100.0);
    assert RealTotal(map[]) == 0.0;
    assert RealTotal(PercentageErrors(p, g)) == 100.0;
    assert |PercentageErrors(p, g)| == 2;
    assert MeanPercentageError(p, g) == Mean(100.0, 2);
  }

  lemma ExactClassAccuracy()
    ensures Accuracy(map["horse" := 2, "cow" := 0], map["horse" := 2, "cow" := 1]) == 50.0
  {
    var p: Counts := map["horse" := 2, "cow" := 0];
    var g: GroundTruth := map["horse" := 2, "cow" := 1];
    assert Matched(p, g) == {"horse"};
    assert Accuracy(p, g) == Percent(1, 2);
  }

  function Maes(results: seq<EvaluationResult>): seq<real>
  {
    seq(|results|, i requires 0 <= i < |results| => results[i].mae)
  }

  function Mapes(results: seq<EvaluationResult>): seq<real>
  {
    seq(|results|, i requires 0 <= i < |results| => results[i].mape)
  }

  function Accuracies(results: seq<EvaluationResult>): seq<real>
  {
    seq(|results|, i requires 0 <= i < |results| => results[i].accuracy)
  }

  /** The overall averages of `print_summary`: unweighted means of the per-video scores,
      or None ("No results to display") when no video was evaluated. */
  function Averages(results: seq<EvaluationResult>): (r: Option<Overall>)
    ensures r.None? <==> results == []
  {
    if results == [] then None
    else
      var n := |results|;
      Some(Overall(Mean(RealSum(Maes(results)), n), Mean(RealSum(Mapes(results)), n), Mean(RealSum(Accuracies(results)), n)))
  }

  /** Each video weighs the same: the overall accuracy lies between any bounds that hold
      for every per-video accuracy. */
  lemma AveragesBetweenExtremes(results: seq<EvaluationResult>, lo: real, hi: real)
    requires results != []
    requires forall i | 0 <= i < |results| :: lo <= results[i].accuracy <= hi
    ensures lo <= Averages(results).value.avgAccuracy <= hi
  {
    MeanBounds(Accuracies(results), lo, hi);
  }

  /** A result whose scores are the reference scores of its own predicted and ground-truth maps. */
  ghost predicate WellScored(r: EvaluationResult)
  {
    && r.mae == MeanAbsoluteError(r.predicted, r.groundTruth)
    && r.mape == MeanPercentageError(r.predicted, r.groundTruth)
    && r.accuracy == Accuracy(r.predicted, r.groundTruth)
  }

  /** Every result of the list is well scored. */
  ghost predicate AllWellScored(results: seq<EvaluationResult>)
  {
    forall i | 0 <= i < |results| :: WellScored(results[i])
  }

  /** Joining two well-scored lists gives a well-scored list. */
  lemma AllWellScoredAppend(a: seq<EvaluationResult>, b: seq<EvaluationResult>)
    requires AllWellScored(a) && AllWellScored(b)
    ensures AllWellScored(a + b)
  {
  }

  /** Every result `calculate_metrics` produces is well scored. */
  lemma MetricsWellScored(predicted: Counts, gt: GroundTruth, videoName: string)
    ensures WellScored(Metrics(predicted, gt, videoName))
    ensures Metrics(predicted, gt, videoName).predicted == predicted
    ensures Metrics(predicted, gt, videoName).groundTruth == gt
  {
  }

  /** Averages over well-scored results stay in range too: both error means are
      non-negative and the overall accuracy lies in [0, 100]. */
  lemma AveragesInRange(results: seq<EvaluationResult>)
    requires results != []
    requires forall i | 0 <= i < |results| :: WellScored(results[i])
    ensures Averages(results).value.avgMae >= 0.0
    ensures Averages(results).value.avgMape >= 0.0
    ensures 0.0 <= Averages(results).value.avgAccuracy <= 100.0
  {
    AverageMaeNonNegative(results);
    AverageMapeNonNegative(results);
    AverageAccuracyInRange(results);
  }

  /** The overall averages of well-scored results exist exactly when there are results, and
      then lie in their ranges. */
  lemma OverallInRange(results: seq<EvaluationResult>)
    requires AllWellScored(results)
    ensures Averages(results).None? <==> results == []
    ensures Averages(results).Some? ==>
      && Averages(results).value.avgMae >= 0.0
      && Averages(results).value.avgMape >= 0.0
      && 0.0 <= Averages(results).value.avgAccuracy <= 100.0
  {
    if results != [] {
      AveragesInRange(results);
    }
  }

  lemma AverageMaeNonNegative(results: seq<EvaluationResult>)
    requires results != []
    requires forall i | 0 <= i < |results| :: WellScored(results[i])
    ensures Averages(results).value.avgMae >= 0.0
  {
    forall i | 0 <= i < |results|
      ensures Maes(results)[i] >= 0.0
    {
      MaeNonNegative(results[i].predicted, results[i].groundTruth);
    }
    MeanNonNegative(Maes(results));
  }

  lemma AverageMapeNonNegative(results: seq<EvaluationResult>)
    requires results != []
    requires forall i | 0 <= i < |results| :: WellScored(results[i])
    ensures Averages(results).value.avgMape >= 0.0
  {
    forall i | 0 <= i < |results|
      ensures Mapes(results)[i] >= 0.0
    {
      MapeNonNegative(results[i].predicted, results[i].groundTruth);
    }
    MeanNonNegative(Mapes(results));
  }

  lemma AverageAccuracyInRange(results: seq<EvaluationResult>)
    requires results != []
    requires forall i | 0 <= i < |results| :: WellScored(results[i])
    ensures 0.0 <= Averages(results).value.avgAccuracy <= 100.0
  {
    forall i | 0 <= i < |results|
      ensures 0.0 <= Accuracies(results)[i] <= 100.0
    {
      AccuracyBounds(results[i].predicted, results[i].groundTruth);
    }
    MeanBounds(Accuracies(results), 0.0, 100.0);
  }

  /** The per-frame counts a detector with this allow-list reports for each frame of a video. */
  function VideoCounts(frames: seq<seq<Box>>, cocoIds: set<int>, names: set<ClassName>): (r: seq<Counts>)
    ensures |r| == |frames|
  {
    if frames == [] then []
    else VideoCounts(frames[..|frames| - 1], cocoIds, names) + [FrameCounts(frames[|frames| - 1], cocoIds, names)]
  }

  /** One more frame adds its counts to the video's list and raises the maxima by them. */
  lemma VideoStep(frames: seq<seq<Box>>, i: nat, cocoIds: set<int>, names: set<ClassName>)
    requires i < |frames|
    ensures VideoCounts(frames[..i + 1], cocoIds, names) ==
      VideoCounts(frames[..i], cocoIds, names) + [FrameCounts(frames[i], cocoIds, names)]
    ensures MaxOverFrames(VideoCounts(frames[..i + 1], cocoIds, names)) ==
      MaxUpdate(MaxOverFrames(VideoCounts(frames[..i], cocoIds, names)), FrameCounts(frames[i], cocoIds, names))
  {
    assert frames[..i + 1][..i] == frames[..i];
    var seen := VideoCounts(frames[..i], cocoIds, names);
    assert (seen + [FrameCounts(frames[i], cocoIds, names)])[..|seen|] == seen;
  }

  /** The result `evaluate_video` produces for an openable video. */
  ghost function VideoResult(frames: seq<seq<Box>>, gt: GroundTruth, videoPath: string, cocoIds: set<int>, names: set<ClassName>): EvaluationResult
  {
    Metrics(MaxOverFrames(VideoCounts(frames, cocoIds, names)), gt, videoPath)
  }

  /** Whether a ground-truth entry's video exists and can be opened. */
  predicate Evaluable(path: string, videos: map<string, VideoSource>)
  {
    path in videos && videos[path].Some?
  }

  /** The results `evaluate_all` appends: one per ground-truth entry whose video exists and
      opens, in file order; a missing path and an unopenable video are both skipped. */
  ghost function BatchResults(entries: seq<(string, GroundTruth)>, videos: map<string, VideoSource>,
                              cocoIds: set<int>, names: set<ClassName>): (r: seq<EvaluationResult>)
    ensures |r| <= |entries|
  {
    if entries == [] then []
    else
      var prev := BatchResults(entries[..|entries| - 1], videos, cocoIds, names);
      var (path, gt) := entries[|entries| - 1];
      if Evaluable(path, videos) then prev + [VideoResult(videos[path].value, gt, path, cocoIds, names)]
      else prev
  }

  /** The frame counts the detector sees during `evaluate_all`, video after video. */
  function BatchFrames(entries: seq<(string, GroundTruth)>, videos: map<string, VideoSource>,
                       cocoIds: set<int>, names: set<ClassName>): seq<Counts>
  {
    if entries == [] then []
    else
      var prev := BatchFrames(entries[..|entries| - 1], videos, cocoIds, names);
      var path := entries[|entries| - 1].0;
      if Evaluable(path, videos) then prev + VideoCounts(videos[path].value, cocoIds, names) else prev
  }

  /** One more entry adds its result and its frames exactly when its video exists and opens. */
  lemma BatchStep(entries: seq<(string, GroundTruth)>, i: nat, videos: map<string, VideoSource>,
                  cocoIds: set<int>, names: set<ClassName>)
    requires i < |entries|
    ensures var (path, gt) := entries[i];
      && BatchResults(entries[..i + 1], videos, cocoIds, names) ==
         BatchResults(entries[..i], videos, cocoIds, names) +
         (if Evaluable(path, videos) then [VideoResult(videos[path].value, gt, path, cocoIds, names)] else [])
      && BatchFrames(entries[..i + 1], videos, cocoIds, names) ==
         BatchFrames(entries[..i], videos, cocoIds, names) +
         (if Evaluable(path, videos) then VideoCounts(videos[path].value, cocoIds, names) else [])
  {
    assert entries[..i + 1][..i] == entries[..i];
  }

  /** Every result `evaluate_all` appends is well scored. */
  lemma {:induction false} BatchWellScored(entries: seq<(string, GroundTruth)>, videos: map<string, VideoSource>,
                                           cocoIds: set<int>, names: set<ClassName>)
    ensures AllWellScored(BatchResults(entries, videos, cocoIds, names))
  {
    if entries != [] {
      var init := entries[..|entries| - 1];
      var (path, gt) := entries[|entries| - 1];
      BatchWellScored(init, videos, cocoIds, names);
      if Evaluable(path, videos) {
        MetricsWellScored(MaxOverFrames(VideoCounts(videos[path].value, cocoIds, names)), gt, path);
      }
    }
  }

  /** Both error means are non-negative and the overall accuracy lies in [0, 100]. */
  predicate InRange(overall: Option<Overall>)
  {
    overall.Some? ==>
      && overall.value.avgMae >= 0.0
      && overall.value.avgMape >= 0.0
      && 0.0 <= overall.value.avgAccuracy <= 100.0
  }

  /** Results appended by `evaluate_all` to well-scored ones stay well scored, and their
      overall averages lie in range. */
  lemma BatchOverallInRange(prev: seq<EvaluationResult>, entries: seq<(string, GroundTruth)>,
                            videos: map<string, VideoSource>, cocoIds: set<int>, names: set<ClassName>)
    requires AllWellScored(prev)
    ensures AllWellScored(prev + BatchResults(entries, videos, cocoIds, names))
    ensures InRange(Averages(prev + BatchResults(entries, videos, cocoIds, names)))
  {
    var batch := BatchResults(entries, videos, cocoIds, names);
    BatchWellScored(entries, videos, cocoIds, names);
    AllWellScoredAppend(prev, batch);
    OverallInRange(prev + batch);
  }

  /** The indices of the entries that yield a result. */
  function EvaluableIndices(entries: seq<(string, GroundTruth)>, videos: map<string, VideoSource>): set<nat>
  {
    set i: nat | i < |entries| && Evaluable(entries[i].0, videos)
  }

  /** Exactly the entries whose video exists and opens contribute a result, so skipped
      videos are not in the denominator of the overall averages. */
  lemma {:induction false} BatchCountsEvaluable(entries: seq<(string, GroundTruth)>, videos: map<string, VideoSource>,
                                                cocoIds: set<int>, names: set<ClassName>)
    ensures |BatchResults(entries, videos, cocoIds, names)| == |EvaluableIndices(entries, videos)|
  {
    if entries != [] {
      var n := |entries| - 1;
      BatchCountsEvaluable(entries[..n], videos, cocoIds, names);
      BatchResultsStep(entries, videos, cocoIds, names);
      EvaluableIndicesStep(entries, videos);
    }
  }

  lemma BatchResultsStep(entries: seq<(string, GroundTruth)>, videos: map<string, VideoSource>,
                         cocoIds: set<int>, names: set<ClassName>)
    requires entries != []
    ensures |BatchResults(entries, videos, cocoIds, names)| ==
      |BatchResults(entries[..|entries| - 1], videos, cocoIds, names)| + (if Evaluable(entries[|entries| - 1].0, videos) then 1 else 0)
  {
  }

  lemma EvaluableIndicesStep(entries: seq<(string, GroundTruth)>, videos: map<string, VideoSource>)
    requires entries != []
    ensures var n := |entries| - 1;
      |EvaluableIndices(entries, videos)| ==
      |EvaluableIndices(entries[..n], videos)| + (if Evaluable(entries[n].0, videos) then 1 else 0)
  {
    var n := |entries| - 1;
    var before := EvaluableIndices(entries[..n], videos);
    if Evaluable(entries[n].0, videos) {
      assert EvaluableIndices(entries, videos) == before + {n};
    } else {
      assert EvaluableIndices(entries, videos) == before;
    }
  }

  /** `CountingEvaluator`: a detector and the list of results evaluated so far. */
  class CountingEvaluator {
    const detector: AnimalDetector
    var results: seq<EvaluationResult>

    /** The detector is consistent. */
    ghost predicate Valid()
      reads this, detector
    {
      detector.Valid()
    }

    constructor (classes: seq<AnimalConfig>)
      ensures Valid() && fresh(detector)
      ensures results == [] && detector.history == []
      ensures AllWellScored(results)
      ensures detector.animalClasses.Keys == set i | 0 <= i < |classes| :: classes[i].name
      ensures detector.cocoIds == set i | 0 <= i < |classes| :: classes[i].cocoId
    {
      detector := new AnimalDetector(classes);
      results := [];
    }

    /** `evaluate_video`: None and no new result when the video cannot be opened; otherwise
        the maxima over all frames are scored and exactly one result is appended. */
    method EvaluateVideo(source: VideoSource, groundTruth: GroundTruth, videoPath: string)
      returns (r: Option<EvaluationResult>)
      requires Valid()
      modifies this, detector
      ensures Valid()
      ensures source.None? ==> r.None? && results == old(results) && unchanged(detector)
      ensures source.Some? ==>
        && r == Some(VideoResult(source.value, groundTruth, videoPath, detector.cocoIds, detector.animalClasses.Keys))
        && results == old(results) + [r.value]
        && detector.history == old(detector.history) + VideoCounts(source.value, detector.cocoIds, detector.animalClasses.Keys)
      ensures AllWellScored(old(results)) ==> AllWellScored(results)
    {
      if source.None? {
        return None;
      }
      var maxCounts := ScanFrames(source.value);
      var result := CalculateMetrics(maxCounts, groundTruth, videoPath);
      MetricsWellScored(maxCounts, groundTruth, videoPath);
      results := results + [result];
      r := Some(result);
    }

    /** The frame loop of `evaluate_video`: every frame goes through the detector, and the
        per-class maxima over the video are kept apart from the detector's own. */
    method ScanFrames(frames: seq<seq<Box>>) returns (maxCounts: Counts)
      requires Valid()
      modifies detector
      ensures Valid()
      ensures detector.history == old(detector.history) + VideoCounts(frames, detector.cocoIds, detector.animalClasses.Keys)
      ensures maxCounts == MaxOverFrames(VideoCounts(frames, detector.cocoIds, detector.animalClasses.Keys))
    {
      ghost var names := detector.animalClasses.Keys;
      maxCounts := map[];
      var i := 0;
      while i < |frames|
        invariant 0 <= i <= |frames|
        invariant detector.Valid()
        invariant detector.history == old(detector.history) + VideoCounts(frames[..i], detector.cocoIds, names)
        invariant maxCounts == MaxOverFrames(VideoCounts(frames[..i], detector.cocoIds, names))
      {
        var _, counts := detector.DetectFrame(frames[i]);
        VideoStep(frames, i, detector.cocoIds, names);
        maxCounts := RaiseMaxima(maxCounts, counts);
        i := i + 1;
      }
      assert frames[..|frames|] == frames;
    }

    /** `evaluate_all`: evaluates every ground-truth entry in order, skipping paths that do
        not exist, then yields the overall averages of all results. */
    method EvaluateAll(entries: seq<(string, GroundTruth)>, videos: map<string, VideoSource>)
      returns (overall: Option<Overall>)
      requires Valid()
      modifies this, detector
      ensures Valid()
      ensures results == old(results) + BatchResults(entries, videos, detector.cocoIds, detector.animalClasses.Keys)
      ensures detector.history == old(detector.history) + BatchFrames(entries, videos, detector.cocoIds, detector.animalClasses.Keys)
      ensures overall == Averages(results)
      ensures overall.None? <==> results == []
      ensures AllWellScored(old(results)) ==> InRange(overall)
    {
      ghost var names := detector.animalClasses.Keys;
      var i := 0;
      while i < |entries|
        invariant 0 <= i <= |entries|
        invariant Valid()
        invariant results == old(results) + BatchResults(entries[..i], videos, detector.cocoIds, names)
        invariant detector.history == old(detector.history) + BatchFrames(entries[..i], videos, detector.cocoIds, names)
      {
        var videoPath := entries[i].0;
        var gtCounts := entries[i].1;
        BatchStep(entries, i, videos, detector.cocoIds, names);
        if videoPath in videos {
          var r := EvaluateVideo(videos[videoPath], gtCounts, videoPath);
          if r.Some? {
            AppendAssoc(old(results), BatchResults(entries[..i], videos, detector.cocoIds, names), [r.value]);
            AppendAssoc(old(detector.history), BatchFrames(entries[..i], videos, detector.cocoIds, names),
              VideoCounts(videos[videoPath].value, detector.cocoIds, names));
          }
        }
        i := i + 1;
      }
      assert entries[..|entries|] == entries;
      overall := Averages(results);
      if AllWellScored(old(results)) {
        BatchOverallInRange(old(results), entries, videos, detector.cocoIds, names);
      }
    }
  }
}
