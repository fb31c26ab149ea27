/**
 * The two prediction tabs: the risk-score regression with its clipped score,
 * two most important features and bucket sentence, and the loan-approval
 * classification with its verdict, approval probability, three strongest
 * SHAP contributors and verdict sentence.
 *
 * The fitted scaler, the models and the SHAP explainer are parameters: only
 * what the page does with their outputs is modelled.
 */
module Prediction {
  import opened Results
  import opened Encoding
  import opened Ranking
  import opened Narrative

  /** The ways the page's calls fail, each where Python would raise. */
  datatype Error =
    | ScaledWidthMismatch(expected: nat, actual: nat)      // DataFrame(scaled, columns=cols): shape differs
    | ImportanceLengthMismatch(expected: nat, actual: nat) // DataFrame of names and importances: lengths differ
    | MissingPositiveProbability                           // predict_proba(...)[0][1] out of range
    | MissingPositiveClass                                 // shap_values[1] on a shorter list
    | MissingShapRow                                       // shap_values_used[0] on no rows
    | ShapLengthMismatch(expected: nat, actual: nat)       // DataFrame of names and SHAP values: lengths differ

  /** What `explainer.shap_values` returns: one matrix per class, or a single matrix. */
  datatype ShapOutput =
    | PerClass(classes: seq<seq<seq<real>>>)
    | Single(rows: seq<seq<real>>)

  datatype RiskResult = RiskResult(score: real, bucket: RiskBucket, topFeatures: seq<string>, reason: string)

  datatype ApprovalResult = ApprovalResult(
    approved: bool,
    resultText: string,
    probability: real,
    topFeatures: seq<string>,
    mainFactor: string,
    reason: string)

  function Max(a: real, b: real): real {
    if a < b then b else a
  }

  function Min(a: real, b: real): real {
    if a < b then a else b
  }

  /**
   * `np.clip(x, lo, hi)`: the result lies in `[lo, hi]`, is `x` itself when `x`
   * already does, and is the nearer bound otherwise.
   */
  function Clip(x: real, lo: real, hi: real): (y: real)
    requires lo <= hi
    ensures lo <= y <= hi
    ensures lo <= x <= hi ==> y == x
    ensures x < lo ==> y == lo
    ensures hi < x ==> y == hi
  {
    Min(Max(x, lo), hi)
  }

  /**
   * The two risk drivers: the first two rows of the importance frame sorted by
   * descending importance. They are distinct columns, in non-increasing
   * importance, and no other column is more important than the second.
   */
  function RiskDrivers(importances: seq<real>): (top: seq<nat>)
    requires |importances| == |RiskCols|
    ensures |top| == 2 && top[0] < |importances| && top[1] < |importances| && top[0] != top[1]
    ensures importances[top[0]] >= importances[top[1]]
    ensures forall c :: 0 <= c < |importances| && c !in top ==> importances[c] <= importances[top[1]]
  {
    var ranked := SortDescending(importances);
    TopKOfRanking(importances, ranked, 2);
    Head(ranked, 2)
  }

  /**
   * The three approval drivers: the first three rows of the SHAP frame sorted
   * by descending absolute value. They are distinct columns, in non-increasing
   * |SHAP| order, and no other column has a larger |SHAP| than the third.
   */
  function ApprovalDrivers(shap: seq<real>): (top: seq<nat>)
    requires |shap| == |ApprovalCols|
    ensures |top| == 3 && top[0] < |shap| && top[1] < |shap| && top[2] < |shap|
    ensures top[0] != top[1] && top[0] != top[2] && top[1] != top[2]
    ensures Abs(shap[top[0]]) >= Abs(shap[top[1]]) >= Abs(shap[top[2]])
    ensures forall c :: 0 <= c < |shap| && c !in top ==> Abs(shap[c]) <= Abs(shap[top[2]])
  {
    var magnitudes := AbsAll(shap);
    var ranked := SortDescending(magnitudes);
    TopKOfRanking(magnitudes, ranked, 3);
    var top := ranked[..3];
    assert top[0] != top[1] && top[0] != top[2] && top[1] != top[2];
    assert magnitudes[top[0]] >= magnitudes[top[1]] >= magnitudes[top[2]];
    top
  }

  /**
   * Whatever order the sort leaves equally important columns in, its first two
   * rows carry the same importances as the two drivers chosen here.
   */
  lemma RiskDriversTieInsensitive(importances: seq<real>, sorted: seq<nat>)
    requires |importances| == |RiskCols|
    requires IsDescendingRanking(importances, sorted)
    ensures importances[sorted[0]] == importances[RiskDrivers(importances)[0]]
    ensures importances[sorted[1]] == importances[RiskDrivers(importances)[1]]
  {
    RankingScoresUnique(importances, sorted, SortDescending(importances));
  }

  /**
   * Whatever order the sort leaves columns of equal |SHAP| in, its first three
   * rows carry the same |SHAP| as the three drivers chosen here.
   */
  lemma ApprovalDriversTieInsensitive(shap: seq<real>, sorted: seq<nat>)
    requires |shap| == |ApprovalCols|
    requires IsDescendingRanking(AbsAll(shap), sorted)
    ensures forall i :: 0 <= i < 3 ==> Abs(shap[sorted[i]]) == Abs(shap[ApprovalDrivers(shap)[i]])
  {
    RankingScoresUnique(AbsAll(shap), sorted, SortDescending(AbsAll(shap)));
  }

  /** Column names of the given rows. */
  function FeatureNames(cols: seq<string>, rows: seq<nat>): (names: seq<string>)
    requires forall i :: 0 <= i < |rows| ==> rows[i] < |cols|
    ensures |names| == |rows|
    ensures forall i :: 0 <= i < |rows| ==> names[i] == cols[rows[i]]
  {
    seq(|rows|, i requires 0 <= i < |rows| => cols[rows[i]])
  }

  /**
   * The SHAP values of the positive class for the one input row: the second
   * matrix's first row when the explainer returns one matrix per class, the
   * first row of the matrix otherwise.
   */
  function PositiveClassRow(values: ShapOutput): (r: Result<seq<real>, Error>)
    ensures values.PerClass? ==>
      if |values.classes| < 2 then r == Failure(MissingPositiveClass)
      else if |values.classes[1]| == 0 then r == Failure(MissingShapRow)
      else r == Success(values.classes[1][0])
    ensures values.Single? ==>
      r == if |values.rows| == 0 then Failure(MissingShapRow) else Success(values.rows[0])
  {
    var used := match values
      case PerClass(classes) => if |classes| < 2 then None else Some(classes[1])
      case Single(rows) => Some(rows);
    if used.None? then Failure(MissingPositiveClass)
    else if |used.value| == 0 then Failure(MissingShapRow)
    else Success(used.value[0])
  }

  /**
   * The risk-scoring tab after submission. It fails exactly when the scaled row
   * or the importances do not have one entry per column. Otherwise the score is
   * the clipped prediction; the bucket is the score's, with High meaning a
   * score from 70 to 100; the two drivers are distinct columns ranked by
   * importance; and the sentence is the bucket's, naming both drivers.
   */
  function ScoreRisk(
    form: RiskForm,
    scale: seq<real> -> seq<real>,
    predict: seq<real> -> real,
    importances: seq<real>): (r: Result<RiskResult, Error>)
    ensures r.Failure? <==> |scale(RiskRow(form))| != |RiskCols| || |importances| != |RiskCols|
    ensures r.Success? ==>
      var raw := predict(scale(RiskRow(form)));
      var result := r.value;
      && 0.0 <= result.score <= 100.0
      && (0.0 <= raw <= 100.0 ==> result.score == raw)
      && (raw < 0.0 ==> result.score == 0.0)
      && (100.0 < raw ==> result.score == 100.0)
      && result.bucket == BucketOf(result.score)
      && (result.bucket == High ==> 70.0 <= result.score <= 100.0)
      && result.topFeatures == FeatureNames(RiskCols, RiskDrivers(importances))
      && |result.topFeatures| == 2 && result.topFeatures[0] != result.topFeatures[1]
      && result.reason == RiskReason(result.bucket, result.topFeatures[0], result.topFeatures[1])
  {
    var scaled := scale(RiskRow(form));
    if |scaled| != |RiskCols| then Failure(ScaledWidthMismatch(|RiskCols|, |scaled|))
    else
      var score := Clip(predict(scaled), 0.0, 100.0);
      if |importances| != |RiskCols| then Failure(ImportanceLengthMismatch(|RiskCols|, |importances|))
      else
        var top := FeatureNames(RiskCols, RiskDrivers(importances));
        RiskColsDistinct();
        var bucket := BucketOf(score);
        Success(RiskResult(score, bucket, top, RiskReason(bucket, top[0], top[1])))
  }

  /**
   * The loan-approval tab after submission. On success the verdict is
   * "approved" exactly when the predicted label is 1; the probability shown is
   * the positive class's; the three drivers are distinct columns ranked by
   * |SHAP| of the positive class; the main factor is the first of them; and
   * the sentence is the verdict's, naming the three drivers.
   */
  function DecideApproval(
    form: ApprovalForm,
    scale: seq<real> -> seq<real>,
    predict: seq<real> -> int,
    predictProba: seq<real> -> seq<real>,
    explain: seq<real> -> ShapOutput): (r: Result<ApprovalResult, Error>)
    ensures r.Success? ==>
      var scaled := scale(ApprovalRow(form));
      var result := r.value;
      && |scaled| == |ApprovalCols|
      && (result.approved <==> predict(scaled) == 1)
      && result.resultText == ResultText(predict(scaled))
      && |predictProba(scaled)| >= 2 && result.probability == predictProba(scaled)[1]
      && PositiveClassRow(explain(scaled)).Success?
      && |PositiveClassRow(explain(scaled)).value| == |ApprovalCols|
      && result.topFeatures == FeatureNames(ApprovalCols, ApprovalDrivers(PositiveClassRow(explain(scaled)).value))
      && |result.topFeatures| == 3 && result.mainFactor == result.topFeatures[0]
      && result.topFeatures[0] != result.topFeatures[1] && result.topFeatures[0] != result.topFeatures[2]
      && result.topFeatures[1] != result.topFeatures[2]
      && result.reason == ApprovalReason(result.approved, result.mainFactor, result.topFeatures[1], result.topFeatures[2])
    ensures r.Failure? ==>
      var scaled := scale(ApprovalRow(form));
      || |scaled| != |ApprovalCols|
      || |predictProba(scaled)| < 2
      || PositiveClassRow(explain(scaled)).Failure?
      || |PositiveClassRow(explain(scaled)).value| != |ApprovalCols|
  {
    var scaled := scale(ApprovalRow(form));
    if |scaled| != |ApprovalCols| then Failure(ScaledWidthMismatch(|ApprovalCols|, |scaled|))
    else
      var predicted := predict(scaled);
      var probabilities := predictProba(scaled);
      if |probabilities| < 2 then Failure(MissingPositiveProbability)
      else
        var approved := predicted == 1;
        var shapRow := PositiveClassRow(explain(scaled));
        if shapRow.Failure? then Failure(shapRow.error)
        else if |shapRow.value| != |ApprovalCols| then Failure(ShapLengthMismatch(|ApprovalCols|, |shapRow.value|))
        else
          var drivers := ApprovalDrivers(shapRow.value);
          var top := FeatureNames(ApprovalCols, drivers);
          ApprovalColsDistinct();
          var result := ApprovalResult(approved, ResultText(predicted), probabilities[1], top, top[0],
                                       ApprovalReason(approved, top[0], top[1], top[2]));
          Success(result)
  }

  /**
   * The verdict, its line, the drivers and the sentence depend on the predicted
   * label and the SHAP values only: two classifiers that agree on the label
   * but report different probabilities succeed or fail alike and produce the
   * same explanation.
   */
  lemma ApprovalIgnoresProbability(
    form: ApprovalForm,
    scale: seq<real> -> seq<real>,
    predict: seq<real> -> int,
    proba1: seq<real> -> seq<real>,
    proba2: seq<real> -> seq<real>,
    explain: seq<real> -> ShapOutput)
    requires |proba1(scale(ApprovalRow(form)))| >= 2 && |proba2(scale(ApprovalRow(form)))| >= 2
    ensures
      var r1, r2 := DecideApproval(form, scale, predict, proba1, explain),
                    DecideApproval(form, scale, predict, proba2, explain);
      && r1.Success? == r2.Success?
      && (r1.Success? ==>
            && r1.value.approved == r2.value.approved && r1.value.resultText == r2.value.resultText
            && r1.value.topFeatures == r2.value.topFeatures && r1.value.mainFactor == r2.value.mainFactor
            && r1.value.reason == r2.value.reason)
  {
  }
}
