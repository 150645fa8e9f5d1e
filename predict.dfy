/**
 * Batch prediction in src/predict.py: the target column is dropped, the encoded frame is
 * aligned with the training features, the network's probabilities are thresholded and
 * each is given a risk level. One-hot encoding (`pd.get_dummies`) and the scaler plus
 * network are the parameters `encode` and `score`.
 */
module Predict {
  import opened JsonValues
  import opened Frames
  import App

  /** `risk_level(prob)`: LOW below 0.3, MEDIUM below 0.7, HIGH from 0.7. */
  function RiskLevel(prob: real): (level: string)
    ensures level in {"LOW", "MEDIUM", "HIGH"}
    ensures level == "LOW" <==> prob < 0.3
    ensures level == "MEDIUM" <==> 0.3 <= prob < 0.7
    ensures level == "HIGH" <==> prob >= 0.7
  {
    if prob < 0.3 then "LOW"
    else if prob < 0.7 then "MEDIUM"
    else "HIGH"
  }

  function LevelRank(level: string): nat {
    if level == "HIGH" then 2 else if level == "MEDIUM" then 1 else 0
  }

  lemma RiskLevelMonotone(p: real, q: real)
    requires p <= q
    ensures LevelRank(RiskLevel(p)) <= LevelRank(RiskLevel(q))
  {
  }

  /** The same tier in the spelling of src/app.py. */
  function AppSpelling(level: string): string {
    if level == "HIGH" then "High" else if level == "MEDIUM" then "Medium" else "Low"
  }

  /**
   * The two tierings agree everywhere except on [0.3, 0.4), where this one says MEDIUM
   * and the web front end says Low.
   */
  lemma TieringsDisagreeOnlyBelowPointFour(prob: real)
    ensures AppSpelling(RiskLevel(prob)) == App.GetRiskLevel(prob) <==> !(0.3 <= prob < 0.4)
    ensures 0.3 <= prob < 0.4 ==> RiskLevel(prob) == "MEDIUM" && App.GetRiskLevel(prob) == "Low"
  {
  }

  /** `(probs >= threshold).astype(int)` for one probability. */
  function ChurnPrediction(prob: real, threshold: real): (p: int)
    ensures p == 0 || p == 1
    ensures p == 1 <==> prob >= threshold
  {
    if prob >= threshold then 1 else 0
  }

  /** The frame written to the output file: aligned features plus the three result columns. */
  datatype ChurnOutput = ChurnOutput(features: Frame, probability: seq<real>, prediction: seq<int>, riskLevel: seq<string>)

  /** `predict_churn`, from the loaded input frame to the rows it saves. */
  method PredictChurn(df: Frame, encode: Frame -> Frame, featureList: seq<string>, score: Frame -> seq<real>, threshold: real)
    returns (out: ChurnOutput)
    requires df.Valid()
    requires encode(DropColumnIfPresent(df, "Churn")).Valid()
    requires forall f: Frame :: |score(f)| == |f.rows|
    ensures var enc := encode(DropColumnIfPresent(df, "Churn"));
      && out.features.Valid() && out.features.columns == featureList && |out.features.rows| == |enc.rows|
      && (forall i, c :: 0 <= i < |enc.rows| && c in featureList ==>
            out.features.rows[i][c] == if c in enc.columns then enc.rows[i][c] else JInt(0))
    ensures out.probability == score(out.features)
    ensures |out.prediction| == |out.riskLevel| == |out.probability| == |out.features.rows|
    ensures forall i :: 0 <= i < |out.probability| ==>
      out.prediction[i] == ChurnPrediction(out.probability[i], threshold) && out.riskLevel[i] == RiskLevel(out.probability[i])
  {
    var frame := df;
    if "Churn" in frame.columns {
      frame := DropColumnIfPresent(frame, "Churn");
    }
    frame := encode(frame);
    frame := AlignFeatures(frame, featureList);
    var probs := score(frame);
    var predictions := seq(|probs|, i requires 0 <= i < |probs| => ChurnPrediction(probs[i], threshold));
    var levels := seq(|probs|, i requires 0 <= i < |probs| => RiskLevel(probs[i]));
    out := ChurnOutput(frame, probs, predictions, levels);
  }
}
