/**
 * The decision logic of the Flask front end in src/app.py: risk tiers and retention
 * strategies for a churn probability, the summary record logged for each upload in the
 * flat ledger file, and what the dashboard and alerts pages read back from that file.
 */
module App {
  import opened Wrappers
  import opened JsonValues
  import opened Frames

  // ---------------------------------------------------------------- risk tiers

  /** `get_risk_level(prob)`: High from 0.7, Medium from 0.4, Low below. */
  function GetRiskLevel(prob: real): (level: string)
    ensures level in {"High", "Medium", "Low"}
    ensures level == "High" <==> prob >= 0.7
    ensures level == "Medium" <==> 0.4 <= prob < 0.7
    ensures level == "Low" <==> prob < 0.4
  {
    if prob >= 0.7 then "High"
    else if prob >= 0.4 then "Medium"
    else "Low"
  }

  function TierRank(level: string): nat {
    if level == "High" then 2 else if level == "Medium" then 1 else 0
  }

  /** A larger probability never yields a lower tier. */
  lemma RiskLevelMonotone(p: real, q: real)
    requires p <= q
    ensures TierRank(GetRiskLevel(p)) <= TierRank(GetRiskLevel(q))
  {
  }

  // ---------------------------------------------------------------- retention strategy

  /**
   * The fields of a customer row that the strategy looks at; None when the uploaded
   * file has no such column (`hasattr` is false).
   */
  datatype CustomerRow = CustomerRow(monthlyCharges: Option<real>, contract: Option<Cell>)

  const DiscountOffer := "Offer 25% Discount + Dedicated Support Call"
  const ContractUpgrade := "Offer 1-Year Contract Upgrade with Discount"
  const TeamIntervention := "Immediate Retention Team Intervention"
  const LoyaltyPoints := "Send Loyalty Points + Targeted Promotion Email"
  const PremiumUpsell := "Upsell Premium Plan + Appreciation Offer"

  /** `get_retention_strategy(prob, row)`. */
  function GetRetentionStrategy(prob: real, row: CustomerRow): (strategy: string)
    ensures prob >= 0.7 && row.monthlyCharges.Some? && row.monthlyCharges.value > 80.0 ==> strategy == DiscountOffer
    ensures prob >= 0.7 && !(row.monthlyCharges.Some? && row.monthlyCharges.value > 80.0) ==>
      strategy == (if row.contract == Some(JStr("Month-to-month")) then ContractUpgrade else TeamIntervention)
  {
    if prob >= 0.7 then
      if row.monthlyCharges.Some? && row.monthlyCharges.value > 80.0 then DiscountOffer
      else if row.contract.Some? && row.contract.value == JStr("Month-to-month") then ContractUpgrade
      else TeamIntervention
    else if prob >= 0.4 then LoyaltyPoints
    else PremiumUpsell
  }

  /**
   * The strategy tier matches the risk tier: the loyalty offer exactly for Medium risk,
   * the upsell exactly for Low risk, one of the three intervention offers exactly for High.
   */
  lemma StrategyFollowsRiskTier(prob: real, row: CustomerRow)
    ensures GetRetentionStrategy(prob, row) == LoyaltyPoints <==> GetRiskLevel(prob) == "Medium"
    ensures GetRetentionStrategy(prob, row) == PremiumUpsell <==> GetRiskLevel(prob) == "Low"
    ensures GetRetentionStrategy(prob, row) in {DiscountOffer, ContractUpgrade, TeamIntervention}
        <==> GetRiskLevel(prob) == "High"
  {
  }

  /** Below 0.7 the row is not consulted. */
  lemma StrategyIgnoresRowBelowHigh(prob: real, row1: CustomerRow, row2: CustomerRow)
    requires prob < 0.7
    ensures GetRetentionStrategy(prob, row1) == GetRetentionStrategy(prob, row2)
  {
  }

  // ---------------------------------------------------------------- the upload record

  /** `sum(levels == level)`. */
  function CountOf(levels: seq<string>, level: string): (n: nat)
    ensures n <= |levels|
  {
    if levels == [] then 0 else (if levels[0] == level then 1 else 0) + CountOf(levels[1..], level)
  }

  /** The "Risk" column: one level per predicted probability. */
  function RiskColumn(probs: seq<real>): (levels: seq<string>)
    ensures |levels| == |probs|
    ensures forall i :: 0 <= i < |probs| ==> levels[i] == GetRiskLevel(probs[i])
  {
    if probs == [] then [] else [GetRiskLevel(probs[0])] + RiskColumn(probs[1..])
  }

  /** The first-column values of the rows whose risk is High, in row order. */
  function HighRiskIds(ids: seq<Cell>, levels: seq<string>): (r: seq<Cell>)
    requires |ids| == |levels|
  {
    if ids == [] then []
    else (if levels[0] == "High" then [ids[0]] else []) + HighRiskIds(ids[1..], levels[1..])
  }

  /** `df_original.iloc[:, 0]`. */
  function FirstColumn(df: Frame): (col: seq<Cell>)
    requires df.Valid() && |df.columns| > 0
    ensures |col| == |df.rows|
  {
    assert df.columns[0] in df.columns;
    seq(|df.rows|, i requires 0 <= i < |df.rows| => df.rows[i][df.columns[0]])
  }

  /** The labels the upload handler writes into the uploaded frame. */
  const ResultColumns := {"Probability", "Prediction", "Risk", "Strategy"}

  /** The summary record appended to the flat ledger for one upload. */
  function UploadRecord(fileName: string, timestamp: string, df: Frame, probs: seq<real>): map<string, Json>
    requires df.Valid() && |df.columns| > 0 && df.columns[0] !in ResultColumns
    requires |probs| == |df.rows|
  {
    var levels := RiskColumn(probs);
    map[
      "file" := JStr(fileName),
      "timestamp" := JStr(timestamp),
      "total_customers" := JInt(|df.rows|),
      "high_risk" := JInt(CountOf(levels, "High")),
      "medium_risk" := JInt(CountOf(levels, "Medium")),
      "low_risk" := JInt(CountOf(levels, "Low")),
      "high_risk_ids" := JArr(HighRiskIds(FirstColumn(df), levels))
    ]
  }

  lemma {:induction false} TiersPartition(probs: seq<real>)
    ensures var levels := RiskColumn(probs);
      CountOf(levels, "High") + CountOf(levels, "Medium") + CountOf(levels, "Low") == |probs|
    decreases |probs|
  {
    if probs != [] {
      TiersPartition(probs[1..]);
    }
  }

  lemma {:induction false} HighRiskIdsCount(ids: seq<Cell>, levels: seq<string>)
    requires |ids| == |levels|
    ensures |HighRiskIds(ids, levels)| == CountOf(levels, "High")
    decreases |ids|
  {
    if ids != [] {
      HighRiskIdsCount(ids[1..], levels[1..]);
    }
  }

  /** In every upload record the three counts add up to the customers, one id per High. */
  lemma UploadRecordConsistent(fileName: string, timestamp: string, df: Frame, probs: seq<real>)
    requires df.Valid() && |df.columns| > 0 && df.columns[0] !in ResultColumns
    requires |probs| == |df.rows|
    ensures var r := UploadRecord(fileName, timestamp, df, probs);
      && r["high_risk"].i + r["medium_risk"].i + r["low_risk"].i == r["total_customers"].i == |df.rows|
      && |r["high_risk_ids"].items| == r["high_risk"].i
  {
    TiersPartition(probs);
    HighRiskIdsCount(FirstColumn(df), RiskColumn(probs));
  }

  // ---------------------------------------------------------------- the flat ledger file

  /** The upload log kept in the ledger file; an absent file reads as the empty list. */
  class UploadLedger {
    var records: seq<map<string, Json>>

    constructor ()
      ensures records == []
    {
      records := [];
    }

    /** Load the list, append this upload's record, save the list. */
    method LogUpload(fileName: string, timestamp: string, df: Frame, probs: seq<real>)
      requires df.Valid() && |df.columns| > 0 && df.columns[0] !in ResultColumns
      requires |probs| == |df.rows|
      modifies this
      ensures records == old(records) + [UploadRecord(fileName, timestamp, df, probs)]
    {
      var loaded := records;
      loaded := loaded + [UploadRecord(fileName, timestamp, df, probs)];
      records := loaded;
    }
  }

  datatype Summary = Summary(
    totalUploads: nat, totalCustomers: Json, highRisk: Json, mediumRisk: Json, lowRisk: Json, lastUpdated: Json)

  const EmptySummary := Summary(0, JInt(0), JInt(0), JInt(0), JInt(0), JStr("-"))

  /** The keys the dashboard reads from the latest record, in the order it reads them. */
  const SummaryKeys := ["total_customers", "high_risk", "medium_risk", "low_risk", "timestamp"]

  predicate HasSummaryKeys(rec: map<string, Json>) {
    "total_customers" in rec && "high_risk" in rec && "medium_risk" in rec && "low_risk" in rec && "timestamp" in rec
  }

  /** The first key of `keys` that `rec` lacks, if any. */
  function FirstMissing(rec: map<string, Json>, keys: seq<string>): (k: Option<string>)
    ensures k.None? <==> forall j :: 0 <= j < |keys| ==> keys[j] in rec
    ensures k.Some? ==> k.value in keys && k.value !in rec
    ensures k.Some? ==> exists j :: 0 <= j < |keys| && keys[j] == k.value && forall i :: 0 <= i < j ==> keys[i] in rec
  {
    if keys == [] then None
    else if keys[0] !in rec then Some(keys[0])
    else FirstMissing(rec, keys[1..])
  }

  /** `dashboard()`: the latest record's counts, zeros and "-" for an empty ledger, KeyError otherwise. */
  function Dashboard(records: seq<map<string, Json>>): (r: Result<Summary, string>)
    ensures records == [] ==> r == Ok(EmptySummary)
    ensures r.Ok? ==> r.value.totalUploads == |records|
    ensures records != [] ==> var latest := records[|records| - 1];
      && (r.Ok? <==> HasSummaryKeys(latest))
      && (HasSummaryKeys(latest) ==> r.value == Summary(|records|, latest["total_customers"], latest["high_risk"],
                                                      latest["medium_risk"], latest["low_risk"], latest["timestamp"]))
      && (r.Err? ==> r.error in SummaryKeys && r.error !in latest)
      && (r.Err? ==> exists j :: 0 <= j < |SummaryKeys| && SummaryKeys[j] == r.error
                                && forall i :: 0 <= i < j ==> SummaryKeys[i] in latest)
  {
    if |records| > 0 then
      var latest := records[|records| - 1];
      match FirstMissing(latest, SummaryKeys)
      case Some(k) => Err(k)
      case None =>
        assert forall j :: 0 <= j < |SummaryKeys| ==> SummaryKeys[j] in latest;
        assert SummaryKeys[0] in latest && SummaryKeys[1] in latest && SummaryKeys[2] in latest;
        assert SummaryKeys[3] in latest && SummaryKeys[4] in latest;
        Ok(Summary(|records|, latest["total_customers"], latest["high_risk"],
                   latest["medium_risk"], latest["low_risk"], latest["timestamp"]))
    else Ok(EmptySummary)
  }

  /** `alerts_page()`: the latest record's `high_risk_ids`, or [] when there is none. */
  function AlertIds(records: seq<map<string, Json>>): (ids: Json)
    ensures records == [] || "high_risk_ids" !in records[|records| - 1] ==> ids == JArr([])
    ensures records != [] && "high_risk_ids" in records[|records| - 1] ==> ids == records[|records| - 1]["high_risk_ids"]
  {
    if |records| > 0 then
      var latest := records[|records| - 1];
      if "high_risk_ids" in latest then latest["high_risk_ids"] else JArr([])
    else JArr([])
  }

  /** After an upload, the dashboard and the alerts page show exactly that upload. */
  lemma PagesShowLatestUpload(records: seq<map<string, Json>>, fileName: string, timestamp: string, df: Frame, probs: seq<real>)
    requires df.Valid() && |df.columns| > 0 && df.columns[0] !in ResultColumns
    requires |probs| == |df.rows|
    ensures var levels := RiskColumn(probs);
      var after := records + [UploadRecord(fileName, timestamp, df, probs)];
      && Dashboard(after) == Ok(Summary(|records| + 1, JInt(|df.rows|), JInt(CountOf(levels, "High")),
                                        JInt(CountOf(levels, "Medium")), JInt(CountOf(levels, "Low")), JStr(timestamp)))
      && AlertIds(after) == JArr(HighRiskIds(FirstColumn(df), levels))
  {
    var rec := UploadRecord(fileName, timestamp, df, probs);
    UploadRecordKeys(fileName, timestamp, df, probs);
    UploadRecordCounts(fileName, timestamp, df, probs);
    UploadRecordIds(fileName, timestamp, df, probs);
    DashboardShowsLast(records, rec);
    AlertIdsShowLast(records, rec);
  }

  /** The dashboard reads the record appended last. */
  lemma DashboardShowsLast(records: seq<map<string, Json>>, rec: map<string, Json>)
    requires HasSummaryKeys(rec)
    ensures Dashboard(records + [rec]) == Ok(Summary(|records| + 1, rec["total_customers"], rec["high_risk"],
                                                    rec["medium_risk"], rec["low_risk"], rec["timestamp"]))
  {
    var after := records + [rec];
    assert after[|after| - 1] == rec;
  }

  /** The alerts page reads the record appended last. */
  lemma AlertIdsShowLast(records: seq<map<string, Json>>, rec: map<string, Json>)
    ensures AlertIds(records + [rec]) == if "high_risk_ids" in rec then rec["high_risk_ids"] else JArr([])
  {
    var after := records + [rec];
    assert after[|after| - 1] == rec;
  }

  /** The record carries every key the dashboard and the alerts page read. */
  lemma UploadRecordKeys(fileName: string, timestamp: string, df: Frame, probs: seq<real>)
    requires df.Valid() && |df.columns| > 0 && df.columns[0] !in ResultColumns
    requires |probs| == |df.rows|
    ensures var rec := UploadRecord(fileName, timestamp, df, probs);
      HasSummaryKeys(rec) && "high_risk_ids" in rec
  {
  }

  /** The summary fields of the record. */
  lemma UploadRecordCounts(fileName: string, timestamp: string, df: Frame, probs: seq<real>)
    requires df.Valid() && |df.columns| > 0 && df.columns[0] !in ResultColumns
    requires |probs| == |df.rows|
    ensures var rec := UploadRecord(fileName, timestamp, df, probs);
      var levels := RiskColumn(probs);
      && rec["total_customers"] == JInt(|df.rows|) && rec["timestamp"] == JStr(timestamp)
      && rec["high_risk"] == JInt(CountOf(levels, "High"))
      && rec["medium_risk"] == JInt(CountOf(levels, "Medium"))
      && rec["low_risk"] == JInt(CountOf(levels, "Low"))
  {
  }

  /** The alert ids of the record. */
  lemma UploadRecordIds(fileName: string, timestamp: string, df: Frame, probs: seq<real>)
    requires df.Valid() && |df.columns| > 0 && df.columns[0] !in ResultColumns
    requires |probs| == |df.rows|
    ensures var rec := UploadRecord(fileName, timestamp, df, probs);
      rec["high_risk_ids"] == JArr(HighRiskIds(FirstColumn(df), RiskColumn(probs)))
  {
  }
}
