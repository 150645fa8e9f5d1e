/**
 * The chart script of src/visualize_results.py: for each domain it reads the alerts file,
 * finds the risk column, and draws the risk distribution and the count of alerts against
 * the count of customers. The drawn figures are modelled by the numbers they show.
 */
module Visualize {
  import opened Wrappers
  import opened JsonValues
  import opened PyText
  import opened Frames
  import AlertSystem
  import Ledger

  const Domains: seq<string> := ["telecom", "banking", "ecommerce"]

  const HighWords: set<string> := {"high", "critical"}
  const MediumWords: set<string> := {"medium"}
  const LowWords: set<string> := {"low"}

  /** `os.path.join(folder, name)` for a relative `name`. */
  function JoinPath(folder: string, name: string): (p: string)
    ensures |p| >= |folder| + |name| && p[..|folder|] == folder && p[|p| - |name|..] == name
  {
    if folder == [] || folder[|folder| - 1] == '/' then folder + name else folder + "/" + name
  }

  /** `os.path.join(outputs_folder, f"alerts_{domain}.csv")`. */
  function AlertsFileIn(outputsFolder: string, domain: string): string {
    JoinPath(outputsFolder, "alerts" + ("_" + domain + ".csv"))
  }

  /** The charts read the alerts file the alert script writes, when both run from `root`. */
  lemma ChartsReadAlertFiles(root: string, domain: string)
    requires root != [] && root[|root| - 1] != '/'
    ensures AlertsFileIn(root + "/" + "outputs", domain) == root + "/" + AlertSystem.AlertsFile(domain)
  {
    var folder := root + "/" + "outputs";
    assert folder[|folder| - 1] == 's';
  }

  /** `df[risk_col]`. */
  function Column(df: Frame, name: string): (cells: seq<Cell>)
    requires df.Valid() && name in df.columns
    ensures |cells| == |df.rows|
    ensures forall i :: 0 <= i < |df.rows| ==> name in df.rows[i] && cells[i] == df.rows[i][name]
  {
    seq(|df.rows|, i requires 0 <= i < |df.rows| => df.rows[i][name])
  }

  /**
   * `.str` needs a column of text: an object column holding some string (or no rows at
   * all); a column of numbers, booleans or only NaN raises AttributeError.
   */
  predicate StrAccessorApplies(cells: seq<Cell>) {
    cells == [] || exists k :: 0 <= k < |cells| && cells[k].JStr?
  }

  /** `.str.lower().isin(words)` for one cell: non-strings lower to NaN, which is in no list. */
  predicate LowerIsIn(c: Cell, words: set<string>) {
    c.JStr? && Lower(c.s) in words
  }

  /** `.str.lower().isin(words).sum()`. */
  function CountWords(cells: seq<Cell>, words: set<string>): (n: nat)
    ensures n <= |cells|
  {
    if cells == [] then 0
    else (if LowerIsIn(cells[0], words) then 1 else 0) + CountWords(cells[1..], words)
  }

  /** `value_counts()`: the non-NaN cells with their multiplicities. */
  function Distribution(cells: seq<Cell>): (d: multiset<Cell>)
    ensures |d| <= |cells|
    ensures forall c :: c in d ==> c in cells && !c.JNull?
  {
    if cells == [] then multiset{}
    else (if cells[0].JNull? then multiset{} else multiset{cells[0]}) + Distribution(cells[1..])
  }

  /** The distribution counts every non-NaN value as often as it occurs in the column, NaN never. */
  lemma {:induction false} DistributionIsValueCounts(cells: seq<Cell>, c: Cell)
    ensures Distribution(cells)[c] == if c.JNull? then 0 else multiset(cells)[c]
    decreases |cells|
  {
    if cells != [] {
      DistributionIsValueCounts(cells[1..], c);
      assert cells == [cells[0]] + cells[1..];
      assert multiset(cells)[c] == multiset{cells[0]}[c] + multiset(cells[1..])[c];
    }
  }

  /** The numbers one domain's bar chart shows. */
  datatype Counts = Counts(total: nat, high: nat, medium: nat, low: nat, alerts: nat)

  function CountsOf(cells: seq<Cell>): Counts {
    var high := CountWords(cells, HighWords);
    var medium := CountWords(cells, MediumWords);
    Counts(|cells|, high, medium, CountWords(cells, LowWords), high + medium)
  }

  /** What the script draws for a domain: the pie of the risk values, then the bars. */
  datatype Chart = Pie(domain: string, distribution: multiset<Cell>) | Bars(domain: string, counts: Counts)

  datatype ChartRun = ChartRun(charts: seq<Chart>, crashed: bool)

  /** Files are read through `read`, `None` when the file does not exist. */
  ghost predicate ReadsFrames(read: string -> Option<Frame>) {
    forall p :: read(p).Some? ==> read(p).value.Valid()
  }

  /** One turn of the loop over domains. */
  function DomainCharts(run: ChartRun, outputsFolder: string, domain: string, read: string -> Option<Frame>): ChartRun
    requires ReadsFrames(read)
  {
    match read(AlertsFileIn(outputsFolder, domain))
    case None => run
    case Some(df) =>
      var riskCol := AlertSystem.DetectColumn(AlertSystem.RiskColumnNames, df.columns);
      if !Ledger.Truthy(riskCol) then run
      else
        var cells := Column(df, riskCol.value);
        var pie := run.charts + [Pie(domain, Distribution(cells))];
        if !StrAccessorApplies(cells) then ChartRun(pie, true)
        else ChartRun(pie + [Bars(domain, CountsOf(cells))], false)
  }

  function RunDomains(run: ChartRun, outputsFolder: string, domains: seq<string>, read: string -> Option<Frame>): ChartRun
    requires ReadsFrames(read)
    decreases |domains|
  {
    if domains == [] || run.crashed then run
    else RunDomains(DomainCharts(run, outputsFolder, domains[0], read), outputsFolder, domains[1..], read)
  }

  /** The script's loop over the domains, skipping missing files and files without a risk column. */
  method DrawCharts(outputsFolder: string, read: string -> Option<Frame>) returns (charts: seq<Chart>, crashed: bool)
    requires ReadsFrames(read)
    ensures ChartRun(charts, crashed) == RunDomains(ChartRun([], false), outputsFolder, Domains, read)
  {
    charts, crashed := [], false;
    var i := 0;
    while i < |Domains|
      invariant 0 <= i <= |Domains| && !crashed
      invariant RunDomains(ChartRun(charts, crashed), outputsFolder, Domains[i..], read)
             == RunDomains(ChartRun([], false), outputsFolder, Domains, read)
    {
      var domain := Domains[i];
      assert Domains[i..][0] == domain && Domains[i..][1..] == Domains[i + 1..];
      var alertFile := AlertsFileIn(outputsFolder, domain);
      var loaded := read(alertFile);
      if loaded.None? {
        i := i + 1;
        continue;
      }
      var df := loaded.value;
      var riskCol := AlertSystem.DetectColumn(AlertSystem.RiskColumnNames, df.columns);
      if !Ledger.Truthy(riskCol) {
        i := i + 1;
        continue;
      }
      var cells := Column(df, riskCol.value);
      charts := charts + [Pie(domain, Distribution(cells))];
      if !StrAccessorApplies(cells) {
        crashed := true;
        break;
      }
      charts := charts + [Bars(domain, CountsOf(cells))];
      i := i + 1;
    }
  }

  // ---------------------------------------------------------------- properties of the counts

  /** The high, medium and low counts never add up to more than the customers. */
  lemma {:induction false} TierCountsBounded(cells: seq<Cell>)
    ensures CountWords(cells, HighWords) + CountWords(cells, MediumWords) + CountWords(cells, LowWords) <= |cells|
    decreases |cells|
  {
    if cells != [] {
      TierCountsBounded(cells[1..]);
    }
  }

  /** Rows the alert script tags with `kind`. */
  function CountKind(cells: seq<Cell>, kind: AlertSystem.AlertKind): (n: nat)
    ensures n <= |cells|
  {
    if cells == [] then 0
    else (if AlertSystem.Classify(cells[0]) == kind then 1 else 0) + CountKind(cells[1..], kind)
  }

  /**
   * The chart's high and medium counts are the rows the alert script marked ALERT and
   * CAUTION, so the alerts bar is exactly the number of customers it alerted on.
   */
  lemma {:induction false} ChartCountsMatchAlerts(cells: seq<Cell>)
    ensures CountWords(cells, HighWords) == CountKind(cells, AlertSystem.Alert)
    ensures CountWords(cells, MediumWords) == CountKind(cells, AlertSystem.Caution)
    ensures CountsOf(cells).alerts == |cells| - CountKind(cells, AlertSystem.NoAction)
    decreases |cells|
  {
    if cells != [] {
      ChartCountsMatchAlerts(cells[1..]);
      var c := cells[0];
      if !c.JStr? {
        AlertSystem.NonTextIsNeverAnAlert(c);
      }
    }
  }

  /** A domain whose alerts file is missing, or has no risk column, draws nothing. */
  lemma SkippedDomainDrawsNothing(run: ChartRun, outputsFolder: string, domain: string, read: string -> Option<Frame>)
    requires ReadsFrames(read)
    requires read(AlertsFileIn(outputsFolder, domain)).None?
          || !Ledger.Truthy(AlertSystem.DetectColumn(AlertSystem.RiskColumnNames, read(AlertsFileIn(outputsFolder, domain)).value.columns))
    ensures DomainCharts(run, outputsFolder, domain, read) == run
  {
  }

  /** The tiers fit within the customers, and the alerts are the High and Medium rows. */
  predicate CountsSound(n: Counts) {
    n.high + n.medium + n.low <= n.total && n.alerts == n.high + n.medium && n.alerts <= n.total
  }

  /** Every bar chart drawn shows tier counts that fit within its customer count. */
  ghost predicate BarsSound(charts: seq<Chart>) {
    forall k :: 0 <= k < |charts| && charts[k].Bars? ==> CountsSound(charts[k].counts)
  }

  lemma BarsSoundAppend(charts: seq<Chart>, c: Chart)
    requires BarsSound(charts) && (c.Bars? ==> CountsSound(c.counts))
    ensures BarsSound(charts + [c])
  {
    forall k | 0 <= k < |charts| + 1 && (charts + [c])[k].Bars?
      ensures CountsSound((charts + [c])[k].counts)
    {
      if k < |charts| {
        assert (charts + [c])[k] == charts[k];
      }
    }
  }

  lemma DomainChartsSound(run: ChartRun, outputsFolder: string, domain: string, read: string -> Option<Frame>)
    requires ReadsFrames(read) && BarsSound(run.charts)
    ensures var r := DomainCharts(run, outputsFolder, domain, read);
      BarsSound(r.charts) && |run.charts| <= |r.charts| && r.charts[..|run.charts|] == run.charts
  {
    match read(AlertsFileIn(outputsFolder, domain))
    case None =>
    case Some(df) =>
      var riskCol := AlertSystem.DetectColumn(AlertSystem.RiskColumnNames, df.columns);
      if Ledger.Truthy(riskCol) {
        var cells := Column(df, riskCol.value);
        var pie := run.charts + [Pie(domain, Distribution(cells))];
        BarsSoundAppend(run.charts, Pie(domain, Distribution(cells)));
        assert pie[..|run.charts|] == run.charts;
        if StrAccessorApplies(cells) {
          TierCountsBounded(cells);
          BarsSoundAppend(pie, Bars(domain, CountsOf(cells)));
          assert (pie + [Bars(domain, CountsOf(cells))])[..|run.charts|] == run.charts;
        }
      }
  }

  /** The whole loop keeps the charts already drawn and draws only sound bar charts. */
  lemma {:induction false} RunDomainsSound(run: ChartRun, outputsFolder: string, domains: seq<string>, read: string -> Option<Frame>)
    requires ReadsFrames(read) && BarsSound(run.charts)
    ensures var r := RunDomains(run, outputsFolder, domains, read);
      BarsSound(r.charts) && |run.charts| <= |r.charts| && r.charts[..|run.charts|] == run.charts
    decreases |domains|
  {
    if domains != [] && !run.crashed {
      var next := DomainCharts(run, outputsFolder, domains[0], read);
      DomainChartsSound(run, outputsFolder, domains[0], read);
      RunDomainsSound(next, outputsFolder, domains[1..], read);
      var r := RunDomains(next, outputsFolder, domains[1..], read);
      assert r.charts[..|run.charts|] == next.charts[..|next.charts|][..|run.charts|];
    }
  }
}
