/**
 * The alert generator of src/alert_system.py: for each retention file it detects the risk
 * and retention columns, tags every row with an alert message, writes the alerts file,
 * logs one transaction per row in the shared ledger and seals them into one block per file.
 * File reads and writes are the `inputs` and the returned lists of written files.
 */
module AlertSystem {
  import opened Wrappers
  import opened JsonValues
  import opened PyText
  import opened Frames
  import opened Ledger

  /** The script's input files, `outputs/retention_<domain>.csv`. */
  const Files: seq<string> := [RetentionFile("telecom"), RetentionFile("banking"), RetentionFile("ecommerce")]
  const RiskColumnNames: seq<string> := ["Risk_Level", "Risk", "Churn_Risk", "RiskCategory", "Risk_Category", "risk_level"]
  const RetentionColumnNames: seq<string> := ["Retention_Action", "RetentionStrategy", "Retention_Strategy", "Action", "retention_action"]

  // ---------------------------------------------------------------- column detection

  /** `next((c for c in candidates if c in columns), None)`. */
  function DetectColumn(candidates: seq<string>, columns: seq<string>): (found: Option<string>)
    ensures found.Some? ==> found.value in columns
  {
    if candidates == [] then None
    else if candidates[0] in columns then Some(candidates[0])
    else DetectColumn(candidates[1..], columns)
  }

  /** The detected column is the first candidate present; there is none when no candidate is. */
  lemma {:induction false} DetectColumnFirst(candidates: seq<string>, columns: seq<string>)
    ensures var found := DetectColumn(candidates, columns);
      && (found.None? <==> forall k :: 0 <= k < |candidates| ==> candidates[k] !in columns)
      && (found.Some? ==> exists k :: 0 <= k < |candidates| && candidates[k] == found.value
                                     && forall j :: 0 <= j < k ==> candidates[j] !in columns)
  {
    if candidates != [] && candidates[0] !in columns {
      var rest := DetectColumn(candidates[1..], columns);
      DetectColumnFirst(candidates[1..], columns);
      if rest.Some? {
        var k :| 0 <= k < |candidates| - 1 && candidates[1..][k] == rest.value
                 && forall j :: 0 <= j < k ==> candidates[1..][j] !in columns;
        assert candidates[k + 1] == rest.value;
        forall j | 0 <= j < k + 1 ensures candidates[j] !in columns {
          if j > 0 { assert candidates[j] == candidates[1..][j - 1]; }
        }
      } else {
        forall k | 0 <= k < |candidates| ensures candidates[k] !in columns {
          if k > 0 { assert candidates[k] == candidates[1..][k - 1]; }
        }
      }
    }
  }

  // ---------------------------------------------------------------- file names

  /** `os.path.basename(path).split("_")[1].split(".")[0]`; IndexError without a "_". */
  function DomainOf(path: string): Result<string, string> {
    DomainOfName(Basename(path))
  }

  function DomainOfName(name: string): Result<string, string> {
    var pieces := Split(name, "_");
    if |pieces| < 2 then Err("IndexError: list index out of range")
    else Ok(Split(pieces[1], ".")[0])
  }

  /** The piece before the first `c`: it holds no `c` and is followed by `c` or the end. */
  lemma PieceBeforeChar(t: string, c: char)
    ensures var f := Split(t, [c])[0];
      |f| <= |t| && f == t[..|f|] && c !in f && (|f| == |t| || t[|f|] == c)
  {
    var f := Split(t, [c])[0];
    FirstPiece(t, [c]);
    SplitPiecesAvoidSeparator(t, [c]);
    forall j | 0 <= j < |f| ensures f[j] != c {
      OccursAtChar(f, c, j);
      assert !OccursAt(Split(t, [c])[0], [c], j);
    }
    if |f| < |t| {
      OccursAtChar(t, c, |f|);
    }
  }

  /** Splitting at a first `c` that exists. */
  lemma SplitAtFound(b: string, c: char)
    requires c in b
    ensures exists i :: 0 <= i < |b| && b[i] == c && c !in b[..i] && Split(b, [c]) == [b[..i]] + Split(b[i + 1..], [c])
  {
    match Find(b, [c])
    case None =>
      var i :| 0 <= i < |b| && b[i] == c;
      OccursAtChar(b, c, i);
      assert false;
    case Some(i) =>
      OccursAtChar(b, c, i);
      SplitUnfold(b, [c], i);
      forall j | 0 <= j < i ensures b[..i][j] != c {
        OccursAtChar(b, c, j);
      }
      assert 0 <= i < |b| && b[i] == c && c !in b[..i];
  }

  /** What may follow a domain in a file name: nothing, "_" or ".". */
  predicate EndsDomain(rest: string) {
    rest == [] || rest[0] == '_' || rest[0] == '.'
  }

  /**
   * The domain is the text after the first "_" of the file name, up to the next "_" or
   * "." or the end; there is none when the name has no "_".
   */
  lemma DomainShape(path: string)
    ensures DomainOf(path).Err? <==> '_' !in Basename(path)
    ensures DomainOf(path).Ok? ==> var d := DomainOf(path).value;
      && '_' !in d && '.' !in d
      && exists a, rest :: Basename(path) == a + "_" + d + rest && '_' !in a && EndsDomain(rest)
  {
    DomainOfNameShape(Basename(path));
  }

  lemma DomainOfNameShape(b: string)
    ensures DomainOfName(b).Err? <==> '_' !in b
    ensures DomainOfName(b).Ok? ==> var d := DomainOfName(b).value;
      && '_' !in d && '.' !in d
      && exists a, rest :: b == a + "_" + d + rest && '_' !in a && EndsDomain(rest)
  {
    if '_' !in b {
      SplitWithoutSeparator(b, '_');
    } else {
      var i := DomainPieces(b);
      var t := b[i + 1..];
      var f := Split(t, "_")[0];
      var d := Split(f, ".")[0];
      PieceBeforeChar(t, '_');
      PieceBeforeChar(f, '.');
      DomainAfterUnderscore(b, i, f, d);
    }
  }

  /** With a "_" in the name, the domain is cut from the text after the first one. */
  lemma DomainPieces(b: string) returns (i: nat)
    requires '_' in b
    ensures i < |b| && b[i] == '_' && '_' !in b[..i]
    ensures DomainOfName(b) == Ok(Split(Split(b[i + 1..], "_")[0], ".")[0])
  {
    SplitAtFound(b, '_');
    i :| 0 <= i < |b| && b[i] == '_' && '_' !in b[..i] && Split(b, "_") == [b[..i]] + Split(b[i + 1..], "_");
  }

  /** The shape of `d`, the piece up to "." of `f`, the piece up to "_" after `b[i]`. */
  lemma DomainAfterUnderscore(b: string, i: nat, f: string, d: string)
    requires i < |b| && b[i] == '_' && '_' !in b[..i]
    requires |f| <= |b| - i - 1 && f == b[i + 1..][..|f|] && '_' !in f
    requires |f| == |b| - i - 1 || b[i + 1..][|f|] == '_'
    requires |d| <= |f| && d == f[..|d|] && '.' !in d
    requires |d| == |f| || f[|d|] == '.'
    ensures '_' !in d
    ensures exists a, rest :: b == a + "_" + d + rest && '_' !in a && EndsDomain(rest)
  {
    var t := b[i + 1..];
    assert '_' !in d by {
      assert forall j :: 0 <= j < |d| ==> d[j] == f[j];
    }
    var rest := t[|d|..];
    Reassemble(b, i, d);
    assert EndsDomain(rest) by {
      if |d| < |f| {
        assert rest[0] == f[|d|];
      } else if |f| < |t| {
        assert rest[0] == t[|f|];
      }
    }
  }

  lemma Reassemble(b: string, i: nat, d: string)
    requires i < |b| && b[i] == '_' && |d| <= |b| - i - 1 && d == b[i + 1..][..|d|]
    ensures b == b[..i] + "_" + d + b[i + 1..][|d|..]
  {
    assert b[i + 1..] == d + b[i + 1..][|d|..];
    assert b == b[..i] + [b[i]] + b[i + 1..];
  }

  /** `file.replace("retention", "alerts")`. */
  function AlertsPath(path: string): string {
    Replace(path, "retention", "alerts")
  }

  /** `f"outputs/blockchain_{domain}.json"`. */
  function LedgerPath(domain: string): string {
    "outputs/blockchain_" + domain + ".json"
  }

  function RetentionFile(domain: string): string {
    "outputs" + "/" + ("retention" + ("_" + domain + ".csv"))
  }

  function AlertsFile(domain: string): string {
    "outputs" + "/" + ("alerts" + ("_" + domain + ".csv"))
  }

  /** A retention file `outputs/retention_<domain>.csv` has domain `<domain>`. */
  lemma RetentionFileDomain(domain: string)
    requires '/' !in domain && '_' !in domain && '.' !in domain
    ensures DomainOf(RetentionFile(domain)) == Ok(domain)
  {
    var tail := domain + ".csv";
    RetentionFileName(domain);
    RetentionNamePieces(tail);
    TailPieces(domain);
  }

  lemma RetentionFileName(domain: string)
    requires '/' !in domain
    ensures Basename(RetentionFile(domain)) == "retention" + ("_" + (domain + ".csv"))
  {
    assert "_" + domain + ".csv" == "_" + (domain + ".csv");
    BasenameAfterSlash("outputs", "retention" + ("_" + (domain + ".csv")));
  }

  lemma RetentionNamePieces(tail: string)
    requires '_' !in tail
    ensures Split("retention" + ("_" + tail), "_") == ["retention", tail]
  {
    assert "retention" + ("_" + tail) == "retention" + ['_'] + tail;
    SplitAtFirst("retention", '_', tail);
    SplitWithoutSeparator(tail, '_');
  }

  lemma TailPieces(domain: string)
    requires '.' !in domain
    ensures Split(domain + ".csv", ".")[0] == domain
  {
    assert domain + ".csv" == domain + ['.'] + "csv";
    SplitAtFirst(domain, '.', "csv");
  }

  lemma NoOccurrenceWithout(s: string, pat: string, p: nat)
    requires p < |pat| && pat[p] !in s
    ensures forall j: nat :: !OccursAt(s, pat, j)
  {
    forall j: nat ensures !OccursAt(s, pat, j) {
      if j + |pat| <= |s| {
        assert s[j..j + |pat|][p] == s[j + p];
      }
    }
  }

  lemma NoOccurrenceBefore(a: string, pat: string, rest: string)
    requires pat != [] && pat[0] !in a
    ensures forall j: nat :: j < |a| ==> !OccursAt(a + rest, pat, j)
  {
    forall j: nat | j < |a| ensures !OccursAt(a + rest, pat, j) {
      if j + |pat| <= |a + rest| {
        assert (a + rest)[j..j + |pat|][0] == a[j];
      }
    }
  }

  /** Replacing in `prefix + "retention" + tail` when only that one occurrence exists. */
  lemma ReplaceSingleRetention(prefix: string, tail: string)
    requires 'r' !in prefix
    requires forall j: nat :: !OccursAt(tail, "retention", j)
    ensures Replace(prefix + "retention" + tail, "retention", "alerts") == prefix + "alerts" + tail
  {
    NoOccurrenceBefore(prefix, "retention", "retention" + tail);
    assert prefix + ("retention" + tail) == prefix + "retention" + tail;
    ReplaceFirst(prefix, "retention", tail, "alerts");
    ReplaceWithoutOccurrence(tail, "retention", "alerts");
  }

  /** No "retention" in `_<domain>.csv` unless the domain itself holds one. */
  lemma TailWithoutRetention(domain: string)
    requires forall j: nat :: !OccursAt(domain, "retention", j)
    ensures forall j: nat :: !OccursAt("_" + domain + ".csv", "retention", j)
  {
    var pat := "retention";
    var tail := "_" + domain + ".csv";
    forall j: nat | j + |pat| <= |tail|
      ensures !OccursAt(tail, pat, j)
    {
      if j == 0 {
        assert tail[j..j + |pat|][0] == '_';
      } else if j + |pat| <= 1 + |domain| {
        assert domain[j - 1..j - 1 + |pat|] == tail[j..j + |pat|];
        assert !OccursAt(domain, pat, j - 1);
      } else {
        assert tail[j..j + |pat|][1 + |domain| - j] == '.';
      }
    }
  }

  /** The alerts file of `outputs/retention_<domain>.csv` is `outputs/alerts_<domain>.csv`. */
  lemma RetentionFileAlertsPath(domain: string)
    requires forall j: nat :: !OccursAt(domain, "retention", j)
    ensures AlertsPath(RetentionFile(domain)) == AlertsFile(domain)
  {
    var tail := "_" + domain + ".csv";
    var prefix := "outputs" + "/";
    assert Replace(prefix + "retention" + tail, "retention", "alerts") == prefix + "alerts" + tail by {
      TailWithoutRetention(domain);
      assert 'r' !in prefix;
      ReplaceSingleRetention(prefix, tail);
    }
    assert RetentionFile(domain) == prefix + "retention" + tail;
    assert AlertsFile(domain) == prefix + "alerts" + tail;
  }

  /** A domain missing the letter 'r' or 'i' holds no "retention". */
  lemma LacksRetention(d: string)
    requires 'r' !in d || 'i' !in d
    ensures forall j: nat :: !OccursAt(d, "retention", j)
  {
    if 'r' !in d {
      NoOccurrenceWithout(d, "retention", 0);
    } else {
      NoOccurrenceWithout(d, "retention", 6);
    }
  }

  /** The domains named by the script's three file names. */
  const FileDomains: seq<string> := ["telecom", "banking", "ecommerce"]

  /** The script's three files give the domains telecom, banking and ecommerce, and alerts files beside them. */
  lemma ScriptFiles()
    ensures |Files| == |FileDomains|
    ensures forall k :: 0 <= k < |Files| ==>
      DomainOf(Files[k]) == Ok(FileDomains[k]) && AlertsPath(Files[k]) == AlertsFile(FileDomains[k])
  {
    forall k | 0 <= k < |Files|
      ensures DomainOf(Files[k]) == Ok(FileDomains[k]) && AlertsPath(Files[k]) == AlertsFile(FileDomains[k])
    {
      var d := FileDomains[k];
      assert Files[k] == RetentionFile(d) && '/' !in d && '_' !in d && '.' !in d && ('r' !in d || 'i' !in d) by {
        if k == 0 {} else if k == 1 {} else {}
      }
      RetentionFileDomain(d);
      assert AlertsPath(Files[k]) == AlertsFile(d) by {
        LacksRetention(d);
        RetentionFileAlertsPath(d);
      }
    }
  }

  // ---------------------------------------------------------------- alert messages

  datatype AlertKind = Alert | Caution | NoAction

  function Classify(risk: Cell): (kind: AlertKind)
    ensures kind == Alert <==> Lower(PyStr(risk)) in {"high", "critical"}
    ensures kind == Caution <==> Lower(PyStr(risk)) == "medium"
  {
    var v := Lower(PyStr(risk));
    if v in {"high", "critical"} then Alert
    else if v == "medium" then Caution
    else NoAction
  }

  const AlertPrefix := "\U{26A0}\U{FE0F} ALERT: Customer at "
  const CautionPrefix := "\U{26A0}\U{FE0F} CAUTION: Customer at "
  const ClearPrefix := "\U{2705} Customer at "

  /** `alert_message(row)` for the row's risk and retention cells. */
  function AlertMessage(risk: Cell, action: Cell): string {
    match Classify(risk)
    case Alert => AlertPrefix + (PyStr(risk) + " risk. Suggested Action: " + PyStr(action))
    case Caution => CautionPrefix + (PyStr(risk) + " risk. Suggested Action: " + PyStr(action))
    case NoAction => ClearPrefix + (PyStr(risk) + " risk. No immediate action needed.")
  }

  /** How a reader of the alerts file tells the three messages apart. */
  function KindOfMessage(msg: string): AlertKind {
    if |AlertPrefix| <= |msg| && msg[..|AlertPrefix|] == AlertPrefix then Alert
    else if |CautionPrefix| <= |msg| && msg[..|CautionPrefix|] == CautionPrefix then Caution
    else NoAction
  }

  lemma AlertMessageKind(x: string)
    ensures KindOfMessage(AlertPrefix + x) == Alert
  {
    assert (AlertPrefix + x)[..|AlertPrefix|] == AlertPrefix;
  }

  lemma CautionMessageKind(x: string)
    ensures KindOfMessage(CautionPrefix + x) == Caution
  {
    var msg := CautionPrefix + x;
    assert msg[..|CautionPrefix|] == CautionPrefix;
    assert msg[..|AlertPrefix|][3] != AlertPrefix[3];
  }

  lemma ClearMessageKind(x: string)
    ensures KindOfMessage(ClearPrefix + x) == NoAction
  {
    var msg := ClearPrefix + x;
    assert msg[0] != AlertPrefix[0];
    assert |AlertPrefix| <= |msg| ==> msg[..|AlertPrefix|][0] != AlertPrefix[0];
    assert |CautionPrefix| <= |msg| ==> msg[..|CautionPrefix|][0] != CautionPrefix[0];
  }

  /** Each message names its kind: ALERT, CAUTION or the no-action message. */
  lemma MessageNamesItsKind(risk: Cell, action: Cell)
    ensures KindOfMessage(AlertMessage(risk, action)) == Classify(risk)
  {
    match Classify(risk)
    case Alert => AlertMessageKind(PyStr(risk) + " risk. Suggested Action: " + PyStr(action));
    case Caution => CautionMessageKind(PyStr(risk) + " risk. Suggested Action: " + PyStr(action));
    case NoAction => ClearMessageKind(PyStr(risk) + " risk. No immediate action needed.");
  }

  /** `str()` of a number, NaN or boolean never reads as high, critical or medium. */
  lemma NonTextIsNeverAnAlert(risk: Cell)
    requires !risk.JStr?
    ensures Classify(risk) == NoAction
  {
    var v := Lower(PyStr(risk));
    match risk
    case JNull => assert v == "nan";
    case JBool(b) => assert v == if b then "true" else "false";
    case JInt(i) =>
      var s := IntToString(i);
      assert v[0] == s[0];
      assert v[0] != 'h' && v[0] != 'c' && v[0] != 'm';
  }

  // ---------------------------------------------------------------- rows to transactions

  /** `row.get("RowNumber", row.get("id", "N/A"))`. */
  function CustomerId(row: Row): (id: Cell)
    ensures "RowNumber" in row ==> id == row["RowNumber"]
    ensures "RowNumber" !in row && "id" in row ==> id == row["id"]
    ensures "RowNumber" !in row && "id" !in row ==> id == JStr("N/A")
  {
    if "RowNumber" in row then row["RowNumber"]
    else if "id" in row then row["id"]
    else JStr("N/A")
  }

  /** A row with its `Alert_Message` cell set. */
  function AlertRow(row: Row, riskCol: string, retentionCol: string): Row
    requires riskCol in row && retentionCol in row
  {
    row["Alert_Message" := JStr(AlertMessage(row[riskCol], row[retentionCol]))]
  }

  /** `df['Alert_Message'] = df.apply(alert_message, axis=1)`. */
  function WithAlerts(df: Frame, riskCol: string, retentionCol: string): (r: Frame)
    requires df.Valid() && riskCol in df.columns && retentionCol in df.columns
    ensures r.Valid() && |r.rows| == |df.rows| && "Alert_Message" in r.columns
    ensures riskCol in r.columns && retentionCol in r.columns
    ensures forall c :: c in r.columns <==> c in df.columns || c == "Alert_Message"
    ensures forall i :: 0 <= i < |df.rows| ==>
      riskCol in df.rows[i] && retentionCol in df.rows[i] && r.rows[i] == AlertRow(df.rows[i], riskCol, retentionCol)
  {
    var columns := if "Alert_Message" in df.columns then df.columns else df.columns + ["Alert_Message"];
    Frame(columns, seq(|df.rows|, i requires 0 <= i < |df.rows| => AlertRow(df.rows[i], riskCol, retentionCol)))
  }

  /** The transaction logged for one row of the alerts frame. */
  function AlertTransaction(row: Row, riskCol: string, retentionCol: string): Transaction
    requires riskCol in row && retentionCol in row && "Alert_Message" in row
  {
    map[
      "CustomerID" := CustomerId(row),
      "Risk_Level" := row[riskCol],
      "Retention_Action" := row[retentionCol],
      "Alert_Message" := row["Alert_Message"]
    ]
  }

  /** One transaction per row, in row order. */
  function FileTransactions(df: Frame, riskCol: string, retentionCol: string): (txs: seq<Transaction>)
    requires df.Valid() && riskCol in df.columns && retentionCol in df.columns && "Alert_Message" in df.columns
    ensures |txs| == |df.rows|
  {
    seq(|df.rows|, i requires 0 <= i < |df.rows| => AlertTransaction(df.rows[i], riskCol, retentionCol))
  }

  /**
   * The transaction logged for row i carries the row's customer id, its risk and retention
   * cells and the message for them, and that message names the row's alert kind.
   */
  lemma FileTransactionRecordsRow(df: Frame, riskCol: string, retentionCol: string, i: nat)
    requires df.Valid() && riskCol in df.columns && retentionCol in df.columns && i < |df.rows|
    requires riskCol != "Alert_Message" && retentionCol != "Alert_Message"
    ensures var alerted := WithAlerts(df, riskCol, retentionCol);
      var row := df.rows[i];
      var tx := FileTransactions(alerted, riskCol, retentionCol)[i];
      && tx.Keys == {"CustomerID", "Risk_Level", "Retention_Action", "Alert_Message"}
      && riskCol in row && retentionCol in row
      && tx["CustomerID"] == CustomerId(row)
      && tx["Risk_Level"] == row[riskCol] && tx["Retention_Action"] == row[retentionCol]
      && tx["Alert_Message"] == JStr(AlertMessage(row[riskCol], row[retentionCol]))
      && KindOfMessage(tx["Alert_Message"].s) == Classify(row[riskCol])
  {
    var row := df.rows[i];
    MessageNamesItsKind(row[riskCol], row[retentionCol]);
  }

  // ---------------------------------------------------------------- the loop over files

  /** What the script does with one file. */
  datatype Verdict = BadFileName | MissingColumns | Process(domain: string, riskCol: string, retentionCol: string)

  function Examine(path: string, df: Frame): (v: Verdict)
    ensures v.Process? ==> v.riskCol in df.columns && v.retentionCol in df.columns
    ensures DomainOf(path).Ok? ==>
      (v.Process? <==> Truthy(DetectColumn(RiskColumnNames, df.columns)) && Truthy(DetectColumn(RetentionColumnNames, df.columns)))
    ensures v.Process? ==> && DomainOf(path) == Ok(v.domain)
                           && DetectColumn(RiskColumnNames, df.columns) == Some(v.riskCol)
                           && DetectColumn(RetentionColumnNames, df.columns) == Some(v.retentionCol)
  {
    match DomainOf(path)
    case Err(_) => BadFileName
    case Ok(domain) =>
      var riskCol := DetectColumn(RiskColumnNames, df.columns);
      var retentionCol := DetectColumn(RetentionColumnNames, df.columns);
      if !Truthy(riskCol) || !Truthy(retentionCol) then MissingColumns
      else Process(domain, riskCol.value, retentionCol.value)
  }

  /** The ledger and the files written so far; `crashed` once an exception ended the script. */
  datatype AlertRun = AlertRun(
    ledger: LedgerState,
    alertFiles: seq<(string, Frame)>,
    saved: seq<(string, seq<Block>)>,
    crashed: bool)

  function ProcessFile(run: AlertRun, path: string, df: Frame, timestamp: string, digest: Digest): AlertRun
    requires df.Valid()
  {
    match Examine(path, df)
    case BadFileName => run.(crashed := true)
    case MissingColumns => run
    case Process(domain, riskCol, retentionCol) =>
      var alerted := WithAlerts(df, riskCol, retentionCol);
      var txs := FileTransactions(alerted, riskCol, retentionCol);
      var ledger := Replay(run.ledger, Adds(txs) + [CreateBlock(None, timestamp)], digest);
      AlertRun(ledger, run.alertFiles + [(AlertsPath(path), alerted)], run.saved + [(LedgerPath(domain), ledger.chain)], false)
  }

  ghost predicate AllValid(inputs: seq<(string, Frame)>) {
    forall k :: 0 <= k < |inputs| ==> inputs[k].1.Valid()
  }

  /** The script's loop over its files, stopping at the first exception. */
  function RunFiles(run: AlertRun, inputs: seq<(string, Frame)>, stamps: seq<string>, digest: Digest): AlertRun
    requires |stamps| == |inputs| && AllValid(inputs)
    decreases |inputs|
  {
    if inputs == [] || run.crashed then run
    else
      AllValidTail(inputs);
      RunFiles(ProcessFile(run, inputs[0].0, inputs[0].1, stamps[0], digest), inputs[1..], stamps[1..], digest)
  }

  /**
   * The state of a run that started from a fresh ledger: after k processed files the chain
   * has k + 1 linked blocks, the buffer is empty, the j-th saved ledger file holds the whole
   * chain as it was then, and block j + 1 holds one transaction per row of the j-th file.
   */
  ghost predicate Coherent(run: AlertRun, digest: Digest) {
    var chain := run.ledger.chain;
    && run.ledger.pending == []
    && WellFormed(chain) && HashLinked(chain, digest)
    && |chain| == |run.saved| + 1 && |run.alertFiles| == |run.saved|
    && (forall j :: 0 <= j < |run.saved| ==> run.saved[j].1 == chain[..j + 2])
    && (forall j :: 0 <= j < |run.saved| ==> |chain[j + 1].transactions| == |run.alertFiles[j].1.rows|)
  }

  lemma ProcessFileCoherent(run: AlertRun, path: string, df: Frame, timestamp: string, digest: Digest)
    requires df.Valid() && Coherent(run, digest)
    ensures Coherent(ProcessFile(run, path, df, timestamp, digest), digest)
  {
    match Examine(path, df)
    case BadFileName =>
    case MissingColumns =>
    case Process(domain, riskCol, retentionCol) =>
      var alerted := WithAlerts(df, riskCol, retentionCol);
      var txs := FileTransactions(alerted, riskCol, retentionCol);
      var s := run.ledger;
      var t := Replay(s, Adds(txs) + [CreateBlock(None, timestamp)], digest);
      var blk := Block(|s.chain| + 1, timestamp, txs, LinkFor(s.chain, None, digest));
      SealFile(s, txs, timestamp, digest);
      SavedPrefixes(s.chain, blk, run.saved, LedgerPath(domain));
      RowCounts(s.chain, blk, run.alertFiles, (AlertsPath(path), alerted));
  }

  /** Logging a file's transactions and sealing them appends one linked block. */
  lemma SealFile(s: LedgerState, txs: seq<Transaction>, timestamp: string, digest: Digest)
    requires s.pending == [] && WellFormed(s.chain) && HashLinked(s.chain, digest)
    ensures var t := Replay(s, Adds(txs) + [CreateBlock(None, timestamp)], digest);
      && t.chain == s.chain + [Block(|s.chain| + 1, timestamp, txs, LinkFor(s.chain, None, digest))]
      && t.pending == [] && WellFormed(t.chain) && HashLinked(t.chain, digest)
  {
    var filled := LedgerState(s.chain, txs);
    SealBatch(s, txs, timestamp, digest);
    SealExtends(filled, None, timestamp, digest);
    SealKeepsLinks(filled, None, timestamp, digest);
  }

  lemma SavedPrefixes(chain: seq<Block>, blk: Block, saved: seq<(string, seq<Block>)>, name: string)
    requires |chain| == |saved| + 1
    requires forall j :: 0 <= j < |saved| ==> saved[j].1 == chain[..j + 2]
    ensures var saved' := saved + [(name, chain + [blk])];
      forall j :: 0 <= j < |saved'| ==> saved'[j].1 == (chain + [blk])[..j + 2]
  {
    var saved' := saved + [(name, chain + [blk])];
    forall j | 0 <= j < |saved'| ensures saved'[j].1 == (chain + [blk])[..j + 2] {
      if j < |saved| {
        assert (chain + [blk])[..j + 2] == chain[..j + 2];
      }
    }
  }

  lemma RowCounts(chain: seq<Block>, blk: Block, files: seq<(string, Frame)>, file: (string, Frame))
    requires |chain| == |files| + 1 && |blk.transactions| == |file.1.rows|
    requires forall j :: 0 <= j < |files| ==> |chain[j + 1].transactions| == |files[j].1.rows|
    ensures var files' := files + [file];
      forall j :: 0 <= j < |files'| ==> |(chain + [blk])[j + 1].transactions| == |files'[j].1.rows|
  {
  }

  lemma {:induction false} RunFilesCoherent(run: AlertRun, inputs: seq<(string, Frame)>, stamps: seq<string>, digest: Digest)
    requires |stamps| == |inputs| && AllValid(inputs) && Coherent(run, digest)
    ensures Coherent(RunFiles(run, inputs, stamps, digest), digest)
    decreases |inputs|
  {
    if inputs != [] && !run.crashed {
      ProcessFileCoherent(run, inputs[0].0, inputs[0].1, stamps[0], digest);
      var next := ProcessFile(run, inputs[0].0, inputs[0].1, stamps[0], digest);
      assert AllValid(inputs[1..]) by {
        forall k | 0 <= k < |inputs| - 1 ensures inputs[1..][k].1.Valid() {
          assert inputs[1..][k] == inputs[k + 1];
        }
      }
      RunFilesCoherent(next, inputs[1..], stamps[1..], digest);
    }
  }

  /** A file whose risk or retention column is not found adds nothing and writes nothing. */
  lemma SkippedFileChangesNothing(run: AlertRun, path: string, df: Frame, timestamp: string, digest: Digest)
    requires df.Valid() && DomainOf(path).Ok?
    requires !Truthy(DetectColumn(RiskColumnNames, df.columns)) || !Truthy(DetectColumn(RetentionColumnNames, df.columns))
    ensures ProcessFile(run, path, df, timestamp, digest) == run
  {
  }

  /** The script from its fresh ledger: every state it reaches is coherent. */
  lemma ScriptCoherent(inputs: seq<(string, Frame)>, stamps: seq<string>, genesisStamp: string, digest: Digest)
    requires |stamps| == |inputs| && AllValid(inputs)
    ensures Coherent(RunFiles(AlertRun(Genesis(genesisStamp, digest), [], [], false), inputs, stamps, digest), digest)
  {
    RunFilesCoherent(AlertRun(Genesis(genesisStamp, digest), [], [], false), inputs, stamps, digest);
  }

  lemma AllValidTail(inputs: seq<(string, Frame)>)
    requires inputs != [] && AllValid(inputs)
    ensures AllValid(inputs[1..])
  {
    forall k | 0 <= k < |inputs| - 1 ensures inputs[1..][k].1.Valid() {
      assert inputs[1..][k] == inputs[k + 1];
    }
  }

  /** A processed file: its transactions go into the buffer and one seal closes them. */
  lemma ProcessedFile(run: AlertRun, path: string, df: Frame, timestamp: string, digest: Digest)
    requires df.Valid() && Examine(path, df).Process?
    ensures var v := Examine(path, df);
      var alerted := WithAlerts(df, v.riskCol, v.retentionCol);
      var txs := FileTransactions(alerted, v.riskCol, v.retentionCol);
      var t := Step(LedgerState(run.ledger.chain, run.ledger.pending + txs), CreateBlock(None, timestamp), digest);
      ProcessFile(run, path, df, timestamp, digest)
        == AlertRun(t, run.alertFiles + [(AlertsPath(path), alerted)], run.saved + [(LedgerPath(v.domain), t.chain)], false)
  {
    var v := Examine(path, df);
    var alerted := WithAlerts(df, v.riskCol, v.retentionCol);
    SealAfterAdds(run.ledger, FileTransactions(alerted, v.riskCol, v.retentionCol), timestamp, digest);
  }

  /** What one file does to the run: a bad name ends it, a processed file writes two files. */
  lemma ProcessFileOutcome(run: AlertRun, path: string, df: Frame, timestamp: string, digest: Digest)
    requires df.Valid() && !run.crashed
    ensures ProcessFile(run, path, df, timestamp, digest).crashed <==> DomainOf(path).Err?
    ensures Examine(path, df).Process? ==> |ProcessFile(run, path, df, timestamp, digest).saved| == |run.saved| + 1
    ensures Examine(path, df).Process? ==> |ProcessFile(run, path, df, timestamp, digest).alertFiles| == |run.alertFiles| + 1
    ensures !Examine(path, df).Process? ==> |ProcessFile(run, path, df, timestamp, digest).saved| == |run.saved|
    ensures !Examine(path, df).Process? ==> |ProcessFile(run, path, df, timestamp, digest).alertFiles| == |run.alertFiles|
  {
    ProcessFileCrashes(run, path, df, timestamp, digest);
    if Examine(path, df).Process? {
      ProcessFileGrows(run, path, df, timestamp, digest);
    } else {
      ProcessFileKeeps(run, path, df, timestamp, digest);
    }
  }

  lemma ProcessFileCrashes(run: AlertRun, path: string, df: Frame, timestamp: string, digest: Digest)
    requires df.Valid() && !run.crashed
    ensures ProcessFile(run, path, df, timestamp, digest).crashed <==> DomainOf(path).Err?
  {
    ExamineBadName(path, df);
    var r := ProcessFile(run, path, df, timestamp, digest);
    match Examine(path, df)
    case BadFileName =>
      assert r == run.(crashed := true);
    case MissingColumns =>
      assert r == run;
    case Process(domain, riskCol, retentionCol) =>
      assert !r.crashed;
  }

  /** The file name is rejected exactly when no domain can be taken from it. */
  lemma ExamineBadName(path: string, df: Frame)
    ensures Examine(path, df).BadFileName? <==> DomainOf(path).Err?
  {
    match DomainOf(path)
    case Err(_) =>
      assert Examine(path, df) == BadFileName;
    case Ok(domain) =>
      var riskCol := DetectColumn(RiskColumnNames, df.columns);
      var retentionCol := DetectColumn(RetentionColumnNames, df.columns);
      assert Examine(path, df) == if !Truthy(riskCol) || !Truthy(retentionCol) then MissingColumns
        else Process(domain, riskCol.value, retentionCol.value);
  }

  lemma ProcessFileGrows(run: AlertRun, path: string, df: Frame, timestamp: string, digest: Digest)
    requires df.Valid() && !run.crashed
    requires Examine(path, df).Process?
    ensures |ProcessFile(run, path, df, timestamp, digest).saved| == |run.saved| + 1
    ensures |ProcessFile(run, path, df, timestamp, digest).alertFiles| == |run.alertFiles| + 1
  {
    var v := Examine(path, df);
    var alerted := WithAlerts(df, v.riskCol, v.retentionCol);
    var txs := FileTransactions(alerted, v.riskCol, v.retentionCol);
    var ledger := Replay(run.ledger, Adds(txs) + [CreateBlock(None, timestamp)], digest);
    assert ProcessFile(run, path, df, timestamp, digest)
        == AlertRun(ledger, run.alertFiles + [(AlertsPath(path), alerted)], run.saved + [(LedgerPath(v.domain), ledger.chain)], false);
  }

  lemma ProcessFileKeeps(run: AlertRun, path: string, df: Frame, timestamp: string, digest: Digest)
    requires df.Valid() && !run.crashed
    requires !Examine(path, df).Process?
    ensures |ProcessFile(run, path, df, timestamp, digest).saved| == |run.saved|
    ensures |ProcessFile(run, path, df, timestamp, digest).alertFiles| == |run.alertFiles|
  {
  }

  /** How many files the script processes before it ends. */
  function ProcessedCount(inputs: seq<(string, Frame)>): nat {
    if inputs == [] then 0
    else match Examine(inputs[0].0, inputs[0].1)
      case BadFileName => 0
      case MissingColumns => ProcessedCount(inputs[1..])
      case Process(_, _, _) => 1 + ProcessedCount(inputs[1..])
  }

  /**
   * The loop writes one alerts file and one ledger file per processed file, and it ends in
   * an exception exactly when some file name has no "_".
   */
  lemma {:induction false} RunFilesOutcome(run: AlertRun, inputs: seq<(string, Frame)>, stamps: seq<string>, digest: Digest)
    requires |stamps| == |inputs| && AllValid(inputs) && !run.crashed
    ensures var r := RunFiles(run, inputs, stamps, digest);
      && |r.saved| == |run.saved| + ProcessedCount(inputs)
      && |r.alertFiles| == |run.alertFiles| + ProcessedCount(inputs)
      && (r.crashed <==> exists k :: 0 <= k < |inputs| && DomainOf(inputs[k].0).Err?)
    decreases |inputs|
  {
    if inputs != [] {
      ProcessFileOutcome(run, inputs[0].0, inputs[0].1, stamps[0], digest);
      var next := ProcessFile(run, inputs[0].0, inputs[0].1, stamps[0], digest);
      AllValidTail(inputs);
      if !next.crashed {
        RunFilesOutcome(next, inputs[1..], stamps[1..], digest);
        BadNameInTail(inputs);
      } else {
        assert DomainOf(inputs[0].0).Err?;
      }
    }
  }

  /** Past a well-named first file, a badly named file is one of the rest. */
  lemma BadNameInTail(inputs: seq<(string, Frame)>)
    requires inputs != [] && DomainOf(inputs[0].0).Ok?
    ensures (exists k :: 0 <= k < |inputs| && DomainOf(inputs[k].0).Err?)
        <==> (exists k :: 0 <= k < |inputs| - 1 && DomainOf(inputs[1..][k].0).Err?)
  {
    if exists k :: 0 <= k < |inputs| && DomainOf(inputs[k].0).Err? {
      var k :| 0 <= k < |inputs| && DomainOf(inputs[k].0).Err?;
      assert k > 0 && inputs[1..][k - 1] == inputs[k];
    }
    if exists k :: 0 <= k < |inputs| - 1 && DomainOf(inputs[1..][k].0).Err? {
      var k :| 0 <= k < |inputs| - 1 && DomainOf(inputs[1..][k].0).Err?;
      assert inputs[1..][k] == inputs[k + 1];
    }
  }

  /** One `add_transaction` per row of the alerts frame, in row order. */
  method LogRows(bc: Blockchain, alerted: Frame, riskCol: string, retentionCol: string)
    requires alerted.Valid() && riskCol in alerted.columns && retentionCol in alerted.columns
    requires "Alert_Message" in alerted.columns && bc.Valid()
    modifies bc
    ensures bc.Valid() && bc.chain == old(bc.chain)
    ensures bc.pending == old(bc.pending) + FileTransactions(alerted, riskCol, retentionCol)
  {
    ghost var txs := FileTransactions(alerted, riskCol, retentionCol);
    var r := 0;
    while r < |alerted.rows|
      invariant 0 <= r <= |alerted.rows| && bc.Valid()
      invariant bc.chain == old(bc.chain) && bc.pending == old(bc.pending) + txs[..r]
    {
      var _ := bc.AddTransaction(AlertTransaction(alerted.rows[r], riskCol, retentionCol));
      assert txs[..r + 1] == txs[..r] + [txs[r]];
      r := r + 1;
    }
    assert txs[..r] == txs;
  }

  /** One turn of the loop over files, from position `i`. */
  lemma RunFilesAt(run: AlertRun, inputs: seq<(string, Frame)>, stamps: seq<string>, digest: Digest, i: nat)
    requires |stamps| == |inputs| && AllValid(inputs) && i < |inputs| && !run.crashed
    ensures AllValid(inputs[i + 1..])
    ensures RunFiles(run, inputs[i..], stamps[i..], digest)
         == RunFiles(ProcessFile(run, inputs[i].0, inputs[i].1, stamps[i], digest), inputs[i + 1..], stamps[i + 1..], digest)
  {
    assert inputs[i..][0] == inputs[i] && stamps[i..][0] == stamps[i];
    assert inputs[i..][1..] == inputs[i + 1..] && stamps[i..][1..] == stamps[i + 1..];
    AllValidTail(inputs[i..]);
  }

  /** The loop of the script, driving the shared ledger `bc`. */
  method GenerateAlerts(bc: Blockchain, inputs: seq<(string, Frame)>, stamps: seq<string>)
    returns (alertFiles: seq<(string, Frame)>, saved: seq<(string, seq<Block>)>, crashed: bool)
    requires |stamps| == |inputs| && AllValid(inputs) && bc.Valid()
    modifies bc
    ensures bc.Valid()
    ensures AlertRun(bc.Snapshot(), alertFiles, saved, crashed)
         == RunFiles(AlertRun(old(bc.Snapshot()), [], [], false), inputs, stamps, bc.digest)
  {
    alertFiles, saved, crashed := [], [], false;
    ghost var start := AlertRun(bc.Snapshot(), [], [], false);
    var i := 0;
    while i < |inputs|
      invariant 0 <= i <= |inputs| && bc.Valid() && !crashed
      invariant RunFiles(AlertRun(bc.Snapshot(), alertFiles, saved, crashed), inputs[i..], stamps[i..], bc.digest)
             == RunFiles(start, inputs, stamps, bc.digest)
      decreases |inputs| - i
    {
      var path := inputs[i].0;
      var df := inputs[i].1;
      ghost var before := AlertRun(bc.Snapshot(), alertFiles, saved, crashed);
      RunFilesAt(before, inputs, stamps, bc.digest, i);
      match Examine(path, df)
      case BadFileName =>
        crashed := true;
        break;
      case MissingColumns =>
        i := i + 1;
        continue;
      case Process(domain, riskCol, retentionCol) =>
        var alerted := WithAlerts(df, riskCol, retentionCol);
        alertFiles := alertFiles + [(AlertsPath(path), alerted)];
        LogRows(bc, alerted, riskCol, retentionCol);
        var _ := bc.CreateBlock(None, stamps[i]);
        saved := saved + [(LedgerPath(domain), bc.chain)];
        ProcessedFile(before, path, df, stamps[i], bc.digest);
        i := i + 1;
    }
  }

  /** The whole script: a fresh ledger at import time, then the loop over the three files. */
  method AlertScript(digest: Digest, genesisStamp: string, frames: seq<Frame>, stamps: seq<string>)
    returns (bc: Blockchain, alertFiles: seq<(string, Frame)>, saved: seq<(string, seq<Block>)>, crashed: bool)
    requires |frames| == |Files| == |stamps|
    requires forall k :: 0 <= k < |frames| ==> frames[k].Valid()
    ensures !crashed && |alertFiles| == |saved| <= |Files|
    ensures |bc.chain| == |saved| + 1 && bc.pending == [] && bc.Valid() && HashLinked(bc.chain, digest)
    ensures forall j :: 0 <= j < |saved| ==> saved[j].1 == bc.chain[..j + 2]
    ensures forall j :: 0 <= j < |saved| ==> |bc.chain[j + 1].transactions| == |alertFiles[j].1.rows|
  {
    bc := new Blockchain(digest, genesisStamp);
    var inputs := ScriptInputs(frames);
    alertFiles, saved, crashed := GenerateAlerts(bc, inputs, stamps);
    ScriptRunsEveryFile(frames, stamps, genesisStamp, digest);
  }

  /** The script's three files paired with their contents. */
  function ScriptInputs(frames: seq<Frame>): (inputs: seq<(string, Frame)>)
    requires |frames| == |Files|
    ensures |inputs| == |Files|
    ensures forall k :: 0 <= k < |Files| ==> inputs[k] == (Files[k], frames[k])
  {
    seq(|Files|, k requires 0 <= k < |Files| => (Files[k], frames[k]))
  }

  /** The script's files all name a domain, so the run never crashes and stays coherent. */
  lemma ScriptRunsEveryFile(frames: seq<Frame>, stamps: seq<string>, genesisStamp: string, digest: Digest)
    requires |frames| == |Files| == |stamps|
    requires forall k :: 0 <= k < |frames| ==> frames[k].Valid()
    ensures var r := RunFiles(AlertRun(Genesis(genesisStamp, digest), [], [], false), ScriptInputs(frames), stamps, digest);
      !r.crashed && |r.alertFiles| == |r.saved| <= |Files| && Coherent(r, digest)
  {
    var inputs := ScriptInputs(frames);
    assert AllValid(inputs);
    ScriptCoherent(inputs, stamps, genesisStamp, digest);
    ScriptNamesDomains(frames);
    RunFilesOutcome(AlertRun(Genesis(genesisStamp, digest), [], [], false), inputs, stamps, digest);
    ProcessedAtMost(inputs);
  }

  lemma ScriptNamesDomains(frames: seq<Frame>)
    requires |frames| == |Files|
    ensures forall k :: 0 <= k < |Files| ==> DomainOf(ScriptInputs(frames)[k].0).Ok?
  {
    ScriptFiles();
  }

  lemma {:induction false} ProcessedAtMost(inputs: seq<(string, Frame)>)
    ensures ProcessedCount(inputs) <= |inputs|
    decreases |inputs|
  {
    if inputs != [] {
      ProcessedAtMost(inputs[1..]);
    }
  }
}
