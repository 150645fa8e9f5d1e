# Churn pipeline ledger and decision logic, in Dafny

This project models the core of a customer-churn pipeline. The pipeline scores customers
with a neural network, sorts them into risk tiers and writes alerts. It records what it did
in hash-chained ledgers. The model covers five source files:

- `src/blockchain_storage.py` is the `Blockchain` class: a chain of sealed blocks and a buffer
  of pending transactions. It is modelled as the class `Ledger.Blockchain` and as a state
  machine over `LedgerState` values. The state machine has one `Step` per
  `add_transaction`/`create_block` call, and `Replay` runs a sequence of calls. The class
  methods are proved to perform exactly one `Step`. The invariants are proved about `Replay`:
  the genesis shape, contiguous indices, that a seal drains the buffer, that sealed blocks
  never change, and the hash link. The parse of line 18,
  `(previous_hash or hash(chain[-1])) if chain else "0"`, is reproduced in `LinkFor`.
- `src/app.py` contributes the risk tiers, the retention strategy and the feature alignment of
  the `/predict` handler. It also contributes the summary record appended to the flat
  upload ledger, and what `/dashboard` and `/alerts` read back from that ledger.
- `src/predict.py` contributes the three-level `risk_level` and the `predict_churn` pipeline:
  drop `Churn`, encode, align, score, threshold and tier.
- `src/alert_system.py` contributes domain extraction from the file name, column detection,
  `alert_message` and the alerts-file name. It also contributes the loop over the three
  retention files, which logs one transaction per row in the shared ledger and seals one
  block per processed file. `GenerateAlerts` is that loop over a `Blockchain` object. It is
  proved equal to the fold `RunFiles`. The fold is proved to keep a coherence invariant:
  the chain has one block per processed file plus genesis, each saved ledger file holds the
  whole chain so far, and each block holds one transaction per row.
- `src/visualize_results.py` contributes the loop over the domains. For each domain the loop
  finds the risk column and computes the numbers the pie and bar charts show. The high and
  medium counts are proved equal to the rows the alert script tags ALERT and CAUTION.

Some parameters stand in for parts the model does not compute:

- SHA-256 over key-sorted JSON is the parameter `digest: Json -> string`. JSON objects are
  maps, so key order does not exist in the hashed value.
- Wall-clock time is a timestamp argument.
- Files are values passed in and returned.
- Pandas frames are `Frames.Frame`: column labels in order, plus one map per row.

## Model

| member | source | states |
|---|---|---|
| Ledger.Blockchain.constructor | src/blockchain_storage.py:6-11 | a new ledger holds exactly one block with index 1, no transactions and `previous_hash` "0"; the buffer is empty and the chain is well formed and hash-linked |
| Ledger.Blockchain.CreateBlock | src/blockchain_storage.py:13-22 | appends exactly one block and returns it. The block's index is the old length + 1 and its transactions are the old buffer in order. Its link follows the line-18 parse. The buffer is emptied. Well-formedness is kept, and so are the hash links when no argument is passed |
| Ledger.Blockchain.AddTransaction | src/blockchain_storage.py:24-30 | the buffer grows by the transaction at its end, the chain is unchanged, and the result is the last index + 1, which is the chain length + 1 |
| Ledger.Blockchain.LastBlock | src/blockchain_storage.py:32-33 | gives the final block exactly when the chain is non-empty, so never None on a well-formed chain |
| Ledger.LinkFor | src/blockchain_storage.py:18 | "0" on an empty chain; otherwise a truthy argument wins, else the hash of the last block |
| Ledger.GenesisShape | src/blockchain_storage.py:6-11 | construction's state is `[Block(1, t, [], "0")]` with an empty buffer, well formed and hash-linked |
| Ledger.SealExtends | src/blockchain_storage.py:15-21 | a seal appends one block with the next index holding the old buffer, empties the buffer, and keeps the chain well formed |
| Ledger.SealKeepsLinks | src/blockchain_storage.py:18 | an argument-less seal on a non-empty, hash-linked chain keeps every link valid |
| Ledger.ReplayWellFormed | src/blockchain_storage.py:13-30 | any sequence of calls keeps the genesis block first and the indices contiguous (block i has index i + 1) |
| Ledger.ReplayKeepsSealedBlocks | src/blockchain_storage.py:17-21 | after any calls the old chain is a prefix of the new one, which grew by exactly the number of seals |
| Ledger.ReplayHashLinked | src/blockchain_storage.py:18 | if only argument-less seals follow, every block k >= 2 names the hash of block k - 1 |
| Ledger.ReplayAdds | src/blockchain_storage.py:29 | adding transactions only appends them to the buffer; the chain is untouched |
| Ledger.SealAfterAdds | src/blockchain_storage.py:17-20 | adds followed by one seal equal a single seal of the old buffer followed by the added transactions |
| Ledger.SealBatch | src/blockchain_storage.py:17-20 | from an empty buffer, adds then one seal put exactly those transactions, in order, in one new block, and leave the buffer empty |
| Ledger.TwoSealScenario | src/blockchain_storage.py:13-30 | two adds, a seal, then a second seal: both transactions are in block 2, block 3 is empty, and each links to its predecessor's hash |
| Ledger.HashIgnoresKeyOrder | src/blockchain_storage.py:36-38 | listing the block's keys in any order gives the same hash |
| Ledger.BlockKeys | src/blockchain_storage.py:14-19 | the hashed dict has exactly the keys index, timestamp, transactions and previous_hash |
| Ledger.BlockFields | src/blockchain_storage.py:14-19 | each key of the hashed dict holds the corresponding block field, with the transactions in order |
| Ledger.ToJsonInjective | src/blockchain_storage.py:36-38 | two blocks with the same hashed value are the same block, so the hash input loses no field |
| Ledger.TamperBreaksLink | src/blockchain_storage.py:18 | with a collision-free digest, changing any block that has a successor breaks that successor's link |
| JsonValues.KeyOrderIrrelevant | src/blockchain_storage.py:37 | two dicts with the same entries in any insertion order have the same canonical object |
| App.GetRiskLevel | src/app.py:51-57 | total into {High, Medium, Low}: High iff prob >= 0.7, Medium iff 0.4 <= prob < 0.7, Low iff prob < 0.4 |
| App.RiskLevelMonotone | src/app.py:51-57 | a larger probability never gives a lower tier |
| App.GetRetentionStrategy | src/app.py:63-76 | at prob >= 0.7, MonthlyCharges > 80 gives the discount offer ahead of the contract check; otherwise Month-to-month gives the upgrade offer, else team intervention |
| App.StrategyFollowsRiskTier | src/app.py:63-76 | loyalty points iff Medium, upsell iff Low, one of the three intervention offers iff High |
| App.StrategyIgnoresRowBelowHigh | src/app.py:72-76 | below 0.7 the strategy does not depend on the row |
| Frames.AlignFeatures | src/app.py:166-170 | the columns become the feature list exactly and in order (the same loop is src/predict.py:54-58). Existing feature cells are kept, missing features are 0, and other columns are gone |
| App.RiskColumn | src/app.py:182 | one tier per probability, position by position |
| App.TiersPartition | src/app.py:202-205 | the High, Medium and Low counts add up to the number of customers |
| App.HighRiskIdsCount | src/app.py:206 | one id is listed per High row |
| App.UploadRecordConsistent | src/app.py:199-207 | in the record, high + medium + low == total_customers == the row count, and len(high_risk_ids) == high_risk |
| App.UploadLedger.constructor | src/app.py:82-86 | a missing ledger file reads as the empty list |
| App.UploadLedger.LogUpload | src/app.py:197-210 | exactly one record is appended at the end and earlier records are unchanged |
| App.Dashboard | src/app.py:105-127 | total_uploads is the ledger length. An empty ledger gives zeros and "-". Otherwise the last record's counts and timestamp are shown, or KeyError names the first key, in read order, that the last record lacks |
| App.AlertIds | src/app.py:224-233 | the last record's high_risk_ids, or [] when the ledger is empty or the key is absent |
| App.DashboardShowsLast | src/app.py:108-109 | the dashboard reads the record appended last |
| App.AlertIdsShowLast | src/app.py:227-229 | the alerts page reads the record appended last, or [] without the key |
| App.UploadRecordKeys | src/app.py:199-207 | the record carries every key the two pages read |
| App.PagesShowLatestUpload | src/app.py:197-233 | after an upload, the dashboard shows that upload's counts and the alerts page shows its High ids |
| Predict.RiskLevel | src/predict.py:15-22 | total into {LOW, MEDIUM, HIGH}: LOW iff prob < 0.3, MEDIUM iff 0.3 <= prob < 0.7, HIGH iff prob >= 0.7 |
| Predict.RiskLevelMonotone | src/predict.py:15-22 | a larger probability never gives a lower level |
| Predict.TieringsDisagreeOnlyBelowPointFour | src/predict.py:17-20 | this tiering and the app's agree exactly outside [0.3, 0.4); inside it, this one says MEDIUM and the app says Low |
| Predict.ChurnPrediction | src/predict.py:69 | 1 iff the probability reaches the threshold, else 0 |
| Predict.PredictChurn | src/predict.py:25-74 | output columns are exactly the feature list, zero-filled where the encoded frame lacks one; one prediction and one level per scored row, each agreeing with its probability |
| Frames.DropColumnIfPresent | src/predict.py:36-37 | the column is removed when present and the frame is unchanged otherwise; other columns and cells are kept |
| Frames.AddConstantColumn | src/predict.py:55-56 | a new last column, with every row given the value |
| Frames.Select | src/predict.py:58 | the frame restricted to the labels in their order, with cells kept |
| AlertSystem.DetectColumn | src/alert_system.py:32-33 | a detected name is one of the frame's columns |
| AlertSystem.DetectColumnFirst | src/alert_system.py:32-33 | None iff no candidate is a column; otherwise the first candidate that is one |
| AlertSystem.DomainShape | src/alert_system.py:25 | IndexError iff the base name has no "_". Otherwise the domain is the text after its first "_", up to the next "_" or "." or the end |
| AlertSystem.RetentionFileDomain | src/alert_system.py:25 | `outputs/retention_<d>.csv` has domain d |
| AlertSystem.RetentionFileAlertsPath | src/alert_system.py:52 | for every domain d that does not itself contain "retention", the alerts file of `outputs/retention_<d>.csv` is `outputs/alerts_<d>.csv` |
| AlertSystem.ScriptFiles | src/alert_system.py:10-14 | the three files give the domains telecom, banking and ecommerce and alerts files beside them |
| PyText.ReplaceIsJoinOfSplit | src/alert_system.py:52 | `str.replace` replaces every non-overlapping occurrence: it is `new.join(s.split(old))` |
| PyText.SplitJoin | src/alert_system.py:25 | joining the pieces of a split with the separator gives the string back |
| PyText.SplitPiecesAvoidSeparator | src/alert_system.py:25 | no piece of a split contains the separator |
| PyText.Basename | src/alert_system.py:25 | the suffix of the path after its last "/", containing no "/" |
| PyText.Lower | src/alert_system.py:41 | same length, each ASCII capital lowered |
| AlertSystem.Classify | src/alert_system.py:41-47 | ALERT iff the lowered text is high or critical, CAUTION iff it is medium, no action otherwise |
| AlertSystem.MessageNamesItsKind | src/alert_system.py:40-47 | the message's prefix identifies exactly the row's classification |
| AlertSystem.NonTextIsNeverAnAlert | src/alert_system.py:41-42 | a number, boolean or NaN cell always gives the no-action message |
| AlertSystem.CustomerId | src/alert_system.py:59 | RowNumber if present, else id, else "N/A" |
| AlertSystem.WithAlerts | src/alert_system.py:49 | same rows and columns plus Alert_Message; each row gets the message for its risk and retention cells |
| AlertSystem.FileTransactions | src/alert_system.py:57-64 | one transaction per row |
| AlertSystem.FileTransactionRecordsRow | src/alert_system.py:57-64 | the transaction of row i has exactly four keys, holding the row's id, risk and action cells and its message, and that message names the row's kind |
| AlertSystem.Examine | src/alert_system.py:25-37 | a well-named file is processed iff both detected column names are truthy, and it is processed with its domain and exactly the names `DetectColumn` chose, both columns of the frame |
| AlertSystem.ExamineBadName | src/alert_system.py:25 | the file name is rejected exactly when no domain can be taken from it |
| AlertSystem.SkippedFileChangesNothing | src/alert_system.py:35-37 | a file missing either column adds no transaction, seals no block and writes no file |
| AlertSystem.ProcessedFile | src/alert_system.py:57-70 | a processed file puts its transactions into the buffer and seals them with one argument-less `create_block`, then records both written files |
| AlertSystem.SealFile | src/alert_system.py:57-67 | logging the rows and sealing appends exactly one linked block holding them, with the buffer empty after |
| AlertSystem.ProcessFileCoherent | src/alert_system.py:57-70 | one file keeps the coherence invariant |
| AlertSystem.ProcessFileCrashes | src/alert_system.py:25 | one file ends the script exactly when its name has no domain |
| AlertSystem.ProcessFileOutcome | src/alert_system.py:25-70 | one file ends the script iff its name has no domain; a processed file writes one alerts file and one ledger file, and a skipped one writes none |
| AlertSystem.RunFilesCoherent | src/alert_system.py:20-71 | the loop keeps coherence: k processed files leave k + 1 linked blocks, an empty buffer, each saved ledger holding the chain so far, and one transaction per row in each block |
| AlertSystem.ScriptCoherent | src/alert_system.py:7 | from the fresh ledger created at import, every reachable state is coherent |
| AlertSystem.RunFilesOutcome | src/alert_system.py:20-71 | one alerts and one ledger file per processed file; the script ends in an exception iff some file name has no "_" |
| AlertSystem.ScriptRunsEveryFile | src/alert_system.py:10-14 | with the script's own three names, the run never crashes and writes at most three pairs of files |
| AlertSystem.LogRows | src/alert_system.py:57-64 | the buffer grows by the file's transactions in row order; the chain is unchanged |
| AlertSystem.GenerateAlerts | src/alert_system.py:20-71 | the loop over files on the shared ledger ends in the state, written files and outcome of the fold `RunFiles` |
| AlertSystem.AlertScript | src/alert_system.py:7-71 | the script never crashes. The chain has one block per processed file plus genesis, is hash-linked, and has an empty buffer. Saved ledger j holds the first j + 2 blocks, and block j + 1 has one transaction per row of alerts file j |
| Visualize.JoinPath | src/visualize_results.py:18 | the joined path starts with the folder and ends with the name |
| Visualize.ChartsReadAlertFiles | src/visualize_results.py:18 | from the same root, the charts read exactly the alerts files the alert script writes |
| Visualize.Column | src/visualize_results.py:36 | the column's cell for every row, in row order |
| Visualize.Distribution | src/visualize_results.py:36 | `value_counts()` holds only non-NaN values of the column and no more entries than rows |
| Visualize.DistributionIsValueCounts | src/visualize_results.py:36 | `value_counts()` counts each non-NaN value of the column exactly as often as it occurs, and NaN not at all |
| Visualize.DrawCharts | src/visualize_results.py:17-61 | the loop over domains, with its continues and the AttributeError stop, draws exactly the charts of the fold `RunDomains` |
| Visualize.SkippedDomainDrawsNothing | src/visualize_results.py:20-31 | a missing alerts file or risk column draws nothing |
| Visualize.TierCountsBounded | src/visualize_results.py:48-52 | high + medium + low never exceeds the customer count |
| Visualize.ChartCountsMatchAlerts | src/visualize_results.py:49-52 | high is the number of ALERT rows and medium the number of CAUTION rows, so the alerts bar counts every row the alert script did not clear |
| Visualize.DomainChartsSound | src/visualize_results.py:33-61 | one domain keeps the charts drawn so far, and every bar chart it adds has tiers within the total and alerts == high + medium |
| Visualize.RunDomainsSound | src/visualize_results.py:17-61 | the whole loop keeps earlier charts and draws only sound bar charts |

## Left out

- SHA-256 and the bytes of `json.dumps(..., sort_keys=True)` are not computed. The digest is a
  parameter, applied to the block's JSON value.
- `datetime.now()` is not modelled. Every seal and every upload record takes its timestamp as
  an argument.
- File and JSON I/O is not modelled. This covers `load_blockchain`/`save_blockchain`,
  `json.dump` of the chain, and CSV reads and writes. The upload ledger is the list
  `UploadLedger.records`. The alert script's inputs are the frames passed in, and its outputs
  are the returned lists of written files. The chart script reads through a function
  argument. A missing retention file, on which `pd.read_csv` would raise in the alert script,
  is not modelled.
- Flask routes, templates, the upload checks of `/predict` (src/app.py:144-156) and the
  results page are left out. So are the `/blockchain`, `/retention` and download routes.
- One-hot encoding, `fillna`, the scaler and the Keras network are parameters (`encode` and
  `score` in `Predict.PredictChurn`). In the app, the upload record is built from
  probabilities given as input.
- Probabilities and MonthlyCharges are `real`. No floating-point rounding is modelled. A NaN
  MonthlyCharges compares false like an absent one, so it is modelled as absent.
- CSV cells are null, bool, int or string. Float cells and their `str()` text are not
  modelled.
- `PyText.Lower` lowers ASCII letters only; Unicode case mapping is not modelled.
- `Visualize.StrAccessorApplies` approximates pandas dtype inference: `.str` is taken to
  apply when the column has some string cell or no rows.
- The pie chart's drawing, colours and slice order are not modelled (`value_counts` is a
  multiset). Matplotlib figures and files are not modelled either.
- `print` output is not modelled.
- The source has no chain-verification routine, no atomic file writes and no error
  taxonomy, so none is modelled. `Ledger.TamperBreaksLink` only states what the hash link
  protects.
- src/train_ann.py, src/feature_selection.py, src/preprocess.py, src/create_combined_dataset.py,
  src/check_columns.py, src/main.py and src/retention_strategy.py are not part of this model.
- Blocks and transactions are immutable values. In the source, `create_block` and `last_block`
  return the chain's own dict and `add_transaction` keeps the caller's dict, so a caller that
  mutated one of them would change a sealed block. That aliasing is not modelled (no caller in
  the modelled scripts mutates them); "sealed blocks never change" holds for the model's values.
- App.UploadLedger.LogUpload: requires that the uploaded frame's first column is not one of
  Probability, Prediction, Risk or Strategy. The source overwrites such a column before it
  reads the ids from it, and that case is not modelled.
- Ledger.Blockchain.AddTransaction: requires a well-formed chain. On an empty chain the
  source raises TypeError, but construction always leaves one block, so this cannot happen.
- AlertSystem.AlertScript: takes every file as readable. The loop itself
  (`AlertSystem.GenerateAlerts`) accepts any file names and models the IndexError exit.
