# Network anomaly detection: the row-level data logic

This project models the data logic of a small network-supervision system, and
proves properties of it. Two Python scripts share that logic around an
IsolationForest outlier detector:

- `scripts/detection_anomalies.py`: an `AnomalyDetector` object. It loads the
  packet statistics of a capture, encodes each packet's protocol as an integer
  code, stores the detector's flag (1 normal, -1 anomalous) and score for each
  packet, labels every packet with a threat type, and exports only the
  anomalous packets.
- `scripts/dashboard.py`: the data side of a web dashboard. It loads the same
  file and adds a synthetic per-packet timestamp. It fills in missing
  source/destination address columns with `"N/A"`, then encodes the protocol,
  stores the flags and labels the threats with its own threshold. From the
  anomalous rows it computes a risk percentage and a log table with a fixed
  column list.

The model is in Dafny:

- `frames.dfy` (`Frames`) is the data frame. Each column the scripts read or
  write is a typed field. `protocol` and `packet_length` are always present.
  The other fields are either present or absent: the address columns depend on
  the file, and the derived columns appear as the scripts add them. Any other
  column of the file is kept unchanged in a map. The module also holds the
  `df[df['anomaly'] == -1]` filter (`AnomalyRows`) and the column selection
  `df[names]` (`Project`).
- `string_order.dfy` (`StringOrder`) is the lexicographic code-point order in
  which pandas sorts the distinct labels of a string column.
- `protocol_encoding.dfy` (`ProtocolEncoding`) is
  `protocol.astype('category').cat.codes`. The categories are the sorted
  distinct labels, and each row's code is its label's position among them.
- `threat_rules.dfy` (`ThreatRules`) covers `np.select` and the threat rule.
  The rule takes the threshold and the label set as parameters. It has two
  instances: 1500 bytes with `'Suspicious Scanning/Probe'` for the detector,
  and 1000 bytes with `'Suspicious Scanning'` for the dashboard.
- `features.dfy` (`Features`) holds the two column-adding steps both scripts
  share, and the percentage both scripts compute.
- `detection.dfy` (`Detection`) is the `AnomalyDetector` class, with its fields
  `df` and `model`. `LoadData`, `TrainModel` and `ClassifyThreats` update the
  fields in place; `SaveResults` only reads them. A requires clause per step
  enforces the call order: load, train, classify, save. `RunDetection` is the
  script's main block.
- `dashboard.dfy` (`Dashboard`) covers `load_data` as a method that adds the
  columns one by one, the indicators of the dashboard page, `cols_to_show`
  built with `list.insert`, and the log page.

The IsolationForest predictions are inputs. For the detector they are a
sequence of flags in {1, -1} and a sequence of scores, one of each per row;
for the dashboard they are a sequence of flags. A missing input file is a
`None` frame. The detector's fatal `sys.exit(1)` is a `false` return from
`LoadData`, exit status 1 from `RunDetection`, and no report. Timestamps are
integer seconds after 2024-01-01 00:00:00.

Further points of the model:

- Categories are in sorted order, as pandas infers them, not in order of
  first appearance.
- The scripts do not check for an empty file themselves. IsolationForest
  cannot be fit on an empty sample, so `TrainModel` requires at least one row.
  On an empty file, `RunDetection` ends with exit status 1 and no report, as
  the uncaught exception of `fit_predict` does.
- A saved model is never reloaded, and no error is raised for too few rows
  beyond that exception.
- The scripts exclude no rows. Every CSV row stays a row.

## Model

| member | source | states |
|---|---|---|
| ProtocolEncoding.Categories | scripts/detection_anomalies.py:30 | the inferred categories are strictly sorted (so without duplicates) and are exactly the labels that occur in the column |
| ProtocolEncoding.Codes | scripts/detection_anomalies.py:30 | one code per row, each in [0, number of categories) |
| ProtocolEncoding.CategoriesCount | scripts/detection_anomalies.py:30 | there are exactly as many categories as distinct protocol labels |
| ProtocolEncoding.CodesInRange | scripts/dashboard.py:71 | every code lies in [0, k) for k distinct labels |
| ProtocolEncoding.CodesEqualIff | scripts/detection_anomalies.py:30 | two rows have the same code if and only if they have the same protocol label |
| ProtocolEncoding.CodesMonotonic | scripts/detection_anomalies.py:30 | a label that sorts before another gets a smaller code, and conversely |
| ProtocolEncoding.CodesDense | scripts/detection_anomalies.py:30 | every code in [0, k) is used by some row |
| ProtocolEncoding.CodeCountsSmallerLabels | scripts/detection_anomalies.py:30 | a row's code equals the number of distinct labels of the column that sort before its label |
| ThreatRules.SelectFirst | scripts/detection_anomalies.py:60 | `np.select` for one row: the choice of the first true condition, or the default when none holds |
| ThreatRules.Classify | scripts/detection_anomalies.py:53-60 | flag 1 gives Normal whatever the length; flag -1 gives exfiltration above the threshold and scanning at or below it; any other flag gives the fallback |
| ThreatRules.UnknownIffUnexpectedFlag | scripts/detection_anomalies.py:53-60 | with distinct labels, 'Unknown' is produced if and only if the flag is neither 1 nor -1 |
| ThreatRules.DetectorCases | scripts/detection_anomalies.py:53-58 | the detector's rule: length exactly 1500 with flag -1 is 'Suspicious Scanning/Probe', above 1500 it is 'Potential Data Exfiltration' |
| ThreatRules.DashboardCases | scripts/dashboard.py:76-82 | the dashboard's rule: the same cases with threshold 1000, length exactly 1000 giving 'Suspicious Scanning' |
| ThreatRules.ThreatLabels | scripts/detection_anomalies.py:60 | one label per row, row i labelled from its own flag and length |
| Frames.AnomalyIndices | scripts/detection_anomalies.py:65 | the kept positions are increasing, each has flag -1, every position with flag -1 is kept, and there are at most as many as rows |
| Frames.AnomalyRows | scripts/detection_anomalies.py:65 | the filtered frame has the same columns; row j of every column is row idx[j] of the original, with idx the flagged positions in order; every kept flag is -1; the count is at most the total |
| Frames.Project | scripts/dashboard.py:192 | `df[names]` has the listed columns, in the listed order, each as in the frame |
| Features.WithProtocolCodes | scripts/detection_anomalies.py:30 | adds the protocol codes of the column and leaves every other column as it was |
| Features.WithThreats | scripts/detection_anomalies.py:60 | adds one Threat_Type per row from that row's flag and length; row count, row order and every other column unchanged |
| Features.NoUnknownThreats | scripts/detection_anomalies.py:53-60 | when every flag is 1 or -1, no row is labelled 'Unknown' |
| Features.AnomalyRowsAreThreats | scripts/detection_anomalies.py:60-65 | the rows kept by the anomaly filter after classification are labelled exfiltration above the threshold and scanning otherwise |
| Features.Percent | scripts/detection_anomalies.py:72 | the percentage times the total is 100 times the count, and it lies in [0, 100] when the count is at most the total |
| Detection.AnomalyDetector.constructor | scripts/detection_anomalies.py:12-17 | stores the three paths, the model path defaulting to models/isolation_forest.pkl; no model and no frame yet |
| Detection.AnomalyDetector.LoadData | scripts/detection_anomalies.py:19-31 | a missing file reports failure and leaves the state alone; otherwise the frame is the file with its protocol codes added |
| Detection.AnomalyDetector.TrainModel | scripts/detection_anomalies.py:33-42 | the model becomes the forest with contamination 0.05, seed 42, all cores; the frame gains the anomaly flags and the scores, nothing else changes |
| Detection.AnomalyDetector.ClassifyThreats | scripts/detection_anomalies.py:49-60 | the frame gains the 1500-byte threat labels, nothing else changes |
| Detection.AnomalyDetector.SaveResults | scripts/detection_anomalies.py:62-72 | the report is exactly the rows flagged -1; its count is at most the total and the rate is its percentage of the total |
| Detection.RunDetection | scripts/detection_anomalies.py:77-87 | no input file, or a file with no rows, gives exit status 1 and no report; otherwise exit status 0 and the report is the flagged rows of the input after adding the codes, the flags, the scores and the 1500-byte labels, so each has flag -1 and is labelled exfiltration above 1500 bytes and scanning otherwise |
| Dashboard.Timeline | scripts/dashboard.py:62 | one timestamp per row, row i at i seconds after 2024-01-01 00:00:00 |
| Dashboard.LoadData | scripts/dashboard.py:52-84 | no file gives None; otherwise one Time per row at i seconds, src_ip and dst_ip kept if present and all "N/A" if absent, the protocol codes, the flags, the 1000-byte labels; protocol, length, score and other columns unchanged |
| Dashboard.Risk | scripts/dashboard.py:148 | the risk lies in [0, 100], is 0 when there are no packets, and otherwise is the anomalies' percentage of the total |
| Dashboard.Kpis | scripts/dashboard.py:146-148 | total is the row count, threats is the number of rows flagged -1 (at most the total), risk as above |
| Dashboard.ListInsert | scripts/dashboard.py:189-190 | Python `list.insert`: the element lands at the index, or at the end past it, with the rest shifted and kept in order |
| Dashboard.ShownColumnsContents | scripts/dashboard.py:188-190 | the shown list starts with Time, ends with Threat_Type, contains protocol and packet_length, contains src_ip exactly when the frame has it and dst_ip likewise, and has no repeated name |
| Dashboard.ColumnsToShow | scripts/dashboard.py:188-190 | the displayed list is the base four with src_ip at position 1 and dst_ip at position 2 when present; with both present it is Time, src_ip, dst_ip, protocol, packet_length, Threat_Type |
| Dashboard.ThreatLog | scripts/dashboard.py:185-192 | the threats tab shows exactly the rows flagged -1, in order, restricted to the displayed columns, each of which exists |
| Dashboard.LogsPage | scripts/dashboard.py:181-192 | after loading, the six-column list is always shown; each column has one cell per flagged row, and shown row j is input row idx[j] (idx the flagged positions in order): its time offset idx[j], its addresses or "N/A" when the file has none, its protocol, its length, and its label, exfiltration above 1000 bytes and scanning otherwise |

## Left out

- IsolationForest `fit_predict` and `decision_function`: a randomised, floating-point, foreign computation. Their flags and scores are inputs. That the flags depend only on `packet_length` and `protocol_code` is not modelled.
- Saving the model with joblib and creating its directory: file I/O. `modelFile` is only stored.
- Reading and writing CSV files, the file-existence checks, `sys.exit` and all console output: I/O. A missing file is modelled as a `None` input.
- Formatting of the contamination rate and the risk as two-decimal percentages: floating-point output. The model computes them as exact reals.
- Streamlit page layout, CSS, charts, the sidebar menu, the metrics widgets, `st.cache_data`, the home page's packet count and `nunique`, and the dominant protocol `mode()`: presentation and caching.
- `scripts/analyse_trafic.py`: a packet-capture loop that only prints fields.
- The column order of the frame: it shows only in the full-traffic table and in the CSV header. The column order of the displayed log table is modelled.
- A capture file without a `protocol` or `packet_length` column: pandas raises a KeyError there and the scripts do not handle it. The model's frame always has both, `packet_length` as integers and `protocol` as text.
- Missing protocol values: pandas gives them code -1 and no category. The model's protocol labels are always strings.
- Dashboard.LoadData: does not model that IsolationForest raises on a file with no rows, so the model accepts an empty frame with no flags. The risk's zero guard then applies.
- Datetimes: `Time` is an integer offset in seconds from 2024-01-01 00:00:00, not a calendar value.
