/**
  The rule-based threat classifier that both scripts apply row by row with
  `np.select(conditions, choices, default='Unknown')`.
 */
module ThreatRules {

  /**
    `np.select` for one row: the choice of the first condition that holds, or the
    default when none holds.
   */
  function SelectFirst(conditions: seq<bool>, choices: seq<string>, default: string): (r: string)
    requires |conditions| == |choices|
    ensures (forall k :: 0 <= k < |conditions| ==> !conditions[k]) ==> r == default
    ensures forall k :: 0 <= k < |conditions| && conditions[k] &&
              (forall j :: 0 <= j < k ==> !conditions[j])
              ==> r == choices[k]
    decreases |conditions|
  {
    if |conditions| == 0 then default
    else if conditions[0] then choices[0]
    else
      var r := SelectFirst(conditions[1..], choices[1..], default);
      assert forall k :: 0 < k < |conditions| ==> conditions[1..][k - 1] == conditions[k];
      r
  }

  /**
    The parameters in which the two scripts differ: the byte threshold above which
    an anomalous packet counts as exfiltration, and the four labels.
   */
  datatype ThreatRule = ThreatRule(
    threshold: int,
    normal: string,
    exfiltration: string,
    scanning: string,
    unknown: string)
  {
    /** The four labels are pairwise different. */
    predicate DistinctLabels()
    {
      && normal != exfiltration && normal != scanning && normal != unknown
      && exfiltration != scanning && exfiltration != unknown
      && scanning != unknown
    }
  }

  /** scripts/detection_anomalies.py: threshold 1500 bytes. */
  const DetectorRule := ThreatRule(1500, "Normal", "Potential Data Exfiltration",
                                   "Suspicious Scanning/Probe", "Unknown")

  /** scripts/dashboard.py: threshold 1000 bytes. */
  const DashboardRule := ThreatRule(1000, "Normal", "Potential Data Exfiltration",
                                    "Suspicious Scanning", "Unknown")

  /** The threat label of one row with anomaly flag `anomaly` and size `length`. */
  function Classify(rule: ThreatRule, anomaly: int, length: int): (threat: string)
    ensures anomaly == 1 ==> threat == rule.normal
    ensures anomaly == -1 && length > rule.threshold ==> threat == rule.exfiltration
    ensures anomaly == -1 && length <= rule.threshold ==> threat == rule.scanning
    ensures anomaly != 1 && anomaly != -1 ==> threat == rule.unknown
  {
    var conditions := [anomaly == 1,
                       anomaly == -1 && length > rule.threshold,
                       anomaly == -1 && length <= rule.threshold];
    var choices := [rule.normal, rule.exfiltration, rule.scanning];
    var threat := SelectFirst(conditions, choices, rule.unknown);
    assert conditions[1] ==> threat == choices[1];
    assert conditions[2] ==> threat == choices[2];
    threat
  }

  /**
    With distinct labels, the fallback label is produced exactly for flags
    outside {1, -1}.
   */
  lemma UnknownIffUnexpectedFlag(rule: ThreatRule, anomaly: int, length: int)
    requires rule.DistinctLabels()
    ensures Classify(rule, anomaly, length) == rule.unknown <==> anomaly != 1 && anomaly != -1
  {
  }

  /** The detector's rule: the label of each case, with ties at 1500 bytes going to scanning. */
  lemma DetectorCases(anomaly: int, length: int)
    ensures anomaly == 1 ==> Classify(DetectorRule, anomaly, length) == "Normal"
    ensures anomaly == -1 && length > 1500 ==>
              Classify(DetectorRule, anomaly, length) == "Potential Data Exfiltration"
    ensures anomaly == -1 && length <= 1500 ==>
              Classify(DetectorRule, anomaly, length) == "Suspicious Scanning/Probe"
    ensures anomaly != 1 && anomaly != -1 ==> Classify(DetectorRule, anomaly, length) == "Unknown"
  {
  }

  /** The dashboard's rule: the same cases, with the tie at 1000 bytes. */
  lemma DashboardCases(anomaly: int, length: int)
    ensures anomaly == 1 ==> Classify(DashboardRule, anomaly, length) == "Normal"
    ensures anomaly == -1 && length > 1000 ==>
              Classify(DashboardRule, anomaly, length) == "Potential Data Exfiltration"
    ensures anomaly == -1 && length <= 1000 ==>
              Classify(DashboardRule, anomaly, length) == "Suspicious Scanning"
    ensures anomaly != 1 && anomaly != -1 ==> Classify(DashboardRule, anomaly, length) == "Unknown"
  {
  }

  /** The labels of a whole column: row `i` gets the label of its flag and length. */
  function ThreatLabels(rule: ThreatRule, anomalies: seq<int>, lengths: seq<int>): (labels: seq<string>)
    requires |anomalies| == |lengths|
    ensures |labels| == |anomalies|
    ensures forall i :: 0 <= i < |labels| ==> labels[i] == Classify(rule, anomalies[i], lengths[i])
  {
    seq(|anomalies|, i requires 0 <= i < |anomalies| => Classify(rule, anomalies[i], lengths[i]))
  }
}
