/**
  The column-adding steps both scripts apply to the frame read from the capture
  file (protocol codes, threat labels), and the percentage both print.
 */
module Features {
  import opened Wrappers
  import opened Frames
  import opened ThreatRules
  import ProtocolEncoding

  /**
    `df['protocol_code'] = df['protocol'].astype('category').cat.codes`: one code
    per row; every other column stays as it was.
   */
  function WithProtocolCodes(f: Frame): (g: Frame)
    requires f.Valid()
    ensures g.Valid() && g.protocolCode.Some? && g == f.(protocolCode := g.protocolCode)
    ensures g.protocolCode.value == ProtocolEncoding.Codes(f.protocol)
  {
    f.(protocolCode := Some(ProtocolEncoding.Codes(f.protocol)))
  }

  /**
    `df['Threat_Type'] = np.select(conditions, choices, default='Unknown')`: row
    `i` gets the label of its flag and size; the row count, the row order and
    every other column stay as they were.
   */
  function WithThreats(rule: ThreatRule, f: Frame): (g: Frame)
    requires f.Valid() && f.anomaly.Some?
    ensures g.Valid() && g.threatType.Some? && g == f.(threatType := g.threatType)
    ensures forall i :: 0 <= i < f.height ==>
              g.threatType.value[i] == Classify(rule, f.anomaly.value[i], f.packetLength[i])
  {
    f.(threatType := Some(ThreatLabels(rule, f.anomaly.value, f.packetLength)))
  }

  /**
    When every flag is 1 or -1 and the rule's labels differ, no row is labelled
    with the fallback label.
   */
  lemma NoUnknownThreats(rule: ThreatRule, f: Frame)
    requires f.Valid() && f.anomaly.Some? && rule.DistinctLabels()
    requires forall i :: 0 <= i < f.height ==> f.anomaly.value[i] == 1 || f.anomaly.value[i] == -1
    ensures forall i :: 0 <= i < f.height ==> WithThreats(rule, f).threatType.value[i] != rule.unknown
  {
  }

  /**
    The rows of a classified frame that the anomaly filter keeps are labelled
    exfiltration when larger than the threshold and scanning otherwise.
   */
  lemma AnomalyRowsAreThreats(rule: ThreatRule, f: Frame)
    requires f.Valid() && f.anomaly.Some?
    ensures var g := AnomalyRows(WithThreats(rule, f));
      && g.height == |AnomalyIndices(f.anomaly.value)|
      && g.threatType.Some?
      && forall j :: 0 <= j < g.height ==>
           g.threatType.value[j] ==
             if g.packetLength[j] > rule.threshold then rule.exfiltration else rule.scanning
  {
    var t := WithThreats(rule, f);
    var g := AnomalyRows(t);
    var idx := AnomalyIndices(f.anomaly.value);
    forall j | 0 <= j < g.height
      ensures g.threatType.value[j] ==
                if g.packetLength[j] > rule.threshold then rule.exfiltration else rule.scanning
    {
      var i := idx[j];
      assert f.anomaly.value[i] == -1;
      assert ColumnNamed(g, "Threat_Type").value[j] == ColumnNamed(t, "Threat_Type").value[i];
      assert ColumnNamed(g, "packet_length").value[j] == ColumnNamed(t, "packet_length").value[i];
    }
  }

  /**
    `count / total * 100`: `count` as a percentage of `total`, between 0 and 100
    when `count` is at most `total`. Floating-point rounding is not modelled.
   */
  function Percent(count: nat, total: nat): (p: real)
    requires 0 < total
    ensures p * (total as real) == 100.0 * (count as real)
    ensures 0.0 <= p && (count <= total ==> p <= 100.0)
  {
    var t := total as real;
    var q := count as real / t;
    assert q * t == count as real;
    assert 0.0 <= q;
    assert count <= total ==> q <= 1.0;
    q * 100.0
  }
}
