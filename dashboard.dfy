/**
  scripts/dashboard.py: the data side of the dashboard. `LoadData` builds the
  frame every page displays, the dashboard page computes its indicators from
  the anomaly rows, and the log page shows those rows in a fixed column order.
 */
module Dashboard {
  import opened Wrappers
  import opened Frames
  import opened ThreatRules
  import opened Features
  import ProtocolEncoding

  /** `pd.date_range(start='2024-01-01', periods=n, freq='S')`, in seconds after midnight. */
  function Timeline(n: nat): (t: seq<int>)
    ensures |t| == n && forall i :: 0 <= i < n ==> t[i] == i
  {
    seq(n, i => i)
  }

  /**
    Loads the capture statistics (`csv`, None when the file does not exist) and
    adds, in this order, the synthetic `Time` column, `"N/A"` address columns
    where the file has none, the protocol codes, the IsolationForest `flags`
    (contamination 0.04, given as input) and the 1000-byte threat labels.
   */
  method LoadData(csv: Option<Frame>, flags: seq<int>) returns (df: Option<Frame>)
    requires csv.Some? ==> csv.value.Valid() && |flags| == csv.value.height
    ensures df.Some? <==> csv.Some?
    ensures df.Some? ==>
      var f, g := csv.value, df.value;
      && g.Valid() && g.height == f.height
      && g.protocol == f.protocol && g.packetLength == f.packetLength
      && g.score == f.score && g.extra == f.extra
      && g.time.Some? && (forall i :: 0 <= i < g.height ==> g.time.value[i] == i)
      && g.srcIp.Some? && g.dstIp.Some?
      && (f.srcIp.Some? ==> g.srcIp == f.srcIp)
      && (f.srcIp.None? ==> forall i :: 0 <= i < g.height ==> g.srcIp.value[i] == "N/A")
      && (f.dstIp.Some? ==> g.dstIp == f.dstIp)
      && (f.dstIp.None? ==> forall i :: 0 <= i < g.height ==> g.dstIp.value[i] == "N/A")
      && g.protocolCode == Some(ProtocolEncoding.Codes(f.protocol))
      && g.anomaly == Some(flags)
      && g.threatType.Some?
      && forall i :: 0 <= i < g.height ==>
           g.threatType.value[i] == Classify(DashboardRule, flags[i], f.packetLength[i])
  {
    if csv.None? {
      return None;
    }
    var f := csv.value;
    f := f.(time := Some(Timeline(f.height)));
    if f.srcIp.None? {
      f := f.(srcIp := Some(seq(f.height, _ => "N/A")));
    }
    if f.dstIp.None? {
      f := f.(dstIp := Some(seq(f.height, _ => "N/A")));
    }
    f := WithProtocolCodes(f);
    f := f.(anomaly := Some(flags));
    f := WithThreats(DashboardRule, f);
    return Some(f);
  }

  /** The indicators of the dashboard page. */
  datatype Indicators = Indicators(total: nat, threats: nat, risk: real)

  /**
    `risk` on the dashboard page: the anomalies' percentage of all packets, or 0
    when there are no packets.
   */
  function Risk(threats: nat, total: nat): (risk: real)
    requires threats <= total
    ensures 0.0 <= risk <= 100.0
    ensures total == 0 ==> risk == 0.0
    ensures total > 0 ==> risk * (total as real) == 100.0 * (threats as real)
  {
    if total > 0 then Percent(threats, total) else 0.0
  }

  /** The number of packets, the number of anomaly rows and the risk they amount to. */
  function Kpis(df: Frame): (k: Indicators)
    requires df.Valid() && df.anomaly.Some?
    ensures k.total == df.height
    ensures k.threats == |AnomalyIndices(df.anomaly.value)| <= k.total
    ensures k.risk == Risk(k.threats, k.total)
  {
    var anomalies := AnomalyRows(df);
    Indicators(df.height, anomalies.height, Risk(anomalies.height, df.height))
  }

  /** Python's `list.insert(i, x)` for `i >= 0`: `x` lands at position `i`, or at the end if `i` is past it. */
  function ListInsert(s: seq<string>, i: nat, x: string): (r: seq<string>)
    ensures |r| == |s| + 1
    ensures var k := if i < |s| then i else |s|;
      r[..k] == s[..k] && r[k] == x && r[k + 1..] == s[k..]
  {
    if i < |s| then s[..i] + [x] + s[i..] else s + [x]
  }

  /** The columns the log page shows, by which address columns the frame has. */
  function ShownColumns(hasSrc: bool, hasDst: bool): seq<string>
  {
    match (hasSrc, hasDst)
    case (true, true) => ["Time", "src_ip", "dst_ip", "protocol", "packet_length", "Threat_Type"]
    case (true, false) => ["Time", "src_ip", "protocol", "packet_length", "Threat_Type"]
    case (false, true) => ["Time", "protocol", "dst_ip", "packet_length", "Threat_Type"]
    case (false, false) => ["Time", "protocol", "packet_length", "Threat_Type"]
  }

  /**
    The shown list always starts with `Time` and ends with `Threat_Type`, holds
    each address column exactly when the frame has it, and never repeats a name.
  */
  lemma ShownColumnsContents(hasSrc: bool, hasDst: bool)
    ensures var cols := ShownColumns(hasSrc, hasDst);
      && 4 <= |cols| <= 6
      && cols[0] == "Time" && cols[|cols| - 1] == "Threat_Type"
      && ("src_ip" in cols <==> hasSrc)
      && ("dst_ip" in cols <==> hasDst)
      && "protocol" in cols && "packet_length" in cols
      && (forall i, j :: 0 <= i < j < |cols| ==> cols[i] != cols[j])
  {
  }

  /** `cols_to_show`: the base list, with the address columns inserted at positions 1 and 2. */
  method ColumnsToShow(df: Frame) returns (cols: seq<string>)
    ensures cols == ShownColumns(HasColumn(df, "src_ip"), HasColumn(df, "dst_ip"))
  {
    cols := ["Time", "protocol", "packet_length", "Threat_Type"];
    if HasColumn(df, "src_ip") {
      cols := ListInsert(cols, 1, "src_ip");
    }
    if HasColumn(df, "dst_ip") {
      cols := ListInsert(cols, 2, "dst_ip");
    }
  }

  /**
    The "threats" tab of the log page: the anomaly rows, restricted to the shown
    columns, and their count. Each shown column exists, so `anomalies[cols]`
    raises no KeyError.
   */
  method ThreatLog(df: Frame) returns (view: Table, count: nat)
    requires df.Valid() && df.anomaly.Some? && df.time.Some? && df.threatType.Some?
    ensures count == |AnomalyIndices(df.anomaly.value)|
    ensures view.names == ShownColumns(HasColumn(df, "src_ip"), HasColumn(df, "dst_ip"))
    ensures |view.columns| == |view.names|
    ensures forall k :: 0 <= k < |view.names| ==> HasColumn(df, view.names[k]) && |view.columns[k]| == count
    ensures forall k, j :: 0 <= k < |view.names| && 0 <= j < count ==>
              view.columns[k][j] == ColumnNamed(df, view.names[k]).value[AnomalyIndices(df.anomaly.value)[j]]
  {
    var anomalies := AnomalyRows(df);
    count := anomalies.height;
    var cols := ColumnsToShow(anomalies);
    view := Project(anomalies, cols);
  }

  /** The full log list, in the order `cols_to_show` builds it when both address columns exist. */
  const FullLogColumns := ["Time", "src_ip", "dst_ip", "protocol", "packet_length", "Threat_Type"]

  /**
    The cells of the full log list over a frame `g`, read off the frame's
    fields: shown row j is row `idx[j]` of `Time`, the addresses, `protocol`,
    `packet_length` and `Threat_Type`.
   */
  lemma FullLogCells(g: Frame, idx: seq<nat>, t: Table)
    requires g.Valid() && g.time.Some? && g.srcIp.Some? && g.dstIp.Some? && g.threatType.Some?
    requires forall j :: 0 <= j < |idx| ==> idx[j] < g.height
    requires t.names == FullLogColumns && |t.columns| == 6
    requires forall k :: 0 <= k < 6 ==> |t.columns[k]| == |idx|
    requires forall k, j :: 0 <= k < 6 && 0 <= j < |idx| ==>
               t.columns[k][j] == ColumnNamed(g, t.names[k]).value[idx[j]]
    ensures forall j :: 0 <= j < |idx| ==>
              && t.columns[0][j] == Stamp(g.time.value[idx[j]])
              && t.columns[1][j] == Str(g.srcIp.value[idx[j]])
              && t.columns[2][j] == Str(g.dstIp.value[idx[j]])
              && t.columns[3][j] == Str(g.protocol[idx[j]])
              && t.columns[4][j] == Int(g.packetLength[idx[j]])
              && t.columns[5][j] == Str(g.threatType.value[idx[j]])
  {
    forall j | 0 <= j < |idx|
      ensures t.columns[0][j] == Stamp(g.time.value[idx[j]])
      ensures t.columns[1][j] == Str(g.srcIp.value[idx[j]])
      ensures t.columns[2][j] == Str(g.dstIp.value[idx[j]])
      ensures t.columns[3][j] == Str(g.protocol[idx[j]])
      ensures t.columns[4][j] == Int(g.packetLength[idx[j]])
      ensures t.columns[5][j] == Str(g.threatType.value[idx[j]])
    {
      assert t.columns[0][j] == ColumnNamed(g, "Time").value[idx[j]];
      assert t.columns[1][j] == ColumnNamed(g, "src_ip").value[idx[j]];
      assert t.columns[2][j] == ColumnNamed(g, "dst_ip").value[idx[j]];
      assert t.columns[3][j] == ColumnNamed(g, "protocol").value[idx[j]];
      assert t.columns[4][j] == ColumnNamed(g, "packet_length").value[idx[j]];
      assert t.columns[5][j] == ColumnNamed(g, "Threat_Type").value[idx[j]];
    }
  }

  /**
    The log page after loading: `LoadData` always supplies both address
    columns, so the six columns of the full list are shown, for exactly the
    rows flagged -1, in order. Shown row j is capture row `idx[j]`: its time
    offset, its addresses (or "N/A" when the file has none), its protocol, its
    length and its label by the 1000-byte rule.
   */
  method LogsPage(csv: Option<Frame>, flags: seq<int>) returns (view: Option<Table>)
    requires csv.Some? ==> csv.value.Valid() && |flags| == csv.value.height
    ensures view.Some? <==> csv.Some?
    ensures view.Some? ==>
      var t, f, idx := view.value, csv.value, AnomalyIndices(flags);
      && t.names == FullLogColumns
      && |t.columns| == 6
      && (forall k :: 0 <= k < 6 ==> |t.columns[k]| == |idx|)
      && forall j :: 0 <= j < |idx| ==>
           && t.columns[0][j] == Stamp(idx[j])
           && t.columns[1][j] == Str(if f.srcIp.Some? then f.srcIp.value[idx[j]] else "N/A")
           && t.columns[2][j] == Str(if f.dstIp.Some? then f.dstIp.value[idx[j]] else "N/A")
           && t.columns[3][j] == Str(f.protocol[idx[j]])
           && t.columns[4][j] == Int(f.packetLength[idx[j]])
           && t.columns[5][j] == Str(if f.packetLength[idx[j]] > 1000
                                     then "Potential Data Exfiltration" else "Suspicious Scanning")
  {
    var df := LoadData(csv, flags);
    if df.None? {
      return None;
    }
    var f, g := csv.value, df.value;
    var t, count := ThreatLog(g);
    var idx := AnomalyIndices(flags);
    FullLogCells(g, idx, t);
    forall j | 0 <= j < |idx|
      ensures g.threatType.value[idx[j]] == (if f.packetLength[idx[j]] > 1000
                                             then "Potential Data Exfiltration" else "Suspicious Scanning")
    {
      assert flags[idx[j]] == -1;
    }
    return Some(t);
  }
}
