/**
  The pandas DataFrame both scripts work on. The columns the scripts read or
  write are fields of their own, present or absent (`None`), and any other
  column of the capture file is carried along untouched in `extra`.
 */
module Frames {
  import opened Wrappers

  /**
    One cell. `Stamp(s)` is a timestamp `s` seconds after 2024-01-01 00:00:00;
    `Num` is a floating-point score, taken as an exact real.
   */
  datatype Value = Str(s: string) | Int(i: int) | Num(r: real) | Stamp(seconds: int)

  type Column = seq<Value>

  /** The names of the columns the scripts read or write. */
  const Known: set<string> := {"protocol", "packet_length", "src_ip", "dst_ip", "Time",
                               "protocol_code", "anomaly", "score", "Threat_Type"}

  /** An optional column is absent or has one cell per row. */
  predicate Fits<T>(c: Option<seq<T>>, height: nat)
  {
    c.Some? ==> |c.value| == height
  }

  datatype Frame = Frame(
    height: nat,
    protocol: seq<string>,
    packetLength: seq<int>,
    srcIp: Option<seq<string>>,
    dstIp: Option<seq<string>>,
    time: Option<seq<int>>,
    protocolCode: Option<seq<int>>,
    anomaly: Option<seq<int>>,
    score: Option<seq<real>>,
    threatType: Option<seq<string>>,
    extra: map<string, Column>)
  {
    /** Every column has `height` cells, and no extra column uses a known name. */
    ghost predicate Valid()
    {
      && |protocol| == height && |packetLength| == height
      && Fits(srcIp, height) && Fits(dstIp, height) && Fits(time, height)
      && Fits(protocolCode, height) && Fits(anomaly, height) && Fits(score, height)
      && Fits(threatType, height)
      && forall n :: n in extra ==> n !in Known && |extra[n]| == height
    }
  }

  function Strs(xs: seq<string>): (c: Column)
    ensures |c| == |xs| && forall i :: 0 <= i < |xs| ==> c[i] == Str(xs[i])
  {
    seq(|xs|, i requires 0 <= i < |xs| => Str(xs[i]))
  }

  function Ints(xs: seq<int>): (c: Column)
    ensures |c| == |xs| && forall i :: 0 <= i < |xs| ==> c[i] == Int(xs[i])
  {
    seq(|xs|, i requires 0 <= i < |xs| => Int(xs[i]))
  }

  function Nums(xs: seq<real>): (c: Column)
    ensures |c| == |xs| && forall i :: 0 <= i < |xs| ==> c[i] == Num(xs[i])
  {
    seq(|xs|, i requires 0 <= i < |xs| => Num(xs[i]))
  }

  function Stamps(xs: seq<int>): (c: Column)
    ensures |c| == |xs| && forall i :: 0 <= i < |xs| ==> c[i] == Stamp(xs[i])
  {
    seq(|xs|, i requires 0 <= i < |xs| => Stamp(xs[i]))
  }

  /** `name in df.columns`. */
  predicate HasColumn(f: Frame, name: string)
  {
    if name == "protocol" || name == "packet_length" then true
    else if name == "src_ip" then f.srcIp.Some?
    else if name == "dst_ip" then f.dstIp.Some?
    else if name == "Time" then f.time.Some?
    else if name == "protocol_code" then f.protocolCode.Some?
    else if name == "anomaly" then f.anomaly.Some?
    else if name == "score" then f.score.Some?
    else if name == "Threat_Type" then f.threatType.Some?
    else name in f.extra
  }

  /** `df[name]`: the column called `name`, or None where pandas raises a KeyError. */
  function ColumnNamed(f: Frame, name: string): (c: Option<Column>)
    requires f.Valid()
    ensures c.Some? <==> HasColumn(f, name)
    ensures c.Some? ==> |c.value| == f.height
  {
    if name == "protocol" then Some(Strs(f.protocol))
    else if name == "packet_length" then Some(Ints(f.packetLength))
    else if name == "src_ip" then (if f.srcIp.Some? then Some(Strs(f.srcIp.value)) else None)
    else if name == "dst_ip" then (if f.dstIp.Some? then Some(Strs(f.dstIp.value)) else None)
    else if name == "Time" then (if f.time.Some? then Some(Stamps(f.time.value)) else None)
    else if name == "protocol_code" then
      (if f.protocolCode.Some? then Some(Ints(f.protocolCode.value)) else None)
    else if name == "anomaly" then (if f.anomaly.Some? then Some(Ints(f.anomaly.value)) else None)
    else if name == "score" then (if f.score.Some? then Some(Nums(f.score.value)) else None)
    else if name == "Threat_Type" then
      (if f.threatType.Some? then Some(Strs(f.threatType.value)) else None)
    else if name in f.extra then Some(f.extra[name])
    else None
  }

  /**
    The positions of the rows whose flag is -1: increasing, and holding every
    such position and no other.
   */
  function AnomalyIndices(flags: seq<int>): (idx: seq<nat>)
    ensures |idx| <= |flags|
    ensures forall j :: 0 <= j < |idx| ==> idx[j] < |flags| && flags[idx[j]] == -1
    ensures forall j, k :: 0 <= j < k < |idx| ==> idx[j] < idx[k]
    ensures forall i :: 0 <= i < |flags| && flags[i] == -1 ==> i in idx
    decreases |flags|
  {
    if |flags| == 0 then []
    else
      var last := |flags| - 1;
      var front := AnomalyIndices(flags[..last]);
      assert forall i :: 0 <= i < last ==> flags[..last][i] == flags[i];
      if flags[last] == -1 then front + [last] else front
  }

  /** The elements of `s` at positions `idx`, in that order. */
  function Pick<T>(s: seq<T>, idx: seq<nat>): (r: seq<T>)
    requires forall j :: 0 <= j < |idx| ==> idx[j] < |s|
    ensures |r| == |idx| && forall j :: 0 <= j < |idx| ==> r[j] == s[idx[j]]
  {
    seq(|idx|, j requires 0 <= j < |idx| => s[idx[j]])
  }

  function PickOptional<T>(c: Option<seq<T>>, idx: seq<nat>): (r: Option<seq<T>>)
    requires c.Some? ==> forall j :: 0 <= j < |idx| ==> idx[j] < |c.value|
    ensures r.Some? <==> c.Some?
    ensures r.Some? ==> |r.value| == |idx| && forall j :: 0 <= j < |idx| ==> r.value[j] == c.value[idx[j]]
  {
    if c.Some? then Some(Pick(c.value, idx)) else None
  }

  /** The rows at positions `idx`, in that order, with all their columns. */
  function PickRows(f: Frame, idx: seq<nat>): (g: Frame)
    requires f.Valid() && forall j :: 0 <= j < |idx| ==> idx[j] < f.height
    ensures g.Valid() && g.height == |idx|
    ensures g.anomaly.Some? <==> f.anomaly.Some?
    ensures g.anomaly.Some? ==> forall j :: 0 <= j < |idx| ==> g.anomaly.value[j] == f.anomaly.value[idx[j]]
  {
    var extra := map n | n in f.extra :: Pick(f.extra[n], idx);
    assert forall n :: n in extra ==> n !in Known && |extra[n]| == |idx|;
    Frame(|idx|, Pick(f.protocol, idx), Pick(f.packetLength, idx),
          PickOptional(f.srcIp, idx), PickOptional(f.dstIp, idx),
          PickOptional(f.time, idx), PickOptional(f.protocolCode, idx),
          PickOptional(f.anomaly, idx), PickOptional(f.score, idx),
          PickOptional(f.threatType, idx), extra)
  }

  /** Picking rows keeps every column, and row `j` of each is row `idx[j]` of the original. */
  lemma PickRowsColumn(f: Frame, idx: seq<nat>, n: string, j: nat)
    requires f.Valid() && forall k :: 0 <= k < |idx| ==> idx[k] < f.height
    requires j < |idx|
    ensures var g := PickRows(f, idx);
      HasColumn(f, n) ==> ColumnNamed(g, n).value[j] == ColumnNamed(f, n).value[idx[j]]
  {
    var g := PickRows(f, idx);
    if n == "protocol" {
      assert ColumnNamed(g, n) == Some(Strs(g.protocol));
    } else if n == "packet_length" {
      assert ColumnNamed(g, n) == Some(Ints(g.packetLength));
    } else if n == "src_ip" {
    } else if n == "dst_ip" {
    } else if n == "Time" {
    } else if n == "protocol_code" {
    } else if n == "anomaly" {
    } else if n == "score" {
    } else if n == "Threat_Type" {
    } else {
      assert ColumnNamed(g, n) == if n in g.extra then Some(g.extra[n]) else None;
      assert ColumnNamed(f, n) == if n in f.extra then Some(f.extra[n]) else None;
    }
  }

  /** Picking rows keeps the same set of columns. */
  lemma PickRowsNames(f: Frame, idx: seq<nat>, n: string)
    requires f.Valid() && forall k :: 0 <= k < |idx| ==> idx[k] < f.height
    ensures HasColumn(PickRows(f, idx), n) <==> HasColumn(f, n)
  {
  }

  /**
    `df[df['anomaly'] == -1]`: every column keeps the cells of the rows whose
    flag is -1, and only those, in their original order.
   */
  function AnomalyRows(f: Frame): (g: Frame)
    requires f.Valid() && f.anomaly.Some?
    ensures g.Valid() && g.anomaly.Some?
    ensures g.height == |AnomalyIndices(f.anomaly.value)| <= f.height
    ensures forall j :: 0 <= j < g.height ==> g.anomaly.value[j] == -1
    ensures forall n :: HasColumn(g, n) <==> HasColumn(f, n)
    ensures forall n, j :: HasColumn(f, n) && 0 <= j < g.height ==>
              ColumnNamed(g, n).value[j] == ColumnNamed(f, n).value[AnomalyIndices(f.anomaly.value)[j]]
  {
    var idx := AnomalyIndices(f.anomaly.value);
    var g := PickRows(f, idx);
    forall n ensures HasColumn(g, n) <==> HasColumn(f, n) {
      PickRowsNames(f, idx, n);
    }
    forall n, j | HasColumn(f, n) && 0 <= j < g.height
      ensures ColumnNamed(g, n).value[j] == ColumnNamed(f, n).value[idx[j]]
    {
      PickRowsColumn(f, idx, n, j);
    }
    g
  }

  /** The columns `names` of a frame, in that order, as `df[names]` shows them. */
  datatype Table = Table(names: seq<string>, columns: seq<Column>)

  /** `df[names]`, for names that are all columns of the frame. */
  function Project(f: Frame, names: seq<string>): (t: Table)
    requires f.Valid() && forall k :: 0 <= k < |names| ==> HasColumn(f, names[k])
    ensures t.names == names && |t.columns| == |names|
    ensures forall k :: 0 <= k < |names| ==> t.columns[k] == ColumnNamed(f, names[k]).value
  {
    Table(names, seq(|names|, k requires 0 <= k < |names| => ColumnNamed(f, names[k]).value))
  }
}
