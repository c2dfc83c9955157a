/**
  scripts/detection_anomalies.py: the `AnomalyDetector` that loads the capture
  statistics, adds the protocol codes, takes the IsolationForest flags and
  scores, labels every row and exports the anomalous rows.
 */
module Detection {
  import opened Wrappers
  import opened Frames
  import opened ThreatRules
  import opened Features

  /**
    The settings the detector builds its IsolationForest with. The fitted model
    itself is not modelled: its predictions are inputs of `TrainModel`.
   */
  datatype ForestSettings = ForestSettings(contamination: real, randomState: int, nJobs: int)

  const DetectorForest := ForestSettings(0.05, 42, -1)

  /** A flag IsolationForest's `fit_predict` can return: 1 for inliers, -1 for outliers. */
  predicate IsFlag(x: int)
  {
    x == 1 || x == -1
  }

  class AnomalyDetector {
    const inputFile: string
    const outputFile: string
    const modelFile: string
    var model: Option<ForestSettings>
    var df: Option<Frame>

    constructor (inputFile: string, outputFile: string, modelFile: string := "models/isolation_forest.pkl")
      ensures this.inputFile == inputFile && this.outputFile == outputFile && this.modelFile == modelFile
      ensures model == None && df == None
    {
      this.inputFile := inputFile;
      this.outputFile := outputFile;
      this.modelFile := modelFile;
      model := None;
      df := None;
    }

    /** After `LoadData`: a frame with its protocol codes. */
    ghost predicate Loaded()
      reads this
    {
      df.Some? && df.value.Valid() && df.value.protocolCode.Some?
    }

    /** After `TrainModel`: the forest is set, and every row has a flag in {1, -1} and a score. */
    ghost predicate Trained()
      reads this
    {
      && Loaded() && model.Some? && df.value.height >= 1
      && df.value.anomaly.Some? && df.value.score.Some?
      && forall i :: 0 <= i < df.value.height ==> IsFlag(df.value.anomaly.value[i])
    }

    /** After `ClassifyThreats`: every row also has a threat label. */
    ghost predicate Classified()
      reads this
    {
      Trained() && df.value.threatType.Some?
    }

    /**
      Reads the capture statistics (`csv`, None when the input file does not
      exist) and adds the protocol codes. A missing file makes the script exit
      with status 1, which `ok == false` reports; nothing is loaded then.
     */
    method LoadData(csv: Option<Frame>) returns (ok: bool)
      requires csv.Some? ==> csv.value.Valid()
      modifies this
      ensures ok <==> csv.Some?
      ensures !ok ==> df == old(df)
      ensures ok ==> df == Some(WithProtocolCodes(csv.value)) && Loaded()
      ensures model == old(model)
    {
      if csv.None? {
        return false;
      }
      df := Some(WithProtocolCodes(csv.value));
      ok := true;
    }

    /**
      Fits the forest on `packet_length` and `protocol_code` and stores its
      predictions: the `flags` of `fit_predict` in the `anomaly` column and the
      `scores` of `decision_function` in the `score` column. IsolationForest
      refuses an empty sample, so the frame has at least one row.
     */
    method TrainModel(flags: seq<int>, scores: seq<real>)
      requires Loaded()
      requires |flags| == df.value.height && |scores| == df.value.height
      requires df.value.height >= 1
      requires forall i :: 0 <= i < |flags| ==> IsFlag(flags[i])
      modifies this
      ensures model == Some(DetectorForest)
      ensures df == Some(old(df.value).(anomaly := Some(flags), score := Some(scores)))
      ensures Trained()
    {
      model := Some(DetectorForest);
      df := Some(df.value.(anomaly := Some(flags), score := Some(scores)));
    }

    /** Adds the `Threat_Type` label of every row, by the 1500-byte rule. */
    method ClassifyThreats()
      requires Trained()
      modifies this
      ensures df == Some(WithThreats(DetectorRule, old(df.value)))
      ensures model == old(model)
      ensures Classified()
    {
      df := Some(WithThreats(DetectorRule, df.value));
    }

    /**
      The report written to the output file: the rows flagged -1, their count,
      and that count as a percentage of all rows (the contamination rate).
     */
    method SaveResults() returns (report: Frame, count: nat, rate: real)
      requires Classified()
      ensures report == AnomalyRows(df.value)
      ensures count == report.height <= df.value.height
      ensures rate == Percent(count, df.value.height) && 0.0 <= rate <= 100.0
    {
      var f := df.value;
      report := AnomalyRows(f);
      count := report.height;
      rate := Percent(count, f.height);
    }
  }

  /**
    The script run on one capture: load, train, classify, export. With no input
    file it exits with status 1 and writes nothing. On a file with no rows
    `fit_predict` raises, so the uncaught exception ends the process with status
    1 before any report is written. Otherwise the report is exactly the flagged
    rows of the classified frame, each labelled exfiltration when larger than
    1500 bytes and scanning otherwise.
   */
  method RunDetection(inputFile: string, outputFile: string, modelFile: string,
                      csv: Option<Frame>, flags: seq<int>, scores: seq<real>)
    returns (exitCode: int, report: Option<Frame>)
    requires csv.Some? ==> && csv.value.Valid()
                           && |flags| == csv.value.height && |scores| == csv.value.height
                           && forall i :: 0 <= i < |flags| ==> IsFlag(flags[i])
    ensures csv.None? ==> exitCode == 1 && report == None
    ensures csv.Some? && csv.value.height == 0 ==> exitCode == 1 && report == None
    ensures csv.Some? && csv.value.height >= 1 ==>
      && exitCode == 0
      && report == Some(AnomalyRows(WithThreats(DetectorRule,
                          WithProtocolCodes(csv.value).(anomaly := Some(flags), score := Some(scores)))))
    ensures report.Some? ==>
      && report.value.Valid() && report.value.height == |AnomalyIndices(flags)|
      && report.value.anomaly.Some? && report.value.threatType.Some?
      && forall j :: 0 <= j < report.value.height ==>
           && report.value.anomaly.value[j] == -1
           && report.value.threatType.value[j] ==
                if report.value.packetLength[j] > 1500
                then "Potential Data Exfiltration" else "Suspicious Scanning/Probe"
  {
    var detector := new AnomalyDetector(inputFile, outputFile, modelFile);
    var ok := detector.LoadData(csv);
    if !ok {
      return 1, None;
    }
    if detector.df.value.height == 0 {
      return 1, None;
    }
    detector.TrainModel(flags, scores);
    ghost var trained := detector.df.value;
    detector.ClassifyThreats();
    var r, count, rate := detector.SaveResults();
    AnomalyRowsAreThreats(DetectorRule, trained);
    return 0, Some(r);
  }
}
