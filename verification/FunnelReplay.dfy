/** From scan to replay: a report evaluated at once and the same report evaluated after being written and read back. */
module FunnelReplay {
  import opened Funnel
  import opened FunnelMetrics
  import opened ReportCodec

  lemma RunIsFunneled(fs: seq<Finding>, cs: seq<Candidate>, o: Options, triager: Stage<Triage>, verifier: Stage<Verification>)
    requires |fs| == |cs| && forall i | 0 <= i < |fs| :: fs[i] == FindingOf(o, triager, verifier, i, cs[i])
    ensures AllFunneled(fs) && OfRun(fs, o, triager, verifier)
  {
  }

  lemma RowsDetermined(registry: map<string, string>, report: Report, truth: seq<GroundTruth>, a: seq<Row>, b: seq<Row>)
    requires |a| == |b| == 3
    requires forall k | 0 <= k < 3 :: Scores(registry, report, truth, k, a[k]) && Scores(registry, report, truth, k, b[k])
    ensures a == b
  {
    forall k | 0 <= k < 3 ensures a[k] == b[k] {
      ScoresDetermine(registry, report, truth, k, a[k], b[k]);
    }
  }

  /**
    Scan, evaluate, write, read back, evaluate again: whatever the stages did, the report
    read back is the one written, its rows are the same in every column, and neither true
    nor false positives rise from stage to stage.
   */
  method ScanAndReplay(target: string, cs: seq<Candidate>, o: Options, triager: Stage<Triage>, verifier: Stage<Verification>,
                       semgrepSeconds: real, registry: map<string, string>, truth: seq<GroundTruth>)
    returns (report: Report, rows: seq<Row>, readBack: Result<Report>, replayed: seq<Row>)
    ensures readBack == Ok(report) && |rows| == 3 && replayed == rows
    ensures forall k | 0 <= k < 3 :: Scores(registry, report, truth, k, rows[k])
    ensures rows[2].tp <= rows[1].tp <= rows[0].tp && rows[2].fp <= rows[1].fp <= rows[0].fp
    ensures |report.findings| + report.truncated == |cs| <==> CapAllowed(o)
  {
    report := RunFunnel(target, cs, o, triager, verifier, semgrepSeconds);
    RunIsFunneled(report.findings, Survivors(cs, o), o, triager, verifier);
    rows := Evaluate(registry, report, truth);
    readBack := DecodeReport(EncodeReport(report));
    ReportRoundTrip(report);
    replayed := Evaluate(registry, readBack.value, truth);
    RowsDetermined(registry, report, truth, rows, replayed);
  }
}
