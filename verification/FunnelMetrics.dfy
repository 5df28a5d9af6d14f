/** Scoring a report against ground truth, stage by stage. */
module FunnelMetrics {
  import opened Prelude
  import opened Funnel

  datatype GroundTruth = GroundTruth(path: string, category: string, line: int)

  datatype Row = Row(name: string, tp: nat, fn: int, recall: real, fp: nat, tokens: int, seconds: real)

  /** A verified CWE decides the category if it is registered, else the candidate's own. */
  function CategoryOf(registry: map<string, string>, f: Finding): string {
    if f.verification.Some? && f.verification.value.cwe != "" && f.verification.value.cwe in registry
    then registry[f.verification.value.cwe] else f.candidate.category
  }

  /** The path with forward slashes. */
  function Norm(path: string): (r: string)
    ensures |r| == |path| && forall i | 0 <= i < |r| :: r[i] == if path[i] == '\\' then '/' else path[i]
  {
    if |path| == 0 then ""
    else Norm(path[..|path| - 1]) + [if path[|path| - 1] == '\\' then '/' else path[|path| - 1]]
  }

  predicate Hits(registry: map<string, string>, f: Finding, path: string, category: string) {
    Norm(f.candidate.path) == path && CategoryOf(registry, f) == category
  }

  predicate Matched(registry: map<string, string>, hits: seq<Finding>, g: GroundTruth) {
    exists i | 0 <= i < |hits| :: Hits(registry, hits[i], g.path, g.category)
  }

  predicate Spurious(registry: map<string, string>, f: Finding, truth: seq<GroundTruth>) {
    forall i | 0 <= i < |truth| :: !Hits(registry, f, truth[i].path, truth[i].category)
  }

  function TruePositives(registry: map<string, string>, hits: seq<Finding>, truth: seq<GroundTruth>): (n: nat)
    ensures n <= |truth|
  {
    CountBounded((g: GroundTruth) => Matched(registry, hits, g), truth);
    Count((g: GroundTruth) => Matched(registry, hits, g), truth)
  }

  function FalsePositiveCount(registry: map<string, string>, hits: seq<Finding>, truth: seq<GroundTruth>): nat {
    Count((f: Finding) => Spurious(registry, f, truth), hits)
  }

  /** What the findings at each stage are: all, those triage kept, those confirmed. */
  function AtStage(fs: seq<Finding>, stage: nat): seq<Finding>
    requires stage < 3
  {
    if stage == 0 then fs else if stage == 1 then Filter(IsKept, fs) else Filter(IsConfirmed, fs)
  }

  function StageName(stage: nat): string
    requires stage < 3
  {
    ["semgrep", "+triage", "full"][stage]
  }

  function TriageCost(fs: seq<Finding>): int {
    Sum(f => TriageTokens(f, true), fs) + Sum(f => TriageTokens(f, false), fs)
  }

  function VerifyCost(fs: seq<Finding>): int {
    Sum(f => VerifyTokens(f, true), fs) + Sum(f => VerifyTokens(f, false), fs)
  }

  /** The tokens spent up to and including the stage, over all findings. */
  function StageTokens(fs: seq<Finding>, stage: nat): int
    requires stage < 3
  {
    if stage == 0 then 0 else if stage == 1 then TriageCost(fs) else TriageCost(fs) + VerifyCost(fs)
  }

  function StageSeconds(report: Report, stage: nat): real
    requires stage < 3
  {
    report.semgrepSeconds + (if stage >= 1 then report.triageSeconds else 0.0) + (if stage == 2 then report.verifySeconds else 0.0)
  }

  /** The row says of the stage what it should: every column. */
  ghost predicate Scores(registry: map<string, string>, report: Report, truth: seq<GroundTruth>, stage: nat, row: Row)
    requires stage < 3
  {
    && row.name == StageName(stage)
    && row.tp == TruePositives(registry, AtStage(report.findings, stage), truth)
    && row.fp == FalsePositiveCount(registry, AtStage(report.findings, stage), truth)
    && row.tp + row.fn == |truth|
    && row.recall == (if |truth| == 0 then 0.0 else row.tp as real / |truth| as real)
    && row.tokens == StageTokens(report.findings, stage)
    && row.seconds == StageSeconds(report, stage)
  }

  lemma ScoresDetermine(registry: map<string, string>, report: Report, truth: seq<GroundTruth>, stage: nat, a: Row, b: Row)
    requires stage < 3 && Scores(registry, report, truth, stage, a) && Scores(registry, report, truth, stage, b)
    ensures a == b
  {
  }

  // ---- Fewer hits never score more -----------------------------------------------------------

  lemma {:induction false} FilteredWasThere<T>(p: T -> bool, s: seq<T>, i: nat)
    requires i < |Filter(p, s)|
    ensures exists k | 0 <= k < |s| :: s[k] == Filter(p, s)[i]
  {
    var init := s[..|s| - 1];
    if i < |Filter(p, init)| {
      FilteredWasThere(p, init, i);
      var k :| 0 <= k < |init| && init[k] == Filter(p, init)[i];
      assert s[k] == Filter(p, s)[i];
    } else {
      assert s[|s| - 1] == Filter(p, s)[i];
    }
  }

  lemma {:induction false} CountMonotone<T>(p: T -> bool, q: T -> bool, s: seq<T>)
    requires forall x | x in s :: p(x) ==> q(x)
    ensures Count(p, s) <= Count(q, s)
  {
    if |s| > 0 {
      CountMonotone(p, q, s[..|s| - 1]);
    }
  }

  lemma {:induction false} CountFiltered<T>(p: T -> bool, keep: T -> bool, s: seq<T>)
    ensures Count(p, Filter(keep, s)) <= Count(p, s)
  {
    if |s| > 0 {
      var init := s[..|s| - 1];
      CountFiltered(p, keep, init);
      if keep(s[|s| - 1]) {
        assert (Filter(keep, init) + [s[|s| - 1]])[..|Filter(keep, init)|] == Filter(keep, init);
      }
    }
  }

  lemma MatchedByFewer(registry: map<string, string>, keep: Finding -> bool, fs: seq<Finding>, g: GroundTruth)
    requires Matched(registry, Filter(keep, fs), g)
    ensures Matched(registry, fs, g)
  {
    var i :| 0 <= i < |Filter(keep, fs)| && Hits(registry, Filter(keep, fs)[i], g.path, g.category);
    FilteredWasThere(keep, fs, i);
  }

  /** Dropping findings can lose true positives and false positives but gain neither. */
  lemma FewerHitsScoreLess(registry: map<string, string>, keep: Finding -> bool, fs: seq<Finding>, truth: seq<GroundTruth>)
    ensures TruePositives(registry, Filter(keep, fs), truth) <= TruePositives(registry, fs, truth)
    ensures FalsePositiveCount(registry, Filter(keep, fs), truth) <= FalsePositiveCount(registry, fs, truth)
  {
    forall g | g in truth && Matched(registry, Filter(keep, fs), g) ensures Matched(registry, fs, g) {
      MatchedByFewer(registry, keep, fs, g);
    }
    CountMonotone((g: GroundTruth) => Matched(registry, Filter(keep, fs), g), (g: GroundTruth) => Matched(registry, fs, g), truth);
    CountFiltered((f: Finding) => Spurious(registry, f, truth), keep, fs);
  }

  ghost predicate AllFunneled(fs: seq<Finding>) {
    forall i | 0 <= i < |fs| :: Funneled(fs[i])
  }

  lemma {:induction false} ConfirmedAmongKept(fs: seq<Finding>)
    requires AllFunneled(fs)
    ensures Filter(IsConfirmed, fs) == Filter(IsConfirmed, Filter(IsKept, fs))
  {
    if |fs| > 0 {
      var init, f := fs[..|fs| - 1], fs[|fs| - 1];
      ConfirmedAmongKept(init);
      FilterSnoc(IsConfirmed, Filter(IsKept, init), f);
    }
  }

  /** On reports of the funnel, neither true nor false positives ever rise from stage to stage. */
  lemma StagesNeverRise(registry: map<string, string>, fs: seq<Finding>, truth: seq<GroundTruth>, stage: nat)
    requires AllFunneled(fs) && stage < 2
    ensures TruePositives(registry, AtStage(fs, stage + 1), truth) <= TruePositives(registry, AtStage(fs, stage), truth)
    ensures FalsePositiveCount(registry, AtStage(fs, stage + 1), truth) <= FalsePositiveCount(registry, AtStage(fs, stage), truth)
  {
    if stage == 0 {
      FewerHitsScoreLess(registry, IsKept, fs, truth);
    } else {
      ConfirmedAmongKept(fs);
      FewerHitsScoreLess(registry, IsConfirmed, Filter(IsKept, fs), truth);
    }
  }

  method Evaluate(registry: map<string, string>, report: Report, truth: seq<GroundTruth>) returns (rows: seq<Row>)
    ensures |rows| == 3
    ensures forall k | 0 <= k < 3 :: Scores(registry, report, truth, k, rows[k]) && 0.0 <= rows[k].recall <= 1.0
    ensures AllFunneled(report.findings) ==>
              && rows[2].tp <= rows[1].tp <= rows[0].tp
              && rows[2].fp <= rows[1].fp <= rows[0].fp
  {
    var s := Stats(report);
    var triageTokens := s.triageTokensIn + s.triageTokensOut;
    var tokens := [0, triageTokens, triageTokens + s.verifyTokensIn + s.verifyTokensOut];
    rows := [];
    for k := 0 to 3
      invariant |rows| == k
      invariant forall i | 0 <= i < k :: Scores(registry, report, truth, i, rows[i]) && 0.0 <= rows[i].recall <= 1.0
    {
      var row := ScoreRow(registry, report, truth, k, tokens[k]);
      rows := rows + [row];
    }
    if AllFunneled(report.findings) {
      StagesNeverRise(registry, report.findings, truth, 0);
      StagesNeverRise(registry, report.findings, truth, 1);
    }
  }

  method ScoreRow(registry: map<string, string>, report: Report, truth: seq<GroundTruth>, stage: nat, tokens: int)
    returns (row: Row)
    requires stage < 3 && tokens == StageTokens(report.findings, stage)
    ensures Scores(registry, report, truth, stage, row) && 0.0 <= row.recall <= 1.0
  {
    var hits := AtStage(report.findings, stage);
    var tp := TruePositives(registry, hits, truth);
    var recall := 0.0;
    if |truth| > 0 {
      recall := tp as real / |truth| as real;
      ShareBounded(tp, |truth|);
    }
    row := Row(StageName(stage), tp, |truth| - tp, recall, FalsePositiveCount(registry, hits, truth),
               tokens, StageSeconds(report, stage));
  }

  lemma ShareBounded(part: nat, whole: nat)
    requires part <= whole && whole > 0
    ensures 0.0 <= part as real / whole as real <= 1.0
  {
  }

  lemma {:induction false} CountBounded<T>(p: T -> bool, s: seq<T>)
    ensures Count(p, s) <= |s|
  {
    if |s| > 0 {
      CountBounded(p, s[..|s| - 1]);
    }
  }
}
