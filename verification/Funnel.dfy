/**
  The audit funnel: candidates are filtered and capped, pass triage and verification one
  by one, and every survivor becomes a finding. Stages may fail; a failure is a cautious result.
 */
module Funnel {
  import opened Prelude

  datatype Candidate = Candidate(
    checkId: string, path: string, startLine: int, endLine: int, snippet: string, message: string,
    cwe: Option<string>, category: string, source: string)

  datatype Triage = Triage(keep: bool, reason: string, model: string, tokensIn: int, tokensOut: int)

  /** What verification found; the request to replay an attack is carried as one value per field. */
  datatype Verification = Verification(
    verdict: string, cwe: string, taintPath: seq<string>, confidence: string, pocIdea: string, explanation: string,
    pocMethod: string, pocPath: string, pocQuery: string, pocBody: string, pocSignal: string,
    executionContext: string, error: Option<string>, model: string, tokensIn: int, tokensOut: int)

  datatype Finding = Finding(candidate: Candidate, triage: Option<Triage>, verification: Option<Verification>)

  datatype Report = Report(
    target: string, findings: seq<Finding>, truncated: int, createdAt: string,
    semgrepSeconds: real, triageSeconds: real, verifySeconds: real)

  datatype Options = Options(skipTriage: bool, skipVerify: bool, cap: Option<int>, categories: Option<set<string>>)

  // ---- Findings --------------------------------------------------------------------------

  predicate IsKept(f: Finding) {
    f.triage.None? || f.triage.value.keep
  }

  predicate IsConfirmed(f: Finding) {
    f.verification.Some? && f.verification.value.verdict == "confirmed"
  }

  predicate IsFalsePositive(f: Finding) {
    f.verification.Some? && f.verification.value.verdict == "false_positive"
  }

  predicate IsInconclusive(f: Finding) {
    f.verification.Some? && f.verification.value.verdict == "inconclusive"
  }

  /** Only what triage let through was verified. */
  predicate Funneled(f: Finding) {
    f.verification.Some? ==> IsKept(f)
  }

  // ---- Which candidates survive ------------------------------------------------------------

  /** The first `n` elements; a negative `n` counts from the end. */
  function Prefix<T>(s: seq<T>, n: int): (r: seq<T>)
    ensures |r| == if n >= 0 then (if n < |s| then n else |s|) else if |s| + n > 0 then |s| + n else 0
    ensures r <= s
  {
    if n >= 0 then (if n < |s| then s[..n] else s) else if |s| + n > 0 then s[..|s| + n] else []
  }

  function Selected(cs: seq<Candidate>, o: Options): seq<Candidate> {
    if o.categories.None? then cs else Filter((c: Candidate) => c.category in o.categories.value, cs)
  }

  function Survivors(cs: seq<Candidate>, o: Options): seq<Candidate> {
    if o.cap.Some? && |Selected(cs, o)| > o.cap.value then Prefix(Selected(cs, o), o.cap.value) else Selected(cs, o)
  }

  // ---- Stages --------------------------------------------------------------------------------

  datatype Attempt<T> = Returned(value: T) | Raised(message: string)

  /** What the stage does on its n-th candidate, and how long it takes. */
  type Stage<!T> = (nat, Candidate) -> (Attempt<T>, real)

  const TRIAGE_FAILED := "triage 层异常（保守保留）: "
  const VERIFY_FAILED := "verify 层异常: "

  function TriageOf(stage: Stage<Triage>, i: nat, c: Candidate): Triage {
    match stage(i, c).0
    case Returned(t) => t
    case Raised(e) => Triage(true, TRIAGE_FAILED + e, "", 0, 0)
  }

  function VerificationOf(stage: Stage<Verification>, i: nat, c: Candidate): Verification {
    match stage(i, c).0
    case Returned(v) => v
    case Raised(e) => Verification("inconclusive", "", [], "low", "", "", "", "", "", "", "", "unknown",
                                   Some(VERIFY_FAILED + e), "", 0, 0)
  }

  /** The finding a survivor becomes. */
  function FindingOf(o: Options, triager: Stage<Triage>, verifier: Stage<Verification>, i: nat, c: Candidate): (f: Finding)
    ensures f.candidate == c && Funneled(f)
    ensures f.triage.Some? <==> !o.skipTriage
    ensures f.verification.Some? <==> !o.skipVerify && IsKept(f)
    ensures f.triage.Some? ==>
              match triager(i, c).0
              case Returned(t) => f.triage.value == t
              case Raised(e) => f.triage.value.keep && f.triage.value.reason == TRIAGE_FAILED + e
    ensures f.verification.Some? ==>
              match verifier(i, c).0
              case Returned(v) => f.verification.value == v
              case Raised(e) => IsInconclusive(f) && f.verification.value.error == Some(VERIFY_FAILED + e)
  {
    var triage := if o.skipTriage then None else Some(TriageOf(triager, i, c));
    if o.skipVerify || (triage.Some? && !triage.value.keep) then Finding(c, triage, None)
    else Finding(c, triage, Some(VerificationOf(verifier, i, c)))
  }

  // ---- The run ---------------------------------------------------------------------------------

  /** The time triage takes over the first `n` survivors. */
  function TriageTime(o: Options, triager: Stage<Triage>, cs: seq<Candidate>, n: nat): real
    requires n <= |cs|
  {
    if n == 0 || o.skipTriage then 0.0 else TriageTime(o, triager, cs, n - 1) + triager(n - 1, cs[n - 1]).1
  }

  /** The time verification takes over the first `n` survivors: those triage kept. */
  function VerifyTime(o: Options, triager: Stage<Triage>, verifier: Stage<Verification>, cs: seq<Candidate>, n: nat): real
    requires n <= |cs|
  {
    if n == 0 then 0.0
    else
      var before := VerifyTime(o, triager, verifier, cs, n - 1);
      if FindingOf(o, triager, verifier, n - 1, cs[n - 1]).verification.Some? then before + verifier(n - 1, cs[n - 1]).1
      else before
  }

  /** How many candidates are reported as truncated. */
  function Truncated(cs: seq<Candidate>, o: Options): int {
    var left := |Selected(cs, o)|;
    |cs| - left + if o.cap.Some? && left > o.cap.value then left - o.cap.value else 0
  }

  predicate CapAllowed(o: Options) {
    o.cap.None? || o.cap.value >= 0
  }

  lemma SelectedFewer(cs: seq<Candidate>, o: Options)
    ensures |Selected(cs, o)| <= |cs|
  {
    if o.categories.Some? {
      FilterAll((c: Candidate) => c.category in o.categories.value, (c: Candidate) => true, cs);
    }
  }

  /** Survivors and truncated candidates add up to the candidates exactly when the cap is not negative. */
  lemma ConservedIff(cs: seq<Candidate>, o: Options)
    ensures |Survivors(cs, o)| + Truncated(cs, o) == |cs| <==> CapAllowed(o)
    ensures CapAllowed(o) ==> Truncated(cs, o) >= 0
  {
    SelectedFewer(cs, o);
  }

  /** With a cap of minus one every candidate is counted twice, and an empty scan reports one as truncated. */
  lemma NegativeCapExample(cs: seq<Candidate>)
    ensures var o := Options(true, true, Some(-1), None);
            |Survivors(cs, o)| + Truncated(cs, o) == |cs| + (if |cs| > 0 then |cs| else 1)
  {
  }

  method SelectCandidates(cs: seq<Candidate>, o: Options) returns (candidates: seq<Candidate>, truncated: int)
    ensures candidates == Survivors(cs, o) && truncated == Truncated(cs, o)
  {
    candidates, truncated := Selected(cs, o), 0;
    truncated := truncated + (|cs| - |candidates|);
    if o.cap.Some? && |candidates| > o.cap.value {
      truncated := truncated + (|candidates| - o.cap.value);
      candidates := Prefix(candidates, o.cap.value);
    }
  }

  /** One candidate through both stages, and the time each took. */
  method PassStages(o: Options, triager: Stage<Triage>, verifier: Stage<Verification>, i: nat, c: Candidate)
    returns (finding: Finding, triageSeconds: real, verifySeconds: real)
    ensures finding == FindingOf(o, triager, verifier, i, c)
    ensures triageSeconds == if o.skipTriage then 0.0 else triager(i, c).1
    ensures verifySeconds == if finding.verification.None? then 0.0 else verifier(i, c).1
  {
    finding, triageSeconds, verifySeconds := Finding(c, None, None), 0.0, 0.0;
    if !o.skipTriage {
      finding := finding.(triage := Some(TriageOf(triager, i, c)));
      triageSeconds := triager(i, c).1;
    }
    if IsKept(finding) && !o.skipVerify {
      finding := finding.(verification := Some(VerificationOf(verifier, i, c)));
      verifySeconds := verifier(i, c).1;
    }
  }

  /**
    One finding per survivor, in order, whatever the stages do. Findings and truncated
    candidates add up to the candidates exactly when the cap is not negative.
   */
  method RunFunnel(target: string, cs: seq<Candidate>, o: Options, triager: Stage<Triage>, verifier: Stage<Verification>,
                   semgrepSeconds: real) returns (report: Report)
    ensures |report.findings| == |Survivors(cs, o)|
    ensures forall i | 0 <= i < |report.findings| ::
              report.findings[i] == FindingOf(o, triager, verifier, i, Survivors(cs, o)[i])
    ensures report.truncated == Truncated(cs, o)
    ensures |report.findings| + report.truncated == |cs| <==> CapAllowed(o)
    ensures report.target == target && report.semgrepSeconds == semgrepSeconds
    ensures report.triageSeconds == TriageTime(o, triager, Survivors(cs, o), |Survivors(cs, o)|)
    ensures report.verifySeconds == VerifyTime(o, triager, verifier, Survivors(cs, o), |Survivors(cs, o)|)
  {
    var candidates, truncated := SelectCandidates(cs, o);
    ConservedIff(cs, o);
    var triageSeconds, verifySeconds, findings := 0.0, 0.0, [];
    for i := 0 to |candidates|
      invariant |findings| == i && triageSeconds == TriageTime(o, triager, candidates, i)
      invariant verifySeconds == VerifyTime(o, triager, verifier, candidates, i)
      invariant forall k | 0 <= k < i :: findings[k] == FindingOf(o, triager, verifier, k, candidates[k])
    {
      var finding, triageTime, verifyTime := PassStages(o, triager, verifier, i, candidates[i]);
      triageSeconds := triageSeconds + triageTime;
      verifySeconds := verifySeconds + verifyTime;
      findings := findings + [finding];
    }
    report := Report(target, findings, truncated, "", semgrepSeconds, triageSeconds, verifySeconds);
  }

  // ---- Statistics --------------------------------------------------------------------------------

  datatype LayerStats = LayerStats(
    candidates: nat, kept: nat, dropped: nat, confirmed: nat, falsePositives: nat, inconclusive: nat, errors: nat,
    triageTokensIn: int, triageTokensOut: int, verifyTokensIn: int, verifyTokensOut: int)

  function Count<T>(p: T -> bool, s: seq<T>): nat {
    if |s| == 0 then 0 else Count(p, s[..|s| - 1]) + if p(s[|s| - 1]) then 1 else 0
  }

  function Sum<T>(g: T -> int, s: seq<T>): int {
    if |s| == 0 then 0 else Sum(g, s[..|s| - 1]) + g(s[|s| - 1])
  }

  predicate IsTriagedOut(f: Finding) {
    f.triage.Some? && !f.triage.value.keep
  }

  predicate IsTriagedIn(f: Finding) {
    f.triage.Some? && f.triage.value.keep
  }

  /** Any verdict that is neither a confirmation nor a false positive counts as inconclusive here. */
  predicate IsUndecided(f: Finding) {
    f.verification.Some? && !IsConfirmed(f) && !IsFalsePositive(f)
  }

  predicate HasError(f: Finding) {
    f.verification.Some? && f.verification.value.error.Some? && f.verification.value.error.value != ""
  }

  function TriageTokens(f: Finding, incoming: bool): int {
    if f.triage.None? then 0 else if incoming then f.triage.value.tokensIn else f.triage.value.tokensOut
  }

  function VerifyTokens(f: Finding, incoming: bool): int {
    if f.verification.None? then 0 else if incoming then f.verification.value.tokensIn else f.verification.value.tokensOut
  }

  ghost predicate CountsLayers(s: LayerStats, fs: seq<Finding>) {
    && s.kept == Count(IsTriagedIn, fs) && s.dropped == Count(IsTriagedOut, fs)
    && s.confirmed == Count(IsConfirmed, fs) && s.falsePositives == Count(IsFalsePositive, fs)
    && s.inconclusive == Count(IsUndecided, fs) && s.errors == Count(HasError, fs)
  }

  ghost predicate CountsTokens(s: LayerStats, fs: seq<Finding>) {
    && s.triageTokensIn == Sum(f => TriageTokens(f, true), fs) && s.triageTokensOut == Sum(f => TriageTokens(f, false), fs)
    && s.verifyTokensIn == Sum(f => VerifyTokens(f, true), fs) && s.verifyTokensOut == Sum(f => VerifyTokens(f, false), fs)
  }

  function AddTriage(s: LayerStats, f: Finding): LayerStats {
    if f.triage.None? then s
    else
      var t := f.triage.value;
      s.(kept := if t.keep then s.kept + 1 else s.kept, dropped := if t.keep then s.dropped else s.dropped + 1,
         triageTokensIn := s.triageTokensIn + t.tokensIn, triageTokensOut := s.triageTokensOut + t.tokensOut)
  }

  function AddVerification(s: LayerStats, f: Finding): LayerStats {
    if f.verification.None? then s
    else
      var v := f.verification.value;
      var s1 := if v.verdict == "confirmed" then s.(confirmed := s.confirmed + 1)
                else if v.verdict == "false_positive" then s.(falsePositives := s.falsePositives + 1)
                else s.(inconclusive := s.inconclusive + 1);
      s1.(errors := if v.error.Some? && v.error.value != "" then s1.errors + 1 else s1.errors,
          verifyTokensIn := s1.verifyTokensIn + v.tokensIn, verifyTokensOut := s1.verifyTokensOut + v.tokensOut)
  }

  lemma CountSnoc<T>(p: T -> bool, s: seq<T>, i: nat)
    requires i < |s|
    ensures Count(p, s[..i + 1]) == Count(p, s[..i]) + if p(s[i]) then 1 else 0
  {
    assert s[..i + 1][..i] == s[..i];
  }

  lemma SumSnoc<T>(g: T -> int, s: seq<T>, i: nat)
    requires i < |s|
    ensures Sum(g, s[..i + 1]) == Sum(g, s[..i]) + g(s[i])
  {
    assert s[..i + 1][..i] == s[..i];
  }

  lemma OneMoreFinding(s: LayerStats, fs: seq<Finding>, i: nat)
    requires i < |fs| && CountsLayers(s, fs[..i]) && CountsTokens(s, fs[..i])
    ensures CountsLayers(AddVerification(AddTriage(s, fs[i]), fs[i]), fs[..i + 1])
    ensures CountsTokens(AddVerification(AddTriage(s, fs[i]), fs[i]), fs[..i + 1])
  {
    CountSnoc(IsTriagedIn, fs, i);
    CountSnoc(IsTriagedOut, fs, i);
    CountSnoc(IsConfirmed, fs, i);
    CountSnoc(IsFalsePositive, fs, i);
    CountSnoc(IsUndecided, fs, i);
    CountSnoc(HasError, fs, i);
    SumSnoc(f => TriageTokens(f, true), fs, i);
    SumSnoc(f => TriageTokens(f, false), fs, i);
    SumSnoc(f => VerifyTokens(f, true), fs, i);
    SumSnoc(f => VerifyTokens(f, false), fs, i);
  }

  method Stats(report: Report) returns (s: LayerStats)
    ensures s.candidates == |report.findings|
    ensures CountsLayers(s, report.findings) && CountsTokens(s, report.findings)
  {
    var fs := report.findings;
    s := LayerStats(|fs|, 0, 0, 0, 0, 0, 0, 0, 0, 0, 0);
    for i := 0 to |fs|
      invariant s.candidates == |fs| && CountsLayers(s, fs[..i]) && CountsTokens(s, fs[..i])
    {
      OneMoreFinding(s, fs, i);
      s := AddTriage(s, fs[i]);
      s := AddVerification(s, fs[i]);
    }
    assert fs[..|fs|] == fs;
  }

  /** The findings of a run of the funnel. */
  ghost predicate OfRun(fs: seq<Finding>, o: Options, triager: Stage<Triage>, verifier: Stage<Verification>) {
    forall i | 0 <= i < |fs| :: fs[i] == FindingOf(o, triager, verifier, i, fs[i].candidate)
  }

  /** Layer by layer nothing is lost: triage keeps or drops every finding, verification judges every kept one. */
  lemma {:induction false} LayersAddUp(fs: seq<Finding>, o: Options, triager: Stage<Triage>, verifier: Stage<Verification>)
    requires OfRun(fs, o, triager, verifier)
    ensures Count(IsTriagedIn, fs) + Count(IsTriagedOut, fs) == if o.skipTriage then 0 else |fs|
    ensures Count(IsConfirmed, fs) + Count(IsFalsePositive, fs) + Count(IsUndecided, fs)
            == if o.skipVerify then 0 else |fs| - Count(IsTriagedOut, fs)
  {
    if |fs| > 0 {
      var init := fs[..|fs| - 1];
      LayersAddUp(init, o, triager, verifier);
      assert "confirmed"[0] != "false_positive"[0];
    }
  }

  // ---- Report sections ------------------------------------------------------------------------------

  datatype Section = Confirmed | Inconclusive | FalsePositives | DroppedAtTriage | Unverified

  predicate Belongs(f: Finding, section: Section) {
    match section
    case Confirmed => IsConfirmed(f)
    case Inconclusive => IsInconclusive(f)
    case FalsePositives => IsFalsePositive(f)
    case DroppedAtTriage => f.verification.None? && IsTriagedOut(f)
    case Unverified => f.verification.None? && IsKept(f)
  }

  function InSection(fs: seq<Finding>, section: Section): multiset<Finding> {
    if |fs| == 0 then multiset{}
    else
      var rest := InSection(fs[..|fs| - 1], section);
      if Belongs(fs[|fs| - 1], section) then rest + multiset{fs[|fs| - 1]} else rest
  }

  function AllSections(fs: seq<Finding>): multiset<Finding> {
    InSection(fs, Confirmed) + InSection(fs, Inconclusive) + InSection(fs, FalsePositives)
    + InSection(fs, DroppedAtTriage) + InSection(fs, Unverified)
  }

  predicate KnownVerdict(f: Finding) {
    f.verification.None? || f.verification.value.verdict in {"confirmed", "false_positive", "inconclusive"}
  }

  lemma OneSection(f: Finding, a: Section, b: Section)
    ensures Belongs(f, a) && Belongs(f, b) ==> a == b
    ensures KnownVerdict(f) <==> (|| Belongs(f, Confirmed) || Belongs(f, Inconclusive) || Belongs(f, FalsePositives)
                                  || Belongs(f, DroppedAtTriage) || Belongs(f, Unverified))
  {
    assert "confirmed" != "false_positive" && "confirmed" != "inconclusive" by {
      assert "confirmed"[0] == 'c' && "false_positive"[0] == 'f' && "inconclusive"[0] == 'i';
    }
    assert "false_positive" != "inconclusive" by {
      assert "false_positive"[0] == 'f' && "inconclusive"[0] == 'i';
    }
  }

  /** The findings whose verdict is known. */
  function Known(fs: seq<Finding>): multiset<Finding> {
    if |fs| == 0 then multiset{}
    else
      var rest := Known(fs[..|fs| - 1]);
      if KnownVerdict(fs[|fs| - 1]) then rest + multiset{fs[|fs| - 1]} else rest
  }

  lemma {:induction false} SectionsCover(fs: seq<Finding>)
    ensures AllSections(fs) == Known(fs)
  {
    if |fs| > 0 {
      SectionsCover(fs[..|fs| - 1]);
      SectionsSnoc(fs[..|fs| - 1], fs[|fs| - 1], fs);
    }
  }

  lemma {:induction false} KnownAre(fs: seq<Finding>)
    ensures |Known(fs)| == Count(KnownVerdict, fs)
    ensures (forall i | 0 <= i < |fs| :: KnownVerdict(fs[i])) ==> Known(fs) == multiset(fs)
  {
    if |fs| > 0 {
      KnownAre(fs[..|fs| - 1]);
      assert fs == fs[..|fs| - 1] + [fs[|fs| - 1]];
    }
  }

  lemma SectionsSnoc(init: seq<Finding>, f: Finding, fs: seq<Finding>)
    requires |fs| > 0 && init == fs[..|fs| - 1] && f == fs[|fs| - 1]
    ensures AllSections(fs) == if KnownVerdict(f) then AllSections(init) + multiset{f} else AllSections(init)
  {
    OneSection(f, Confirmed, Inconclusive);
    OneSection(f, Confirmed, FalsePositives);
    OneSection(f, Confirmed, DroppedAtTriage);
    OneSection(f, Confirmed, Unverified);
    OneSection(f, Inconclusive, FalsePositives);
    OneSection(f, Inconclusive, DroppedAtTriage);
    OneSection(f, Inconclusive, Unverified);
    OneSection(f, FalsePositives, DroppedAtTriage);
    OneSection(f, FalsePositives, Unverified);
    OneSection(f, DroppedAtTriage, Unverified);
  }

  lemma {:induction false} CountAll(p: Finding -> bool, fs: seq<Finding>)
    ensures Count(p, fs) <= |fs|
    ensures Count(p, fs) == |fs| <==> forall i | 0 <= i < |fs| :: p(fs[i])
  {
    if |fs| > 0 {
      var init := fs[..|fs| - 1];
      CountAll(p, init);
      assert forall i | 0 <= i < |init| :: init[i] == fs[i];
    }
  }

  /** The five sections hold every finding exactly once, if and only if every verdict is one of the three known ones. */
  lemma SectionsPartitionIff(fs: seq<Finding>)
    ensures AllSections(fs) == multiset(fs) <==> forall i | 0 <= i < |fs| :: KnownVerdict(fs[i])
  {
    SectionsCover(fs);
    KnownAre(fs);
    CountAll(KnownVerdict, fs);
  }
}
