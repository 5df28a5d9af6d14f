/** Writing a report as a JSON value and reading it back. Object keys are the field names, only ever compared. */
module ReportCodec {
  import opened Prelude
  import opened Funnel

  datatype Key =
    | KTarget | KCreatedAt | KTruncated | KStats | KFindings | KSemgrepSeconds | KTriageSeconds | KVerifySeconds
    | KCandidate | KTriage | KVerification
    | KCheckId | KPath | KStartLine | KEndLine | KSnippet | KMessage | KCwe | KCategory | KSource
    | KKeep | KReason | KModel | KTokensIn | KTokensOut
    | KVerdict | KTaintPath | KConfidence | KPocIdea | KExplanation
    | KPocMethod | KPocPath | KPocQuery | KPocBody | KPocSignal | KExecutionContext | KError

  datatype Json = Null | Bool(b: bool) | Int(i: int) | Real(x: real) | Str(s: string) | Arr(items: seq<Json>) | Obj(fields: map<Key, Json>)

  datatype Result<+T> = Ok(value: T) | MissingKey(key: Key) | WrongShape

  // ---- Writing ---------------------------------------------------------------------------

  function OptStr(o: Option<string>): Json {
    if o.Some? then Str(o.value) else Null
  }

  function Strs(ss: seq<string>): seq<Json> {
    if |ss| == 0 then [] else Strs(ss[..|ss| - 1]) + [Str(ss[|ss| - 1])]
  }

  function EncodeCandidate(c: Candidate): Json {
    Obj(map[KCheckId := Str(c.checkId), KPath := Str(c.path), KStartLine := Int(c.startLine), KEndLine := Int(c.endLine),
            KSnippet := Str(c.snippet), KMessage := Str(c.message), KCwe := OptStr(c.cwe), KCategory := Str(c.category),
            KSource := Str(c.source)])
  }

  function EncodeTriage(t: Triage): Json {
    Obj(map[KKeep := Bool(t.keep), KReason := Str(t.reason), KModel := Str(t.model),
            KTokensIn := Int(t.tokensIn), KTokensOut := Int(t.tokensOut)])
  }

  function EncodeVerification(v: Verification): Json {
    Obj(map[KVerdict := Str(v.verdict), KCwe := Str(v.cwe), KTaintPath := Arr(Strs(v.taintPath)), KConfidence := Str(v.confidence),
            KPocIdea := Str(v.pocIdea), KExplanation := Str(v.explanation), KPocMethod := Str(v.pocMethod),
            KPocPath := Str(v.pocPath), KPocQuery := Str(v.pocQuery), KPocBody := Str(v.pocBody), KPocSignal := Str(v.pocSignal),
            KExecutionContext := Str(v.executionContext), KError := OptStr(v.error), KModel := Str(v.model),
            KTokensIn := Int(v.tokensIn), KTokensOut := Int(v.tokensOut)])
  }

  function EncodeFinding(f: Finding): Json {
    Obj(map[KCandidate := EncodeCandidate(f.candidate),
            KTriage := if f.triage.Some? then EncodeTriage(f.triage.value) else Null,
            KVerification := if f.verification.Some? then EncodeVerification(f.verification.value) else Null])
  }

  function EncodeFindings(fs: seq<Finding>): seq<Json> {
    if |fs| == 0 then [] else EncodeFindings(fs[..|fs| - 1]) + [EncodeFinding(fs[|fs| - 1])]
  }

  /** Of the statistics only the durations are ever read back. */
  function EncodeReport(r: Report): Json {
    Obj(map[KTarget := Str(r.target), KCreatedAt := Str(r.createdAt), KTruncated := Int(r.truncated),
            KStats := Obj(map[KSemgrepSeconds := Real(r.semgrepSeconds), KTriageSeconds := Real(r.triageSeconds),
                              KVerifySeconds := Real(r.verifySeconds)]),
            KFindings := Arr(EncodeFindings(r.findings))])
  }

  // ---- Reading -----------------------------------------------------------------------------

  function Fetch(m: map<Key, Json>, k: Key, default: Json): Json {
    if k in m then m[k] else default
  }

  /** An empty object, an empty list, nothing and false all count as absent. */
  predicate Truthy(j: Json) {
    match j
    case Null => false
    case Bool(b) => b
    case Int(i) => i != 0
    case Real(x) => x != 0.0
    case Str(s) => s != ""
    case Arr(items) => items != []
    case Obj(fields) => fields != map[]
  }

  predicate IsOptStr(j: Json) {
    j.Str? || j.Null?
  }

  function ToOptStr(j: Json): Option<string>
    requires IsOptStr(j)
  {
    if j.Str? then Some(j.s) else None
  }

  predicate AreStrs(js: seq<Json>) {
    forall i | 0 <= i < |js| :: js[i].Str?
  }

  function ToStrs(js: seq<Json>): seq<string>
    requires AreStrs(js)
  {
    if |js| == 0 then [] else ToStrs(js[..|js| - 1]) + [js[|js| - 1].s]
  }

  predicate IsNumber(j: Json) {
    j.Real? || j.Int?
  }

  function ToReal(j: Json): real
    requires IsNumber(j)
  {
    if j.Real? then j.x else j.i as real
  }

  function DecodeCandidate(j: Json): Result<Candidate> {
    if !j.Obj? then WrongShape
    else
      var m := j.fields;
      if KCheckId !in m then MissingKey(KCheckId)
      else if KPath !in m then MissingKey(KPath)
      else if KStartLine !in m then MissingKey(KStartLine)
      else if KEndLine !in m then MissingKey(KEndLine)
      else
        var snippet, message, cwe := Fetch(m, KSnippet, Str("")), Fetch(m, KMessage, Str("")), Fetch(m, KCwe, Null);
        var category, source := Fetch(m, KCategory, Str("unknown")), Fetch(m, KSource, Str("semgrep"));
        if m[KCheckId].Str? && m[KPath].Str? && m[KStartLine].Int? && m[KEndLine].Int? && snippet.Str? && message.Str?
           && IsOptStr(cwe) && category.Str? && source.Str?
        then Ok(Candidate(m[KCheckId].s, m[KPath].s, m[KStartLine].i, m[KEndLine].i, snippet.s, message.s, ToOptStr(cwe),
                          category.s, source.s))
        else WrongShape
  }

  function DecodeTriage(j: Json): Result<Triage> {
    if !j.Obj? then WrongShape
    else
      var m := j.fields;
      if KKeep !in m then MissingKey(KKeep)
      else
        var reason, model := Fetch(m, KReason, Str("")), Fetch(m, KModel, Str(""));
        var tokensIn, tokensOut := Fetch(m, KTokensIn, Int(0)), Fetch(m, KTokensOut, Int(0));
        if m[KKeep].Bool? && reason.Str? && model.Str? && tokensIn.Int? && tokensOut.Int?
        then Ok(Triage(m[KKeep].b, reason.s, model.s, tokensIn.i, tokensOut.i))
        else WrongShape
  }

  function FetchStr(m: map<Key, Json>, k: Key, default: string): Option<string> {
    var j := Fetch(m, k, Str(default));
    if j.Str? then Some(j.s) else None
  }

  function DecodeVerification(j: Json): Result<Verification> {
    if !j.Obj? then WrongShape
    else
      var m := j.fields;
      if KVerdict !in m then MissingKey(KVerdict)
      else
        var cwe, confidence, pocIdea := FetchStr(m, KCwe, ""), FetchStr(m, KConfidence, "low"), FetchStr(m, KPocIdea, "");
        var explanation, pocMethod, pocPath := FetchStr(m, KExplanation, ""), FetchStr(m, KPocMethod, ""), FetchStr(m, KPocPath, "");
        var pocQuery, pocBody, pocSignal := FetchStr(m, KPocQuery, ""), FetchStr(m, KPocBody, ""), FetchStr(m, KPocSignal, "");
        var context, model := FetchStr(m, KExecutionContext, "unknown"), FetchStr(m, KModel, "");
        var taint, error := Fetch(m, KTaintPath, Arr([])), Fetch(m, KError, Null);
        var tokensIn, tokensOut := Fetch(m, KTokensIn, Int(0)), Fetch(m, KTokensOut, Int(0));
        if m[KVerdict].Str? && cwe.Some? && confidence.Some? && pocIdea.Some? && explanation.Some? && pocMethod.Some?
           && pocPath.Some? && pocQuery.Some? && pocBody.Some? && pocSignal.Some? && context.Some? && model.Some?
           && taint.Arr? && AreStrs(taint.items) && IsOptStr(error) && tokensIn.Int? && tokensOut.Int?
        then Ok(Verification(m[KVerdict].s, cwe.value, ToStrs(taint.items), confidence.value, pocIdea.value, explanation.value,
                             pocMethod.value, pocPath.value, pocQuery.value, pocBody.value, pocSignal.value,
                             context.value, ToOptStr(error), model.value, tokensIn.i, tokensOut.i))
        else WrongShape
  }

  function DecodeFinding(j: Json): Result<Finding> {
    if !j.Obj? then WrongShape
    else if KCandidate !in j.fields then MissingKey(KCandidate)
    else
      var triage, verification := Fetch(j.fields, KTriage, Null), Fetch(j.fields, KVerification, Null);
      match DecodeCandidate(j.fields[KCandidate])
      case MissingKey(k) => MissingKey(k)
      case WrongShape => WrongShape
      case Ok(c) =>
        match DecodeOptional(triage, DecodeTriage)
        case MissingKey(k) => MissingKey(k)
        case WrongShape => WrongShape
        case Ok(t) =>
          match DecodeOptional(verification, DecodeVerification)
          case MissingKey(k) => MissingKey(k)
          case WrongShape => WrongShape
          case Ok(v) => Ok(Finding(c, t, v))
  }

  function DecodeOptional<T>(j: Json, decode: Json -> Result<T>): Result<Option<T>> {
    if !Truthy(j) then Ok(None)
    else
      match decode(j)
      case Ok(x) => Ok(Some(x))
      case MissingKey(k) => MissingKey(k)
      case WrongShape => WrongShape
  }

  /** The findings in order; the first that cannot be read fails the whole. */
  method DecodeFindings(js: seq<Json>) returns (r: Result<seq<Finding>>)
    ensures r == FindingsFrom(js)
  {
    var findings := [];
    for i := 0 to |js|
      invariant FindingsFrom(js[..i]) == Ok(findings)
    {
      FindingsFromSnoc(js, i);
      match DecodeFinding(js[i]) {
        case Ok(f) => findings := findings + [f];
        case MissingKey(k) =>
          FailureStays(js, i + 1);
          return MissingKey(k);
        case WrongShape =>
          FailureStays(js, i + 1);
          return WrongShape;
      }
    }
    assert js[..|js|] == js;
    r := Ok(findings);
  }

  function FindingsFrom(js: seq<Json>): Result<seq<Finding>> {
    if |js| == 0 then Ok([])
    else
      match FindingsFrom(js[..|js| - 1])
      case MissingKey(k) => MissingKey(k)
      case WrongShape => WrongShape
      case Ok(fs) =>
        match DecodeFinding(js[|js| - 1])
        case MissingKey(k) => MissingKey(k)
        case WrongShape => WrongShape
        case Ok(f) => Ok(fs + [f])
  }

  lemma FindingsFromSnoc(js: seq<Json>, i: nat)
    requires i < |js|
    ensures js[..i + 1][..i] == js[..i] && js[..i + 1][i] == js[i]
  {
  }

  lemma {:induction false} FailureStays(js: seq<Json>, i: nat)
    requires i <= |js| && !FindingsFrom(js[..i]).Ok?
    ensures FindingsFrom(js) == FindingsFrom(js[..i])
  {
    if i < |js| {
      assert js[..|js| - 1][..i] == js[..i];
      FailureStays(js[..|js| - 1], i);
    } else {
      assert js[..i] == js;
    }
  }

  function DecodeReport(j: Json): Result<Report> {
    if !j.Obj? then WrongShape
    else
      var m := j.fields;
      var target, createdAt := FetchStr(m, KTarget, ""), FetchStr(m, KCreatedAt, "");
      var truncated, findings, stats := Fetch(m, KTruncated, Int(0)), Fetch(m, KFindings, Arr([])), Fetch(m, KStats, Obj(map[]));
      if target.None? || createdAt.None? || !truncated.Int? || !findings.Arr? || !stats.Obj? then WrongShape
      else
        match FindingsFrom(findings.items)
        case MissingKey(k) => MissingKey(k)
        case WrongShape => WrongShape
        case Ok(fs) =>
          var a, b, c := Fetch(stats.fields, KSemgrepSeconds, Int(0)), Fetch(stats.fields, KTriageSeconds, Int(0)),
                         Fetch(stats.fields, KVerifySeconds, Int(0));
          if IsNumber(a) && IsNumber(b) && IsNumber(c)
          then Ok(Report(target.value, fs, truncated.i, createdAt.value, ToReal(a), ToReal(b), ToReal(c)))
          else WrongShape
  }

  // ---- Reading back what was written -----------------------------------------------------------

  lemma CandidateRoundTrip(c: Candidate)
    ensures DecodeCandidate(EncodeCandidate(c)) == Ok(c)
  {
  }

  lemma TriageRoundTrip(t: Triage)
    ensures DecodeTriage(EncodeTriage(t)) == Ok(t) && Truthy(EncodeTriage(t))
  {
    assert KKeep in EncodeTriage(t).fields;
  }

  lemma {:induction false} StrsRoundTrip(ss: seq<string>)
    ensures AreStrs(Strs(ss)) && ToStrs(Strs(ss)) == ss
  {
    if |ss| > 0 {
      StrsRoundTrip(ss[..|ss| - 1]);
      assert Strs(ss)[..|Strs(ss)| - 1] == Strs(ss[..|ss| - 1]);
    }
  }

  predicate HasTexts(m: map<Key, Json>, v: Verification) {
    && FetchStr(m, KCwe, "") == Some(v.cwe) && FetchStr(m, KConfidence, "low") == Some(v.confidence)
    && FetchStr(m, KPocIdea, "") == Some(v.pocIdea) && FetchStr(m, KExplanation, "") == Some(v.explanation)
    && FetchStr(m, KPocMethod, "") == Some(v.pocMethod) && FetchStr(m, KPocPath, "") == Some(v.pocPath)
    && FetchStr(m, KPocQuery, "") == Some(v.pocQuery) && FetchStr(m, KPocBody, "") == Some(v.pocBody)
    && FetchStr(m, KPocSignal, "") == Some(v.pocSignal) && FetchStr(m, KExecutionContext, "unknown") == Some(v.executionContext)
    && FetchStr(m, KModel, "") == Some(v.model)
  }

  predicate HasOthers(m: map<Key, Json>, v: Verification) {
    && KVerdict in m && m[KVerdict] == Str(v.verdict)
    && Fetch(m, KTaintPath, Arr([])) == Arr(Strs(v.taintPath)) && Fetch(m, KError, Null) == OptStr(v.error)
    && Fetch(m, KTokensIn, Int(0)) == Int(v.tokensIn) && Fetch(m, KTokensOut, Int(0)) == Int(v.tokensOut)
  }

  lemma VerificationTexts(v: Verification)
    ensures HasTexts(EncodeVerification(v).fields, v)
  {
  }

  lemma VerificationOthers(v: Verification)
    ensures HasOthers(EncodeVerification(v).fields, v)
  {
  }

  lemma DecodesFields(m: map<Key, Json>, v: Verification)
    requires HasTexts(m, v) && HasOthers(m, v)
    ensures DecodeVerification(Obj(m)) == Ok(v) && Truthy(Obj(m))
  {
    StrsRoundTrip(v.taintPath);
  }

  lemma VerificationRoundTrip(v: Verification)
    ensures DecodeVerification(EncodeVerification(v)) == Ok(v) && Truthy(EncodeVerification(v))
  {
    VerificationTexts(v);
    VerificationOthers(v);
    DecodesFields(EncodeVerification(v).fields, v);
  }

  lemma FindingRoundTrip(f: Finding)
    ensures DecodeFinding(EncodeFinding(f)) == Ok(f)
  {
    CandidateRoundTrip(f.candidate);
    if f.triage.Some? { TriageRoundTrip(f.triage.value); }
    if f.verification.Some? { VerificationRoundTrip(f.verification.value); }
  }

  lemma OneMoreDecoded(js: seq<Json>, j: Json, fs: seq<Finding>, f: Finding)
    requires FindingsFrom(js) == Ok(fs) && DecodeFinding(j) == Ok(f)
    ensures FindingsFrom(js + [j]) == Ok(fs + [f])
  {
    assert (js + [j])[..|js|] == js;
  }

  lemma {:induction false} FindingsRoundTrip(fs: seq<Finding>)
    ensures FindingsFrom(EncodeFindings(fs)) == Ok(fs)
  {
    if |fs| > 0 {
      var init, f := fs[..|fs| - 1], fs[|fs| - 1];
      FindingsRoundTrip(init);
      FindingRoundTrip(f);
      OneMoreDecoded(EncodeFindings(init), EncodeFinding(f), init, f);
      assert fs == init + [f];
    }
  }

  predicate HasReportFields(m: map<Key, Json>, stats: map<Key, Json>, r: Report) {
    && FetchStr(m, KTarget, "") == Some(r.target) && FetchStr(m, KCreatedAt, "") == Some(r.createdAt)
    && Fetch(m, KTruncated, Int(0)) == Int(r.truncated) && Fetch(m, KStats, Obj(map[])) == Obj(stats)
    && Fetch(m, KFindings, Arr([])) == Arr(EncodeFindings(r.findings))
    && Fetch(stats, KSemgrepSeconds, Int(0)) == Real(r.semgrepSeconds)
    && Fetch(stats, KTriageSeconds, Int(0)) == Real(r.triageSeconds)
    && Fetch(stats, KVerifySeconds, Int(0)) == Real(r.verifySeconds)
  }

  lemma ReportFields(r: Report)
    ensures KStats in EncodeReport(r).fields && EncodeReport(r).fields[KStats].Obj?
    ensures HasReportFields(EncodeReport(r).fields, EncodeReport(r).fields[KStats].fields, r)
  {
  }

  lemma DecodesReport(m: map<Key, Json>, stats: map<Key, Json>, r: Report)
    requires HasReportFields(m, stats, r) && FindingsFrom(EncodeFindings(r.findings)) == Ok(r.findings)
    ensures DecodeReport(Obj(m)) == Ok(r)
  {
  }

  /** A report written out and read back is the same report. */
  lemma ReportRoundTrip(r: Report)
    ensures DecodeReport(EncodeReport(r)) == Ok(r)
  {
    FindingsRoundTrip(r.findings);
    ReportFields(r);
    DecodesReport(EncodeReport(r).fields, EncodeReport(r).fields[KStats].fields, r);
  }

  /** Different reports are written differently. */
  lemma EncodingIsInjective(a: Report, b: Report)
    requires EncodeReport(a) == EncodeReport(b)
    ensures a == b
  {
    ReportRoundTrip(a);
    ReportRoundTrip(b);
  }

  /** An edited report can be read back whose one finding appears in no section. */
  lemma UnknownVerdictExample(c: Candidate, v: Verification, r: Report)
    requires v.verdict == "maybe" && r.findings == [Finding(c, None, Some(v))]
    ensures DecodeReport(EncodeReport(r)) == Ok(r)
    ensures AllSections(r.findings) == multiset{} && AllSections(r.findings) != multiset(r.findings)
  {
    ReportRoundTrip(r);
    SectionsCover(r.findings);
    assert "maybe"[0] == 'm' && "confirmed"[0] == 'c' && "false_positive"[0] == 'f' && "inconclusive"[0] == 'i';
    assert r.findings[..0] == [];
    assert r.findings[0] in multiset(r.findings);
  }
}
