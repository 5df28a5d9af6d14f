/**
  Accepted-line fingerprints: a line scanner over unified diffs with two pieces of
  mode (the current path, and whether we are inside a hunk), its normalisers, and a
  printer of structured diffs to check it against.
 */
module DiffScan {
  import opened Prelude

  /**
    The character classes and the hash the scanner relies on. Nothing is assumed of
    them beyond `IsSane`: which characters count as white space, which as word
    characters, how many bytes each takes, and what the hash returns stay open.
   */
  datatype Charset = Charset(
    space: char -> bool,
    word: char -> bool,
    width: char -> nat,
    hash: (string, string) -> string)

  ghost predicate IsSane(cs: Charset) {
    && cs.space(' ') && cs.space('\r') && cs.space('\n') && cs.space('\t')
    && !cs.space('a') && !cs.space('b') && !cs.space('l') && !cs.space('/')
  }

  datatype Fingerprint = Fingerprint(pathHash: string, lineHash: string)

  datatype Summary = Summary(added: nat, deleted: nat, fingerprints: seq<Fingerprint>)

  const EMPTY := Summary(0, 0, [])

  function Combine(a: Summary, b: Summary): Summary {
    Summary(a.added + b.added, a.deleted + b.deleted, a.fingerprints + b.fingerprints)
  }

  // ---- Normalisers -----------------------------------------------------------

  /** The finished words of `s` and the one still being read. */
  function Split(cs: Charset, s: string): (seq<string>, string) {
    if |s| == 0 then ([], "")
    else
      var (done, word) := Split(cs, s[..|s| - 1]);
      var c := s[|s| - 1];
      if !cs.space(c) then (done, word + [c])
      else if word == "" then (done, "")
      else (done + [word], "")
  }

  function Words(cs: Charset, s: string): seq<string> {
    var (done, word) := Split(cs, s);
    if word == "" then done else done + [word]
  }

  function JoinWords(words: seq<string>): string {
    if |words| == 0 then ""
    else if |words| == 1 then words[0]
    else JoinWords(words[..|words| - 1]) + " " + words[|words| - 1]
  }

  function ByteLen(cs: Charset, s: string): nat {
    if |s| == 0 then 0 else ByteLen(cs, s[..|s| - 1]) + cs.width(s[|s| - 1])
  }

  function NormalizeEffectiveLine(cs: Charset, line: string): Option<string> {
    var normalized := JoinWords(Words(cs, line));
    if ByteLen(cs, normalized) <= 3 then None
    else if !exists i | 0 <= i < |normalized| :: cs.word(normalized[i]) || normalized[i] == '_' then None
    else Some(normalized)
  }

  function TrimEnd(cs: Charset, s: string): string {
    if |s| > 0 && cs.space(s[|s| - 1]) then TrimEnd(cs, s[..|s| - 1]) else s
  }

  function TrimStart(cs: Charset, s: string): string {
    if |s| > 0 && cs.space(s[0]) then TrimStart(cs, s[1..]) else s
  }

  function NormalizeDiffPath(cs: Charset, raw: string): Option<string> {
    var path := TrimEnd(cs, TrimStart(cs, raw));
    if path == "/dev/null" then None
    else if "b/" <= path then Some(path[2..])
    else if "a/" <= path then Some(path[2..])
    else Some(path)
  }

  // ---- The scanner -----------------------------------------------------------

  datatype Scanner = Scanner(path: Option<string>, inHunk: bool, summary: Summary)

  const START := Scanner(None, false, EMPTY)

  function AddLine(cs: Charset, st: Scanner, text: string): Scanner {
    var sum := st.summary.(added := st.summary.added + 1);
    match st.path
    case None => st.(summary := sum)
    case Some(path) =>
      match NormalizeEffectiveLine(cs, text)
      case None => st.(summary := sum)
      case Some(line) =>
        st.(summary := sum.(fingerprints := sum.fingerprints +
                              [Fingerprint(cs.hash("path", path), cs.hash("line", line))]))
  }

  function ScanLine(cs: Charset, st: Scanner, line: string): Scanner {
    if "diff --git " <= line then st.(path := None, inHunk := false)
    else if "@@ " <= line then st.(inHunk := true)
    else if !st.inHunk && "+++ " <= line then st.(path := NormalizeDiffPath(cs, line[4..]))
    else if !st.inHunk && "--- " <= line then st
    else if "+" <= line then AddLine(cs, st, line[1..])
    else if "-" <= line then st.(summary := st.summary.(deleted := st.summary.deleted + 1))
    else st
  }

  function ScanFrom(cs: Charset, st: Scanner, lines: seq<string>): Scanner {
    if |lines| == 0 then st
    else ScanLine(cs, ScanFrom(cs, st, lines[..|lines| - 1]), lines[|lines| - 1])
  }

  /** The lines of a text: ended by a line feed, less one carriage return before it. */
  function ReadLines(text: string): (seq<string>, string) {
    if |text| == 0 then ([], "")
    else
      var (done, line) := ReadLines(text[..|text| - 1]);
      var c := text[|text| - 1];
      if c == '\n' then (done + [StripCR(line)], "") else (done, line + [c])
  }

  function StripCR(line: string): string {
    if |line| > 0 && line[|line| - 1] == '\r' then line[..|line| - 1] else line
  }

  function Lines(text: string): seq<string> {
    var (done, line) := ReadLines(text);
    if line == "" then done else done + [line]
  }

  function Scan(cs: Charset, text: string): Summary {
    ScanFrom(cs, START, Lines(text)).summary
  }

  // ---- The counts alone ------------------------------------------------------------

  datatype Tally = Tally(inHunk: bool, added: nat, deleted: nat)

  function TallyLine(t: Tally, line: string): Tally {
    if "diff --git " <= line then t.(inHunk := false)
    else if "@@ " <= line then t.(inHunk := true)
    else if !t.inHunk && ("+++ " <= line || "--- " <= line) then t
    else if "+" <= line then t.(added := t.added + 1)
    else if "-" <= line then t.(deleted := t.deleted + 1)
    else t
  }

  function TallyLines(lines: seq<string>): Tally {
    if |lines| == 0 then Tally(false, 0, 0) else TallyLine(TallyLines(lines[..|lines| - 1]), lines[|lines| - 1])
  }

  function AcceptedLineCounts(text: string): (nat, nat) {
    var t := TallyLines(Lines(text));
    (t.added, t.deleted)
  }

  lemma {:induction false} TallyFollowsScan(cs: Charset, lines: seq<string>)
    ensures var st := ScanFrom(cs, START, lines);
            TallyLines(lines) == Tally(st.inHunk, st.summary.added, st.summary.deleted)
  {
    if |lines| > 0 {
      TallyFollowsScan(cs, lines[..|lines| - 1]);
    }
  }

  /** The two line counts depend neither on the character classes nor on the hash. */
  lemma CountsAreTextual(cs: Charset, text: string)
    ensures AcceptedLineCounts(text) == (Scan(cs, text).added, Scan(cs, text).deleted)
  {
    TallyFollowsScan(cs, Lines(text));
  }

  /** The scanner's loop. */
  method ScanUnifiedDiff(cs: Charset, text: string) returns (summary: Summary)
    ensures summary == Scan(cs, text)
  {
    var currentPath: Option<string> := None;
    var inHunk := false;
    var added, deleted := 0, 0;
    var fingerprints: seq<Fingerprint> := [];
    var lines := Lines(text);
    for i := 0 to |lines|
      invariant ScanFrom(cs, START, lines[..i]) == Scanner(currentPath, inHunk, Summary(added, deleted, fingerprints))
    {
      var line := lines[i];
      assert lines[..i + 1][..i] == lines[..i];
      if "diff --git " <= line {
        currentPath, inHunk := None, false;
        continue;
      }
      if "@@ " <= line {
        inHunk := true;
        continue;
      }
      if !inHunk && "+++ " <= line {
        currentPath := NormalizeDiffPath(cs, line[4..]);
        continue;
      }
      if !inHunk && "--- " <= line {
        continue;
      }
      if "+" <= line {
        added := added + 1;
        if currentPath.Some? {
          var normalized := NormalizeEffectiveLine(cs, line[1..]);
          if normalized.Some? {
            fingerprints := fingerprints +
              [Fingerprint(cs.hash("path", currentPath.value), cs.hash("line", normalized.value))];
          }
        }
        continue;
      }
      if "-" <= line {
        deleted := deleted + 1;
      }
    }
    assert lines[..|lines|] == lines;
    return Summary(added, deleted, fingerprints);
  }

  // ---- Normalising is a projection -----------------------------------------------

  predicate IsWord(cs: Charset, w: string) {
    w != "" && forall i | 0 <= i < |w| :: !cs.space(w[i])
  }

  predicate AreWords(cs: Charset, ws: seq<string>) {
    forall i | 0 <= i < |ws| :: IsWord(cs, ws[i])
  }

  lemma {:induction false} SplitYieldsWords(cs: Charset, s: string)
    ensures AreWords(cs, Split(cs, s).0) && (Split(cs, s).1 != "" ==> IsWord(cs, Split(cs, s).1))
  {
    if |s| > 0 {
      SplitYieldsWords(cs, s[..|s| - 1]);
    }
  }

  lemma {:induction false} SplitReadsWord(cs: Charset, s: string, w: string)
    requires Split(cs, s).1 == "" && forall i | 0 <= i < |w| :: !cs.space(w[i])
    ensures Split(cs, s + w) == (Split(cs, s).0, w)
  {
    if w == "" {
      assert s + w == s;
    } else {
      var init := w[..|w| - 1];
      SplitReadsWord(cs, s, init);
      assert (s + w)[..|s + w| - 1] == s + init;
      assert init + [w[|w| - 1]] == w;
    }
  }

  lemma {:induction false} SplitOfJoin(cs: Charset, ws: seq<string>)
    requires IsSane(cs) && |ws| > 0 && AreWords(cs, ws)
    ensures Split(cs, JoinWords(ws)) == (ws[..|ws| - 1], ws[|ws| - 1])
  {
    var init, last := ws[..|ws| - 1], ws[|ws| - 1];
    if |ws| == 1 {
      SplitReadsWord(cs, "", last);
      assert "" + last == last;
    } else {
      SplitOfJoin(cs, init);
      var text := JoinWords(init) + " ";
      assert text[..|text| - 1] == JoinWords(init);
      assert init[..|init| - 1] + [init[|init| - 1]] == init;
      assert Split(cs, text) == (init, "");
      SplitReadsWord(cs, text, last);
    }
  }

  /** Normalising keeps the words of a line, so normalising twice changes nothing. */
  lemma NormalizeIsProjection(cs: Charset, line: string)
    requires IsSane(cs)
    ensures Words(cs, JoinWords(Words(cs, line))) == Words(cs, line)
    ensures NormalizeEffectiveLine(cs, line).Some? ==>
              NormalizeEffectiveLine(cs, NormalizeEffectiveLine(cs, line).value) == NormalizeEffectiveLine(cs, line)
  {
    SplitYieldsWords(cs, line);
    var ws := Words(cs, line);
    if |ws| > 0 {
      SplitOfJoin(cs, ws);
      assert ws[..|ws| - 1] + [ws[|ws| - 1]] == ws;
    }
  }

  // ---- Splitting a text into scans ---------------------------------------------

  predicate IsLine(line: string) {
    '\n' !in line
  }

  function Unlines(lines: seq<string>): string {
    if |lines| == 0 then "" else Unlines(lines[..|lines| - 1]) + lines[|lines| - 1] + "\n"
  }

  lemma ReadLinesSnoc(text: string, c: char)
    ensures ReadLines(text + [c]) ==
            var (done, line) := ReadLines(text);
            if c == '\n' then (done + [StripCR(line)], "") else (done, line + [c])
  {
    assert (text + [c])[..|text|] == text;
  }

  lemma {:induction false} ReadLinesAppend(text: string, line: string)
    requires IsLine(line) && ReadLines(text).1 == ""
    ensures ReadLines(text + line) == (ReadLines(text).0, line)
  {
    if line == "" {
      assert text + line == text;
    } else {
      var init, c := line[..|line| - 1], line[|line| - 1];
      ReadLinesAppend(text, init);
      ReadLinesSnoc(text + init, c);
      assert text + line == text + init + [c];
      assert c in line;
      assert init + [c] == line;
    }
  }

  lemma PrefixWithoutCR(p: string, bare: string)
    requires '\r' !in p
    ensures p <= bare + "\r" <==> p <= bare
  {
    if p <= bare + "\r" {
      assert p == (bare + "\r")[..|p|];
      assert |p| > 0 ==> p[|p| - 1] in p;
    }
  }

  lemma AddIgnoresCR(cs: Charset, st: Scanner, text: string)
    requires IsSane(cs)
    ensures AddLine(cs, st, text + "\r") == AddLine(cs, st, text)
  {
    assert (text + "\r")[..|text|] == text;
    assert Words(cs, text + "\r") == Words(cs, text);
  }

  lemma PathIgnoresCR(cs: Charset, raw: string)
    requires IsSane(cs)
    ensures NormalizeDiffPath(cs, raw + "\r") == NormalizeDiffPath(cs, raw)
  {
    TrimIgnoresTail(cs, raw, '\r');
  }

  /** Scanning does not see carriage returns at line ends. */
  lemma CarriageReturnsDoNotMatter(cs: Charset, st: Scanner, line: string)
    requires IsSane(cs)
    ensures ScanLine(cs, st, StripCR(line)) == ScanLine(cs, st, line)
  {
    var bare := StripCR(line);
    if bare != line {
      assert line == bare + "\r";
      PrefixWithoutCR("diff --git ", bare);
      PrefixWithoutCR("@@ ", bare);
      PrefixWithoutCR("+++ ", bare);
      PrefixWithoutCR("--- ", bare);
      PrefixWithoutCR("+", bare);
      PrefixWithoutCR("-", bare);
      if "+++ " <= bare {
        assert line[4..] == bare[4..] + "\r";
        PathIgnoresCR(cs, bare[4..]);
      }
      if "+" <= bare {
        assert line[1..] == bare[1..] + "\r";
        AddIgnoresCR(cs, st, bare[1..]);
      }
    }
  }

  lemma {:induction false} TrimIgnoresTail(cs: Charset, s: string, c: char)
    requires cs.space(c)
    ensures TrimEnd(cs, TrimStart(cs, s + [c])) == TrimEnd(cs, TrimStart(cs, s))
  {
    if |s| == 0 {
      assert s + [c] == [c];
      assert TrimStart(cs, [c]) == TrimStart(cs, []);
    } else if cs.space(s[0]) {
      assert (s + [c])[1..] == s[1..] + [c];
      TrimIgnoresTail(cs, s[1..], c);
    } else {
      assert (s + [c])[..|s|] == s;
    }
  }

  lemma {:induction false} ScanOfUnlines(cs: Charset, st: Scanner, lines: seq<string>)
    requires IsSane(cs) && forall i | 0 <= i < |lines| :: IsLine(lines[i])
    ensures ReadLines(Unlines(lines)).1 == ""
    ensures ScanFrom(cs, st, ReadLines(Unlines(lines)).0) == ScanFrom(cs, st, lines)
  {
    if |lines| > 0 {
      var init, last := lines[..|lines| - 1], lines[|lines| - 1];
      ScanOfUnlines(cs, st, init);
      ReadLinesAppend(Unlines(init), last);
      ReadLinesSnoc(Unlines(init) + last, '\n');
      var done := ReadLines(Unlines(init)).0;
      assert ReadLines(Unlines(lines)).0 == done + [StripCR(last)];
      assert (done + [StripCR(last)])[..|done|] == done;
      CarriageReturnsDoNotMatter(cs, ScanFrom(cs, st, init), last);
    }
  }

  // ---- Concatenation -----------------------------------------------------------

  lemma {:induction false} ScanFromConcat(cs: Charset, st: Scanner, a: seq<string>, b: seq<string>)
    ensures ScanFrom(cs, st, a + b) == ScanFrom(cs, ScanFrom(cs, st, a), b)
  {
    if |b| == 0 {
      assert a + b == a;
    } else {
      var init := b[..|b| - 1];
      ScanFromConcat(cs, st, a, init);
      assert (a + b)[..|a + b| - 1] == a + init;
    }
  }

  lemma AddToSummary(cs: Charset, base: Summary, st: Scanner, line: string)
    ensures ScanLine(cs, st.(summary := Combine(base, st.summary)), line)
         == var next := ScanLine(cs, st, line); next.(summary := Combine(base, next.summary))
  {
    var next := ScanLine(cs, st, line);
    var next' := ScanLine(cs, st.(summary := Combine(base, st.summary)), line);
    assert next'.summary.fingerprints == base.fingerprints + next.summary.fingerprints;
  }

  lemma {:induction false} SummariesAccumulate(cs: Charset, base: Summary, st: Scanner, lines: seq<string>)
    ensures ScanFrom(cs, st.(summary := Combine(base, st.summary)), lines)
         == var end := ScanFrom(cs, st, lines); end.(summary := Combine(base, end.summary))
  {
    if |lines| > 0 {
      var init := lines[..|lines| - 1];
      SummariesAccumulate(cs, base, st, init);
      AddToSummary(cs, base, ScanFrom(cs, st, init), lines[|lines| - 1]);
    }
  }

  lemma ScanOne(cs: Charset, st: Scanner, line: string)
    ensures ScanFrom(cs, st, [line]) == ScanLine(cs, st, line)
  {
    assert [line][..0] == [];
  }

  lemma ScanOnTopOf(cs: Charset, base: Summary, lines: seq<string>)
    ensures ScanFrom(cs, Scanner(None, false, base), lines).summary
         == Combine(base, ScanFrom(cs, START, lines).summary)
  {
    assert Combine(base, EMPTY) == base;
    assert START.(summary := Combine(base, START.summary)) == Scanner(None, false, base);
    SummariesAccumulate(cs, base, START, lines);
  }

  /** A `diff --git` line erases all mode, so what follows is scanned as if from the start. */
  lemma HeaderResets(cs: Charset, st: Scanner, lines: seq<string>)
    requires |lines| > 0 && "diff --git " <= lines[0]
    ensures ScanFrom(cs, st, lines).summary == Combine(st.summary, ScanFrom(cs, START, lines).summary)
  {
    var first, rest := [lines[0]], lines[1..];
    assert lines == first + rest;
    ScanFromConcat(cs, st, first, rest);
    ScanFromConcat(cs, START, first, rest);
    ScanOne(cs, st, lines[0]);
    ScanOne(cs, START, lines[0]);
    ScanOnTopOf(cs, st.summary, rest);
  }

  lemma {:induction false} ReadLinesConcat(x: string, y: string)
    requires ReadLines(x).1 == ""
    ensures ReadLines(x + y) == (ReadLines(x).0 + ReadLines(y).0, ReadLines(y).1)
  {
    if |y| == 0 {
      assert x + y == x;
      assert ReadLines(x).0 + ReadLines(y).0 == ReadLines(x).0;
    } else {
      var init, c := y[..|y| - 1], y[|y| - 1];
      ReadLinesConcat(x, init);
      ReadLinesSnoc(x + init, c);
      assert x + y == x + init + [c];
      var (done, line) := ReadLines(init);
      assert ReadLines(x).0 + (done + [StripCR(line)]) == ReadLines(x).0 + done + [StripCR(line)];
    }
  }

  /**
    Scanning a concatenation equals combining the separate scans, whatever the first
    text holds, as long as it ends at a line end and the second opens a new file.
   */
  lemma ScanConcat(cs: Charset, x: string, y: string)
    requires x == "" || x[|x| - 1] == '\n'
    requires Lines(y) != [] && "diff --git " <= Lines(y)[0]
    ensures Scan(cs, x + y) == Combine(Scan(cs, x), Scan(cs, y))
  {
    assert ReadLines(x).1 == "";
    ReadLinesConcat(x, y);
    assert Lines(x + y) == Lines(x) + Lines(y);
    ScanFromConcat(cs, START, Lines(x), Lines(y));
    HeaderResets(cs, ScanFrom(cs, START, Lines(x)), Lines(y));
  }

  // ---- Structured diffs ----------------------------------------------------------

  datatype HunkLine =
    | Context(text: string)
    | Added(text: string)
    | Deleted(text: string)
    | NoNewlineAtEnd

  datatype Hunk = Hunk(range: string, lines: seq<HunkLine>)

  datatype NewSide = DevNull | At(path: string)

  /** One file of a git diff; mode changes and pure renames have no sides and no hunks. */
  datatype FileDiff = FileDiff(
    names: string,
    extended: seq<string>,
    oldSide: string,
    newSide: Option<NewSide>,
    hunks: seq<Hunk>)

  function PrintHunkLine(l: HunkLine): string {
    match l
    case Context(t) => " " + t
    case Added(t) => "+" + t
    case Deleted(t) => "-" + t
    case NoNewlineAtEnd => "\\ No newline at end of file"
  }

  function PrintHunkLines(ls: seq<HunkLine>): seq<string> {
    if |ls| == 0 then [] else PrintHunkLines(ls[..|ls| - 1]) + [PrintHunkLine(ls[|ls| - 1])]
  }

  function PrintHunks(hs: seq<Hunk>): seq<string> {
    if |hs| == 0 then []
    else PrintHunks(hs[..|hs| - 1]) + ["@@ " + hs[|hs| - 1].range] + PrintHunkLines(hs[|hs| - 1].lines)
  }

  function PrintNewSide(side: NewSide): string {
    match side
    case DevNull => "/dev/null"
    case At(path) => "b/" + path
  }

  function PrintSides(f: FileDiff): seq<string> {
    match f.newSide
    case None => []
    case Some(side) => ["--- " + f.oldSide, "+++ " + PrintNewSide(side)]
  }

  function PrintFile(f: FileDiff): seq<string> {
    ["diff --git " + f.names] + f.extended + PrintSides(f) + PrintHunks(f.hunks)
  }

  function PrintDiff(fs: seq<FileDiff>): seq<string> {
    if |fs| == 0 then [] else PrintDiff(fs[..|fs| - 1]) + PrintFile(fs[|fs| - 1])
  }

  /** An extended header line such as `index …`, `new file mode …` or `rename from …`. */
  predicate IsExtendedHeader(line: string) {
    !("diff --git " <= line) && !("@@ " <= line) && (line == "" || (line[0] != '+' && line[0] != '-'))
  }

  predicate EndsInSpace(cs: Charset, s: string) {
    |s| > 0 && cs.space(s[|s| - 1])
  }

  predicate WellFormed(cs: Charset, f: FileDiff) {
    && (forall i | 0 <= i < |f.extended| :: IsExtendedHeader(f.extended[i]))
    && (f.newSide.Some? && f.newSide.value.At? ==> !EndsInSpace(cs, f.newSide.value.path))
  }

  // ---- What a structured diff should yield ------------------------------------------

  function PathOf(f: FileDiff): Option<string> {
    match f.newSide
    case Some(At(path)) => Some(path)
    case _ => None
  }

  function FingerprintOf(cs: Charset, path: Option<string>, text: string): seq<Fingerprint> {
    if path.None? then []
    else
      match NormalizeEffectiveLine(cs, text)
      case None => []
      case Some(line) => [Fingerprint(cs.hash("path", path.value), cs.hash("line", line))]
  }

  function ExpectedLine(cs: Charset, path: Option<string>, l: HunkLine): Summary {
    match l
    case Added(t) => Summary(1, 0, FingerprintOf(cs, path, t))
    case Deleted(_) => Summary(0, 1, [])
    case _ => EMPTY
  }

  function ExpectedLines(cs: Charset, path: Option<string>, ls: seq<HunkLine>): Summary {
    if |ls| == 0 then EMPTY
    else Combine(ExpectedLines(cs, path, ls[..|ls| - 1]), ExpectedLine(cs, path, ls[|ls| - 1]))
  }

  function ExpectedHunks(cs: Charset, path: Option<string>, hs: seq<Hunk>): Summary {
    if |hs| == 0 then EMPTY
    else Combine(ExpectedHunks(cs, path, hs[..|hs| - 1]), ExpectedLines(cs, path, hs[|hs| - 1].lines))
  }

  function Expected(cs: Charset, fs: seq<FileDiff>): Summary {
    if |fs| == 0 then EMPTY
    else Combine(Expected(cs, fs[..|fs| - 1]), ExpectedHunks(cs, PathOf(fs[|fs| - 1]), fs[|fs| - 1].hunks))
  }

  // ---- The scanner reads back what the printer wrote ---------------------------------

  lemma CombineAssociates(a: Summary, b: Summary, c: Summary)
    ensures Combine(Combine(a, b), c) == Combine(a, Combine(b, c))
    ensures Combine(a, EMPTY) == a == Combine(EMPTY, a)
  {
  }

  lemma ScanHunkLine(cs: Charset, st: Scanner, l: HunkLine)
    requires st.inHunk
    ensures ScanLine(cs, st, PrintHunkLine(l)) == st.(summary := Combine(st.summary, ExpectedLine(cs, st.path, l)))
  {
    var line := PrintHunkLine(l);
    assert line[0] == ' ' || line[0] == '+' || line[0] == '-' || line[0] == '\\';
    assert !("diff --git " <= line) && !("@@ " <= line);
    match l
    case Added(t) => assert line[1..] == t;
    case _ =>
  }

  lemma {:induction false} ScanHunkLines(cs: Charset, st: Scanner, ls: seq<HunkLine>)
    requires st.inHunk
    ensures ScanFrom(cs, st, PrintHunkLines(ls))
         == st.(summary := Combine(st.summary, ExpectedLines(cs, st.path, ls)))
  {
    if |ls| == 0 {
      CombineAssociates(st.summary, EMPTY, EMPTY);
    } else {
      var init, last := ls[..|ls| - 1], ls[|ls| - 1];
      ScanHunkLines(cs, st, init);
      var lines := PrintHunkLines(ls);
      assert lines[..|lines| - 1] == PrintHunkLines(init);
      ScanHunkLine(cs, ScanFrom(cs, st, PrintHunkLines(init)), last);
      CombineAssociates(st.summary, ExpectedLines(cs, st.path, init), ExpectedLine(cs, st.path, last));
    }
  }

  lemma ScanHunkHeader(cs: Charset, st: Scanner, range: string)
    ensures ScanFrom(cs, st, ["@@ " + range]) == st.(inHunk := true)
  {
    var line := "@@ " + range;
    ScanOne(cs, st, line);
    assert line[0] == '@' && line[..3] == "@@ ";
  }

  lemma {:induction false} ScanHunks(cs: Charset, st: Scanner, hs: seq<Hunk>)
    ensures var end := ScanFrom(cs, st, PrintHunks(hs));
            && end.path == st.path
            && end.summary == Combine(st.summary, ExpectedHunks(cs, st.path, hs))
  {
    if |hs| == 0 {
      CombineAssociates(st.summary, EMPTY, EMPTY);
    } else {
      var init, last := hs[..|hs| - 1], hs[|hs| - 1];
      ScanHunks(cs, st, init);
      var mid := ScanFrom(cs, st, PrintHunks(init));
      ScanFromConcat(cs, st, PrintHunks(init), ["@@ " + last.range]);
      ScanHunkHeader(cs, mid, last.range);
      ScanFromConcat(cs, st, PrintHunks(init) + ["@@ " + last.range], PrintHunkLines(last.lines));
      ScanHunkLines(cs, mid.(inHunk := true), last.lines);
      CombineAssociates(st.summary, ExpectedHunks(cs, st.path, init), ExpectedLines(cs, st.path, last.lines));
    }
  }

  lemma {:induction false} ScanExtended(cs: Charset, st: Scanner, lines: seq<string>)
    requires forall i | 0 <= i < |lines| :: IsExtendedHeader(lines[i])
    ensures ScanFrom(cs, st, lines) == st
  {
    if |lines| > 0 {
      ScanExtended(cs, st, lines[..|lines| - 1]);
      assert IsExtendedHeader(lines[|lines| - 1]);
    }
  }

  lemma {:induction false} TrimEndFixes(cs: Charset, s: string)
    ensures !EndsInSpace(cs, TrimEnd(cs, s)) && |TrimEnd(cs, s)| <= |s|
    ensures !EndsInSpace(cs, s) ==> TrimEnd(cs, s) == s
    ensures TrimEnd(cs, s) <= s
  {
    if EndsInSpace(cs, s) {
      TrimEndFixes(cs, s[..|s| - 1]);
    }
  }

  /** The scanner recovers a printed path exactly when the path does not end in white space. */
  lemma PathRecoveredIff(cs: Charset, path: string)
    requires IsSane(cs)
    ensures NormalizeDiffPath(cs, "b/" + path) == Some(path) <==> !EndsInSpace(cs, path)
  {
    var raw := "b/" + path;
    assert TrimStart(cs, raw) == raw;
    TrimEndFixes(cs, raw);
    var trimmed := TrimEnd(cs, raw);
    if EndsInSpace(cs, path) {
      assert raw[|raw| - 1] == path[|path| - 1];
      assert |trimmed| < |raw|;
    } else {
      assert |path| > 0 ==> raw[|raw| - 1] == path[|path| - 1];
      assert trimmed == raw;
      assert raw[0] == 'b';
      assert raw[2..] == path;
    }
  }

  lemma DevNullHasNoPath(cs: Charset)
    requires IsSane(cs)
    ensures NormalizeDiffPath(cs, "/dev/null") == None
  {
    assert TrimStart(cs, "/dev/null") == "/dev/null";
    assert TrimEnd(cs, "/dev/null") == "/dev/null";
  }

  lemma ScanSides(cs: Charset, st: Scanner, f: FileDiff)
    requires IsSane(cs) && WellFormed(cs, f) && !st.inHunk && st.path.None?
    ensures ScanFrom(cs, st, PrintSides(f)) == st.(path := PathOf(f))
  {
    if f.newSide.Some? {
      var old', new' := "--- " + f.oldSide, "+++ " + PrintNewSide(f.newSide.value);
      assert PrintSides(f) == [old'] + [new'];
      ScanFromConcat(cs, st, [old'], [new']);
      ScanOne(cs, st, old');
      ScanOne(cs, st, new');
      assert old'[0] == '-' && new'[0] == '+' && new'[..4] == "+++ ";
      assert "--- " <= old';
      if f.newSide.value.At? {
        assert new'[4..] == "b/" + f.newSide.value.path;
        PathRecoveredIff(cs, f.newSide.value.path);
      } else {
        assert new'[4..] == "/dev/null";
        DevNullHasNoPath(cs);
      }
    }
  }

  lemma ScanFile(cs: Charset, st: Scanner, f: FileDiff)
    requires IsSane(cs) && WellFormed(cs, f)
    ensures ScanFrom(cs, st, PrintFile(f)).summary == Combine(st.summary, ExpectedHunks(cs, PathOf(f), f.hunks))
  {
    var head := ["diff --git " + f.names];
    var st1 := Scanner(None, false, st.summary);
    ScanOne(cs, st, head[0]);
    ScanFromConcat(cs, st, head, f.extended);
    ScanExtended(cs, st1, f.extended);
    ScanFromConcat(cs, st, head + f.extended, PrintSides(f));
    ScanSides(cs, st1, f);
    ScanFromConcat(cs, st, head + f.extended + PrintSides(f), PrintHunks(f.hunks));
    ScanHunks(cs, st1.(path := PathOf(f)), f.hunks);
  }

  lemma {:induction false} ScanFiles(cs: Charset, fs: seq<FileDiff>)
    requires IsSane(cs) && forall i | 0 <= i < |fs| :: WellFormed(cs, fs[i])
    ensures ScanFrom(cs, START, PrintDiff(fs)).summary == Expected(cs, fs)
  {
    if |fs| > 0 {
      var init, last := fs[..|fs| - 1], fs[|fs| - 1];
      ScanFiles(cs, init);
      ScanFromConcat(cs, START, PrintDiff(init), PrintFile(last));
      ScanFile(cs, ScanFrom(cs, START, PrintDiff(init)), last);
    }
  }

  /**
    Scanning a printed diff gives exactly its added and deleted hunk lines and the
    ordered fingerprints of its effective added lines under the right path, also
    when hunk content looks like a file header and whether or not lines end in
    carriage returns.
   */
  lemma ScanRecoversDiff(cs: Charset, fs: seq<FileDiff>)
    requires IsSane(cs) && forall i | 0 <= i < |fs| :: WellFormed(cs, fs[i])
    requires forall i | 0 <= i < |PrintDiff(fs)| :: IsLine(PrintDiff(fs)[i])
    ensures Scan(cs, Unlines(PrintDiff(fs))) == Expected(cs, fs)
  {
    ScanOfUnlines(cs, START, PrintDiff(fs));
    ScanFiles(cs, fs);
  }
}
