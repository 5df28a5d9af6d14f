/** Paths of the app-server host: components and join under either platform's separators. */
module ServerPath {

  predicate IsAsciiLetter(c: char) {
    'a' <= c <= 'z' || 'A' <= c <= 'Z'
  }

  predicate IsWindowsAbsolute(path: string) {
    || (|path| >= 3 && IsAsciiLetter(path[0]) && path[1] == ':' && (path[2] == '\\' || path[2] == '/'))
    || "\\\\" <= path
    || "//" <= path
  }

  predicate IsSeparator(windows: bool, c: char) {
    c == '/' || (windows && c == '\\')
  }

  /** The finished components of `path` and the one still being read. */
  function Split(windows: bool, path: string): (seq<string>, string) {
    if |path| == 0 then ([], "")
    else
      var (done, part) := Split(windows, path[..|path| - 1]);
      var c := path[|path| - 1];
      if !IsSeparator(windows, c) then (done, part + [c])
      else (Finish(done, part), "")
  }

  /** Empty components are filtered out. */
  function Finish(done: seq<string>, part: string): seq<string> {
    if part == "" then done else done + [part]
  }

  function Components(path: string): seq<string> {
    var (done, part) := Split(IsWindowsAbsolute(path), path);
    Finish(done, part)
  }

  function TrimSeparators(windows: bool, path: string): string {
    if |path| > 0 && IsSeparator(windows, path[|path| - 1]) then TrimSeparators(windows, path[..|path| - 1])
    else path
  }

  function Join(path: string, segment: string): string {
    if IsWindowsAbsolute(path) then TrimSeparators(true, path) + "\\" + segment
    else TrimSeparators(false, path) + "/" + segment
  }

  /** A non-empty path segment that holds no separator of either platform. */
  predicate IsSegment(s: string) {
    s != "" && '/' !in s && '\\' !in s
  }

  /** A Windows-style path with nothing in it but separators, such as `//` or `\\`. */
  predicate IsBareRoot(path: string) {
    IsWindowsAbsolute(path) && TrimSeparators(true, path) == ""
  }

  // ---- Trimming ----------------------------------------------------------------

  lemma {:induction false} TrimShape(windows: bool, path: string)
    ensures var t := TrimSeparators(windows, path);
            && t <= path
            && (t != "" ==> !IsSeparator(windows, t[|t| - 1]))
            && (forall i | |t| <= i < |path| :: IsSeparator(windows, path[i]))
  {
    if |path| > 0 && IsSeparator(windows, path[|path| - 1]) {
      TrimShape(windows, path[..|path| - 1]);
    }
  }

  lemma {:induction false} TrimKeepsComponents(windows: bool, path: string)
    ensures Finish(Split(windows, TrimSeparators(windows, path)).0, Split(windows, TrimSeparators(windows, path)).1)
         == Finish(Split(windows, path).0, Split(windows, path).1)
  {
    if |path| > 0 && IsSeparator(windows, path[|path| - 1]) {
      TrimKeepsComponents(windows, path[..|path| - 1]);
    }
  }

  lemma {:induction false} SplitSegment(windows: bool, prefix: string, segment: string)
    requires '/' !in segment && '\\' !in segment && Split(windows, prefix).1 == ""
    ensures Split(windows, prefix + segment) == (Split(windows, prefix).0, segment)
  {
    if segment == "" {
      assert prefix + segment == prefix;
    } else {
      var init, c := segment[..|segment| - 1], segment[|segment| - 1];
      assert c in segment;
      SplitSegment(windows, prefix, init);
      assert (prefix + segment)[..|prefix + segment| - 1] == prefix + init;
      assert init + [c] == segment;
    }
  }

  lemma SplitSeparated(windows: bool, path: string, separator: char, segment: string)
    requires IsSeparator(windows, separator) && IsSegment(segment)
    ensures var (done, part) := Split(windows, path);
            var (done', part') := Split(windows, path + [separator] + segment);
            Finish(done', part') == Finish(done, part) + [segment]
  {
    assert (path + [separator])[..|path|] == path;
    SplitSegment(windows, path + [separator], segment);
  }

  // ---- Join ----------------------------------------------------------------------

  /** Where only `/` separates, a path and its backslashes do not matter to the split. */
  lemma {:induction false} SameSplit(path: string)
    requires '\\' !in path
    ensures Split(true, path) == Split(false, path)
  {
    if |path| > 0 {
      SameSplit(path[..|path| - 1]);
      assert path[|path| - 1] in path;
    }
  }

  /** The joined path read back: trimmed path, separator, segment. */
  lemma JoinedPrefix(path: string, segment: string)
    requires IsSegment(segment)
    ensures var windows := IsWindowsAbsolute(path);
            var t := TrimSeparators(windows, path);
            var joined := Join(path, segment);
            && |joined| >= |t| + 2
            && joined[..|t|] == t && t <= path
            && joined[|t|] == (if windows then '\\' else '/')
            && joined[|t| + 1] == segment[0] && segment[0] != '/' && segment[0] != '\\'
            && (|t| >= 3 ==> joined[0] == path[0] && joined[1] == path[1] && joined[2] == path[2])
  {
    var windows := IsWindowsAbsolute(path);
    var t := TrimSeparators(windows, path);
    TrimShape(windows, path);
    assert segment[0] in segment;
    assert Join(path, segment)[..|t|] == t;
    if |t| >= 3 {
      assert Join(path, segment)[..3] == path[..3];
    }
  }

  lemma JoinedWindows(path: string, segment: string)
    requires IsWindowsAbsolute(path) && !IsBareRoot(path) && IsSegment(segment)
    ensures IsWindowsAbsolute(Join(path, segment))
  {
    JoinedPrefix(path, segment);
    TrimShape(true, path);
    var t := TrimSeparators(true, path);
    var joined := Join(path, segment);
    if |t| < 3 {
      // Only a drive root is this short once trimmed: `C:` followed by separators.
      assert joined[0] == t[0] == path[0];
      assert |t| == 2 ==> joined[1] == t[1] == path[1];
    }
  }

  lemma JoinedPosix(path: string, segment: string)
    requires !IsWindowsAbsolute(path) && IsSegment(segment)
    ensures IsWindowsAbsolute(Join(path, segment)) ==> '\\' !in TrimSeparators(false, path)
  {
    JoinedPrefix(path, segment);
    TrimShape(false, path);
    var t := TrimSeparators(false, path);
    var joined := Join(path, segment);
    if |t| == 2 {
      assert joined[0] == t[0] == path[0] && joined[1] == t[1] == path[1];
    } else if |t| == 1 {
      assert joined[0] == t[0] == path[0];
    }
  }

  lemma JoinAppends(path: string, segment: string)
    requires !IsBareRoot(path) && IsSegment(segment)
    ensures Components(Join(path, segment)) == Components(path) + [segment]
  {
    var windows := IsWindowsAbsolute(path);
    var t := TrimSeparators(windows, path);
    TrimKeepsComponents(windows, path);
    if windows {
      JoinedWindows(path, segment);
      SplitSeparated(true, t, '\\', segment);
    } else {
      JoinedPosix(path, segment);
      SplitSeparated(IsWindowsAbsolute(Join(path, segment)), t, '/', segment);
      if IsWindowsAbsolute(Join(path, segment)) {
        SameSplit(t);
      }
    }
  }

  lemma BareRootFails(path: string, segment: string)
    requires IsBareRoot(path) && IsSegment(segment)
    ensures Join(path, segment) == "\\" + segment
    ensures Components(Join(path, segment)) == ["\\" + segment]
    ensures Components(path) == []
  {
    JoinedPrefix(path, segment);
    var joined := Join(path, segment);
    assert joined == "\\" + segment;
    assert !IsWindowsAbsolute(joined);
    PlainSplit(joined);
    TrimKeepsComponents(true, path);
  }

  lemma {:induction false} PlainSplit(s: string)
    requires '/' !in s
    ensures Split(false, s) == ([], s)
  {
    if |s| > 0 {
      PlainSplit(s[..|s| - 1]);
      assert s[|s| - 1] in s;
      assert s[..|s| - 1] + [s[|s| - 1]] == s;
    }
  }

  /**
    Joining a segment adds exactly that segment to the components, including when it
    turns a bare drive into a Windows path, if and only if the path is not a
    Windows-style path made of separators alone.
   */
  lemma JoinAppendsIff(path: string, segment: string)
    requires IsSegment(segment)
    ensures Components(Join(path, segment)) == Components(path) + [segment] <==> !IsBareRoot(path)
  {
    if IsBareRoot(path) {
      BareRootFails(path, segment);
      assert ([] + [segment])[0] == segment && |"\\" + segment| == |segment| + 1;
    } else {
      JoinAppends(path, segment);
    }
  }

  /** A bare root such as `//` loses its separator: the segment comes back as `\segment`. */
  lemma BareRootExample()
    ensures IsBareRoot("//") && Join("//", "x") == "\\x" && Components("\\x") == ["\\x"]
  {
    assert "//"[..1] == "/" && "/"[..0] == "";
    assert TrimSeparators(true, "/") == "";
    assert TrimSeparators(true, "//") == "";
    BareRootFails("//", "x");
  }

  function JoinAll(path: string, segments: seq<string>): string {
    if |segments| == 0 then path else Join(JoinAll(path, segments[..|segments| - 1]), segments[|segments| - 1])
  }

  lemma JoinIsNoBareRoot(path: string, segment: string)
    requires IsSegment(segment)
    ensures !IsBareRoot(Join(path, segment))
  {
    var joined := Join(path, segment);
    assert joined[|joined| - 1] == segment[|segment| - 1];
    assert segment[|segment| - 1] in segment;
  }

  /** Building a path segment by segment: its components are the root's followed by the segments. */
  lemma {:induction false} JoinAllComponents(path: string, segments: seq<string>)
    requires !IsBareRoot(path) && forall i | 0 <= i < |segments| :: IsSegment(segments[i])
    ensures Components(JoinAll(path, segments)) == Components(path) + segments
    ensures !IsBareRoot(JoinAll(path, segments))
  {
    if |segments| == 0 {
      assert Components(path) + segments == Components(path);
    } else {
      var init, last := segments[..|segments| - 1], segments[|segments| - 1];
      JoinAllComponents(path, init);
      JoinAppends(JoinAll(path, init), last);
      JoinIsNoBareRoot(JoinAll(path, init), last);
      assert Components(path) + segments == Components(path) + init + [last];
    }
  }
}
