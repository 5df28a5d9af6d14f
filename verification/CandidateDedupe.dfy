/**
  Merging of neighbouring candidates: the stable sort by path and line, and the greedy
  pass that drops a hit within three lines of a kept hit of the same path and category.
 */
module CandidateDedupe {
  import opened Prelude

  const WINDOW := 3
  const UNKNOWN := "unknown"

  datatype Candidate = Candidate(checkId: string, path: string, line: int, category: string)

  /** The hits that can absorb one another. */
  datatype Group = Group(path: string, category: string)

  function GroupOf(c: Candidate): Group {
    Group(c.path, c.category)
  }

  // ---- The sort key -----------------------------------------------------------------

  predicate TextLeq(a: string, b: string) {
    a == "" || (b != "" && (a[0] < b[0] || (a[0] == b[0] && TextLeq(a[1..], b[1..]))))
  }

  lemma {:induction false} TextTotal(a: string, b: string)
    ensures TextLeq(a, b) || TextLeq(b, a)
  {
    if a != "" && b != "" && a[0] == b[0] { TextTotal(a[1..], b[1..]); }
  }

  lemma {:induction false} TextAntisymmetric(a: string, b: string)
    requires TextLeq(a, b) && TextLeq(b, a)
    ensures a == b
  {
    if a != "" {
      TextAntisymmetric(a[1..], b[1..]);
      assert a == [a[0]] + a[1..] && b == [b[0]] + b[1..];
    }
  }

  lemma {:induction false} TextTransitive(a: string, b: string, c: string)
    requires TextLeq(a, b) && TextLeq(b, c)
    ensures TextLeq(a, c)
  {
    if a != "" && a[0] == b[0] && b[0] == c[0] { TextTransitive(a[1..], b[1..], c[1..]); }
  }

  predicate Leq(c: Candidate, d: Candidate) {
    if c.path == d.path then c.line <= d.line else TextLeq(c.path, d.path)
  }

  predicate SameKey(c: Candidate, d: Candidate) {
    c.path == d.path && c.line == d.line
  }

  lemma LeqOrder(a: Candidate, b: Candidate, c: Candidate)
    ensures Leq(a, b) || Leq(b, a)
    ensures Leq(a, b) && Leq(b, c) ==> Leq(a, c)
    ensures Leq(a, b) && Leq(b, a) ==> SameKey(a, b)
  {
    TextTotal(a.path, b.path);
    if Leq(a, b) && Leq(b, c) {
      if a.path != b.path && b.path != c.path {
        TextTransitive(a.path, b.path, c.path);
        if a.path == c.path { TextAntisymmetric(a.path, b.path); }
      }
    }
    if Leq(a, b) && Leq(b, a) && a.path != b.path { TextAntisymmetric(a.path, b.path); }
  }

  predicate IsSorted(s: seq<Candidate>) {
    forall i, j | 0 <= i < j < |s| :: Leq(s[i], s[j])
  }

  // ---- The stable sort ------------------------------------------------------------------

  /** Puts `c` behind every element that is not greater, as a stable sort does. */
  function Insert(s: seq<Candidate>, c: Candidate): seq<Candidate> {
    if |s| == 0 || Leq(s[|s| - 1], c) then s + [c]
    else Insert(s[..|s| - 1], c) + [s[|s| - 1]]
  }

  function StableSort(s: seq<Candidate>): seq<Candidate> {
    if |s| == 0 then [] else Insert(StableSort(s[..|s| - 1]), s[|s| - 1])
  }

  lemma {:induction false} InsertContents(s: seq<Candidate>, c: Candidate)
    ensures multiset(Insert(s, c)) == multiset(s) + multiset{c}
  {
    if |s| > 0 && !Leq(s[|s| - 1], c) {
      InsertContents(s[..|s| - 1], c);
      InitAndLast(s);
    }
  }

  lemma InsertElements(s: seq<Candidate>, c: Candidate)
    ensures forall x :: x in Insert(s, c) <==> x in s || x == c
  {
    InsertContents(s, c);
    forall x ensures x in Insert(s, c) <==> x in s || x == c {
      assert x in Insert(s, c) <==> x in multiset(Insert(s, c));
      assert x in s <==> x in multiset(s);
    }
  }

  lemma {:induction false} InsertSorted(s: seq<Candidate>, c: Candidate)
    requires IsSorted(s)
    ensures IsSorted(Insert(s, c))
  {
    if |s| > 0 {
      var init, last := s[..|s| - 1], s[|s| - 1];
      if Leq(last, c) {
        forall i | 0 <= i < |s| ensures Leq(s[i], c) {
          LeqOrder(s[i], last, c);
        }
      } else {
        InsertSorted(init, c);
        InsertElements(init, c);
        LeqOrder(last, c, c);
        var r := Insert(init, c);
        forall i | 0 <= i < |r| ensures Leq(r[i], last) {
          assert r[i] in r;
        }
      }
    }
  }

  /** The elements with the same path and line as `k`, in order. */
  function Ties(k: Candidate, s: seq<Candidate>): seq<Candidate> {
    if |s| == 0 then [] else AddTie(k, Ties(k, s[..|s| - 1]), s[|s| - 1])
  }

  function AddTie(k: Candidate, ties: seq<Candidate>, c: Candidate): seq<Candidate> {
    if SameKey(c, k) then ties + [c] else ties
  }

  lemma TiesSnoc(k: Candidate, s: seq<Candidate>, c: Candidate)
    ensures Ties(k, s + [c]) == AddTie(k, Ties(k, s), c)
  {
    assert (s + [c])[..|s|] == s;
  }

  /** Of two elements with different keys at most one is a tie of `k`, so their order does not matter. */
  lemma TiesCommute(k: Candidate, ties: seq<Candidate>, c: Candidate, d: Candidate)
    requires !SameKey(c, d)
    ensures AddTie(k, AddTie(k, ties, c), d) == AddTie(k, AddTie(k, ties, d), c)
  {
  }

  lemma {:induction false} InsertStable(s: seq<Candidate>, c: Candidate, k: Candidate)
    ensures Ties(k, Insert(s, c)) == AddTie(k, Ties(k, s), c)
  {
    if |s| == 0 || Leq(s[|s| - 1], c) {
      TiesSnoc(k, s, c);
    } else {
      var init, last := s[..|s| - 1], s[|s| - 1];
      InsertStable(init, c, k);
      TiesSnoc(k, Insert(init, c), last);
      TiesCommute(k, Ties(k, init), c, last);
    }
  }

  lemma {:induction false} SortSorted(s: seq<Candidate>)
    ensures IsSorted(StableSort(s))
  {
    if |s| > 0 {
      SortSorted(s[..|s| - 1]);
      InsertSorted(StableSort(s[..|s| - 1]), s[|s| - 1]);
    }
  }

  lemma {:induction false} SortContents(s: seq<Candidate>)
    ensures multiset(StableSort(s)) == multiset(s)
  {
    if |s| > 0 {
      SortContents(s[..|s| - 1]);
      InsertContents(StableSort(s[..|s| - 1]), s[|s| - 1]);
      InitAndLast(s);
    }
  }

  lemma {:induction false} SortStable(s: seq<Candidate>, k: Candidate)
    ensures Ties(k, StableSort(s)) == Ties(k, s)
  {
    if |s| > 0 {
      SortStable(s[..|s| - 1], k);
      InsertStable(StableSort(s[..|s| - 1]), s[|s| - 1], k);
    }
  }

  /** The sort orders by path and line, keeps every candidate, and never reorders ties. */
  lemma {:induction false} StableSortCorrect(s: seq<Candidate>, k: Candidate)
    ensures IsSorted(StableSort(s))
    ensures multiset(StableSort(s)) == multiset(s)
    ensures Ties(k, StableSort(s)) == Ties(k, s)
  {
    SortSorted(s);
    SortContents(s);
    SortStable(s, k);
  }

  lemma SortedInit(s: seq<Candidate>)
    requires IsSorted(s) && |s| > 0
    ensures IsSorted(s[..|s| - 1])
    ensures |s| > 1 ==> Leq(s[|s| - 2], s[|s| - 1])
  {
  }

  lemma InsertAtEnd(s: seq<Candidate>, c: Candidate)
    requires |s| > 0 ==> Leq(s[|s| - 1], c)
    ensures Insert(s, c) == s + [c]
  {
  }

  lemma {:induction false} SortOfSorted(s: seq<Candidate>)
    requires IsSorted(s)
    ensures StableSort(s) == s
  {
    if |s| > 0 {
      SortedInit(s);
      SortOfSorted(s[..|s| - 1]);
      InsertAtEnd(s[..|s| - 1], s[|s| - 1]);
      InitAndLast(s);
    }
  }

  // ---- The greedy pass --------------------------------------------------------------------

  predicate Near(c: Candidate, d: Candidate) {
    GroupOf(c) == GroupOf(d) && -WINDOW <= c.line - d.line <= WINDOW
  }

  predicate IsDup(kept: seq<Candidate>, c: Candidate) {
    c.category != UNKNOWN && exists i | 0 <= i < |kept| :: Near(c, kept[i])
  }

  function Greedy(s: seq<Candidate>): seq<Candidate> {
    if |s| == 0 then []
    else
      var kept := Greedy(s[..|s| - 1]);
      if IsDup(kept, s[|s| - 1]) then kept else kept + [s[|s| - 1]]
  }

  function Dedupe(candidates: seq<Candidate>): seq<Candidate> {
    Greedy(StableSort(candidates))
  }

  /** The merging loop: each candidate is compared with everything kept so far. */
  method DedupeLoop(candidates: seq<Candidate>) returns (deduped: seq<Candidate>)
    ensures deduped == Dedupe(candidates)
  {
    var sorted := StableSort(candidates);
    deduped := [];
    for k := 0 to |sorted|
      invariant deduped == Greedy(sorted[..k])
    {
      var c := sorted[k];
      assert sorted[..k + 1][..k] == sorted[..k];
      var isDup := false;
      if c.category != UNKNOWN {
        var i := 0;
        while i < |deduped| && !isDup
          invariant 0 <= i <= |deduped|
          invariant isDup <==> exists j | 0 <= j < i :: Near(c, deduped[j])
        {
          isDup := Near(c, deduped[i]);
          i := i + 1;
        }
      }
      if !isDup {
        deduped := deduped + [c];
      }
    }
    assert sorted[..|sorted|] == sorted;
  }

  // ---- What is kept --------------------------------------------------------------------------

  /** No two kept hits of a known category are near one another. */
  predicate Separated(kept: seq<Candidate>) {
    forall i, j | 0 <= i < j < |kept| && kept[i].category != UNKNOWN :: !Near(kept[i], kept[j])
  }

  lemma {:induction false} GreedySeparated(s: seq<Candidate>)
    ensures Separated(Greedy(s))
    ensures forall c | c in Greedy(s) :: c in s
  {
    if |s| > 0 {
      GreedySeparated(s[..|s| - 1]);
    }
  }

  lemma {:induction false} GreedySorted(s: seq<Candidate>)
    requires IsSorted(s)
    ensures IsSorted(Greedy(s))
  {
    if |s| > 0 {
      var init, last := s[..|s| - 1], s[|s| - 1];
      GreedySorted(init);
      GreedySeparated(init);
      forall i | 0 <= i < |Greedy(init)| ensures Leq(Greedy(init)[i], last) {
        assert Greedy(init)[i] in init;
      }
    }
  }

  /** `d` stands for `c`: same group, and at most three lines above it. */
  predicate Covers(d: Candidate, c: Candidate) {
    GroupOf(d) == GroupOf(c) && d.line <= c.line <= d.line + WINDOW
  }

  /** Every hit is kept or covered by a kept one; hits of unknown category are always kept. */
  lemma {:induction false} GreedyCovers(s: seq<Candidate>, c: Candidate)
    requires IsSorted(s) && c in s
    ensures exists i | 0 <= i < |Greedy(s)| :: Covers(Greedy(s)[i], c)
    ensures c in Greedy(s) || c.category != UNKNOWN
  {
    var init, last := s[..|s| - 1], s[|s| - 1];
    GreedySeparated(init);
    if c in init {
      GreedyCovers(init, c);
      var i :| 0 <= i < |Greedy(init)| && Covers(Greedy(init)[i], c);
      assert Covers(Greedy(s)[i], c);
    } else if IsDup(Greedy(init), last) {
      var i :| 0 <= i < |Greedy(init)| && Near(last, Greedy(init)[i]);
      assert Greedy(init)[i] in init;
      assert Covers(Greedy(s)[i], last);
    } else {
      assert Covers(Greedy(s)[|Greedy(s)| - 1], last);
    }
  }

  predicate IsUnknown(c: Candidate) {
    c.category == UNKNOWN
  }

  lemma {:induction false} GreedyKeepsUnknown(s: seq<Candidate>)
    ensures Filter(IsUnknown, Greedy(s)) == Filter(IsUnknown, s)
  {
    if |s| > 0 {
      GreedyKeepsUnknown(s[..|s| - 1]);
      FilterSnoc(IsUnknown, Greedy(s[..|s| - 1]), s[|s| - 1]);
    }
  }

  /**
    Soundness of the merge: kept hits of a known category are more than three lines
    apart, every dropped hit lies within three lines below a kept one of its path and
    category, and hits of unknown category all stay, in order.
   */
  lemma DedupeSound(candidates: seq<Candidate>)
    ensures Separated(Dedupe(candidates)) && IsSorted(Dedupe(candidates))
    ensures forall c | c in candidates && c !in Dedupe(candidates) ::
              c.category != UNKNOWN && exists i | 0 <= i < |Dedupe(candidates)| :: Covers(Dedupe(candidates)[i], c)
    ensures forall c | c in Dedupe(candidates) :: c in candidates
    ensures Filter(IsUnknown, Dedupe(candidates)) == Filter(IsUnknown, StableSort(candidates))
  {
    var s := StableSort(candidates);
    SortSorted(candidates);
    SortContents(candidates);
    GreedySeparated(s);
    GreedySorted(s);
    GreedyKeepsUnknown(s);
    assert forall c :: c in candidates <==> c in multiset(candidates);
    assert forall c :: c in s <==> c in multiset(s);
    assert StableSort(candidates) == s;
    forall c | c in candidates && c !in Dedupe(candidates)
      ensures c.category != UNKNOWN && exists i | 0 <= i < |Dedupe(candidates)| :: Covers(Dedupe(candidates)[i], c)
    {
      GreedyCovers(s, c);
    }
  }

  // ---- Optimality ------------------------------------------------------------------------------

  /** The lines on which the group has a hit. */
  function LinesOf(s: seq<Candidate>, g: Group): set<int> {
    set i | 0 <= i < |s| && GroupOf(s[i]) == g :: s[i].line
  }

  predicate Apart(lines: set<int>) {
    forall x, y | x in lines && y in lines && x < y :: y - x > WINDOW
  }

  ghost predicate CoveredBy(lines: set<int>, kept: set<int>) {
    forall x | x in lines :: exists k | k in kept :: k <= x <= k + WINDOW
  }

  lemma EmptyOrNot(lines: set<int>)
    ensures lines == {} || exists x :: x in lines
  {
    if !exists x :: x in lines { assert lines == {}; }
  }

  /** Lines that are pairwise apart each need a cover of their own. */
  lemma {:induction false} CoversAreInjective(lines: set<int>, kept: set<int>)
    requires Apart(lines) && CoveredBy(lines, kept)
    ensures |lines| <= |kept|
  {
    if lines != {} {
      EmptyOrNot(lines);
      var x :| x in lines;
      var k :| k in kept && k <= x <= k + WINDOW;
      var lines', kept' := lines - {x}, kept - {k};
      forall y | y in lines' ensures exists k' | k' in kept' :: k' <= y <= k' + WINDOW {
        var k' :| k' in kept && k' <= y <= k' + WINDOW;
        assert k' in kept';
      }
      CoversAreInjective(lines', kept');
    }
  }

  lemma LinesMembership(s: seq<Candidate>, g: Group, x: int)
    ensures x in LinesOf(s, g) <==> exists i | 0 <= i < |s| :: GroupOf(s[i]) == g && s[i].line == x
  {
  }

  lemma KeptLinesApart(s: seq<Candidate>, g: Group)
    requires IsSorted(s) && g.category != UNKNOWN
    ensures Apart(LinesOf(Greedy(s), g))
  {
    GreedySeparated(s);
    SeparatedApart(Greedy(s), g);
  }

  lemma SeparatedApart(kept: seq<Candidate>, g: Group)
    requires Separated(kept) && g.category != UNKNOWN
    ensures Apart(LinesOf(kept, g))
  {
    forall x, y | x in LinesOf(kept, g) && y in LinesOf(kept, g) && x < y
      ensures y - x > WINDOW
    {
      var i :| 0 <= i < |kept| && GroupOf(kept[i]) == g && kept[i].line == x;
      var j :| 0 <= j < |kept| && GroupOf(kept[j]) == g && kept[j].line == y;
      if i < j { assert !Near(kept[i], kept[j]); } else { assert !Near(kept[j], kept[i]); }
    }
  }

  lemma LineCovered(s: seq<Candidate>, g: Group, x: int)
    requires IsSorted(s) && x in LinesOf(s, g)
    ensures exists k | k in LinesOf(Greedy(s), g) :: k <= x <= k + WINDOW
  {
    var i :| 0 <= i < |s| && GroupOf(s[i]) == g && s[i].line == x;
    GreedyCovers(s, s[i]);
    var j :| 0 <= j < |Greedy(s)| && Covers(Greedy(s)[j], s[i]);
    LinesMembership(Greedy(s), g, Greedy(s)[j].line);
  }

  lemma KeptLinesAreLines(s: seq<Candidate>, g: Group)
    ensures LinesOf(Greedy(s), g) <= LinesOf(s, g)
  {
    GreedySeparated(s);
    forall x | x in LinesOf(Greedy(s), g) ensures x in LinesOf(s, g) {
      var j :| 0 <= j < |Greedy(s)| && GroupOf(Greedy(s)[j]) == g && Greedy(s)[j].line == x;
      assert Greedy(s)[j] in s;
    }
  }

  lemma KeptLinesCover(s: seq<Candidate>, g: Group)
    requires IsSorted(s)
    ensures CoveredBy(LinesOf(s, g), LinesOf(Greedy(s), g))
    ensures LinesOf(Greedy(s), g) <= LinesOf(s, g)
  {
    KeptLinesAreLines(s, g);
    forall x | x in LinesOf(s, g) ensures exists k | k in LinesOf(Greedy(s), g) :: k <= x <= k + WINDOW {
      LineCovered(s, g, x);
    }
  }

  /** How many kept hits belong to the group. */
  function CountIn(s: seq<Candidate>, g: Group): nat {
    if |s| == 0 then 0 else CountIn(s[..|s| - 1], g) + if GroupOf(s[|s| - 1]) == g then 1 else 0
  }

  lemma LinesSnoc(init: seq<Candidate>, last: Candidate, g: Group)
    ensures LinesOf(init + [last], g)
         == if GroupOf(last) == g then LinesOf(init, g) + {last.line} else LinesOf(init, g)
  {
    var s := init + [last];
    forall x ensures x in LinesOf(s, g) <==> x in LinesOf(init, g) || (GroupOf(last) == g && x == last.line) {
      if x in LinesOf(init, g) {
        var i :| 0 <= i < |init| && GroupOf(init[i]) == g && init[i].line == x;
        assert s[i] == init[i];
      }
      if GroupOf(last) == g && x == last.line {
        assert s[|init|] == last;
      }
    }
  }

  lemma SeparatedInit(s: seq<Candidate>)
    requires Separated(s) && |s| > 0
    ensures Separated(s[..|s| - 1]) && !IsDup(s[..|s| - 1], s[|s| - 1])
  {
    var init, last := s[..|s| - 1], s[|s| - 1];
    forall i | 0 <= i < |init| && last.category != UNKNOWN ensures !Near(last, init[i]) {
      assert s[i] == init[i] && (Near(last, s[i]) ==> s[i].category != UNKNOWN && Near(s[i], s[|s| - 1]));
    }
  }

  /** The last of separated hits is on a line of its own within its group. */
  lemma LastLineIsNew(kept: seq<Candidate>, g: Group)
    requires Separated(kept) && |kept| > 0 && GroupOf(kept[|kept| - 1]) == g && g.category != UNKNOWN
    ensures kept[|kept| - 1].line !in LinesOf(kept[..|kept| - 1], g)
  {
    var init, last := kept[..|kept| - 1], kept[|kept| - 1];
    assert forall i | 0 <= i < |init| && GroupOf(init[i]) == g :: !Near(kept[i], kept[|kept| - 1]);
  }

  lemma {:induction false} SeparatedCount(kept: seq<Candidate>, g: Group)
    requires Separated(kept) && g.category != UNKNOWN
    ensures CountIn(kept, g) == |LinesOf(kept, g)|
  {
    if |kept| > 0 {
      var init, last := kept[..|kept| - 1], kept[|kept| - 1];
      SeparatedInit(kept);
      SeparatedCount(init, g);
      LinesSnoc(init, last, g);
      InitAndLast(kept);
      if GroupOf(last) == g {
        LastLineIsNew(kept, g);
      }
    }
  }

  /**
    Optimality: per path and known category the kept hits are pairwise more than three
    lines apart, and no other choice of hits with that property is larger.
   */
  lemma DedupeIsMaximum(candidates: seq<Candidate>, g: Group, other: set<int>)
    requires g.category != UNKNOWN
    requires other <= LinesOf(candidates, g) && Apart(other)
    ensures Apart(LinesOf(Dedupe(candidates), g)) && LinesOf(Dedupe(candidates), g) <= LinesOf(candidates, g)
    ensures |other| <= CountIn(Dedupe(candidates), g)
  {
    var s := StableSort(candidates);
    SortKeepsLines(candidates, g);
    KeptLinesApart(s, g);
    KeptLinesCover(s, g);
    GreedySeparated(s);
    SeparatedCount(Greedy(s), g);
    CoversAreInjective(other, LinesOf(Greedy(s), g));
  }

  lemma SameElementsSameLines(a: seq<Candidate>, b: seq<Candidate>, g: Group)
    requires multiset(a) == multiset(b)
    ensures LinesOf(a, g) == LinesOf(b, g)
  {
    forall x ensures x in LinesOf(a, g) <==> x in LinesOf(b, g) {
      if x in LinesOf(a, g) {
        var i :| 0 <= i < |a| && GroupOf(a[i]) == g && a[i].line == x;
        assert a[i] in multiset(b);
      }
      if x in LinesOf(b, g) {
        var i :| 0 <= i < |b| && GroupOf(b[i]) == g && b[i].line == x;
        assert b[i] in multiset(a);
      }
    }
  }

  lemma SortKeepsLines(candidates: seq<Candidate>, g: Group)
    ensures IsSorted(StableSort(candidates))
    ensures LinesOf(StableSort(candidates), g) == LinesOf(candidates, g)
  {
    SortSorted(candidates);
    SortContents(candidates);
    SameElementsSameLines(StableSort(candidates), candidates, g);
  }

  // ---- Comparing with the last kept hit is enough ----------------------------------------------

  /** The line of the latest kept hit of each group. */
  function LastKept(kept: seq<Candidate>): map<Group, int> {
    if |kept| == 0 then map[] else LastKept(kept[..|kept| - 1])[GroupOf(kept[|kept| - 1]) := kept[|kept| - 1].line]
  }

  lemma {:induction false} LastKeptIsGreatest(kept: seq<Candidate>, g: Group)
    requires IsSorted(kept)
    ensures g in LastKept(kept) <==> exists i | 0 <= i < |kept| :: GroupOf(kept[i]) == g
    ensures g in LastKept(kept) ==>
              && (exists i | 0 <= i < |kept| :: GroupOf(kept[i]) == g && kept[i].line == LastKept(kept)[g])
              && (forall i | 0 <= i < |kept| && GroupOf(kept[i]) == g :: kept[i].line <= LastKept(kept)[g])
  {
    if |kept| > 0 {
      var init := kept[..|kept| - 1];
      LastKeptIsGreatest(init, g);
      if GroupOf(kept[|kept| - 1]) != g && g in LastKept(init) {
        var i :| 0 <= i < |init| && GroupOf(init[i]) == g && init[i].line == LastKept(init)[g];
        assert GroupOf(kept[i]) == g && kept[i].line == LastKept(kept)[g];
      }
    }
  }

  lemma SortedSnoc(s: seq<Candidate>, c: Candidate)
    requires IsSorted(s + [c])
    ensures IsSorted(s)
    ensures forall d | d in s :: Leq(d, c)
  {
    var t := s + [c];
    assert forall i | 0 <= i < |s| :: t[i] == s[i];
    forall d | d in s ensures Leq(d, c) {
      var i :| 0 <= i < |s| && s[i] == d;
      assert Leq(t[i], t[|s|]);
    }
  }

  /** Kept hits of the group of a later candidate are not below it. */
  lemma KeptAbove(s: seq<Candidate>, c: Candidate, i: nat)
    requires IsSorted(s + [c]) && i < |Greedy(s)| && GroupOf(Greedy(s)[i]) == GroupOf(c)
    ensures Greedy(s)[i].line <= c.line
  {
    SortedSnoc(s, c);
    GreedySeparated(s);
    assert Greedy(s)[i] in Greedy(s);
  }

  /** If the last kept hit of the group is too far away, so are all of them. */
  lemma FarFromLastIsFar(kept: seq<Candidate>, c: Candidate, i: nat)
    requires IsSorted(kept) && i < |kept| && Near(c, kept[i])
    ensures GroupOf(c) in LastKept(kept) && c.line - LastKept(kept)[GroupOf(c)] <= WINDOW
  {
    LastKeptIsGreatest(kept, GroupOf(c));
  }

  lemma LastKeptDecides(s: seq<Candidate>, c: Candidate)
    requires IsSorted(s + [c])
    ensures IsDup(Greedy(s), c) <==>
              && c.category != UNKNOWN
              && GroupOf(c) in LastKept(Greedy(s))
              && c.line - LastKept(Greedy(s))[GroupOf(c)] <= WINDOW
  {
    var kept, g := Greedy(s), GroupOf(c);
    SortedSnoc(s, c);
    GreedySorted(s);
    if IsDup(kept, c) {
      var i: nat :| i < |kept| && Near(c, kept[i]);
      FarFromLastIsFar(kept, c, i);
    } else if c.category != UNKNOWN && g in LastKept(kept) && c.line - LastKept(kept)[g] <= WINDOW {
      LastKeptIsGreatest(kept, g);
      var i: nat :| i < |kept| && GroupOf(kept[i]) == g && kept[i].line == LastKept(kept)[g];
      KeptAbove(s, c, i);
      assert Near(c, kept[i]);
    }
  }

  /** What the linear variant does with one more candidate. */
  lemma LastKeptStep(s: seq<Candidate>, c: Candidate)
    requires IsSorted(s + [c])
    ensures var kept := Greedy(s);
            var last := LastKept(kept);
            var isFresh := c.category == UNKNOWN || GroupOf(c) !in last || c.line - last[GroupOf(c)] > WINDOW;
            && Greedy(s + [c]) == (if isFresh then kept + [c] else kept)
            && LastKept(kept + [c]) == last[GroupOf(c) := c.line]
  {
    LastKeptDecides(s, c);
    assert (s + [c])[..|s|] == s;
    assert (Greedy(s) + [c])[..|Greedy(s)|] == Greedy(s);
  }

  /** The linear variant: one remembered line per path and category instead of a scan of everything kept. */
  method DedupeByLastKept(candidates: seq<Candidate>) returns (deduped: seq<Candidate>)
    ensures deduped == Dedupe(candidates)
  {
    var sorted := StableSort(candidates);
    SortSorted(candidates);
    deduped := [];
    var last: map<Group, int> := map[];
    for k := 0 to |sorted|
      invariant deduped == Greedy(sorted[..k]) && last == LastKept(deduped)
    {
      var c := sorted[k];
      assert sorted[..k + 1] == sorted[..k] + [c];
      LastKeptStep(sorted[..k], c);
      if c.category == UNKNOWN || GroupOf(c) !in last || c.line - last[GroupOf(c)] > WINDOW {
        deduped := deduped + [c];
        last := last[GroupOf(c) := c.line];
      }
    }
    assert sorted[..|sorted|] == sorted;
  }

  // ---- Idempotence and independence of input order -----------------------------------------------

  lemma GreedyStep(s: seq<Candidate>)
    requires |s| > 0 && Greedy(s[..|s| - 1]) == s[..|s| - 1] && !IsDup(s[..|s| - 1], s[|s| - 1])
    ensures Greedy(s) == s
  {
    InitAndLast(s);
  }

  lemma {:induction false} GreedyOfSeparated(s: seq<Candidate>)
    requires Separated(s)
    ensures Greedy(s) == s
  {
    if |s| > 0 {
      SeparatedInit(s);
      GreedyOfSeparated(s[..|s| - 1]);
      GreedyStep(s);
    }
  }

  lemma DedupeIdempotent(candidates: seq<Candidate>)
    ensures Dedupe(Dedupe(candidates)) == Dedupe(candidates)
  {
    DedupeSound(candidates);
    SortOfSorted(Dedupe(candidates));
    GreedyOfSeparated(Dedupe(candidates));
  }

  /** A line is taken already by one of the three before it. */
  predicate Taken(kept: set<int>, x: int) {
    x - 1 in kept || x - 2 in kept || x - 3 in kept
  }

  /** The kept lines are the greedy choice: a line stays exactly when none of the three before it stays. */
  ghost predicate IsGreedyChoice(kept: set<int>, lines: set<int>) {
    kept <= lines && forall x {:trigger Taken(kept, x)} | x in lines :: x in kept <==> !Taken(kept, x)
  }

  lemma KeptIsGreedyChoice(s: seq<Candidate>, g: Group)
    requires IsSorted(s) && g.category != UNKNOWN
    ensures IsGreedyChoice(LinesOf(Greedy(s), g), LinesOf(s, g))
  {
    KeptLinesApart(s, g);
    KeptLinesAreLines(s, g);
    var kept := LinesOf(Greedy(s), g);
    forall x | x in LinesOf(s, g) ensures x in kept <==> !Taken(kept, x) {
      LineCovered(s, g, x);
      var k :| k in kept && k <= x <= k + WINDOW;
      assert k == x || k == x - 1 || k == x - 2 || k == x - 3;
    }
  }

  lemma {:induction false} GreedyChoicesAgree(a: set<int>, b: set<int>, lines: set<int>, low: int, x: int)
    requires IsGreedyChoice(a, lines) && IsGreedyChoice(b, lines)
    requires forall y | y in lines :: low <= y
    ensures x in a <==> x in b
    decreases if x < low then 0 else x - low + 1
  {
    if x in lines {
      GreedyChoicesAgree(a, b, lines, low, x - 1);
      GreedyChoicesAgree(a, b, lines, low, x - 2);
      GreedyChoicesAgree(a, b, lines, low, x - 3);
      assert Taken(a, x) <==> Taken(b, x);
    }
  }

  lemma {:induction false} HasLowerBound(lines: set<int>) returns (low: int)
    ensures forall y | y in lines :: low <= y
  {
    if lines == {} {
      low := 0;
    } else {
      EmptyOrNot(lines);
      var x :| x in lines;
      var rest := HasLowerBound(lines - {x});
      low := if x < rest then x else rest;
      assert forall y | y in lines :: y == x || y in lines - {x};
    }
  }

  /** Reordering the input changes neither the kept lines of any known group nor the unknown hits. */
  lemma DedupeIgnoresInputOrder(a: seq<Candidate>, b: seq<Candidate>, g: Group)
    requires multiset(a) == multiset(b)
    ensures g.category != UNKNOWN ==> LinesOf(Dedupe(a), g) == LinesOf(Dedupe(b), g)
    ensures forall c: Candidate | c.category == UNKNOWN :: c in Dedupe(a) <==> c in Dedupe(b)
  {
    SortKeepsLines(a, g);
    SortKeepsLines(b, g);
    SameElementsSameLines(a, b, g);
    if g.category != UNKNOWN {
      KeptIsGreedyChoice(StableSort(a), g);
      KeptIsGreedyChoice(StableSort(b), g);
      var lines := LinesOf(a, g);
      var low := HasLowerBound(lines);
      forall x ensures x in LinesOf(Dedupe(a), g) <==> x in LinesOf(Dedupe(b), g) {
        GreedyChoicesAgree(LinesOf(Dedupe(a), g), LinesOf(Dedupe(b), g), lines, low, x);
      }
    }
    DedupeSound(a);
    DedupeSound(b);
    forall c: Candidate | c.category == UNKNOWN ensures c in Dedupe(a) <==> c in Dedupe(b) {
      assert c in a <==> c in multiset(a);
      assert c in b <==> c in multiset(b);
    }
  }
}
