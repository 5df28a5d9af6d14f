/** What holds of tool events, queues and cells over every run of the reducer. */
module ToolRuns {
  import opened Prelude
  import opened AnalyticsTypes
  import opened ToolCorrelation
  import opened Reducer
  import opened ReducerMoves

  // ---- One move ----------------------------------------------------------------------

  function HandedBy(m: Move): seq<ToolEvent> {
    if m.Arrival? then [m.event] else []
  }

  function AnnouncedBy(m: Move): Announced {
    if m.Response? then {(m.key.0, m.responseId)} else {}
  }

  /** Only a completed response marks what it emits. */
  predicate MarkedBy(es: seq<ToolEvent>, m: Move, before: Announced) {
    if m.Response? then MarkedSound(es, m.key, m.responseId, before) else Unmarked(es)
  }

  lemma ApplyWithinCaps(c: Correlation, m: Move)
    requires WithinCaps(c)
    ensures WithinCaps(Apply(c, m).correlation)
  {
    match m
    case Arrival(key, e, emission) => RecordWithinCaps(c, key, e, emission);
    case CellStart(key, callId, cellId) => StartCellWithinCaps(c, key, callId, cellId);
    case ChildStart(key, callId, cellId) => StartChildWithinCaps(c, key, callId, cellId);
    case CellClose(key, cellId) => CloseCellWithinCaps(c, key, cellId);
    case Response(key, r, calls) => CompleteResponseWithinCaps(c, key, r, calls);
    case TurnEnd(key) => CompleteTurnWithinCaps(c, key);
    case ThreadEnd(_, _) =>
    case FlushEverything(_) =>
    case Stay =>
  }

  lemma CellMovesBalanced(c: Correlation, m: Move, key: TurnKey)
    requires Housed(c) && (m.CellStart? || m.ChildStart? || m.CellClose? || m.Stay?)
    ensures Balanced(c, [], Apply(c, m), key) && Housed(Apply(c, m).correlation)
  {
    assert PendingAt(Apply(c, m).correlation, key) == PendingAt(c, key);
  }

  lemma ApplyBalanced(c: Correlation, m: Move, key: TurnKey)
    requires Housed(c) && Admissible(c, m)
    ensures Balanced(c, HandedBy(m), Apply(c, m), key)
    ensures Housed(Apply(c, m).correlation)
  {
    match m
    case Arrival(home, e, emission) =>
      RecordBalanced(c, home, e, emission, key);
      RecordHoused(c, home, e, emission);
    case Response(home, r, calls) => CompleteResponseBalanced(c, home, r, calls, key);
    case TurnEnd(home) => CompleteTurnBalanced(c, home, key);
    case ThreadEnd(threadId, order) => CloseThreadBalanced(c, threadId, order, key);
    case FlushEverything(order) => FlushAllBalanced(c, order, key);
    case _ => CellMovesBalanced(c, m, key);
  }

  lemma ApplyOrigins(c: Correlation, m: Move, a: Announced)
    requires OriginsKnown(c, a) && Housed(c) && Admissible(c, m)
    ensures OriginsKnown(Apply(c, m).correlation, a + AnnouncedBy(m))
    ensures MarkedBy(Apply(c, m).out, m, a)
  {
    if !m.Response? { assert a + AnnouncedBy(m) == a; }
    match m
    case Arrival(key, e, emission) => RecordOrigins(c, key, e, emission, a);
    case CellStart(key, callId, cellId) => StartCellOrigins(c, key, callId, cellId, a);
    case ChildStart(key, callId, cellId) => StartChildOrigins(c, key, callId, cellId, a);
    case CellClose(key, cellId) => CloseCellOrigins(c, key, cellId, a);
    case Response(key, r, calls) => CompleteResponseOrigins(c, key, r, calls, a);
    case TurnEnd(key) => CompleteTurnOrigins(c, key, a);
    case ThreadEnd(threadId, order) => CloseThreadOrigins(c, threadId, order, a);
    case FlushEverything(order) => FlushAllOrigins(c, order, a);
    case Stay =>
  }

  // ---- Runs --------------------------------------------------------------------------

  predicate LegalRun(trace: seq<Label>) {
    LegalFrom(INITIAL, trace)
  }

  function Emitted(trace: seq<Label>): seq<Event> {
    EmittedFrom(INITIAL, trace)
  }

  function LastMove(trace: seq<Label>): Move
    requires |trace| > 0
  {
    MoveOf(Run(trace[..|trace| - 1]), trace[|trace| - 1])
  }

  /** The tool events handed to the correlation over a run. */
  function Handed(trace: seq<Label>): seq<ToolEvent> {
    if |trace| == 0 then [] else Handed(trace[..|trace| - 1]) + HandedBy(LastMove(trace))
  }

  /** The responses announced over a run, with their threads. */
  function AnnouncedIn(trace: seq<Label>): Announced {
    if |trace| == 0 then {} else AnnouncedIn(trace[..|trace| - 1]) + AnnouncedBy(LastMove(trace))
  }

  predicate Sound(c: Correlation, a: Announced) {
    WithinCaps(c) && Housed(c) && OriginsKnown(c, a)
  }

  lemma ApplySound(c: Correlation, m: Move, a: Announced)
    requires Sound(c, a) && Admissible(c, m)
    ensures Sound(Apply(c, m).correlation, a + AnnouncedBy(m))
  {
    ApplyWithinCaps(c, m);
    ApplyBalanced(c, m, ("", ""));
    ApplyOrigins(c, m, a);
  }

  /** The last step of a run, as a move of the correlation. */
  lemma LastStep(trace: seq<Label>)
    requires LegalRun(trace) && |trace| > 0
    ensures LegalRun(trace[..|trace| - 1])
    ensures ToolsFollow(Run(trace[..|trace| - 1]), LastMove(trace), Step(Run(trace[..|trace| - 1]), trace[|trace| - 1]))
    ensures Admissible(Run(trace[..|trace| - 1]).tools, LastMove(trace))
    ensures Run(trace) == Step(Run(trace[..|trace| - 1]), trace[|trace| - 1]).state
  {
    StepTools(Run(trace[..|trace| - 1]), trace[|trace| - 1]);
    StepAdmissible(Run(trace[..|trace| - 1]), trace[|trace| - 1]);
  }

  /**
    In every reachable state no queue, call map, child map or cell map exceeds 256
    entries, queues hold their own turn's events, unmarked, and every response id held
    anywhere was announced for its thread.
   */
  lemma {:induction false} RunSound(trace: seq<Label>)
    requires LegalRun(trace)
    ensures Sound(Run(trace).tools, AnnouncedIn(trace))
  {
    if |trace| > 0 {
      var init := trace[..|trace| - 1];
      LastStep(trace);
      RunSound(init);
      ApplySound(Run(init).tools, LastMove(trace), AnnouncedIn(init));
    }
  }

  lemma EmittedStep(trace: seq<Label>)
    requires LegalRun(trace) && |trace| > 0
    ensures ToolsOf(Emitted(trace))
            == ToolsOf(Emitted(trace[..|trace| - 1])) + Apply(Run(trace[..|trace| - 1]).tools, LastMove(trace)).out
  {
    LastStep(trace);
    ToolsOfConcat(Emitted(trace[..|trace| - 1]), Step(Run(trace[..|trace| - 1]), trace[|trace| - 1]).out);
  }

  /** Everything handed over is waiting or emitted. */
  predicate Accounted(handed: seq<ToolEvent>, c: Correlation, emitted: seq<ToolEvent>, key: TurnKey) {
    CoresAt(handed, key) == CoresAt(PendingAt(c, key), key) + CoresAt(emitted, key)
  }

  lemma AccountedExtends(handed: seq<ToolEvent>, c: Correlation, emitted: seq<ToolEvent>, more: seq<ToolEvent>,
                         r: ToolCorrelation.Result, key: TurnKey)
    requires Accounted(handed, c, emitted, key) && Balanced(c, more, r, key)
    ensures Accounted(handed + more, r.correlation, emitted + r.out, key)
  {
    CoresConcat(handed, more, key);
    CoresConcat(emitted, r.out, key);
    Regroup(CoresAt(PendingAt(c, key), key), CoresAt(emitted, key), CoresAt(more, key),
            CoresAt(PendingAt(r.correlation, key), key), CoresAt(r.out, key));
  }

  lemma Regroup<T>(waiting: multiset<T>, emitted: multiset<T>, more: multiset<T>, waiting': multiset<T>, out: multiset<T>)
    requires waiting + more == waiting' + out
    ensures waiting + emitted + more == waiting' + (emitted + out)
  {
    assert waiting + emitted + more == waiting + more + emitted;
  }

  /**
    Over every run, the tool events of a turn handed to the correlation are, links aside
    and with multiplicity, those waiting in its queue plus those emitted.
   */
  lemma {:induction false} ToolConservation(trace: seq<Label>, key: TurnKey)
    requires LegalRun(trace)
    ensures Accounted(Handed(trace), Run(trace).tools, ToolsOf(Emitted(trace)), key)
  {
    if |trace| > 0 {
      var init := trace[..|trace| - 1];
      var c, m := Run(init).tools, LastMove(trace);
      LastStep(trace);
      RunSound(init);
      ToolConservation(init, key);
      ApplyBalanced(c, m, key);
      EmittedStep(trace);
      AccountedExtends(Handed(init), c, ToolsOf(Emitted(init)), HandedBy(m), Apply(c, m), key);
    }
  }

  // ---- Origins of emitted events -------------------------------------------------------

  function MoveAt(trace: seq<Label>, n: nat): Move
    requires n < |trace|
  {
    MoveOf(Run(trace[..n]), trace[n])
  }

  lemma MoveAtInit(trace: seq<Label>, n: nat)
    requires n < |trace| - 1
    ensures MoveAt(trace[..|trace| - 1], n) == MoveAt(trace, n)
  {
    assert trace[..|trace| - 1][..n] == trace[..n];
  }

  predicate IsAnnouncement(m: Move, threadId: Id, r: Id) {
    m.Response? && m.key.0 == threadId && m.responseId == r
  }

  /** Step `n` is an accepted completed response `r` of the thread. */
  predicate Announces(trace: seq<Label>, n: nat, threadId: Id, r: Id)
    requires n < |trace|
  {
    IsAnnouncement(MoveAt(trace, n), threadId, r)
  }

  ghost predicate AnnouncedBefore(trace: seq<Label>, n: nat, threadId: Id, r: Id)
    requires n <= |trace|
  {
    exists k: nat | k < n :: Announces(trace, k, threadId, r)
  }

  lemma AnnouncedBeforeInit(trace: seq<Label>, n: nat, threadId: Id, r: Id)
    requires |trace| > 0 && n <= |trace| - 1
    ensures AnnouncedBefore(trace[..|trace| - 1], n, threadId, r) <==> AnnouncedBefore(trace, n, threadId, r)
  {
    var init := trace[..|trace| - 1];
    if k: nat :| k < n && Announces(init, k, threadId, r) {
      MoveAtInit(trace, k);
      assert Announces(trace, k, threadId, r);
    }
    if k: nat :| k < n && Announces(trace, k, threadId, r) {
      MoveAtInit(trace, k);
      assert Announces(init, k, threadId, r);
    }
  }

  lemma AnnouncedBeforeNext(trace: seq<Label>, n: nat, threadId: Id, r: Id)
    requires n < |trace|
    ensures AnnouncedBefore(trace, n + 1, threadId, r)
            <==> AnnouncedBefore(trace, n, threadId, r) || Announces(trace, n, threadId, r)
  {
  }

  /** An announcement is an accepted completed response of that thread somewhere in the run. */
  lemma {:induction false} AnnouncedIff(trace: seq<Label>, threadId: Id, r: Id)
    ensures (threadId, r) in AnnouncedIn(trace) <==> AnnouncedBefore(trace, |trace|, threadId, r)
  {
    if |trace| > 0 {
      var last := |trace| - 1;
      AnnouncedIff(trace[..last], threadId, r);
      AnnouncedBeforeInit(trace, last, threadId, r);
      assert Announces(trace, last, threadId, r) <==> (threadId, r) in AnnouncedBy(LastMove(trace));
      AnnouncedBeforeNext(trace, last, threadId, r);
    }
  }

  /** Step `n` is the completed response `r` of the event's turn, and an earlier one of its thread is its origin. */
  ghost predicate ReleasedAt(trace: seq<Label>, n: nat, e: ToolEvent)
    requires n < |trace|
  {
    && IsReleaseOf(MoveAt(trace, n), e)
    && AnnouncedBefore(trace, n, e.threadId, e.link.originating.value)
  }

  predicate IsReleaseOf(m: Move, e: ToolEvent) {
    && m.Response? && m.key == KeyOf(e) && e.link.subsequent == Some(m.responseId)
    && e.link.originating.Some? && e.link.originating.value != m.responseId
  }

  lemma MarkedIsReleased(es: seq<ToolEvent>, m: Move, a: Announced, e: ToolEvent)
    requires MarkedBy(es, m, a) && e in es && e.link.subsequent.Some?
    ensures IsReleaseOf(m, e) && (e.threadId, e.link.originating.value) in a
  {
  }

  lemma StepReleases(trace: seq<Label>, e: ToolEvent)
    requires LegalRun(trace) && |trace| > 0
    requires e in Apply(Run(trace[..|trace| - 1]).tools, LastMove(trace)).out && e.link.subsequent.Some?
    ensures ReleasedAt(trace, |trace| - 1, e)
  {
    var init := trace[..|trace| - 1];
    LastStep(trace);
    RunSound(init);
    ApplyOrigins(Run(init).tools, LastMove(trace), AnnouncedIn(init));
    MarkedIsReleased(Apply(Run(init).tools, LastMove(trace)).out, LastMove(trace), AnnouncedIn(init), e);
    AnnouncedIff(init, e.threadId, e.link.originating.value);
    AnnouncedBeforeInit(trace, |trace| - 1, e.threadId, e.link.originating.value);
  }

  /**
    Over every run, each emitted tool event that names a subsequent response was released
    by that response's completion in its own turn, and its origin is a different response
    that completed strictly earlier in the same thread.
   */
  lemma {:induction false} SubsequentFollowsOrigin(trace: seq<Label>, e: ToolEvent)
    requires LegalRun(trace)
    requires e in ToolsOf(Emitted(trace)) && e.link.subsequent.Some?
    ensures exists n: nat | n < |trace| :: ReleasedAt(trace, n, e)
  {
    if |trace| > 0 {
      var init := trace[..|trace| - 1];
      EmittedStep(trace);
      if e in Apply(Run(init).tools, LastMove(trace)).out {
        StepReleases(trace, e);
      } else {
        SubsequentFollowsOrigin(init, e);
        var n: nat :| n < |init| && ReleasedAt(init, n, e);
        MoveAtInit(trace, n);
        AnnouncedBeforeInit(trace, n, e.threadId, e.link.originating.value);
        assert ReleasedAt(trace, n, e);
      }
    }
  }

  // ---- Lifetime of cells -----------------------------------------------------------------

  /** A move drops a cell exactly when it ends the cell's thread or the turn that closed it. */
  lemma CellDroppedIff(c: Correlation, m: Move, threadId: Id, id: Id)
    requires id in CellsAt(c, threadId)
    ensures id !in CellsAt(Apply(c, m).correlation, threadId)
            <==> (|| (m.ThreadEnd? && m.threadId == threadId)
                  || (m.TurnEnd? && m.key.0 == threadId && CellsAt(c, threadId)[id].closedIn == Some(m.key.1)))
  {
  }

  /** A cell counts as closed in a turn only through a close in that turn. */
  lemma CellClosedBy(c: Correlation, m: Move, threadId: Id, id: Id, turnId: Id)
    requires id in CellsAt(Apply(c, m).correlation, threadId)
    requires CellsAt(Apply(c, m).correlation, threadId)[id].closedIn == Some(turnId)
    ensures m == CellClose((threadId, turnId), id)
         || (id in CellsAt(c, threadId) && CellsAt(c, threadId)[id].closedIn == Some(turnId))
  {
  }

  ghost predicate ClosedEarlier(trace: seq<Label>, threadId: Id, id: Id, turnId: Id) {
    exists n: nat | n < |trace| :: MoveAt(trace, n) == CellClose((threadId, turnId), id)
  }

  lemma {:induction false} ClosedCellsWereClosed(trace: seq<Label>, threadId: Id, id: Id, turnId: Id)
    requires LegalRun(trace)
    requires id in CellsAt(Run(trace).tools, threadId) && CellsAt(Run(trace).tools, threadId)[id].closedIn == Some(turnId)
    ensures ClosedEarlier(trace, threadId, id, turnId)
  {
    if |trace| > 0 {
      var init := trace[..|trace| - 1];
      LastStep(trace);
      CellClosedBy(Run(init).tools, LastMove(trace), threadId, id, turnId);
      if LastMove(trace) != CellClose((threadId, turnId), id) {
        ClosedCellsWereClosed(init, threadId, id, turnId);
        var n: nat :| n < |init| && MoveAt(init, n) == CellClose((threadId, turnId), id);
        MoveAtInit(trace, n);
      } else {
        assert MoveAt(trace, |trace| - 1) == LastMove(trace);
      }
    }
  }

  lemma EndingFacts(s: State, l: Label)
    ensures MoveOf(s, l).ThreadEnd? ==> l.Take? && l.fact == ThreadClosed(MoveOf(s, l).threadId)
    ensures MoveOf(s, l).TurnEnd? ==>
              l.Take? && l.fact.TurnCompleted? && MoveOf(s, l).key == (l.fact.threadId, l.fact.turnId)
  {
    if l.Flush? {
    } else if l.fact.CodeMode? {
    } else if l.fact.ItemCompleted? {
    } else if l.fact.TurnCompleted? {
    } else if l.fact.ThreadClosed? {
    } else {
    }
  }

  /** Over every run a cell disappears only as its thread closes, or as a turn in which it was closed completes. */
  lemma CellsOutliveTurns(trace: seq<Label>, threadId: Id, id: Id)
    requires LegalRun(trace) && |trace| > 0
    requires id in CellsAt(Run(trace[..|trace| - 1]).tools, threadId) && id !in CellsAt(Run(trace).tools, threadId)
    ensures trace[|trace| - 1].Take?
    ensures var f := trace[|trace| - 1].fact;
            || f == ThreadClosed(threadId)
            || (f.TurnCompleted? && f.threadId == threadId && ClosedEarlier(trace[..|trace| - 1], threadId, id, f.turnId))
  {
    var init := trace[..|trace| - 1];
    LastStep(trace);
    CellDroppedIff(Run(init).tools, LastMove(trace), threadId, id);
    EndingFacts(Run(init), trace[|trace| - 1]);
    if LastMove(trace).TurnEnd? {
      ClosedCellsWereClosed(init, threadId, id, LastMove(trace).key.1);
    }
  }
}
