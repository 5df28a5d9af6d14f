/** A legal run after which a cell's origin depends on whether its start or a response arrives first. */
module CellOrder {
  import opened Prelude
  import opened AnalyticsTypes
  import opened ToolCorrelation
  import opened Reducer
  import opened ReducerMoves
  import opened TurnRuns

  function Announcing(x: Example, r: Id, call: Id): Label {
    Take(CodeMode(ResponseCompleted(x.threadId, x.turnId, r, [call])), [])
  }

  function Starting(x: Example, call: Id, cell: Id): Label {
    Take(CodeMode(CellStarted(x.threadId, x.turnId, call, cell)), [])
  }

  /** The thread is known, and its turn ties the call to response `r`. */
  function ClaimedRun(x: Example, r: Id, call: Id): seq<Label> {
    ThreadSetUp(x) + [Announcing(x, r, call)]
  }

  predicate Knows(s: State, x: Example) {
    ThreadContext(s, x.threadId).Found?
  }

  lemma KnownStep(trace: seq<Label>, l: Label, x: Example)
    requires LegalFrom(INITIAL, trace) && Knows(Run(trace), x) && l.Take? && l.fact.CodeMode? && l.order == []
    ensures LegalFrom(INITIAL, trace + [l]) && Knows(Run(trace + [l]), x)
    ensures Run(trace + [l]).tools == Apply(Run(trace).tools, MoveOf(Run(trace), l)).correlation
  {
    EnumeratesNone();
    RunSnoc(trace, l);
    StepTools(Run(trace), l);
    ContextKept(Run(trace), l.fact, l.order);
    SameThreadKnown(Run(trace), Step(Run(trace), l), x);
  }

  lemma SameThreadKnown(s: State, o: Outcome, x: Example)
    requires SameContext(s, o) && Knows(s, x)
    ensures Knows(o.state, x)
  {
  }

  lemma ResponseStep(trace: seq<Label>, x: Example, r: Id, call: Id)
    requires LegalFrom(INITIAL, trace) && Knows(Run(trace), x)
    ensures var l := Announcing(x, r, call);
            && LegalFrom(INITIAL, trace + [l]) && Knows(Run(trace + [l]), x)
            && Run(trace + [l]).tools == CompleteResponse(Run(trace).tools, (x.threadId, x.turnId), r, [call]).correlation
  {
    KnownStep(trace, Announcing(x, r, call), x);
    assert MoveOf(Run(trace), Announcing(x, r, call)) == Response((x.threadId, x.turnId), r, [call]);
  }

  lemma StartStep(trace: seq<Label>, x: Example, call: Id, cell: Id)
    requires LegalFrom(INITIAL, trace) && Knows(Run(trace), x)
    ensures var l := Starting(x, call, cell);
            && LegalFrom(INITIAL, trace + [l]) && Knows(Run(trace + [l]), x)
            && Run(trace + [l]).tools == StartCell(Run(trace).tools, (x.threadId, x.turnId), call, cell)
  {
    KnownStep(trace, Starting(x, call, cell), x);
    assert MoveOf(Run(trace), Starting(x, call, cell)) == CellStart((x.threadId, x.turnId), call, cell);
  }

  lemma ClaimedRunClaims(x: Example, r: Id, call: Id)
    ensures LegalFrom(INITIAL, ClaimedRun(x, r, call)) && Knows(Run(ClaimedRun(x, r, call)), x)
    ensures var c := Run(ClaimedRun(x, r, call)).tools;
            && c.cells == map[]
            && ResponsesAt(c, (x.threadId, x.turnId)).responseIds == map[call := r]
  {
    SetUpReaches(x);
    var c, key := Run(ThreadSetUp(x)).tools, (x.threadId, x.turnId);
    ResponseStep(ThreadSetUp(x), x, r, call);
    ClaimIs(c, key, r, call);
  }

  lemma ClaimIs(c: Correlation, key: TurnKey, r: Id, call: Id)
    requires c == Correlation(map[], map[])
    ensures var c' := CompleteResponse(c, key, r, [call]).correlation;
            c'.cells == map[] && ResponsesAt(c', key).responseIds == map[call := r]
  {
    assert [call][..0] == [];
    assert BindCalls(map[], [call], r) == map[call := r];
  }

  /** What the two orders give, from a state in which the call is tied to `r1`. */
  lemma OrdersDiffer(c: Correlation, key: TurnKey, call: Id, cell: Id, r1: Id, r2: Id)
    requires r1 != r2 && c.cells == map[] && ResponsesAt(c, key).responseIds == map[call := r1]
    ensures CellFirst(c, key, call, cell, r2, [call]) != ResponseFirst(c, key, call, cell, r2, [call])
  {
    CellAndResponseCommuteIff(c, key, call, cell, r2, [call]);
  }

  lemma StartThenResponse(run: seq<Label>, x: Example, call: Id, cell: Id, r: Id)
    requires LegalFrom(INITIAL, run) && Knows(Run(run), x)
    ensures var longer := run + [Starting(x, call, cell)] + [Announcing(x, r, call)];
            && LegalFrom(INITIAL, longer)
            && CellsAt(Run(longer).tools, x.threadId)
               == CellFirst(Run(run).tools, (x.threadId, x.turnId), call, cell, r, [call])
  {
    StartStep(run, x, call, cell);
    ResponseStep(run + [Starting(x, call, cell)], x, r, call);
  }

  lemma ResponseThenStart(run: seq<Label>, x: Example, call: Id, cell: Id, r: Id)
    requires LegalFrom(INITIAL, run) && Knows(Run(run), x)
    ensures var longer := run + [Announcing(x, r, call)] + [Starting(x, call, cell)];
            && LegalFrom(INITIAL, longer)
            && CellsAt(Run(longer).tools, x.threadId)
               == ResponseFirst(Run(run).tools, (x.threadId, x.turnId), call, cell, r, [call])
  {
    ResponseStep(run, x, r, call);
    StartStep(run + [Announcing(x, r, call)], x, call, cell);
  }

  /**
    After a legal run that ties a call to one response, a second response claiming the same
    call and the start of the call's cell do not commute: both continuations are legal, and
    the cells they leave differ.
   */
  lemma ArrivalOrderMatters(x: Example, call: Id, cell: Id, r1: Id, r2: Id)
    requires r1 != r2
    ensures var run, response, start := ClaimedRun(x, r1, call), Announcing(x, r2, call), Starting(x, call, cell);
            && LegalFrom(INITIAL, run + [start] + [response])
            && LegalFrom(INITIAL, run + [response] + [start])
            && CellsAt(Run(run + [start] + [response]).tools, x.threadId)
               != CellsAt(Run(run + [response] + [start]).tools, x.threadId)
  {
    ClaimedRunClaims(x, r1, call);
    OrdersDiffer(Run(ClaimedRun(x, r1, call)).tools, (x.threadId, x.turnId), call, cell, r1, r2);
    StartThenResponse(ClaimedRun(x, r1, call), x, call, cell, r2);
    ResponseThenStart(ClaimedRun(x, r1, call), x, call, cell, r2);
  }
}
