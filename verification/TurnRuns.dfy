/** Turn events over every run: how many there are, when they come, and what they report. */
module TurnRuns {
  import opened Prelude
  import opened AnalyticsTypes
  import ToolCorrelation
  import opened Reducer
  import opened ReducerMoves
  import opened ContextRuns

  // ---- Parts of a turn event -----------------------------------------------------------

  datatype Part = Config | Profile | Completion

  predicate Held(turn: Turn, part: Part) {
    match part
    case Config => turn.config.Some?
    case Profile => turn.profile.Some?
    case Completion => turn.completed.Some?
  }

  predicate Supplies(l: Label, part: Part, turnId: Id) {
    && l.Take?
    && match part
       case Config => l.fact.TurnResolvedConfig? && l.fact.turnId == turnId
       case Profile => l.fact.TurnProfile? && l.fact.turnId == turnId
       case Completion => l.fact.TurnCompleted? && l.fact.turnId == turnId
  }

  /** How many facts of the run supply the part. */
  function Supplied(trace: seq<Label>, part: Part, turnId: Id): nat {
    if |trace| == 0 then 0
    else Supplied(trace[..|trace| - 1], part, turnId) + if Supplies(trace[|trace| - 1], part, turnId) then 1 else 0
  }

  /** How many turn events for the turn are among `es`. */
  function Reported(es: seq<Event>, turnId: Id): nat {
    if |es| == 0 then 0
    else Reported(es[..|es| - 1], turnId) + if es[|es| - 1].TurnDone? && es[|es| - 1].turnId == turnId then 1 else 0
  }

  lemma {:induction false} ReportedConcat(a: seq<Event>, b: seq<Event>, turnId: Id)
    ensures Reported(a + b, turnId) == Reported(a, turnId) + Reported(b, turnId)
  {
    if |b| == 0 {
      assert a + b == a;
    } else {
      ReportedConcat(a, b[..|b| - 1], turnId);
      assert (a + b)[..|a + b| - 1] == a + b[..|b| - 1];
    }
  }

  lemma {:induction false} ReportedAmongTurns(es: seq<Event>, turnId: Id)
    ensures Reported(es, turnId) == Reported(TurnsOf(es), turnId)
  {
    if |es| > 0 {
      var init := es[..|es| - 1];
      ReportedAmongTurns(init, turnId);
      if es[|es| - 1].TurnDone? {
        assert TurnsOf(es)[..|TurnsOf(es)| - 1] == TurnsOf(init);
      }
    }
  }

  // ---- One step --------------------------------------------------------------------------

  predicate ReportsTurn(s: State, l: Label, turnId: Id) {
    Reports(s, WriteBy(s, l)) && WriteBy(s, l).turnId == turnId
  }

  /** The turn's state after the step's write, before any report removes it. */
  function TurnAfterWrite(s: State, w: TurnWrite, turnId: Id): Turn {
    if w.Write? && w.turnId == turnId then w.turn else TurnAt(s, turnId)
  }

  /** What a step does to one turn. */
  predicate TurnFollows(s: State, l: Label, o: Outcome, turnId: Id) {
    if ReportsTurn(s, l, turnId) then turnId !in o.state.turns && Reported(o.out, turnId) == 1
    else TurnAt(o.state, turnId) == TurnAfterWrite(s, WriteBy(s, l), turnId) && Reported(o.out, turnId) == 0
  }

  lemma StepTurn(s: State, l: Label, turnId: Id)
    ensures TurnFollows(s, l, Step(s, l), turnId)
  {
    StepTurns(s, l);
    WrittenTurn(s, l, Step(s, l), turnId);
  }

  lemma WrittenTurn(s: State, l: Label, o: Outcome, turnId: Id)
    requires TurnsFollow(s, WriteBy(s, l), o)
    ensures TurnFollows(s, l, o, turnId)
  {
    var w := WriteBy(s, l);
    ReportedAmongTurns(o.out, turnId);
    if Reports(s, w) {
      var e := TurnDone(w.turnId, w.turn, TurnContext(s, w.turn).context);
      assert ReportOf(s, w) == [e] && [e][..0] == [];
    }
  }

  /** A part is held after a write only if it was held before or the step supplies it; supplying is an attempt to report. */
  lemma WriteHolds(s: State, l: Label, part: Part, turnId: Id)
    ensures Held(TurnAfterWrite(s, WriteBy(s, l), turnId), part)
            <==> Held(TurnAt(s, turnId), part) || Supplies(l, part, turnId)
    ensures Supplies(l, part, turnId) ==> Attempts(WriteBy(s, l)) && WriteBy(s, l).turnId == turnId
  {
    if l.Flush? {
    } else if IsTurnFact(l.fact) {
    } else if l.fact.TurnStartResponse? {
    } else if l.fact.TurnSteerResponse? {
    } else if l.fact.InterruptResponse? {
    } else if l.fact.ItemCompleted? {
    } else if l.fact.CodeMode? {
    } else if l.fact.TurnCompleted? {
    } else {
    }
  }

  lemma StepPart(s: State, l: Label, part: Part, turnId: Id)
    ensures Reported(Step(s, l).out, turnId) + Bit(Held(TurnAt(Step(s, l).state, turnId), part))
            <= Bit(Held(TurnAt(s, turnId), part)) + Bit(Supplies(l, part, turnId))
  {
    StepTurn(s, l, turnId);
    WriteHolds(s, l, part, turnId);
  }

  // ---- Never more turn events than parts --------------------------------------------------

  lemma {:induction false} HeldAndReported(s: State, trace: seq<Label>, part: Part, turnId: Id)
    ensures Reported(EmittedFrom(s, trace), turnId) + Bit(Held(TurnAt(RunFrom(s, trace), turnId), part))
            <= Bit(Held(TurnAt(s, turnId), part)) + Supplied(trace, part, turnId)
  {
    if |trace| > 0 {
      var init := trace[..|trace| - 1];
      HeldAndReported(s, init, part, turnId);
      StepPart(RunFrom(s, init), trace[|trace| - 1], part, turnId);
      ReportedConcat(EmittedFrom(s, init), Step(RunFrom(s, init), trace[|trace| - 1]).out, turnId);
    }
  }

  /** Over every run, a turn has at most as many turn events as configurations, profiles and completions. */
  lemma AtMostOnePerPart(trace: seq<Label>, part: Part, turnId: Id)
    ensures Reported(EmittedFrom(INITIAL, trace), turnId) <= Supplied(trace, part, turnId)
  {
    HeldAndReported(INITIAL, trace, part, turnId);
  }

  // ---- When a turn is reported ---------------------------------------------------------------

  /** The turn belongs to the thread as far as it is known. */
  predicate TurnFits(turn: Turn, threadId: Id) {
    && (turn.threadId.Some? ==> turn.threadId.value == threadId)
    && (turn.config.Some? ==> turn.threadId.Some? && turn.images.Some?)
  }

  /** The connection stored on the turn, if there is one, is known. */
  predicate Connected(s: State, turn: Turn) {
    turn.connectionId.Some? ==> turn.connectionId.value in s.connections
  }

  predicate OnTrack(s: State, turnId: Id, threadId: Id) {
    ConnectionsKnown(s) && ThreadContext(s, threadId).Found? && TurnFits(TurnAt(s, turnId), threadId)
  }

  /** A step that names a thread for the turn names this one. */
  predicate Fits(s: State, l: Label, turnId: Id, threadId: Id) {
    l.Take? ==>
      var f := l.fact;
      match f
      case TurnResolvedConfig(id, t, _, _) => id == turnId ==> t == threadId
      case TurnTokenUsage(id, t, _) => id == turnId ==> t == threadId
      case TurnDiffUpdated(t, id, _) => id == turnId ==> t == threadId
      case TurnCodexError(id, t, _) => id == turnId ==> t == threadId
      case TurnStartResponse(c, r, id) =>
        id == turnId && (c, r) in s.requests && s.requests[(c, r)].TurnStartRequest? ==>
          s.requests[(c, r)].threadId == threadId
      case _ => true
  }

  predicate AllFit(s: State, trace: seq<Label>, turnId: Id, threadId: Id) {
    |trace| == 0 ||
    (AllFit(s, trace[..|trace| - 1], turnId, threadId)
     && Fits(RunFrom(s, trace[..|trace| - 1]), trace[|trace| - 1], turnId, threadId))
  }

  predicate AllHeld(turn: Turn) {
    Held(turn, Config) && Held(turn, Profile) && Held(turn, Completion)
  }

  predicate NoneHeld(turn: Turn) {
    !Held(turn, Config) && !Held(turn, Profile) && !Held(turn, Completion)
  }

  /** The step tries to report the turn, and the connection then stored on it, if any, is known. */
  predicate Finds(s: State, l: Label, turnId: Id) {
    var w := WriteBy(s, l);
    Attempts(w) && w.turnId == turnId && Connected(s, w.turn)
  }

  lemma TurnFactFits(s: State, f: Fact, turnId: Id, threadId: Id)
    requires IsTurnFact(f) && f.turnId == turnId
    requires TurnFits(TurnAt(s, turnId), threadId) && Fits(s, Take(f, []), turnId, threadId)
    ensures TurnFits(UpdatedTurn(TurnAt(s, turnId), f), threadId)
  {
    match f
    case TurnStarted(_, _) =>
    case TurnDiffUpdated(_, _, _) =>
    case TurnResolvedConfig(_, _, _, _) =>
    case TurnTokenUsage(_, _, _) =>
    case TurnProfile(_, _) =>
    case TurnCodexError(_, _, _) =>
    case ImagePreparation(_, _) =>
  }

  lemma WriteFits(s: State, l: Label, turnId: Id, threadId: Id)
    requires TurnFits(TurnAt(s, turnId), threadId) && Fits(s, l, turnId, threadId)
    ensures TurnFits(TurnAfterWrite(s, WriteBy(s, l), turnId), threadId)
  {
    if l.Flush? {
    } else if IsTurnFact(l.fact) {
      if l.fact.turnId == turnId { TurnFactFits(s, l.fact, turnId, threadId); }
    } else if l.fact.TurnStartResponse? {
    } else if l.fact.TurnSteerResponse? {
    } else if l.fact.InterruptResponse? {
    } else if l.fact.ItemCompleted? {
    } else if l.fact.CodeMode? {
    } else if l.fact.TurnCompleted? {
    } else {
    }
  }

  lemma FittingTurnReports(s: State, turn: Turn, threadId: Id)
    requires ThreadContext(s, threadId).Found? && TurnFits(turn, threadId)
    ensures IsComplete(turn) && TurnContext(s, turn).Found? <==> AllHeld(turn) && Connected(s, turn)
  {
  }

  lemma StepOnTrack(s: State, l: Label, turnId: Id, threadId: Id)
    requires OnTrack(s, turnId, threadId) && Fits(s, l, turnId, threadId)
    ensures OnTrack(Step(s, l).state, turnId, threadId)
  {
    StepGrows(s, l);
    StepTurn(s, l, turnId);
    WriteFits(s, l, turnId, threadId);
    OnTrackAfter(s, l, Step(s, l), turnId, threadId);
  }

  lemma OnTrackAfter(s: State, l: Label, o: Outcome, turnId: Id, threadId: Id)
    requires OnTrack(s, turnId, threadId) && GrowsSoundly(s, o) && TurnFollows(s, l, o, turnId)
    requires TurnFits(TurnAfterWrite(s, WriteBy(s, l), turnId), threadId)
    ensures OnTrack(o.state, turnId, threadId)
  {
    FoundStays(s, o.state, threadId);
  }

  /** A step reports the turn exactly if all parts are in after its write and it finds the turn's context. */
  lemma ReportsIffFinds(s: State, l: Label, turnId: Id, threadId: Id)
    requires OnTrack(s, turnId, threadId) && Fits(s, l, turnId, threadId)
    ensures ReportsTurn(s, l, turnId) <==> AllHeld(TurnAfterWrite(s, WriteBy(s, l), turnId)) && Finds(s, l, turnId)
  {
    WriteFits(s, l, turnId, threadId);
    FittingTurnReports(s, TurnAfterWrite(s, WriteBy(s, l), turnId), threadId);
  }

  function Least(a: nat, b: nat, c: nat): nat {
    if a <= b && a <= c then a else if b <= c then b else c
  }

  /** The turn events due once the parts have arrived as often as `trace` supplies them. */
  function Due(trace: seq<Label>, turnId: Id): nat {
    Least(Supplied(trace, Config, turnId), Supplied(trace, Profile, turnId), Supplied(trace, Completion, turnId))
  }

  predicate AtMostOnce(trace: seq<Label>, turnId: Id) {
    Supplied(trace, Config, turnId) <= 1 && Supplied(trace, Profile, turnId) <= 1 && Supplied(trace, Completion, turnId) <= 1
  }

  /** Step `m` comes when all parts are in, and finds the turn's context. */
  predicate FindsAt(s: State, trace: seq<Label>, m: nat, turnId: Id)
    requires m < |trace|
  {
    Due(trace[..m + 1], turnId) == 1 && Finds(RunFrom(s, trace[..m]), trace[m], turnId)
  }

  ghost predicate EverFinds(s: State, trace: seq<Label>, turnId: Id) {
    exists m: nat | m < |trace| :: FindsAt(s, trace, m, turnId)
  }

  lemma FindsAtInit(s: State, trace: seq<Label>, m: nat, turnId: Id)
    requires m < |trace| - 1
    ensures FindsAt(s, trace[..|trace| - 1], m, turnId) == FindsAt(s, trace, m, turnId)
  {
    var init := trace[..|trace| - 1];
    assert init[..m] == trace[..m] && init[..m + 1] == trace[..m + 1];
  }

  lemma EverFindsSnoc(s: State, trace: seq<Label>, turnId: Id)
    requires |trace| > 0
    ensures EverFinds(s, trace, turnId) <==>
              EverFinds(s, trace[..|trace| - 1], turnId) || FindsAt(s, trace, |trace| - 1, turnId)
  {
    var init := trace[..|trace| - 1];
    if m: nat :| m < |init| && FindsAt(s, init, m, turnId) {
      FindsAtInit(s, trace, m, turnId);
    }
    if m: nat :| m < |trace| && FindsAt(s, trace, m, turnId) {
      if m < |init| { FindsAtInit(s, trace, m, turnId); }
    }
  }

  /** The turn holds exactly the parts supplied beyond the turn events reported. */
  predicate Assembled(s: State, reported: nat, trace: seq<Label>, turnId: Id) {
    && reported <= Due(trace, turnId)
    && (Held(TurnAt(s, turnId), Config) <==> Supplied(trace, Config, turnId) > reported)
    && (Held(TurnAt(s, turnId), Profile) <==> Supplied(trace, Profile, turnId) > reported)
    && (Held(TurnAt(s, turnId), Completion) <==> Supplied(trace, Completion, turnId) > reported)
  }

  /** What a step did with the parts, and when it reported. */
  predicate Assembles(s: State, l: Label, o: Outcome, turnId: Id) {
    && TurnFollows(s, l, o, turnId)
    && (ReportsTurn(s, l, turnId) <==> AllHeld(TurnAfterWrite(s, WriteBy(s, l), turnId)) && Finds(s, l, turnId))
    && (forall part :: Held(TurnAfterWrite(s, WriteBy(s, l), turnId), part)
                       <==> Held(TurnAt(s, turnId), part) || Supplies(l, part, turnId))
  }

  lemma StepAssembles(s: State, l: Label, turnId: Id, threadId: Id)
    requires OnTrack(s, turnId, threadId) && Fits(s, l, turnId, threadId)
    ensures Assembles(s, l, Step(s, l), turnId)
  {
    StepTurn(s, l, turnId);
    ReportsIffFinds(s, l, turnId, threadId);
    forall part ensures Held(TurnAfterWrite(s, WriteBy(s, l), turnId), part)
                        <==> Held(TurnAt(s, turnId), part) || Supplies(l, part, turnId)
    {
      WriteHolds(s, l, part, turnId);
    }
  }

  lemma AssembledAfter(s: State, reported: nat, trace: seq<Label>, o: Outcome, turnId: Id)
    requires |trace| > 0 && AtMostOnce(trace, turnId) && Assembled(s, reported, trace[..|trace| - 1], turnId)
    requires Assembles(s, trace[|trace| - 1], o, turnId)
    ensures Assembled(o.state, reported + Reported(o.out, turnId), trace, turnId)
    ensures Reported(o.out, turnId) == Bit(reported == 0 && Due(trace, turnId) == 1 && Finds(s, trace[|trace| - 1], turnId))
  {
  }

  /**
    From a state that knows the thread and no part of the turn, along any run whose steps fit
    the turn and supply no part twice: the turn is reported at most once, and it is reported
    if and only if some step, once all three parts are in, tries to report it at a time when
    the connection stored on it, if any, is known.
   */
  lemma {:induction false} ReportedIffFound(s: State, trace: seq<Label>, turnId: Id, threadId: Id)
    requires OnTrack(s, turnId, threadId) && NoneHeld(TurnAt(s, turnId))
    requires AllFit(s, trace, turnId, threadId) && AtMostOnce(trace, turnId)
    ensures OnTrack(RunFrom(s, trace), turnId, threadId)
    ensures Assembled(RunFrom(s, trace), Reported(EmittedFrom(s, trace), turnId), trace, turnId)
    ensures Reported(EmittedFrom(s, trace), turnId) == Bit(EverFinds(s, trace, turnId))
  {
    if |trace| > 0 {
      var init, l := trace[..|trace| - 1], trace[|trace| - 1];
      var before := RunFrom(s, init);
      ReportedIffFound(s, init, turnId, threadId);
      StepOnTrack(before, l, turnId, threadId);
      StepAssembles(before, l, turnId, threadId);
      ReportedConcat(EmittedFrom(s, init), Step(before, l).out, turnId);
      AssembledAfter(before, Reported(EmittedFrom(s, init), turnId), trace, Step(before, l), turnId);
      EverFindsSnoc(s, trace, turnId);
      assert trace[..|trace| - 1 + 1] == trace;
    }
  }

  lemma {:induction false} FitsEarlier(s: State, trace: seq<Label>, n: nat, turnId: Id, threadId: Id)
    requires n <= |trace| && AllFit(s, trace, turnId, threadId) && AtMostOnce(trace, turnId)
    ensures AllFit(s, trace[..n], turnId, threadId) && AtMostOnce(trace[..n], turnId)
  {
    if n < |trace| {
      FitsEarlier(s, trace[..|trace| - 1], n, turnId, threadId);
      assert trace[..|trace| - 1][..n] == trace[..n];
    } else {
      assert trace[..n] == trace;
    }
  }

  /** The step that makes the third part complete supplies it, and so tries to report the turn. */
  lemma LastPartAttempts(s: State, trace: seq<Label>, turnId: Id)
    requires |trace| > 0 && Due(trace[..|trace| - 1], turnId) == 0 && Due(trace, turnId) == 1
    ensures Attempts(WriteBy(s, trace[|trace| - 1])) && WriteBy(s, trace[|trace| - 1]).turnId == turnId
  {
    var l := trace[|trace| - 1];
    WriteHolds(s, l, Config, turnId);
    WriteHolds(s, l, Profile, turnId);
    WriteHolds(s, l, Completion, turnId);
  }

  /**
    Step `n` brings the last of the three parts, in whatever order they came and with
    whatever fits in between. It reports the turn if and only if the connection then stored
    on the turn, if any, is known; in that case the turn is reported neither before nor again.
   */
  lemma ReportedOnTheLastPart(s: State, trace: seq<Label>, n: nat, turnId: Id, threadId: Id)
    requires OnTrack(s, turnId, threadId) && NoneHeld(TurnAt(s, turnId))
    requires AllFit(s, trace, turnId, threadId) && AtMostOnce(trace, turnId)
    requires n < |trace| && Due(trace[..n], turnId) == 0 && Due(trace[..n + 1], turnId) == 1
    ensures Reported(EmittedFrom(s, trace[..n]), turnId) == 0
    ensures ReportsTurn(RunFrom(s, trace[..n]), trace[n], turnId)
            <==> Connected(RunFrom(s, trace[..n]), TurnAfterWrite(RunFrom(s, trace[..n]), WriteBy(RunFrom(s, trace[..n]), trace[n]), turnId))
    ensures ReportsTurn(RunFrom(s, trace[..n]), trace[n], turnId) ==> Reported(EmittedFrom(s, trace), turnId) == 1
  {
    var before, upTo := trace[..n], trace[..n + 1];
    assert upTo[..n] == before && upTo[n] == trace[n];
    FitsEarlier(s, trace, n, turnId, threadId);
    FitsEarlier(s, trace, n + 1, turnId, threadId);
    ReportedIffFound(s, before, turnId, threadId);
    LastPartAttempts(RunFrom(s, before), upTo, turnId);
    StepAssembles(RunFrom(s, before), trace[n], turnId, threadId);
    AssembledAfter(RunFrom(s, before), 0, upTo, Step(RunFrom(s, before), trace[n]), turnId);
    if ReportsTurn(RunFrom(s, before), trace[n], turnId) {
      assert FindsAt(s, trace, n, turnId);
      ReportedIffFound(s, trace, turnId, threadId);
    }
  }

  // ---- A finished turn that is never reported -----------------------------------------------

  /** One thread on a known connection, and a turn of it started over another that never initialized. */
  datatype Example = Example(known: nat, unknown: nat, requestId: Id, threadId: Id, turnId: Id,
                             connection: Connection, metadata: ThreadMetadata)

  function ThreadSetUp(x: Example): seq<Label> {
    [Take(Initialize(x.known, x.connection), []),
     Take(ThreadResponse(x.known, x.threadId, x.metadata, None, ""), [])]
  }

  function TurnStartedElsewhere(x: Example): seq<Label> {
    ThreadSetUp(x) + [Take(ClientRequest(x.unknown, x.requestId, TurnStartRequest(x.threadId, 0)), [])]
                   + [Take(TurnStartResponse(x.unknown, x.requestId, x.turnId), [])]
  }

  function DanglingRun(x: Example): seq<Label> {
    TurnStartedElsewhere(x) + [Take(TurnResolvedConfig(x.turnId, x.threadId, 0, ""), [])]
                            + [Take(TurnProfile(x.turnId, ""), [])]
                            + [Take(TurnCompleted(x.threadId, x.turnId, ""), [])]
  }

  /** The state once the thread is known and the turn holds `turn`. */
  function ExampleState(x: Example, turn: Turn): State {
    INITIAL.(connections := map[x.known := x.connection],
             threads := map[x.threadId := Thread(Some(x.known), Some(x.metadata), None)],
             turns := map[x.turnId := turn])
  }

  function StartedTurn(x: Example): Turn {
    NEW_TURN.(connectionId := Some(x.unknown), threadId := Some(x.threadId), images := Some(0))
  }

  lemma RunSnoc(trace: seq<Label>, l: Label)
    ensures Run(trace + [l]) == Step(Run(trace), l).state
    ensures EmittedFrom(INITIAL, trace + [l]) == EmittedFrom(INITIAL, trace) + Step(Run(trace), l).out
    ensures LegalFrom(INITIAL, trace) && Legal(Run(trace), l) ==> LegalFrom(INITIAL, trace + [l])
    ensures forall part, id :: Supplied(trace + [l], part, id) == Supplied(trace, part, id) + Bit(Supplies(l, part, id))
  {
    assert (trace + [l])[..|trace|] == trace;
  }

  /** What is known of the example after some of its steps. */
  ghost predicate Reaches(trace: seq<Label>, x: Example, s: State) {
    && LegalFrom(INITIAL, trace) && Run(trace) == s
    && Reported(EmittedFrom(INITIAL, trace), x.turnId) == 0
  }

  lemma ReachesNext(trace: seq<Label>, l: Label, x: Example, s: State, o: Outcome)
    requires Reaches(trace, x, s) && Legal(s, l) && Step(s, l) == o && Reported(o.out, x.turnId) == 0
    ensures Reaches(trace + [l], x, o.state)
  {
    RunSnoc(trace, l);
    ReportedConcat(EmittedFrom(INITIAL, trace), o.out, x.turnId);
  }

  lemma InitializeOutcome(x: Example)
    ensures Step(INITIAL, Take(Initialize(x.known, x.connection), []))
            == Outcome(INITIAL.(connections := map[x.known := x.connection]), [])
  {
  }

  lemma ThreadOutcome(x: Example)
    ensures Step(INITIAL.(connections := map[x.known := x.connection]),
                 Take(ThreadResponse(x.known, x.threadId, x.metadata, None, ""), []))
            == Outcome(ExampleState(x, NEW_TURN).(turns := map[]), [ThreadStarted(x.threadId, "")])
  {
  }

  lemma SetUpReaches(x: Example)
    ensures Reaches(ThreadSetUp(x), x, ExampleState(x, NEW_TURN).(turns := map[]))
  {
    ToolCorrelation.EnumeratesNone();
    InitializeOutcome(x);
    ThreadOutcome(x);
    var first, second := ThreadSetUp(x)[0], ThreadSetUp(x)[1];
    ReachesNext([], first, x, INITIAL, Step(INITIAL, first));
    ReachesNext([] + [first], second, x, Step(INITIAL, first).state, Step(Step(INITIAL, first).state, second));
    assert ThreadSetUp(x) == [] + [first] + [second];
  }

  function AskedState(x: Example): State {
    ExampleState(x, NEW_TURN).(turns := map[], requests := map[(x.unknown, x.requestId) := TurnStartRequest(x.threadId, 0)])
  }

  lemma AskOutcome(x: Example)
    ensures Step(ExampleState(x, NEW_TURN).(turns := map[]),
                 Take(ClientRequest(x.unknown, x.requestId, TurnStartRequest(x.threadId, 0)), []))
            == Outcome(AskedState(x), [])
  {
  }

  lemma AnswerOutcome(x: Example)
    ensures Step(AskedState(x), Take(TurnStartResponse(x.unknown, x.requestId, x.turnId), []))
            == Outcome(ExampleState(x, StartedTurn(x)), [])
  {
    assert AskedState(x).requests - {(x.unknown, x.requestId)} == map[];
  }

  lemma StartReaches(x: Example)
    ensures Reaches(TurnStartedElsewhere(x), x, ExampleState(x, StartedTurn(x)))
  {
    ToolCorrelation.EnumeratesNone();
    SetUpReaches(x);
    AskOutcome(x);
    AnswerOutcome(x);
    var s := ExampleState(x, NEW_TURN).(turns := map[]);
    var ask := Take(ClientRequest(x.unknown, x.requestId, TurnStartRequest(x.threadId, 0)), []);
    var answer := Take(TurnStartResponse(x.unknown, x.requestId, x.turnId), []);
    ReachesNext(ThreadSetUp(x), ask, x, s, Step(s, ask));
    ReachesNext(ThreadSetUp(x) + [ask], answer, x, AskedState(x), Step(AskedState(x), answer));
  }

  lemma ConfigOutcome(x: Example)
    ensures Step(ExampleState(x, StartedTurn(x)), Take(TurnResolvedConfig(x.turnId, x.threadId, 0, ""), []))
            == Outcome(ExampleState(x, StartedTurn(x).(config := Some(""))), [])
  {
  }

  lemma ProfileOutcome(x: Example, turn: Turn)
    requires turn.completed.None?
    ensures Step(ExampleState(x, turn), Take(TurnProfile(x.turnId, ""), []))
            == Outcome(ExampleState(x, turn.(profile := Some(""))), [])
  {
  }

  lemma CompletionOutcome(x: Example, turn: Turn)
    requires x.known != x.unknown && turn.connectionId == Some(x.unknown)
    ensures Step(ExampleState(x, turn), Take(TurnCompleted(x.threadId, x.turnId, ""), []))
            == Outcome(ExampleState(x, turn.(completed := Some(""))), [])
  {
    var s, f := ExampleState(x, turn), TurnCompleted(x.threadId, x.turnId, "");
    var flushed := FromTools(s, ToolCorrelation.CompleteTurn(s.tools, (x.threadId, x.turnId)));
    assert flushed.state.tools == s.tools && flushed.out == [];
    assert IngestTurnCompleted(s, f).state.turns == map[x.turnId := turn.(completed := Some(""))];
  }

  /**
    A legal run in which a thread has full context and a turn of it gets each of its three
    parts once, yet the turn is never reported: its own connection is not known.
   */
  lemma DanglingTurnIsNotReported(x: Example)
    requires x.known != x.unknown
    ensures LegalFrom(INITIAL, DanglingRun(x)) && ThreadContext(Run(DanglingRun(x)), x.threadId).Found?
    ensures x.turnId in Run(DanglingRun(x)).turns && IsComplete(Run(DanglingRun(x)).turns[x.turnId])
    ensures Reported(EmittedFrom(INITIAL, DanglingRun(x)), x.turnId) == 0
  {
    FinishReaches(x);
  }

  lemma FinishReaches(x: Example)
    requires x.known != x.unknown
    ensures Reaches(DanglingRun(x), x, ExampleState(x, StartedTurn(x).(config := Some(""), profile := Some(""), completed := Some(""))))
  {
    ToolCorrelation.EnumeratesNone();
    StartReaches(x);
    ConfigOutcome(x);
    var t0, s0 := TurnStartedElsewhere(x), ExampleState(x, StartedTurn(x));
    var config, profile := Take(TurnResolvedConfig(x.turnId, x.threadId, 0, ""), []), Take(TurnProfile(x.turnId, ""), []);
    ReachesNext(t0, config, x, s0, Step(s0, config));
    var t1 := StartedTurn(x).(config := Some(""));
    ProfileOutcome(x, t1);
    ReachesNext(t0 + [config], profile, x, ExampleState(x, t1), Step(ExampleState(x, t1), profile));
    var t2, completed := t1.(profile := Some("")), Take(TurnCompleted(x.threadId, x.turnId, ""), []);
    CompletionOutcome(x, t2);
    ReachesNext(t0 + [config] + [profile], completed, x, ExampleState(x, t2), Step(ExampleState(x, t2), completed));
  }

  // ---- What a turn event reports ------------------------------------------------------------

  /** Something a turn keeps a record of: an accepted interrupt, or a finished tool call. */
  datatype Note = Interrupt(at: nat) | Call(kind: ToolKind)

  /** The category an item is counted in. */
  function Category(item: ThreadItem): ToolKind {
    if item.ToolItem? then item.kind else CollabAgentToolCall
  }

  function NotesBy(s: State, l: Label, turnId: Id): seq<Note> {
    if l.Flush? then []
    else if InterruptAccepted(s, l.fact).Some? && InterruptAccepted(s, l.fact).value.0 == turnId then
      [Interrupt(InterruptAccepted(s, l.fact).value.1)]
    else if Counted(s, l.fact).Some? && Counted(s, l.fact).value.0 == turnId then
      [Call(Category(Counted(s, l.fact).value.1))]
    else []
  }

  /** The notes taken since the turn was last reported, up to and including the last step. */
  function NotesUpTo(trace: seq<Label>, turnId: Id): seq<Note>
    requires |trace| > 0
  {
    NotesAfter(trace[..|trace| - 1], turnId) + NotesBy(Run(trace[..|trace| - 1]), trace[|trace| - 1], turnId)
  }

  /** The notes taken since the turn was last reported: reporting starts afresh. */
  function NotesAfter(trace: seq<Label>, turnId: Id): seq<Note> {
    if |trace| == 0 || ReportsTurn(Run(trace[..|trace| - 1]), trace[|trace| - 1], turnId) then []
    else NotesAfter(trace[..|trace| - 1], turnId) + NotesBy(Run(trace[..|trace| - 1]), trace[|trace| - 1], turnId)
  }

  /** The earliest interrupt noted, if any. */
  predicate IsEarliest(o: Option<nat>, notes: seq<Note>) {
    match o
    case None => forall i | 0 <= i < |notes| :: !notes[i].Interrupt?
    case Some(at) => Interrupt(at) in notes && forall i | 0 <= i < |notes| && notes[i].Interrupt? :: at <= notes[i].at
  }

  function Calls(notes: seq<Note>, kind: ToolKind): nat {
    if |notes| == 0 then 0 else Calls(notes[..|notes| - 1], kind) + Bit(notes[|notes| - 1] == Call(kind))
  }

  function AllCalls(notes: seq<Note>): nat {
    if |notes| == 0 then 0 else AllCalls(notes[..|notes| - 1]) + Bit(notes[|notes| - 1].Call?)
  }

  /** Every count is the number of calls noted in its category. */
  predicate CountsMatch(c: ToolCounts, notes: seq<Note>) {
    && c.total == AllCalls(notes)
    && c.shell == Calls(notes, CommandExecution)
    && c.fileChange == Calls(notes, FileChange)
    && c.mcp == Calls(notes, McpToolCall)
    && c.dynamicTool == Calls(notes, DynamicToolCall)
    && c.subagent == Calls(notes, CollabAgentToolCall)
    && c.webSearch == Calls(notes, WebSearch)
    && c.image == Calls(notes, ImageGeneration)
  }

  predicate Sums(c: ToolCounts) {
    c.total == c.shell + c.fileChange + c.mcp + c.dynamicTool + c.subagent + c.webSearch + c.image
  }

  lemma {:induction false} CallsSum(notes: seq<Note>)
    ensures AllCalls(notes) == Calls(notes, CommandExecution) + Calls(notes, FileChange) + Calls(notes, McpToolCall)
                               + Calls(notes, DynamicToolCall) + Calls(notes, CollabAgentToolCall)
                               + Calls(notes, WebSearch) + Calls(notes, ImageGeneration)
  {
    if |notes| > 0 {
      CallsSum(notes[..|notes| - 1]);
      var note := notes[|notes| - 1];
      if note.Call? {
        match note.kind
        case CommandExecution =>
        case FileChange =>
        case McpToolCall =>
        case DynamicToolCall =>
        case CollabAgentToolCall =>
        case WebSearch =>
        case ImageGeneration =>
      }
    }
  }

  predicate Faithful(turn: Turn, notes: seq<Note>) {
    IsEarliest(turn.interruptAt, notes) && CountsMatch(turn.counts, notes)
  }

  /** What a single note does to the recorded fields. */
  function Noted(turn: Turn, note: Note): Turn {
    match note
    case Interrupt(at) => turn.(interruptAt := EarliestOf(turn.interruptAt, at))
    case Call(kind) => turn.(counts := CountKind(turn.counts, kind))
  }

  lemma CallsSnoc(notes: seq<Note>, note: Note, kind: ToolKind)
    ensures Calls(notes + [note], kind) == Calls(notes, kind) + Bit(note == Call(kind))
    ensures AllCalls(notes + [note]) == AllCalls(notes) + Bit(note.Call?)
  {
    assert (notes + [note])[..|notes|] == notes;
  }

  lemma NoteCounts(counts: ToolCounts, notes: seq<Note>, note: Note)
    requires CountsMatch(counts, notes)
    ensures CountsMatch(if note.Call? then CountKind(counts, note.kind) else counts, notes + [note])
  {
    CallsSnoc(notes, note, CommandExecution);
    CallsSnoc(notes, note, FileChange);
    CallsSnoc(notes, note, McpToolCall);
    CallsSnoc(notes, note, DynamicToolCall);
    CallsSnoc(notes, note, CollabAgentToolCall);
    CallsSnoc(notes, note, WebSearch);
    CallsSnoc(notes, note, ImageGeneration);
  }

  lemma NoteEarliest(o: Option<nat>, notes: seq<Note>, note: Note)
    requires IsEarliest(o, notes)
    ensures IsEarliest(if note.Interrupt? then EarliestOf(o, note.at) else o, notes + [note])
  {
  }

  lemma NoteFaithful(turn: Turn, notes: seq<Note>, note: Note)
    requires Faithful(turn, notes)
    ensures Faithful(Noted(turn, note), notes + [note])
  {
    NoteEarliest(turn.interruptAt, notes, note);
    NoteCounts(turn.counts, notes, note);
  }

  /** A step's write changes the recorded fields by the note it takes, and not otherwise. */
  predicate RecordsAs(turn: Turn, before: Turn, notes: seq<Note>) {
    if |notes| == 0 then turn.interruptAt == before.interruptAt && turn.counts == before.counts
    else
      && |notes| == 1
      && turn.interruptAt == Noted(before, notes[0]).interruptAt
      && turn.counts == Noted(before, notes[0]).counts
  }

  lemma WriteNotes(s: State, l: Label, turnId: Id)
    ensures RecordsAs(TurnAfterWrite(s, WriteBy(s, l), turnId), TurnAt(s, turnId), NotesBy(s, l, turnId))
  {
    if l.Flush? {
    } else if IsTurnFact(l.fact) {
    } else if l.fact.TurnStartResponse? {
    } else if l.fact.TurnSteerResponse? {
    } else if l.fact.InterruptResponse? {
    } else if l.fact.ItemCompleted? {
    } else if l.fact.CodeMode? {
    } else if l.fact.TurnCompleted? {
    } else {
    }
  }

  lemma FaithfulWrite(turn: Turn, before: Turn, notes: seq<Note>, more: seq<Note>)
    requires Faithful(before, notes) && RecordsAs(turn, before, more)
    ensures Faithful(turn, notes + more)
  {
    if |more| == 0 {
      assert notes + more == notes;
    } else {
      NoteFaithful(before, notes, more[0]);
      assert more == [more[0]];
    }
  }

  /**
    In every reachable state a turn's interrupt time is the minimum over the interrupts
    accepted, and its tool counts are the numbers of calls finished, since it was last reported.
   */
  lemma {:induction false} RunFaithful(trace: seq<Label>, turnId: Id)
    ensures Faithful(TurnAt(Run(trace), turnId), NotesAfter(trace, turnId))
    decreases |trace|, 0
  {
    if |trace| > 0 {
      var s, l := Run(trace[..|trace| - 1]), trace[|trace| - 1];
      WriteFaithful(trace, turnId);
      StepTurn(s, l, turnId);
    }
  }

  /** The same of what the last step of a run writes to the turn, which is what it reports. */
  lemma {:induction false} WriteFaithful(trace: seq<Label>, turnId: Id)
    requires |trace| > 0
    ensures Faithful(TurnAfterWrite(Run(trace[..|trace| - 1]), WriteBy(Run(trace[..|trace| - 1]), trace[|trace| - 1]), turnId),
                     NotesUpTo(trace, turnId))
    decreases |trace| - 1, 1
  {
    var init := trace[..|trace| - 1];
    RunFaithful(init, turnId);
    WriteNotes(Run(init), trace[|trace| - 1], turnId);
    FaithfulWrite(TurnAfterWrite(Run(init), WriteBy(Run(init), trace[|trace| - 1]), turnId), TurnAt(Run(init), turnId),
                  NotesAfter(init, turnId), NotesBy(Run(init), trace[|trace| - 1], turnId));
  }

  /** The event is what step `n` reports: the turn's notes up to then. */
  predicate ReportedAt(trace: seq<Label>, n: nat, e: Event)
    requires n < |trace| && e.TurnDone?
  {
    && ReportsTurn(Run(trace[..n]), trace[n], e.turnId)
    && Faithful(e.turn, NotesUpTo(trace[..n + 1], e.turnId))
  }

  lemma LastReportFaithful(trace: seq<Label>, e: Event)
    requires |trace| > 0
    requires var s := Run(trace[..|trace| - 1]); e in ReportOf(s, WriteBy(s, trace[|trace| - 1]))
    ensures e.TurnDone? && ReportedAt(trace, |trace| - 1, e)
  {
    WriteFaithful(trace, e.turnId);
    assert trace[..|trace| - 1 + 1] == trace;
  }

  lemma EarlierReport(trace: seq<Label>, n: nat, e: Event)
    requires |trace| > 0 && n < |trace| - 1 && e.TurnDone? && ReportedAt(trace[..|trace| - 1], n, e)
    ensures ReportedAt(trace, n, e)
  {
    var init := trace[..|trace| - 1];
    assert init[..n] == trace[..n] && init[..n + 1] == trace[..n + 1];
  }

  lemma TurnsStep(trace: seq<Label>)
    requires |trace| > 0
    ensures var s := Run(trace[..|trace| - 1]);
            TurnsOf(EmittedFrom(INITIAL, trace))
            == TurnsOf(EmittedFrom(INITIAL, trace[..|trace| - 1])) + ReportOf(s, WriteBy(s, trace[|trace| - 1]))
  {
    var s, l := Run(trace[..|trace| - 1]), trace[|trace| - 1];
    StepTurns(s, l);
    FilterConcat(IsTurnDone, EmittedFrom(INITIAL, trace[..|trace| - 1]), Step(s, l).out);
  }

  /**
    Over every run, each turn event reports the earliest interrupt accepted and the calls
    finished in each category since the turn was last reported; its total is the sum of the categories.
   */
  lemma {:induction false} TurnEventsFaithful(trace: seq<Label>, e: Event)
    requires e in TurnsOf(EmittedFrom(INITIAL, trace))
    ensures e.TurnDone? && Sums(e.turn.counts)
    ensures exists n: nat | n < |trace| :: ReportedAt(trace, n, e)
  {
    var last := |trace| - 1;
    var init := trace[..last];
    TurnsStep(trace);
    if e in ReportOf(Run(init), WriteBy(Run(init), trace[last])) {
      LastReportFaithful(trace, e);
      CallsSum(NotesUpTo(trace, e.turnId));
      assert trace[..last + 1] == trace;
    } else {
      TurnEventsFaithful(init, e);
      var n: nat :| n < |init| && ReportedAt(init, n, e);
      EarlierReport(trace, n, e);
    }
  }
}
