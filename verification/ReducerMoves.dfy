/**
  What one reducer step does, seen from one part of the state at a time: it makes at
  most one move in the tool correlation and writes at most one turn.
 */
module ReducerMoves {
  import opened Prelude
  import opened AnalyticsTypes
  import opened ToolCorrelation
  import opened Reducer

  // ---- The tool correlation ----------------------------------------------------------

  function ItemMoveOf(s: State, f: Fact): Move {
    if ReportsItem(s, f) then ItemMove(s, f) else Stay
  }

  function CodeModeMoveOf(s: State, f: CodeModeFact): Move {
    if ThreadContext(s, f.threadId).Found? then CodeModeMove(s, f) else Stay
  }

  function MoveOf(s: State, l: Label): Move {
    match l
    case Flush(order) => FlushEverything(order)
    case Take(f, order) =>
      if f.CodeMode? then CodeModeMoveOf(s, f.call)
      else if f.ItemCompleted? then ItemMoveOf(s, f)
      else if f.TurnCompleted? then TurnEnd((f.threadId, f.turnId))
      else if f.ThreadClosed? then ThreadEnd(f.threadId, order)
      else Stay
  }

  /** The tool events among `es`, in order. */
  function ToolsOf(es: seq<Event>): seq<ToolEvent> {
    if |es| == 0 then []
    else
      var rest := ToolsOf(es[..|es| - 1]);
      if es[|es| - 1].Tool? then rest + [es[|es| - 1].tool] else rest
  }

  lemma {:induction false} ToolsOfConcat(a: seq<Event>, b: seq<Event>)
    ensures ToolsOf(a + b) == ToolsOf(a) + ToolsOf(b)
  {
    if |b| == 0 {
      assert a + b == a;
    } else {
      ToolsOfConcat(a, b[..|b| - 1]);
      assert (a + b)[..|a + b| - 1] == a + b[..|b| - 1];
    }
  }

  lemma {:induction false} ToolsOfAsEvents(es: seq<ToolEvent>)
    ensures ToolsOf(AsEvents(es)) == es
  {
    if |es| > 0 {
      ToolsOfAsEvents(es[..|es| - 1]);
      assert AsEvents(es)[..|AsEvents(es)| - 1] == AsEvents(es[..|es| - 1]);
    }
  }

  lemma {:induction false} NoToolsIn(es: seq<Event>)
    requires forall i | 0 <= i < |es| :: !es[i].Tool?
    ensures ToolsOf(es) == []
  {
    if |es| > 0 {
      NoToolsIn(es[..|es| - 1]);
    }
  }

  lemma {:induction false} DirectEventsAre(details: seq<string>)
    ensures forall i | 0 <= i < |DirectEvents(details)| :: DirectEvents(details)[i].Direct?
  {
    if |details| > 0 {
      DirectEventsAre(details[..|details| - 1]);
    }
  }

  lemma MaybeEmitTools(s: State, turnId: Id)
    ensures MaybeEmitTurn(s, turnId).state.tools == s.tools
    ensures ToolsOf(MaybeEmitTurn(s, turnId).out) == []
  {
    NoToolsIn(MaybeEmitTurn(s, turnId).out);
  }

  predicate ToolsFollow(s: State, m: Move, o: Outcome) {
    && o.state.tools == Apply(s.tools, m).correlation
    && ToolsOf(o.out) == Apply(s.tools, m).out
  }

  predicate Attempts(w: TurnWrite) {
    w.Write? && w.report
  }

  function Answered(s: State, f: Fact): State
    requires IsResponse(f)
  {
    s.(requests := s.requests - {(f.connectionId, f.requestId)})
  }

  /** A response either tries to report the turn it writes, or emits at most a steer event. */
  predicate ResponseShaped(s: State, f: Fact, o: Outcome)
    requires IsResponse(f)
  {
    var w := WriteOf(s, f);
    if Attempts(w) then o == MaybeEmitTurn(PutTurn(Answered(s, f), w.turnId, w.turn), w.turnId)
    else
      && o.state.tools == s.tools
      && o.state.turns == Written(s.turns, s, w)
      && forall i | 0 <= i < |o.out| :: o.out[i].Steered?
  }

  lemma StartShape(s: State, f: Fact)
    requires f.TurnStartResponse?
    ensures ResponseShaped(s, f, IngestResponse(s, f))
  {
    if RequestOf(s, f).None? {
    } else if RequestOf(s, f).value.TurnStartRequest? {
    } else {
    }
  }

  lemma SteerShape(s: State, f: Fact)
    requires f.TurnSteerResponse?
    ensures ResponseShaped(s, f, IngestResponse(s, f))
  {
    if RequestOf(s, f).None? {
    } else if !RequestOf(s, f).value.TurnSteerRequest? {
    } else if f.turnId in s.turns {
    } else {
    }
  }

  lemma ErrorShape(s: State, f: Fact)
    requires f.ErrorResponse?
    ensures ResponseShaped(s, f, IngestResponse(s, f))
  {
    if RequestOf(s, f).None? {
    } else if RequestOf(s, f).value.TurnSteerRequest? {
    } else {
    }
  }

  lemma InterruptShape(s: State, f: Fact)
    requires f.InterruptResponse?
    ensures ResponseShaped(s, f, IngestResponse(s, f))
  {
    if RequestOf(s, f).None? {
    } else if RequestOf(s, f).value.InterruptRequest? {
    } else {
    }
  }

  lemma ResponseShape(s: State, f: Fact)
    requires IsResponse(f)
    ensures ResponseShaped(s, f, IngestResponse(s, f))
  {
    if f.TurnStartResponse? { StartShape(s, f); }
    else if f.InterruptResponse? { InterruptShape(s, f); }
    else if f.TurnSteerResponse? { SteerShape(s, f); }
    else { ErrorShape(s, f); }
  }

  lemma ShapedLeavesTools(s: State, f: Fact, o: Outcome)
    requires IsResponse(f) && ResponseShaped(s, f, o)
    ensures ToolsFollow(s, Stay, o)
  {
    var w := WriteOf(s, f);
    if Attempts(w) {
      MaybeEmitTools(PutTurn(Answered(s, f), w.turnId, w.turn), w.turnId);
    } else {
      NoToolsIn(o.out);
    }
  }

  lemma ResponseLeavesTools(s: State, f: Fact)
    requires IsResponse(f)
    ensures ToolsFollow(s, Stay, IngestResponse(s, f))
  {
    ResponseShape(s, f);
    ShapedLeavesTools(s, f, IngestResponse(s, f));
  }

  lemma TurnFactLeavesTools(s: State, f: Fact)
    requires IsTurnFact(f)
    ensures ToolsFollow(s, Stay, IngestTurnFact(s, f))
  {
    MaybeEmitTools(PutTurn(s, f.turnId, UpdatedTurn(TurnAt(s, f.turnId), f)), f.turnId);
  }

  lemma PlainFactsLeaveTools(s: State, f: Fact)
    requires IsPlain(f)
    ensures ToolsFollow(s, Stay, IngestPlain(s, f))
  {
    if f.Unscoped? { DirectEventsAre(f.details); }
    NoToolsIn(IngestPlain(s, f).out);
  }

  lemma TurnCompletedTools(s: State, f: Fact)
    requires f.TurnCompleted?
    ensures ToolsFollow(s, TurnEnd((f.threadId, f.turnId)), IngestTurnCompleted(s, f))
  {
    var flushed := FromTools(s, CompleteTurn(s.tools, (f.threadId, f.turnId)));
    var before := PutTurn(flushed.state, f.turnId, TurnAt(s, f.turnId).(completed := Some(f.completed)));
    var emitted := MaybeEmitTurn(before, f.turnId);
    MaybeEmitTools(before, f.turnId);
    ToolsOfAsEvents(CompleteTurn(s.tools, (f.threadId, f.turnId)).out);
    ToolsOfConcat(flushed.out, emitted.out);
  }

  lemma FromToolsTools(s: State, r: ToolCorrelation.Result)
    ensures FromTools(s, r).state.tools == r.correlation
    ensures ToolsOf(FromTools(s, r).out) == r.out
  {
    ToolsOfAsEvents(r.out);
  }

  /** Handing a move's result over is following that move. */
  lemma FromApplyFollows(s: State, base: State, m: Move)
    ensures ToolsFollow(s, m, FromTools(base, Apply(s.tools, m)))
  {
    FromToolsTools(base, Apply(s.tools, m));
  }

  lemma ItemTablesTools(s: State, f: Fact)
    requires f.ItemCompleted?
    ensures ItemTables(s, f).tools == s.tools
  {
    if f.item.OtherItem? || f.turnId !in s.turns {
    } else if f.item.SubAgentActivity? {
    } else if !ReachesReport(s, f) {
    } else {
    }
  }

  lemma ItemCompletedTools(s: State, f: Fact)
    requires f.ItemCompleted?
    ensures ToolsFollow(s, ItemMoveOf(s, f), IngestItemCompleted(s, f))
  {
    if ReportsItem(s, f) {
      FromApplyFollows(s, ItemTables(s, f), ItemMove(s, f));
    } else {
      ItemTablesTools(s, f);
    }
  }

  lemma CodeModeTools(s: State, f: CodeModeFact)
    ensures ToolsFollow(s, CodeModeMoveOf(s, f), IngestCodeMode(s, f))
  {
    if ThreadContext(s, f.threadId).Found? {
      FromApplyFollows(s, CountCall(s, f), CodeModeMove(s, f));
    } else {
    }
  }

  lemma ThreadClosedTools(s: State, threadId: Id, order: seq<TurnKey>)
    ensures ToolsFollow(s, ThreadEnd(threadId, order), FromTools(s, CloseThread(s.tools, threadId, order)))
  {
    FromToolsTools(s, CloseThread(s.tools, threadId, order));
  }

  lemma FlushTools(s: State, order: seq<TurnKey>)
    ensures ToolsFollow(s, FlushEverything(order), Step(s, Flush(order)))
  {
    FromToolsTools(s, FlushAll(s.tools, order));
  }

  /** What a step does to the correlation, and the tool events it emits, is given by its one move. */
  lemma StepTools(s: State, l: Label)
    ensures ToolsFollow(s, MoveOf(s, l), Step(s, l))
  {
    if l.Flush? { FlushTools(s, l.order); } else { FactTools(s, l.fact, l.order); }
  }

  lemma QuietFactTools(s: State, f: Fact, order: seq<TurnKey>)
    requires IsPlain(f) || IsResponse(f) || IsTurnFact(f)
    ensures ToolsFollow(s, Stay, Ingest(s, f, order))
  {
    if IsPlain(f) { PlainFactsLeaveTools(s, f); }
    else if IsResponse(f) { ResponseLeavesTools(s, f); }
    else { TurnFactLeavesTools(s, f); }
  }

  lemma FactTools(s: State, f: Fact, order: seq<TurnKey>)
    ensures ToolsFollow(s, MoveOf(s, Take(f, order)), Ingest(s, f, order))
  {
    if IsPlain(f) || IsResponse(f) || IsTurnFact(f) { QuietFactTools(s, f, order); }
    else if f.TurnCompleted? { TurnCompletedTools(s, f); }
    else if f.ItemCompleted? { ItemCompletedTools(s, f); }
    else if f.CodeMode? { CodeModeTools(s, f.call); }
    else { ThreadClosedTools(s, f.threadId, order); }
  }

  lemma StepAdmissible(s: State, l: Label)
    requires Legal(s, l)
    ensures Admissible(s.tools, MoveOf(s, l))
  {
  }

  // ---- Turns -------------------------------------------------------------------------

  /** The turn a step writes and with what; `report` when the step then tries to report it. */
  datatype TurnWrite = NoWrite | Write(turnId: Id, turn: Turn, report: bool)

  function RequestOf(s: State, f: Fact): Option<Request>
    requires IsResponse(f)
  {
    Lookup(s.requests, (f.connectionId, f.requestId))
  }

  /** A fact that answers a pending interrupt request of the turn; with when the request was made. */
  function InterruptAccepted(s: State, f: Fact): Option<(Id, nat)> {
    if !f.InterruptResponse? then None
    else
      match RequestOf(s, f)
      case Some(InterruptRequest(turnId, at)) => Some((turnId, at))
      case _ => None
  }

  /** A tool call a fact counts for a turn. */
  function Counted(s: State, f: Fact): Option<(Id, ThreadItem)> {
    if f.ItemCompleted? && !f.item.OtherItem? && f.turnId in s.turns then Some((f.turnId, f.item))
    else if f.CodeMode? && f.call.CallCompleted? && ThreadContext(s, f.call.threadId).Found? then
      Some((f.call.turnId, ToolItem(DynamicToolCall, f.call.callId, true, f.call.detail)))
    else None
  }

  function WriteOf(s: State, f: Fact): TurnWrite {
    if IsTurnFact(f) then
      Write(f.turnId, UpdatedTurn(TurnAt(s, f.turnId), f), f.TurnResolvedConfig? || f.TurnTokenUsage? || f.TurnProfile?)
    else match f
    case TurnStartResponse(c, _, id) =>
      (match RequestOf(s, f)
       case Some(TurnStartRequest(threadId, images)) =>
         Write(id, TurnAt(s, id).(connectionId := Some(c), threadId := Some(threadId), images := Some(images)), true)
       case _ => NoWrite)
    case TurnSteerResponse(_, _, id) =>
      if id in s.turns && RequestOf(s, f).Some? && RequestOf(s, f).value.TurnSteerRequest? then
        Write(id, TurnAt(s, id).(steers := TurnAt(s, id).steers + 1), false)
      else NoWrite
    case InterruptResponse(_, _) =>
      (match InterruptAccepted(s, f)
       case Some((id, at)) => Write(id, TurnAt(s, id).(interruptAt := EarliestOf(TurnAt(s, id).interruptAt, at)), true)
       case None => NoWrite)
    case ItemCompleted(_, id, item, _) =>
      if Counted(s, f).None? then NoWrite
      else Write(id, TurnAt(s, id).(counts := CountItem(TurnAt(s, id).counts, item)), false)
    case CodeMode(call) =>
      if Counted(s, f).None? then NoWrite
      else Write(call.turnId, TurnAt(s, call.turnId).(counts := CountKind(TurnAt(s, call.turnId).counts, DynamicToolCall)), false)
    case TurnCompleted(_, id, completed) => Write(id, TurnAt(s, id).(completed := Some(completed)), true)
    case _ => NoWrite
  }

  function WriteBy(s: State, l: Label): TurnWrite {
    if l.Take? then WriteOf(s, l.fact) else NoWrite
  }

  /** The step reports the turn it writes. */
  predicate Reports(s: State, w: TurnWrite) {
    w.Write? && w.report && IsComplete(w.turn) && TurnContext(s, w.turn).Found?
  }

  function Written(turns: map<Id, Turn>, s: State, w: TurnWrite): map<Id, Turn> {
    if w.NoWrite? then turns
    else if Reports(s, w) then turns - {w.turnId}
    else turns[w.turnId := w.turn]
  }

  function ReportOf(s: State, w: TurnWrite): seq<Event> {
    if Reports(s, w) then [TurnDone(w.turnId, w.turn, TurnContext(s, w.turn).context)] else []
  }

  predicate IsTurnDone(e: Event) {
    e.TurnDone?
  }

  /** The turn events among `es`, in order. */
  function TurnsOf(es: seq<Event>): seq<Event> {
    Filter(IsTurnDone, es)
  }

  lemma {:induction false} NoTurnsIn(es: seq<Event>)
    requires forall i | 0 <= i < |es| :: !es[i].TurnDone?
    ensures TurnsOf(es) == []
  {
    if |es| > 0 {
      NoTurnsIn(es[..|es| - 1]);
    }
  }

  lemma {:induction false} AsEventsAre(es: seq<ToolEvent>)
    ensures forall i | 0 <= i < |AsEvents(es)| :: AsEvents(es)[i].Tool?
  {
    if |es| > 0 {
      AsEventsAre(es[..|es| - 1]);
    }
  }

  lemma MaybeEmitIs(s: State, before: State, w: TurnWrite)
    requires w.Write? && w.report
    requires before.threads == s.threads && before.connections == s.connections
    ensures var r := MaybeEmitTurn(PutTurn(before, w.turnId, w.turn), w.turnId);
            && r.state.turns == Written(before.turns, s, w)
            && TurnsOf(r.out) == ReportOf(s, w)
  {
    var put := PutTurn(before, w.turnId, w.turn);
    assert TurnContext(put, w.turn) == TurnContext(s, w.turn);
    if Reports(s, w) {
      var e, lines := TurnDone(w.turnId, w.turn, TurnContext(s, w.turn).context), AcceptedLinesOf(w.turnId, w.turn);
      FilterConcat(IsTurnDone, [e], lines);
      NoTurnsIn(lines);
      assert [e][..0] == [];
    }
  }

  predicate TurnsFollow(s: State, w: TurnWrite, o: Outcome) {
    && o.state.turns == Written(s.turns, s, w)
    && TurnsOf(o.out) == ReportOf(s, w)
  }

  lemma ShapedTurns(s: State, f: Fact, o: Outcome)
    requires IsResponse(f) && ResponseShaped(s, f, o)
    ensures TurnsFollow(s, WriteOf(s, f), o)
  {
    if Attempts(WriteOf(s, f)) {
      MaybeEmitIs(s, Answered(s, f), WriteOf(s, f));
    } else {
      NoTurnsIn(o.out);
    }
  }

  lemma ResponseTurns(s: State, f: Fact)
    requires IsResponse(f)
    ensures TurnsFollow(s, WriteOf(s, f), IngestResponse(s, f))
  {
    ResponseShape(s, f);
    ShapedTurns(s, f, IngestResponse(s, f));
  }

  lemma TurnFactTurns(s: State, f: Fact)
    requires IsTurnFact(f)
    ensures TurnsFollow(s, WriteOf(s, f), IngestTurnFact(s, f))
  {
    if WriteOf(s, f).report {
      MaybeEmitIs(s, s, WriteOf(s, f));
    }
  }

  lemma TurnCompletedTurns(s: State, f: Fact)
    requires f.TurnCompleted?
    ensures TurnsFollow(s, WriteOf(s, f), IngestTurnCompleted(s, f))
  {
    var flushed := FromTools(s, CompleteTurn(s.tools, (f.threadId, f.turnId)));
    var w := WriteOf(s, f);
    MaybeEmitIs(s, flushed.state, w);
    AsEventsAre(CompleteTurn(s.tools, (f.threadId, f.turnId)).out);
    NoTurnsIn(flushed.out);
    FilterConcat(IsTurnDone, flushed.out, MaybeEmitTurn(PutTurn(flushed.state, w.turnId, w.turn), w.turnId).out);
  }

  lemma ItemTablesTurns(s: State, f: Fact)
    requires f.ItemCompleted?
    ensures ItemTables(s, f).turns == Written(s.turns, s, WriteOf(s, f))
  {
    ItemTakenTurns(s, f);
    if ReachesReport(s, f) {
    } else {
    }
  }

  lemma ItemTakenTurns(s: State, f: Fact)
    requires f.ItemCompleted?
    ensures ItemTaken(s, f).turns == Written(s.turns, s, WriteOf(s, f))
  {
    if f.item.OtherItem? || f.turnId !in s.turns {
    } else if f.item.SubAgentActivity? {
    } else {
    }
  }

  lemma ItemReportsNothing(s: State, f: Fact)
    requires f.ItemCompleted?
    ensures ReportOf(s, WriteOf(s, f)) == []
  {
  }

  lemma ItemCompletedTurns(s: State, f: Fact)
    requires f.ItemCompleted?
    ensures TurnsFollow(s, WriteOf(s, f), IngestItemCompleted(s, f))
  {
    ItemTablesTurns(s, f);
    ItemReportsNothing(s, f);
    if ReportsItem(s, f) {
      FromToolsTurns(ItemTables(s, f), Apply(s.tools, ItemMove(s, f)));
    }
  }

  lemma FromToolsTurns(s: State, r: ToolCorrelation.Result)
    ensures TurnsOf(FromTools(s, r).out) == []
  {
    AsEventsAre(r.out);
    NoTurnsIn(FromTools(s, r).out);
  }

  lemma CodeModeTurnsWith(s: State, f: CodeModeFact, r: ToolCorrelation.Result)
    requires ThreadContext(s, f.threadId).Found?
    ensures TurnsFollow(s, WriteOf(s, CodeMode(f)), FromTools(CountCall(s, f), r))
  {
    FromToolsTurns(CountCall(s, f), r);
  }

  lemma CodeModeTurns(s: State, f: CodeModeFact)
    ensures TurnsFollow(s, WriteOf(s, CodeMode(f)), IngestCodeMode(s, f))
  {
    if ThreadContext(s, f.threadId).Found? {
      CodeModeTurnsWith(s, f, Apply(s.tools, CodeModeMove(s, f)));
    }
  }

  lemma PlainFactsLeaveTurns(s: State, f: Fact)
    requires IsPlain(f)
    ensures TurnsFollow(s, NoWrite, IngestPlain(s, f))
  {
    if f.Unscoped? { DirectEventsAre(f.details); }
    NoTurnsIn(IngestPlain(s, f).out);
  }

  lemma FactTurns(s: State, f: Fact, order: seq<TurnKey>)
    ensures TurnsFollow(s, WriteOf(s, f), Ingest(s, f, order))
  {
    if IsPlain(f) { PlainFactsLeaveTurns(s, f); }
    else if IsResponse(f) { ResponseTurns(s, f); }
    else if IsTurnFact(f) { TurnFactTurns(s, f); }
    else if f.TurnCompleted? { TurnCompletedTurns(s, f); }
    else if f.ItemCompleted? { ItemCompletedTurns(s, f); }
    else if f.CodeMode? { CodeModeTurns(s, f.call); }
    else { FromToolsTurns(s, CloseThread(s.tools, f.threadId, order)); }
  }

  /** What a step does to the turns, and the turn events it emits, is given by its one write. */
  lemma StepTurns(s: State, l: Label)
    ensures TurnsFollow(s, WriteBy(s, l), Step(s, l))
  {
    if l.Flush? { FromToolsTurns(s, FlushAll(s.tools, l.order)); } else { FactTurns(s, l.fact, l.order); }
  }

  // ---- What a step leaves alone ----------------------------------------------------------

  /** Nothing but turns and the correlation differs from `s`. */
  predicate OnlyWork(s: State, o: Outcome) {
    o.state == s.(turns := o.state.turns, tools := o.state.tools)
  }

  lemma MaybeEmitFrame(s: State, turnId: Id)
    ensures OnlyWork(s, MaybeEmitTurn(s, turnId))
  {
  }

  lemma PutAndEmitFrame(s: State, turnId: Id, turn: Turn)
    ensures OnlyWork(s, MaybeEmitTurn(PutTurn(s, turnId, turn), turnId))
  {
    MaybeEmitFrame(PutTurn(s, turnId, turn), turnId);
  }

  lemma TurnFactFrame(s: State, f: Fact)
    requires IsTurnFact(f)
    ensures OnlyWork(s, IngestTurnFact(s, f))
  {
    PutAndEmitFrame(s, f.turnId, UpdatedTurn(TurnAt(s, f.turnId), f));
  }

  lemma TurnCompletedFrame(s: State, f: Fact)
    requires f.TurnCompleted?
    ensures OnlyWork(s, IngestTurnCompleted(s, f))
  {
    var flushed := FromTools(s, CompleteTurn(s.tools, (f.threadId, f.turnId)));
    PutAndEmitFrame(flushed.state, f.turnId, TurnAt(s, f.turnId).(completed := Some(f.completed)));
  }

  lemma FromToolsFrame(s: State, r: ToolCorrelation.Result)
    ensures OnlyWork(s, FromTools(s, r))
  {
  }

  lemma CodeModeFrame(s: State, f: CodeModeFact)
    ensures OnlyWork(s, IngestCodeMode(s, f))
  {
    if ThreadContext(s, f.threadId).Found? {
      FromToolsFrame(CountCall(s, f), Apply(s.tools, CodeModeMove(s, f)));
    }
  }

  /** An item completion also takes its start, and its summary if it gets as far as the report. */
  function ItemKeysTaken(s: State, f: Fact): State
    requires f.ItemCompleted?
  {
    if !f.item.ToolItem? || f.turnId !in s.turns then s
    else if !ReachesReport(s, f) then TakeStart(s, ItemKeyOf(f))
    else TakeSummary(TakeStart(s, ItemKeyOf(f)), ItemKeyOf(f))
  }

  lemma ItemTablesFrame(s: State, f: Fact)
    requires f.ItemCompleted?
    ensures OnlyWork(ItemKeysTaken(s, f), Outcome(ItemTables(s, f), []))
  {
    if f.item.OtherItem? || f.turnId !in s.turns {
    } else if f.item.SubAgentActivity? {
    } else if !ReachesReport(s, f) {
    } else {
    }
  }

  lemma FromToolsOnTop(s: State, base: State, r: ToolCorrelation.Result)
    requires OnlyWork(s, Outcome(base, []))
    ensures OnlyWork(s, FromTools(base, r))
  {
  }

  lemma ItemFrame(s: State, f: Fact)
    requires f.ItemCompleted?
    ensures OnlyWork(ItemKeysTaken(s, f), IngestItemCompleted(s, f))
  {
    ItemTablesFrame(s, f);
    if ReportsItem(s, f) {
      FromToolsOnTop(ItemKeysTaken(s, f), ItemTables(s, f), Apply(s.tools, ItemMove(s, f)));
    }
  }

  lemma ResponseFrame(s: State, f: Fact)
    requires IsResponse(f)
    ensures OnlyWork(Answered(s, f), IngestResponse(s, f))
  {
    var id := (f.connectionId, f.requestId);
    if id in s.requests {
      AnswersFrame(Answered(s, f), f, s.requests[id]);
    } else {
      assert s.requests - {id} == s.requests;
    }
  }

  lemma AnswersFrame(s: State, f: Fact, request: Request)
    requires IsResponse(f)
    ensures f.TurnStartResponse? ==> OnlyWork(s, AnswerTurnStart(s, f.connectionId, request, f.turnId))
    ensures f.TurnSteerResponse? ==> OnlyWork(s, AnswerSteer(s, f.connectionId, request, f.turnId))
    ensures f.InterruptResponse? ==> OnlyWork(s, AnswerInterrupt(s, request))
    ensures f.ErrorResponse? ==> OnlyWork(s, RejectRequest(s, f.connectionId, request, f.reason))
  {
  }

  /** What each class of facts touches. */
  predicate Framed(s: State, f: Fact, o: Outcome) {
    if IsPlain(f) then o == IngestPlain(s, f)
    else if IsResponse(f) then OnlyWork(Answered(s, f), o)
    else if f.ItemCompleted? then OnlyWork(ItemKeysTaken(s, f), o)
    else OnlyWork(s, o)
  }

  lemma FactFrame(s: State, f: Fact, order: seq<TurnKey>)
    ensures Framed(s, f, Ingest(s, f, order))
  {
    if IsPlain(f) { }
    else if IsResponse(f) { ResponseFrame(s, f); }
    else if IsTurnFact(f) { TurnFactFrame(s, f); }
    else if f.TurnCompleted? { TurnCompletedFrame(s, f); }
    else if f.ItemCompleted? { ItemFrame(s, f); }
    else if f.CodeMode? { CodeModeFrame(s, f.call); }
    else { FromToolsFrame(s, CloseThread(s.tools, f.threadId, order)); }
  }

  lemma FlushFrame(s: State, order: seq<TurnKey>)
    ensures OnlyWork(s, Step(s, Flush(order)))
  {
    FromToolsFrame(s, FlushAll(s.tools, order));
  }

  /** The facts that change threads or connections. */
  predicate ChangesContext(f: Fact) {
    f.Initialize? || f.ThreadResponse? || f.SubAgentStarted?
  }

  predicate ChangesRequests(f: Fact) {
    f.ClientRequest? || IsResponse(f)
  }

  predicate ChangesSummaries(f: Fact) {
    f.GuardianReviewCompleted? || f.ApprovalAnswered? || f.ItemCompleted?
  }

  predicate SameContext(s: State, o: Outcome) {
    o.state.threads == s.threads && o.state.connections == s.connections
  }

  predicate SameRequests(s: State, o: Outcome) {
    o.state.requests == s.requests
  }

  predicate SameSummaries(s: State, o: Outcome) {
    o.state.summaries == s.summaries
  }

  predicate IsReviewFact(f: Fact) {
    f.GuardianReviewCompleted? || f.ApprovalAnswered?
  }

  /** Nothing but the reviews differs from `s`. */
  predicate OnlyReviews(s: State, o: Outcome) {
    o.state == s.(pendingReviews := o.state.pendingReviews, summaries := o.state.summaries)
  }

  lemma EmitReviewFrame(s: State, review: PendingReview, reviewer: Reviewer, status: ReviewStatus, resolution: Resolution, at: nat)
    ensures OnlyReviews(s, EmitReview(s, review, reviewer, status, resolution, at))
  {
  }

  lemma ReviewFactFrame(s: State, f: Fact)
    requires IsReviewFact(f)
    ensures OnlyReviews(s, IngestPlain(s, f))
  {
    if f.GuardianReviewCompleted? {
      if f.verdict.Some? && Millis(f.from).Some? && Millis(f.at).Some? {
        EmitReviewFrame(s, GuardianReview(f), Guardian, f.verdict.value, NoResolution, Millis(f.at).value);
      }
    } else if f.requestId in s.pendingReviews {
      EmitReviewFrame(s.(pendingReviews := s.pendingReviews - {f.requestId}), s.pendingReviews[f.requestId],
                      User, f.status, f.resolution, f.answeredAt);
    }
  }

  lemma PlainContext(s: State, f: Fact)
    requires IsPlain(f) && !ChangesContext(f) && !IsReviewFact(f)
    ensures SameContext(s, IngestPlain(s, f))
  {
  }

  lemma PlainRequests(s: State, f: Fact)
    requires IsPlain(f) && !ChangesRequests(f) && !IsReviewFact(f)
    ensures SameRequests(s, IngestPlain(s, f))
  {
  }

  lemma PlainSummaries(s: State, f: Fact)
    requires IsPlain(f) && !IsReviewFact(f)
    ensures SameSummaries(s, IngestPlain(s, f))
  {
  }

  lemma WorkKeeps(s: State, o: Outcome)
    requires OnlyWork(s, o)
    ensures SameContext(s, o) && SameRequests(s, o) && SameSummaries(s, o)
  {
  }

  lemma ReviewsKeep(s: State, o: Outcome)
    requires OnlyReviews(s, o)
    ensures SameContext(s, o) && SameRequests(s, o)
  {
  }

  lemma ContextKept(s: State, f: Fact, order: seq<TurnKey>)
    requires !ChangesContext(f)
    ensures SameContext(s, Ingest(s, f, order))
  {
    FactFrame(s, f, order);
    ContextFramed(s, f, Ingest(s, f, order));
  }

  lemma ContextFramed(s: State, f: Fact, o: Outcome)
    requires Framed(s, f, o) && !ChangesContext(f)
    ensures SameContext(s, o)
  {
    if IsPlain(f) {
      if IsReviewFact(f) {
        ReviewFactFrame(s, f);
        ReviewsKeep(s, o);
      } else {
        PlainContext(s, f);
      }
    } else if IsResponse(f) {
      WorkKeeps(Answered(s, f), o);
    } else if f.ItemCompleted? {
      WorkKeeps(ItemKeysTaken(s, f), o);
    } else {
      WorkKeeps(s, o);
    }
  }

  lemma RequestsFramed(s: State, f: Fact, o: Outcome)
    requires Framed(s, f, o) && !ChangesRequests(f)
    ensures SameRequests(s, o)
  {
    if IsPlain(f) {
      if IsReviewFact(f) {
        ReviewFactFrame(s, f);
        ReviewsKeep(s, o);
      } else {
        PlainRequests(s, f);
      }
    } else if f.ItemCompleted? {
      WorkKeeps(ItemKeysTaken(s, f), o);
    } else {
      WorkKeeps(s, o);
    }
  }

  lemma RequestsKept(s: State, f: Fact, order: seq<TurnKey>)
    requires !ChangesRequests(f)
    ensures SameRequests(s, Ingest(s, f, order))
  {
    FactFrame(s, f, order);
    RequestsFramed(s, f, Ingest(s, f, order));
  }

  lemma SummariesFramed(s: State, f: Fact, o: Outcome)
    requires Framed(s, f, o) && !ChangesSummaries(f)
    ensures SameSummaries(s, o)
  {
    if IsPlain(f) {
      PlainSummaries(s, f);
    } else if IsResponse(f) {
      WorkKeeps(Answered(s, f), o);
    } else {
      WorkKeeps(s, o);
    }
  }

  lemma SummariesKept(s: State, f: Fact, order: seq<TurnKey>)
    requires !ChangesSummaries(f)
    ensures SameSummaries(s, Ingest(s, f, order))
  {
    FactFrame(s, f, order);
    SummariesFramed(s, f, Ingest(s, f, order));
  }
}
