/** Client requests over every run: each one asked is answered once, still open, or overwritten by a later one. */
module RequestRuns {
  import opened Prelude
  import opened AnalyticsTypes
  import ToolCorrelation
  import opened Reducer
  import opened ReducerMoves

  type RequestKey = (nat, Id)

  predicate Asks(l: Label, id: RequestKey) {
    l.Take? && l.fact.ClientRequest? && (l.fact.connectionId, l.fact.requestId) == id
  }

  predicate Responds(l: Label, id: RequestKey) {
    l.Take? && IsResponse(l.fact) && (l.fact.connectionId, l.fact.requestId) == id
  }

  /** How often the request was asked. */
  function Asked(trace: seq<Label>, id: RequestKey): nat {
    if |trace| == 0 then 0 else Asked(trace[..|trace| - 1], id) + Bit(Asks(trace[|trace| - 1], id))
  }

  /** How many responses found it open. */
  function AnsweredIn(trace: seq<Label>, id: RequestKey): nat {
    if |trace| == 0 then 0
    else
      var init, l := trace[..|trace| - 1], trace[|trace| - 1];
      AnsweredIn(init, id) + Bit(Responds(l, id) && id in Run(init).requests)
  }

  /** How often it was asked again while open. */
  function Overwritten(trace: seq<Label>, id: RequestKey): nat {
    if |trace| == 0 then 0
    else
      var init, l := trace[..|trace| - 1], trace[|trace| - 1];
      Overwritten(init, id) + Bit(Asks(l, id) && id in Run(init).requests)
  }

  // ---- What a step does to the open requests ------------------------------------------------

  predicate RequestFollows(s: State, l: Label, o: Outcome, id: RequestKey) {
    Lookup(o.state.requests, id) ==
      if Asks(l, id) then Some(l.fact.request) else if Responds(l, id) then None else Lookup(s.requests, id)
  }

  lemma ResponseRequest(s: State, f: Fact, order: seq<TurnKey>, id: RequestKey)
    requires IsResponse(f)
    ensures RequestFollows(s, Take(f, order), IngestResponse(s, f), id)
  {
    ResponseFrame(s, f);
  }

  lemma StepRequest(s: State, l: Label, id: RequestKey)
    ensures RequestFollows(s, l, Step(s, l), id)
  {
    if l.Flush? { FlushFrame(s, l.order); }
    else if IsResponse(l.fact) { ResponseRequest(s, l.fact, l.order, id); }
    else if !l.fact.ClientRequest? { RequestsKept(s, l.fact, l.order); }
  }

  // ---- Runs -------------------------------------------------------------------------------------

  /** Over every run and for every request id: asked = answered + overwritten + still open. */
  lemma {:induction false} RequestsAccounted(trace: seq<Label>, id: RequestKey)
    ensures Asked(trace, id) == AnsweredIn(trace, id) + Overwritten(trace, id) + Bit(id in Run(trace).requests)
  {
    if |trace| > 0 {
      var init := trace[..|trace| - 1];
      RequestsAccounted(init, id);
      StepRequest(Run(init), trace[|trace| - 1], id);
    }
  }

  // ---- Responses nobody asked for ------------------------------------------------------------------

  predicate IsUnasked(s: State, l: Label) {
    l.Take? && IsResponse(l.fact) && (l.fact.connectionId, l.fact.requestId) !in s.requests
  }

  lemma UnaskedResponseHasNoEffect(s: State, l: Label)
    requires IsUnasked(s, l)
    ensures Step(s, l) == Outcome(s, [])
  {
    assert Step(s, l) == IngestResponse(s, l.fact);
  }

  /** The run without the responses and errors to requests that were not open. */
  function AskedFor(trace: seq<Label>): seq<Label> {
    if |trace| == 0 then []
    else
      var init, l := trace[..|trace| - 1], trace[|trace| - 1];
      if IsUnasked(Run(init), l) then AskedFor(init) else AskedFor(init) + [l]
  }

  /** Erasing the responses and errors nobody asked for leaves a legal run with the same state and the same events. */
  lemma {:induction false} UnaskedResponsesErased(trace: seq<Label>)
    requires LegalFrom(INITIAL, trace)
    ensures LegalFrom(INITIAL, AskedFor(trace)) && Run(AskedFor(trace)) == Run(trace)
    ensures EmittedFrom(INITIAL, AskedFor(trace)) == EmittedFrom(INITIAL, trace)
  {
    if |trace| > 0 {
      var init, l := trace[..|trace| - 1], trace[|trace| - 1];
      UnaskedResponsesErased(init);
      if IsUnasked(Run(init), l) {
        UnaskedResponseHasNoEffect(Run(init), l);
      } else {
        assert (AskedFor(init) + [l])[..|AskedFor(init)|] == AskedFor(init);
      }
    }
  }

  // ---- Steers ----------------------------------------------------------------------------------------

  predicate NoSteers(es: seq<Event>) {
    forall i | 0 <= i < |es| :: !es[i].Steered?
  }

  lemma MaybeEmitNoSteers(s: State, turnId: Id)
    ensures NoSteers(MaybeEmitTurn(s, turnId).out)
  {
  }

  lemma FromToolsNoSteers(s: State, r: ToolCorrelation.Result)
    ensures NoSteers(FromTools(s, r).out)
  {
    AsEventsAre(r.out);
  }

  lemma PlainNoSteers(s: State, f: Fact)
    requires IsPlain(f)
    ensures NoSteers(IngestPlain(s, f).out)
  {
    if f.Unscoped? { DirectEventsAre(f.details); }
  }

  lemma TurnFactNoSteers(s: State, f: Fact)
    requires IsTurnFact(f)
    ensures NoSteers(IngestTurnFact(s, f).out)
  {
    MaybeEmitNoSteers(PutTurn(s, f.turnId, UpdatedTurn(TurnAt(s, f.turnId), f)), f.turnId);
  }

  lemma TurnCompletedNoSteers(s: State, f: Fact)
    requires f.TurnCompleted?
    ensures NoSteers(IngestTurnCompleted(s, f).out)
  {
    var flushed := FromTools(s, ToolCorrelation.CompleteTurn(s.tools, (f.threadId, f.turnId)));
    FromToolsNoSteers(s, ToolCorrelation.CompleteTurn(s.tools, (f.threadId, f.turnId)));
    MaybeEmitNoSteers(PutTurn(flushed.state, f.turnId, TurnAt(s, f.turnId).(completed := Some(f.completed))), f.turnId);
  }

  lemma ItemNoSteers(s: State, f: Fact)
    requires f.ItemCompleted?
    ensures NoSteers(IngestItemCompleted(s, f).out)
  {
    if ReportsItem(s, f) {
      FromToolsNoSteers(ItemTables(s, f), ToolCorrelation.Apply(s.tools, ItemMove(s, f)));
    } else {
    }
  }

  lemma CodeModeNoSteers(s: State, f: CodeModeFact)
    ensures NoSteers(IngestCodeMode(s, f).out)
  {
    if ThreadContext(s, f.threadId).Found? {
      FromToolsNoSteers(CountCall(s, f), ToolCorrelation.Apply(s.tools, CodeModeMove(s, f)));
    } else {
    }
  }

  lemma OnlyResponsesSteer(s: State, f: Fact, order: seq<TurnKey>)
    requires !IsResponse(f)
    ensures NoSteers(Ingest(s, f, order).out)
  {
    if IsPlain(f) { PlainNoSteers(s, f); }
    else if IsTurnFact(f) { TurnFactNoSteers(s, f); }
    else if f.TurnCompleted? { TurnCompletedNoSteers(s, f); }
    else if f.ItemCompleted? { ItemNoSteers(s, f); }
    else if f.CodeMode? { CodeModeNoSteers(s, f.call); }
    else { FromToolsNoSteers(s, ToolCorrelation.CloseThread(s.tools, f.threadId, order)); }
  }

  /** The event reports the steer request, accepted for a turn exactly if the fact is its success. */
  predicate ReportsSteer(e: Event, f: Fact, request: Request) {
    && e.Steered? && request.TurnSteerRequest?
    && e.threadId == request.threadId && e.expectedTurnId == request.expectedTurnId
    && e.images == request.images && e.createdAt == request.createdAt
    && e.acceptedTurnId == (if f.TurnSteerResponse? then Some(f.turnId) else None)
    && (f.TurnSteerResponse? ==> e.rejection.None?)
  }

  lemma ResponseSteers(s: State, f: Fact, i: nat)
    requires IsResponse(f) && i < |IngestResponse(s, f).out| && IngestResponse(s, f).out[i].Steered?
    ensures (f.connectionId, f.requestId) in s.requests && |IngestResponse(s, f).out| == 1
    ensures ReportsSteer(IngestResponse(s, f).out[i], f, s.requests[(f.connectionId, f.requestId)])
  {
    var id := (f.connectionId, f.requestId);
    if id !in s.requests {
    } else if f.TurnStartResponse? {
    } else if f.TurnSteerResponse? {
    } else if f.InterruptResponse? {
    } else {
    }
  }

  lemma StepSteers(s: State, l: Label, i: nat)
    requires i < |Step(s, l).out| && Step(s, l).out[i].Steered?
    ensures l.Take? && IsResponse(l.fact) && (l.fact.connectionId, l.fact.requestId) in s.requests
    ensures |Step(s, l).out| == 1 && ReportsSteer(Step(s, l).out[i], l.fact, s.requests[(l.fact.connectionId, l.fact.requestId)])
  {
    if l.Flush? {
      FromToolsNoSteers(s, ToolCorrelation.FlushAll(s.tools, l.order));
    } else if !IsResponse(l.fact) {
      OnlyResponsesSteer(s, l.fact, l.order);
    } else {
      ResponseSteers(s, l.fact, i);
    }
  }

  /** Step `m` asked the request, and nothing since has asked it again or answered it. */
  predicate OpenSince(trace: seq<Label>, m: nat, id: RequestKey, request: Request) {
    && m < |trace| && Asks(trace[m], id) && trace[m].fact.request == request
    && forall k | m < k < |trace| :: !Asks(trace[k], id) && !Responds(trace[k], id)
  }

  lemma {:induction false} OpenRequestWasAsked(trace: seq<Label>, id: RequestKey)
    requires id in Run(trace).requests
    ensures exists m: nat :: OpenSince(trace, m, id, Run(trace).requests[id])
  {
    if |trace| > 0 {
      var init, l := trace[..|trace| - 1], trace[|trace| - 1];
      StepRequest(Run(init), l, id);
      if Asks(l, id) {
        assert OpenSince(trace, |trace| - 1, id, Run(trace).requests[id]);
      } else {
        OpenRequestWasAsked(init, id);
        var m: nat :| OpenSince(init, m, id, Run(init).requests[id]);
        assert OpenSince(trace, m, id, Run(trace).requests[id]);
      }
    }
  }

  /** Step `n` emits a steer event, and nothing else, in answer to the request that step `m` asked and that stayed open since. */
  predicate SteerAnswers(trace: seq<Label>, n: nat, m: nat)
    requires n < |trace|
  {
    var o, l := Step(Run(trace[..n]), trace[n]), trace[n];
    && m < n && l.Take? && IsResponse(l.fact) && trace[m].Take? && trace[m].fact.ClientRequest?
    && OpenSince(trace[..n], m, (l.fact.connectionId, l.fact.requestId), trace[m].fact.request)
    && |o.out| == 1 && ReportsSteer(o.out[0], l.fact, trace[m].fact.request)
  }

  /** Over every run, each steer event answers an earlier steer request that was open until then. */
  lemma SteersAnswerSteers(trace: seq<Label>, n: nat, i: nat)
    requires n < |trace|
    requires i < |Step(Run(trace[..n]), trace[n]).out| && Step(Run(trace[..n]), trace[n]).out[i].Steered?
    ensures exists m: nat :: SteerAnswers(trace, n, m)
  {
    var before, l := trace[..n], trace[n];
    StepSteers(Run(before), l, i);
    var id := (l.fact.connectionId, l.fact.requestId);
    OpenRequestWasAsked(before, id);
    var m: nat :| OpenSince(before, m, id, Run(before).requests[id]);
    assert before[m] == trace[m];
    assert SteerAnswers(trace, n, m);
  }

  /** No request is answered by two steer events. */
  lemma SteersAnswerDistinctRequests(trace: seq<Label>, n: nat, m: nat, n': nat, m': nat)
    requires n < n' < |trace| && SteerAnswers(trace, n, m) && SteerAnswers(trace, n', m')
    ensures m != m'
  {
    assert trace[..n'][n] == trace[n];
  }
}
