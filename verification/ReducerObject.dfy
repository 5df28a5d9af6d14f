/** The reducer as the program runs it: tables updated in place, queues walked by loops; every method refines its function. */
module ReducerObject {
  import opened Prelude
  import opened AnalyticsTypes
  import opened ToolCorrelation
  import opened Reducer

  lemma EnrichAllSnoc(es: seq<ToolEvent>, i: nat, st: ResponseState, cells: map<Id, Cell>)
    requires i < |es|
    ensures EnrichAll(es[..i + 1], st, cells) == EnrichAll(es[..i], st, cells) + [Enrich(es[i], st, cells)]
  {
    assert es[..i + 1][..i] == es[..i];
  }

  lemma MarkAllSnoc(es: seq<ToolEvent>, e: ToolEvent, r: Id)
    ensures MarkAll(es + [e], r) == MarkAll(es, r) + [Mark(e, r)]
  {
    assert (es + [e])[..|es|] == es;
  }

  lemma BindCallsSnoc(m: map<Id, Id>, calls: seq<Id>, i: nat, r: Id)
    requires i < |calls|
    ensures BindCalls(m, calls[..i + 1], r) == Bind(BindCalls(m, calls[..i], r), calls[i], r)
  {
    assert calls[..i + 1][..i] == calls[..i];
  }

  lemma DrainSnoc(c: Correlation, order: seq<TurnKey>, key: TurnKey)
    ensures Drain(c, order + [key]) == Drain(c, order) + PendingAt(c, key)
  {
    assert (order + [key])[..|order|] == order;
  }

  lemma EnumeratesOneMore(order: seq<TurnKey>, keys: set<TurnKey>, key: TurnKey)
    requires Enumerates(order, keys) && key !in keys
    ensures Enumerates(order + [key], keys + {key})
  {
    var more := order + [key];
    assert more[|order|] == key;
    assert forall i | 0 <= i < |order| :: more[i] == order[i] && more[i] in keys;
    assert forall k | k in keys + {key} :: exists i | 0 <= i < |more| :: more[i] == k by {
      forall k | k in keys + {key} ensures exists i | 0 <= i < |more| :: more[i] == k {
        if k != key {
          var i :| 0 <= i < |order| && order[i] == k;
          assert more[i] == k;
        }
      }
    }
    assert (set i | 0 <= i < |more| :: more[i]) == keys + {key};
  }

  lemma LegalWithoutOrder(s: State, f: Fact)
    ensures !f.ThreadClosed? ==> Legal(s, Take(f, []))
  {
    EnumeratesNone();
  }

  /** Fills in an event's links, field by field. */
  method EnrichEvent(event: ToolEvent, st: ResponseState, cells: map<Id, Cell>) returns (e: ToolEvent)
    ensures e == Enrich(event, st, cells)
  {
    var link := event.link;
    if link.cellId.None? {
      link := link.(cellId := Lookup(st.childCells, event.itemId));
    }
    var cell: Option<Cell> := None;
    if link.cellId.Some? {
      cell := Lookup(cells, link.cellId.value);
    }
    if cell.Some? {
      link := link.(parentCallId := if cell.value.parentCallId != event.itemId then Some(cell.value.parentCallId) else None);
    } else {
      link := link.(cellId := None, parentCallId := None);
    }
    var origin := Lookup(st.responseIds, event.itemId);
    if origin.None? && cell.Some? {
      origin := cell.value.originating;
    }
    e := event.(link := link.(originating := origin));
  }

  /** Records which response made each call, up to the cap. */
  method RecordCalls(ids: map<Id, Id>, calls: seq<Id>, r: Id) returns (ids': map<Id, Id>)
    ensures ids' == BindCalls(ids, calls, r)
  {
    ids' := ids;
    for i := 0 to |calls|
      invariant ids' == BindCalls(ids, calls[..i], r)
    {
      BindCallsSnoc(ids, calls, i, r);
      if calls[i] in ids' || |ids'| < MAX_TOOL_RESPONSE_ENTRIES {
        ids' := ids'[calls[i] := r];
      }
    }
    assert calls[..|calls|] == calls;
  }

  /** Visits the cells in any order and fills in the origins that are now known. */
  method FillOrigins(cells: map<Id, Cell>, ids: map<Id, Id>) returns (cells': map<Id, Cell>)
    ensures cells' == FillCells(cells, ids)
  {
    cells' := cells;
    var left := cells.Keys;
    while left != {}
      invariant left <= cells.Keys == cells'.Keys
      invariant forall id | id in cells :: cells'[id] == if id in left then cells[id] else FillCell(cells[id], ids)
      decreases left
    {
      var id :| id in left;
      var cell := cells'[id];
      if cell.originating.None? && cell.parentCallId in ids {
        cells' := cells'[id := cell.(originating := Some(ids[cell.parentCallId]))];
      }
      left := left - {id};
    }
  }

  /** Goes through the queue once, oldest first: each event leaves, marked, or stays. */
  method SplitQueue(queue: seq<ToolEvent>, st: ResponseState, cells: map<Id, Cell>, r: Id)
    returns (remaining: seq<ToolEvent>, out: seq<ToolEvent>)
    ensures remaining == Staying(EnrichAll(queue, st, cells), r)
    ensures out == MarkAll(Leaving(EnrichAll(queue, st, cells), r), r)
  {
    remaining, out := [], [];
    for i := 0 to |queue|
      invariant remaining == Staying(EnrichAll(queue[..i], st, cells), r)
      invariant out == MarkAll(Leaving(EnrichAll(queue[..i], st, cells), r), r)
    {
      ghost var before := EnrichAll(queue[..i], st, cells);
      var e := EnrichEvent(queue[i], st, cells);
      EnrichAllSnoc(queue, i, st, cells);
      FilterSnoc(e => IsReleased(e, r), before, e);
      FilterSnoc(e => !IsReleased(e, r), before, e);
      if e.link.originating.Some? && e.link.originating.value != r {
        MarkAllSnoc(Leaving(before, r), e, r);
        out := out + [e.(link := e.link.(subsequent := Some(r)))];
      } else {
        remaining := remaining + [e];
      }
    }
    assert queue[..|queue|] == queue;
  }

  class AnalyticsReducer {
    var requests: map<(nat, Id), Request>
    var turns: map<Id, Turn>
    var connections: map<nat, Connection>
    var threads: map<Id, Thread>
    var startedItems: map<ItemKey, nat>
    var responses: map<TurnKey, ResponseState>
    var cells: map<Id, map<Id, Cell>>
    var pendingReviews: map<Id, PendingReview>
    var summaries: map<ItemKey, ReviewSummary>

    ghost function Tools(): Correlation
      reads this
    {
      Correlation(responses, cells)
    }

    ghost function View(): State
      reads this
    {
      State(requests, turns, connections, threads, startedItems, Tools(), pendingReviews, summaries)
    }

    constructor ()
      ensures View() == INITIAL
    {
      requests, turns, connections, threads, startedItems := map[], map[], map[], map[], map[];
      responses, cells, pendingReviews, summaries := map[], map[], map[], map[];
    }

    // ---- Tool correlation ----------------------------------------------------------------

    method RecordToolEvent(key: TurnKey, event: ToolEvent, emission: Emission) returns (out: seq<ToolEvent>)
      modifies this`responses
      ensures Result(Tools(), out) == Record(old(Tools()), key, event, emission)
    {
      if key !in responses {
        responses := responses[key := NO_RESPONSES];
      }
      var st := responses[key];
      var e := EnrichEvent(event, st, if key.0 in cells then cells[key.0] else map[]);
      out := [];
      if emission.ImmediateUnlessCorrelated? && e.link.cellId.None? && e.link.originating.None? {
        out := [e];
        assert responses[key].(pending := responses[key].pending) == responses[key];
        assert responses[key := responses[key]] == responses;
      } else {
        var pending := st.pending;
        if |pending| == MAX_TOOL_RESPONSE_ENTRIES {
          out := [pending[0]];
          pending := pending[1..];
        }
        responses := responses[key := st.(pending := pending + [e])];
      }
    }

    method IngestSamplingResponse(key: TurnKey, r: Id, calls: seq<Id>) returns (out: seq<ToolEvent>)
      modifies this`responses, this`cells
      ensures Result(Tools(), out) == CompleteResponse(old(Tools()), key, r, calls)
    {
      Announcement(key, r, calls);
      var st := responses[key];
      var remaining;
      remaining, out := SplitQueue(st.pending, st, if key.0 in cells then cells[key.0] else map[], r);
      responses := responses[key := st.(pending := remaining)];
    }

    /** Ties the response's calls to it and fills in the thread's cells. */
    method Announcement(key: TurnKey, r: Id, calls: seq<Id>)
      modifies this`responses, this`cells
      ensures Tools() == Prepared(old(Tools()), key, r, calls) && key in responses
    {
      var st := if key in responses then responses[key] else NO_RESPONSES;
      var ids := RecordCalls(st.responseIds, calls, r);
      responses := responses[key := st.(responseIds := ids)];
      if key.0 in cells {
        var filled := FillOrigins(cells[key.0], ids);
        cells := cells[key.0 := filled];
      }
    }

    /** A completed turn: its queue goes out, and the cells it closed go away. */
    method FlushPendingToolEvents(key: TurnKey) returns (out: seq<ToolEvent>)
      modifies this`responses, this`cells
      ensures Result(Tools(), out) == CompleteTurn(old(Tools()), key)
    {
      out := [];
      if key in responses {
        out := responses[key].pending;
        responses := responses - {key};
      }
      if key.0 in cells {
        var kept := map id | id in cells[key.0] && cells[key.0][id].closedIn != Some(key.1) :: cells[key.0][id];
        cells := if kept == map[] then cells - {key.0} else cells[key.0 := kept];
      }
      assert responses == old(responses) - {key};
    }

    /** Empties every queue, in any order, and keeps the rest of each entry. */
    method FlushQueues() returns (out: seq<ToolEvent>, ghost order: seq<TurnKey>)
      modifies this`responses
      ensures Enumerates(order, old(responses).Keys)
      ensures Result(Tools(), out) == FlushAll(old(Tools()), order)
    {
      out, order := [], [];
      EnumeratesNone();
      var left := responses.Keys;
      while left != {}
        invariant left <= responses.Keys == old(responses).Keys
        invariant Enumerates(order, old(responses).Keys - left)
        invariant out == Drain(old(Tools()), order)
        invariant forall key | key in responses ::
                    responses[key] == if key in left then old(responses)[key] else old(responses)[key].(pending := [])
        decreases left
      {
        var key :| key in left;
        EnumeratesOneMore(order, old(responses).Keys - left, key);
        DrainSnoc(old(Tools()), order, key);
        out := out + responses[key].pending;
        responses := responses[key := responses[key].(pending := [])];
        order := order + [key];
        left := left - {key};
        assert old(responses).Keys - left == (old(responses).Keys - (left + {key})) + {key};
      }
      assert old(responses).Keys - {} == old(responses).Keys;
    }

    /** Removes the entries of one thread, in any order, sending out their queues. */
    method DropThread(threadId: Id) returns (out: seq<ToolEvent>, ghost order: seq<TurnKey>)
      modifies this`responses, this`cells
      ensures Enumerates(order, KeysOfThread(old(Tools()), threadId))
      ensures Result(Tools(), out) == CloseThread(old(Tools()), threadId, order)
    {
      out, order := [], [];
      EnumeratesNone();
      var left := set key | key in responses && key.0 == threadId;
      ghost var all := left;
      while left != {}
        invariant left <= all
        invariant Enumerates(order, all - left)
        invariant out == Drain(old(Tools()), order)
        invariant responses == old(responses) - (all - left) && cells == old(cells)
        decreases left
      {
        var key :| key in left;
        EnumeratesOneMore(order, all - left, key);
        DrainSnoc(old(Tools()), order, key);
        out := out + responses[key].pending;
        responses := responses - {key};
        order := order + [key];
        left := left - {key};
        assert all - left == (all - (left + {key})) + {key};
      }
      assert all - left == all == KeysOfThread(old(Tools()), threadId);
      cells := cells - {threadId};
    }

    // ---- Turns ---------------------------------------------------------------------------

    method MaybeEmitTurnEvent(turnId: Id) returns (out: seq<Event>)
      modifies this`turns
      ensures Outcome(View(), out) == MaybeEmitTurn(old(View()), turnId)
    {
      out := [];
      if turnId !in turns { return; }
      var turn := turns[turnId];
      if turn.threadId.None? || turn.images.None? || turn.config.None? || turn.profile.None? || turn.completed.None? {
        return;
      }
      var thread := if turn.threadId.value in threads then threads[turn.threadId.value] else NEW_THREAD;
      var connectionId := if turn.connectionId.Some? then turn.connectionId else thread.connectionId;
      if connectionId.None? || connectionId.value !in connections || thread.metadata.None? { return; }
      var connection := connections[connectionId.value];
      out := [TurnDone(turnId, turn, Context(ClientFor(thread, connection), connection.runtime, thread.metadata.value))];
      out := out + AcceptedLinesOf(turnId, turn);
      turns := turns - {turnId};
    }

    method IngestTurn(f: Fact) returns (out: seq<Event>)
      requires IsTurnFact(f)
      modifies this`turns
      ensures Outcome(View(), out) == IngestTurnFact(old(View()), f)
    {
      var turn := if f.turnId in turns then turns[f.turnId] else NEW_TURN;
      turns := turns[f.turnId := UpdatedTurn(turn, f)];
      out := [];
      if f.TurnResolvedConfig? || f.TurnTokenUsage? || f.TurnProfile? {
        out := MaybeEmitTurnEvent(f.turnId);
      }
    }

    method IngestCompletion(f: Fact) returns (out: seq<Event>)
      requires f.TurnCompleted?
      modifies this`turns, this`responses, this`cells
      ensures Outcome(View(), out) == IngestTurnCompleted(old(View()), f)
    {
      var flushed := FlushPendingToolEvents((f.threadId, f.turnId));
      var turn := if f.turnId in turns then turns[f.turnId] else NEW_TURN;
      turns := turns[f.turnId := turn.(completed := Some(f.completed))];
      var emitted := MaybeEmitTurnEvent(f.turnId);
      out := AsEvents(flushed) + emitted;
    }

    /** Answers a turn-start, steer or interrupt request, or reports its failure. */
    method Answer(f: Fact) returns (out: seq<Event>)
      requires IsResponse(f)
      modifies this`requests, this`turns
      ensures Outcome(View(), out) == IngestResponse(old(View()), f)
    {
      var id := (f.connectionId, f.requestId);
      if id !in requests { return []; }
      var request := requests[id];
      requests := requests - {id};
      if f.TurnStartResponse? {
        out := StartTurn(f.connectionId, request, f.turnId);
      } else if f.TurnSteerResponse? {
        out := Steer(f.connectionId, request, f.turnId);
      } else if f.InterruptResponse? {
        out := Interrupt(request);
      } else if request.TurnSteerRequest? {
        out := EmitSteer(f.connectionId, request, None, f.reason);
      } else {
        out := [];
      }
    }

    method StartTurn(connectionId: nat, request: Request, turnId: Id) returns (out: seq<Event>)
      modifies this`turns
      ensures Outcome(View(), out) == AnswerTurnStart(old(View()), connectionId, request, turnId)
    {
      if !request.TurnStartRequest? { return []; }
      var turn := if turnId in turns then turns[turnId] else NEW_TURN;
      turns := turns[turnId := turn.(connectionId := Some(connectionId), threadId := Some(request.threadId),
                                     images := Some(request.images))];
      out := MaybeEmitTurnEvent(turnId);
    }

    method Steer(connectionId: nat, request: Request, turnId: Id) returns (out: seq<Event>)
      modifies this`turns
      ensures Outcome(View(), out) == AnswerSteer(old(View()), connectionId, request, turnId)
    {
      if !request.TurnSteerRequest? { return []; }
      if turnId in turns {
        turns := turns[turnId := turns[turnId].(steers := turns[turnId].steers + 1)];
      }
      out := EmitSteer(connectionId, request, Some(turnId), None);
    }

    method Interrupt(request: Request) returns (out: seq<Event>)
      modifies this`turns
      ensures Outcome(View(), out) == AnswerInterrupt(old(View()), request)
    {
      if !request.InterruptRequest? { return []; }
      var turn := if request.turnId in turns then turns[request.turnId] else NEW_TURN;
      var earliest := if turn.interruptAt.Some? then turn.interruptAt.value else request.requestedAt;
      if request.requestedAt < earliest {
        earliest := request.requestedAt;
      }
      turns := turns[request.turnId := turn.(interruptAt := Some(earliest))];
      out := MaybeEmitTurnEvent(request.turnId);
    }

    method EmitSteer(connectionId: nat, request: Request, accepted: Option<Id>, rejection: Option<string>)
      returns (out: seq<Event>)
      requires request.TurnSteerRequest?
      ensures out == SteerEvent(View(), connectionId, request, accepted, rejection)
    {
      out := [];
      if connectionId !in connections || request.threadId !in threads { return; }
      var thread, connection := threads[request.threadId], connections[connectionId];
      if thread.metadata.None? { return; }
      out := [Steered(request.threadId, request.expectedTurnId, accepted, request.images, request.createdAt, rejection,
                      Context(ClientFor(thread, connection), connection.runtime, thread.metadata.value))];
    }

    // ---- Items and code mode ---------------------------------------------------------------

    /** The thread's connection first, then its metadata. */
    method LookUpThread(threadId: Id) returns (r: Lookedup)
      ensures r == ThreadContext(View(), threadId)
    {
      if threadId !in threads || threads[threadId].connectionId.None? { return Lost(MissingThreadConnection); }
      var thread := threads[threadId];
      if thread.connectionId.value !in connections { return Lost(MissingConnection(thread.connectionId.value)); }
      var connection := connections[thread.connectionId.value];
      if thread.metadata.None? { return Lost(MissingMetadata); }
      r := Found(Context(ClientFor(thread, connection), connection.runtime, thread.metadata.value));
    }

    method IngestItem(f: Fact) returns (out: seq<Event>)
      requires f.ItemCompleted?
      modifies this`turns, this`startedItems, this`summaries, this`responses
      ensures Outcome(View(), out) == IngestItemCompleted(old(View()), f)
    {
      var startedAt := TakeItem(f);
      if startedAt.None? || f.at < 0 { return []; }
      var context := LookUpThread(f.threadId);
      if context.Lost? { return []; }
      var emitted := ReportItem(f, ItemKey(f.threadId, f.turnId, f.item.id), startedAt.value, context.context);
      out := AsEvents(emitted);
    }

    /** Counts the item for its turn and takes its start, if the turn is known. */
    method TakeItem(f: Fact) returns (startedAt: Option<nat>)
      requires f.ItemCompleted?
      modifies this`turns, this`startedItems
      ensures View() == ItemTaken(old(View()), f)
      ensures startedAt == if f.item.ToolItem? && f.turnId in old(turns) then Lookup(old(startedItems), ItemKeyOf(f)) else None
    {
      if f.item.OtherItem? || f.turnId !in turns { return None; }
      turns := turns[f.turnId := turns[f.turnId].(counts := CountItem(turns[f.turnId].counts, f.item))];
      if f.item.SubAgentActivity? { return None; }
      var key := ItemKey(f.threadId, f.turnId, f.item.id);
      startedAt := Lookup(startedItems, key);
      startedItems := startedItems - {key};
    }

    /** Reports the item if it is reportable, with its reviews, which are then forgotten. */
    method ReportItem(f: Fact, key: ItemKey, startedAt: nat, context: Context) returns (out: seq<ToolEvent>)
      requires f.ItemCompleted? && f.item.ToolItem? && f.at >= 0
      modifies this`summaries, this`responses
      ensures summaries == old(summaries) - {key}
      ensures var event := ToolEvent(f.item.kind, f.threadId, f.turnId, f.item.id, context, startedAt, f.at,
                                     SummaryAt(old(View()), key), f.item.detail, UNLINKED);
              Result(Tools(), out) == if IsReportable(f.item) then
                                        Record(old(Tools()), (f.threadId, f.turnId), event, ImmediateUnlessCorrelated)
                                      else Result(old(Tools()), [])
    {
      out := [];
      if f.item.kind.WebSearch? || f.item.kind.ImageGeneration? || f.item.terminal {
        var event := ToolEvent(f.item.kind, f.threadId, f.turnId, f.item.id, context, startedAt, f.at,
                               if key in summaries then summaries[key] else NO_REVIEWS, f.item.detail, UNLINKED);
        out := RecordToolEvent((f.threadId, f.turnId), event, ImmediateUnlessCorrelated);
      }
      summaries := summaries - {key};
    }

    method IngestCodeModeCall(f: CodeModeFact) returns (out: seq<Event>)
      modifies this`turns, this`responses, this`cells
      ensures Outcome(View(), out) == IngestCodeMode(old(View()), f)
    {
      var context := LookUpThread(f.threadId);
      if context.Lost? { return []; }
      var emitted;
      if f.CallCompleted? {
        emitted := FinishCall(f, context.context);
      } else {
        emitted := Correlate(f);
      }
      out := AsEvents(emitted);
    }

    method FinishCall(f: CodeModeFact, context: Context) returns (out: seq<ToolEvent>)
      requires f.CallCompleted? && ThreadContext(View(), f.threadId) == Found(context)
      modifies this`turns, this`responses
      ensures View() == CountCall(old(View()), f).(tools := Tools())
      ensures Result(Tools(), out) == Record(old(Tools()), (f.threadId, f.turnId), CallEvent(old(View()), f), AwaitResponse)
    {
      var event := ToolEvent(DynamicToolCall, f.threadId, f.turnId, f.callId, context, f.startedAt, f.completedAt,
                             NO_REVIEWS, f.detail, UNLINKED.(cellId := f.inCell));
      var turn := if f.turnId in turns then turns[f.turnId] else NEW_TURN;
      turns := turns[f.turnId := turn.(counts := turn.counts.(total := turn.counts.total + 1,
                                                              dynamicTool := turn.counts.dynamicTool + 1))];
      out := RecordToolEvent((f.threadId, f.turnId), event, AwaitResponse);
    }

    method Correlate(f: CodeModeFact) returns (out: seq<ToolEvent>)
      requires !f.CallCompleted? && ThreadContext(View(), f.threadId).Found?
      modifies this`responses, this`cells
      ensures Result(Tools(), out) == Apply(old(Tools()), CodeModeMove(old(View()), f))
    {
      out := [];
      var key := (f.threadId, f.turnId);
      match f {
        case CellStarted(_, _, callId, cellId) => OpenCell(key, callId, cellId);
        case ChildStarted(_, _, callId, cellId) => OpenChild(key, callId, cellId);
        case CellClosed(_, _, cellId) => ShutCell(key, cellId);
        case ResponseCompleted(_, _, r, calls) => out := IngestSamplingResponse(key, r, calls);
      }
    }

    method ShutCell(key: TurnKey, cellId: Id)
      modifies this`cells
      ensures Tools() == CloseCell(old(Tools()), key, cellId)
    {
      if key.0 in cells && cellId in cells[key.0] {
        var cell := cells[key.0][cellId];
        cells := cells[key.0 := cells[key.0][cellId := cell.(closedIn := Some(key.1))]];
      }
    }

    method OpenCell(key: TurnKey, callId: Id, cellId: Id)
      modifies this`cells
      ensures Tools() == StartCell(old(Tools()), key, callId, cellId)
    {
      var mine := if key.0 in cells then cells[key.0] else map[];
      if cellId in mine || |mine| < MAX_TOOL_RESPONSE_ENTRIES {
        var origin: Option<Id> := None;
        if key in responses {
          origin := Lookup(responses[key].responseIds, callId);
        }
        mine := mine[cellId := Cell(callId, origin, None)];
      }
      cells := cells[key.0 := mine];
    }

    method OpenChild(key: TurnKey, callId: Id, cellId: Id)
      modifies this`responses
      ensures Tools() == StartChild(old(Tools()), key, callId, cellId)
    {
      if key.0 in cells && cellId in cells[key.0] {
        var st := if key in responses then responses[key] else NO_RESPONSES;
        if callId in st.childCells || |st.childCells| < MAX_TOOL_RESPONSE_ENTRIES {
          st := st.(childCells := st.childCells[callId := cellId]);
        }
        responses := responses[key := st];
      }
    }

    // ---- Reviews ---------------------------------------------------------------------------

    method RecordItemReview(item: ItemKey, reviewer: Reviewer, outcome: ApprovalOutcome, review: PendingReview)
      modifies this`summaries
      ensures summaries == old(summaries)[item := Summarize(SummaryAt(old(View()), item), reviewer, outcome, review)]
    {
      var sum := if item in summaries then summaries[item] else NO_REVIEWS;
      sum := sum.(reviews := sum.reviews + 1);
      match reviewer {
        case Guardian => sum := sum.(guardian := sum.guardian + 1);
        case User => sum := sum.(user := sum.user + 1);
      }
      sum := sum.(outcome := Some(outcome), permissions := sum.permissions || review.permissions,
                  network := sum.network || review.network);
      summaries := summaries[item := sum];
    }

    method EmitReviewEvent(review: PendingReview, reviewer: Reviewer, status: ReviewStatus, resolution: Resolution, at: nat)
      returns (out: seq<Event>)
      modifies this`summaries
      ensures Outcome(View(), out) == EmitReview(old(View()), review, reviewer, status, resolution, at)
    {
      var item := ReviewedItem(review);
      if item.Some? {
        RecordItemReview(item.value, reviewer, OutcomeOf(reviewer, status, resolution), review);
      }
      var context := LookUpThread(review.threadId);
      out := if context.Found? then [Reviewed(review, reviewer, status, resolution, at, context.context)] else [];
    }

    // ---- Every fact --------------------------------------------------------------------------

    method IngestOther(f: Fact) returns (out: seq<Event>)
      requires IsPlain(f)
      modifies this`requests, this`connections, this`threads, this`startedItems, this`pendingReviews, this`summaries
      ensures Outcome(View(), out) == IngestPlain(old(View()), f)
    {
      out := [];
      match f {
        case Initialize(id, connection) => connections := connections[id := connection];
        case ClientRequest(id, requestId, request) => requests := requests[(id, requestId) := request];
        case ThreadResponse(_, _, _, _, _) => out := StartThread(f);
        case SubAgentStarted(_, _, _, _, _) => out := StartSubAgent(f);
        case ItemStarted(threadId, turnId, item, at) =>
          if item.ToolItem? && at >= 0 {
            startedItems := startedItems[ItemKey(threadId, turnId, item.id) := at];
          }
        case GuardianReviewCompleted(_, _, _, _, _, _, _, _) =>
          if f.verdict.Some? && f.from >= 0 && f.at >= 0 {
            out := EmitReviewEvent(GuardianReview(f), Guardian, f.verdict.value, NoResolution, f.at);
          }
        case ApprovalRequested(requestId, _, _, _, _, from) =>
          if from >= 0 {
            pendingReviews := pendingReviews[requestId := ApprovalReview(f)];
          }
        case ApprovalAnswered(requestId, status, resolution, at) =>
          if requestId in pendingReviews {
            var review := pendingReviews[requestId];
            pendingReviews := pendingReviews - {requestId};
            out := EmitReviewEvent(review, User, status, resolution, at);
          }
        case ThreadScoped(threadId, detail) =>
          var context := LookUpThread(threadId);
          if context.Found? {
            out := [ThreadReport(threadId, detail, context.context)];
          }
        case Unscoped(details) => out := DirectEvents(details);
        case Ignored =>
      }
    }

    method StartThread(f: Fact) returns (out: seq<Event>)
      requires f.ThreadResponse?
      modifies this`threads
      ensures Outcome(View(), out) == IngestThread(old(View()), f)
    {
      if f.connectionId !in connections { return []; }
      var thread := if f.threadId in threads then threads[f.threadId] else NEW_THREAD;
      if f.originator.Some? {
        thread := thread.(originator := f.originator);
      }
      threads := threads[f.threadId := thread.(connectionId := Some(f.connectionId), metadata := Some(f.metadata))];
      out := [ThreadStarted(f.threadId, f.detail)];
    }

    /** A sub-agent's thread keeps what it knows and inherits its parent's connection if it has none. */
    method StartSubAgent(f: Fact) returns (out: seq<Event>)
      requires f.SubAgentStarted?
      modifies this`threads
      ensures Outcome(View(), out) == IngestSubAgent(old(View()), f)
    {
      var inherited: Option<nat> := None;
      if f.parentThreadId.Some? && f.parentThreadId.value in threads {
        inherited := threads[f.parentThreadId.value].connectionId;
      }
      var thread := if f.threadId in threads then threads[f.threadId] else NEW_THREAD;
      if thread.originator.None? { thread := thread.(originator := Some(f.productClientId)); }
      if thread.metadata.None? { thread := thread.(metadata := Some(f.metadata)); }
      if thread.connectionId.None? { thread := thread.(connectionId := inherited); }
      threads := threads[f.threadId := thread];
      out := [ThreadStarted(f.threadId, f.detail)];
    }

    /** One fact folded in; `order` is the order in which a closing thread's queues happened to be visited. */
    method IngestFact(f: Fact) returns (out: seq<Event>, ghost order: seq<TurnKey>)
      modifies this
      ensures Legal(old(View()), Take(f, order))
      ensures Outcome(View(), out) == Step(old(View()), Take(f, order))
    {
      order := [];
      LegalWithoutOrder(old(View()), f);
      if IsPlain(f) { out := IngestOther(f); }
      else if IsResponse(f) { out := Answer(f); }
      else if IsTurnFact(f) { out := IngestTurn(f); }
      else if f.TurnCompleted? { out := IngestCompletion(f); }
      else if f.ItemCompleted? { out := IngestItem(f); }
      else if f.CodeMode? { out := IngestCodeModeCall(f.call); }
      else {
        var emitted;
        emitted, order := DropThread(f.threadId);
        out := AsEvents(emitted);
      }
    }

    method Flush() returns (out: seq<Event>, ghost order: seq<TurnKey>)
      modifies this`responses
      ensures Legal(old(View()), Reducer.Flush(order))
      ensures Outcome(View(), out) == Step(old(View()), Reducer.Flush(order))
    {
      var emitted;
      emitted, order := FlushQueues();
      out := AsEvents(emitted);
    }
  }
}
