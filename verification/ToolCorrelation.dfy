/**
  Tool-event correlation: events wait in a bounded queue per turn until the sampling
  response that follows their tool call is known. Code-mode cells outlive turns and
  lend their origin to the calls they make.
 */
module ToolCorrelation {
  import opened Prelude
  import opened AnalyticsTypes

  datatype Cell = Cell(parentCallId: Id, originating: Option<Id>, closedIn: Option<Id>)

  datatype ResponseState = ResponseState(
    responseIds: map<Id, Id>,     // call id -> the response that made the call
    childCells: map<Id, Id>,      // call id -> the cell that made the call
    pending: seq<ToolEvent>)

  const NO_RESPONSES := ResponseState(map[], map[], [])

  datatype Correlation = Correlation(
    responses: map<TurnKey, ResponseState>,
    cells: map<Id, map<Id, Cell>>)

  datatype Emission = ImmediateUnlessCorrelated | AwaitResponse

  datatype Result = Result(correlation: Correlation, out: seq<ToolEvent>)

  function ResponsesAt(c: Correlation, key: TurnKey): ResponseState {
    if key in c.responses then c.responses[key] else NO_RESPONSES
  }

  function CellsAt(c: Correlation, threadId: Id): map<Id, Cell> {
    if threadId in c.cells then c.cells[threadId] else map[]
  }

  function PendingAt(c: Correlation, key: TurnKey): seq<ToolEvent> {
    ResponsesAt(c, key).pending
  }

  /** Adds or replaces an entry unless a new one would exceed the cap. */
  function Bind<V>(m: map<Id, V>, k: Id, v: V): map<Id, V> {
    if k in m || |m| < MAX_TOOL_RESPONSE_ENTRIES then m[k := v] else m
  }

  // ---- Enrichment ----------------------------------------------------------------

  function CellIdOf(e: ToolEvent, st: ResponseState): Option<Id> {
    if e.link.cellId.Some? then e.link.cellId else Lookup(st.childCells, e.itemId)
  }

  function CellOf(e: ToolEvent, st: ResponseState, cells: map<Id, Cell>): Option<Cell> {
    match CellIdOf(e, st)
    case Some(id) => Lookup(cells, id)
    case None => None
  }

  function OriginOf(e: ToolEvent, st: ResponseState, cells: map<Id, Cell>): Option<Id> {
    match Lookup(st.responseIds, e.itemId)
    case Some(r) => Some(r)
    case None =>
      match CellOf(e, st, cells)
      case Some(cell) => cell.originating
      case None => None
  }

  function Enrich(e: ToolEvent, st: ResponseState, cells: map<Id, Cell>): ToolEvent {
    var cell := CellOf(e, st, cells);
    e.(link := Link(
         if cell.Some? then CellIdOf(e, st) else None,
         if cell.Some? && cell.value.parentCallId != e.itemId then Some(cell.value.parentCallId) else None,
         OriginOf(e, st, cells),
         e.link.subsequent))
  }

  function EnrichAll(es: seq<ToolEvent>, st: ResponseState, cells: map<Id, Cell>): seq<ToolEvent> {
    if |es| == 0 then [] else EnrichAll(es[..|es| - 1], st, cells) + [Enrich(es[|es| - 1], st, cells)]
  }

  // ---- Recording -------------------------------------------------------------------

  predicate IsCorrelated(e: ToolEvent) {
    e.link.cellId.Some? || e.link.originating.Some?
  }

  function SetPending(c: Correlation, key: TurnKey, pending: seq<ToolEvent>): Correlation {
    c.(responses := c.responses[key := ResponsesAt(c, key).(pending := pending)])
  }

  /** Queues an event, pushing out the oldest when the queue is full. */
  function Enqueue(pending: seq<ToolEvent>, e: ToolEvent): (seq<ToolEvent>, seq<ToolEvent>) {
    if |pending| == MAX_TOOL_RESPONSE_ENTRIES then (pending[1..] + [e], [pending[0]])
    else (pending + [e], [])
  }

  function Record(c: Correlation, key: TurnKey, event: ToolEvent, emission: Emission): Result {
    var e := Enrich(event, ResponsesAt(c, key), CellsAt(c, key.0));
    if emission.ImmediateUnlessCorrelated? && !IsCorrelated(e) then
      Result(SetPending(c, key, PendingAt(c, key)), [e])
    else
      var (pending, out) := Enqueue(PendingAt(c, key), e);
      Result(SetPending(c, key, pending), out)
  }

  // ---- Cells -----------------------------------------------------------------------

  function StartCell(c: Correlation, key: TurnKey, callId: Id, cellId: Id): Correlation {
    var origin := Lookup(ResponsesAt(c, key).responseIds, callId);
    c.(cells := c.cells[key.0 := Bind(CellsAt(c, key.0), cellId, Cell(callId, origin, None))])
  }

  function StartChild(c: Correlation, key: TurnKey, callId: Id, cellId: Id): Correlation {
    if cellId !in CellsAt(c, key.0) then c
    else
      var st := ResponsesAt(c, key);
      c.(responses := c.responses[key := st.(childCells := Bind(st.childCells, callId, cellId))])
  }

  function CloseCell(c: Correlation, key: TurnKey, cellId: Id): Correlation {
    if cellId !in CellsAt(c, key.0) then c
    else
      var cells := CellsAt(c, key.0);
      c.(cells := c.cells[key.0 := cells[cellId := cells[cellId].(closedIn := Some(key.1))]])
  }

  // ---- A sampling response completes ---------------------------------------------------

  function BindCalls(m: map<Id, Id>, calls: seq<Id>, responseId: Id): map<Id, Id> {
    if |calls| == 0 then m
    else Bind(BindCalls(m, calls[..|calls| - 1], responseId), calls[|calls| - 1], responseId)
  }

  function FillCell(cell: Cell, responseIds: map<Id, Id>): Cell {
    if cell.originating.None? then cell.(originating := Lookup(responseIds, cell.parentCallId)) else cell
  }

  /** Cells that do not know their origin yet learn it from their parent call. */
  function FillCells(cells: map<Id, Cell>, responseIds: map<Id, Id>): map<Id, Cell> {
    map id | id in cells :: FillCell(cells[id], responseIds)
  }

  predicate IsReleased(e: ToolEvent, responseId: Id) {
    e.link.originating.Some? && e.link.originating.value != responseId
  }

  function MarkAll(es: seq<ToolEvent>, responseId: Id): seq<ToolEvent> {
    if |es| == 0 then []
    else MarkAll(es[..|es| - 1], responseId) + [Mark(es[|es| - 1], responseId)]
  }

  function Mark(e: ToolEvent, responseId: Id): ToolEvent {
    e.(link := e.link.(subsequent := Some(responseId)))
  }

  function Announce(st: ResponseState, calls: seq<Id>, responseId: Id): ResponseState {
    st.(responseIds := BindCalls(st.responseIds, calls, responseId))
  }

  /** The correlation once the response's calls are recorded and cells filled, before the queue is gone through. */
  function Prepared(c: Correlation, key: TurnKey, responseId: Id, calls: seq<Id>): Correlation {
    var st := Announce(ResponsesAt(c, key), calls, responseId);
    Correlation(c.responses[key := st],
                if key.0 in c.cells then c.cells[key.0 := FillCells(c.cells[key.0], st.responseIds)] else c.cells)
  }

  function EnrichedQueue(c: Correlation, key: TurnKey): seq<ToolEvent> {
    EnrichAll(PendingAt(c, key), ResponsesAt(c, key), CellsAt(c, key.0))
  }

  function Leaving(es: seq<ToolEvent>, responseId: Id): seq<ToolEvent> {
    Filter(e => IsReleased(e, responseId), es)
  }

  function Staying(es: seq<ToolEvent>, responseId: Id): seq<ToolEvent> {
    Filter(e => !IsReleased(e, responseId), es)
  }

  /**
    The queue is split in two, both parts in queue order: events whose origin is now
    known and differs from the new response leave, marked with it; the rest stay.
   */
  function CompleteResponse(c: Correlation, key: TurnKey, responseId: Id, calls: seq<Id>): Result {
    var c1 := Prepared(c, key, responseId, calls);
    var enriched := EnrichedQueue(c1, key);
    Result(SetPending(c1, key, Staying(enriched, responseId)), MarkAll(Leaving(enriched, responseId), responseId))
  }

  // ---- Flushing ------------------------------------------------------------------------

  /** A turn completes: its queue is emitted, and the cells it closed are forgotten. */
  function CompleteTurn(c: Correlation, key: TurnKey): Result {
    var kept := map id | id in CellsAt(c, key.0) && CellsAt(c, key.0)[id].closedIn != Some(key.1) :: CellsAt(c, key.0)[id];
    var cells := if key.0 !in c.cells then c.cells
                 else if kept == map[] then c.cells - {key.0}
                 else c.cells[key.0 := kept];
    Result(Correlation(c.responses - {key}, cells), PendingAt(c, key))
  }

  /** The queues of `order`, one after another. */
  function Drain(c: Correlation, order: seq<TurnKey>): seq<ToolEvent> {
    if |order| == 0 then [] else Drain(c, order[..|order| - 1]) + PendingAt(c, order[|order| - 1])
  }

  function KeysOfThread(c: Correlation, threadId: Id): set<TurnKey> {
    set key | key in c.responses && key.0 == threadId
  }

  /** A thread closes: all its queues are emitted, in whatever order the table yields them. */
  function CloseThread(c: Correlation, threadId: Id, order: seq<TurnKey>): Result {
    Result(Correlation(c.responses - KeysOfThread(c, threadId), c.cells - {threadId}), Drain(c, order))
  }

  function FlushAll(c: Correlation, order: seq<TurnKey>): Result {
    Result(c.(responses := map key | key in c.responses :: c.responses[key].(pending := [])), Drain(c, order))
  }

  /** `order` lists each element of `keys` once. */
  predicate Enumerates(order: seq<TurnKey>, keys: set<TurnKey>) {
    && (forall i, j | 0 <= i < j < |order| :: order[i] != order[j])
    && (set i | 0 <= i < |order| :: order[i]) == keys
  }

  lemma EnumeratesNone()
    ensures Enumerates([], {})
  {
    var none: seq<TurnKey> := [];
    assert (set i | 0 <= i < |none| :: none[i]) == {};
  }

  // ---- All operations ----------------------------------------------------------------------

  datatype Move =
    | Stay
    | Arrival(key: TurnKey, event: ToolEvent, emission: Emission)
    | CellStart(key: TurnKey, callId: Id, cellId: Id)
    | ChildStart(key: TurnKey, callId: Id, cellId: Id)
    | CellClose(key: TurnKey, cellId: Id)
    | Response(key: TurnKey, responseId: Id, calls: seq<Id>)
    | TurnEnd(key: TurnKey)
    | ThreadEnd(threadId: Id, order: seq<TurnKey>)
    | FlushEverything(order: seq<TurnKey>)

  function Apply(c: Correlation, m: Move): Result {
    match m
    case Stay => Result(c, [])
    case Arrival(key, e, emission) => Record(c, key, e, emission)
    case CellStart(key, callId, cellId) => Result(StartCell(c, key, callId, cellId), [])
    case ChildStart(key, callId, cellId) => Result(StartChild(c, key, callId, cellId), [])
    case CellClose(key, cellId) => Result(CloseCell(c, key, cellId), [])
    case Response(key, r, calls) => CompleteResponse(c, key, r, calls)
    case TurnEnd(key) => CompleteTurn(c, key)
    case ThreadEnd(threadId, order) => CloseThread(c, threadId, order)
    case FlushEverything(order) => FlushAll(c, order)
  }

  /** Events arrive at their own turn and unmarked; flushes visit exactly the queues concerned. */
  predicate Admissible(c: Correlation, m: Move) {
    match m
    case Arrival(key, e, _) => KeyOf(e) == key && e.link.subsequent.None?
    case ThreadEnd(threadId, order) => Enumerates(order, KeysOfThread(c, threadId))
    case FlushEverything(order) => Enumerates(order, c.responses.Keys)
    case _ => true
  }

  // ---- Caps ------------------------------------------------------------------------------

  predicate ResponseWithinCaps(st: ResponseState) {
    && |st.responseIds| <= MAX_TOOL_RESPONSE_ENTRIES
    && |st.childCells| <= MAX_TOOL_RESPONSE_ENTRIES
    && |st.pending| <= MAX_TOOL_RESPONSE_ENTRIES
  }

  predicate WithinCaps(c: Correlation) {
    && (forall key | key in c.responses :: ResponseWithinCaps(c.responses[key]))
    && (forall t | t in c.cells :: |c.cells[t]| <= MAX_TOOL_RESPONSE_ENTRIES)
  }

  lemma BindWithinCap<V>(m: map<Id, V>, k: Id, v: V)
    requires |m| <= MAX_TOOL_RESPONSE_ENTRIES
    ensures |Bind(m, k, v)| <= MAX_TOOL_RESPONSE_ENTRIES
  {
    assert m[k := v].Keys == m.Keys + {k};
    if k in m {
      assert m.Keys + {k} == m.Keys;
    }
  }

  lemma {:induction false} BindCallsWithinCap(m: map<Id, Id>, calls: seq<Id>, r: Id)
    requires |m| <= MAX_TOOL_RESPONSE_ENTRIES
    ensures |BindCalls(m, calls, r)| <= MAX_TOOL_RESPONSE_ENTRIES
  {
    if |calls| > 0 {
      BindCallsWithinCap(m, calls[..|calls| - 1], r);
      BindWithinCap(BindCalls(m, calls[..|calls| - 1], r), calls[|calls| - 1], r);
    }
  }

  lemma {:induction false} EnrichAllAt(es: seq<ToolEvent>, st: ResponseState, cells: map<Id, Cell>)
    ensures |EnrichAll(es, st, cells)| == |es|
    ensures forall i | 0 <= i < |es| :: EnrichAll(es, st, cells)[i] == Enrich(es[i], st, cells)
  {
    if |es| > 0 {
      EnrichAllAt(es[..|es| - 1], st, cells);
    }
  }

  lemma SetPendingWithinCaps(c: Correlation, key: TurnKey, pending: seq<ToolEvent>)
    requires WithinCaps(c) && |pending| <= MAX_TOOL_RESPONSE_ENTRIES
    ensures WithinCaps(SetPending(c, key, pending))
  {
  }

  lemma RecordWithinCaps(c: Correlation, key: TurnKey, e: ToolEvent, emission: Emission)
    requires WithinCaps(c)
    ensures WithinCaps(Record(c, key, e, emission).correlation)
  {
    var e' := Enrich(e, ResponsesAt(c, key), CellsAt(c, key.0));
    SetPendingWithinCaps(c, key, PendingAt(c, key));
    SetPendingWithinCaps(c, key, Enqueue(PendingAt(c, key), e').0);
  }

  lemma StartCellWithinCaps(c: Correlation, key: TurnKey, callId: Id, cellId: Id)
    requires WithinCaps(c)
    ensures WithinCaps(StartCell(c, key, callId, cellId))
  {
    BindWithinCap(CellsAt(c, key.0), cellId, Cell(callId, Lookup(ResponsesAt(c, key).responseIds, callId), None));
  }

  lemma StartChildWithinCaps(c: Correlation, key: TurnKey, callId: Id, cellId: Id)
    requires WithinCaps(c)
    ensures WithinCaps(StartChild(c, key, callId, cellId))
  {
    BindWithinCap(ResponsesAt(c, key).childCells, callId, cellId);
  }

  lemma CloseCellWithinCaps(c: Correlation, key: TurnKey, cellId: Id)
    requires WithinCaps(c)
    ensures WithinCaps(CloseCell(c, key, cellId))
  {
    if cellId in CellsAt(c, key.0) {
      var cells := CellsAt(c, key.0);
      assert cells[cellId := cells[cellId].(closedIn := Some(key.1))].Keys == cells.Keys;
    }
  }

  lemma PreparedWithinCaps(c: Correlation, key: TurnKey, r: Id, calls: seq<Id>)
    requires WithinCaps(c)
    ensures WithinCaps(Prepared(c, key, r, calls))
  {
    BindCallsWithinCap(ResponsesAt(c, key).responseIds, calls, r);
    if key.0 in c.cells {
      assert CellsAt(Prepared(c, key, r, calls), key.0).Keys == c.cells[key.0].Keys;
    }
  }

  lemma CompleteResponseWithinCaps(c: Correlation, key: TurnKey, r: Id, calls: seq<Id>)
    requires WithinCaps(c)
    ensures WithinCaps(CompleteResponse(c, key, r, calls).correlation)
  {
    var c1 := Prepared(c, key, r, calls);
    PreparedWithinCaps(c, key, r, calls);
    EnrichAllAt(PendingAt(c1, key), ResponsesAt(c1, key), CellsAt(c1, key.0));
    FilterAll(e => !IsReleased(e, r), e => true, EnrichedQueue(c1, key));
    SetPendingWithinCaps(c1, key, Staying(EnrichedQueue(c1, key), r));
  }

  lemma SubmapCard<V>(m: map<Id, V>, n: map<Id, V>)
    requires m.Keys <= n.Keys
    ensures |m| <= |n|
  {
    KeysCard(m.Keys, n.Keys);
  }

  lemma {:induction false} KeysCard(a: set<Id>, b: set<Id>)
    requires a <= b
    ensures |a| <= |b|
  {
    if x :| x in a {
      KeysCard(a - {x}, b - {x});
    }
  }

  lemma CompleteTurnWithinCaps(c: Correlation, key: TurnKey)
    requires WithinCaps(c)
    ensures WithinCaps(CompleteTurn(c, key).correlation)
  {
    var c' := CompleteTurn(c, key).correlation;
    if key.0 in c'.cells {
      SubmapCard(c'.cells[key.0], c.cells[key.0]);
    }
  }

  // ---- Conservation ------------------------------------------------------------------------

  /** The events of one turn among `es`, links aside, with multiplicity. */
  function CoresAt(es: seq<ToolEvent>, key: TurnKey): multiset<ToolEvent> {
    if |es| == 0 then multiset{} else AddCore(CoresAt(es[..|es| - 1], key), es[|es| - 1], key)
  }

  function AddCore(m: multiset<ToolEvent>, e: ToolEvent, key: TurnKey): multiset<ToolEvent> {
    if KeyOf(e) == key then m + multiset{Core(e)} else m
  }

  /** Every queue holds events of its own turn only. */
  predicate Housed(c: Correlation) {
    forall key | key in c.responses :: AllOf(c.responses[key].pending, key)
  }

  predicate AllOf(es: seq<ToolEvent>, key: TurnKey) {
    forall i | 0 <= i < |es| :: KeyOf(es[i]) == key
  }

  /**
    One step's balance for one turn: what waited plus what was handed over is what
    waits now plus what was emitted.
   */
  predicate Balanced(c: Correlation, handed: seq<ToolEvent>, r: Result, key: TurnKey) {
    CoresAt(PendingAt(c, key), key) + CoresAt(handed, key)
    == CoresAt(PendingAt(r.correlation, key), key) + CoresAt(r.out, key)
  }

  lemma CoresSnoc(es: seq<ToolEvent>, e: ToolEvent, key: TurnKey)
    ensures CoresAt(es + [e], key) == AddCore(CoresAt(es, key), e, key)
  {
    assert (es + [e])[..|es|] == es;
  }

  lemma {:induction false} CoresConcat(a: seq<ToolEvent>, b: seq<ToolEvent>, key: TurnKey)
    ensures CoresAt(a + b, key) == CoresAt(a, key) + CoresAt(b, key)
  {
    if |b| == 0 {
      assert a + b == a;
    } else {
      CoresConcat(a, b[..|b| - 1], key);
      assert (a + b)[..|a + b| - 1] == a + b[..|b| - 1];
    }
  }

  lemma {:induction false} CoresEnrichAll(es: seq<ToolEvent>, st: ResponseState, cells: map<Id, Cell>, key: TurnKey)
    ensures CoresAt(EnrichAll(es, st, cells), key) == CoresAt(es, key)
  {
    if |es| > 0 {
      var init := es[..|es| - 1];
      CoresEnrichAll(init, st, cells, key);
      CoresSnoc(EnrichAll(init, st, cells), Enrich(es[|es| - 1], st, cells), key);
    }
  }

  lemma {:induction false} CoresMarkAll(es: seq<ToolEvent>, r: Id, key: TurnKey)
    ensures CoresAt(MarkAll(es, r), key) == CoresAt(es, key)
  {
    if |es| > 0 {
      var init := es[..|es| - 1];
      CoresMarkAll(init, r, key);
      CoresSnoc(MarkAll(init, r), Mark(es[|es| - 1], r), key);
    }
  }

  lemma {:induction false} CoresPartition(es: seq<ToolEvent>, r: Id, key: TurnKey)
    ensures CoresAt(Leaving(es, r), key) + CoresAt(Staying(es, r), key) == CoresAt(es, key)
  {
    if |es| > 0 {
      var init, last := es[..|es| - 1], es[|es| - 1];
      CoresPartition(init, r, key);
      CoresSnoc(Leaving(init, r), last, key);
      CoresSnoc(Staying(init, r), last, key);
    }
  }

  lemma {:induction false} CoresElsewhere(es: seq<ToolEvent>, home: TurnKey, key: TurnKey)
    requires AllOf(es, home) && home != key
    ensures CoresAt(es, key) == multiset{}
  {
    if |es| > 0 {
      CoresElsewhere(es[..|es| - 1], home, key);
    }
  }

  lemma EnqueueBalanced(pending: seq<ToolEvent>, e: ToolEvent, key: TurnKey)
    ensures var (pending', out) := Enqueue(pending, e);
            CoresAt(pending, key) + CoresAt([e], key) == CoresAt(pending', key) + CoresAt(out, key)
  {
    if |pending| == MAX_TOOL_RESPONSE_ENTRIES {
      var rest := pending[1..];
      assert pending == [pending[0]] + rest;
      CoresConcat([pending[0]], rest, key);
      CoresConcat(rest, [e], key);
    } else {
      CoresConcat(pending, [e], key);
    }
  }

  lemma CoresOfOne(a: ToolEvent, b: ToolEvent, key: TurnKey)
    requires KeyOf(a) == KeyOf(b) && Core(a) == Core(b)
    ensures CoresAt([a], key) == CoresAt([b], key)
  {
    assert [a][..0] == [] && [b][..0] == [];
  }

  lemma SetPendingHoused(c: Correlation, home: TurnKey, pending: seq<ToolEvent>)
    requires Housed(c) && AllOf(pending, home)
    ensures Housed(SetPending(c, home, pending))
  {
  }

  /** Changing one queue is balanced everywhere as soon as it is balanced at home. */
  lemma BalancedElsewhere(c: Correlation, handed: seq<ToolEvent>, r: Result, home: TurnKey, key: TurnKey)
    requires AllOf(handed, home) && AllOf(r.out, home)
    requires key != home && PendingAt(r.correlation, key) == PendingAt(c, key)
    ensures Balanced(c, handed, r, key)
  {
    CoresElsewhere(handed, home, key);
    CoresElsewhere(r.out, home, key);
  }

  lemma RecordBalanced(c: Correlation, home: TurnKey, e: ToolEvent, emission: Emission, key: TurnKey)
    requires Housed(c) && KeyOf(e) == home
    ensures Balanced(c, [e], Record(c, home, e, emission), key)
  {
    var e' := Enrich(e, ResponsesAt(c, home), CellsAt(c, home.0));
    var r := Record(c, home, e, emission);
    if key == home {
      CoresOfOne(e, e', key);
      EnqueueBalanced(PendingAt(c, home), e', key);
    } else {
      assert AllOf(PendingAt(c, home), home);
      BalancedElsewhere(c, [e], r, home, key);
    }
  }

  lemma RecordHoused(c: Correlation, home: TurnKey, e: ToolEvent, emission: Emission)
    requires Housed(c) && KeyOf(e) == home
    ensures Housed(Record(c, home, e, emission).correlation)
  {
    var e' := Enrich(e, ResponsesAt(c, home), CellsAt(c, home.0));
    assert AllOf(PendingAt(c, home), home);
    SetPendingHoused(c, home, PendingAt(c, home));
    SetPendingHoused(c, home, Enqueue(PendingAt(c, home), e').0);
  }

  lemma {:induction false} MarkAllAt(es: seq<ToolEvent>, r: Id)
    ensures |MarkAll(es, r)| == |es|
    ensures forall i | 0 <= i < |es| :: MarkAll(es, r)[i] == Mark(es[i], r)
  {
    if |es| > 0 {
      MarkAllAt(es[..|es| - 1], r);
    }
  }

  lemma QueueAtHome(c: Correlation, home: TurnKey, r: Id)
    requires Housed(c)
    ensures AllOf(EnrichedQueue(c, home), home)
    ensures AllOf(Staying(EnrichedQueue(c, home), r), home)
    ensures AllOf(MarkAll(Leaving(EnrichedQueue(c, home), r), r), home)
  {
    var es := EnrichedQueue(c, home);
    assert AllOf(PendingAt(c, home), home);
    EnrichAllAt(PendingAt(c, home), ResponsesAt(c, home), CellsAt(c, home.0));
    FilterAll(e => !IsReleased(e, r), e => KeyOf(e) == home, es);
    FilterAll(e => IsReleased(e, r), e => KeyOf(e) == home, es);
    MarkAllAt(Leaving(es, r), r);
  }

  lemma PreparedHoused(c: Correlation, home: TurnKey, r: Id, calls: seq<Id>)
    requires Housed(c)
    ensures Housed(Prepared(c, home, r, calls))
    ensures forall key :: PendingAt(Prepared(c, home, r, calls), key) == PendingAt(c, key)
  {
  }

  lemma CompleteResponseBalanced(c: Correlation, home: TurnKey, r: Id, calls: seq<Id>, key: TurnKey)
    requires Housed(c)
    ensures Balanced(c, [], CompleteResponse(c, home, r, calls), key)
    ensures Housed(CompleteResponse(c, home, r, calls).correlation)
  {
    var c1 := Prepared(c, home, r, calls);
    var es := EnrichedQueue(c1, home);
    PreparedHoused(c, home, r, calls);
    QueueAtHome(c1, home, r);
    SetPendingHoused(c1, home, Staying(es, r));
    if key == home {
      CoresEnrichAll(PendingAt(c1, home), ResponsesAt(c1, home), CellsAt(c1, home.0), key);
      CoresPartition(es, r, key);
      CoresMarkAll(Leaving(es, r), r, key);
    } else {
      BalancedElsewhere(c, [], CompleteResponse(c, home, r, calls), home, key);
    }
  }

  lemma CompleteTurnBalanced(c: Correlation, home: TurnKey, key: TurnKey)
    requires Housed(c)
    ensures Balanced(c, [], CompleteTurn(c, home), key)
    ensures Housed(CompleteTurn(c, home).correlation)
  {
    if key != home {
      CoresElsewhere(PendingAt(c, home), home, key);
    }
  }

  lemma {:induction false} DrainCores(c: Correlation, order: seq<TurnKey>, key: TurnKey)
    requires Housed(c) && forall i, j | 0 <= i < j < |order| :: order[i] != order[j]
    ensures CoresAt(Drain(c, order), key) == if key in order then CoresAt(PendingAt(c, key), key) else multiset{}
  {
    if |order| > 0 {
      var init, last := order[..|order| - 1], order[|order| - 1];
      DrainCores(c, init, key);
      CoresConcat(Drain(c, init), PendingAt(c, last), key);
      assert key in order <==> key in init || key == last;
      if key != last {
        CoresElsewhere(PendingAt(c, last), last, key);
      } else {
        assert key !in init;
      }
    }
  }

  lemma EnumeratesMembership(order: seq<TurnKey>, keys: set<TurnKey>, key: TurnKey)
    requires Enumerates(order, keys)
    ensures key in order <==> key in keys
  {
  }

  lemma CloseThreadBalanced(c: Correlation, threadId: Id, order: seq<TurnKey>, key: TurnKey)
    requires Housed(c) && Enumerates(order, KeysOfThread(c, threadId))
    ensures Balanced(c, [], CloseThread(c, threadId, order), key)
    ensures Housed(CloseThread(c, threadId, order).correlation)
  {
    DrainCores(c, order, key);
    EnumeratesMembership(order, KeysOfThread(c, threadId), key);
  }

  lemma FlushAllBalanced(c: Correlation, order: seq<TurnKey>, key: TurnKey)
    requires Housed(c) && Enumerates(order, c.responses.Keys)
    ensures Balanced(c, [], FlushAll(c, order), key)
    ensures Housed(FlushAll(c, order).correlation)
    ensures PendingAt(FlushAll(c, order).correlation, key) == []
  {
    DrainCores(c, order, key);
    EnumeratesMembership(order, c.responses.Keys, key);
  }

  // ---- Origins ---------------------------------------------------------------------------------

  /** The responses announced so far, each with the thread it belongs to. */
  type Announced = set<(Id, Id)>

  predicate LinkSound(e: ToolEvent, a: Announced) {
    e.link.originating.Some? ==> (e.threadId, e.link.originating.value) in a
  }

  /** Every response id held anywhere was announced for that thread, and nothing waiting is marked yet. */
  predicate OriginsKnown(c: Correlation, a: Announced) {
    && (forall key, call | key in c.responses && call in c.responses[key].responseIds ::
          (key.0, c.responses[key].responseIds[call]) in a)
    && (forall t, id | t in c.cells && id in c.cells[t] && c.cells[t][id].originating.Some? ::
          (t, c.cells[t][id].originating.value) in a)
    && (forall key | key in c.responses :: WaitingSound(c.responses[key].pending, a))
  }

  predicate WaitingSound(es: seq<ToolEvent>, a: Announced) {
    forall i | 0 <= i < |es| :: LinkSound(es[i], a) && es[i].link.subsequent.None?
  }

  predicate Unmarked(es: seq<ToolEvent>) {
    forall i | 0 <= i < |es| :: es[i].link.subsequent.None?
  }

  /** Events released by response `r` of the turn name it, and an origin other than it that was announced before. */
  predicate MarkedSound(es: seq<ToolEvent>, key: TurnKey, r: Id, before: Announced) {
    forall i | 0 <= i < |es| ::
      && KeyOf(es[i]) == key
      && es[i].link.subsequent == Some(r)
      && es[i].link.originating.Some?
      && es[i].link.originating.value != r
      && (key.0, es[i].link.originating.value) in before
  }

  lemma EnrichSound(c: Correlation, key: TurnKey, e: ToolEvent, a: Announced)
    requires OriginsKnown(c, a) && e.threadId == key.0
    ensures LinkSound(Enrich(e, ResponsesAt(c, key), CellsAt(c, key.0)), a)
  {
  }

  lemma SetPendingOrigins(c: Correlation, key: TurnKey, pending: seq<ToolEvent>, a: Announced)
    requires OriginsKnown(c, a) && WaitingSound(pending, a)
    ensures OriginsKnown(SetPending(c, key, pending), a)
  {
    var c' := SetPending(c, key, pending);
    forall k | k in c'.responses ensures WaitingSound(c'.responses[k].pending, a) {
      if k != key { assert WaitingSound(c.responses[k].pending, a); }
    }
  }

  lemma RecordOrigins(c: Correlation, key: TurnKey, e: ToolEvent, emission: Emission, a: Announced)
    requires OriginsKnown(c, a) && KeyOf(e) == key && e.link.subsequent.None?
    ensures OriginsKnown(Record(c, key, e, emission).correlation, a)
    ensures Unmarked(Record(c, key, e, emission).out)
  {
    var e' := Enrich(e, ResponsesAt(c, key), CellsAt(c, key.0));
    EnrichSound(c, key, e, a);
    assert WaitingSound(PendingAt(c, key), a);
    SetPendingOrigins(c, key, PendingAt(c, key), a);
    SetPendingOrigins(c, key, Enqueue(PendingAt(c, key), e').0, a);
  }

  lemma {:induction false} BindCallsValues(m: map<Id, Id>, calls: seq<Id>, r: Id)
    ensures forall call | call in BindCalls(m, calls, r) ::
              BindCalls(m, calls, r)[call] == r || (call in m && BindCalls(m, calls, r)[call] == m[call])
    ensures m.Keys <= BindCalls(m, calls, r).Keys
  {
    if |calls| > 0 {
      BindCallsValues(m, calls[..|calls| - 1], r);
    }
  }

  lemma PreparedOrigins(c: Correlation, key: TurnKey, r: Id, calls: seq<Id>, a: Announced)
    requires OriginsKnown(c, a)
    ensures OriginsKnown(Prepared(c, key, r, calls), a + {(key.0, r)})
  {
    var c' := Prepared(c, key, r, calls);
    BindCallsValues(ResponsesAt(c, key).responseIds, calls, r);
    forall k | k in c'.responses ensures WaitingSound(c'.responses[k].pending, a + {(key.0, r)}) {
      assert WaitingSound(PendingAt(c, k), a);
      assert c'.responses[k].pending == PendingAt(c, k);
    }
  }

  lemma EnrichedQueueSound(c: Correlation, key: TurnKey, a: Announced)
    requires OriginsKnown(c, a) && Housed(c)
    ensures WaitingSound(EnrichedQueue(c, key), a)
  {
    var es := PendingAt(c, key);
    EnrichAllAt(es, ResponsesAt(c, key), CellsAt(c, key.0));
    assert AllOf(es, key) && WaitingSound(es, a);
    forall i | 0 <= i < |es| ensures LinkSound(Enrich(es[i], ResponsesAt(c, key), CellsAt(c, key.0)), a) {
      EnrichSound(c, key, es[i], a);
    }
  }

  lemma ReleasedSound(es: seq<ToolEvent>, key: TurnKey, r: Id, a: Announced)
    requires WaitingSound(es, a + {(key.0, r)}) && AllOf(es, key)
    ensures WaitingSound(Staying(es, r), a + {(key.0, r)})
    ensures MarkedSound(MarkAll(Leaving(es, r), r), key, r, a)
  {
    var q := (e: ToolEvent) => LinkSound(e, a + {(key.0, r)}) && e.link.subsequent.None? && KeyOf(e) == key;
    FilterAll(e => !IsReleased(e, r), q, es);
    FilterAll(e => IsReleased(e, r), q, es);
    MarkAllAt(Leaving(es, r), r);
  }

  lemma CompleteResponseOrigins(c: Correlation, key: TurnKey, r: Id, calls: seq<Id>, a: Announced)
    requires OriginsKnown(c, a) && Housed(c)
    ensures OriginsKnown(CompleteResponse(c, key, r, calls).correlation, a + {(key.0, r)})
    ensures MarkedSound(CompleteResponse(c, key, r, calls).out, key, r, a)
  {
    var c1, a' := Prepared(c, key, r, calls), a + {(key.0, r)};
    PreparedOrigins(c, key, r, calls, a);
    PreparedHoused(c, key, r, calls);
    EnrichedQueueSound(c1, key, a');
    QueueAtHome(c1, key, r);
    ReleasedSound(EnrichedQueue(c1, key), key, r, a);
    SetPendingOrigins(c1, key, Staying(EnrichedQueue(c1, key), r), a');
  }

  lemma StartCellOrigins(c: Correlation, key: TurnKey, callId: Id, cellId: Id, a: Announced)
    requires OriginsKnown(c, a)
    ensures OriginsKnown(StartCell(c, key, callId, cellId), a)
  {
  }

  lemma StartChildOrigins(c: Correlation, key: TurnKey, callId: Id, cellId: Id, a: Announced)
    requires OriginsKnown(c, a)
    ensures OriginsKnown(StartChild(c, key, callId, cellId), a)
  {
    var c' := StartChild(c, key, callId, cellId);
    forall k | k in c'.responses ensures WaitingSound(c'.responses[k].pending, a) {
      assert WaitingSound(PendingAt(c, k), a);
    }
  }

  lemma CloseCellOrigins(c: Correlation, key: TurnKey, cellId: Id, a: Announced)
    requires OriginsKnown(c, a)
    ensures OriginsKnown(CloseCell(c, key, cellId), a)
  {
  }

  lemma CompleteTurnOrigins(c: Correlation, key: TurnKey, a: Announced)
    requires OriginsKnown(c, a)
    ensures OriginsKnown(CompleteTurn(c, key).correlation, a)
    ensures Unmarked(CompleteTurn(c, key).out)
  {
    assert WaitingSound(PendingAt(c, key), a);
  }

  lemma {:induction false} DrainSound(c: Correlation, order: seq<TurnKey>, a: Announced)
    requires OriginsKnown(c, a)
    ensures Unmarked(Drain(c, order))
  {
    if |order| > 0 {
      DrainSound(c, order[..|order| - 1], a);
      assert WaitingSound(PendingAt(c, order[|order| - 1]), a);
    }
  }

  lemma CloseThreadOrigins(c: Correlation, threadId: Id, order: seq<TurnKey>, a: Announced)
    requires OriginsKnown(c, a)
    ensures OriginsKnown(CloseThread(c, threadId, order).correlation, a)
    ensures Unmarked(CloseThread(c, threadId, order).out)
  {
    DrainSound(c, order, a);
  }

  lemma FlushAllOrigins(c: Correlation, order: seq<TurnKey>, a: Announced)
    requires OriginsKnown(c, a)
    ensures OriginsKnown(FlushAll(c, order).correlation, a)
    ensures Unmarked(FlushAll(c, order).out)
  {
    DrainSound(c, order, a);
  }

  // ---- Release is a stable partition ----------------------------------------------------------

  /** `es` is an interleaving of `a` and `b`, each in its own order. */
  predicate IsMerge(a: seq<ToolEvent>, b: seq<ToolEvent>, es: seq<ToolEvent>)
    decreases |es|
  {
    if |es| == 0 then a == [] && b == []
    else
      var init, last := es[..|es| - 1], es[|es| - 1];
      || (|a| > 0 && a[|a| - 1] == last && IsMerge(a[..|a| - 1], b, init))
      || (|b| > 0 && b[|b| - 1] == last && IsMerge(a, b[..|b| - 1], init))
  }

  predicate AllReleased(es: seq<ToolEvent>, r: Id) {
    forall i | 0 <= i < |es| :: IsReleased(es[i], r)
  }

  predicate NoneReleased(es: seq<ToolEvent>, r: Id) {
    forall i | 0 <= i < |es| :: !IsReleased(es[i], r)
  }

  lemma {:induction false} SplitsTheQueue(es: seq<ToolEvent>, r: Id)
    ensures IsMerge(Leaving(es, r), Staying(es, r), es)
    ensures AllReleased(Leaving(es, r), r) && NoneReleased(Staying(es, r), r)
  {
    if |es| > 0 {
      var init, last := es[..|es| - 1], es[|es| - 1];
      SplitsTheQueue(init, r);
      assert Leaving(es, r) == if IsReleased(last, r) then Leaving(init, r) + [last] else Leaving(init, r);
      assert Staying(es, r) == if IsReleased(last, r) then Staying(init, r) else Staying(init, r) + [last];
    }
  }

  lemma {:induction false} OnlySplit(a: seq<ToolEvent>, b: seq<ToolEvent>, es: seq<ToolEvent>, r: Id)
    requires IsMerge(a, b, es) && AllReleased(a, r) && NoneReleased(b, r)
    ensures a == Leaving(es, r) && b == Staying(es, r)
    decreases |es|
  {
    if |es| > 0 {
      var init, last := es[..|es| - 1], es[|es| - 1];
      if |a| > 0 && a[|a| - 1] == last && IsMerge(a[..|a| - 1], b, init) {
        OnlySplit(a[..|a| - 1], b, init, r);
      } else {
        OnlySplit(a, b[..|b| - 1], init, r);
      }
    }
  }

  /** Leaving and staying are the one way to split the queue, order kept, into events whose known origin differs from `r` and the rest. */
  lemma {:induction false} StablePartitionIff(a: seq<ToolEvent>, b: seq<ToolEvent>, es: seq<ToolEvent>, r: Id)
    ensures IsMerge(a, b, es) && AllReleased(a, r) && NoneReleased(b, r) <==> a == Leaving(es, r) && b == Staying(es, r)
  {
    SplitsTheQueue(es, r);
    if IsMerge(a, b, es) && AllReleased(a, r) && NoneReleased(b, r) {
      OnlySplit(a, b, es, r);
    }
  }

  // ---- Arrival order of a cell and its response --------------------------------------------------

  lemma {:induction false} BindCallsAt(m: map<Id, Id>, calls: seq<Id>, r: Id, call: Id)
    requires call in m
    ensures call in BindCalls(m, calls, r) && BindCalls(m, calls, r)[call] == if call in calls then r else m[call]
  {
    if |calls| > 0 {
      var init, last := calls[..|calls| - 1], calls[|calls| - 1];
      BindCallsAt(m, init, r, call);
      assert call in calls <==> call in init || call == last;
    }
  }

  /** The cell map of the thread when the cell starts before the response completes. */
  function CellFirst(c: Correlation, key: TurnKey, callId: Id, cellId: Id, r: Id, calls: seq<Id>): map<Id, Cell> {
    CellsAt(CompleteResponse(StartCell(c, key, callId, cellId), key, r, calls).correlation, key.0)
  }

  /** The cell map of the thread when the response completes before the cell starts. */
  function ResponseFirst(c: Correlation, key: TurnKey, callId: Id, cellId: Id, r: Id, calls: seq<Id>): map<Id, Cell> {
    CellsAt(StartCell(CompleteResponse(c, key, r, calls).correlation, key, callId, cellId), key.0)
  }

  /** The call is already tied to another response of the turn, and this response claims it as well. */
  predicate Reclaims(c: Correlation, key: TurnKey, callId: Id, r: Id, calls: seq<Id>) {
    var ids := ResponsesAt(c, key).responseIds;
    callId in ids && callId in calls && ids[callId] != r
  }

  predicate RefusesCell(c: Correlation, key: TurnKey, cellId: Id) {
    cellId !in CellsAt(c, key.0) && |CellsAt(c, key.0)| >= MAX_TOOL_RESPONSE_ENTRIES
  }

  lemma CellFirstIs(c: Correlation, key: TurnKey, callId: Id, cellId: Id, r: Id, calls: seq<Id>)
    ensures var ids := ResponsesAt(c, key).responseIds;
            CellFirst(c, key, callId, cellId, r, calls)
            == FillCells(Bind(CellsAt(c, key.0), cellId, Cell(callId, Lookup(ids, callId), None)), BindCalls(ids, calls, r))
  {
  }

  lemma ResponseFirstIs(c: Correlation, key: TurnKey, callId: Id, cellId: Id, r: Id, calls: seq<Id>)
    ensures var ids := BindCalls(ResponsesAt(c, key).responseIds, calls, r);
            ResponseFirst(c, key, callId, cellId, r, calls)
            == Bind(FillCells(CellsAt(c, key.0), ids), cellId, Cell(callId, Lookup(ids, callId), None))
  {
    var ids := BindCalls(ResponsesAt(c, key).responseIds, calls, r);
    assert key.0 !in c.cells ==> FillCells(CellsAt(c, key.0), ids) == map[];
  }

  lemma FillAround(cells: map<Id, Cell>, ids: map<Id, Id>, cellId: Id, a: Cell, b: Cell)
    ensures FillCells(cells[cellId := a], ids) == FillCells(cells, ids)[cellId := b] <==> FillCell(a, ids) == b
    ensures |FillCells(cells, ids)| == |cells|
  {
    var first, second := FillCells(cells[cellId := a], ids), FillCells(cells, ids)[cellId := b];
    assert first[cellId] == FillCell(a, ids) && second[cellId] == b;
    assert first.Keys == second.Keys;
    assert FillCells(cells, ids).Keys == cells.Keys;
  }

  lemma OriginAgreesIff(ids: map<Id, Id>, calls: seq<Id>, r: Id, callId: Id)
    ensures FillCell(Cell(callId, Lookup(ids, callId), None), BindCalls(ids, calls, r))
            == Cell(callId, Lookup(BindCalls(ids, calls, r), callId), None)
            <==> !(callId in ids && callId in calls && ids[callId] != r)
  {
    if callId in ids {
      BindCallsAt(ids, calls, r, callId);
    }
  }

  /**
    A cell's origin does not depend on whether its start or the response naming its
    call arrives first, also at the caps, exactly when the response does not reclaim a
    call that the turn already ties to a different response (or the cell is refused).
   */
  lemma CellAndResponseCommuteIff(c: Correlation, key: TurnKey, callId: Id, cellId: Id, r: Id, calls: seq<Id>)
    ensures CellFirst(c, key, callId, cellId, r, calls) == ResponseFirst(c, key, callId, cellId, r, calls)
            <==> RefusesCell(c, key, cellId) || !Reclaims(c, key, callId, r, calls)
  {
    var cells, ids := CellsAt(c, key.0), ResponsesAt(c, key).responseIds;
    var ids' := BindCalls(ids, calls, r);
    var a, b := Cell(callId, Lookup(ids, callId), None), Cell(callId, Lookup(ids', callId), None);
    CellFirstIs(c, key, callId, cellId, r, calls);
    ResponseFirstIs(c, key, callId, cellId, r, calls);
    FillAround(cells, ids', cellId, a, b);
    OriginAgreesIff(ids, calls, r, callId);
  }
}
