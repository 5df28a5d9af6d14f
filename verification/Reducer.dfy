/**
  The analytics reducer as a function of its state: one case per fact, with the same
  branches as the code that folds facts into events.
 */
module Reducer {
  import opened Prelude
  import opened AnalyticsTypes
  import opened ToolCorrelation
  import DiffScan

  // ---- State -----------------------------------------------------------------------

  datatype Request =
    | TurnStartRequest(threadId: Id, images: nat)
    | TurnSteerRequest(threadId: Id, expectedTurnId: Id, images: nat, createdAt: nat)
    | InterruptRequest(turnId: Id, requestedAt: nat)

  datatype State = State(
    requests: map<(nat, Id), Request>,
    turns: map<Id, Turn>,
    connections: map<nat, Connection>,
    threads: map<Id, Thread>,
    startedItems: map<ItemKey, nat>,
    tools: Correlation,
    pendingReviews: map<Id, PendingReview>,
    summaries: map<ItemKey, ReviewSummary>)

  const INITIAL := State(map[], map[], map[], map[], map[], Correlation(map[], map[]), map[], map[])

  datatype Outcome = Outcome(state: State, out: seq<Event>)

  // ---- Facts -------------------------------------------------------------------------

  datatype CodeModeFact =
    | CellStarted(threadId: Id, turnId: Id, callId: Id, cellId: Id)
    | ChildStarted(threadId: Id, turnId: Id, callId: Id, cellId: Id)
    | CellClosed(threadId: Id, turnId: Id, cellId: Id)
    | ResponseCompleted(threadId: Id, turnId: Id, responseId: Id, calls: seq<Id>)
    | CallCompleted(threadId: Id, turnId: Id, callId: Id, inCell: Option<Id>, detail: string,
                    startedAt: nat, completedAt: nat)

  datatype Approval =
    | CommandApproval(networkContext: bool, networkAmendments: bool, permissions: bool, networkPermission: bool)
    | FileApproval(grantRoot: bool)
    | PermissionsApproval(network: bool, fileSystem: bool)

  datatype GuardianAction = GuardianCommand | GuardianPatch | GuardianNetwork | GuardianMcp
                          | GuardianPermissions(network: bool, fileSystem: bool)

  datatype Fact =
    | Initialize(connectionId: nat, connection: Connection)
    | ClientRequest(connectionId: nat, requestId: Id, request: Request)
    | ThreadResponse(connectionId: nat, threadId: Id, metadata: ThreadMetadata, originator: Option<Id>, detail: string)
    | TurnStartResponse(connectionId: nat, requestId: Id, turnId: Id)
    | TurnSteerResponse(connectionId: nat, requestId: Id, turnId: Id)
    | InterruptResponse(connectionId: nat, requestId: Id)
    | ErrorResponse(connectionId: nat, requestId: Id, reason: Option<string>)
    | ItemStarted(threadId: Id, turnId: Id, item: ThreadItem, at: int)
    | ItemCompleted(threadId: Id, turnId: Id, item: ThreadItem, at: int)
    | GuardianReviewCompleted(threadId: Id, turnId: Id, targetItem: Option<Id>, reviewId: Id, action: GuardianAction,
                              verdict: Option<ReviewStatus>, from: int, at: int)
    | ThreadClosed(threadId: Id)
    | TurnStarted(turnId: Id, startedAt: Option<nat>)
    | TurnDiffUpdated(threadId: Id, turnId: Id, diff: string)
    | TurnCompleted(threadId: Id, turnId: Id, completed: string)
    | ApprovalRequested(requestId: Id, threadId: Id, turnId: Id, itemId: Id, approval: Approval, from: int)
    | ApprovalAnswered(requestId: Id, status: ReviewStatus, resolution: Resolution, answeredAt: nat)
    | CodeMode(call: CodeModeFact)
    | SubAgentStarted(threadId: Id, parentThreadId: Option<Id>, productClientId: Id, metadata: ThreadMetadata, detail: string)
    | TurnResolvedConfig(turnId: Id, threadId: Id, images: nat, config: string)
    | TurnTokenUsage(turnId: Id, threadId: Id, usage: string)
    | TurnProfile(turnId: Id, profile: string)
    | TurnCodexError(turnId: Id, threadId: Id, error: string)
    | ImagePreparation(turnId: Id, preparation: string)
    | ThreadScoped(threadId: Id, detail: string)   // compaction, goal and guardian review reports
    | Unscoped(details: seq<string>)               // skill, app, hook, plugin and import reports
    | Ignored

  // ---- Lookups -------------------------------------------------------------------------

  /** A timestamp as the reducer keeps it: negative ones are unusable. */
  function Millis(at: int): Option<nat> {
    if at < 0 then None else Some(at)
  }

  function ThreadAt(s: State, threadId: Id): Thread {
    if threadId in s.threads then s.threads[threadId] else NEW_THREAD
  }

  function TurnAt(s: State, turnId: Id): Turn {
    if turnId in s.turns then s.turns[turnId] else NEW_TURN
  }

  function ClientFor(thread: Thread, connection: Connection): Client {
    match thread.originator
    case Some(o) => connection.client.(productClientId := o)
    case None => connection.client
  }

  datatype Missing = MissingThreadConnection | MissingConnection(connectionId: nat) | MissingMetadata

  datatype Lookedup = Found(context: Context) | Lost(missing: Missing)

  /** The context of a thread, or what is missing to report anything about it. */
  function ThreadContext(s: State, threadId: Id): Lookedup {
    var thread := ThreadAt(s, threadId);
    if thread.connectionId.None? then Lost(MissingThreadConnection)
    else if thread.connectionId.value !in s.connections then Lost(MissingConnection(thread.connectionId.value))
    else if thread.metadata.None? then Lost(MissingMetadata)
    else
      var connection := s.connections[thread.connectionId.value];
      Found(Context(ClientFor(thread, connection), connection.runtime, thread.metadata.value))
  }

  /** The context of a finished turn: its own connection first, else its thread's. */
  function TurnContext(s: State, turn: Turn): Lookedup {
    if turn.threadId.None? then Lost(MissingThreadConnection)
    else
      var thread := ThreadAt(s, turn.threadId.value);
      var connectionId := if turn.connectionId.Some? then turn.connectionId else thread.connectionId;
      if connectionId.None? then Lost(MissingThreadConnection)
      else if connectionId.value !in s.connections then Lost(MissingConnection(connectionId.value))
      else if thread.metadata.None? then Lost(MissingMetadata)
      else
        var connection := s.connections[connectionId.value];
        Found(Context(ClientFor(thread, connection), connection.runtime, thread.metadata.value))
  }

  // ---- Turn events -----------------------------------------------------------------------

  predicate IsComplete(turn: Turn) {
    turn.threadId.Some? && turn.images.Some? && turn.config.Some? && turn.profile.Some? && turn.completed.Some?
  }

  function AcceptedLinesOf(turnId: Id, turn: Turn): seq<Event> {
    if turn.latestDiff.None? || turn.threadId.None? then []
    else
      var (added, deleted) := DiffScan.AcceptedLineCounts(turn.latestDiff.value);
      if added == 0 && deleted == 0 then [] else [AcceptedLines(turnId, turn.threadId.value, added, deleted)]
  }

  predicate WillEmit(s: State, turnId: Id) {
    turnId in s.turns && IsComplete(s.turns[turnId]) && TurnContext(s, s.turns[turnId]).Found?
  }

  /** Reports the turn once all its parts are in and its thread is known, and forgets it. */
  function MaybeEmitTurn(s: State, turnId: Id): Outcome {
    if !WillEmit(s, turnId) then Outcome(s, [])
    else
      var turn := s.turns[turnId];
      Outcome(s.(turns := s.turns - {turnId}),
              [TurnDone(turnId, turn, TurnContext(s, turn).context)] + AcceptedLinesOf(turnId, turn))
  }

  function PutTurn(s: State, turnId: Id, turn: Turn): State {
    s.(turns := s.turns[turnId := turn])
  }

  // ---- Tool events -----------------------------------------------------------------------

  function AsEvents(es: seq<ToolEvent>): seq<Event> {
    if |es| == 0 then [] else AsEvents(es[..|es| - 1]) + [Tool(es[|es| - 1])]
  }

  function FromTools(s: State, r: ToolCorrelation.Result): Outcome {
    Outcome(s.(tools := r.correlation), AsEvents(r.out))
  }

  function CountItem(counts: ToolCounts, item: ThreadItem): ToolCounts {
    match item
    case OtherItem => counts
    case SubAgentActivity => counts.(total := counts.total + 1, subagent := counts.subagent + 1)
    case ToolItem(kind, _, _, _) => CountKind(counts, kind)
  }

  function CountKind(counts: ToolCounts, kind: ToolKind): ToolCounts {
    var c := counts.(total := counts.total + 1);
    match kind
    case CommandExecution => c.(shell := c.shell + 1)
    case FileChange => c.(fileChange := c.fileChange + 1)
    case McpToolCall => c.(mcp := c.mcp + 1)
    case DynamicToolCall => c.(dynamicTool := c.dynamicTool + 1)
    case CollabAgentToolCall => c.(subagent := c.subagent + 1)
    case WebSearch => c.(webSearch := c.webSearch + 1)
    case ImageGeneration => c.(image := c.image + 1)
  }

  /** Searches and image generations are always reported; other items only once they have ended. */
  predicate IsReportable(item: ThreadItem)
    requires item.ToolItem?
  {
    item.kind.WebSearch? || item.kind.ImageGeneration? || item.terminal
  }

  function ItemKeyOf(f: Fact): ItemKey
    requires (f.ItemStarted? || f.ItemCompleted?) && f.item.ToolItem?
  {
    ItemKey(f.threadId, f.turnId, f.item.id)
  }

  /** An item completion that gets past every check: turn, start, timestamp and context are all there. */
  predicate ReachesReport(s: State, f: Fact) {
    && f.ItemCompleted? && f.item.ToolItem?
    && f.turnId in s.turns
    && ItemKeyOf(f) in s.startedItems
    && Millis(f.at).Some?
    && ThreadContext(s, f.threadId).Found?
  }

  function SummaryAt(s: State, key: ItemKey): ReviewSummary {
    if key in s.summaries then s.summaries[key] else NO_REVIEWS
  }

  function ItemEvent(s: State, f: Fact): ToolEvent
    requires ReachesReport(s, f)
  {
    ToolEvent(f.item.kind, f.threadId, f.turnId, f.item.id, ThreadContext(s, f.threadId).context,
              s.startedItems[ItemKeyOf(f)], Millis(f.at).value, SummaryAt(s, ItemKeyOf(f)), f.item.detail, UNLINKED)
  }

  function CallEvent(s: State, f: CodeModeFact): ToolEvent
    requires f.CallCompleted? && ThreadContext(s, f.threadId).Found?
  {
    ToolEvent(DynamicToolCall, f.threadId, f.turnId, f.callId, ThreadContext(s, f.threadId).context,
              f.startedAt, f.completedAt, NO_REVIEWS, f.detail, UNLINKED.(cellId := f.inCell))
  }

  /** What a reportable item does to the correlation. */
  function ItemMove(s: State, f: Fact): Move
    requires ReachesReport(s, f)
  {
    Arrival((f.threadId, f.turnId), ItemEvent(s, f), ImmediateUnlessCorrelated)
  }

  /** The item counts for its turn. */
  function CountInTurn(s: State, turnId: Id, item: ThreadItem): State {
    PutTurn(s, turnId, TurnAt(s, turnId).(counts := CountItem(TurnAt(s, turnId).counts, item)))
  }

  function TakeStart(s: State, key: ItemKey): State {
    s.(startedItems := s.startedItems - {key})
  }

  function TakeSummary(s: State, key: ItemKey): State {
    s.(summaries := s.summaries - {key})
  }

  /** An item completion counts for its turn and takes the item's start. */
  function ItemTaken(s: State, f: Fact): State
    requires f.ItemCompleted?
  {
    if f.item.OtherItem? || f.turnId !in s.turns then s
    else if f.item.SubAgentActivity? then CountInTurn(s, f.turnId, f.item)
    else TakeStart(CountInTurn(s, f.turnId, f.item), ItemKeyOf(f))
  }

  /** If it gets as far as the report it also takes the item's summary. */
  function ItemTables(s: State, f: Fact): State
    requires f.ItemCompleted?
  {
    if ReachesReport(s, f) then TakeSummary(ItemTaken(s, f), ItemKeyOf(f)) else ItemTaken(s, f)
  }

  predicate ReportsItem(s: State, f: Fact) {
    ReachesReport(s, f) && IsReportable(f.item)
  }

  function IngestItemCompleted(s: State, f: Fact): Outcome
    requires f.ItemCompleted?
  {
    if ReportsItem(s, f) then FromTools(ItemTables(s, f), Apply(s.tools, ItemMove(s, f)))
    else Outcome(ItemTables(s, f), [])
  }

  /** What a code-mode fact of a known thread does to the correlation. */
  function CodeModeMove(s: State, f: CodeModeFact): Move
    requires ThreadContext(s, f.threadId).Found?
  {
    var key := (f.threadId, f.turnId);
    match f
    case CellStarted(_, _, callId, cellId) => CellStart(key, callId, cellId)
    case ChildStarted(_, _, callId, cellId) => ChildStart(key, callId, cellId)
    case CellClosed(_, _, cellId) => CellClose(key, cellId)
    case ResponseCompleted(_, _, r, calls) => Response(key, r, calls)
    case CallCompleted(_, _, _, _, _, _, _) => Arrival(key, CallEvent(s, f), AwaitResponse)
  }

  /** A finished code-mode call counts for its turn. */
  function CountCall(s: State, f: CodeModeFact): State {
    if !f.CallCompleted? then s
    else
      var turn := TurnAt(s, f.turnId);
      PutTurn(s, f.turnId, turn.(counts := CountKind(turn.counts, DynamicToolCall)))
  }

  function IngestCodeMode(s: State, f: CodeModeFact): Outcome {
    if !ThreadContext(s, f.threadId).Found? then Outcome(s, [])
    else FromTools(CountCall(s, f), Apply(s.tools, CodeModeMove(s, f)))
  }

  // ---- Threads ------------------------------------------------------------------------------

  function IngestThread(s: State, f: Fact): Outcome
    requires f.ThreadResponse?
  {
    if f.connectionId !in s.connections then Outcome(s, [])
    else
      var thread := ThreadAt(s, f.threadId);
      var thread' := Thread(Some(f.connectionId), Some(f.metadata),
                            if f.originator.Some? then f.originator else thread.originator);
      Outcome(s.(threads := s.threads[f.threadId := thread']), [ThreadStarted(f.threadId, f.detail)])
  }

  function IngestSubAgent(s: State, f: Fact): Outcome
    requires f.SubAgentStarted?
  {
    var parentConnection := if f.parentThreadId.Some? then ThreadAt(s, f.parentThreadId.value).connectionId else None;
    var thread := ThreadAt(s, f.threadId);
    var thread' := Thread(if thread.connectionId.Some? then thread.connectionId else parentConnection,
                          if thread.metadata.Some? then thread.metadata else Some(f.metadata),
                          if thread.originator.Some? then thread.originator else Some(f.productClientId));
    Outcome(s.(threads := s.threads[f.threadId := thread']), [ThreadStarted(f.threadId, f.detail)])
  }

  // ---- Requests -----------------------------------------------------------------------------

  function SteerEvent(s: State, connectionId: nat, request: Request, accepted: Option<Id>, rejection: Option<string>): seq<Event>
    requires request.TurnSteerRequest?
  {
    if connectionId !in s.connections || ThreadAt(s, request.threadId).metadata.None? then []
    else
      var connection, thread := s.connections[connectionId], ThreadAt(s, request.threadId);
      [Steered(request.threadId, request.expectedTurnId, accepted, request.images, request.createdAt, rejection,
               Context(ClientFor(thread, connection), connection.runtime, thread.metadata.value))]
  }

  function EarliestOf(a: Option<nat>, at: nat): Option<nat> {
    if a.Some? && a.value < at then a else Some(at)
  }

  function AnswerTurnStart(s: State, connectionId: nat, request: Request, turnId: Id): Outcome {
    if !request.TurnStartRequest? then Outcome(s, [])
    else
      var turn := TurnAt(s, turnId).(connectionId := Some(connectionId), threadId := Some(request.threadId),
                                     images := Some(request.images));
      MaybeEmitTurn(PutTurn(s, turnId, turn), turnId)
  }

  function AnswerInterrupt(s: State, request: Request): Outcome {
    if !request.InterruptRequest? then Outcome(s, [])
    else
      var turn := TurnAt(s, request.turnId);
      MaybeEmitTurn(PutTurn(s, request.turnId, turn.(interruptAt := EarliestOf(turn.interruptAt, request.requestedAt))),
                    request.turnId)
  }

  function AnswerSteer(s: State, connectionId: nat, request: Request, turnId: Id): Outcome {
    if !request.TurnSteerRequest? then Outcome(s, [])
    else
      var turn := TurnAt(s, turnId);
      Outcome(if turnId in s.turns then PutTurn(s, turnId, turn.(steers := turn.steers + 1)) else s,
              SteerEvent(s, connectionId, request, Some(turnId), None))
  }

  function RejectRequest(s: State, connectionId: nat, request: Request, reason: Option<string>): Outcome {
    if !request.TurnSteerRequest? then Outcome(s, [])
    else Outcome(s, SteerEvent(s, connectionId, request, None, reason))
  }

  /** A response takes its request out of the table, whether or not the two fit together. */
  function IngestResponse(s: State, f: Fact): Outcome
    requires IsResponse(f)
  {
    var id := (f.connectionId, f.requestId);
    if id !in s.requests then Outcome(s, [])
    else
      var request, s1 := s.requests[id], s.(requests := s.requests - {id});
      if f.TurnStartResponse? then AnswerTurnStart(s1, f.connectionId, request, f.turnId)
      else if f.TurnSteerResponse? then AnswerSteer(s1, f.connectionId, request, f.turnId)
      else if f.InterruptResponse? then AnswerInterrupt(s1, request)
      else RejectRequest(s1, f.connectionId, request, f.reason)
  }

  // ---- Reviews -------------------------------------------------------------------------------

  function ApprovalReview(f: Fact): PendingReview
    requires f.ApprovalRequested? && Millis(f.from).Some?
  {
    var (subject, permissions, network) :=
      match f.approval
      case CommandApproval(context, amendments, permissions, networkPermission) =>
        (if context then NetworkSubject else CommandSubject, permissions,
         context || amendments || (permissions && networkPermission))
      case FileApproval(grantRoot) => (FileSubject, grantRoot, false)
      case PermissionsApproval(network, fileSystem) => (PermissionsSubject, network || fileSystem, network);
    PendingReview(f.threadId, f.turnId, Some(f.itemId), "user:" + f.requestId, subject, Millis(f.from).value, permissions, network)
  }

  function GuardianReview(f: Fact): PendingReview
    requires f.GuardianReviewCompleted? && Millis(f.from).Some?
  {
    var (subject, permissions, network) :=
      match f.action
      case GuardianCommand => (CommandSubject, false, false)
      case GuardianPatch => (FileSubject, true, false)
      case GuardianNetwork => (NetworkSubject, true, true)
      case GuardianMcp => (McpSubject, false, false)
      case GuardianPermissions(network, fileSystem) => (PermissionsSubject, network || fileSystem, network);
    PendingReview(f.threadId, f.turnId, f.targetItem, f.reviewId, subject, Millis(f.from).value, permissions, network)
  }

  /** The item a review counts for: command, file and MCP reviews of a named item. */
  function ReviewedItem(review: PendingReview): Option<ItemKey> {
    if review.itemId.None? || review.subject.PermissionsSubject? || review.subject.NetworkSubject? then None
    else Some(ItemKey(review.threadId, review.turnId, review.itemId.value))
  }

  function OutcomeOf(reviewer: Reviewer, status: ReviewStatus, resolution: Resolution): ApprovalOutcome {
    match (reviewer, status)
    case (Guardian, Approved) => GuardianApproved
    case (Guardian, Denied) => GuardianDenied
    case (Guardian, _) => GuardianAborted
    case (User, Approved) => if resolution.SessionApproval? then UserApprovedForSession else UserApproved
    case (User, Denied) => UserDenied
    case (User, _) => UserAborted
  }

  function Summarize(sum: ReviewSummary, reviewer: Reviewer, outcome: ApprovalOutcome, review: PendingReview): ReviewSummary {
    ReviewSummary(sum.reviews + 1,
                  if reviewer.Guardian? then sum.guardian + 1 else sum.guardian,
                  if reviewer.User? then sum.user + 1 else sum.user,
                  Some(outcome),
                  sum.permissions || review.permissions,
                  sum.network || review.network)
  }

  function EmitReview(s: State, review: PendingReview, reviewer: Reviewer, status: ReviewStatus, resolution: Resolution, at: nat): Outcome {
    var item := ReviewedItem(review);
    var s1 := if item.None? then s
              else s.(summaries := s.summaries[item.value :=
                        Summarize(SummaryAt(s, item.value), reviewer, OutcomeOf(reviewer, status, resolution), review)]);
    match ThreadContext(s, review.threadId)
    case Found(context) => Outcome(s1, [Reviewed(review, reviewer, status, resolution, at, context)])
    case Lost(_) => Outcome(s1, [])
  }

  function IngestGuardianReview(s: State, f: Fact): Outcome
    requires f.GuardianReviewCompleted?
  {
    if f.verdict.None? || Millis(f.from).None? || Millis(f.at).None? then Outcome(s, [])
    else EmitReview(s, GuardianReview(f), Guardian, f.verdict.value, NoResolution, Millis(f.at).value)
  }

  function IngestApprovalAnswer(s: State, f: Fact): Outcome
    requires f.ApprovalAnswered?
  {
    if f.requestId !in s.pendingReviews then Outcome(s, [])
    else EmitReview(s.(pendingReviews := s.pendingReviews - {f.requestId}), s.pendingReviews[f.requestId],
                    User, f.status, f.resolution, f.answeredAt)
  }

  // ---- Turn facts ------------------------------------------------------------------------------

  /** The turn once the fact is folded in. */
  function UpdatedTurn(turn: Turn, f: Fact): Turn
    requires IsTurnFact(f)
  {
    match f
    case TurnStarted(_, at) => turn.(startedAt := at)
    case TurnDiffUpdated(threadId, _, diff) => turn.(threadId := Some(threadId), latestDiff := Some(diff))
    case TurnResolvedConfig(_, threadId, images, config) =>
      turn.(threadId := Some(threadId), images := Some(images), config := Some(config))
    case TurnTokenUsage(_, threadId, usage) => turn.(threadId := Some(threadId), tokenUsage := Some(usage))
    case TurnProfile(_, profile) => turn.(profile := Some(profile))
    case TurnCodexError(_, threadId, error) =>
      turn.(threadId := if turn.threadId.Some? then turn.threadId else Some(threadId), codexError := Some(error))
    case ImagePreparation(_, preparation) => turn.(preparations := turn.preparations + [preparation])
  }

  function IngestTurnFact(s: State, f: Fact): Outcome
    requires IsTurnFact(f)
  {
    var s1 := PutTurn(s, f.turnId, UpdatedTurn(TurnAt(s, f.turnId), f));
    if f.TurnResolvedConfig? || f.TurnTokenUsage? || f.TurnProfile? then MaybeEmitTurn(s1, f.turnId) else Outcome(s1, [])
  }

  function IngestTurnCompleted(s: State, f: Fact): Outcome
    requires f.TurnCompleted?
  {
    var flushed := FromTools(s, CompleteTurn(s.tools, (f.threadId, f.turnId)));
    var turn := TurnAt(s, f.turnId).(completed := Some(f.completed));
    var emitted := MaybeEmitTurn(PutTurn(flushed.state, f.turnId, turn), f.turnId);
    Outcome(emitted.state, flushed.out + emitted.out)
  }

  function DirectEvents(details: seq<string>): seq<Event> {
    if |details| == 0 then [] else DirectEvents(details[..|details| - 1]) + [Direct(details[|details| - 1])]
  }

  // ---- One fact ----------------------------------------------------------------------------------

  predicate IsResponse(f: Fact) {
    f.TurnStartResponse? || f.TurnSteerResponse? || f.InterruptResponse? || f.ErrorResponse?
  }

  predicate IsTurnFact(f: Fact) {
    f.TurnStarted? || f.TurnDiffUpdated? || f.TurnResolvedConfig? || f.TurnTokenUsage? || f.TurnProfile?
    || f.TurnCodexError? || f.ImagePreparation?
  }

  /** Facts that touch neither the correlation nor a turn. */
  predicate IsPlain(f: Fact) {
    !IsResponse(f) && !IsTurnFact(f) && !f.TurnCompleted? && !f.ItemCompleted? && !f.CodeMode? && !f.ThreadClosed?
  }

  function IngestPlain(s: State, f: Fact): Outcome
    requires IsPlain(f)
  {
    match f
    case Initialize(id, connection) => Outcome(s.(connections := s.connections[id := connection]), [])
    case ClientRequest(id, requestId, request) => Outcome(s.(requests := s.requests[(id, requestId) := request]), [])
    case ThreadResponse(_, _, _, _, _) => IngestThread(s, f)
    case SubAgentStarted(_, _, _, _, _) => IngestSubAgent(s, f)
    case ItemStarted(_, _, item, at) =>
      if item.ToolItem? && Millis(at).Some? then
        Outcome(s.(startedItems := s.startedItems[ItemKeyOf(f) := Millis(at).value]), [])
      else Outcome(s, [])
    case GuardianReviewCompleted(_, _, _, _, _, _, _, _) => IngestGuardianReview(s, f)
    case ApprovalRequested(requestId, _, _, _, _, from) =>
      if Millis(from).None? then Outcome(s, [])
      else Outcome(s.(pendingReviews := s.pendingReviews[requestId := ApprovalReview(f)]), [])
    case ApprovalAnswered(_, _, _, _) => IngestApprovalAnswer(s, f)
    case ThreadScoped(threadId, detail) =>
      (match ThreadContext(s, threadId)
       case Found(context) => Outcome(s, [ThreadReport(threadId, detail, context)])
       case Lost(_) => Outcome(s, []))
    case Unscoped(details) => Outcome(s, DirectEvents(details))
    case Ignored => Outcome(s, [])
  }

  /** `order` is the order in which a closing thread's queues are visited; other facts do not use it. */
  function Ingest(s: State, f: Fact, order: seq<TurnKey>): Outcome {
    if IsPlain(f) then IngestPlain(s, f)
    else if IsResponse(f) then IngestResponse(s, f)
    else if IsTurnFact(f) then IngestTurnFact(s, f)
    else if f.TurnCompleted? then IngestTurnCompleted(s, f)
    else if f.ItemCompleted? then IngestItemCompleted(s, f)
    else if f.CodeMode? then IngestCodeMode(s, f.call)
    else FromTools(s, CloseThread(s.tools, f.threadId, order))
  }

  // ---- Runs --------------------------------------------------------------------------------------

  /** What the reducer is asked to do: fold in a fact, or flush everything that waits. */
  datatype Label = Take(fact: Fact, order: seq<TurnKey>) | Flush(order: seq<TurnKey>)

  /** `order` visits exactly the queues concerned, each once. */
  predicate Legal(s: State, l: Label) {
    match l
    case Take(f, order) =>
      Enumerates(order, if f.ThreadClosed? then KeysOfThread(s.tools, f.threadId) else {})
    case Flush(order) => Enumerates(order, s.tools.responses.Keys)
  }

  function Step(s: State, l: Label): Outcome {
    match l
    case Take(f, order) => Ingest(s, f, order)
    case Flush(order) => FromTools(s, FlushAll(s.tools, order))
  }

  function RunFrom(s: State, trace: seq<Label>): State {
    if |trace| == 0 then s else Step(RunFrom(s, trace[..|trace| - 1]), trace[|trace| - 1]).state
  }

  function Run(trace: seq<Label>): State {
    RunFrom(INITIAL, trace)
  }

  predicate LegalFrom(s: State, trace: seq<Label>) {
    |trace| == 0 ||
    (LegalFrom(s, trace[..|trace| - 1]) && Legal(RunFrom(s, trace[..|trace| - 1]), trace[|trace| - 1]))
  }

  /** Everything emitted over the run, in order. */
  function EmittedFrom(s: State, trace: seq<Label>): seq<Event> {
    if |trace| == 0 then []
    else EmittedFrom(s, trace[..|trace| - 1]) + Step(RunFrom(s, trace[..|trace| - 1]), trace[|trace| - 1]).out
  }
}
