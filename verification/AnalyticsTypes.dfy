/** Entities of the analytics reducer: events, facts' parts and per-thread state. Payloads it only carries are strings. */
module AnalyticsTypes {
  import opened Prelude

  type Id = string

  /** A turn within a thread. */
  type TurnKey = (Id, Id)

  const MAX_TOOL_RESPONSE_ENTRIES := 256

  datatype ItemKey = ItemKey(threadId: Id, turnId: Id, itemId: Id)

  // ---- Connections and threads ---------------------------------------------------

  datatype Client = Client(productClientId: Id, detail: string)

  datatype Connection = Connection(client: Client, runtime: string)

  datatype ThreadMetadata = ThreadMetadata(sessionId: Id, source: string, parentThreadId: Option<Id>)

  datatype Thread = Thread(connectionId: Option<nat>, metadata: Option<ThreadMetadata>, originator: Option<Id>)

  const NEW_THREAD := Thread(None, None, None)

  /** What every event reported for a thread is stamped with. */
  datatype Context = Context(client: Client, runtime: string, metadata: ThreadMetadata)

  // ---- Reviews -------------------------------------------------------------------

  datatype Reviewer = Guardian | User

  datatype ReviewStatus = Approved | Denied | TimedOut | Aborted

  datatype Resolution = NoResolution | SessionApproval | ExecPolicyAmendment | NetworkPolicyAmendment

  datatype SubjectKind = CommandSubject | FileSubject | McpSubject | PermissionsSubject | NetworkSubject

  datatype ApprovalOutcome =
    | GuardianApproved | GuardianDenied | GuardianAborted
    | UserApprovedForSession | UserApproved | UserDenied | UserAborted

  datatype PendingReview = PendingReview(
    threadId: Id, turnId: Id, itemId: Option<Id>, reviewId: Id,
    subject: SubjectKind, startedAt: nat, permissions: bool, network: bool)

  datatype ReviewSummary = ReviewSummary(
    reviews: nat, guardian: nat, user: nat, outcome: Option<ApprovalOutcome>, permissions: bool, network: bool)

  const NO_REVIEWS := ReviewSummary(0, 0, 0, None, false, false)

  // ---- Tool events -----------------------------------------------------------------

  datatype ToolKind =
    | CommandExecution | FileChange | McpToolCall | DynamicToolCall
    | CollabAgentToolCall | WebSearch | ImageGeneration

  datatype ThreadItem =
    | ToolItem(kind: ToolKind, id: Id, terminal: bool, detail: string)
    | SubAgentActivity
    | OtherItem

  /** The fields through which a tool event is tied to sampling responses. */
  datatype Link = Link(cellId: Option<Id>, parentCallId: Option<Id>, originating: Option<Id>, subsequent: Option<Id>)

  const UNLINKED := Link(None, None, None, None)

  datatype ToolEvent = ToolEvent(
    kind: ToolKind, threadId: Id, turnId: Id, itemId: Id, context: Context,
    startedAt: nat, completedAt: nat, reviews: ReviewSummary, detail: string, link: Link)

  function KeyOf(e: ToolEvent): TurnKey {
    (e.threadId, e.turnId)
  }

  /** The event without its response links: what stays the same from recording to emission. */
  function Core(e: ToolEvent): ToolEvent {
    e.(link := UNLINKED)
  }

  // ---- Turns -------------------------------------------------------------------------

  datatype ToolCounts = ToolCounts(
    total: nat, shell: nat, fileChange: nat, mcp: nat, dynamicTool: nat, subagent: nat, webSearch: nat, image: nat)

  const NO_COUNTS := ToolCounts(0, 0, 0, 0, 0, 0, 0, 0)

  datatype Turn = Turn(
    connectionId: Option<nat>,
    threadId: Option<Id>,
    images: Option<nat>,
    preparations: seq<string>,
    config: Option<string>,
    startedAt: Option<nat>,
    tokenUsage: Option<string>,
    profile: Option<string>,
    completed: Option<string>,
    interruptAt: Option<nat>,
    codexError: Option<string>,
    latestDiff: Option<string>,
    steers: nat,
    counts: ToolCounts)

  const NEW_TURN :=
    Turn(None, None, None, [], None, None, None, None, None, None, None, None, 0, NO_COUNTS)

  // ---- Emitted events ------------------------------------------------------------------

  datatype Event =
    | Tool(tool: ToolEvent)
    | TurnDone(turnId: Id, turn: Turn, context: Context)
    | AcceptedLines(turnId: Id, threadId: Id, added: nat, deleted: nat)
    | Reviewed(review: PendingReview, reviewer: Reviewer, status: ReviewStatus, resolution: Resolution,
               completedAt: nat, context: Context)
    | Steered(threadId: Id, expectedTurnId: Id, acceptedTurnId: Option<Id>, images: nat, createdAt: nat,
              rejection: Option<string>, context: Context)
    | ThreadStarted(threadId: Id, detail: string)
    | ThreadReport(threadId: Id, detail: string, context: Context)
    | Direct(detail: string)
}
