/**
  The in-process event forwarder: a worker that moves app-server events into a
  bounded channel read by a consumer it does not control.

  The consumer is an adversary. It may take an event, or drop its receiver,
  between any two steps of the worker and while the worker waits inside a
  blocking send. The worker's own code is cut at every channel operation, so a
  run is any interleaving of those pieces with consumer and caller actions.
 */
module EventForwarder {
  import opened Prelude

  const USIZE_MAX: nat := 0xFFFF_FFFF_FFFF_FFFF
  const TOKEN_REFRESH_UNSUPPORTED := -32000
  const QUEUE_FULL := -32001

  datatype NotificationKind =
    | TurnCompleted | ThreadSettingsUpdated | ItemCompleted
    | ExternalAgentConfigImportCompleted | AgentMessageDelta | PlanDelta
    | ReasoningSummaryTextDelta | ReasoningTextDelta
    | BestEffort(name: string)

  datatype Event =
    | Lagged(skipped: nat)
    | Notification(kind: NotificationKind, body: string)
    | Request(id: string, tokenRefresh: bool, body: string)

  predicate RequiresDelivery(e: Event) {
    e.Notification? && !e.kind.BestEffort?
  }

  predicate IsRequest(e: Event) {
    e.Request?
  }

  predicate IsTokenRefresh(e: Event) {
    e.Request? && e.tokenRefresh
  }

  /** Token refreshes are rejected before they reach the forwarder. */
  predicate IsForwardable(e: Event) {
    !IsTokenRefresh(e)
  }

  /** What sits in the channel: the forwarder's own lag marker, or an event it was given. */
  datatype Item = Marker(skipped: nat) | Forwarded(event: Event)

  /** Where the worker is: waiting in `select!`, or inside the forwarding of one event. */
  datatype Phase =
    | Idle
    | Entering(event: Event)
    | FlushingMarker(event: Event)
    | Sending(event: Event)

  datatype Command = ClientRequest | Notify | ResolveServerRequest | RejectServerRequest | Shutdown

  datatype Fate = Delivered | Dropped | Lost

  datatype Rejection = Rejection(event: Event, code: int)

  /**
    What has happened so far: every event pulled from the runtime, the ones
    handed to the forwarder with their fates, everything the channel accepted,
    every request rejected, every command handled, and the number of drops that
    the saturating counter could not record.
   */
  datatype Log = Log(
    arrivals: seq<Event>,
    inputs: seq<Event>,
    fates: seq<Fate>,
    accepted: seq<Item>,
    taken: seq<Item>,
    rejections: seq<Rejection>,
    handled: seq<Command>,
    absorbed: nat)

  datatype State = State(
    capacity: nat,
    queue: seq<Item>,
    open: bool,
    enabled: bool,
    skipped: nat,
    phase: Phase,
    exited: bool,
    commands: seq<Command>,
    log: Log)

  function Init(capacity: nat): State {
    State(if capacity < 1 then 1 else capacity, [], true, true, 0, Idle, false, [],
          Log([], [], [], [], [], [], [], 0))
  }

  // ---- Steps ---------------------------------------------------------------

  datatype Label =
    | Arrive(event: Event)      // next_event yields an event
    | StreamEnd                 // next_event yields None
    | Work                      // the worker runs up to its next channel operation
    | HandleCommand             // command_rx yields a command
    | Hangup                    // every command sender is gone
    | Submit(command: Command)  // a caller queues a command
    | Take                      // the consumer receives
    | Close                     // the consumer drops its receiver

  /** A blocking send waits exactly while the channel is open and full. */
  predicate Blocked(s: State) {
    && s.open
    && |s.queue| >= s.capacity
    && (s.phase.FlushingMarker? || (s.phase.Sending? && RequiresDelivery(s.phase.event)))
  }

  predicate Enabled(s: State, l: Label) {
    match l
    case Arrive(_) => s.phase.Idle? && s.enabled && !s.exited
    case StreamEnd => s.phase.Idle? && s.enabled && !s.exited
    case Work => !s.phase.Idle? && !Blocked(s)
    case HandleCommand => s.phase.Idle? && !s.exited && s.commands != []
    case Hangup => s.phase.Idle? && !s.exited && s.commands == []
    case Submit(_) => !s.exited && |s.commands| < s.capacity
    case Take => s.open && s.queue != []
    case Close => s.open
  }

  function Push(s: State, item: Item): State {
    s.(queue := s.queue + [item], log := s.log.(accepted := s.log.accepted + [item]))
  }

  function Settle(s: State, f: Fate): State {
    s.(phase := Idle, log := s.log.(fates := s.log.fates + [f]))
  }

  function Disable(s: State): State {
    Settle(s, Lost).(enabled := false)
  }

  function Reject(s: State, e: Event, code: int): State {
    s.(log := s.log.(rejections := s.log.rejections + [Rejection(e, code)]))
  }

  function CountSkip(s: State): State {
    if s.skipped < USIZE_MAX then s.(skipped := s.skipped + 1)
    else s.(log := s.log.(absorbed := s.log.absorbed + 1))
  }

  /** The queue is full: count the event, and reject it if it was a request. */
  function Drop(s: State, e: Event): State {
    Settle(if e.Request? then Reject(CountSkip(s), e, QUEUE_FULL) else CountSkip(s), Dropped)
  }

  function FlushMarker(s: State, e: Event): State {
    Push(s, Marker(s.skipped)).(skipped := 0, phase := Sending(e))
  }

  function WorkStep(s: State): State {
    match s.phase
    case Idle => s
    case Entering(e) =>
      if s.skipped == 0 then s.(phase := Sending(e))
      else if RequiresDelivery(e) then s.(phase := FlushingMarker(e))
      else if !s.open then Disable(s)
      else if |s.queue| >= s.capacity then Drop(s, e)
      else FlushMarker(s, e)
    case FlushingMarker(e) =>
      if !s.open then Disable(s) else FlushMarker(s, e)
    case Sending(e) =>
      if !s.open then Disable(s)
      else if !RequiresDelivery(e) && |s.queue| >= s.capacity then Drop(s, e)
      else Settle(Push(s, Forwarded(e)), Delivered)
  }

  function Step(s: State, l: Label): State {
    match l
    case Arrive(e) =>
      var s1 := s.(log := s.log.(arrivals := s.log.arrivals + [e]));
      if IsTokenRefresh(e) then Reject(s1, e, TOKEN_REFRESH_UNSUPPORTED)
      else s1.(phase := Entering(e), log := s1.log.(inputs := s1.log.inputs + [e]))
    case StreamEnd => s.(exited := true)
    case Work => WorkStep(s)
    case HandleCommand =>
      if s.commands == [] then s
      else s.(commands := s.commands[1..],
              exited := s.commands[0].Shutdown?,
              log := s.log.(handled := s.log.handled + [s.commands[0]]))
    case Hangup => s.(exited := true)
    case Submit(c) => s.(commands := s.commands + [c])
    case Take =>
      if s.queue == [] then s
      else s.(queue := s.queue[1..], log := s.log.(taken := s.log.taken + [s.queue[0]]))
    case Close => s.(open := false)
  }

  function Run(s: State, trace: seq<Label>): State {
    if |trace| == 0 then s else Step(Run(s, trace[..|trace| - 1]), trace[|trace| - 1])
  }

  predicate Legal(s: State, trace: seq<Label>) {
    |trace| == 0 ||
    (Legal(s, trace[..|trace| - 1]) && Enabled(Run(s, trace[..|trace| - 1]), trace[|trace| - 1]))
  }

  /** A set of states that no legal step leaves. */
  ghost predicate StepClosed(r: iset<State>) {
    forall s, l | s in r && Enabled(s, l) :: Step(s, l) in r
  }

  lemma Stay(r: iset<State>, s: State, l: Label)
    requires StepClosed(r) && s in r && Enabled(s, l)
    ensures Step(s, l) in r
  {
  }

  ghost function Reachable(start: State): iset<State> {
    iset trace | Legal(start, trace) :: Run(start, trace)
  }

  /** The states that runs reach form a closed set holding the start, so closed sets capture runs. */
  lemma ReachableIsClosed(start: State)
    ensures start in Reachable(start) && StepClosed(Reachable(start))
  {
    assert Legal(start, []) && Run(start, []) == start;
    forall s, l | s in Reachable(start) && Enabled(s, l)
      ensures Step(s, l) in Reachable(start)
    {
      var trace :| Legal(start, trace) && Run(start, trace) == s;
      var longer := trace + [l];
      assert longer[..|longer| - 1] == trace;
      assert Legal(start, longer) && Run(start, longer) == Step(s, l);
    }
  }

  // ---- What the accepted items say about the inputs ---------------------------

  /** A consumer's reading of the stream: a marker stands for that many unseen events. */
  function Decode(items: seq<Item>): seq<Option<Event>> {
    if |items| == 0 then []
    else
      Decode(items[..|items| - 1]) +
      match items[|items| - 1]
      case Marker(n) => Gaps(n)
      case Forwarded(e) => [Some(e)]
  }

  function Gaps(n: nat): seq<Option<Event>> {
    seq(n, _ => None)
  }

  /** The inputs with a known fate, dropped ones blanked out. */
  function Mask(inputs: seq<Event>, fates: seq<Fate>): seq<Option<Event>>
    requires |fates| <= |inputs|
  {
    if |fates| == 0 then []
    else
      var rest := Mask(inputs, fates[..|fates| - 1]);
      match fates[|fates| - 1]
      case Delivered => rest + [Some(inputs[|fates| - 1])]
      case Dropped => rest + [None]
      case Lost => rest
  }

  function EventCount(items: seq<Item>): nat {
    if |items| == 0 then 0
    else EventCount(items[..|items| - 1]) + (if items[|items| - 1].Forwarded? then 1 else 0)
  }

  function MarkerSum(items: seq<Item>): nat {
    if |items| == 0 then 0
    else MarkerSum(items[..|items| - 1]) +
         (if items[|items| - 1].Marker? then items[|items| - 1].skipped else 0)
  }

  /** The inputs whose fate is `f`, in order. */
  function WithFate(inputs: seq<Event>, fates: seq<Fate>, f: Fate): seq<Event>
    requires |fates| <= |inputs|
  {
    if |fates| == 0 then []
    else
      var rest := WithFate(inputs, fates[..|fates| - 1], f);
      if fates[|fates| - 1] == f then rest + [inputs[|fates| - 1]] else rest
  }

  function Rejected(rejections: seq<Rejection>, code: int): seq<Event> {
    if |rejections| == 0 then []
    else
      var rest := Rejected(rejections[..|rejections| - 1], code);
      var last := rejections[|rejections| - 1];
      if last.code == code then rest + [last.event] else rest
  }

  function EventsOf(items: seq<Item>): seq<Event> {
    if |items| == 0 then []
    else
      var rest := EventsOf(items[..|items| - 1]);
      if items[|items| - 1].Forwarded? then rest + [items[|items| - 1].event] else rest
  }

  // ---- The invariant ---------------------------------------------------------

  predicate Shape(s: State) {
    && s.capacity >= 1
    && |s.queue| <= s.capacity
    && s.log.accepted == s.log.taken + s.queue
    && s.skipped <= USIZE_MAX
    && s.log.inputs == Filter(IsForwardable, s.log.arrivals)
    && |s.log.fates| + (if s.phase.Idle? then 0 else 1) == |s.log.inputs|
    && (!s.phase.Idle? ==> s.log.inputs[|s.log.fates|] == s.phase.event)
    && (s.phase.FlushingMarker? ==> RequiresDelivery(s.phase.event))
    && (s.phase.Sending? ==> s.skipped == 0)
    && (!s.phase.Idle? ==> s.enabled)
  }

  predicate FatesSound(s: State)
    requires |s.log.fates| <= |s.log.inputs|
  {
    && (forall i | 0 <= i < |s.log.fates| :: s.log.fates[i] == Dropped ==> !RequiresDelivery(s.log.inputs[i]))
    && (forall i | 0 <= i < |s.log.fates| :: s.log.fates[i] == Lost ==> i == |s.log.fates| - 1 && !s.enabled && !s.open)
  }

  predicate Accounts(s: State)
    requires |s.log.fates| <= |s.log.inputs|
  {
    AccountsFor(s.log.inputs, s.log.fates, s.log.accepted, s.skipped, s.log.absorbed)
  }

  /** The accepted items, the lag count held and the drops absorbed tell exactly what became of the inputs. */
  predicate AccountsFor(inputs: seq<Event>, fates: seq<Fate>, accepted: seq<Item>, skipped: nat, absorbed: nat)
    requires |fates| <= |inputs|
  {
    && EventsOf(accepted) == WithFate(inputs, fates, Delivered)
    && (absorbed == 0 ==> Decode(accepted) + Gaps(skipped) == Mask(inputs, fates))
    && EventCount(accepted) + MarkerSum(accepted) + skipped + absorbed == |Mask(inputs, fates)|
  }

  predicate RequestsSettled(s: State)
    requires |s.log.fates| <= |s.log.inputs|
  {
    && Rejected(s.log.rejections, QUEUE_FULL)
       == Filter(IsRequest, WithFate(s.log.inputs, s.log.fates, Dropped))
    && Rejected(s.log.rejections, TOKEN_REFRESH_UNSUPPORTED)
       == Filter(IsTokenRefresh, s.log.arrivals)
  }

  predicate Inv(s: State) {
    Shape(s) && FatesSound(s) && Accounts(s) && RequestsSettled(s)
  }

  // ---- One-step facts about the readings -------------------------------------

  function AddIf(s: seq<Event>, e: Event, add: bool): seq<Event> {
    if add then s + [e] else s
  }

  function MaskSnoc(mask: seq<Option<Event>>, e: Event, f: Fate): seq<Option<Event>> {
    match f
    case Delivered => mask + [Some(e)]
    case Dropped => mask + [None]
    case Lost => mask
  }

  lemma SnocReadings(items: seq<Item>, x: Item)
    ensures Decode(items + [x]) == Decode(items) + (match x case Marker(n) => Gaps(n) case Forwarded(e) => [Some(e)])
    ensures EventCount(items + [x]) == EventCount(items) + (if x.Forwarded? then 1 else 0)
    ensures MarkerSum(items + [x]) == MarkerSum(items) + (if x.Marker? then x.skipped else 0)
    ensures EventsOf(items + [x]) == if x.Forwarded? then EventsOf(items) + [x.event] else EventsOf(items)
  {
    assert (items + [x])[..|items|] == items;
  }

  lemma SnocFate(inputs: seq<Event>, fates: seq<Fate>, f: Fate)
    requires |fates| < |inputs|
    ensures Mask(inputs, fates + [f]) == MaskSnoc(Mask(inputs, fates), inputs[|fates|], f)
    ensures WithFate(inputs, fates + [f], Delivered) == AddIf(WithFate(inputs, fates, Delivered), inputs[|fates|], f.Delivered?)
    ensures WithFate(inputs, fates + [f], Dropped) == AddIf(WithFate(inputs, fates, Dropped), inputs[|fates|], f.Dropped?)
  {
    assert (fates + [f])[..|fates|] == fates;
  }

  lemma SnocRejection(rs: seq<Rejection>, r: Rejection, code: int)
    ensures Rejected(rs + [r], code) == AddIf(Rejected(rs, code), r.event, r.code == code)
  {
    assert (rs + [r])[..|rs|] == rs;
  }

  lemma {:induction false} MoreInputs(inputs: seq<Event>, e: Event, fates: seq<Fate>)
    requires |fates| <= |inputs|
    ensures Mask(inputs + [e], fates) == Mask(inputs, fates)
    ensures WithFate(inputs + [e], fates, Delivered) == WithFate(inputs, fates, Delivered)
    ensures WithFate(inputs + [e], fates, Dropped) == WithFate(inputs, fates, Dropped)
  {
    if |fates| > 0 {
      MoreInputs(inputs, e, fates[..|fates| - 1]);
    }
  }

  // ---- Preservation ----------------------------------------------------------

  lemma SettleKeeps(s: State, s': State, f: Fate)
    requires Inv(s) && !s.phase.Idle?
    requires s'.log.inputs == s.log.inputs && s'.log.fates == s.log.fates + [f]
    ensures Mask(s'.log.inputs, s'.log.fates) == MaskSnoc(Mask(s.log.inputs, s.log.fates), s.phase.event, f)
    ensures WithFate(s'.log.inputs, s'.log.fates, Delivered)
            == AddIf(WithFate(s.log.inputs, s.log.fates, Delivered), s.phase.event, f.Delivered?)
    ensures WithFate(s'.log.inputs, s'.log.fates, Dropped)
            == AddIf(WithFate(s.log.inputs, s.log.fates, Dropped), s.phase.event, f.Dropped?)
  {
    SnocFate(s.log.inputs, s.log.fates, f);
  }

  lemma OneMoreGap(decoded: seq<Option<Event>>, n: nat)
    ensures decoded + Gaps(n + 1) == decoded + Gaps(n) + [None]
  {
    assert Gaps(n + 1) == Gaps(n) + [None];
  }

  /** The rejections once an event has been dropped: one more if it was a request. */
  function AfterDrop(rs: seq<Rejection>, e: Event): seq<Rejection> {
    if e.Request? then rs + [Rejection(e, QUEUE_FULL)] else rs
  }

  lemma DropLog(s: State, e: Event)
    ensures var s' := Drop(s, e);
            && s'.log.inputs == s.log.inputs && s'.log.arrivals == s.log.arrivals
            && s'.log.fates == s.log.fates + [Dropped]
            && s'.log.rejections == AfterDrop(s.log.rejections, e)
            && s'.log.accepted == s.log.accepted
            && (|| (s'.skipped == s.skipped + 1 && s'.log.absorbed == s.log.absorbed)
                || (s'.skipped == s.skipped && s'.log.absorbed == s.log.absorbed + 1))
  {
  }

  /** A drop is counted, or absorbed by the saturated counter. */
  lemma DropAccounted(inputs: seq<Event>, fates: seq<Fate>, accepted: seq<Item>, skipped: nat, absorbed: nat)
    requires |fates| < |inputs| && AccountsFor(inputs, fates, accepted, skipped, absorbed)
    ensures AccountsFor(inputs, fates + [Dropped], accepted, skipped + 1, absorbed)
    ensures AccountsFor(inputs, fates + [Dropped], accepted, skipped, absorbed + 1)
  {
    SnocFate(inputs, fates, Dropped);
    OneMoreGap(Decode(accepted), skipped);
  }

  lemma DropAccounts(s: State, e: Event)
    requires Shape(s) && Accounts(s) && !s.phase.Idle? && s.phase.event == e
    ensures |Drop(s, e).log.fates| <= |Drop(s, e).log.inputs|
    ensures Accounts(Drop(s, e))
  {
    DropLog(s, e);
    DropAccounted(s.log.inputs, s.log.fates, s.log.accepted, s.skipped, s.log.absorbed);
  }

  lemma OverloadRejected(rs: seq<Rejection>, dropped: seq<Event>, e: Event)
    requires Rejected(rs, QUEUE_FULL) == Filter(IsRequest, dropped)
    ensures Rejected(AfterDrop(rs, e), QUEUE_FULL) == Filter(IsRequest, dropped + [e])
  {
    SnocRejection(rs, Rejection(e, QUEUE_FULL), QUEUE_FULL);
    FilterSnoc(IsRequest, dropped, e);
  }

  lemma RefreshesUntouched(rs: seq<Rejection>, e: Event)
    ensures Rejected(AfterDrop(rs, e), TOKEN_REFRESH_UNSUPPORTED) == Rejected(rs, TOKEN_REFRESH_UNSUPPORTED)
  {
    SnocRejection(rs, Rejection(e, QUEUE_FULL), TOKEN_REFRESH_UNSUPPORTED);
  }

  lemma DropRejects(s: State, e: Event)
    requires Shape(s) && RequestsSettled(s) && !s.phase.Idle? && s.phase.event == e
    ensures |Drop(s, e).log.fates| <= |Drop(s, e).log.inputs|
    ensures RequestsSettled(Drop(s, e))
  {
    DropLog(s, e);
    SnocFate(s.log.inputs, s.log.fates, Dropped);
    OverloadRejected(s.log.rejections, WithFate(s.log.inputs, s.log.fates, Dropped), e);
    RefreshesUntouched(s.log.rejections, e);
  }

  lemma DropShape(s: State, e: Event)
    requires Shape(s) && FatesSound(s) && !s.phase.Idle? && s.phase.event == e && !RequiresDelivery(e)
    ensures Shape(Drop(s, e)) && FatesSound(Drop(s, e))
  {
  }

  lemma DropKeeps(s: State, e: Event)
    requires Inv(s) && !s.phase.Idle? && s.phase.event == e && !RequiresDelivery(e)
    ensures Inv(Drop(s, e))
  {
    DropShape(s, e);
    DropAccounts(s, e);
    DropRejects(s, e);
  }

  lemma DisableKeeps(s: State)
    requires Inv(s) && !s.phase.Idle? && !s.open
    ensures Inv(Disable(s))
  {
    SettleKeeps(s, Disable(s), Lost);
  }

  lemma FlushKeeps(s: State, e: Event)
    requires Inv(s) && s.open && |s.queue| < s.capacity
    requires (s.phase.Entering? || s.phase.FlushingMarker?) && s.phase.event == e
    ensures Inv(FlushMarker(s, e))
  {
    SnocReadings(s.log.accepted, Marker(s.skipped));
    var s' := FlushMarker(s, e);
    assert Gaps(0) == [];
    assert Decode(s'.log.accepted) + Gaps(0) == Decode(s.log.accepted) + Gaps(s.skipped);
    assert EventsOf(s'.log.accepted) == EventsOf(s.log.accepted);
    assert s'.log.accepted == s.log.taken + (s.queue + [Marker(s.skipped)]);
  }

  lemma DeliveryAccounted(inputs: seq<Event>, fates: seq<Fate>, accepted: seq<Item>, absorbed: nat)
    requires |fates| < |inputs| && AccountsFor(inputs, fates, accepted, 0, absorbed)
    ensures AccountsFor(inputs, fates + [Delivered], accepted + [Forwarded(inputs[|fates|])], 0, absorbed)
  {
    var e := inputs[|fates|];
    SnocReadings(accepted, Forwarded(e));
    SnocFate(inputs, fates, Delivered);
    assert Decode(accepted) + Gaps(0) == Decode(accepted);
    assert Decode(accepted) + [Some(e)] + Gaps(0) == Decode(accepted) + [Some(e)];
  }

  lemma DeliverRejects(s: State, e: Event)
    requires Shape(s) && RequestsSettled(s) && s.phase.Sending? && s.phase.event == e
    ensures var s' := Settle(Push(s, Forwarded(e)), Delivered);
            |s'.log.fates| <= |s'.log.inputs| && RequestsSettled(s')
  {
    SnocFate(s.log.inputs, s.log.fates, Delivered);
  }

  lemma DeliverKeeps(s: State, e: Event)
    requires Inv(s) && s.open && |s.queue| < s.capacity
    requires s.phase.Sending? && s.phase.event == e
    ensures Inv(Settle(Push(s, Forwarded(e)), Delivered))
  {
    DeliveryAccounted(s.log.inputs, s.log.fates, s.log.accepted, s.log.absorbed);
    DeliverRejects(s, e);
    assert s.log.accepted + [Forwarded(e)] == s.log.taken + (s.queue + [Forwarded(e)]);
  }

  lemma WorkKeeps(s: State)
    requires Inv(s) && Enabled(s, Work)
    ensures Inv(WorkStep(s))
  {
    var e := s.phase.event;
    match s.phase
    case Entering(_) =>
      if s.skipped == 0 || RequiresDelivery(e) {
      } else if !s.open {
        DisableKeeps(s);
      } else if |s.queue| >= s.capacity {
        DropKeeps(s, e);
      } else {
        FlushKeeps(s, e);
      }
    case FlushingMarker(_) =>
      if !s.open { DisableKeeps(s); } else { FlushKeeps(s, e); }
    case Sending(_) =>
      if !s.open { DisableKeeps(s); }
      else if !RequiresDelivery(e) && |s.queue| >= s.capacity { DropKeeps(s, e); }
      else { DeliverKeeps(s, e); }
  }

  lemma ArriveKeeps(s: State, e: Event)
    requires Inv(s) && Enabled(s, Arrive(e))
    ensures Inv(Step(s, Arrive(e)))
  {
    FilterSnoc(IsForwardable, s.log.arrivals, e);
    FilterSnoc(IsTokenRefresh, s.log.arrivals, e);
    SnocRejection(s.log.rejections, Rejection(e, TOKEN_REFRESH_UNSUPPORTED), QUEUE_FULL);
    SnocRejection(s.log.rejections, Rejection(e, TOKEN_REFRESH_UNSUPPORTED), TOKEN_REFRESH_UNSUPPORTED);
    MoreInputs(s.log.inputs, e, s.log.fates);
  }

  lemma StepKeeps(s: State, l: Label)
    requires Inv(s) && Enabled(s, l)
    ensures Inv(Step(s, l))
  {
    match l
    case Arrive(e) => ArriveKeeps(s, e);
    case Work => WorkKeeps(s);
    case Take => assert s.log.taken + s.queue == (s.log.taken + [s.queue[0]]) + s.queue[1..];
    case _ =>
  }

  lemma {:induction false} RunKeeps(s: State, trace: seq<Label>)
    requires Inv(s) && Legal(s, trace)
    ensures Inv(Run(s, trace))
  {
    if |trace| > 0 {
      RunKeeps(s, trace[..|trace| - 1]);
      StepKeeps(Run(s, trace[..|trace| - 1]), trace[|trace| - 1]);
    }
  }

  lemma InitHolds(capacity: nat)
    ensures Inv(Init(capacity))
  {
    assert Gaps(0) == [];
  }

  // ---- What every run guarantees ---------------------------------------------

  /** The inputs whose fate is known and that were not cut off by a closed channel. */
  function Settled(s: State): seq<Event>
    requires |s.log.fates| <= |s.log.inputs|
  {
    SettledOf(s.log.inputs, s.log.fates)
  }

  /** The inputs with a fate, without the one cut off at the end, if any. */
  function SettledOf(inputs: seq<Event>, fates: seq<Fate>): seq<Event>
    requires |fates| <= |inputs|
  {
    if |fates| > 0 && fates[|fates| - 1].Lost? then inputs[..|fates| - 1] else inputs[..|fates|]
  }

  predicate LostOnlyLast(fates: seq<Fate>) {
    forall i | 0 <= i < |fates| - 1 :: !fates[i].Lost?
  }

  lemma {:induction false} MaskAligned(inputs: seq<Event>, fates: seq<Fate>)
    requires |fates| <= |inputs| && LostOnlyLast(fates)
    ensures |Mask(inputs, fates)| == |fates| - (if |fates| > 0 && fates[|fates| - 1].Lost? then 1 else 0)
    ensures forall i | 0 <= i < |Mask(inputs, fates)| ::
              Mask(inputs, fates)[i] == if fates[i].Delivered? then Some(inputs[i]) else None
  {
    if |fates| > 0 {
      MaskAligned(inputs, fates[..|fates| - 1]);
    }
  }

  lemma {:induction false} DecodeAt(items: seq<Item>, p: nat)
    requires p < |items| && items[p].Forwarded?
    ensures |Decode(items[..p])| == EventCount(items[..p]) + MarkerSum(items[..p]) < |Decode(items)|
    ensures Decode(items)[EventCount(items[..p]) + MarkerSum(items[..p])] == Some(items[p].event)
  {
    DecodeLength(items[..p]);
    if p == |items| - 1 {
    } else {
      var init := items[..|items| - 1];
      DecodeAt(init, p);
      assert init[..p] == items[..p];
    }
  }

  lemma {:induction false} DecodeLength(items: seq<Item>)
    ensures |Decode(items)| == EventCount(items) + MarkerSum(items)
  {
    if |items| > 0 {
      DecodeLength(items[..|items| - 1]);
    }
  }

  /** The input position that the accepted items announce for the event at position `p`. */
  function IndexOf(items: seq<Item>, p: nat): nat
    requires p <= |items|
  {
    EventCount(items[..p]) + MarkerSum(items[..p])
  }

  predicate Locates(s: State) {
    && |s.log.fates| <= |s.log.inputs|
    && (s.log.absorbed == 0 ==>
          forall p | 0 <= p < |s.log.accepted| && s.log.accepted[p].Forwarded? ::
            && IndexOf(s.log.accepted, p) < |s.log.fates|
            && s.log.inputs[IndexOf(s.log.accepted, p)] == s.log.accepted[p].event
            && s.log.fates[IndexOf(s.log.accepted, p)] == Delivered)
  }

  lemma InvLocates(s: State)
    requires Inv(s)
    ensures Locates(s)
  {
    if s.log.absorbed == 0 {
      forall p | 0 <= p < |s.log.accepted| && s.log.accepted[p].Forwarded?
        ensures IndexOf(s.log.accepted, p) < |s.log.fates|
        ensures s.log.inputs[IndexOf(s.log.accepted, p)] == s.log.accepted[p].event
        ensures s.log.fates[IndexOf(s.log.accepted, p)] == Delivered
      {
        DecodeAt(s.log.accepted, p);
        MaskAligned(s.log.inputs, s.log.fates);
        var i := IndexOf(s.log.accepted, p);
        assert (Decode(s.log.accepted) + Gaps(s.skipped))[i] == Decode(s.log.accepted)[i];
      }
    }
  }

  /**
    Any consumer can locate every event it receives: the input position of an
    accepted event is the number of events accepted before it plus the sum of the
    forwarder's own lag counts before it. This holds in every run, for every
    capacity and every consumer schedule, as long as the lag counter never had to
    saturate.
   */
  lemma DeliveredIndex(capacity: nat, trace: seq<Label>)
    requires Legal(Init(capacity), trace)
    ensures Locates(Run(Init(capacity), trace))
  {
    InitHolds(capacity);
    RunKeeps(Init(capacity), trace);
    InvLocates(Run(Init(capacity), trace));
  }

  predicate Balanced(s: State) {
    && |s.log.fates| <= |s.log.inputs|
    && |Settled(s)| == EventCount(s.log.accepted) + MarkerSum(s.log.accepted) + s.skipped + s.log.absorbed
    && |s.log.inputs| - |Settled(s)| <= 1
    && (s.phase.Idle? && s.open ==> Settled(s) == s.log.inputs)
  }

  lemma InvBalances(s: State)
    requires Inv(s)
    ensures Balanced(s)
  {
    MaskAligned(s.log.inputs, s.log.fates);
    if |s.log.fates| > 0 {
      assert s.log.fates[|s.log.fates| - 1] == Lost ==> !s.open && !s.enabled;
    }
  }

  /**
    Conservation at every moment of every run: settled inputs = events accepted +
    lag counts sent + lag count held + drops absorbed by the saturated counter, and
    at most the one event in flight is not settled.
   */
  lemma Conservation(capacity: nat, trace: seq<Label>)
    requires Legal(Init(capacity), trace)
    ensures Balanced(Run(Init(capacity), trace))
  {
    InitHolds(capacity);
    RunKeeps(Init(capacity), trace);
    InvBalances(Run(Init(capacity), trace));
  }

  lemma {:induction false} DroppingKeepsLossless(inputs: seq<Event>, fates: seq<Fate>)
    requires |fates| <= |inputs|
    requires forall i | 0 <= i < |fates| :: !fates[i].Lost?
    requires forall i | 0 <= i < |fates| :: fates[i] == Dropped ==> !RequiresDelivery(inputs[i])
    ensures Filter(RequiresDelivery, WithFate(inputs, fates, Delivered)) == Filter(RequiresDelivery, inputs[..|fates|])
  {
    if |fates| > 0 {
      var n := |fates| - 1;
      DroppingKeepsLossless(inputs, fates[..n]);
      FilterSnoc(RequiresDelivery, inputs[..n], inputs[n]);
      FilterSnoc(RequiresDelivery, WithFate(inputs, fates[..n], Delivered), inputs[n]);
      assert inputs[..|fates|] == inputs[..n] + [inputs[n]];
    }
  }

  lemma LostSuffix(inputs: seq<Event>, fates: seq<Fate>)
    requires 0 < |fates| <= |inputs| && fates[|fates| - 1].Lost?
    ensures WithFate(inputs, fates, Delivered) == WithFate(inputs, fates[..|fates| - 1], Delivered)
    ensures WithFate(inputs, fates, Dropped) == WithFate(inputs, fates[..|fates| - 1], Dropped)
  {
  }

  lemma LosslessSettled(inputs: seq<Event>, fates: seq<Fate>)
    requires |fates| <= |inputs| && LostOnlyLast(fates)
    requires forall i | 0 <= i < |fates| :: fates[i] == Dropped ==> !RequiresDelivery(inputs[i])
    ensures Filter(RequiresDelivery, WithFate(inputs, fates, Delivered)) == Filter(RequiresDelivery, SettledOf(inputs, fates))
  {
    if |fates| > 0 && fates[|fates| - 1].Lost? {
      LostSuffix(inputs, fates);
      DroppingKeepsLossless(inputs, fates[..|fates| - 1]);
    } else {
      DroppingKeepsLossless(inputs, fates);
    }
  }

  /** The lossless events accepted are the settled lossless inputs, in order, and what was accepted is taken or queued. */
  predicate LosslessKept(s: State) {
    && |s.log.fates| <= |s.log.inputs|
    && Filter(RequiresDelivery, EventsOf(s.log.accepted)) == Filter(RequiresDelivery, Settled(s))
    && s.log.accepted == s.log.taken + s.queue
  }

  lemma InvLossless(s: State)
    requires Inv(s)
    ensures LosslessKept(s)
  {
    LosslessSettled(s.log.inputs, s.log.fates);
  }

  /** Lossless events are neither dropped, duplicated nor reordered, under any backpressure. */
  lemma LosslessExactly(capacity: nat, trace: seq<Label>)
    requires Legal(Init(capacity), trace)
    ensures LosslessKept(Run(Init(capacity), trace))
  {
    InitHolds(capacity);
    RunKeeps(Init(capacity), trace);
    InvLossless(Run(Init(capacity), trace));
  }

  /** The requests among `events`, with multiplicity. */
  function Requests(events: seq<Event>): multiset<Event> {
    if |events| == 0 then multiset{} else AddRequest(Requests(events[..|events| - 1]), events[|events| - 1])
  }

  function AddRequest(m: multiset<Event>, e: Event): multiset<Event> {
    if IsRequest(e) then m + multiset{e} else m
  }

  lemma RequestsSnoc(events: seq<Event>, e: Event)
    ensures Requests(events + [e]) == AddRequest(Requests(events), e)
  {
    assert (events + [e])[..|events|] == events;
  }

  lemma {:induction false} RequestsAreFiltered(events: seq<Event>)
    ensures Requests(events) == multiset(Filter(IsRequest, events))
  {
    if |events| > 0 {
      RequestsAreFiltered(events[..|events| - 1]);
    }
  }

  lemma AddRequestEitherSide(a: multiset<Event>, b: multiset<Event>, e: Event)
    ensures AddRequest(a + b, e) == AddRequest(a, e) + b == a + AddRequest(b, e)
  {
  }

  lemma RequestsOfPrefix(inputs: seq<Event>, n: nat)
    requires n < |inputs|
    ensures Requests(inputs[..n + 1]) == AddRequest(Requests(inputs[..n]), inputs[n])
  {
    assert inputs[..n + 1] == inputs[..n] + [inputs[n]];
    RequestsSnoc(inputs[..n], inputs[n]);
  }

  lemma RequestsOfFate(inputs: seq<Event>, fates: seq<Fate>, f: Fate)
    requires 0 < |fates| <= |inputs|
    ensures var rest := Requests(WithFate(inputs, fates[..|fates| - 1], f));
            Requests(WithFate(inputs, fates, f))
            == if fates[|fates| - 1] == f then AddRequest(rest, inputs[|fates| - 1]) else rest
  {
    RequestsSnoc(WithFate(inputs, fates[..|fates| - 1], f), inputs[|fates| - 1]);
  }

  lemma {:induction false} RequestsPartition(inputs: seq<Event>, fates: seq<Fate>)
    requires |fates| <= |inputs|
    requires forall i | 0 <= i < |fates| :: !fates[i].Lost?
    ensures Requests(inputs[..|fates|])
         == Requests(WithFate(inputs, fates, Delivered)) + Requests(WithFate(inputs, fates, Dropped))
  {
    if |fates| > 0 {
      var init := fates[..|fates| - 1];
      RequestsPartition(inputs, init);
      RequestsOfPrefix(inputs, |fates| - 1);
      RequestsOfFate(inputs, fates, Delivered);
      RequestsOfFate(inputs, fates, Dropped);
      AddRequestEitherSide(Requests(WithFate(inputs, init, Delivered)), Requests(WithFate(inputs, init, Dropped)),
                           inputs[|fates| - 1]);
    }
  }

  predicate RequestsAnswered(s: State) {
    && |s.log.fates| <= |s.log.inputs|
    && Requests(Settled(s)) == Requests(EventsOf(s.log.accepted)) + multiset(Rejected(s.log.rejections, QUEUE_FULL))
    && Rejected(s.log.rejections, TOKEN_REFRESH_UNSUPPORTED) == Filter(IsTokenRefresh, s.log.arrivals)
    && s.log.inputs == Filter(IsForwardable, s.log.arrivals)
    && (s.open ==> Settled(s) == s.log.inputs[..|s.log.fates|])
  }

  lemma RequestsSettle(inputs: seq<Event>, fates: seq<Fate>)
    requires |fates| <= |inputs| && LostOnlyLast(fates)
    ensures Requests(SettledOf(inputs, fates))
         == Requests(WithFate(inputs, fates, Delivered)) + Requests(WithFate(inputs, fates, Dropped))
  {
    if |fates| > 0 && fates[|fates| - 1].Lost? {
      LostSuffix(inputs, fates);
      RequestsPartition(inputs, fates[..|fates| - 1]);
    } else {
      RequestsPartition(inputs, fates);
    }
  }

  lemma InvRequests(s: State)
    requires Inv(s)
    ensures RequestsAnswered(s)
  {
    RequestsAreFiltered(WithFate(s.log.inputs, s.log.fates, Dropped));
    RequestsSettle(s.log.inputs, s.log.fates);
  }

  /**
    Every server request pulled from the runtime is delivered or rejected, never
    both and never twice. Only the single event in flight when the consumer drops
    its receiver can be neither. Token-refresh requests are all rejected and never
    reach the channel.
   */
  lemma RequestsExactlyOnce(capacity: nat, trace: seq<Label>)
    requires Legal(Init(capacity), trace)
    ensures RequestsAnswered(Run(Init(capacity), trace))
  {
    InitHolds(capacity);
    RunKeeps(Init(capacity), trace);
    InvRequests(Run(Init(capacity), trace));
  }

  // ---- Token refreshes do not interfere ----------------------------------------

  predicate IsRefreshArrival(l: Label) {
    l.Arrive? && IsTokenRefresh(l.event)
  }

  function WithoutRefreshes(trace: seq<Label>): seq<Label> {
    Filter(l => !IsRefreshArrival(l), trace)
  }

  /** Equal but for the arrivals seen and the token-refresh rejections sent. */
  predicate SameButRefreshes(s: State, t: State) {
    && s == t.(log := t.log.(arrivals := s.log.arrivals, rejections := s.log.rejections))
    && Rejected(s.log.rejections, QUEUE_FULL) == Rejected(t.log.rejections, QUEUE_FULL)
  }

  lemma DropCongruence(s: State, t: State, e: Event)
    requires SameButRefreshes(s, t)
    ensures SameButRefreshes(Drop(s, e), Drop(t, e))
  {
    assert SameButRefreshes(CountSkip(s), CountSkip(t));
    SnocRejection(s.log.rejections, Rejection(e, QUEUE_FULL), QUEUE_FULL);
    SnocRejection(t.log.rejections, Rejection(e, QUEUE_FULL), QUEUE_FULL);
  }

  lemma WorkCongruence(s: State, t: State)
    requires SameButRefreshes(s, t) && Enabled(s, Work)
    ensures SameButRefreshes(WorkStep(s), WorkStep(t))
  {
    var e := s.phase.event;
    var drops := s.open && |s.queue| >= s.capacity && !RequiresDelivery(e)
                 && (s.phase.Sending? || (s.phase.Entering? && s.skipped > 0));
    if drops {
      DropCongruence(s, t, e);
      assert WorkStep(s) == Drop(s, e) && WorkStep(t) == Drop(t, e);
    } else {
      assert WorkStep(s).log.rejections == s.log.rejections;
      assert WorkStep(t).log.rejections == t.log.rejections;
    }
  }

  lemma StepCongruence(s: State, t: State, l: Label)
    requires SameButRefreshes(s, t) && Enabled(s, l) && !IsRefreshArrival(l)
    ensures Enabled(t, l) && SameButRefreshes(Step(s, l), Step(t, l))
  {
    if l.Work? {
      WorkCongruence(s, t);
    }
  }

  lemma RefreshIsInvisible(s: State, t: State, l: Label)
    requires SameButRefreshes(s, t) && IsRefreshArrival(l)
    ensures SameButRefreshes(Step(s, l), t)
  {
    SnocRejection(s.log.rejections, Rejection(l.event, TOKEN_REFRESH_UNSUPPORTED), QUEUE_FULL);
  }

  /**
    Token-refresh requests leave the rest of a run untouched: erasing them gives a
    legal run with the same channel, lag count, fates, overload rejections and
    command handling.
   */
  lemma {:induction false} RefreshesDoNotInterfere(s: State, trace: seq<Label>)
    requires Legal(s, trace)
    ensures Legal(s, WithoutRefreshes(trace))
    ensures SameButRefreshes(Run(s, trace), Run(s, WithoutRefreshes(trace)))
  {
    if |trace| > 0 {
      var init, l := trace[..|trace| - 1], trace[|trace| - 1];
      RefreshesDoNotInterfere(s, init);
      if IsRefreshArrival(l) {
        RefreshIsInvisible(Run(s, init), Run(s, WithoutRefreshes(init)), l);
      } else {
        StepCongruence(Run(s, init), Run(s, WithoutRefreshes(init)), l);
        assert WithoutRefreshes(trace) == WithoutRefreshes(init) + [l];
        assert (WithoutRefreshes(init) + [l])[..|WithoutRefreshes(init)|] == WithoutRefreshes(init);
      }
    }
  }

  // ---- Shutdown --------------------------------------------------------------

  /** How many queued commands the worker handles before it reaches `Shutdown`. */
  function CommandsAhead(commands: seq<Command>): nat {
    if commands == [] || commands[0].Shutdown? then 0 else 1 + CommandsAhead(commands[1..])
  }

  lemma {:induction false} SubmitBehindShutdown(commands: seq<Command>, c: Command)
    requires Shutdown in commands
    ensures CommandsAhead(commands + [c]) == CommandsAhead(commands)
  {
    if !commands[0].Shutdown? {
      SubmitBehindShutdown(commands[1..], c);
      assert (commands + [c])[1..] == commands[1..] + [c];
    }
  }

  /** The worker's remaining obligations once the receiver is gone and `Shutdown` is queued. */
  function Remaining(s: State): nat {
    if s.exited then 0
    else
      1 + CommandsAhead(s.commands) +
      match s.phase
      case Idle => if s.enabled then 3 else 0
      case Entering(_) => 2
      case FlushingMarker(_) => 1
      case Sending(_) => 1
  }

  predicate ShuttingDown(s: State) {
    && !s.open
    && (!s.exited ==> Shutdown in s.commands)
    && (s.exited ==> s.phase.Idle?)
  }

  /** Steps by which the worker itself moves on; a token refresh leaves it where it was. */
  predicate WorkerMoves(l: Label) {
    l.Work? || l.HandleCommand? || l.StreamEnd? || (l.Arrive? && !IsTokenRefresh(l.event))
  }

  function Moves(trace: seq<Label>): nat {
    if |trace| == 0 then 0
    else Moves(trace[..|trace| - 1]) + (if WorkerMoves(trace[|trace| - 1]) then 1 else 0)
  }

  lemma ShutdownStep(s: State, l: Label)
    requires ShuttingDown(s) && Enabled(s, l)
    ensures ShuttingDown(Step(s, l))
    ensures Remaining(Step(s, l)) <= Remaining(s)
    ensures WorkerMoves(l) ==> Remaining(Step(s, l)) < Remaining(s)
  {
    if l.Submit? {
      SubmitBehindShutdown(s.commands, l.command);
    } else if l.HandleCommand? && !s.commands[0].Shutdown? {
      assert s.commands == [s.commands[0]] + s.commands[1..];
    }
  }

  /**
    After `shutdown` has dropped the receiver and queued its command, nothing can
    hold the worker: it is never blocked in a send, and it makes at most
    `Remaining(s)` further moves, whatever the runtime and other callers do.
   */
  lemma {:induction false} ShutdownIsBounded(s: State, trace: seq<Label>)
    requires ShuttingDown(s) && Legal(s, trace)
    ensures var s' := Run(s, trace);
            && ShuttingDown(s') && !Blocked(s')
            && Moves(trace) + Remaining(s') <= Remaining(s)
            && (Moves(trace) >= Remaining(s) ==> s'.exited)
            && (!s'.exited ==> Enabled(s', if s'.phase.Idle? then HandleCommand else Work))
  {
    if |trace| > 0 {
      var init := trace[..|trace| - 1];
      ShutdownIsBounded(s, init);
      ShutdownStep(Run(s, init), trace[|trace| - 1]);
    }
  }

  // ---- The worker's code -----------------------------------------------------

  datatype ForwardResult = Continue | DisableStream
  datatype SendResult = Sent | Full | Closed

  /**
    The worker's variables and the channel it shares with the consumer. A method
    that starts inside a closed set of states ends inside it, whichever closed set
    that is; for `Reachable(start)` this says that its effect is a legal run, so
    each guarantee proved for runs holds of the code.
   */
  class InProcessWorker {
    const capacity: nat
    var queue: seq<Item>
    var open: bool
    var enabled: bool
    var skipped: nat
    var exited: bool
    var commands: seq<Command>
    ghost var log: Log

    ghost function View(phase: Phase): State
      reads this
    {
      State(capacity, queue, open, enabled, skipped, phase, exited, commands, log)
    }

    constructor (channelCapacity: nat)
      ensures View(Idle) == Init(channelCapacity)
    {
      capacity := if channelCapacity < 1 then 1 else channelCapacity;
      queue, open, enabled, skipped, exited, commands := [], true, true, 0, false, [];
      log := Log([], [], [], [], [], [], [], 0);
    }

    /** The consumer runs for a while: it takes some events and may drop its receiver. */
    method Interfere(ghost reach: iset<State>, ghost phase: Phase)
      requires StepClosed(reach) && View(phase) in reach
      modifies this`queue, this`open, this`log
      ensures View(phase) in reach
      ensures log == old(log).(taken := log.taken)
      ensures |queue| <= old(|queue|) && (open ==> old(open))
    {
      var n: nat := *;
      while open && queue != [] && n > 0
        invariant View(phase) in reach
        invariant log == old(log).(taken := log.taken)
        invariant |queue| <= old(|queue|) && (open ==> old(open))
      {
        Stay(reach, View(phase), Take);
        log := log.(taken := log.taken + [queue[0]]);
        queue := queue[1..];
        n := n - 1;
      }
      var leave: bool := *;
      if open && leave {
        Stay(reach, View(phase), Close);
        open := false;
      }
    }

    /** A blocking send waits until the consumer has made room or is gone. */
    method AwaitRoom(ghost reach: iset<State>, ghost phase: Phase)
      requires StepClosed(reach) && View(phase) in reach && capacity >= 1
      modifies this`queue, this`open, this`log
      ensures View(phase) in reach
      ensures log == old(log).(taken := log.taken)
      ensures !open || |queue| < capacity
    {
      Interfere(reach, phase);
      while open && |queue| >= capacity
        invariant View(phase) in reach
        invariant log == old(log).(taken := log.taken)
        decreases |queue|, open
      {
        if * {
          Stay(reach, View(phase), Take);
          log := log.(taken := log.taken + [queue[0]]);
          queue := queue[1..];
        } else {
          Stay(reach, View(phase), Close);
          open := false;
        }
      }
    }

    method TrySend(item: Item) returns (r: SendResult)
      modifies this`queue, this`log
      ensures r == (if !open then Closed else if old(|queue|) >= capacity then Full else Sent)
      ensures View(Idle) == if r.Sent? then Push(old(View(Idle)), item) else old(View(Idle))
    {
      if !open { return Closed; }
      if |queue| >= capacity { return Full; }
      queue := queue + [item];
      log := log.(accepted := log.accepted + [item]);
      return Sent;
    }

    method CountDrop(event: Event)
      modifies this`skipped, this`log
      ensures View(Idle) == Drop(old(View(Idle)), event)
    {
      if skipped < USIZE_MAX {
        skipped := skipped + 1;
      } else {
        log := log.(absorbed := log.absorbed + 1);
      }
      if event.Request? {
        log := log.(rejections := log.rejections + [Rejection(event, QUEUE_FULL)]);
      }
      log := log.(fates := log.fates + [Dropped]);
    }

    ghost method CutOff()
      modifies this`log
      ensures View(Idle) == Settle(old(View(Idle)), Lost)
    {
      log := log.(fates := log.fates + [Lost]);
    }

    /** Surfaces a pending lag count first; `None` means the event itself is still to be sent. */
    method FlushLag(event: Event, ghost reach: iset<State>) returns (early: Option<ForwardResult>)
      requires StepClosed(reach) && View(Entering(event)) in reach && capacity >= 1 && enabled
      modifies this`queue, this`open, this`log, this`skipped
      ensures early.None? ==> View(Sending(event)) in reach && log.fates == old(log.fates)
      ensures early == Some(Continue) ==>
                View(Idle) in reach && log.fates == old(log.fates) + [Dropped] && !RequiresDelivery(event)
      ensures early == Some(DisableStream) ==>
                View(Idle).(enabled := false) in reach && log.fates == old(log.fates) + [Lost]
      ensures log.inputs == old(log.inputs) && log.arrivals == old(log.arrivals)
    {
      ghost var before := View(Entering(event));
      Stay(reach, before, Work);
      if skipped == 0 {
        return None;
      }
      if RequiresDelivery(event) {
        AwaitRoom(reach, FlushingMarker(event));
        ghost var waiting := View(FlushingMarker(event));
        Stay(reach, waiting, Work);
        var sent := TrySend(Marker(skipped));
        if !sent.Sent? {
          CutOff();
          assert View(Idle).(enabled := false) == Step(waiting, Work);
          return Some(DisableStream);
        }
        skipped := 0;
        assert View(Sending(event)) == Step(waiting, Work);
        return None;
      }
      var sent := TrySend(Marker(skipped));
      match sent {
        case Sent =>
          skipped := 0;
          assert View(Sending(event)) == Step(before, Work);
          return None;
        case Full =>
          CountDrop(event);
          assert View(Idle) == Step(before, Work);
          return Some(Continue);
        case Closed =>
          CutOff();
          assert View(Idle).(enabled := false) == Step(before, Work);
          return Some(DisableStream);
      }
    }

    method Deliver(event: Event, ghost reach: iset<State>) returns (r: ForwardResult)
      requires StepClosed(reach) && View(Sending(event)) in reach && capacity >= 1 && enabled
      modifies this`queue, this`open, this`log, this`skipped
      ensures View(Idle).(enabled := r.Continue?) in reach
      ensures r.DisableStream? ==> log.fates == old(log.fates) + [Lost]
      ensures r.Continue? ==>
                || log.fates == old(log.fates) + [Delivered]
                || (log.fates == old(log.fates) + [Dropped] && !RequiresDelivery(event))
      ensures log.inputs == old(log.inputs) && log.arrivals == old(log.arrivals)
    {
      if RequiresDelivery(event) {
        AwaitRoom(reach, Sending(event));
      } else {
        Interfere(reach, Sending(event));
      }
      ghost var sending := View(Sending(event));
      Stay(reach, sending, Work);
      var sent := TrySend(Forwarded(event));
      match sent {
        case Sent =>
          log := log.(fates := log.fates + [Delivered]);
          assert View(Idle) == Step(sending, Work);
          return Continue;
        case Full =>
          CountDrop(event);
          assert View(Idle) == Step(sending, Work);
          return Continue;
        case Closed =>
          CutOff();
          assert View(Idle).(enabled := false) == Step(sending, Work);
          return DisableStream;
      }
    }

    /**
      Forwards one event. The event's fate is settled before the call returns, it
      is cut off exactly when the stream is disabled, and a lossless event is never
      dropped.
     */
    method Forward(event: Event, ghost reach: iset<State>) returns (r: ForwardResult)
      requires StepClosed(reach) && View(Entering(event)) in reach && capacity >= 1 && enabled
      modifies this`queue, this`open, this`log, this`skipped
      ensures View(Idle).(enabled := r.Continue?) in reach
      ensures r.DisableStream? ==> log.fates == old(log.fates) + [Lost]
      ensures r.Continue? ==>
                || log.fates == old(log.fates) + [Delivered]
                || (log.fates == old(log.fates) + [Dropped] && !RequiresDelivery(event))
      ensures log.inputs == old(log.inputs) && log.arrivals == old(log.arrivals)
    {
      Interfere(reach, Entering(event));
      var early := FlushLag(event, reach);
      if early.Some? {
        return early.value;
      }
      r := Deliver(event, reach);
    }

    /**
      One turn of the worker loop on the event branch. A token refresh is rejected and
      goes no further. Any other event is handed to the forwarder and its fate is
      settled, and the stream is disabled exactly if it was cut off.
     */
    method OnEvent(next: Option<Event>, ghost reach: iset<State>)
      requires StepClosed(reach) && View(Idle) in reach && capacity >= 1 && enabled && !exited
      modifies this
      ensures View(Idle) in reach
      ensures exited == next.None?
      ensures log.arrivals == if next.Some? then old(log.arrivals) + [next.value] else old(log.arrivals)
      ensures next.Some? && IsTokenRefresh(next.value) ==>
                && log.rejections == old(log.rejections) + [Rejection(next.value, TOKEN_REFRESH_UNSUPPORTED)]
                && log.inputs == old(log.inputs) && log.fates == old(log.fates) && enabled
      ensures next.Some? && !IsTokenRefresh(next.value) ==>
                && log.inputs == old(log.inputs) + [next.value] && |log.fates| == |old(log.fates)| + 1
                && log.fates[..|old(log.fates)|] == old(log.fates)
                && (log.fates[|old(log.fates)|].Lost? <==> !enabled)
                && (log.fates[|old(log.fates)|].Dropped? ==> !RequiresDelivery(next.value))
    {
      if next.None? {
        Stay(reach, View(Idle), StreamEnd);
        exited := true;
        return;
      }
      var event := next.value;
      Stay(reach, View(Idle), Arrive(event));
      log := log.(arrivals := log.arrivals + [event]);
      if IsTokenRefresh(event) {
        log := log.(rejections := log.rejections + [Rejection(event, TOKEN_REFRESH_UNSUPPORTED)]);
        return;
      }
      log := log.(inputs := log.inputs + [event]);
      var r := Forward(event, reach);
      if r.DisableStream? {
        enabled := false;
      }
    }

    /** One turn of the worker loop on the command branch; `None` when every sender is gone. */
    method OnCommand(ghost reach: iset<State>)
      requires StepClosed(reach) && View(Idle) in reach && !exited
      modifies this
      ensures View(Idle) in reach
      ensures exited <==> (old(commands) == [] || old(commands)[0].Shutdown?)
    {
      if commands == [] {
        Stay(reach, View(Idle), Hangup);
        exited := true;
      } else {
        Stay(reach, View(Idle), HandleCommand);
        var command := commands[0];
        commands := commands[1..];
        log := log.(handled := log.handled + [command]);
        exited := command.Shutdown?;
      }
    }

    /** A caller queues a command if there is room for it. */
    method Queue(command: Command, ghost reach: iset<State>)
      requires StepClosed(reach) && View(Idle) in reach
      modifies this`commands
      ensures View(Idle) in reach
      ensures commands == if !exited && |old(commands)| < capacity then old(commands) + [command] else old(commands)
    {
      if !exited && |commands| < capacity {
        Stay(reach, View(Idle), Submit(command));
        commands := commands + [command];
      }
    }
  }

  // ---- What the code guarantees ------------------------------------------------

  /** Everything proved of runs, as a property of one state. */
  predicate Guaranteed(s: State) {
    Locates(s) && Balanced(s) && LosslessKept(s) && RequestsAnswered(s)
  }

  lemma ReachableGuaranteed(capacity: nat, s: State)
    requires s in Reachable(Init(capacity))
    ensures Guaranteed(s)
  {
    var trace :| Legal(Init(capacity), trace) && Run(Init(capacity), trace) == s;
    DeliveredIndex(capacity, trace);
    Conservation(capacity, trace);
    LosslessExactly(capacity, trace);
    RequestsExactlyOnce(capacity, trace);
  }

  /** What the worker's `select!` finds ready, or what a caller does between two turns. */
  datatype Turn = EventTurn(next: Option<Event>) | CommandTurn | CallerTurn(command: Command)

  /**
    The worker's loop from start to exit, over any sequence of ready branches, with the
    consumer free to act before every turn and inside it: whatever happens, the state is
    one that a legal run reaches, so all guarantees hold of it.
   */
  method RunWorker(channelCapacity: nat, turns: seq<Turn>) returns (worker: InProcessWorker)
    ensures fresh(worker)
    ensures worker.View(Idle) in Reachable(Init(channelCapacity))
    ensures Guaranteed(worker.View(Idle))
  {
    worker := new InProcessWorker(channelCapacity);
    ghost var reach := Reachable(Init(channelCapacity));
    ReachableIsClosed(Init(channelCapacity));
    for i := 0 to |turns|
      invariant fresh(worker) && worker.capacity >= 1
      invariant worker.View(Idle) in reach
    {
      worker.Interfere(reach, Idle);
      match turns[i] {
        case EventTurn(next) =>
          if worker.enabled && !worker.exited { worker.OnEvent(next, reach); }
        case CommandTurn =>
          if !worker.exited { worker.OnCommand(reach); }
        case CallerTurn(command) => worker.Queue(command, reach);
      }
    }
    ReachableGuaranteed(channelCapacity, worker.View(Idle));
  }
}
