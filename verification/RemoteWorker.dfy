/**
  The remote app-server client: the initialize handshake, then a worker that
  multiplexes caller commands and wire messages, with a table of outstanding
  requests that is drained when the worker exits.

  A run interleaves commands, incoming frames, consumer actions and write
  failures in any order. The log keeps the wire trace, every request taken from
  the command queue, every answer given, and every event handed to the consumer.
 */
module RemoteWorker {
  import opened Prelude

  const METHOD_NOT_FOUND := -32601
  const INITIALIZE_ID := "initialize"

  datatype RpcError = RpcError(code: int, message: string)

  datatype Message =
    | Response(id: string, result: string)
    | Error(id: string, error: RpcError)
    | Notification(name: string, body: string, decodable: bool)
    | Request(id: string, name: string, body: string, known: bool)

  /** What the WebSocket stream yields; `Opaque` stands for binary, ping, pong and raw frames. */
  datatype Frame =
    | Text(message: Message)
    | BadText
    | CloseFrame
    | Opaque
    | TransportError
    | Eof

  datatype Event =
    | ServerNotification(name: string, body: string)
    | ServerRequest(id: string, name: string, body: string)
    | Disconnected

  datatype ErrorKind = InvalidInput | Other | BrokenPipe | InvalidData | ConnectionAborted | UnexpectedEof

  datatype Answer =
    | Result(result: string)
    | Failure(error: RpcError)
    | IoFailure(kind: ErrorKind)

  datatype WireEvent =
    | SentRequest(id: string)
    | SentByCaller(text: string)
    | SentRejection(id: string, code: int)
    | Received(frame: Frame)

  /** A request taken from the command queue, and where on the wire it was written, if it was. */
  datatype Taken = Taken(id: string, sentAt: Option<nat>)

  /** An answer to request number `ticket`, and the wire position of the reply it came from, if any. */
  datatype Answered = Answered(ticket: nat, answer: Answer, replyAt: Option<nat>)

  datatype Log = Log(
    wire: seq<WireEvent>,
    requests: seq<Taken>,
    answers: seq<Answered>,
    returned: seq<Event>,
    writeFailed: bool)

  datatype Phase = Handshaking | Running | Draining(kind: ErrorKind) | Refused

  datatype State = State(
    phase: Phase,
    pending: map<string, nat>,
    backlog: seq<Event>,
    channel: seq<Event>,
    consumer: bool,
    log: Log)

  function Init(): State {
    State(Handshaking, map[], [], [], true, Log([SentRequest(INITIALIZE_ID)], [], [], [], false))
  }

  // ---- Steps ---------------------------------------------------------------

  datatype Label =
    | Submit(id: string, writeOk: bool)        // a Request command
    | Forward(text: string, writeOk: bool)     // Notify, ResolveServerRequest, RejectServerRequest
    | Stop                                     // Shutdown, or every command sender gone
    | Receive(frame: Frame, writeOk: bool)
    | Timeout                                  // the handshake took too long
    | Drain(id: string)                        // one turn of the exit loop
    | Next                                     // the consumer calls next_event
    | Leave                                    // the consumer drops its receiver

  predicate Enabled(s: State, l: Label) {
    match l
    case Submit(_, _) => s.phase.Running?
    case Forward(_, _) => s.phase.Running?
    case Stop => s.phase.Running?
    case Receive(_, _) => s.phase.Running? || s.phase.Handshaking?
    case Timeout => s.phase.Handshaking?
    case Drain(id) => s.phase.Draining? && id in s.pending
    case Next => (s.phase.Running? || s.phase.Draining?) && s.consumer && s.backlog + s.channel != []
    case Leave => (s.phase.Running? || s.phase.Draining?) && s.consumer
  }

  function OnWire(s: State, w: WireEvent): State {
    s.(log := s.log.(wire := s.log.wire + [w]))
  }

  function Reply(s: State, ticket: nat, answer: Answer, replyAt: Option<nat>): State {
    s.(log := s.log.(answers := s.log.answers + [Answered(ticket, answer, replyAt)]))
  }

  function Deliver(s: State, e: Event): State {
    if s.consumer then s.(channel := s.channel + [e]) else s
  }

  function Disconnect(s: State, kind: ErrorKind): State {
    Deliver(s, Disconnected).(phase := Draining(kind))
  }

  function Take(s: State, id: string, sentAt: Option<nat>): State {
    s.(log := s.log.(requests := s.log.requests + [Taken(id, sentAt)]))
  }

  function SubmitStep(s: State, id: string, writeOk: bool): State {
    var ticket := |s.log.requests|;
    if id in s.pending then
      Reply(Take(s, id, None), ticket, IoFailure(InvalidInput), None)
    else if !writeOk then
      var s1 := Reply(Take(s, id, None), ticket, IoFailure(Other), None);
      Disconnect(s1.(log := s1.log.(writeFailed := true)), BrokenPipe)
    else
      OnWire(Take(s, id, Some(|s.log.wire|)), SentRequest(id)).(pending := s.pending[id := ticket])
  }

  /** Hands a reply to whoever waits for `id`; replies nobody waits for are ignored. */
  function Match(s: State, id: string, answer: Answer): State
    requires |s.log.wire| > 0
  {
    var s1 := s.(pending := s.pending - {id});
    if id in s.pending then Reply(s1, s.pending[id], answer, Some(|s.log.wire| - 1)) else s1
  }

  function EventFor(m: Message): Option<Event> {
    match m
    case Notification(name, body, true) => Some(ServerNotification(name, body))
    case Request(id, name, body, true) => Some(ServerRequest(id, name, body))
    case _ => None
  }

  function RejectUnknown(s: State, id: string, writeOk: bool): State {
    if writeOk then OnWire(s, SentRejection(id, METHOD_NOT_FOUND))
    else Disconnect(s.(log := s.log.(writeFailed := true)), BrokenPipe)
  }

  function OnMessage(s: State, m: Message, writeOk: bool): State
    requires |s.log.wire| > 0
  {
    match m
    case Response(id, result) => Match(s, id, Result(result))
    case Error(id, error) => Match(s, id, Failure(error))
    case Notification(_, _, decodable) =>
      if !decodable then s
      else if s.consumer then Deliver(s, EventFor(m).value)
      else s.(phase := Draining(BrokenPipe))
    case Request(id, _, _, known) =>
      if !known then RejectUnknown(s, id, writeOk)
      else if s.consumer then Deliver(s, EventFor(m).value)
      else s.(phase := Draining(BrokenPipe))
  }

  function OnFrame(s: State, f: Frame, writeOk: bool): State
    requires |s.log.wire| > 0
  {
    match f
    case Text(m) => OnMessage(s, m, writeOk)
    case BadText => Disconnect(s, InvalidData)
    case CloseFrame => Disconnect(s, ConnectionAborted)
    case Opaque => s
    case TransportError => Disconnect(s, InvalidData)
    case Eof => Disconnect(s, UnexpectedEof)
  }

  function Refuse(s: State): State {
    s.(phase := Refused)
  }

  /** One frame of the handshake; `writeOk` is the fate of any write the frame calls for. */
  function HandshakeFrame(s: State, f: Frame, writeOk: bool): State {
    match f
    case Text(Response(id, _)) =>
      if id != INITIALIZE_ID then s
      else if writeOk then OnWire(s, SentByCaller("initialized")).(phase := Running)
      else Refuse(s)
    case Text(Error(id, _)) => if id == INITIALIZE_ID then Refuse(s) else s
    case Text(Notification(_, _, decodable)) =>
      if decodable then s.(backlog := s.backlog + [EventFor(f.message).value]) else s
    case Text(Request(id, _, _, known)) =>
      if known then s.(backlog := s.backlog + [EventFor(f.message).value])
      else if writeOk then OnWire(s, SentRejection(id, METHOD_NOT_FOUND))
      else Refuse(s.(log := s.log.(writeFailed := true)))
    case Opaque => s
    case _ => Refuse(s)
  }

  function NextStep(s: State): State {
    if s.backlog != [] then
      s.(backlog := s.backlog[1..], log := s.log.(returned := s.log.returned + [s.backlog[0]]))
    else if s.channel != [] then
      s.(channel := s.channel[1..], log := s.log.(returned := s.log.returned + [s.channel[0]]))
    else s
  }

  function DrainStep(s: State, id: string): State {
    if id in s.pending && s.phase.Draining? then
      Reply(s.(pending := s.pending - {id}), s.pending[id], IoFailure(s.phase.kind), None)
    else s
  }

  function Step(s: State, l: Label): State {
    match l
    case Submit(id, ok) => SubmitStep(s, id, ok)
    case Forward(text, ok) => if ok then OnWire(s, SentByCaller(text)) else s
    case Stop => s.(phase := Draining(BrokenPipe))
    case Receive(f, ok) =>
      var s1 := OnWire(s, Received(f));
      if s.phase.Handshaking? then HandshakeFrame(s1, f, ok) else OnFrame(s1, f, ok)
    case Timeout => Refuse(s)
    case Drain(id) => DrainStep(s, id)
    case Next => NextStep(s)
    case Leave => s.(consumer := false)
  }

  function Run(s: State, trace: seq<Label>): State {
    if |trace| == 0 then s else Step(Run(s, trace[..|trace| - 1]), trace[|trace| - 1])
  }

  predicate Legal(s: State, trace: seq<Label>) {
    |trace| == 0 ||
    (Legal(s, trace[..|trace| - 1]) && Enabled(Run(s, trace[..|trace| - 1]), trace[|trace| - 1]))
  }

  // ---- Reading the wire --------------------------------------------------------

  predicate IsReplyTo(w: WireEvent, id: string) {
    && w.Received? && w.frame.Text?
    && (w.frame.message.Response? || w.frame.message.Error?)
    && w.frame.message.id == id
  }

  /** Whether the latest request with this id is still without a reply. */
  predicate Awaited(wire: seq<WireEvent>, id: string) {
    if |wire| == 0 then false
    else
      var last := wire[|wire| - 1];
      if last == SentRequest(id) then true
      else if IsReplyTo(last, id) then false
      else Awaited(wire[..|wire| - 1], id)
  }

  /** No request is written while an earlier one with the same id awaits its reply. */
  predicate Spaced(wire: seq<WireEvent>) {
    forall k | 0 <= k < |wire| && wire[k].SentRequest? :: !Awaited(wire[..k], wire[k].id)
  }

  function EventOf(w: WireEvent): Option<Event> {
    if w.Received? && w.frame.Text? then EventFor(w.frame.message) else None
  }

  /** The decodable notifications and known server requests on the wire, in order. */
  function EventsOn(wire: seq<WireEvent>): seq<Event> {
    if |wire| == 0 then []
    else
      var rest := EventsOn(wire[..|wire| - 1]);
      match EventOf(wire[|wire| - 1])
      case Some(e) => rest + [e]
      case None => rest
  }

  predicate IsUnknownRequest(w: WireEvent) {
    w.Received? && w.frame.Text? && w.frame.message.Request? && !w.frame.message.known
  }

  function UnknownOn(wire: seq<WireEvent>): seq<string> {
    if |wire| == 0 then []
    else
      var rest := UnknownOn(wire[..|wire| - 1]);
      var last := wire[|wire| - 1];
      if IsUnknownRequest(last) then rest + [last.frame.message.id] else rest
  }

  function RejectionsOn(wire: seq<WireEvent>): seq<string> {
    if |wire| == 0 then []
    else
      var rest := RejectionsOn(wire[..|wire| - 1]);
      var last := wire[|wire| - 1];
      if last.SentRejection? then rest + [last.id] else rest
  }

  function AnswerCount(answers: seq<Answered>, ticket: nat): nat {
    if |answers| == 0 then 0
    else AnswerCount(answers[..|answers| - 1], ticket) +
         (if answers[|answers| - 1].ticket == ticket then 1 else 0)
  }

  function ContentOf(m: Message): Answer {
    match m
    case Response(_, result) => Result(result)
    case Error(_, error) => Failure(error)
    case _ => IoFailure(Other)
  }

  lemma SnocWire(wire: seq<WireEvent>, w: WireEvent)
    ensures forall id :: Awaited(wire + [w], id) ==
              if w == SentRequest(id) then true else if IsReplyTo(w, id) then false else Awaited(wire, id)
    ensures EventsOn(wire + [w]) == (match EventOf(w) case Some(e) => EventsOn(wire) + [e] case None => EventsOn(wire))
    ensures UnknownOn(wire + [w]) == if IsUnknownRequest(w) then UnknownOn(wire) + [w.frame.message.id] else UnknownOn(wire)
    ensures RejectionsOn(wire + [w]) == if w.SentRejection? then RejectionsOn(wire) + [w.id] else RejectionsOn(wire)
  {
    assert (wire + [w])[..|wire|] == wire;
  }

  lemma SnocSpaced(wire: seq<WireEvent>, w: WireEvent)
    requires Spaced(wire)
    requires w.SentRequest? ==> !Awaited(wire, w.id)
    ensures Spaced(wire + [w])
  {
    forall k | 0 <= k < |wire + [w]| && (wire + [w])[k].SentRequest?
      ensures !Awaited((wire + [w])[..k], (wire + [w])[k].id)
    {
      assert (wire + [w])[..k] == wire[..k];
      assert k == |wire| ==> wire[..k] == wire;
    }
  }

  lemma SnocAnswer(answers: seq<Answered>, a: Answered)
    ensures forall t :: AnswerCount(answers + [a], t) == AnswerCount(answers, t) + (if a.ticket == t then 1 else 0)
  {
    assert (answers + [a])[..|answers|] == answers;
  }

  // ---- Every request is answered exactly once ------------------------------------

  predicate IsWaiting(s: State, ticket: nat)
    requires ticket < |s.log.requests|
  {
    s.log.requests[ticket].id in s.pending && s.pending[s.log.requests[ticket].id] == ticket
  }

  predicate PendingNamed(s: State) {
    forall id | id in s.pending :: s.pending[id] < |s.log.requests| && s.log.requests[s.pending[id]].id == id
  }

  /** Each request taken so far is either waiting or has been answered once, and not both. */
  ghost predicate TicketsOnce(s: State) {
    && (forall t | 0 <= t < |s.log.requests| ::
          AnswerCount(s.log.answers, t) == if IsWaiting(s, t) then 0 else 1)
    && (forall t: nat | t >= |s.log.requests| :: AnswerCount(s.log.answers, t) == 0)
  }

  ghost predicate Tickets(s: State) {
    PendingNamed(s) && TicketsOnce(s)
  }

  lemma SubmitTickets(s: State, id: string, ok: bool)
    requires Tickets(s)
    ensures Tickets(SubmitStep(s, id, ok))
  {
    var s' := SubmitStep(s, id, ok);
    var ticket := |s.log.requests|;
    if id in s.pending {
      SnocAnswer(s.log.answers, Answered(ticket, IoFailure(InvalidInput), None));
    } else if !ok {
      SnocAnswer(s.log.answers, Answered(ticket, IoFailure(Other), None));
    }
    forall t | 0 <= t < |s'.log.requests|
      ensures AnswerCount(s'.log.answers, t) == if IsWaiting(s', t) then 0 else 1
    {
      if t < ticket {
        assert s'.log.requests[t] == s.log.requests[t];
        assert IsWaiting(s', t) <==> IsWaiting(s, t);
      }
    }
  }

  /** Answering the request that waits under `id` moves it from waiting to answered. */
  lemma AnswerTickets(s: State, id: string, answer: Answer, replyAt: Option<nat>)
    requires Tickets(s) && id in s.pending
    ensures Tickets(Reply(s.(pending := s.pending - {id}), s.pending[id], answer, replyAt))
  {
    var s' := Reply(s.(pending := s.pending - {id}), s.pending[id], answer, replyAt);
    SnocAnswer(s.log.answers, Answered(s.pending[id], answer, replyAt));
    forall t | 0 <= t < |s'.log.requests|
      ensures AnswerCount(s'.log.answers, t) == if IsWaiting(s', t) then 0 else 1
    {
      assert IsWaiting(s, s.pending[id]);
      if t != s.pending[id] {
        assert IsWaiting(s', t) <==> IsWaiting(s, t);
      }
    }
  }

  predicate SameTickets(s: State, s': State) {
    s'.pending == s.pending && s'.log.requests == s.log.requests && s'.log.answers == s.log.answers
  }

  lemma MatchTickets(s: State, id: string, answer: Answer)
    requires Tickets(s) && |s.log.wire| > 0
    ensures Tickets(Match(s, id, answer))
  {
    if id in s.pending {
      AnswerTickets(s, id, answer, Some(|s.log.wire| - 1));
    } else {
      assert s.pending - {id} == s.pending;
    }
  }

  lemma ReceiveSameTickets(s: State, f: Frame, ok: bool)
    requires s.phase.Handshaking? || !(f.Text? && (f.message.Response? || f.message.Error?))
    ensures SameTickets(s, Step(s, Receive(f, ok)))
  {
  }

  lemma ReceiveTickets(s: State, f: Frame, ok: bool)
    requires Tickets(s)
    ensures Tickets(Step(s, Receive(f, ok)))
  {
    if s.phase.Handshaking? || !(f.Text? && (f.message.Response? || f.message.Error?)) {
      ReceiveSameTickets(s, f, ok);
    } else {
      var s1 := OnWire(s, Received(f));
      assert SameTickets(s, s1);
      MatchTickets(s1, f.message.id, ContentOf(f.message));
    }
  }

  lemma StepTickets(s: State, l: Label)
    requires Tickets(s)
    ensures Tickets(Step(s, l))
  {
    match l
    case Submit(id, ok) => SubmitTickets(s, id, ok);
    case Receive(f, ok) => ReceiveTickets(s, f, ok);
    case Drain(id) =>
      if id in s.pending && s.phase.Draining? {
        AnswerTickets(s, id, IoFailure(s.phase.kind), None);
      }
    case _ => assert SameTickets(s, Step(s, l));
  }

  lemma {:induction false} RunTickets(trace: seq<Label>)
    ensures Tickets(Run(Init(), trace))
  {
    if |trace| > 0 {
      RunTickets(trace[..|trace| - 1]);
      StepTickets(Run(Init(), trace[..|trace| - 1]), trace[|trace| - 1]);
    }
  }

  /**
    In every run each request taken from the command queue is, at every moment,
    either waiting under its own id or answered exactly once; when the exit loop
    has emptied the table every one of them has been answered exactly once.
   */
  lemma EveryRequestAnsweredOnce(trace: seq<Label>)
    ensures var s := Run(Init(), trace);
            && TicketsOnce(s)
            && (s.pending == map[] ==>
                  forall t | 0 <= t < |s.log.requests| :: AnswerCount(s.log.answers, t) == 1)
  {
    RunTickets(trace);
  }

  // ---- The request table mirrors the wire ----------------------------------------

  /** The table holds exactly the ids whose latest wire request has no reply yet. */
  ghost predicate TableMirrorsWire(s: State) {
    && Spaced(s.log.wire)
    && (s.phase.Handshaking? ==> s.pending == map[] && forall id :: Awaited(s.log.wire, id) <==> id == INITIALIZE_ID)
    && (s.phase.Running? ==> forall id :: id in s.pending <==> Awaited(s.log.wire, id))
  }

  /** What the client writes in answer to a frame. */
  function Written(s: State, f: Frame, ok: bool): Option<WireEvent> {
    if IsUnknownRequest(Received(f)) && ok then Some(SentRejection(f.message.id, METHOD_NOT_FOUND))
    else if s.phase.Handshaking? && f.Text? && f.message.Response? && f.message.id == INITIALIZE_ID && ok then
      Some(SentByCaller("initialized"))
    else None
  }

  /** A frame goes on the wire trace, followed by at most one write of our own. */
  lemma ReceiveWire(s: State, f: Frame, ok: bool)
    requires s.phase.Running? || s.phase.Handshaking?
    ensures var wire1 := s.log.wire + [Received(f)];
            Step(s, Receive(f, ok)).log.wire
            == match Written(s, f, ok) case Some(w) => wire1 + [w] case None => wire1
    ensures Step(s, Receive(f, ok)).log.writeFailed
            == (s.log.writeFailed || (IsUnknownRequest(Received(f)) && !ok))
  {
  }

  /** What the wire says about outstanding requests after a frame. */
  lemma ReceiveAwaited(s: State, f: Frame, ok: bool)
    requires Spaced(s.log.wire) && (s.phase.Running? || s.phase.Handshaking?)
    ensures var wire' := Step(s, Receive(f, ok)).log.wire;
            && Spaced(wire')
            && forall id :: Awaited(wire', id) == (!IsReplyTo(Received(f), id) && Awaited(s.log.wire, id))
  {
    var wire1, wire' := s.log.wire + [Received(f)], Step(s, Receive(f, ok)).log.wire;
    ReceiveWire(s, f, ok);
    SnocWire(s.log.wire, Received(f));
    SnocSpaced(s.log.wire, Received(f));
    if Written(s, f, ok).Some? {
      SnocWire(wire1, Written(s, f, ok).value);
      SnocSpaced(wire1, Written(s, f, ok).value);
    }
  }

  lemma ReceivePending(s: State, f: Frame, ok: bool)
    requires s.phase.Running?
    ensures forall id :: id in Step(s, Receive(f, ok)).pending <==> id in s.pending && !IsReplyTo(Received(f), id)
  {
  }

  lemma ReceiveMirrors(s: State, f: Frame, ok: bool)
    requires TableMirrorsWire(s) && (s.phase.Running? || s.phase.Handshaking?)
    ensures TableMirrorsWire(Step(s, Receive(f, ok)))
  {
    ReceiveAwaited(s, f, ok);
    if s.phase.Running? {
      ReceivePending(s, f, ok);
    } else {
      var s' := Step(s, Receive(f, ok));
      assert s'.pending == s.pending;
      assert s'.phase.Running? ==> IsReplyTo(Received(f), INITIALIZE_ID);
      assert s'.phase.Handshaking? ==> !IsReplyTo(Received(f), INITIALIZE_ID);
    }
  }

  lemma StepMirrors(s: State, l: Label)
    requires TableMirrorsWire(s) && Enabled(s, l)
    ensures TableMirrorsWire(Step(s, l))
  {
    match l
    case Submit(id, ok) =>
      SnocWire(s.log.wire, SentRequest(id));
      if id !in s.pending { SnocSpaced(s.log.wire, SentRequest(id)); }
    case Forward(text, _) =>
      SnocWire(s.log.wire, SentByCaller(text));
      SnocSpaced(s.log.wire, SentByCaller(text));
    case Receive(f, ok) => ReceiveMirrors(s, f, ok);
    case _ =>
  }

  lemma InitMirrors()
    ensures TableMirrorsWire(Init())
  {
    SnocWire([], SentRequest(INITIALIZE_ID));
    SnocSpaced([], SentRequest(INITIALIZE_ID));
    assert [] + [SentRequest(INITIALIZE_ID)] == [SentRequest(INITIALIZE_ID)];
  }

  lemma {:induction false} RunMirrors(trace: seq<Label>)
    requires Legal(Init(), trace)
    ensures TableMirrorsWire(Run(Init(), trace))
  {
    if |trace| == 0 {
      InitMirrors();
    } else {
      RunMirrors(trace[..|trace| - 1]);
      StepMirrors(Run(Init(), trace[..|trace| - 1]), trace[|trace| - 1]);
    }
  }

  /** An awaited id stays awaited unless a reply for it arrives. */
  lemma {:induction false} AwaitedUntilReply(wire: seq<WireEvent>, i: nat, j: nat, id: string)
    requires i < j <= |wire| && wire[i] == SentRequest(id)
    requires forall m | i < m < j :: !IsReplyTo(wire[m], id)
    ensures Awaited(wire[..j], id)
  {
    if j > i + 1 {
      AwaitedUntilReply(wire, i, j - 1, id);
      assert wire[..j][..j - 1] == wire[..j - 1];
    }
  }

  /** Between two requests written with the same id, a reply for that id was received. */
  lemma ReplyBetweenRequests(trace: seq<Label>, i: nat, j: nat)
    requires Legal(Init(), trace)
    requires i < j < |Run(Init(), trace).log.wire|
    requires Run(Init(), trace).log.wire[i].SentRequest?
    requires Run(Init(), trace).log.wire[j] == Run(Init(), trace).log.wire[i]
    ensures exists m :: i < m < j && IsReplyTo(Run(Init(), trace).log.wire[m], Run(Init(), trace).log.wire[i].id)
  {
    RunMirrors(trace);
    var wire := Run(Init(), trace).log.wire;
    if forall m | i < m < j :: !IsReplyTo(wire[m], wire[i].id) {
      AwaitedUntilReply(wire, i, j, wire[i].id);
      assert false;
    }
  }

  /**
    A request whose id is outstanding is refused on the spot: nothing is written,
    and the original request keeps its place.
   */
  lemma DuplicateIsHarmless(trace: seq<Label>, id: string, ok: bool)
    requires Legal(Init(), trace) && Run(Init(), trace).phase.Running?
    requires Awaited(Run(Init(), trace).log.wire, id)
    ensures var s := Run(Init(), trace);
            var s' := Step(s, Submit(id, ok));
            && s'.log.wire == s.log.wire && s'.pending == s.pending && s'.phase == s.phase
            && s'.log.answers == s.log.answers + [Answered(|s.log.requests|, IoFailure(InvalidInput), None)]
  {
    RunMirrors(trace);
  }

  // ---- Replies reach the right request -------------------------------------------

  predicate NoReplyIn(wire: seq<WireEvent>, lo: nat, hi: nat, id: string)
    requires hi <= |wire|
  {
    forall m | lo <= m < hi :: !IsReplyTo(wire[m], id)
  }

  predicate SentRight(wire: seq<WireEvent>, r: Taken) {
    r.sentAt.Some? ==> r.sentAt.value < |wire| && wire[r.sentAt.value] == SentRequest(r.id)
  }

  /** The answer came from the first reply after the request was written, with that reply's content. */
  predicate FirstReply(wire: seq<WireEvent>, r: Taken, a: Answered) {
    a.replyAt.Some? ==>
      && r.sentAt.Some?
      && r.sentAt.value < a.replyAt.value < |wire|
      && IsReplyTo(wire[a.replyAt.value], r.id)
      && NoReplyIn(wire, r.sentAt.value + 1, a.replyAt.value, r.id)
      && a.answer == ContentOf(wire[a.replyAt.value].frame.message)
  }

  predicate WaitingRight(s: State, id: string)
    requires id in s.pending
  {
    && s.pending[id] < |s.log.requests|
    && var r := s.log.requests[s.pending[id]];
    && r.id == id && r.sentAt.Some?
    && NoReplyIn(s.log.wire, r.sentAt.value + 1, |s.log.wire|, id)
  }

  predicate AnswerRight(s: State, a: Answered) {
    a.ticket < |s.log.requests| && FirstReply(s.log.wire, s.log.requests[a.ticket], a)
  }

  predicate Matched(s: State) {
    && (forall t | 0 <= t < |s.log.requests| :: SentRight(s.log.wire, s.log.requests[t]))
    && (forall id | id in s.pending :: WaitingRight(s, id))
    && (forall k | 0 <= k < |s.log.answers| :: AnswerRight(s, s.log.answers[k]))
  }

  /** A wire event that answers nobody keeps the matching. */
  lemma WireKeepsMatched(s: State, w: WireEvent)
    requires Matched(s)
    requires forall id | id in s.pending :: !IsReplyTo(w, id)
    ensures Matched(OnWire(s, w))
  {
    var s' := OnWire(s, w);
    forall id | id in s'.pending ensures WaitingRight(s', id) { assert WaitingRight(s, id); }
    forall k | 0 <= k < |s'.log.answers| ensures AnswerRight(s', s'.log.answers[k]) {
      assert AnswerRight(s, s.log.answers[k]);
    }
  }

  lemma TakeMatched(s: State, id: string, sentAt: Option<nat>)
    requires Matched(s) && SentRight(s.log.wire, Taken(id, sentAt))
    ensures Matched(Take(s, id, sentAt))
  {
    var s' := Take(s, id, sentAt);
    forall t | 0 <= t < |s'.log.requests| ensures SentRight(s'.log.wire, s'.log.requests[t]) {
      if t < |s.log.requests| { assert SentRight(s.log.wire, s.log.requests[t]); }
    }
    forall x | x in s'.pending ensures WaitingRight(s', x) { assert WaitingRight(s, x); }
    forall k | 0 <= k < |s'.log.answers| ensures AnswerRight(s', s'.log.answers[k]) {
      assert AnswerRight(s, s.log.answers[k]);
    }
  }

  lemma WaitMatched(s: State, id: string, ticket: nat)
    requires Matched(s) && ticket < |s.log.requests|
    requires WaitingRight(s.(pending := map[id := ticket]), id)
    ensures Matched(s.(pending := s.pending[id := ticket]))
  {
    var s' := s.(pending := s.pending[id := ticket]);
    forall x | x in s'.pending ensures WaitingRight(s', x) {
      if x != id { assert WaitingRight(s, x); }
    }
    forall k | 0 <= k < |s'.log.answers| ensures AnswerRight(s', s'.log.answers[k]) {
      assert AnswerRight(s, s.log.answers[k]);
    }
  }

  lemma SubmitMatched(s: State, id: string, ok: bool)
    requires Matched(s)
    ensures Matched(SubmitStep(s, id, ok))
  {
    var ticket := |s.log.requests|;
    if id in s.pending || !ok {
      var s1 := Take(s, id, None);
      TakeMatched(s, id, None);
      var a := Answered(ticket, IoFailure(if id in s.pending then InvalidInput else Other), None);
      AddAnswer(s1, a);
      MatchedFrame(Reply(s1, a.ticket, a.answer, None), SubmitStep(s, id, ok));
    } else {
      var s1 := OnWire(s, SentRequest(id));
      WireKeepsMatched(s, SentRequest(id));
      TakeMatched(s1, id, Some(|s.log.wire|));
      var s2 := Take(s1, id, Some(|s.log.wire|));
      WaitMatched(s2, id, ticket);
      assert SubmitStep(s, id, ok) == s2.(pending := s2.pending[id := ticket]);
    }
  }

  lemma DrainMatched(s: State, id: string)
    requires Matched(s)
    ensures Matched(DrainStep(s, id))
  {
    var s' := DrainStep(s, id);
    forall x | x in s'.pending ensures WaitingRight(s', x) { assert WaitingRight(s, x); }
    forall k | 0 <= k < |s'.log.answers| ensures AnswerRight(s', s'.log.answers[k]) {
      if k < |s.log.answers| { assert AnswerRight(s, s.log.answers[k]); } else { assert WaitingRight(s, id); }
    }
  }

  /** The first reply for a waiting request is the one it is answered with. */
  lemma NewAnswerRight(s: State, m: Message)
    requires Matched(s) && (m.Response? || m.Error?) && m.id in s.pending
    ensures AnswerRight(OnWire(s, Received(Text(m))), Answered(s.pending[m.id], ContentOf(m), Some(|s.log.wire|)))
  {
    assert WaitingRight(s, m.id);
    assert SentRight(s.log.wire, s.log.requests[s.pending[m.id]]);
  }

  lemma ReplyMatched(s: State, m: Message, ok: bool)
    requires Matched(s) && (m.Response? || m.Error?)
    ensures Matched(OnMessage(OnWire(s, Received(Text(m))), m, ok))
  {
    var rest := s.(pending := s.pending - {m.id});
    assert Matched(rest) by {
      forall id | id in rest.pending ensures WaitingRight(rest, id) { assert WaitingRight(s, id); }
      forall k | 0 <= k < |rest.log.answers| ensures AnswerRight(rest, rest.log.answers[k]) {
        assert AnswerRight(s, s.log.answers[k]);
      }
    }
    var s1 := OnWire(rest, Received(Text(m)));
    WireKeepsMatched(rest, Received(Text(m)));
    if m.id in s.pending {
      var a := Answered(s.pending[m.id], ContentOf(m), Some(|s.log.wire|));
      NewAnswerRight(s, m);
      AddAnswer(s1, a);
      assert OnMessage(OnWire(s, Received(Text(m))), m, ok) == Reply(s1, a.ticket, a.answer, a.replyAt);
    } else {
      assert OnMessage(OnWire(s, Received(Text(m))), m, ok) == s1;
    }
  }

  lemma AddAnswer(s: State, a: Answered)
    requires Matched(s) && AnswerRight(s, a)
    ensures Matched(Reply(s, a.ticket, a.answer, a.replyAt))
  {
    var s' := Reply(s, a.ticket, a.answer, a.replyAt);
    forall id | id in s'.pending ensures WaitingRight(s', id) { assert WaitingRight(s, id); }
    forall k | 0 <= k < |s'.log.answers| ensures AnswerRight(s', s'.log.answers[k]) {
      if k < |s.log.answers| { assert AnswerRight(s, s.log.answers[k]); }
    }
  }

  /** The matching reads only the wire, the requests, the answers and the table. */
  lemma MatchedFrame(s: State, s': State)
    requires Matched(s) && SameTickets(s, s') && s'.log.wire == s.log.wire
    ensures Matched(s')
  {
    forall id | id in s'.pending ensures WaitingRight(s', id) { assert WaitingRight(s, id); }
    forall k | 0 <= k < |s'.log.answers| ensures AnswerRight(s', s'.log.answers[k]) {
      assert AnswerRight(s, s.log.answers[k]);
    }
  }

  lemma ReceiveMatched(s: State, f: Frame, ok: bool)
    requires Matched(s) && (s.phase.Running? || (s.phase.Handshaking? && s.pending == map[]))
    ensures Matched(Step(s, Receive(f, ok)))
  {
    var s' := Step(s, Receive(f, ok));
    if !s.phase.Handshaking? && f.Text? && (f.message.Response? || f.message.Error?) {
      ReplyMatched(s, f.message, ok);
    } else {
      var s1 := OnWire(s, Received(f));
      WireKeepsMatched(s, Received(f));
      ReceiveWire(s, f, ok);
      ReceiveSameTickets(s, f, ok);
      if Written(s, f, ok).Some? {
        var w := Written(s, f, ok).value;
        WireKeepsMatched(s1, w);
        MatchedFrame(OnWire(s1, w), s');
      } else {
        MatchedFrame(s1, s');
      }
    }
  }

  lemma StepMatched(s: State, l: Label)
    requires Matched(s) && TableMirrorsWire(s) && Enabled(s, l)
    ensures Matched(Step(s, l))
  {
    match l
    case Submit(id, ok) => SubmitMatched(s, id, ok);
    case Forward(text, _) => WireKeepsMatched(s, SentByCaller(text));
    case Receive(f, ok) => ReceiveMatched(s, f, ok);
    case Drain(id) => DrainMatched(s, id);
    case _ => MatchedFrame(s, Step(s, l));
  }

  /**
    JSON-RPC correlation over whole runs: every answer taken from the wire is the
    content of the first response or error with the request's id received after the
    request itself was written.
   */
  lemma {:induction false} RepliesMatchRequests(trace: seq<Label>)
    requires Legal(Init(), trace)
    ensures Matched(Run(Init(), trace))
  {
    if |trace| > 0 {
      var init := trace[..|trace| - 1];
      RepliesMatchRequests(init);
      RunMirrors(init);
      StepMatched(Run(Init(), init), trace[|trace| - 1]);
    }
  }

  // ---- The event stream ------------------------------------------------------------

  function Stream(s: State): seq<Event> {
    s.log.returned + s.backlog + s.channel
  }

  /** How the stream ends once the worker exits: silently if it was told to stop, else with a disconnect. */
  function Ending(stopped: bool): seq<Event> {
    if stopped then [] else [Disconnected]
  }

  /** `stopped` says whether the worker was told to stop: by a shutdown, or because no caller is left. */
  predicate StreamSound(s: State, stopped: bool) {
    && (s.phase.Handshaking? ==> s.channel == [] && s.consumer)
    && (!s.phase.Draining? ==> !stopped)
    && (s.consumer ==> Stream(s) == EventsOn(s.log.wire) + if s.phase.Draining? then Ending(stopped) else [])
    && (s.log.returned <= EventsOn(s.log.wire)
        || (s.phase.Draining? && s.log.returned == EventsOn(s.log.wire) + Ending(stopped)))
  }

  lemma AppendStream(s: State, e: Event)
    ensures Stream(s.(channel := s.channel + [e])) == Stream(s) + [e]
  {
  }

  lemma ReceiveEventsOn(s: State, f: Frame, ok: bool)
    requires s.phase.Running? || s.phase.Handshaking?
    ensures EventsOn(Step(s, Receive(f, ok)).log.wire)
         == (match EventOf(Received(f)) case Some(e) => EventsOn(s.log.wire) + [e] case None => EventsOn(s.log.wire))
  {
    var wire1, wire' := s.log.wire + [Received(f)], Step(s, Receive(f, ok)).log.wire;
    ReceiveWire(s, f, ok);
    SnocWire(s.log.wire, Received(f));
    if Written(s, f, ok).Some? {
      SnocWire(wire1, Written(s, f, ok).value);
    }
  }

  lemma HandshakeBacklog(s: State, f: Frame, ok: bool)
    requires s.phase.Handshaking?
    ensures var s' := Step(s, Receive(f, ok));
            && s'.backlog == (match EventOf(Received(f)) case Some(e) => s.backlog + [e] case None => s.backlog)
            && s'.channel == s.channel && s'.log.returned == s.log.returned && s'.consumer == s.consumer
            && !s'.phase.Draining?
  {
  }

  lemma HandshakeStream(s: State, f: Frame, ok: bool)
    requires StreamSound(s, false) && s.phase.Handshaking?
    ensures StreamSound(Step(s, Receive(f, ok)), false)
  {
    var s' := Step(s, Receive(f, ok));
    ReceiveEventsOn(s, f, ok);
    HandshakeBacklog(s, f, ok);
    match EventOf(Received(f))
    case Some(e) => assert Stream(s') == Stream(s) + [e];
    case None => assert Stream(s') == Stream(s);
  }

  /** What a frame adds to the consumer's channel. */
  function Arrivals(s: State, f: Frame, ok: bool): seq<Event> {
    if !s.consumer then []
    else if EventOf(Received(f)).Some? then [EventOf(Received(f)).value]
    else if Step(s, Receive(f, ok)).phase.Draining? then [Disconnected]
    else []
  }

  lemma ReceiveChannel(s: State, f: Frame, ok: bool)
    requires s.phase.Running?
    ensures var s' := Step(s, Receive(f, ok));
            && s'.channel == s.channel + Arrivals(s, f, ok)
            && s'.backlog == s.backlog && s'.log.returned == s.log.returned && s'.consumer == s.consumer
            && (s'.phase.Draining? || s'.phase.Running?)
            && (s.consumer && EventOf(Received(f)).Some? ==> s'.phase.Running?)
  {
  }

  lemma ReceiveStream(s: State, f: Frame, ok: bool)
    requires StreamSound(s, false) && s.phase.Running?
    ensures StreamSound(Step(s, Receive(f, ok)), false)
  {
    var s' := Step(s, Receive(f, ok));
    ReceiveEventsOn(s, f, ok);
    ReceiveChannel(s, f, ok);
    assert Stream(s') == Stream(s) + Arrivals(s, f, ok);
  }

  lemma NextStream(s: State, stopped: bool)
    requires StreamSound(s, stopped) && Enabled(s, Next)
    ensures StreamSound(NextStep(s), stopped) && Stream(NextStep(s)) == Stream(s)
  {
    var s' := NextStep(s);
    assert Stream(s') == Stream(s);
    assert s'.log.returned <= Stream(s');
  }

  lemma SubmitStream(s: State, id: string, ok: bool)
    requires StreamSound(s, false) && s.phase.Running?
    ensures StreamSound(SubmitStep(s, id, ok), false)
  {
    SnocWire(s.log.wire, SentRequest(id));
    AppendStream(s, Disconnected);
  }

  lemma StepStream(s: State, l: Label, stopped: bool)
    requires StreamSound(s, stopped) && Enabled(s, l)
    ensures StreamSound(Step(s, l), stopped || l.Stop?)
  {
    match l
    case Submit(id, ok) => SubmitStream(s, id, ok);
    case Forward(text, _) => SnocWire(s.log.wire, SentByCaller(text));
    case Receive(f, ok) =>
      if s.phase.Handshaking? { HandshakeStream(s, f, ok); } else { ReceiveStream(s, f, ok); }
    case Next => NextStream(s, stopped);
    case _ =>
  }

  /**
    The consumer's view of every run: what `next_event` has returned, followed by
    what it would still return, is the in-order list of decodable notifications and
    known server requests on the wire since the first handshake message. Once the worker
    exits one `Disconnected` ends it, if and only if the exit was not a stop. A consumer
    that leaves has seen a prefix of that.
   */
  lemma {:induction false} StreamIsTheWire(trace: seq<Label>)
    requires Legal(Init(), trace)
    ensures StreamSound(Run(Init(), trace), Stop in trace)
  {
    if |trace| == 0 {
      SnocWire([], SentRequest(INITIALIZE_ID));
      assert [] + [SentRequest(INITIALIZE_ID)] == [SentRequest(INITIALIZE_ID)];
    } else {
      var init, l := trace[..|trace| - 1], trace[|trace| - 1];
      StreamIsTheWire(init);
      StepStream(Run(Init(), init), l, Stop in init);
      assert Stop in trace <==> Stop in init || l == Stop;
    }
  }

  // ---- Unknown requests --------------------------------------------------------------

  predicate CodesRight(wire: seq<WireEvent>) {
    forall k | 0 <= k < |wire| && wire[k].SentRejection? :: wire[k].code == METHOD_NOT_FOUND
  }

  ghost predicate UnknownRejected(s: State) {
    && CodesRight(s.log.wire)
    && (s.log.writeFailed ==> s.phase.Draining? || s.phase.Refused?)
    && (RejectionsOn(s.log.wire) == UnknownOn(s.log.wire)
        || (s.log.writeFailed && UnknownOn(s.log.wire) != []
            && RejectionsOn(s.log.wire) == UnknownOn(s.log.wire)[..|UnknownOn(s.log.wire)| - 1]))
  }

  /** How one frame changes the two lists of ids. */
  lemma ReceiveLists(s: State, f: Frame, ok: bool)
    requires s.phase.Running? || s.phase.Handshaking?
    ensures var wire' := Step(s, Receive(f, ok)).log.wire;
            var u := IsUnknownRequest(Received(f));
            && UnknownOn(wire') == (if u then UnknownOn(s.log.wire) + [f.message.id] else UnknownOn(s.log.wire))
            && RejectionsOn(wire')
               == (if u && ok then RejectionsOn(s.log.wire) + [f.message.id] else RejectionsOn(s.log.wire))
  {
    var wire1, wire' := s.log.wire + [Received(f)], Step(s, Receive(f, ok)).log.wire;
    ReceiveWire(s, f, ok);
    SnocWire(s.log.wire, Received(f));
    if Written(s, f, ok).Some? {
      SnocWire(wire1, Written(s, f, ok).value);
    }
  }

  lemma ReceiveCodes(s: State, f: Frame, ok: bool)
    requires CodesRight(s.log.wire) && (s.phase.Running? || s.phase.Handshaking?)
    ensures CodesRight(Step(s, Receive(f, ok)).log.wire)
  {
    ReceiveWire(s, f, ok);
  }

  lemma FailedWriteEnds(s: State, f: Frame, ok: bool)
    requires s.phase.Running? || s.phase.Handshaking?
    requires IsUnknownRequest(Received(f)) && !ok
    ensures Step(s, Receive(f, ok)).phase.Draining? || Step(s, Receive(f, ok)).phase.Refused?
  {
  }

  lemma ReceiveUnknown(s: State, f: Frame, ok: bool)
    requires UnknownRejected(s) && (s.phase.Running? || s.phase.Handshaking?)
    ensures UnknownRejected(Step(s, Receive(f, ok)))
  {
    ReceiveLists(s, f, ok);
    ReceiveCodes(s, f, ok);
    ReceiveWire(s, f, ok);
    if IsUnknownRequest(Received(f)) && !ok {
      FailedWriteEnds(s, f, ok);
    }
  }

  lemma StepUnknown(s: State, l: Label)
    requires UnknownRejected(s) && Enabled(s, l)
    ensures UnknownRejected(Step(s, l))
  {
    match l
    case Submit(id, _) => SnocWire(s.log.wire, SentRequest(id));
    case Forward(text, _) => SnocWire(s.log.wire, SentByCaller(text));
    case Receive(f, ok) => ReceiveUnknown(s, f, ok);
    case _ =>
  }

  /**
    Every server request the client does not know is answered once with -32601, in
    order; only a failed write can leave the last one unanswered.
   */
  lemma {:induction false} UnknownRequestsRejected(trace: seq<Label>)
    requires Legal(Init(), trace)
    ensures UnknownRejected(Run(Init(), trace))
  {
    if |trace| == 0 {
      SnocWire([], SentRequest(INITIALIZE_ID));
      assert [] + [SentRequest(INITIALIZE_ID)] == [SentRequest(INITIALIZE_ID)];
    } else {
      UnknownRequestsRejected(trace[..|trace| - 1]);
      StepUnknown(Run(Init(), trace[..|trace| - 1]), trace[|trace| - 1]);
    }
  }

  lemma {:induction false} WireNeverDisconnects(wire: seq<WireEvent>)
    ensures Disconnected !in EventsOn(wire)
  {
    if |wire| > 0 {
      WireNeverDisconnects(wire[..|wire| - 1]);
    }
  }

  /** `next_event` returns `Disconnected` at most once, nothing after it, and never once the worker was told to stop. */
  lemma DisconnectedOnlyLast(trace: seq<Label>, k: nat)
    requires Legal(Init(), trace)
    requires k < |Run(Init(), trace).log.returned|
    requires Run(Init(), trace).log.returned[k] == Disconnected
    ensures k == |Run(Init(), trace).log.returned| - 1
    ensures Run(Init(), trace).phase.Draining? && Stop !in trace
  {
    StreamIsTheWire(trace);
    var s := Run(Init(), trace);
    WireNeverDisconnects(s.log.wire);
    assert s.log.returned[k] in s.log.returned;
  }

  // ---- The client's code ---------------------------------------------------------------

  lemma RunSnoc(s: State, trace: seq<Label>, l: Label)
    requires Legal(s, trace) && Enabled(Run(s, trace), l)
    ensures Legal(s, trace + [l]) && Run(s, trace + [l]) == Step(Run(s, trace), l)
  {
    assert (trace + [l])[..|trace|] == trace;
  }

  /** What a call of `next_event` has come to so far. */
  datatype Polled = Ready(event: Event) | StreamOver | Waiting

  /** The client and its worker: each method performs the step, or the run of steps, it is named after. */
  class RemoteClient {
    var phase: Phase
    var pending: map<string, nat>
    var backlog: seq<Event>
    var channel: seq<Event>
    var consumer: bool
    var nextTicket: nat
    ghost var log: Log

    ghost function View(): State
      reads this
    {
      State(phase, pending, backlog, channel, consumer, log)
    }

    ghost predicate Valid()
      reads this
    {
      nextTicket == |log.requests|
    }

    constructor ()
      ensures Valid() && View() == Init()
    {
      phase, pending, backlog, channel, consumer, nextTicket := Handshaking, map[], [], [], true, 0;
      log := Log([SentRequest(INITIALIZE_ID)], [], [], [], false);
    }

    method DeliverEvent(e: Event) returns (delivered: bool)
      modifies this`channel
      ensures delivered == consumer
      ensures View() == Deliver(old(View()), e)
    {
      if consumer {
        channel := channel + [e];
      }
      return consumer;
    }

    /**
      The initialize loop: reads frames until the handshake is decided or they run
      out. `writes` gives the outcome of the write each frame may call for.
     */
    method InitializeConnection(frames: seq<Frame>, writes: seq<bool>) returns (used: nat, ghost trace: seq<Label>)
      requires Valid() && phase.Handshaking? && |writes| == |frames|
      modifies this`phase, this`backlog, this`log
      ensures Valid() && used <= |frames|
      ensures Legal(old(View()), trace) && View() == Run(old(View()), trace)
      ensures |trace| == used && forall i | 0 <= i < used :: trace[i] == Receive(frames[i], writes[i])
      ensures used < |frames| ==> !phase.Handshaking?
    {
      used, trace := 0, [];
      while used < |frames| && phase.Handshaking?
        invariant Valid() && used <= |frames|
        invariant Legal(old(View()), trace) && View() == Run(old(View()), trace)
        invariant |trace| == used && forall i | 0 <= i < used :: trace[i] == Receive(frames[i], writes[i])
      {
        RunSnoc(old(View()), trace, Receive(frames[used], writes[used]));
        trace := trace + [Receive(frames[used], writes[used])];
        HandshakeTurn(frames[used], writes[used]);
        used := used + 1;
      }
    }

    method HandshakeTurn(f: Frame, writeOk: bool)
      requires phase.Handshaking?
      modifies this`phase, this`backlog, this`log
      ensures View() == Step(old(View()), Receive(f, writeOk))
      ensures log.requests == old(log.requests)
    {
      log := log.(wire := log.wire + [Received(f)]);
      match f {
        case Text(m) =>
          match m {
            case Response(id, _) =>
              if id == INITIALIZE_ID {
                if writeOk {
                  log := log.(wire := log.wire + [SentByCaller("initialized")]);
                  phase := Running;
                } else {
                  phase := Refused;
                }
              }
            case Error(id, _) =>
              if id == INITIALIZE_ID { phase := Refused; }
            case Notification(name, body, decodable) =>
              if decodable { backlog := backlog + [ServerNotification(name, body)]; }
            case Request(id, name, body, known) =>
              if known {
                backlog := backlog + [ServerRequest(id, name, body)];
              } else if writeOk {
                log := log.(wire := log.wire + [SentRejection(id, METHOD_NOT_FOUND)]);
              } else {
                log := log.(writeFailed := true);
                phase := Refused;
              }
          }
        case Opaque =>
        case _ => phase := Refused;
      }
    }

    /** The worker takes a `Request` command. */
    method OnRequest(id: string, writeOk: bool)
      requires Valid() && phase.Running?
      modifies this
      ensures Valid() && View() == Step(old(View()), Submit(id, writeOk))
    {
      var ticket := nextTicket;
      nextTicket := nextTicket + 1;
      if id in pending {
        log := log.(requests := log.requests + [Taken(id, None)],
                    answers := log.answers + [Answered(ticket, IoFailure(InvalidInput), None)]);
        return;
      }
      pending := pending[id := ticket];
      if writeOk {
        log := log.(requests := log.requests + [Taken(id, Some(|log.wire|))],
                    wire := log.wire + [SentRequest(id)]);
      } else {
        ghost var before := old(pending);
        pending := pending - {id};
        assert pending == before;
        log := log.(requests := log.requests + [Taken(id, None)],
                    answers := log.answers + [Answered(ticket, IoFailure(Other), None)],
                    writeFailed := true);
        var _ := DeliverEvent(Disconnected);
        phase := Draining(BrokenPipe);
      }
    }

    /** The worker reads a response or an error. */
    method OnReply(id: string, answer: Answer)
      requires |log.wire| > 0
      modifies this`pending, this`log
      ensures View() == Match(old(View()), id, answer)
      ensures log.requests == old(log.requests)
    {
      if id in pending {
        log := log.(answers := log.answers + [Answered(pending[id], answer, Some(|log.wire| - 1))]);
      }
      pending := pending - {id};
    }

    /** The worker reads a frame. */
    method OnIncoming(f: Frame, writeOk: bool)
      requires Valid() && phase.Running?
      modifies this
      ensures Valid() && View() == Step(old(View()), Receive(f, writeOk))
    {
      log := log.(wire := log.wire + [Received(f)]);
      var error: Option<ErrorKind> := None;
      match f {
        case Text(m) =>
          match m {
            case Response(id, result) => OnReply(id, Result(result));
            case Error(id, e) => OnReply(id, Failure(e));
            case Notification(name, body, decodable) =>
              if decodable {
                var delivered := DeliverEvent(ServerNotification(name, body));
                if !delivered { phase := Draining(BrokenPipe); }
              }
            case Request(id, name, body, known) =>
              if known {
                var delivered := DeliverEvent(ServerRequest(id, name, body));
                if !delivered { phase := Draining(BrokenPipe); }
              } else if writeOk {
                log := log.(wire := log.wire + [SentRejection(id, METHOD_NOT_FOUND)]);
              } else {
                log := log.(writeFailed := true);
                error := Some(BrokenPipe);
              }
          }
        case BadText => error := Some(InvalidData);
        case CloseFrame => error := Some(ConnectionAborted);
        case Opaque =>
        case TransportError => error := Some(InvalidData);
        case Eof => error := Some(UnexpectedEof);
      }
      if error.Some? {
        var _ := DeliverEvent(Disconnected);
        phase := Draining(error.value);
      }
    }

    /** After the loop: every request still in the table gets the exit error, in any order. */
    method DrainPending() returns (ghost trace: seq<Label>)
      requires Valid() && phase.Draining?
      modifies this`pending, this`log
      ensures Valid() && pending == map[]
      ensures Legal(old(View()), trace) && View() == Run(old(View()), trace)
      ensures forall l | l in trace :: l.Drain?
    {
      trace := [];
      while pending != map[]
        invariant Valid()
        invariant Legal(old(View()), trace) && View() == Run(old(View()), trace)
        invariant forall l | l in trace :: l.Drain?
        decreases |pending|
      {
        var id :| id in pending;
        RunSnoc(old(View()), trace, Drain(id));
        trace := trace + [Drain(id)];
        log := log.(answers := log.answers + [Answered(pending[id], IoFailure(phase.kind), None)]);
        ghost var before := pending;
        pending := pending - {id};
        assert pending.Keys == before.Keys - {id};
        assert |pending.Keys| < |before.Keys|;
      }
    }

    /** The worker's task has ended: it left its loop and answered everything still open. */
    predicate HasEnded()
      reads this
    {
      phase.Draining? && pending == map[]
    }

    /** `next_event`: handshake leftovers first, then the worker's channel; it waits while that is empty and the worker lives. */
    method NextEvent() returns (e: Polled)
      requires (phase.Running? || phase.Draining?) && consumer
      modifies this`backlog, this`channel, this`log
      ensures e.Ready? <==> old(backlog) + old(channel) != []
      ensures e.Ready? ==> View() == Step(old(View()), Next) && log.returned == old(log.returned) + [e.event]
      ensures !e.Ready? ==> View() == old(View()) && (e.StreamOver? <==> HasEnded())
    {
      if backlog != [] {
        e := Ready(backlog[0]);
        backlog := backlog[1..];
      } else if channel != [] {
        e := Ready(channel[0]);
        channel := channel[1..];
      } else {
        return if HasEnded() then StreamOver else Waiting;
      }
      log := log.(returned := log.returned + [e.event]);
    }

    /** The worker takes a `Notify`, `ResolveServerRequest` or `RejectServerRequest` command. */
    method OnForward(text: string, writeOk: bool)
      requires Valid() && phase.Running?
      modifies this`log
      ensures Valid() && View() == Step(old(View()), Forward(text, writeOk))
    {
      if writeOk {
        log := log.(wire := log.wire + [SentByCaller(text)]);
      }
    }

    /** The worker takes a `Shutdown` command, or finds that no caller is left. */
    method OnStop()
      requires Valid() && phase.Running?
      modifies this`phase
      ensures Valid() && View() == Step(old(View()), Stop)
    {
      phase := Draining(BrokenPipe);
    }

    /** The handshake takes too long. */
    method GiveUp()
      requires Valid() && phase.Handshaking?
      modifies this`phase
      ensures Valid() && View() == Step(old(View()), Timeout)
    {
      phase := Refused;
    }

    /** The exit loop answers one request. */
    method AnswerPending(id: string)
      requires Valid() && phase.Draining? && id in pending
      modifies this`pending, this`log
      ensures Valid() && View() == Step(old(View()), Drain(id))
    {
      log := log.(answers := log.answers + [Answered(pending[id], IoFailure(phase.kind), None)]);
      pending := pending - {id};
    }

    predicate CanPerform(l: Label)
      reads this
    {
      match l
      case Submit(_, _) => phase.Running?
      case Forward(_, _) => phase.Running?
      case Stop => phase.Running?
      case Receive(_, _) => phase.Running? || phase.Handshaking?
      case Timeout => phase.Handshaking?
      case Drain(id) => phase.Draining? && id in pending
      case Next => (phase.Running? || phase.Draining?) && consumer && backlog + channel != []
      case Leave => (phase.Running? || phase.Draining?) && consumer
    }

    /** Does what the label says if it can be done now. */
    method Perform(l: Label) returns (done: bool)
      requires Valid()
      modifies this
      ensures Valid() && done == Enabled(old(View()), l)
      ensures View() == if done then Step(old(View()), l) else old(View())
    {
      done := CanPerform(l);
      if !done { return; }
      match l {
        case Submit(id, ok) => OnRequest(id, ok);
        case Forward(text, ok) => OnForward(text, ok);
        case Stop => OnStop();
        case Receive(f, ok) =>
          if phase.Handshaking? { HandshakeTurn(f, ok); } else { OnIncoming(f, ok); }
        case Timeout => GiveUp();
        case Drain(id) => AnswerPending(id);
        case Next => var _ := NextEvent();
        case Leave => consumer := false;
      }
    }
  }

  // ---- What the code guarantees ------------------------------------------------------

  /** Everything proved of runs, as a property of the state a run ends in. */
  ghost predicate Guaranteed(s: State, stopped: bool) {
    TicketsOnce(s) && Matched(s) && StreamSound(s, stopped) && UnknownRejected(s)
  }

  lemma RunGuaranteed(trace: seq<Label>)
    requires Legal(Init(), trace)
    ensures Guaranteed(Run(Init(), trace), Stop in trace)
  {
    EveryRequestAnsweredOnce(trace);
    RepliesMatchRequests(trace);
    StreamIsTheWire(trace);
    UnknownRequestsRejected(trace);
  }

  lemma {:induction false} RunConcat(s: State, a: seq<Label>, b: seq<Label>)
    requires Legal(s, a) && Legal(Run(s, a), b)
    ensures Legal(s, a + b) && Run(s, a + b) == Run(Run(s, a), b)
  {
    if |b| == 0 {
      assert a + b == a;
    } else {
      RunConcat(s, a, b[..|b| - 1]);
      assert (a + b)[..|a + b| - 1] == a + b[..|b| - 1];
    }
  }

  lemma AllAnswered(trace: seq<Label>)
    requires Legal(Init(), trace) && Run(Init(), trace).pending == map[]
    ensures var s := Run(Init(), trace);
            forall t | 0 <= t < |s.log.requests| :: AnswerCount(s.log.answers, t) == 1
  {
    EveryRequestAnsweredOnce(trace);
  }

  /**
    The client from its constructor: the handshake, then whatever callers, the wire and the
    consumer do, in any order, then the exit loop if the worker has left its own. The state is
    one that a legal run reaches, with all guarantees; and once the worker has left its loop
    every request taken has been answered exactly once.
   */
  method RunClient(frames: seq<Frame>, writes: seq<bool>, turns: seq<Label>) returns (client: RemoteClient, ghost trace: seq<Label>)
    requires |writes| == |frames|
    ensures fresh(client) && Legal(Init(), trace) && client.View() == Run(Init(), trace)
    ensures Guaranteed(client.View(), Stop in trace)
    ensures client.phase.Draining? ==>
              && client.pending == map[]
              && forall t | 0 <= t < |client.log.requests| :: AnswerCount(client.log.answers, t) == 1
  {
    client := new RemoteClient();
    var _, handshake := client.InitializeConnection(frames, writes);
    trace := handshake;
    for i := 0 to |turns|
      invariant fresh(client) && client.Valid()
      invariant Legal(Init(), trace) && client.View() == Run(Init(), trace)
    {
      var done := client.Perform(turns[i]);
      if done {
        RunSnoc(Init(), trace, turns[i]);
        trace := trace + [turns[i]];
      }
    }
    if client.phase.Draining? {
      ghost var drained := client.DrainPending();
      RunConcat(Init(), trace, drained);
      trace := trace + drained;
      AllAnswered(trace);
    }
    RunGuaranteed(trace);
  }
}
