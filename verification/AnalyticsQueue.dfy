/**
  The analytics queue: producers offer facts to a bounded channel and a single worker
  folds them through the reducer, handing each step's events to the sender.
 */
module AnalyticsQueue {
  import opened Prelude
  import opened AnalyticsTypes
  import ToolCorrelation
  import Reducer
  import ReducerMoves
  import ToolRuns
  import opened ReducerObject

  const QUEUE_SIZE := 256

  datatype Message = FactMessage(fact: Reducer.Fact) | FlushMessage(ticket: nat)

  /** `handed` holds, per message worked off, the events given to the sender. */
  datatype State = State(
    waiting: seq<Message>, reducer: Reducer.State, handed: seq<seq<Event>>, acknowledged: seq<nat>)

  const INITIAL := State([], Reducer.INITIAL, [], [])

  datatype Label =
    | Offer(fact: Reducer.Fact)         // a producer tries to send; dropped when full
    | AskFlush(ticket: nat)             // a flush request gets in; it waits for room
    | Work(order: seq<TurnKey>)         // the worker takes the oldest message

  /** The reducer step a message stands for. */
  function LabelOf(m: Message, order: seq<TurnKey>): Reducer.Label {
    match m
    case FactMessage(f) => Reducer.Take(f, order)
    case FlushMessage(_) => Reducer.Flush(order)
  }

  predicate HasRoom(s: State) {
    |s.waiting| < QUEUE_SIZE
  }

  predicate Legal(s: State, l: Label) {
    match l
    case Offer(_) => true
    case AskFlush(_) => HasRoom(s)
    case Work(order) => |s.waiting| > 0 && Reducer.Legal(s.reducer, LabelOf(s.waiting[0], order))
  }

  function Step(s: State, l: Label): State
    requires Legal(s, l)
  {
    match l
    case Offer(f) => if HasRoom(s) then s.(waiting := s.waiting + [FactMessage(f)]) else s
    case AskFlush(t) => s.(waiting := s.waiting + [FlushMessage(t)])
    case Work(order) =>
      var m := s.waiting[0];
      var o := Reducer.Step(s.reducer, LabelOf(m, order));
      State(s.waiting[1..], o.state, s.handed + [o.out],
            if m.FlushMessage? then s.acknowledged + [m.ticket] else s.acknowledged)
  }

  /** The states a run can be in after `trace`, or none if a step was not possible. */
  function Run(trace: seq<Label>): Option<State> {
    if |trace| == 0 then Some(INITIAL)
    else
      match Run(trace[..|trace| - 1])
      case Some(s) => if Legal(s, trace[|trace| - 1]) then Some(Step(s, trace[|trace| - 1])) else None
      case None => None
  }

  // ---- The sequential fold behind a run ------------------------------------------------

  /** The messages that got into the queue, in order. */
  function Accepted(trace: seq<Label>): seq<Message>
    requires Run(trace).Some?
  {
    if |trace| == 0 then []
    else
      var init, l := trace[..|trace| - 1], trace[|trace| - 1];
      if l.AskFlush? then Accepted(init) + [FlushMessage(l.ticket)]
      else if l.Offer? && HasRoom(Run(init).value) then Accepted(init) + [FactMessage(l.fact)]
      else Accepted(init)
  }

  /** The reducer steps the worker has taken. */
  function Worked(trace: seq<Label>): seq<Reducer.Label>
    requires Run(trace).Some?
  {
    if |trace| == 0 then []
    else
      var init, l := trace[..|trace| - 1], trace[|trace| - 1];
      if l.Work? then Worked(init) + [LabelOf(Run(init).value.waiting[0], l.order)] else Worked(init)
  }

  /** The events of each step of a reducer run. */
  function Outputs(run: seq<Reducer.Label>): seq<seq<Event>> {
    if |run| == 0 then []
    else Outputs(run[..|run| - 1]) + [Reducer.Step(Reducer.Run(run[..|run| - 1]), run[|run| - 1]).out]
  }

  function Tickets(ms: seq<Message>): seq<nat> {
    if |ms| == 0 then []
    else
      var rest := Tickets(ms[..|ms| - 1]);
      if ms[|ms| - 1].FlushMessage? then rest + [ms[|ms| - 1].ticket] else rest
  }

  predicate StandsFor(l: Reducer.Label, m: Message) {
    l == LabelOf(m, l.order)
  }

  predicate FoldsTo(run: seq<Reducer.Label>, ms: seq<Message>) {
    |run| == |ms| && forall i | 0 <= i < |run| :: StandsFor(run[i], ms[i])
  }

  /** The state is that of the plain fold over the oldest accepted messages; the rest are waiting. */
  predicate Refined(s: State, accepted: seq<Message>, run: seq<Reducer.Label>) {
    && |s.waiting| <= QUEUE_SIZE
    && |run| <= |accepted| && s.waiting == accepted[|run|..]
    && FoldsTo(run, accepted[..|run|])
    && Reducer.LegalFrom(Reducer.INITIAL, run)
    && s.reducer == Reducer.Run(run)
    && s.handed == Outputs(run)
    && s.acknowledged == Tickets(accepted[..|run|])
  }

  lemma ReducerSnoc(run: seq<Reducer.Label>, l: Reducer.Label)
    requires Reducer.LegalFrom(Reducer.INITIAL, run) && Reducer.Legal(Reducer.Run(run), l)
    ensures Reducer.LegalFrom(Reducer.INITIAL, run + [l])
    ensures Reducer.Run(run + [l]) == Reducer.Step(Reducer.Run(run), l).state
    ensures Outputs(run + [l]) == Outputs(run) + [Reducer.Step(Reducer.Run(run), l).out]
  {
    assert (run + [l])[..|run|] == run;
  }

  lemma TicketsSnoc(ms: seq<Message>, m: Message)
    ensures Tickets(ms + [m]) == if m.FlushMessage? then Tickets(ms) + [m.ticket] else Tickets(ms)
  {
    assert (ms + [m])[..|ms|] == ms;
  }

  lemma AcceptRefined(s: State, accepted: seq<Message>, run: seq<Reducer.Label>, m: Message)
    requires Refined(s, accepted, run) && HasRoom(s)
    ensures Refined(s.(waiting := s.waiting + [m]), accepted + [m], run)
  {
    assert (accepted + [m])[..|run|] == accepted[..|run|];
  }

  lemma WorkRefined(s: State, accepted: seq<Message>, run: seq<Reducer.Label>, order: seq<TurnKey>)
    requires Refined(s, accepted, run) && Legal(s, Work(order))
    ensures Refined(Step(s, Work(order)), accepted, run + [LabelOf(s.waiting[0], order)])
  {
    var m, n := s.waiting[0], |run|;
    assert accepted[n] == m && accepted[..n + 1] == accepted[..n] + [m];
    ReducerSnoc(run, LabelOf(m, order));
    TicketsSnoc(accepted[..n], m);
  }

  /**
    Every interleaving of producers and worker is the sequential fold of the reducer over the
    accepted messages in the order they got in, each step's events handed over as they are.
   */
  lemma {:induction false} RefinesFold(trace: seq<Label>)
    requires Run(trace).Some?
    ensures Refined(Run(trace).value, Accepted(trace), Worked(trace))
  {
    if |trace| > 0 {
      var init, l := trace[..|trace| - 1], trace[|trace| - 1];
      var s := Run(init).value;
      RefinesFold(init);
      if l.Work? {
        WorkRefined(s, Accepted(init), Worked(init), l.order);
      } else if l.AskFlush? {
        AcceptRefined(s, Accepted(init), Worked(init), FlushMessage(l.ticket));
      } else if HasRoom(s) {
        AcceptRefined(s, Accepted(init), Worked(init), FactMessage(l.fact));
      }
    }
  }

  // ---- Dropped facts ---------------------------------------------------------------------

  /** The run without the offers that found the queue full. */
  function Effective(trace: seq<Label>): seq<Label>
    requires Run(trace).Some?
  {
    if |trace| == 0 then []
    else
      var init, l := trace[..|trace| - 1], trace[|trace| - 1];
      if l.Offer? && !HasRoom(Run(init).value) then Effective(init) else Effective(init) + [l]
  }

  /** Facts dropped on a full queue have no effect: the run without them ends in the same state. */
  lemma {:induction false} DroppedFactsHaveNoEffect(trace: seq<Label>)
    requires Run(trace).Some?
    ensures Run(Effective(trace)) == Run(trace)
    ensures Accepted(Effective(trace)) == Accepted(trace)
  {
    if |trace| > 0 {
      var init, l := trace[..|trace| - 1], trace[|trace| - 1];
      DroppedFactsHaveNoEffect(init);
      if !(l.Offer? && !HasRoom(Run(init).value)) {
        assert (Effective(init) + [l])[..|Effective(init)|] == Effective(init);
      }
    }
  }

  // ---- Flush is a barrier ------------------------------------------------------------------

  lemma {:induction false} FlushEmpties(run: seq<Reducer.Label>, key: TurnKey)
    requires |run| > 0 && ToolRuns.LegalRun(run) && run[|run| - 1].Flush?
    ensures ToolCorrelation.PendingAt(Reducer.Run(run).tools, key) == []
  {
    var s := Reducer.Run(run[..|run| - 1]);
    ToolRuns.LastStep(run);
    ToolRuns.RunSound(run[..|run| - 1]);
    ToolCorrelation.FlushAllBalanced(s.tools, run[|run| - 1].order, key);
  }

  /**
    When a flush is acknowledged, everything accepted before it has been folded in, no tool
    event is waiting anywhere, and every tool event of those facts has been handed to the sender.
   */
  lemma FlushIsABarrier(trace: seq<Label>, key: TurnKey)
    requires |trace| > 0 && Run(trace).Some? && trace[|trace| - 1].Work?
    requires Run(trace[..|trace| - 1]).value.waiting[0].FlushMessage?
    ensures var n, ticket := |Worked(trace)|, Run(trace[..|trace| - 1]).value.waiting[0].ticket;
            && 0 < n <= |Accepted(trace)| && Accepted(trace)[n - 1] == FlushMessage(ticket)
            && FoldsTo(Worked(trace), Accepted(trace)[..n])
            && Run(trace).value.acknowledged == Run(trace[..|trace| - 1]).value.acknowledged + [ticket]
    ensures ToolCorrelation.PendingAt(Run(trace).value.reducer.tools, key) == []
    ensures ToolCorrelation.CoresAt(ToolRuns.Handed(Worked(trace)), key)
            == ToolCorrelation.CoresAt(ReducerMoves.ToolsOf(ToolRuns.Emitted(Worked(trace))), key)
  {
    RefinesFold(trace);
    RefinesFold(trace[..|trace| - 1]);
    FlushEmpties(Worked(trace), key);
    ToolRuns.ToolConservation(Worked(trace), key);
  }

  /** What the sender was handed, one step after another, is what the reducer's run emits. */
  lemma {:induction false} HandedOver(run: seq<Reducer.Label>)
    ensures Flat(Outputs(run)) == ToolRuns.Emitted(run)
  {
    if |run| > 0 {
      var init := run[..|run| - 1];
      HandedOver(init);
      assert Outputs(run)[..|Outputs(run)| - 1] == Outputs(init);
    }
  }

  function Flat(outs: seq<seq<Event>>): seq<Event> {
    if |outs| == 0 then [] else Flat(outs[..|outs| - 1]) + outs[|outs| - 1]
  }

  // ---- The queue as it runs -------------------------------------------------------------------

  class AnalyticsEventsQueue {
    var waiting: seq<Message>
    const reducer: AnalyticsReducer
    var handed: seq<seq<Event>>
    var acknowledged: seq<nat>
    ghost var trace: seq<Label>

    ghost function View(): State
      reads this, reducer
    {
      State(waiting, reducer.View(), handed, acknowledged)
    }

    ghost predicate Valid()
      reads this, reducer
    {
      Run(trace) == Some(View())
    }

    constructor ()
      ensures Valid() && trace == [] && fresh(reducer)
    {
      waiting, handed, acknowledged, trace := [], [], [], [];
      reducer := new AnalyticsReducer();
    }

    method TrySend(fact: Reducer.Fact)
      requires Valid()
      modifies this
      ensures Valid() && trace == old(trace) + [Offer(fact)]
      ensures waiting == if |old(waiting)| < QUEUE_SIZE then old(waiting) + [FactMessage(fact)] else old(waiting)
      ensures handed == old(handed) && acknowledged == old(acknowledged)
    {
      if |waiting| < QUEUE_SIZE {
        Enqueue(FactMessage(fact));
      } else {
        trace := trace + [Offer(fact)];
        assert trace[..|trace| - 1] == old(trace);
      }
    }

    /** One turn of the worker loop. */
    method WorkOff()
      requires Valid() && |waiting| > 0
      modifies this, reducer
      ensures Valid() && |trace| == |old(trace)| + 1 && trace[..|old(trace)|] == old(trace) && trace[|old(trace)|].Work?
      ensures waiting == old(waiting)[1..]
    {
      var message := waiting[0];
      waiting := waiting[1..];
      var events;
      ghost var order;
      match message {
        case FactMessage(fact) =>
          events, order := reducer.IngestFact(fact);
          handed := handed + [events];
        case FlushMessage(ticket) =>
          events, order := reducer.Flush();
          handed := handed + [events];
          acknowledged := acknowledged + [ticket];
      }
      trace := trace + [Work(order)];
      assert trace[..|trace| - 1] == old(trace);
    }

    /** Producers run for a while: they offer facts and ask for flushes of their own. */
    method Produce()
      requires Valid()
      modifies this
      ensures Valid() && old(trace) <= trace
      ensures |old(waiting)| <= |waiting| && forall i | 0 <= i < |old(waiting)| :: waiting[i] == old(waiting)[i]
      ensures handed == old(handed) && acknowledged == old(acknowledged)
    {
      var n: nat := *;
      while n > 0
        invariant Valid() && old(trace) <= trace
        invariant |old(waiting)| <= |waiting| && forall i | 0 <= i < |old(waiting)| :: waiting[i] == old(waiting)[i]
        invariant handed == old(handed) && acknowledged == old(acknowledged)
      {
        if * {
          var fact: Reducer.Fact := *;
          TrySend(fact);
        } else if |waiting| < QUEUE_SIZE {
          var ticket: nat := *;
          Enqueue(FlushMessage(ticket));
        }
        n := n - 1;
      }
    }

    /**
      A flush with other producers at work and limited patience, counted in turns of the
      worker. The request waits for room, which the next turn of the worker gives it, and is
      acknowledged when the worker reaches it. At that moment no tool event waits anywhere.
      With the patience of a full queue the flush always gets through; giving up early
      changes nothing that waits.
     */
    method Flush(ticket: nat, patience: nat) returns (flushed: bool)
      requires Valid()
      modifies this, reducer
      ensures Valid() && old(trace) <= trace
      ensures flushed ==> |acknowledged| > 0 && acknowledged[|acknowledged| - 1] == ticket
      ensures flushed ==> forall key :: ToolCorrelation.PendingAt(reducer.View().tools, key) == []
      ensures patience > QUEUE_SIZE ==> flushed
    {
      var left, asked := AskForFlush(ticket, patience);
      if !asked { return false; }
      var ahead := |waiting| - 1;
      while ahead > 0 && left > 0
        invariant Valid() && old(trace) <= trace
        invariant 0 <= ahead < |waiting| && waiting[ahead] == FlushMessage(ticket) && left >= 0
        invariant patience > QUEUE_SIZE ==> left > ahead
      {
        Produce();
        WorkOff();
        ahead, left := ahead - 1, left - 1;
      }
      if left == 0 { return false; }
      Produce();
      AnswerFlush(ticket);
      return true;
    }

    /** The request gets in at once, or after the worker's next turn if the queue is full. */
    method AskForFlush(ticket: nat, patience: nat) returns (left: nat, asked: bool)
      requires Valid()
      modifies this, reducer
      ensures Valid() && old(trace) <= trace
      ensures asked ==> |waiting| > 0 && waiting[|waiting| - 1] == FlushMessage(ticket)
      ensures patience > QUEUE_SIZE ==> asked && left >= |waiting|
    {
      left := patience;
      Produce();
      RefinesFold(trace);
      if |waiting| >= QUEUE_SIZE {
        if left == 0 { return left, false; }
        WorkOff();
        left := left - 1;
      }
      Enqueue(FlushMessage(ticket));
      asked := true;
    }

    /** The worker reaches a flush request. */
    method AnswerFlush(ticket: nat)
      requires Valid() && |waiting| > 0 && waiting[0] == FlushMessage(ticket)
      modifies this, reducer
      ensures Valid() && old(trace) <= trace
      ensures |acknowledged| > 0 && acknowledged[|acknowledged| - 1] == ticket
      ensures forall key :: ToolCorrelation.PendingAt(reducer.View().tools, key) == []
    {
      ghost var before := trace;
      WorkOff();
      assert trace[..|trace| - 1] == before;
      forall key ensures ToolCorrelation.PendingAt(reducer.View().tools, key) == [] {
        FlushIsABarrier(trace, key);
      }
      FlushIsABarrier(trace, ("", ""));
    }

    method Enqueue(message: Message)
      requires Valid() && |waiting| < QUEUE_SIZE
      modifies this
      ensures Valid() && waiting == old(waiting) + [message]
      ensures handed == old(handed) && acknowledged == old(acknowledged)
      ensures trace == old(trace) + [if message.FactMessage? then Offer(message.fact) else AskFlush(message.ticket)]
    {
      waiting := waiting + [message];
      trace := trace + [if message.FactMessage? then Offer(message.fact) else AskFlush(message.ticket)];
      assert trace[..|trace| - 1] == old(trace);
    }
  }
}
