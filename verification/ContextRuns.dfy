/** Threads and connections over every run: a thread's connection is always known and its context is never lost. */
module ContextRuns {
  import opened AnalyticsTypes
  import opened Reducer
  import opened ReducerMoves

  /** Every thread's stored connection id names a known connection. */
  predicate ConnectionsKnown(s: State) {
    forall t | t in s.threads && s.threads[t].connectionId.Some? :: s.threads[t].connectionId.value in s.connections
  }

  predicate ThreadGrows(a: Thread, b: Thread) {
    && (a.connectionId.Some? ==> b.connectionId.Some?)
    && (a.metadata.Some? ==> b.metadata.Some?)
  }

  /** Nothing known before is unknown after. */
  predicate Grows(s: State, s': State) {
    && s.connections.Keys <= s'.connections.Keys
    && forall t | t in s.threads :: t in s'.threads && ThreadGrows(s.threads[t], s'.threads[t])
  }

  predicate GrowsSoundly(s: State, o: Outcome) {
    Grows(s, o.state) && (ConnectionsKnown(s) ==> ConnectionsKnown(o.state))
  }

  lemma ContextFactsGrow(s: State, f: Fact)
    requires ChangesContext(f)
    ensures GrowsSoundly(s, IngestPlain(s, f))
  {
  }

  lemma UnchangedGrows(s: State, o: Outcome)
    requires o.state.threads == s.threads && o.state.connections == s.connections
    ensures GrowsSoundly(s, o)
  {
  }

  lemma FactGrows(s: State, f: Fact, order: seq<TurnKey>)
    ensures GrowsSoundly(s, Ingest(s, f, order))
  {
    if ChangesContext(f) {
      ContextFactsGrow(s, f);
      assert Ingest(s, f, order) == IngestPlain(s, f);
    } else {
      ContextKept(s, f, order);
      UnchangedGrows(s, Ingest(s, f, order));
    }
  }

  lemma StepGrows(s: State, l: Label)
    ensures GrowsSoundly(s, Step(s, l))
  {
    if l.Take? {
      FactGrows(s, l.fact, l.order);
    } else {
      FlushFrame(s, l.order);
      UnchangedGrows(s, Step(s, l));
    }
  }

  /** In every reachable state, looking up a thread never fails for an unknown connection. */
  lemma {:induction false} NoMissingConnection(trace: seq<Label>, threadId: Id)
    ensures ConnectionsKnown(Run(trace))
    ensures var c := ThreadContext(Run(trace), threadId); c.Lost? ==> !c.missing.MissingConnection?
  {
    if |trace| > 0 {
      NoMissingConnection(trace[..|trace| - 1], threadId);
      StepGrows(Run(trace[..|trace| - 1]), trace[|trace| - 1]);
    }
  }

  lemma FoundStays(s: State, s': State, threadId: Id)
    requires Grows(s, s') && ConnectionsKnown(s') && ThreadContext(s, threadId).Found?
    ensures ThreadContext(s', threadId).Found?
  {
  }

  /** A thread whose context is complete at some point of a run has a complete context ever after. */
  lemma {:induction false} ContextNeverLost(trace: seq<Label>, n: nat, threadId: Id)
    requires n <= |trace| && ThreadContext(Run(trace[..n]), threadId).Found?
    ensures ThreadContext(Run(trace), threadId).Found?
  {
    if n < |trace| {
      var init := trace[..|trace| - 1];
      assert init[..n] == trace[..n];
      ContextNeverLost(init, n, threadId);
      NoMissingConnection(trace, threadId);
      StepGrows(Run(init), trace[|trace| - 1]);
      FoundStays(Run(init), Run(trace), threadId);
    } else {
      assert trace[..n] == trace;
    }
  }

  /** A sub-agent of a thread with full context has full context, and a new one speaks over its parent's connection. */
  lemma SubAgentInheritsContext(trace: seq<Label>, f: Fact, order: seq<TurnKey>)
    requires f.SubAgentStarted? && f.parentThreadId.Some?
    requires ThreadContext(Run(trace), f.parentThreadId.value).Found?
    ensures var s' := Step(Run(trace), Take(f, order)).state;
            && ThreadContext(s', f.threadId).Found?
            && (ThreadAt(Run(trace), f.threadId).connectionId.None? ==>
                  s'.threads[f.threadId].connectionId == ThreadAt(Run(trace), f.parentThreadId.value).connectionId)
  {
    NoMissingConnection(trace, f.threadId);
    assert Step(Run(trace), Take(f, order)) == IngestSubAgent(Run(trace), f);
  }
}
