/** Review summaries over every run: an item's summary is exactly the reviews resolved on it since it was last cleared. */
module ReviewRuns {
  import opened Prelude
  import opened AnalyticsTypes
  import opened ToolCorrelation
  import opened Reducer
  import opened ReducerMoves
  import opened ToolRuns

  /** A review that was resolved: by whom, how, and what it had asked for. */
  datatype Verdict = Verdict(reviewer: Reviewer, outcome: ApprovalOutcome, review: PendingReview)

  /** The review a fact resolves, and for which item it counts. */
  function ResolvedBy(s: State, f: Fact): Option<Verdict> {
    if f.GuardianReviewCompleted? && f.verdict.Some? && Millis(f.from).Some? && Millis(f.at).Some? then
      Some(Verdict(Guardian, OutcomeOf(Guardian, f.verdict.value, NoResolution), GuardianReview(f)))
    else if f.ApprovalAnswered? && f.requestId in s.pendingReviews then
      Some(Verdict(User, OutcomeOf(User, f.status, f.resolution), s.pendingReviews[f.requestId]))
    else None
  }

  function VerdictsBy(s: State, l: Label, key: ItemKey): seq<Verdict> {
    if l.Take? && ResolvedBy(s, l.fact).Some? && ReviewedItem(ResolvedBy(s, l.fact).value.review) == Some(key) then
      [ResolvedBy(s, l.fact).value]
    else []
  }

  /** The item is completed and its summary consumed. */
  predicate Clears(s: State, l: Label, key: ItemKey) {
    l.Take? && ReachesReport(s, l.fact) && ItemKeyOf(l.fact) == key
  }

  /** The reviews resolved on the item since its summary was last cleared. */
  function Verdicts(trace: seq<Label>, key: ItemKey): seq<Verdict> {
    if |trace| == 0 || Clears(Run(trace[..|trace| - 1]), trace[|trace| - 1], key) then []
    else Verdicts(trace[..|trace| - 1], key) + VerdictsBy(Run(trace[..|trace| - 1]), trace[|trace| - 1], key)
  }

  // ---- What a summary should say -----------------------------------------------------------

  function CountBy(vs: seq<Verdict>, reviewer: Reviewer): nat {
    if |vs| == 0 then 0 else CountBy(vs[..|vs| - 1], reviewer) + if vs[|vs| - 1].reviewer == reviewer then 1 else 0
  }

  predicate Summarizes(sum: ReviewSummary, vs: seq<Verdict>) {
    && sum.reviews == |vs|
    && sum.guardian == CountBy(vs, Guardian)
    && sum.user == CountBy(vs, User)
    && sum.outcome == (if |vs| == 0 then None else Some(vs[|vs| - 1].outcome))
    && (sum.permissions <==> exists i | 0 <= i < |vs| :: vs[i].review.permissions)
    && (sum.network <==> exists i | 0 <= i < |vs| :: vs[i].review.network)
  }

  lemma CountBySnoc(vs: seq<Verdict>, v: Verdict, reviewer: Reviewer)
    ensures CountBy(vs + [v], reviewer) == CountBy(vs, reviewer) + if v.reviewer == reviewer then 1 else 0
  {
    assert (vs + [v])[..|vs|] == vs;
  }

  lemma SummarizeOneMore(sum: ReviewSummary, vs: seq<Verdict>, v: Verdict)
    requires Summarizes(sum, vs)
    ensures Summarizes(Summarize(sum, v.reviewer, v.outcome, v.review), vs + [v])
  {
    var all := vs + [v];
    CountBySnoc(vs, v, Guardian);
    CountBySnoc(vs, v, User);
    assert forall i | 0 <= i < |vs| :: all[i] == vs[i];
    assert all[|vs|] == v;
  }

  lemma {:induction false} EveryReviewerIsEither(vs: seq<Verdict>)
    ensures CountBy(vs, Guardian) + CountBy(vs, User) == |vs|
  {
    if |vs| > 0 {
      EveryReviewerIsEither(vs[..|vs| - 1]);
    }
  }

  // ---- One step ------------------------------------------------------------------------------

  /** The summary of `key` after the step, given the one before. */
  predicate SummaryFollows(s: State, l: Label, o: Outcome, key: ItemKey) {
    SummaryAt(o.state, key) ==
      if Clears(s, l, key) then NO_REVIEWS
      else if VerdictsBy(s, l, key) == [] then SummaryAt(s, key)
      else
        var v := ResolvedBy(s, l.fact).value;
        Summarize(SummaryAt(s, key), v.reviewer, v.outcome, v.review)
  }

  lemma EmitReviewSummary(s: State, v: Verdict, status: ReviewStatus, resolution: Resolution, at: nat, key: ItemKey)
    requires v.outcome == OutcomeOf(v.reviewer, status, resolution)
    ensures SummaryAt(EmitReview(s, v.review, v.reviewer, status, resolution, at).state, key)
            == if ReviewedItem(v.review) == Some(key) then Summarize(SummaryAt(s, key), v.reviewer, v.outcome, v.review)
               else SummaryAt(s, key)
  {
  }

  lemma PlainSummary(s: State, f: Fact, order: seq<TurnKey>, key: ItemKey)
    requires IsPlain(f)
    ensures SummaryFollows(s, Take(f, order), IngestPlain(s, f), key)
  {
    if ResolvedBy(s, f).Some? {
      var v := ResolvedBy(s, f).value;
      if f.ApprovalAnswered? {
        EmitReviewSummary(s.(pendingReviews := s.pendingReviews - {f.requestId}), v, f.status, f.resolution, f.answeredAt, key);
      } else {
        EmitReviewSummary(s, v, f.verdict.value, NoResolution, Millis(f.at).value, key);
      }
    }
  }

  lemma ItemSummary(s: State, f: Fact, order: seq<TurnKey>, key: ItemKey)
    requires f.ItemCompleted?
    ensures SummaryFollows(s, Take(f, order), IngestItemCompleted(s, f), key)
  {
    ItemFrame(s, f);
  }

  lemma OtherSummary(s: State, f: Fact, order: seq<TurnKey>, o: Outcome, key: ItemKey)
    requires !ChangesSummaries(f) && SameSummaries(s, o)
    ensures SummaryFollows(s, Take(f, order), o, key)
  {
  }

  lemma FactSummary(s: State, f: Fact, order: seq<TurnKey>, key: ItemKey)
    ensures SummaryFollows(s, Take(f, order), Ingest(s, f, order), key)
  {
    if IsPlain(f) { PlainSummary(s, f, order, key); }
    else if f.ItemCompleted? { ItemSummary(s, f, order, key); }
    else {
      SummariesKept(s, f, order);
      OtherSummary(s, f, order, Ingest(s, f, order), key);
    }
  }

  lemma StepSummary(s: State, l: Label, key: ItemKey)
    ensures SummaryFollows(s, l, Step(s, l), key)
  {
    if l.Take? {
      FactSummary(s, l.fact, l.order, key);
    } else {
      FlushFrame(s, l.order);
    }
  }

  // ---- Runs ------------------------------------------------------------------------------------

  /**
    In every reachable state an item's summary counts exactly the reviews resolved on that
    item since it was last cleared, guardian and user apart, and its outcome is the latest one's.
   */
  lemma {:induction false} SummaryIsHistory(trace: seq<Label>, key: ItemKey)
    ensures Summarizes(SummaryAt(Run(trace), key), Verdicts(trace, key))
    ensures SummaryAt(Run(trace), key).reviews == SummaryAt(Run(trace), key).guardian + SummaryAt(Run(trace), key).user
  {
    EveryReviewerIsEither(Verdicts(trace, key));
    if |trace| > 0 {
      var init, l := trace[..|trace| - 1], trace[|trace| - 1];
      SummaryIsHistory(init, key);
      StepSummary(Run(init), l, key);
      SummaryAfter(Run(init), l, Step(Run(init), l), Verdicts(init, key), key);
    }
  }

  lemma SummaryAfter(s: State, l: Label, o: Outcome, vs: seq<Verdict>, key: ItemKey)
    requires SummaryFollows(s, l, o, key) && Summarizes(SummaryAt(s, key), vs)
    ensures Summarizes(SummaryAt(o.state, key), if Clears(s, l, key) then [] else vs + VerdictsBy(s, l, key))
  {
    if !Clears(s, l, key) {
      if VerdictsBy(s, l, key) == [] {
        assert vs + VerdictsBy(s, l, key) == vs;
      } else {
        SummarizeOneMore(SummaryAt(s, key), vs, ResolvedBy(s, l.fact).value);
      }
    }
  }

  // ---- What emitted tool events report -----------------------------------------------------------

  lemma {:induction false} CoreAmong(es: seq<ToolEvent>, e: ToolEvent)
    requires e in es
    ensures Core(e) in CoresAt(es, KeyOf(e))
  {
    if e in es[..|es| - 1] {
      CoreAmong(es[..|es| - 1], e);
    }
  }

  lemma {:induction false} CoreCameFrom(es: seq<ToolEvent>, core: ToolEvent, key: TurnKey)
    requires core in CoresAt(es, key)
    ensures exists e :: e in es && Core(e) == core
  {
    var init, last := es[..|es| - 1], es[|es| - 1];
    if core in CoresAt(init, key) {
      CoreCameFrom(init, core, key);
      var e :| e in init && Core(e) == core;
      assert e in es;
    } else {
      assert last in es && Core(last) == core;
    }
  }

  ghost predicate ArrivesAt(trace: seq<Label>, n: nat, e: ToolEvent)
    requires n < |trace|
  {
    MoveAt(trace, n).Arrival? && MoveAt(trace, n).event == e
  }

  lemma {:induction false} HandedArrived(trace: seq<Label>, e: ToolEvent)
    requires e in Handed(trace)
    ensures exists n: nat | n < |trace| :: ArrivesAt(trace, n, e)
  {
    var init := trace[..|trace| - 1];
    if e in Handed(init) {
      HandedArrived(init, e);
      var n: nat :| n < |init| && ArrivesAt(init, n, e);
      MoveAtInit(trace, n);
      assert ArrivesAt(trace, n, e);
    } else {
      assert ArrivesAt(trace, |trace| - 1, e);
    }
  }

  /**
    The event stems from step `n`: an item completion, and then it reports exactly the
    reviews resolved on its item since they were last cleared; or a code-mode call, which
    has no reviews.
   */
  ghost predicate StemsFrom(trace: seq<Label>, n: nat, e: ToolEvent)
    requires n < |trace|
  {
    var l := trace[n];
    && l.Take?
    && if l.fact.ItemCompleted? then
         && ReachesReport(Run(trace[..n]), l.fact)
         && ItemKeyOf(l.fact) == ItemKey(e.threadId, e.turnId, e.itemId)
         && Summarizes(e.reviews, Verdicts(trace[..n], ItemKeyOf(l.fact)))
       else
         && l.fact.CodeMode? && l.fact.call.CallCompleted? && e.reviews == NO_REVIEWS
  }

  lemma ArrivalStems(trace: seq<Label>, n: nat, e: ToolEvent, e': ToolEvent)
    requires n < |trace| && ArrivesAt(trace, n, e) && Core(e') == Core(e)
    ensures StemsFrom(trace, n, e')
  {
    var l := trace[n];
    if l.Take? && l.fact.ItemCompleted? {
      SummaryIsHistory(trace[..n], ItemKeyOf(l.fact));
    }
  }

  /** Over every run, every tool event emitted reports the reviews resolved on its item, and no others. */
  lemma ReportedReviews(trace: seq<Label>, e: ToolEvent)
    requires LegalRun(trace) && e in ToolsOf(Emitted(trace))
    ensures exists n: nat | n < |trace| :: StemsFrom(trace, n, e)
  {
    ToolConservation(trace, KeyOf(e));
    CoreAmong(ToolsOf(Emitted(trace)), e);
    CoreCameFrom(Handed(trace), Core(e), KeyOf(e));
    var arrived :| arrived in Handed(trace) && Core(arrived) == Core(e);
    HandedArrived(trace, arrived);
    var n: nat :| n < |trace| && ArrivesAt(trace, n, arrived);
    ArrivalStems(trace, n, arrived, e);
  }
}
