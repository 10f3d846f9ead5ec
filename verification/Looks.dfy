/** The looks of one reconcile at the status, which are not taken at once: what they come to together, and when they
    contradict each other. */
module Looks {
  import opened Prelude
  import opened HardeningStatus
  import opened Trace
  import opened Provenance
  import opened Decisions
  import opened Manager

  // ---------- the looks of one reconcile ----------

  /** The positions of the looks at a running and at a recorded final check. */
  datatype FinalLooks = FinalLooks(running: nat, recorded: nat)

  /** Those at a running and a recorded baseline, and the second one at a recorded baseline, before its runs are
      judged. */
  datatype BaselineLooks = BaselineLooks(running: nat, recorded: nat, judged: nat)

  /** The answer to the question whether all checks are finished: the survey and the verdict on it, or the survey and
      the look that found something unrecorded. */
  datatype Answer = Yes(survey: nat, verdict: nat) | No(survey: nat, look: nat)

  /** The third look at a recorded baseline, and the answer that follows if it is recorded. */
  datatype LastLooks = LastLooks(recorded: nat, answer: Answer)

  /** `ready` is the first look at a recorded final check; the others come after the analysis. Those that a reconcile
      does not come to are put at its end. */
  datatype Course = Course(ready: nat, final: FinalLooks, baseline: BaselineLooks, last: LastLooks)

  /** A reconcile that has come no further than to its first look at the final check, and ended at `n`. */
  function EndedAt(ready: nat, n: nat): Course {
    Course(ready, FinalLooks(n, n), BaselineLooks(n, n, n), LastLooks(n, No(n, n)))
  }

  predicate FinalLooksWithin(n: nat, l: FinalLooks, k: nat) {
    n <= l.running <= l.recorded <= k
  }

  predicate BaselineLooksWithin(n: nat, l: BaselineLooks, k: nat) {
    n <= l.running <= l.recorded <= l.judged <= k
  }

  /** The object was not ready to be declared finished. */
  predicate NotReady(tr: seq<Event>, first: Status, ready: nat) {
    ready <= |tr| && !(first.recommendation.Some? && FinalCheckRecorded(StatusAt(tr[..ready])))
  }

  /** There was nothing to do about the final check: it had not failed, was not running, and was recorded unless there
      was no recommendation. */
  predicate PassedFinal(tr: seq<Event>, first: Status, l: FinalLooks) {
    FinalLooksWithin(0, l, |tr|) && !Holds(first, FinalCheck, Unknown) &&
    !FinalCheckInProgress(StatusAt(tr[..l.running])) &&
    (StatusAt(tr[..l.running]).recommendation.Some? ==> FinalCheckRecorded(StatusAt(tr[..l.recorded])))
  }

  /** Nor about the baseline: it was not running, it was recorded, and none of the runs listed at first had failed. */
  predicate PassedBaseline(tr: seq<Event>, first: Status, l: BaselineLooks) {
    BaselineLooksWithin(0, l, |tr|) &&
    !BaselineInProgress(StatusAt(tr[..l.running])) && BaselineRecorded(StatusAt(tr[..l.recorded])) &&
    !(BaselineRecorded(StatusAt(tr[..l.judged])) && BaselineFailed(first))
  }

  /** Nor about the checks: the baseline was not recorded any more, or all checks were finished. */
  predicate PassedChecks(tr: seq<Event>, l: LastLooks) {
    l.recorded <= |tr| && (BaselineRecorded(StatusAt(tr[..l.recorded])) ==> l.answer.Yes?)
  }

  predicate Answers(tr: seq<Event>, n: nat, a: Answer) {
    match a
    case Yes(s, v) => n <= s && Surveyed(tr, s, v)
    case No(s, l) => n <= s && Unrecorded(tr, s, l)
  }

  predicate Answered(tr: seq<Event>, l: LastLooks) {
    l.recorded <= |tr| && (BaselineRecorded(StatusAt(tr[..l.recorded])) ==> Answers(tr, l.recorded, l.answer))
  }

  /** The looks were taken one after another, from position `n` on; and what the last question was answered with, if it
      was asked, is true. */
  predicate Taken(tr: seq<Event>, n: nat, first: Status, c: Course) {
    n <= c.ready && FinalLooksWithin(c.ready, c.final, |tr|) &&
    BaselineLooksWithin(c.final.recorded, c.baseline, |tr|) && c.baseline.judged <= c.last.recorded <= |tr| &&
    (NotReady(tr, first, c.ready) && PassedFinal(tr, first, c.final) && PassedBaseline(tr, first, c.baseline) ==>
       Answered(tr, c.last))
  }

  predicate PassedAll(tr: seq<Event>, first: Status, c: Course) {
    PassedFinal(tr, first, c.final) && PassedBaseline(tr, first, c.baseline) && PassedChecks(tr, c.last)
  }

  /** No look found anything to do for a reconcile that found an unfinished object. */
  predicate FoundNothing(tr: seq<Event>, first: Status, c: Course) {
    NotReady(tr, first, c.ready) && PassedAll(tr, first, c)
  }

  lemma StatusStays(tr: seq<Event>, tr': seq<Event>, i: nat)
    requires tr <= tr' && i <= |tr|
    ensures StatusAt(tr'[..i]) == StatusAt(tr[..i])
  {
    assert tr'[..i] == tr[..i];
  }

  lemma PassedFinalStays(tr: seq<Event>, tr': seq<Event>, first: Status, l: FinalLooks)
    requires tr <= tr' && FinalLooksWithin(0, l, |tr|)
    ensures PassedFinal(tr', first, l) == PassedFinal(tr, first, l)
  {
    StatusStays(tr, tr', l.running);
    StatusStays(tr, tr', l.recorded);
  }

  lemma PassedBaselineStays(tr: seq<Event>, tr': seq<Event>, first: Status, l: BaselineLooks)
    requires tr <= tr' && BaselineLooksWithin(0, l, |tr|)
    ensures PassedBaseline(tr', first, l) == PassedBaseline(tr, first, l)
  {
    StatusStays(tr, tr', l.running);
    StatusStays(tr, tr', l.recorded);
    StatusStays(tr, tr', l.judged);
  }

  lemma {:induction false} LaunchesTell(tr: seq<Event>, n: nat, l: nat)
    requires n <= l < |tr| && tr[l].Launch?
    ensures |Launches(tr[..n])| < |Launches(tr)|
  {
    var front := tr[..|tr| - 1];
    assert front[..n] == tr[..n];
    if l < |front| {
      LaunchesTell(front, n, l);
    } else {
      LaunchesOfPrefix(front, n);
    }
  }

  lemma {:induction false} LaunchesOfPrefix(tr: seq<Event>, n: nat)
    requires n <= |tr|
    ensures Launches(tr[..n]) <= Launches(tr)
  {
    if n == |tr| {
      assert tr[..n] == tr;
    } else {
      assert tr[..|tr| - 1][..n] == tr[..n];
      LaunchesOfPrefix(tr[..|tr| - 1], n);
    }
  }

  /** Without a recommendation, and before another launch, there is no final recording. */
  lemma NoFinalYet(tr: seq<Event>, n: nat)
    requires WellFormed(tr) && n <= |tr| && Launches(tr[..n]) == Launches(tr)
    requires StatusAt(tr[..n]).recommendation.None?
    ensures !FinalCheckRecorded(StatusAt(tr))
  {
    if FinalCheckRecorded(StatusAt(tr)) {
      TrueWasSeen(tr, FinalCheck);
      var l, f := FinalRunnerOf(tr);
      if l < n {
        NothingElseIsLost(tr, l, n);
      } else {
        LaunchesTell(tr, n, l);
      }
      assert false;
    }
  }

  lemma NoFinalBefore(tr: seq<Event>, n: nat, k: nat)
    requires WellFormed(tr) && n <= k <= |tr| && Launches(tr[..n]) == Launches(tr)
    requires StatusAt(tr[..n]).recommendation.None?
    ensures !FinalCheckRecorded(StatusAt(tr[..k]))
  {
    WellFormedPrefix(tr, k);
    assert tr[..k][..n] == tr[..n];
    LaunchesOfPrefix(tr, k);
    LaunchesOfPrefix(tr[..k], n);
    NoFinalYet(tr[..k], n);
  }

  // ---------- when two looks contradict each other ----------

  /** So that a reconcile does nothing: the baseline was recorded and then was not; the final check was not recorded and
      then was; a check found by a first survey was not, and at the verdict on the second survey all were. */
  datatype Overtaking =
    | BaselineLost(earlier: nat, later: nat)
    | FinalRecorded(earlier: nat, later: nat)
    | AllRecordedLater(survey: nat, look: nat, again: nat, verdict: nat)

  predicate Overtaken(tr: seq<Event>, n: nat, o: Overtaking) {
    match o
    case BaselineLost(i, j) =>
      n <= i <= j <= |tr| && BaselineRecorded(StatusAt(tr[..i])) && !BaselineRecorded(StatusAt(tr[..j]))
    case FinalRecorded(i, j) =>
      n <= i <= j <= |tr| && !FinalCheckRecorded(StatusAt(tr[..i])) && FinalCheckRecorded(StatusAt(tr[..j]))
    case AllRecordedLater(s, look, again, v) =>
      n <= s <= look <= again < v < |tr| && Unrecorded(tr, s, look) && Surveyed(tr, again, v)
  }

  /** A reconcile that has found nothing to do, though the status was settled, has been overtaken; `mid` is the end of
      the analysis, or of the question whether there is one to do. */
  lemma WhyOvertaken(tr: seq<Event>, n: nat, mid: nat, survey: nat, look: nat, c: Course) returns (o: Overtaking)
    requires WellFormed(tr) && n <= c.ready <= mid <= c.final.running <= |tr| && Taken(tr, n, StatusAt(tr[..n]), c)
    requires Unfinished(StatusAt(tr[..n])) && Settled(OwnedOf(StatusAt(tr[..n])))
    requires FoundNothing(tr, StatusAt(tr[..n]), c) && Launches(tr) == Launches(tr[..n])
    requires StatusAt(tr[..mid]).recommendation.None? ==>
      Holds(StatusAt(tr[..n]), Analysis, True) || (n <= survey && look <= mid && Unrecorded(tr, survey, look))
    ensures Overtaken(tr, n, o)
  {
    if !BaselineRecorded(StatusAt(tr[..c.last.recorded])) {
      o := BaselineLost(c.baseline.recorded, c.last.recorded);
    } else if StatusAt(tr[..c.final.running]).recommendation.None? {
      NothingElseIsLost(tr, mid, c.final.running);
      NothingElseIsLost(tr, n, mid);
      o := AllRecordedLater(survey, look, c.last.answer.survey, c.last.answer.verdict);
    } else {
      if StatusAt(tr[..n]).recommendation.None? { NoFinalBefore(tr, n, c.final.recorded); }
      o := FinalRecorded(c.ready, c.final.recorded);
    }
  }

  // ---------- the two looks that a launch rests on ----------

  /** By their positions in the trace, and the time of the second. */
  datatype CheckLooks = CheckLooks(recorded: nat, running: nat, at: nat)

  /** The check was not recorded at the first look, and at the second it was not in progress, or overdue. */
  predicate LookedDue(tr: seq<Event>, n: nat, t: CheckType, looks: CheckLooks, duration: nat) {
    n <= looks.recorded <= looks.running <= |tr| &&
    !CheckRecorded(StatusAt(tr[..looks.recorded]), t) &&
    (CheckInProgress(StatusAt(tr[..looks.running]), t) ==>
       Overdue(StatusAt(tr[..looks.running]), Check(t), looks.at, duration))
  }

  /** A check that is recorded at one moment and was not at an earlier one has been set True in between. */
  lemma {:induction false} RecordedInBetween(tr: seq<Event>, i: nat, k: nat, t: CheckType) returns (e: nat)
    requires i <= k <= |tr|
    requires !CheckRecorded(StatusAt(tr[..i]), t) && CheckRecorded(StatusAt(tr[..k]), t)
    ensures i <= e < k && SetsTrue(tr[e], Check(t))
  {
    StatusNext(tr, k - 1);
    if CheckRecorded(StatusAt(tr[..k - 1]), t) {
      e := RecordedInBetween(tr, i, k - 1, t);
    } else {
      e := k - 1;
    }
  }

  /** A check that is launched although it has been recorded was set True after the first look; so that with both looks
      taken at once it is launched only if it is not recorded. */
  lemma RelaunchedOnlyIf(tr: seq<Event>, n: nat, t: CheckType, looks: CheckLooks, duration: nat, k: nat)
    returns (e: nat)
    requires LookedDue(tr, n, t, looks, duration)
    requires looks.recorded <= k <= |tr| && CheckRecorded(StatusAt(tr[..k]), t)
    ensures looks.recorded <= e < k && SetsTrue(tr[e], Check(t))
  {
    e := RecordedInBetween(tr, looks.recorded, k, t);
  }

  lemma UnrecordedInPrefix(tr: seq<Event>, tr': seq<Event>, survey: nat, look: nat)
    requires tr <= tr' && Unrecorded(tr, survey, look)
    ensures Unrecorded(tr', survey, look)
  {
    assert tr'[..look] == tr[..look];
  }

  lemma ReachesFinal(tr: seq<Event>)
    requires WellFormed(tr) && FinalCheckRecorded(StatusAt(tr))
    ensures StatusAt(tr).recommendation.Some?
  {
    TrueWasSeen(tr, FinalCheck);
    FinalNeedsRecommendation(tr);
  }
}
