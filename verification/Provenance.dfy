/** Where verdicts and recommendations come from: the reconciler's marks in a trace say what it read and when,
    and every recommendation can be followed back along them. */
module Provenance {
  import opened Prelude
  import opened SecurityContexts
  import opened Checks
  import opened HardeningStatus
  import opened Trace
  import R = Recommendation

  /** The recommendation is the fold of the successful runs' contexts, in some order, onto the template's. */
  predicate IsFold(r: Recommended, template: Template, order: seq<CheckType>, runs: map<CheckType, R.Run>) {
    NoDuplicates(order) && R.Folds(order, runs) &&
    R.Contexts(r.pod, ViewContext(r.container)) == R.Fold(R.BaseOf(template), order, R.ContextsOf(runs))
  }

  /** A mark tells the truth: a survey about the template at that moment, a comparison about the runs listed at
      the stated position and the recordings of the moment, a choice about the verdicts and the template of the
      moment. */
  predicate Truthful(tr: seq<Event>, e: Event, miner: R.Miner) {
    match e
    case Survey(found) => found.Some? ==> found.value == Required(TemplateAt(tr))
    case Compare(at, verdicts) =>
      at <= |tr| && verdicts == R.RunsAfter(miner, RecordingsAt(tr), StatusAt(tr[..at]).checkRuns)
    case Choose(recommended, order) =>
      ProgressAt(tr).HasAnalyzed? && IsFold(recommended, TemplateAt(tr), order, ProgressAt(tr).verdicts)
    case _ => true
  }

  ghost predicate Honest(tr: seq<Event>, miner: R.Miner) {
    forall i {:trigger Truthful(tr[..i], tr[i], miner)} :: 0 <= i < |tr| ==> Truthful(tr[..i], tr[i], miner)
  }

  lemma HonestGrows(tr: seq<Event>, e: Event, miner: R.Miner)
    requires Honest(tr, miner) && Truthful(tr, e, miner)
    ensures Honest(tr + [e], miner)
  {
    forall i | 0 <= i < |tr + [e]|
      ensures Truthful((tr + [e])[..i], (tr + [e])[i], miner)
    {
      if i < |tr| {
        assert Truthful(tr[..i], tr[i], miner);
        assert (tr + [e])[..i] == tr[..i];
      } else {
        assert (tr + [e])[..i] == tr;
      }
    }
  }

  lemma HonestPrefix(tr: seq<Event>, n: nat, miner: R.Miner)
    requires Honest(tr, miner) && n <= |tr|
    ensures Honest(tr[..n], miner)
  {
    forall i | 0 <= i < n
      ensures Truthful(tr[..n][..i], tr[..n][i], miner)
    {
      assert Truthful(tr[..i], tr[i], miner);
      assert tr[..n][..i] == tr[..i];
    }
  }

  // ---------- following the marks back ----------

  predicate IsMark(e: Event) {
    e.Survey? || e.Verdict? || e.Compare? || e.Analyzed? || e.Choose?
  }

  /** The latest mark, which has led to the present progress. */
  lemma {:induction false} LastMark(tr: seq<Event>) returns (n: nat)
    requires ProgressAt(tr) != Resting
    ensures n < |tr| && IsMark(tr[n]) && ProgressAt(tr) == Onwards(ProgressAt(tr[..n]), tr[n])
    ensures forall j :: n < j < |tr| ==> !IsMark(tr[j])
  {
    n := |tr| - 1;
    if !IsMark(tr[n]) {
      var front := tr[..n];
      n := LastMark(front);
      assert tr[..n] == front[..n];
    }
  }

  predicate NoMarkBetween(tr: seq<Event>, i: nat, j: nat) {
    forall k :: i < k < j && k < |tr| ==> !IsMark(tr[k])
  }

  lemma MarksFollow(tr: seq<Event>, e: Event)
    requires Allowed(tr, e)
    ensures e.Verdict? ==> ProgressAt(tr).HasSurveyed? && AllSeen(tr, Found(ProgressAt(tr).found))
    ensures e.Compare? ==> ProgressAt(tr).HasJudged? && e.at <= |tr| && ProgressAt(tr[..e.at]) == ProgressAt(tr)
    ensures e.Analyzed? ==> ProgressAt(tr).HasCompared?
    ensures e.Choose? ==> ProgressAt(tr).HasAnalyzed?
  {
  }

  /** In a well-formed trace each kind of progress comes from its own kind of mark. */
  lemma OwnMark(tr: seq<Event>) returns (n: nat)
    requires WellFormed(tr) && ProgressAt(tr) != Resting
    ensures n < |tr| && ProgressAt(tr) == Onwards(ProgressAt(tr[..n]), tr[n])
    ensures forall j :: n < j < |tr| ==> !IsMark(tr[j])
    ensures match ProgressAt(tr)
            case Resting => false
            case HasSurveyed(found) => tr[n] == Survey(found)
            case HasJudged(_) => tr[n].Verdict?
            case HasCompared(verdicts) => tr[n].Compare? && tr[n].verdicts == verdicts
            case HasAnalyzed(_) => tr[n].Analyzed?
            case HasChosen(recommended) => tr[n].Choose? && tr[n].recommended == recommended
  {
    n := LastMark(tr);
    WellFormedPrefix(tr, n);
    MarksFollow(tr[..n], tr[n]);
  }

  /** What came before a position was well formed and honest, too. */
  lemma Before(tr: seq<Event>, n: nat, miner: R.Miner)
    requires WellFormed(tr) && Honest(tr, miner) && n < |tr|
    ensures WellFormed(tr[..n]) && Honest(tr[..n], miner)
    ensures Allowed(tr[..n], tr[n]) && Truthful(tr[..n], tr[n], miner)
  {
    WellFormedPrefix(tr, n);
    HonestPrefix(tr, n, miner);
    assert Truthful(tr[..n], tr[n], miner);
  }

  /** The verdict at `v` is on the survey at `s`, and no other survey came in between: the baseline and all checks
      found had been set True by then; and what was found is what the template required at the moment of the
      survey, unless it could not be read. */
  predicate Surveyed(tr: seq<Event>, s: nat, v: nat) {
    s < v < |tr| && tr[s].Survey? && tr[v].Verdict? && NoMarkBetween(tr, s, v) &&
    AllSeen(tr[..v], Found(tr[s].found)) &&
    (tr[s].found.Some? ==> tr[s].found.value == Required(TemplateAt(tr[..s])))
  }

  lemma VerdictHasSurvey(tr: seq<Event>, miner: R.Miner, v: nat) returns (s: nat)
    requires WellFormed(tr) && Honest(tr, miner) && v < |tr| && tr[v].Verdict?
    ensures Surveyed(tr, s, v) && ProgressAt(tr[..v]) == HasSurveyed(tr[s].found)
  {
    Before(tr, v, miner);
    var before := tr[..v];
    MarksFollow(before, tr[v]);
    s := OwnMark(before);
    Before(before, s, miner);
    assert before[..s] == tr[..s];
    assert forall j :: s < j < v ==> tr[j] == before[j];
  }

  /** An analysis: after a verdict the runs of the status at `at` were judged by the recordings at `compared`. */
  ghost predicate ComparedAt(tr: seq<Event>, miner: R.Miner, survey: nat, verdict: nat, at: nat, compared: nat) {
    Surveyed(tr, survey, verdict) && verdict < at <= compared < |tr| &&
    tr[compared] == Compare(at, R.RunsAfter(miner, RecordingsAt(tr[..compared]), StatusAt(tr[..at]).checkRuns))
  }

  lemma CompareHasBasis(tr: seq<Event>, miner: R.Miner, c: nat) returns (s: nat, v: nat)
    requires WellFormed(tr) && Honest(tr, miner) && c < |tr| && tr[c].Compare?
    ensures ComparedAt(tr, miner, s, v, tr[c].at, c)
  {
    Before(tr, c, miner);
    MarksFollow(tr[..c], tr[c]);
    var before := tr[..tr[c].at];
    assert tr[..c][..tr[c].at] == before;
    WellFormedPrefix(tr, tr[c].at);
    v := OwnMark(before);
    s := VerdictHasSurvey(tr, miner, v);
  }

  lemma AnalyzedHasBasis(tr: seq<Event>, miner: R.Miner, a: nat) returns (s: nat, v: nat, c: nat)
    requires WellFormed(tr) && Honest(tr, miner) && a < |tr| && tr[a].Analyzed?
    ensures c < a && tr[c].Compare? && ComparedAt(tr, miner, s, v, tr[c].at, c) && NoMarkBetween(tr, c, a)
    ensures ProgressAt(tr[..a]) == HasCompared(tr[c].verdicts)
  {
    WellFormedPrefix(tr, a);
    MarksFollow(tr[..a], tr[a]);
    c := OwnMark(tr[..a]);
    s, v := CompareHasBasis(tr, miner, c);
  }

  /** The way from a survey to a committed recommendation, by positions in the trace. */
  datatype Basis = Basis(survey: nat, verdict: nat, at: nat, compared: nat, analyzed: nat, chosen: nat)

  /** The recommendation chosen at `chosen` is the fold of the runs that the analysis found successful, onto the
      template of that moment. */
  ghost predicate BasedOn(tr: seq<Event>, miner: R.Miner, b: Basis, r: Recommended) {
    ComparedAt(tr, miner, b.survey, b.verdict, b.at, b.compared) &&
    b.compared < b.analyzed < b.chosen < |tr| && tr[b.analyzed].Analyzed? &&
    NoMarkBetween(tr, b.compared, b.analyzed) && NoMarkBetween(tr, b.analyzed, b.chosen) &&
    tr[b.chosen].Choose? && tr[b.chosen].recommended == r &&
    IsFold(r, TemplateAt(tr[..b.chosen]), tr[b.chosen].order, tr[b.compared].verdicts)
  }

  lemma ChoiceHasBasis(tr: seq<Event>, miner: R.Miner, h: nat) returns (b: Basis)
    requires WellFormed(tr) && Honest(tr, miner) && h < |tr| && tr[h].Choose?
    ensures BasedOn(tr, miner, b, tr[h].recommended) && b.chosen == h
  {
    Before(tr, h, miner);
    MarksFollow(tr[..h], tr[h]);
    var a := OwnMark(tr[..h]);
    assert tr[..h][..a] == tr[..a];
    var s, v, c := AnalyzedHasBasis(tr, miner, a);
    b := Basis(s, v, tr[c].at, c, a, h);
  }

  lemma {:induction false} RecommendationWasCommitted(tr: seq<Event>) returns (n: nat)
    requires StatusAt(tr).recommendation.Some?
    ensures n < |tr| && tr[n].Commit? && tr[n].mutation == SetRecommendation(StatusAt(tr).recommendation.value)
  {
    n := |tr| - 1;
    if !(tr[n].Commit? && tr[n].mutation.SetRecommendation?) {
      n := RecommendationWasCommitted(tr[..n]);
    }
  }

  lemma CommitsAreTheReconcilers(tr: seq<Event>, e: Event)
    requires Allowed(tr, e) && e.Commit? && e.mutation.SetRecommendation?
    ensures e.actor == Reconciler && ProgressAt(tr) == HasChosen(e.mutation.recommended)
  {
  }

  lemma CommitHasBasis(tr: seq<Event>, miner: R.Miner, n: nat) returns (b: Basis)
    requires WellFormed(tr) && Honest(tr, miner)
    requires n < |tr| && tr[n].Commit? && tr[n].mutation.SetRecommendation?
    ensures BasedOn(tr, miner, b, tr[n].mutation.recommended) && b.chosen < n
  {
    WellFormedPrefix(tr, n);
    CommitsAreTheReconcilers(tr[..n], tr[n]);
    var h := OwnMark(tr[..n]);
    b := ChoiceHasBasis(tr, miner, h);
  }

  /** Every recommendation that is ever stored has a basis. */
  lemma RecommendationHasBasis(tr: seq<Event>, miner: R.Miner) returns (b: Basis)
    requires WellFormed(tr) && Honest(tr, miner) && StatusAt(tr).recommendation.Some?
    ensures BasedOn(tr, miner, b, StatusAt(tr).recommendation.value)
  {
    var n := RecommendationWasCommitted(tr);
    b := CommitHasBasis(tr, miner, n);
  }

  /** The error of a missing recording does not occur, so that an analysis is skipped or judges every run. */
  lemma ComparisonIsSound(tr: seq<Event>, miner: R.Miner, s: nat, v: nat, at: nat, c: nat)
    requires WellFormed(tr) && ComparedAt(tr, miner, s, v, at, c)
    ensures !R.AnalysisOf(miner, RecordingsAt(tr[..c]), StatusAt(tr[..at]).checkRuns).Missing?
  {
    WellFormedPrefix(tr, at);
    RunsAreRecorded(tr[..at]);
    RecordingsGrow(tr[..c], at);
    assert tr[..c][..at] == tr[..at];
  }

  /** End to end. Whatever anybody does at any time: a stored recommendation traces back to the template, as it was
      when it was chosen, and to the checks that did no harm, by the recordings of the moment of the comparison;
      unless that analysis was skipped, because a baseline was missing or no run was listed. */
  lemma RecommendationTracesBack(tr: seq<Event>, miner: R.Miner) returns (b: Basis)
    requires WellFormed(tr) && Honest(tr, miner) && StatusAt(tr).recommendation.Some?
    ensures BasedOn(tr, miner, b, StatusAt(tr).recommendation.value)
    ensures var recordings, runs := RecordingsAt(tr[..b.compared]), StatusAt(tr[..b.at]).checkRuns;
            var r := StatusAt(tr).recommendation.value;
            if BaselineRun(false) in recordings && BaselineRun(true) in recordings && runs != map[] then
              R.AnalysisOf(miner, recordings, runs).Updated? &&
              R.TracesBack(miner, recordings, runs, R.BaseOf(TemplateAt(tr[..b.chosen])),
                           R.Contexts(r.pod, ViewContext(r.container)))
            else tr[b.compared].verdicts == runs
  {
    b := RecommendationHasBasis(tr, miner);
    ComparisonIsSound(tr, miner, b.survey, b.verdict, b.at, b.compared);
    var recordings, runs := RecordingsAt(tr[..b.compared]), StatusAt(tr[..b.at]).checkRuns;
    if R.AnalysisOf(miner, recordings, runs).Updated? {
      R.RecommendationIsSound(miner, recordings, runs, TemplateAt(tr[..b.chosen]), tr[b.chosen].order);
    }
  }

  // ---------- the order of the phases ----------

  /** The phases of a run that ends with the recommendation ready, by their positions in the trace. */
  datatype Phases = Phases(baseline: nat, basis: Basis, committed: nat, launched: nat, final: nat)

  /** Baseline recorded, verdict on the survey of the template, analysis, choice and commit of one and the same
      recommendation, launch of the final run with its projection, and the recording by that very runner. */
  ghost predicate InOrder(tr: seq<Event>, miner: R.Miner, p: Phases, end: nat) {
    p.baseline < p.basis.verdict < p.basis.at <= p.basis.compared < p.basis.analyzed < p.basis.chosen &&
    p.basis.chosen < p.committed < p.launched < p.final < end <= |tr| &&
    SetsTrue(tr[p.baseline], Baseline) &&
    tr[p.committed].Commit? && tr[p.committed].mutation.SetRecommendation? &&
    BasedOn(tr, miner, p.basis, tr[p.committed].mutation.recommended) &&
    tr[p.launched] == Launch(p.launched, FinalRun, Some(Projected(tr[p.committed].mutation.recommended))) &&
    SetsTrue(tr[p.final], FinalCheck) && tr[p.final].actor == Runner(p.launched)
  }

  predicate FinishesAt(e: Event) {
    e.Commit? && e.mutation.SetCond? && e.mutation.ctype == Finished && e.mutation.status == True &&
    e.mutation.reason == AllFinished
  }

  /** The final check was set True by a runner that was launched with the recommendation of the moment. */
  lemma FinalRunnerOf(tr: seq<Event>) returns (l: nat, f: nat)
    requires WellFormed(tr) && SeenTrue(tr, FinalCheck)
    ensures l < f < |tr| && SetsTrue(tr[f], FinalCheck) && tr[f].actor == Runner(l)
    ensures StatusAt(tr[..l]).recommendation.Some?
    ensures tr[l] == Launch(l, FinalRun, Some(Projected(StatusAt(tr[..l]).recommendation.value)))
  {
    f :| 0 <= f < |tr| && SetsTrue(tr[f], FinalCheck);
    assert Allowed(tr[..f], tr[f]);
    l := tr[f].actor.id;
    assert tr[..f][l] == tr[l] && tr[l].kind == FinalRun;
    assert Allowed(tr[..l], tr[l]);
  }

  lemma FinishNeedsFinal(tr: seq<Event>, e: Event)
    requires Allowed(tr, e) && FinishesAt(e)
    ensures SeenTrue(tr, FinalCheck)
  {
  }

  /** Every check that the template required, as it was at the survey, had been set True by the verdict. */
  predicate Covered(tr: seq<Event>, survey: nat, verdict: nat)
    requires survey < verdict < |tr|
  {
    AllSeen(tr[..verdict], Required(TemplateAt(tr[..survey])))
  }

  /** Whenever the check is declared finished, all the phases have happened before, in that order; and if the
      template could be read at the survey, every check that it required then had been recorded. */
  lemma PhaseOrder(tr: seq<Event>, miner: R.Miner, i: nat) returns (p: Phases)
    requires WellFormed(tr) && Honest(tr, miner) && i < |tr| && FinishesAt(tr[i])
    ensures InOrder(tr, miner, p, i)
    ensures tr[p.basis.survey].found.Some? ==> Covered(tr, p.basis.survey, p.basis.verdict)
  {
    WellFormedPrefix(tr, i);
    FinishNeedsFinal(tr[..i], tr[i]);
    var l, f := FinalRunnerOf(tr[..i]);
    assert tr[..i][..l] == tr[..l];
    var n := RecommendationWasCommitted(tr[..l]);
    var b := CommitHasBasis(tr, miner, n);
    var baseline :| 0 <= baseline < b.verdict && SetsTrue(tr[..b.verdict][baseline], Baseline);
    p := Phases(baseline, b, n, l, f);
  }
}
