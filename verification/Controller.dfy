/** The reconciler: one step of the hardening protocol at a time. */
module Controller {
  import opened Prelude
  import opened SecurityContexts
  import opened Checks
  import opened HardeningStatus
  import opened Trace
  import opened Provenance
  import opened Environment
  import opened Decisions
  import opened Looks
  import opened Manager
  import R = Recommendation

  /** What the reconciler may write besides the announcements. */
  predicate MarkAllowed(tr: seq<Event>, c: CondType, status: CondStatus, reason: Reason) {
    match c
    case Finished =>
      status != Unknown &&
      (status == True && reason == AllFinished ==> StatusAt(tr).recommendation.Some? && SeenTrue(tr, FinalCheck))
    case Analysis =>
      status == True && reason == AnalysisFinished ==> ProgressAt(tr).HasAnalyzed? || ProgressAt(tr).HasChosen?
    case _ => status == Unknown && reason == Requeue
  }

  lemma MayMark(tr: seq<Event>, c: CondType, status: CondStatus, reason: Reason)
    requires !FinishedTrue(StatusAt(tr)) && MarkAllowed(tr, c, status, reason)
    ensures May(tr, Reconciler, SetCond(c, status, reason, 0))
  {
  }

  ghost predicate FoldOnto(template: Template, verdicts: map<CheckType, R.Run>, r: Recommended) {
    exists order :: IsFold(r, template, order, verdicts)
  }

  /** The recommendation is the fold that an analysis of what there was at `start` gives. */
  ghost predicate FoldedFrom(start: Snapshot, miner: R.Miner, r: Recommended) {
    FoldOnto(TemplateOf(start), R.RunsAfter(miner, start.recordings, start.status.checkRuns), r)
  }

  function FindingsOf(start: Snapshot, miner: R.Miner, recommended: Recommended): Findings {
    Findings(R.RunsAfter(miner, start.recordings, start.status.checkRuns), recommended)
  }

  /** One reconcile of a whole run. */
  datatype Call = Call(before: Snapshot, after: Snapshot, result: Result, why: Overtaking)

  /** What came of the question whether to analyze. */
  datatype Report = Report(analyzed: bool, basis: Basis, recommended: Recommended, survey: nat, look: nat)

  /** Both conditions tell that the analysis has failed. */
  predicate Aborted(o: Owned) {
    IsSet(o.analysis, True, AnalysisFailed) && IsSet(o.finished, True, AnalysisFailed)
  }

  class WorkloadReconciler {
    const w: World
    const seconds: nat
    const specified: Option<Defaults>
    const parallel: bool

    constructor (w: World, seconds: nat, specified: Option<Defaults>, parallel: bool)
      requires w.Valid() && (specified.Some? ==> Complete(specified.value))
      ensures Valid() && this.w == w && this.seconds == seconds && this.specified == specified &&
              this.parallel == parallel
    {
      this.w, this.seconds, this.specified, this.parallel := w, seconds, specified, parallel;
    }

    ghost predicate Valid()
      reads w
    {
      w.Valid() && (specified.Some? ==> Complete(specified.value))
    }

    ghost predicate Mine(m: CheckManager)
      reads m, w
    {
      m.w == w && m.me == Trace.Reconciler && m.seconds == seconds && m.specified == specified && m.Valid() &&
      m.GetCheckDuration() == Duration()
    }

    function Duration(): nat {
      seconds * 1_000_000_000
    }

    /** A runner goroutine is started. */
    method Launch(kind: Kind, context: Option<Defaults>)
      requires w.Valid() && Allowed(w.trace, Event.Launch(|w.trace|, kind, context))
      modifies w
      ensures w.Valid() && Onward(old(w.Snap()), w.Snap()) && Launches(w.trace) == Launches(old(w.trace)) + [kind]
      ensures w.trace == old(w.trace) + [Event.Launch(|old(w.trace)|, kind, context)] &&
              LaunchedLast(w.trace, kind, context)
      ensures w.status == old(w.status) && w.recordings == old(w.recordings) && w.noise == old(w.noise) &&
              w.now == old(w.now)
    {
      LaunchesNext(w.trace, Event.Launch(|w.trace|, kind, context));
      w.Record(Event.Launch(|w.trace|, kind, context));
    }

    /** Others act in the meantime. */
    method Sleep()
      requires w.Valid()
      modifies w
      ensures w.Valid() && Waited(old(w.Snap()), w.Snap(), Trace.Reconciler) && Quiet(old(w.Snap()), w.Snap())
    {
      w.Interfere(Trace.Reconciler);
      OthersLeave(old(w.trace), w.trace, Trace.Reconciler);
      OthersLaunchNothing(old(w.trace), w.trace);
    }

    method Mark(m: CheckManager, c: CondType, status: CondStatus, reason: Reason) returns (ok: bool)
      requires Mine(m) && Unfinished(w.status) && MarkAllowed(w.trace, c, status, reason)
      modifies m, w
      ensures Mine(m) && Onward(old(w.Snap()), w.Snap()) && Launches(w.trace) == Launches(old(w.trace))
      ensures m.ReadSince(|old(w.trace)|) && ProgressAt(w.trace) == ProgressAt(old(w.trace))
      ensures w.failures == old(w.failures) + (if ok then 0 else 1)
      ensures !ok ==> OwnedOf(w.status) == OwnedOf(old(w.status))
      ensures ok ==> OwnedSet(OwnedOf(old(w.status)), OwnedOf(w.status), c, status, reason)
      ensures w.noise == old(w.noise) ==>
        ok && m.local == w.status && w.recordings == old(w.recordings) &&
        Kept(old(w.status), w.status, {c}) && SameRuns(old(w.status), w.status) && Says(w.status, c, status, reason)
    {
      FinishedIsOwned(w.status);
      MayMark(w.trace, c, status, reason);
      ghost var at;
      ok, at := m.SetCondition(c, status, reason);
      SettingKeeps(old(w.status), c, status, reason, at, {c});
    }

    // ---------- the analysis ----------

    method BeginAnalysis(m: CheckManager)
      requires Mine(m) && Unfinished(w.status)
      modifies m, w
      ensures Mine(m) && Onward(old(w.Snap()), w.Snap()) && Launches(w.trace) == Launches(old(w.trace))
      ensures m.ReadSince(|old(w.trace)|) && ProgressAt(w.trace) == ProgressAt(old(w.trace))
      ensures Unfinished(w.status)
      ensures w.noise == old(w.noise) ==>
        m.local == w.status && w.recordings == old(w.recordings) &&
        Kept(old(w.status), w.status, CONCLUSIONS) && SameRuns(old(w.status), w.status) &&
        Says(w.status, Finished, False, Analyzing) && Says(w.status, Analysis, False, Analyzing)
    {
      var ok := Mark(m, Finished, False, Analyzing);
      ghost var between := w.status;
      ok := Mark(m, Analysis, False, Analyzing);
      if w.noise == old(w.noise) {
        KeptMore(old(w.status), between, {Finished}, CONCLUSIONS);
        KeptMore(between, w.status, {Analysis}, CONCLUSIONS);
        KeptTwice(old(w.status), between, w.status, CONCLUSIONS);
      }
    }

    method AbortAnalysis(m: CheckManager)
      requires Mine(m) && Unfinished(w.status)
      modifies m, w
      ensures Mine(m) && Onward(old(w.Snap()), w.Snap()) && Launches(w.trace) == Launches(old(w.trace))
      ensures w.failures == old(w.failures) ==> Aborted(OwnedOf(w.status))
    {
      var ok := Mark(m, Analysis, True, AnalysisFailed);
      ok := Mark(m, Finished, True, AnalysisFailed);
    }

    method ConcludeAnalysis(m: CheckManager)
      requires Mine(m) && Unfinished(w.status) && (ProgressAt(w.trace).HasAnalyzed? || ProgressAt(w.trace).HasChosen?)
      modifies m, w
      ensures Mine(m) && Onward(old(w.Snap()), w.Snap()) && Launches(w.trace) == Launches(old(w.trace))
      ensures Unfinished(w.status) && OwnedOf(w.status).recommendation == OwnedOf(old(w.status)).recommendation
      ensures w.noise == old(w.noise) ==>
        m.local == w.status && Kept(old(w.status), w.status, CONCLUSIONS) && SameRuns(old(w.status), w.status) &&
        Says(w.status, Analysis, True, AnalysisFinished) && Says(w.status, Finished, False, Analyzing)
    {
      var ok := Mark(m, Analysis, True, AnalysisFinished);
      ghost var between := w.status;
      ok := Mark(m, Finished, False, Analyzing);
      if w.noise == old(w.noise) {
        KeptMore(old(w.status), between, {Analysis}, CONCLUSIONS);
        KeptMore(between, w.status, {Finished}, CONCLUSIONS);
        KeptTwice(old(w.status), between, w.status, CONCLUSIONS);
      }
    }

    /** The recordings are read at position `compared`. */
    method JudgeRuns(m: CheckManager) returns (stop: bool, ghost compared: nat)
      requires Mine(m) && Unfinished(w.status) && ProgressAt(w.trace).HasJudged? && ReadAt(m.local, w.trace, m.readAt)
      modifies m, w
      ensures Mine(m) && Onward(old(w.Snap()), w.Snap()) && Launches(w.trace) == Launches(old(w.trace))
      ensures stop ==>
        w.failures > old(w.failures) && (w.failures == old(w.failures) + 1 ==> Aborted(OwnedOf(w.status)))
      ensures !stop ==> w.failures == old(w.failures)
      ensures |old(w.trace)| <= compared <= |w.trace|
      ensures !stop ==>
        Unfinished(w.status) && EachConfigured(m.local.checkRuns) &&
        m.local.checkRuns == R.RunsAfter(w.miner, RecordingsAt(w.trace[..compared]), old(m.local.checkRuns)) &&
        ProgressAt(w.trace) == HasAnalyzed(m.local.checkRuns) &&
        compared < |w.trace| && w.trace[compared] == Compare(old(m.readAt), m.local.checkRuns)
      ensures w.noise == old(w.noise) && old(m.local) == old(w.status) ==>
        m.local == w.status && w.recordings == old(w.recordings) && !stop &&
        Kept(old(w.status), w.status, CONCLUSIONS) && SameHistory(old(w.status), w.status) &&
        w.status.checkRuns == R.RunsAfter(w.miner, old(w.recordings), old(w.status.checkRuns))
    {
      stop, compared := m.AnalyzeCheckRuns();
      if stop { AbortAnalysis(m); }
      if w.noise == old(w.noise) && old(m.local) == old(w.status) {
        SameConditionsKeep(old(w.status), w.status, CONCLUSIONS);
      }
    }

    /** The template is read at position `chosen`. */
    method Recommend(m: CheckManager) returns (ghost chosen: nat)
      requires Mine(m) && Unfinished(w.status)
      requires ProgressAt(w.trace) == HasAnalyzed(m.local.checkRuns) && EachConfigured(m.local.checkRuns)
      modifies m, w
      ensures Mine(m) && Onward(old(w.Snap()), w.Snap()) && Launches(w.trace) == Launches(old(w.trace))
      ensures Unfinished(w.status) && |old(w.trace)| <= chosen
      ensures w.failures == old(w.failures) ==>
        chosen < |w.trace| && w.trace[chosen].Choose? &&
        OwnedOf(w.status).recommendation == Some(w.trace[chosen].recommended) &&
        IsFold(w.trace[chosen].recommended, TemplateAt(w.trace[..chosen]), w.trace[chosen].order,
               old(m.local.checkRuns))
      ensures w.noise == old(w.noise) ==>
        m.local == w.status && TemplateAt(w.trace[..chosen]) == TemplateOf(old(w.Snap())) &&
        Kept(old(w.status), w.status, CONCLUSIONS) && SameHistory(old(w.status), w.status) &&
        w.status.checkRuns == old(w.status.checkRuns) &&
        Says(w.status, Analysis, True, AnalysisFinished) && Says(w.status, Finished, False, Analyzing)
    {
      var failed;
      failed, chosen := m.SetRecommendation();
      ghost var between, early := w.status, w.trace;
      ConcludeAnalysis(m);
      if w.failures == old(w.failures) {
        assert w.trace[chosen] == early[chosen] && w.trace[..chosen] == early[..chosen];
      }
      if w.noise == old(w.noise) {
        SameConditionsKeep(old(w.status), between, CONCLUSIONS);
        KeptTwice(old(w.status), between, w.status, CONCLUSIONS);
      }
    }

    /** There is a recommendation, and it has a basis; the recordings were read, and the recommendation was chosen,
        from position `n` on. */
    ghost predicate RecommendedSince(n: nat, b: Basis)
      reads w
    {
      w.status.recommendation.Some? && BasedOn(w.trace, w.miner, b, w.status.recommendation.value) && n <= b.compared
    }

    /** The latest comparison is the one that the choice is based on. */
    ghost method BasisOf(compared: nat, chosen: nat) returns (b: Basis)
      requires w.Valid() && compared < chosen < |w.trace| && w.trace[compared].Compare? && w.trace[chosen].Choose?
      ensures BasedOn(w.trace, w.miner, b, w.trace[chosen].recommended) && compared <= b.compared
    {
      b := ChoiceHasBasis(w.trace, w.miner, chosen);
      assert IsMark(w.trace[compared]);
    }

    /** Folds the runs judged at `compared`. */
    method RecommendJudged(m: CheckManager, ghost compared: nat) returns (ghost b: Basis)
      requires Mine(m) && Unfinished(w.status)
      requires ProgressAt(w.trace) == HasAnalyzed(m.local.checkRuns) && EachConfigured(m.local.checkRuns)
      requires compared < |w.trace| && w.trace[compared].Compare?
      modifies m, w
      ensures Mine(m) && Onward(old(w.Snap()), w.Snap()) && Launches(w.trace) == Launches(old(w.trace))
      ensures Unfinished(w.status)
      ensures w.failures == old(w.failures) ==> RecommendedSince(compared, b)
      ensures w.noise == old(w.noise) ==>
        m.local == w.status && Kept(old(w.status), w.status, CONCLUSIONS) && SameHistory(old(w.status), w.status) &&
        w.status.checkRuns == old(w.status.checkRuns) &&
        Says(w.status, Analysis, True, AnalysisFinished) && Says(w.status, Finished, False, Analyzing) &&
        FoldOnto(TemplateOf(old(w.Snap())), old(m.local.checkRuns), w.status.recommendation.value)
    {
      b := Basis(0, 0, 0, 0, 0, 0);
      ghost var early := w.trace;
      ghost var chosen := Recommend(m);
      if w.failures == old(w.failures) {
        assert w.trace[compared] == early[compared];
        b := BasisOf(compared, chosen);
      }
    }

    method JudgeAndRecommend(m: CheckManager) returns (stop: bool, ghost b: Basis)
      requires Mine(m) && Unfinished(w.status) && ProgressAt(w.trace).HasJudged? && ReadAt(m.local, w.trace, m.readAt)
      modifies m, w
      ensures Mine(m) && Onward(old(w.Snap()), w.Snap()) && Launches(w.trace) == Launches(old(w.trace))
      ensures stop ==>
        w.failures > old(w.failures) && (w.failures == old(w.failures) + 1 ==> Aborted(OwnedOf(w.status)))
      ensures !stop ==> Unfinished(w.status)
      ensures w.failures == old(w.failures) ==> RecommendedSince(|old(w.trace)|, b)
      ensures w.noise == old(w.noise) && old(m.local) == old(w.status) ==>
        m.local == w.status && Kept(old(w.status), w.status, CONCLUSIONS) && SameHistory(old(w.status), w.status) &&
        Says(w.status, Analysis, True, AnalysisFinished) && Says(w.status, Finished, False, Analyzing) &&
        w.status.checkRuns == R.RunsAfter(w.miner, old(w.recordings), old(w.status.checkRuns)) &&
        FoldedFrom(old(w.Snap()), w.miner, w.status.recommendation.value)
    {
      b := Basis(0, 0, 0, 0, 0, 0);
      ghost var compared;
      stop, compared := JudgeRuns(m);
      if stop { return; }
      ghost var judged := w.Snap();
      b := RecommendJudged(m, compared);
      if w.noise == old(w.noise) && old(m.local) == old(w.status) {
        KeptTwice(old(w.status), judged.status, w.status, CONCLUSIONS);
      }
    }

    /** Analyzes the runs and commits a recommendation. Without a failure the recommendation is there in the end, and
        it is the fold of what was read in this very call, whatever others did in the meantime. */
    method Analyze(m: CheckManager) returns (stop: bool, ghost b: Basis)
      requires Mine(m) && Unfinished(w.status) && ProgressAt(w.trace).HasJudged?
      modifies m, w
      ensures Mine(m) && Onward(old(w.Snap()), w.Snap()) && Launches(w.trace) == Launches(old(w.trace))
      ensures stop ==>
        w.failures > old(w.failures) && (w.failures == old(w.failures) + 1 ==> Aborted(OwnedOf(w.status)))
      ensures !stop ==> Unfinished(w.status)
      ensures w.failures == old(w.failures) ==> RecommendedSince(|old(w.trace)|, b)
      ensures w.noise == old(w.noise) ==>
        m.local == w.status && Kept(old(w.status), w.status, CONCLUSIONS) && SameHistory(old(w.status), w.status) &&
        Says(w.status, Analysis, True, AnalysisFinished) && Says(w.status, Finished, False, Analyzing) &&
        w.status.checkRuns == R.RunsAfter(w.miner, old(w.recordings), old(w.status.checkRuns)) &&
        FoldedFrom(old(w.Snap()), w.miner, w.status.recommendation.value)
    {
      BeginAnalysis(m);
      ghost var begun := w.Snap();
      stop, b := JudgeAndRecommend(m);
      if w.noise == old(w.noise) {
        KeptTwice(old(w.status), begun.status, w.status, CONCLUSIONS);
        FoldedEarlier(old(w.Snap()), begun, w.miner, w.status.recommendation.value);
      }
    }

    lemma FoldedEarlier(a: Snapshot, b: Snapshot, miner: R.Miner, r: Recommended)
      requires FoldedFrom(b, miner, r)
      requires TemplateOf(a) == TemplateOf(b) && a.recordings == b.recordings &&
               a.status.checkRuns == b.status.checkRuns
      ensures FoldedFrom(a, miner, r)
    {
    }

    // ---------- the final check ----------

    /** The look at a running final check is at position `look`. */
    method AwaitFinal(m: CheckManager) returns (running: bool, ghost look: nat)
      requires Mine(m) && Unfinished(w.status)
      modifies m, w
      ensures Mine(m) && Onward(old(w.Snap()), w.Snap()) && Steady(old(w.Snap()), w.Snap())
      ensures |old(w.trace)| <= look <= |w.trace| && running == FinalCheckInProgress(StatusAt(w.trace[..look]))
      ensures !running ==> m.local == w.status && look == |w.trace|
      ensures w.noise == old(w.noise) ==>
        running == FinalCheckInProgress(old(w.status)) &&
        if running then
          Awaited(old(w.status), w.status, FinalCheck, old(w.now), w.now, Duration()) &&
          Kept(old(w.status), w.status, {FinalCheck}) &&
          SameRuns(old(w.status), w.status)
        else w.status == old(w.status)
    {
      hide StatusAt, Launches, Kept;
      running := m.FinalCheckInProgress();
      look := |w.trace|;
      ghost var looked := w.trace;
      assert w.trace[..look] == looked;
      if running {
        var overdue := m.FinalCheckOverdue();
        if overdue {
          var ok := Mark(m, FinalCheck, Unknown, Requeue);
        } else {
          SameConditionsKeep(old(w.status), old(w.status), {FinalCheck});
        }
        assert w.trace[..look] == looked;
      }
    }

    method StartFinal(m: CheckManager)
      requires Mine(m) && Unfinished(w.status) && m.local == w.status && w.status.recommendation.Some?
      modifies m, w
      ensures Mine(m) && Onward(old(w.Snap()), w.Snap()) && Launches(w.trace) == Launches(old(w.trace)) + [FinalRun]
      ensures OwnedOf(w.status).recommendation == OwnedOf(old(w.status)).recommendation
      ensures w.noise == old(w.noise) ==>
        Says(w.status, Finished, False, FinalCheckRecording) && Kept(old(w.status), w.status, {Finished}) &&
        SameRuns(old(w.status), w.status)
    {
      FinishedIsOwned(w.status);
      Launch(FinalRun, m.GetRecommendedSecurityContext());
      var ok := Mark(m, Finished, False, FinalCheckRecording);
    }

    /** The look at a recorded final check is at position `look`. */
    method LaunchFinal(m: CheckManager) returns (started: bool, ghost look: nat)
      requires Mine(m) && Unfinished(w.status) && m.local == w.status
      modifies m, w
      ensures Mine(m) && Onward(old(w.Snap()), w.Snap())
      ensures if started
              then Launches(w.trace) == Launches(old(w.trace)) + [FinalRun] && OwnedOf(w.status).recommendation.Some?
              else Steady(old(w.Snap()), w.Snap())
      ensures |old(w.trace)| <= look <= |w.trace| && (!started ==> look == |w.trace|)
      ensures started == (old(w.status).recommendation.Some? && !FinalCheckRecorded(StatusAt(w.trace[..look])))
      ensures w.noise == old(w.noise) ==>
        started == (old(w.status).recommendation.Some? && !FinalCheckRecorded(old(w.status))) &&
        if started then
          Says(w.status, Finished, False, FinalCheckRecording) && Kept(old(w.status), w.status, {Finished}) &&
          SameRuns(old(w.status), w.status)
        else w.status == old(w.status)
    {
      look := |w.trace|;
      if !m.RecommendationExists() { return false, look; }
      var recorded := m.FinalCheckRecorded();
      look := |w.trace|;
      ghost var looked := w.trace;
      assert w.trace[..look] == looked;
      started := !recorded;
      if started { StartFinal(m); }
      assert w.trace[..look] == looked;
    }

    /** Waits for the final check, or launches it. */
    method PursueFinal(m: CheckManager, ghost first: Status)
      returns (result: Option<Result>, ghost launched: seq<Kind>, ghost looks: FinalLooks)
      requires Mine(m) && Unfinished(w.status) && !Holds(first, FinalCheck, Unknown)
      modifies m, w
      ensures Mine(m) && Onward(old(w.Snap()), w.Snap()) && Launches(w.trace) == Launches(old(w.trace)) + launched
      ensures Settled(OwnedOf(old(w.status))) ==> Settled(OwnedOf(w.status))
      ensures FinalLooksWithin(|old(w.trace)|, looks, |w.trace|)
      ensures result.None? <==> PassedFinal(w.trace, first, looks)
      ensures result.None? ==> Unfinished(w.status) && launched == []
      ensures result.Some? && result.value.requeueAfter == 0 ==> seconds == 0
      ensures w.noise == old(w.noise) ==>
        FinalPhase(first, old(w.status), w.status, result, launched, old(w.now), w.now, Duration())
    {
      hide StatusAt, Launches, OwnedOf, OwnedFinished, Kept, SameRuns, Awaited;
      var running;
      ghost var look, later;
      running, look := AwaitFinal(m);
      if running { return Some(Requeued(m.GetCheckDuration() / 2)), [], FinalLooks(look, |w.trace|); }
      ghost var looked := w.trace;
      assert w.trace[..look] == looked;
      var started;
      started, later := LaunchFinal(m);
      looks := FinalLooks(look, later);
      assert w.trace[..look] == looked;
      if started { return Some(Requeued(m.GetCheckDuration() + MARGIN)), [FinalRun], looks; }
      result, launched := None, [];
    }

    method HandleFinalCheck(m: CheckManager, first: Status)
      returns (result: Option<Result>, ghost launched: seq<Kind>, ghost looks: FinalLooks)
      requires Mine(m) && Unfinished(w.status)
      modifies m, w
      ensures Mine(m) && Onward(old(w.Snap()), w.Snap()) && Launches(w.trace) == Launches(old(w.trace)) + launched
      ensures Settled(OwnedOf(old(w.status))) && w.failures == old(w.failures) ==> Settled(OwnedOf(w.status))
      ensures FinalLooksWithin(|old(w.trace)|, looks, |w.trace|)
      ensures result.None? <==> PassedFinal(w.trace, first, looks)
      ensures result.None? ==> Unfinished(w.status) && launched == []
      ensures result.Some? && result.value.requeueAfter == 0 && seconds > 0 && w.failures == old(w.failures) ==>
        !Unfinished(w.status)
      ensures w.noise == old(w.noise) ==>
        FinalPhase(first, old(w.status), w.status, result, launched, old(w.now), w.now, Duration())
    {
      if Holds(first, FinalCheck, Unknown) {
        var ok := Mark(m, Finished, True, Reason.FinalCheckFailed);
        return Some(Result(0, !ok)), [], FinalLooks(|w.trace|, |w.trace|);
      }
      result, launched, looks := PursueFinal(m, first);
    }

    // ---------- the baseline ----------

    /** The look at a running baseline is at position `look`. */
    method AwaitBaseline(m: CheckManager) returns (running: bool, ghost look: nat)
      requires Mine(m) && Unfinished(w.status)
      modifies m, w
      ensures Mine(m) && Onward(old(w.Snap()), w.Snap()) && Steady(old(w.Snap()), w.Snap())
      ensures |old(w.trace)| <= look <= |w.trace| && running == BaselineInProgress(StatusAt(w.trace[..look]))
      ensures w.noise == old(w.noise) ==>
        running == BaselineInProgress(old(w.status)) &&
        if running then
          Awaited(old(w.status), w.status, Baseline, old(w.now), w.now, Duration()) &&
          Kept(old(w.status), w.status, {Baseline}) &&
          SameRuns(old(w.status), w.status)
        else w.status == old(w.status)
    {
      hide StatusAt, Launches, Kept;
      running := m.BaselineInProgress();
      look := |w.trace|;
      ghost var looked := w.trace;
      assert w.trace[..look] == looked;
      if running {
        var overdue := m.BaselineOverdue();
        if overdue {
          var ok := Mark(m, Baseline, Unknown, Requeue);
        } else {
          SameConditionsKeep(old(w.status), old(w.status), {Baseline});
        }
        assert w.trace[..look] == looked;
      }
    }

    method LaunchFirstBaseline(m: CheckManager)
      requires Mine(m) && Unfinished(w.status)
      modifies m, w
      ensures Mine(m) && Unfinished(w.status) && Onward(old(w.Snap()), w.Snap())
      ensures Launches(w.trace) == Launches(old(w.trace)) + [BaselineRun(false)]
      ensures |old(w.trace)| < |w.trace| &&
              w.trace[|old(w.trace)|] == Event.Launch(|old(w.trace)|, BaselineRun(false), specified)
      ensures Settled(OwnedOf(old(w.status))) ==> Settled(OwnedOf(w.status))
      ensures w.noise == old(w.noise) ==>
        Says(w.status, Finished, False, BaselineRecording) && Kept(old(w.status), w.status, {Finished}) &&
        SameRuns(old(w.status), w.status)
    {
      FinishedIsOwned(w.status);
      Launch(BaselineRun(false), specified);
      var ok := Mark(m, Finished, False, BaselineRecording);
    }

    method LaunchSecondBaseline()
      requires Valid() && Unfinished(w.status)
      modifies w
      ensures Valid() && Onward(old(w.Snap()), w.Snap()) && OwnedOf(w.status) == OwnedOf(old(w.status))
      ensures Launches(w.trace) == Launches(old(w.trace)) + [BaselineRun(true)] &&
              LaunchedLast(w.trace, BaselineRun(true), specified)
      ensures w.noise == old(w.noise) ==> w.status == old(w.status)
    {
      Sleep();
      FinishedIsOwned(w.status);
      Launch(BaselineRun(true), specified);
    }

    /** Launches the two baseline runners, some seconds apart. */
    method RecordBaseline(m: CheckManager)
      requires Mine(m) && Unfinished(w.status)
      modifies m, w
      ensures Mine(m) && Onward(old(w.Snap()), w.Snap())
      ensures Launches(w.trace) == Launches(old(w.trace)) + [BaselineRun(false), BaselineRun(true)]
      ensures |old(w.trace)| < |w.trace| &&
              w.trace[|old(w.trace)|] == Event.Launch(|old(w.trace)|, BaselineRun(false), specified)
      ensures LaunchedLast(w.trace, BaselineRun(true), specified)
      ensures Settled(OwnedOf(old(w.status))) ==> Settled(OwnedOf(w.status))
      ensures w.noise == old(w.noise) ==>
        Says(w.status, Finished, False, BaselineRecording) && Kept(old(w.status), w.status, {Finished}) &&
        SameRuns(old(w.status), w.status)
    {
      LaunchFirstBaseline(m);
      LaunchSecondBaseline();
      assert [BaselineRun(false)] + [BaselineRun(true)] == [BaselineRun(false), BaselineRun(true)];
    }

    method SomeRunFailed(first: Status) returns (failed: bool)
      ensures failed == BaselineFailed(first)
      ensures failed <==>
        exists i :: 0 <= i < |first.baselineRuns| && first.baselineRuns[i].checkSuccessful != Some(true)
    {
      for i := 0 to |first.baselineRuns|
        invariant forall j :: 0 <= j < i ==> Is(first.baselineRuns[j].checkSuccessful, true)
      {
        if !Is(first.baselineRuns[i].checkSuccessful, true) { return true; }
      }
      failed := false;
    }

    method LaunchBaseline(m: CheckManager) returns (started: bool, ghost look: nat)
      requires Mine(m) && Unfinished(w.status)
      modifies m, w
      ensures Mine(m) && Onward(old(w.Snap()), w.Snap())
      ensures Settled(OwnedOf(old(w.status))) ==> Settled(OwnedOf(w.status))
      ensures if started then Launches(w.trace) == Launches(old(w.trace)) + [BaselineRun(false), BaselineRun(true)]
              else Steady(old(w.Snap()), w.Snap())
      ensures |old(w.trace)| <= look <= |w.trace| && started == !BaselineRecorded(StatusAt(w.trace[..look]))
      ensures w.noise == old(w.noise) ==>
        started == !BaselineRecorded(old(w.status)) &&
        if started then
          Says(w.status, Finished, False, BaselineRecording) && Kept(old(w.status), w.status, {Finished}) &&
          SameRuns(old(w.status), w.status)
        else w.status == old(w.status)
    {
      var recorded := m.BaselineRecorded();
      look := |w.trace|;
      ghost var looked := w.trace;
      assert w.trace[..look] == looked;
      started := !recorded;
      if started { RecordBaseline(m); }
      assert w.trace[..look] == looked;
    }

    /** Waits for the baseline, or records it, with the looks at positions `running` and `recorded`. */
    method PursueBaseline(m: CheckManager, ghost first: Status)
      returns (result: Option<Result>, ghost launched: seq<Kind>, ghost running: nat, ghost recorded: nat)
      requires Mine(m) && Unfinished(w.status)
      modifies m, w
      ensures Mine(m) && Onward(old(w.Snap()), w.Snap()) && Launches(w.trace) == Launches(old(w.trace)) + launched
      ensures Settled(OwnedOf(old(w.status))) ==> Settled(OwnedOf(w.status))
      ensures |old(w.trace)| <= running <= recorded <= |w.trace|
      ensures result.None? <==>
        !BaselineInProgress(StatusAt(w.trace[..running])) && BaselineRecorded(StatusAt(w.trace[..recorded]))
      ensures result.None? ==> Unfinished(w.status) && launched == []
      ensures result.Some? && result.value.requeueAfter == 0 ==> seconds == 0
      ensures w.noise == old(w.noise) ==>
        if result.Some?
        then BaselinePhase(first, old(w.status), w.status, result, launched, old(w.now), w.now, Duration())
        else w.status == old(w.status) && !BaselineInProgress(w.status) && BaselineRecorded(w.status)
    {
      hide StatusAt, Launches, OwnedOf, OwnedFinished, Settled, Kept, SameRuns, Awaited, BaselineRecorded;
      var wait;
      wait, running := AwaitBaseline(m);
      recorded := |w.trace|;
      if wait { return Some(Requeued(m.GetCheckDuration() / 2)), [], running, recorded; }
      ghost var looked := w.trace;
      var started;
      started, recorded := LaunchBaseline(m);
      StatusStays(looked, w.trace, running);
      result, launched := None, [];
      if started {
        result, launched := Some(Requeued(m.GetCheckDuration() + MARGIN)), [BaselineRun(false), BaselineRun(true)];
      }
    }

    /** Gives up if one of the baseline runs that were there in the beginning has not been successful, provided that
        the baseline is recorded, which is looked at at position `look`. */
    method AbortOnFailedBaseline(m: CheckManager, first: Status) returns (aborted: bool, ghost look: nat)
      requires Mine(m) && Unfinished(w.status)
      modifies m, w
      ensures Mine(m) && Onward(old(w.Snap()), w.Snap()) && Launches(w.trace) == Launches(old(w.trace))
      ensures Settled(OwnedOf(old(w.status))) && w.failures == old(w.failures) ==> Settled(OwnedOf(w.status))
      ensures |old(w.trace)| <= look <= |w.trace|
      ensures aborted <==>
        BaselineRecorded(StatusAt(w.trace[..look])) &&
        exists i :: 0 <= i < |first.baselineRuns| && first.baselineRuns[i].checkSuccessful != Some(true)
      ensures aborted ==> BaselineFailed(first)
      ensures !aborted ==> Unfinished(w.status)
      ensures aborted && w.failures == old(w.failures) ==> !Unfinished(w.status)
      ensures w.noise == old(w.noise) ==>
        aborted == (BaselineRecorded(old(w.status)) && BaselineFailed(first)) &&
        if aborted then
          Says(w.status, Finished, True, BaselineRecordingFailed) && Kept(old(w.status), w.status, {Finished}) &&
          SameRuns(old(w.status), w.status)
        else w.status == old(w.status)
    {
      hide StatusAt, Launches;
      var recorded := m.BaselineRecorded();
      look := |w.trace|;
      ghost var looked := w.trace;
      assert w.trace[..look] == looked;
      if !recorded { return false, look; }
      aborted := SomeRunFailed(first);
      if aborted {
        var ok := Mark(m, Finished, True, BaselineRecordingFailed);
        assert w.trace[..look] == looked;
      }
    }

    method HandleBaseline(m: CheckManager, first: Status)
      returns (result: Option<Result>, ghost launched: seq<Kind>, ghost looks: BaselineLooks)
      requires Mine(m) && Unfinished(w.status)
      modifies m, w
      ensures Mine(m) && Onward(old(w.Snap()), w.Snap()) && Launches(w.trace) == Launches(old(w.trace)) + launched
      ensures Settled(OwnedOf(old(w.status))) && w.failures == old(w.failures) ==> Settled(OwnedOf(w.status))
      ensures BaselineLooksWithin(|old(w.trace)|, looks, |w.trace|)
      ensures result.None? <==> PassedBaseline(w.trace, first, looks)
      ensures result.None? ==> Unfinished(w.status) && launched == []
      ensures result.Some? && result.value.requeueAfter == 0 && seconds > 0 && w.failures == old(w.failures) ==>
        !Unfinished(w.status)
      ensures w.noise == old(w.noise) ==>
        BaselinePhase(first, old(w.status), w.status, result, launched, old(w.now), w.now, Duration())
    {
      ghost var running, recorded, judged;
      result, launched, running, recorded := PursueBaseline(m, first);
      if result.Some? { return result, launched, BaselineLooks(running, recorded, |w.trace|); }
      ghost var looked := w.trace;
      var aborted;
      aborted, judged := AbortOnFailedBaseline(m, first);
      looks := BaselineLooks(running, recorded, judged);
      StatusStays(looked, w.trace, running);
      StatusStays(looked, w.trace, recorded);
      if aborted { result := Some(DONE); }
    }

    // ---------- the checks ----------

    function ContextFor(t: CheckType): Option<Defaults>
      requires specified.Some? ==> Complete(specified.value)
    {
      Some(WithDefaults(t, if specified.Some? then specified.value else BLANK))
    }

    predicate StaleAt(s: Status, t: CheckType, at: nat) {
      CheckInProgress(s, t) && Overdue(s, Check(t), at, Duration())
    }

    /** Overrules the recording of a check if it is overdue, which is looked at once more, at position `look`. */
    method Overrule(m: CheckManager, t: CheckType) returns (overruled: bool, ghost look: nat, ghost at: nat)
      requires Mine(m) && Unfinished(w.status)
      modifies m, w
      ensures Mine(m) && Onward(old(w.Snap()), w.Snap()) && Steady(old(w.Snap()), w.Snap())
      ensures |old(w.trace)| <= look <= |w.trace| && old(w.now) <= at <= w.now
      ensures if overruled then StaleAt(StatusAt(w.trace[..look]), t, at) else !StaleAt(w.status, t, w.now)
      ensures w.noise == old(w.noise) && CheckInProgress(old(w.status), t) ==>
        LookedAt(old(w.status), w.status, t, overruled, old(w.now), w.now, Duration())
    {
      hide StatusAt, Launches, Kept, OwnedOf, LookedAt;
      overruled := m.CheckOverdue(t);
      look, at := |w.trace|, w.now;
      ghost var looked := w.trace;
      assert w.trace[..look] == looked;
      if overruled {
        var ok := Mark(m, Check(t), Unknown, Requeue);
        assert w.trace[..look] == looked;
      }
      if w.noise == old(w.noise) && CheckInProgress(old(w.status), t) {
        LookedAtRunning(old(w.status), w.status, t, overruled, old(w.now), at, w.now, Duration());
      }
    }

    /** Whether a check that is not recorded is being recorded; an overdue recording is overruled. The look that found
        it not in progress, or overdue, was at position `look` and time `at`. */
    method StillRunning(m: CheckManager, t: CheckType) returns (wait: bool, ghost look: nat, ghost at: nat)
      requires Mine(m) && Unfinished(w.status)
      modifies m, w
      ensures Mine(m) && Onward(old(w.Snap()), w.Snap()) && Steady(old(w.Snap()), w.Snap())
      ensures |old(w.trace)| <= look <= |w.trace| && old(w.now) <= at <= w.now
      ensures !wait && CheckInProgress(StatusAt(w.trace[..look]), t) ==> StaleAt(StatusAt(w.trace[..look]), t, at)
      ensures wait ==> CheckInProgress(StatusAt(w.trace[..look]), t) && !StaleAt(w.status, t, w.now)
      ensures w.noise == old(w.noise) && !CheckRecorded(old(w.status), t) ==>
        LookedAt(old(w.status), w.status, t, !wait, old(w.now), w.now, Duration())
    {
      hide StatusAt, Launches;
      wait := m.CheckInProgress(t);
      look, at := |w.trace|, w.now;
      ghost var looked := w.trace;
      assert w.trace[..look] == looked;
      if wait {
        var overruled;
        ghost var later, moment;
        overruled, later, moment := Overrule(m, t);
        assert w.trace[..look] == looked;
        wait := !overruled;
        if overruled { look, at := later, moment; }
      }
    }

    /** Whether the check is to wait: recorded, or being recorded and not overdue. */
    method MustWait(m: CheckManager, t: CheckType) returns (wait: bool, ghost looks: CheckLooks)
      requires Mine(m) && Unfinished(w.status)
      modifies m, w
      ensures Mine(m) && Onward(old(w.Snap()), w.Snap()) && Steady(old(w.Snap()), w.Snap())
      ensures !wait ==> LookedDue(w.trace, |old(w.trace)|, t, looks, Duration()) && old(w.now) <= looks.at <= w.now
      ensures wait ==>
        CheckRecorded(w.status, t) ||
        (|old(w.trace)| <= looks.running <= |w.trace| && CheckInProgress(StatusAt(w.trace[..looks.running]), t) &&
         !StaleAt(w.status, t, w.now))
      ensures w.noise == old(w.noise) ==> LookedAt(old(w.status), w.status, t, !wait, old(w.now), w.now, Duration())
    {
      hide StatusAt, Launches;
      wait := m.CheckRecorded(t);
      looks := CheckLooks(|w.trace|, |w.trace|, w.now);
      ghost var looked, look, at := w.trace, 0, 0;
      if !wait {
        wait, look, at := StillRunning(m, t);
        looks := CheckLooks(|looked|, look, at);
        assert w.trace[..|looked|] == looked;
      }
    }

    method LaunchCheck(m: CheckManager, t: CheckType, ghost n: nat, ghost looks: CheckLooks)
      requires Mine(m) && Unfinished(w.status) && SeenTrue(w.trace, Baseline)
      requires LookedDue(w.trace, n, t, looks, Duration())
      modifies w
      ensures Mine(m) && Onward(old(w.Snap()), w.Snap()) && w.status == old(w.status)
      ensures Launches(w.trace) == Launches(old(w.trace)) + [CheckRun(t)]
      ensures w.now == old(w.now) && w.noise == old(w.noise)
      ensures LaunchedLast(w.trace, CheckRun(t), ContextFor(t))
      ensures LookedDue(w.trace, n, t, looks, Duration())
    {
      FinishedIsOwned(w.status);
      Launch(CheckRun(t), Some(m.GetSecurityContextForCheckType(t)));
      assert w.trace[..looks.recorded] == old(w.trace)[..looks.recorded];
      assert w.trace[..looks.running] == old(w.trace)[..looks.running];
    }

    /** Launches the check if it is due, which it was at two looks taken one after the other. */
    method RecordCheck(m: CheckManager, t: CheckType) returns (started: bool, ghost looks: CheckLooks)
      requires Mine(m) && Unfinished(w.status) && SeenTrue(w.trace, Baseline)
      modifies m, w
      ensures Mine(m) && Onward(old(w.Snap()), w.Snap()) && OwnedOf(w.status) == OwnedOf(old(w.status)) &&
              SeenTrue(w.trace, Baseline)
      ensures Launches(w.trace) == Launches(old(w.trace)) + (if started then [CheckRun(t)] else [])
      ensures started ==>
        LaunchedLast(w.trace, CheckRun(t), ContextFor(t))
      ensures started ==> LookedDue(w.trace, |old(w.trace)|, t, looks, Duration()) && old(w.now) <= looks.at <= w.now
      ensures !started ==>
        CheckRecorded(w.status, t) ||
        (|old(w.trace)| <= looks.running <= |w.trace| && CheckInProgress(StatusAt(w.trace[..looks.running]), t) &&
         !StaleAt(w.status, t, w.now))
      ensures w.noise == old(w.noise) ==> LookedAt(old(w.status), w.status, t, started, old(w.now), w.now, Duration())
    {
      hide StatusAt, Launches;
      var wait;
      wait, looks := MustWait(m, t);
      started := !wait;
      if started { LaunchCheck(m, t, |old(w.trace)|, looks); }
      SeenGrows(old(w.trace), w.trace);
    }

    function Extended(launched: seq<Kind>, t: CheckType, started: bool): seq<Kind> {
      if started then launched + [CheckRun(t)] else launched
    }

    /** One turn of a loop that began with `start`. */
    method RecordNext(m: CheckManager, t: CheckType, ghost start: Snapshot, ghost launched: seq<Kind>,
                      ghost looked: set<CheckType>)
      returns (started: bool)
      requires Mine(m) && Unfinished(w.status) && SeenTrue(w.trace, Baseline) && t !in looked
      requires Onward(start, w.Snap()) && OwnedOf(w.status) == OwnedOf(start.status)
      modifies m, w
      ensures Mine(m) && Unfinished(w.status) && SeenTrue(w.trace, Baseline)
      ensures Onward(start, w.Snap()) && OwnedOf(w.status) == OwnedOf(start.status)
      ensures Launches(old(w.trace)) == Launches(start.trace) + launched ==>
        Launches(w.trace) == Launches(start.trace) + Extended(launched, t, started)
      ensures w.noise >= old(w.noise)
      ensures w.noise == start.noise &&
              LaunchedOf(start.status, old(w.status), launched, looked, start.now, old(w.now), Duration()) ==>
        LaunchedOf(start.status, w.status, Extended(launched, t, started), looked + {t}, start.now, w.now, Duration())
    {
      ghost var looks;
      started, looks := RecordCheck(m, t);
      if w.noise == start.noise &&
         LaunchedOf(start.status, old(w.status), launched, looked, start.now, old(w.now), Duration()) {
        LookedAtOneMore(start.status, old(w.status), w.status, launched, looked, t, started, start.now, old(w.now),
                        w.now, Duration());
      }
    }

    /** Checks, each once, of those looked at. */
    predicate Within(launched: seq<Kind>, looked: set<CheckType>) {
      NoDuplicates(launched) && forall k :: k in launched ==> k.CheckRun? && k.check in looked
    }

    /** Looks at all required checks. */
    method RecordInParallel(m: CheckManager, required: set<CheckType>) returns (ghost launched: seq<Kind>)
      requires Mine(m) && Unfinished(w.status) && SeenTrue(w.trace, Baseline)
      modifies m, w
      ensures Mine(m) && Onward(old(w.Snap()), w.Snap()) && OwnedOf(w.status) == OwnedOf(old(w.status))
      ensures Launches(w.trace) == Launches(old(w.trace)) + launched && Within(launched, required)
      ensures w.noise == old(w.noise) ==>
        LaunchedOf(old(w.status), w.status, launched, required, old(w.now), w.now, Duration())
    {
      hide StatusAt, Launches;
      var looked: set<CheckType> := {};
      launched := [];
      SameConditionsKeep(w.status, w.status, Overruled(w.status, []));
      while looked != required
        invariant looked <= required && Within(launched, looked)
        invariant Mine(m) && Unfinished(w.status) && SeenTrue(w.trace, Baseline)
        invariant Onward(old(w.Snap()), w.Snap()) && OwnedOf(w.status) == OwnedOf(old(w.status))
        invariant Launches(w.trace) == Launches(old(w.trace)) + launched
        invariant w.noise == old(w.noise) ==>
          LaunchedOf(old(w.status), w.status, launched, looked, old(w.now), w.now, Duration())
        decreases required - looked
      {
        var t :| t in required && t !in looked;
        var started := RecordNext(m, t, old(w.Snap()), launched, looked);
        launched, looked := Extended(launched, t, started), looked + {t};
      }
    }

    /** Looks at the required checks until one has been launched. */
    method RecordInSequence(m: CheckManager, required: set<CheckType>)
      returns (started: bool, ghost launched: seq<Kind>, looked: set<CheckType>)
      requires Mine(m) && Unfinished(w.status) && SeenTrue(w.trace, Baseline)
      modifies m, w
      ensures Mine(m) && Onward(old(w.Snap()), w.Snap()) && OwnedOf(w.status) == OwnedOf(old(w.status))
      ensures Launches(w.trace) == Launches(old(w.trace)) + launched
      ensures looked <= required && |launched| == (if started then 1 else 0) && (!started ==> looked == required)
      ensures Within(launched, required)
      ensures w.noise == old(w.noise) ==>
        LaunchedOf(old(w.status), w.status, launched, looked, old(w.now), w.now, Duration())
    {
      started, launched, looked := false, [], {};
      SameConditionsKeep(w.status, w.status, Overruled(w.status, []));
      while looked != required && !started
        invariant looked <= required && |launched| == if started then 1 else 0
        invariant Within(launched, looked)
        invariant Mine(m) && Unfinished(w.status) && SeenTrue(w.trace, Baseline)
        invariant Onward(old(w.Snap()), w.Snap()) && OwnedOf(w.status) == OwnedOf(old(w.status))
        invariant Launches(w.trace) == Launches(old(w.trace)) + launched
        invariant w.noise == old(w.noise) ==>
          LaunchedOf(old(w.status), w.status, launched, looked, old(w.now), w.now, Duration())
        decreases required - looked
      {
        var t :| t in required && t !in looked;
        started := RecordNext(m, t, old(w.Snap()), launched, looked);
        launched, looked := Extended(launched, t, started), looked + {t};
      }
    }

    /** The checks that are required, after they have been announced and the recording has been declared begun. */
    method BeginChecks(m: CheckManager) returns (required: set<CheckType>)
      requires Mine(m) && Unfinished(w.status) && SeenTrue(w.trace, Baseline)
      modifies m, w
      ensures Mine(m) && Unfinished(w.status) && SeenTrue(w.trace, Baseline)
      ensures Onward(old(w.Snap()), w.Snap()) && Launches(w.trace) == Launches(old(w.trace))
      ensures Settled(OwnedOf(old(w.status))) ==> Settled(OwnedOf(w.status))
      ensures w.noise == old(w.noise) && old(m.local) == old(w.status) ==>
        required == Required(TemplateOf(old(w.Snap()))) && Kept(old(w.status), w.status, {Finished}) &&
        SameRuns(old(w.status), w.status) &&
        Says(w.status, Finished, False, CheckRecording) && AllAnnounced(w.status, required)
    {
      hide StatusAt, Launches, Kept;
      ghost var survey;
      required, survey := m.GetRequiredCheckRuns();
      ghost var announced := w.status;
      var ok := Mark(m, Finished, False, CheckRecording);
      SeenGrows(old(w.trace), w.trace);
      if w.noise == old(w.noise) && old(m.local) == old(w.status) {
        KeptMore(old(w.status), announced, {}, {Finished});
        KeptTwice(old(w.status), announced, w.status, {Finished});
      }
    }

    method RunChecks(m: CheckManager, required: set<CheckType>)
      returns (result: Result, ghost launched: seq<Kind>, ghost looked: set<CheckType>)
      requires Mine(m) && Unfinished(w.status) && SeenTrue(w.trace, Baseline)
      modifies m, w
      ensures Mine(m) && Onward(old(w.Snap()), w.Snap()) && OwnedOf(w.status) == OwnedOf(old(w.status))
      ensures Launches(w.trace) == Launches(old(w.trace)) + launched
      ensures looked <= required && (looked == required || (!parallel && |launched| == 1)) &&
              (!parallel ==> |launched| <= 1)
      ensures Within(launched, required)
      ensures result == if parallel || launched != [] then Requeued(Duration() + MARGIN) else DONE
      ensures w.noise == old(w.noise) ==>
        LaunchedOf(old(w.status), w.status, launched, looked, old(w.now), w.now, Duration())
    {
      if parallel {
        launched := RecordInParallel(m, required);
        result, looked := Requeued(m.GetCheckDuration() + MARGIN), required;
      } else {
        var started;
        started, launched, looked := RecordInSequence(m, required);
        result := if started then Requeued(m.GetCheckDuration() + MARGIN) else DONE;
      }
    }

    method RecordChecks(m: CheckManager) returns (result: Result, ghost launched: seq<Kind>)
      requires Mine(m) && Unfinished(w.status) && SeenTrue(w.trace, Baseline)
      modifies m, w
      ensures Mine(m) && Onward(old(w.Snap()), w.Snap()) && Launches(w.trace) == Launches(old(w.trace)) + launched
      ensures Settled(OwnedOf(old(w.status))) ==> Settled(OwnedOf(w.status))
      ensures Unfinished(w.status) && (parallel ==> result.requeueAfter > 0)
      ensures w.noise == old(w.noise) && old(m.local) == old(w.status) ==>
        ChecksPhase(old(w.status), w.status, result, launched, Required(TemplateOf(old(w.Snap()))), old(w.now), w.now,
                    Duration(), parallel)
    {
      var required := BeginChecks(m);
      ghost var begun, looked := w.Snap(), {};
      result, launched, looked := RunChecks(m, required);
      if w.noise == old(w.noise) && old(m.local) == old(w.status) {
        ChecksLaunchedFrom(old(w.status), begun.status, w.status, launched, looked, required,
                           old(w.now), begun.now, w.now, Duration(), parallel);
      }
    }

    // ---------- the whole ----------

    /** Declares the check finished and removes the conditions that are no longer needed. */
    method DeclareFinished(m: CheckManager) returns (ok: bool)
      requires Mine(m) && Unfinished(w.status) && OwnedOf(w.status).recommendation.Some? &&
               SeenTrue(w.trace, FinalCheck)
      modifies m, w
      ensures Mine(m) && Onward(old(w.Snap()), w.Snap()) && Launches(w.trace) == Launches(old(w.trace))
      ensures w.failures == old(w.failures) ==> !Unfinished(w.status)
      ensures w.noise == old(w.noise) ==> ok && DeclaredFinished(old(w.status), w.status)
    {
      ok := Mark(m, Finished, True, AllFinished);
      if !ok { return; }
      assert !Unfinished(w.status);
      if w.noise == old(w.noise) { RemovingDeclares(old(w.status), w.status); }
      ok := m.RemoveCheckConditions();
    }

    /** The look at a recorded final check is at position `look`. */
    method FinishIfReady(m: CheckManager) returns (result: Option<Result>, ghost look: nat)
      requires Mine(m) && Unfinished(w.status) && m.local == w.status
      modifies m, w
      ensures Mine(m) && Onward(old(w.Snap()), w.Snap()) && Launches(w.trace) == Launches(old(w.trace))
      ensures w.failures == old(w.failures) ==> OwnedOf(w.status) == OwnedOf(old(w.status)) || !Unfinished(w.status)
      ensures result.None? ==>
        Unfinished(w.status) && OwnedOf(w.status) == OwnedOf(old(w.status)) &&
        Waited(old(w.Snap()), w.Snap(), Trace.Reconciler) && look == |w.trace|
      ensures |old(w.trace)| <= look <= |w.trace|
      ensures result.Some? == (old(w.status).recommendation.Some? && FinalCheckRecorded(StatusAt(w.trace[..look])))
      ensures result.None? && OwnedOf(w.status).recommendation.Some? ==> !FinalCheckRecorded(w.status)
      ensures result.Some? && w.failures == old(w.failures) ==> !Unfinished(w.status)
      ensures w.noise == old(w.noise) ==>
        result.Some? == (old(w.status).recommendation.Some? && FinalCheckRecorded(old(w.status))) &&
        if result.Some? then DeclaredFinished(old(w.status), w.status) && result.value == DONE
        else w.status == old(w.status)
    {
      look := |w.trace|;
      if !m.RecommendationExists() { return None, look; }
      assert OwnedOf(w.status).recommendation.Some?;
      var recorded := m.FinalCheckRecorded();
      look := |w.trace|;
      ghost var looked := w.trace;
      assert w.trace[..look] == looked;
      if !recorded { return None, look; }
      var ok := DeclareFinished(m);
      result := Some(Result(0, !ok));
      assert w.trace[..look] == looked;
    }

    /** Analyzes if all is recorded. If there was nothing to analyze and the analysis was not over,
        `survey` and `look` tell what was found unrecorded. */
    method AnalyzeIfReady(m: CheckManager, first: Status) returns (stop: bool, ghost report: Report)
      requires Mine(m) && Unfinished(w.status)
      modifies m, w
      ensures Mine(m) && Onward(old(w.Snap()), w.Snap()) && Launches(w.trace) == Launches(old(w.trace))
      ensures stop ==>
        w.failures > old(w.failures) && (w.failures == old(w.failures) + 1 ==> Aborted(OwnedOf(w.status)))
      ensures !stop ==> Unfinished(w.status)
      ensures report.analyzed && w.failures == old(w.failures) ==> RecommendedSince(|old(w.trace)|, report.basis)
      ensures !report.analyzed ==>
        OwnedOf(w.status) == OwnedOf(old(w.status)) &&
        (Holds(first, Analysis, True) ||
         (|old(w.trace)| <= report.survey && Unrecorded(w.trace, report.survey, report.look)))
      ensures w.noise == old(w.noise) && first == old(w.status) ==>
        m.local == w.status && AnalysisPhase(first, w.status, Required(TemplateOf(old(w.Snap()))),
                                             FindingsOf(old(w.Snap()), w.miner, report.recommended)) &&
        (Analyzes(first, Required(TemplateOf(old(w.Snap())))) ==>
           FoldedFrom(old(w.Snap()), w.miner, report.recommended))
    {
      var all;
      ghost var survey, look, b;
      all, survey, look := m.AllChecksFinished();
      report := Report(false, Basis(0, 0, 0, 0, 0, 0), Recommended(EMPTY_POD, EMPTY_LISTED), survey, look);
      if !all || Holds(first, Analysis, True) { return false, report; }
      ghost var announced := w.Snap();
      stop, b := Analyze(m);
      if w.status.recommendation.Some? {
        report := Report(true, b, w.status.recommendation.value, survey, look);
      } else {
        report := Report(true, b, report.recommended, survey, look);
      }
      if w.noise == old(w.noise) {
        KeptMore(old(w.status), announced.status, {}, CONCLUSIONS);
        KeptTwice(old(w.status), announced.status, w.status, CONCLUSIONS);
        FoldedEarlier(old(w.Snap()), announced, w.miner, report.recommended);
      }
    }

    /** The checks that are not finished, if there are any. */
    method RecordUnfinished(m: CheckManager, ghost from: nat)
      returns (result: Result, ghost launched: seq<Kind>, ghost answer: Answer)
      requires Mine(m) && Unfinished(w.status) && SeenTrue(w.trace, Baseline) && from <= w.now
      modifies m, w
      ensures Mine(m) && Onward(old(w.Snap()), w.Snap()) && Launches(w.trace) == Launches(old(w.trace)) + launched
      ensures Settled(OwnedOf(old(w.status))) && w.failures == old(w.failures) ==> Settled(OwnedOf(w.status))
      ensures Unfinished(w.status) && Answers(w.trace, |old(w.trace)|, answer)
      ensures parallel ==> (result.requeueAfter == 0 <==> answer.Yes?) && (answer.Yes? ==> launched == [])
      ensures w.noise == old(w.noise) && BaselineRecorded(old(w.status)) ==>
        LastPhase(old(w.status), w.status, result, launched, Required(TemplateOf(old(w.Snap()))), from, w.now,
                  Duration(), parallel)
    {
      hide ChecksPhase, StatusAt, Launches;
      result, launched := DONE, [];
      var all;
      ghost var survey, look;
      all, survey, look := m.AllChecksFinished();
      answer := Yes(survey, |w.trace| - 1);
      if all { return; }
      answer := No(survey, look);
      SeenGrows(old(w.trace), w.trace);
      ghost var announced := w.Snap();
      result, launched := RecordChecks(m);
      UnrecordedInPrefix(announced.trace, w.trace, survey, look);
      if w.noise == old(w.noise) {
        ChecksPhaseEarlier(old(w.status), announced.status, w.status, result, launched,
                           Required(TemplateOf(old(w.Snap()))),
                           from, announced.now, w.now, Duration(), parallel);
      }
    }

    method FinishUp(m: CheckManager) returns (result: Result, ghost launched: seq<Kind>, ghost looks: LastLooks)
      requires Mine(m) && Unfinished(w.status)
      modifies m, w
      ensures Mine(m) && Onward(old(w.Snap()), w.Snap()) && Launches(w.trace) == Launches(old(w.trace)) + launched
      ensures Settled(OwnedOf(old(w.status))) && w.failures == old(w.failures) ==> Settled(OwnedOf(w.status))
      ensures Unfinished(w.status) && |old(w.trace)| <= looks.recorded <= |w.trace| && Answered(w.trace, looks)
      ensures parallel ==>
        (result.requeueAfter == 0 <==> PassedChecks(w.trace, looks)) && (result.requeueAfter == 0 ==> launched == [])
      ensures w.noise == old(w.noise) ==>
        LastPhase(old(w.status), w.status, result, launched, Required(TemplateOf(old(w.Snap()))), old(w.now), w.now,
                  Duration(), parallel)
    {
      hide StatusAt, Launches;
      SameConditionsKeep(w.status, w.status, {});
      var baseline := m.BaselineRecorded();
      looks := LastLooks(|w.trace|, No(0, 0));
      ghost var looked := w.trace;
      assert w.trace[..looks.recorded] == looked;
      if !baseline { return DONE, [], looks; }
      assert w.noise == old(w.noise) ==> w.status == old(w.status) && TemplateOf(w.Snap()) == TemplateOf(old(w.Snap()));
      ghost var answer;
      result, launched, answer := RecordUnfinished(m, old(w.now));
      looks := LastLooks(|looked|, answer);
      assert w.trace[..looks.recorded] == looked;
    }

    /** What a reconcile that began with `start` has come to, if nobody has interfered. */
    ghost predicate Completed(start: Snapshot, recommended: Recommended, launched: seq<Kind>, result: Result)
      reads w
    {
      CarriedOut(Effect(start.status, w.status, FindingsOf(start, w.miner, recommended),
                        launched, result, start.now, w.now),
                 Required(TemplateOf(start)), Duration(), parallel)
    }

    /** No phase has ended it so far, and nothing but announcements has happened. */
    ghost predicate Undecided(start: Snapshot)
      reads w
    {
      Kept(start.status, w.status, {}) && SameRuns(start.status, w.status) &&
      PastFinal(Decide(start.status, Required(TemplateOf(start))))
    }

    method FinalCheckOf(m: CheckManager, first: Status, ghost recommended: Recommended, ghost start: Snapshot)
      returns (ended: Option<Result>, ghost launched: seq<Kind>, ghost looks: FinalLooks)
      requires Mine(m) && Unfinished(w.status) && Onward(start, w.Snap())
      requires w.noise == start.noise ==>
        first == start.status && ReachesFinalPhase(first) &&
        AnalysisPhase(first, w.status, Required(TemplateOf(start)), FindingsOf(start, w.miner, recommended))
      modifies m, w
      ensures Mine(m) && Onward(start, w.Snap()) && Launches(w.trace) == Launches(old(w.trace)) + launched
      ensures old(w.trace) <= w.trace
      ensures Settled(OwnedOf(old(w.status))) && w.failures == old(w.failures) ==> Settled(OwnedOf(w.status))
      ensures w.failures >= old(w.failures) && w.noise >= old(w.noise)
      ensures ended.None? ==> Unfinished(w.status) && Launches(w.trace) == Launches(old(w.trace))
      ensures FinalLooksWithin(|old(w.trace)|, looks, |w.trace|)
      ensures ended.None? <==> PassedFinal(w.trace, first, looks)
      ensures ended.Some? && ended.value.requeueAfter == 0 && seconds > 0 && w.failures == old(w.failures) ==>
        !Unfinished(w.status)
      ensures w.noise == start.noise ==>
        if ended.Some? then Completed(start, recommended, launched, ended.value)
        else first == start.status && Undecided(start)
    {
      ended, launched, looks := HandleFinalCheck(m, first);
      if w.noise == start.noise {
        if ended.Some? {
          EndsInFinalPhase(Effect(first, w.status, FindingsOf(start, w.miner, recommended),
                                  launched, ended.value, start.now, w.now),
                           old(w.status), old(w.now), Required(TemplateOf(start)), Duration(), parallel);
        } else {
          PassesFinalPhase(first, old(w.status), w.status, FindingsOf(start, w.miner, recommended), launched,
                           old(w.now), w.now, Required(TemplateOf(start)), Duration());
        }
      }
    }

    method BaselineOf(m: CheckManager, first: Status, ghost recommended: Recommended, ghost start: Snapshot)
      returns (ended: Option<Result>, ghost launched: seq<Kind>, ghost looks: BaselineLooks)
      requires Mine(m) && Unfinished(w.status) && Onward(start, w.Snap())
      requires w.noise == start.noise ==> first == start.status && Undecided(start)
      modifies m, w
      ensures Mine(m) && Onward(start, w.Snap()) && Launches(w.trace) == Launches(old(w.trace)) + launched
      ensures old(w.trace) <= w.trace
      ensures Settled(OwnedOf(old(w.status))) && w.failures == old(w.failures) ==> Settled(OwnedOf(w.status))
      ensures w.failures >= old(w.failures) && w.noise >= old(w.noise)
      ensures ended.None? ==> Unfinished(w.status) && Launches(w.trace) == Launches(old(w.trace))
      ensures BaselineLooksWithin(|old(w.trace)|, looks, |w.trace|)
      ensures ended.None? <==> PassedBaseline(w.trace, first, looks)
      ensures ended.Some? && ended.value.requeueAfter == 0 && seconds > 0 && w.failures == old(w.failures) ==>
        !Unfinished(w.status)
      ensures w.noise == start.noise ==>
        if ended.Some? then Completed(start, recommended, launched, ended.value)
        else Undecided(start) && PassesBaseline(first, w.status) && first == start.status
    {
      ended, launched, looks := HandleBaseline(m, first);
      if w.noise == start.noise && ended.Some? {
        EndsInBaselinePhase(Effect(first, w.status, FindingsOf(start, w.miner, recommended),
                                   launched, ended.value, start.now, w.now),
                            old(w.status), old(w.now), Required(TemplateOf(start)), Duration(), parallel);
      }
    }

    method ChecksOf(m: CheckManager, first: Status, ghost recommended: Recommended, ghost start: Snapshot)
      returns (result: Result, ghost launched: seq<Kind>, ghost looks: LastLooks)
      requires Mine(m) && Unfinished(w.status) && Onward(start, w.Snap())
      requires w.noise == start.noise ==>
        first == start.status && Undecided(start) && PassesBaseline(first, w.status)
      modifies m, w
      ensures Mine(m) && Onward(start, w.Snap()) && Launches(w.trace) == Launches(old(w.trace)) + launched
      ensures old(w.trace) <= w.trace
      ensures Settled(OwnedOf(old(w.status))) && w.failures == old(w.failures) ==> Settled(OwnedOf(w.status))
      ensures w.failures >= old(w.failures) && w.noise >= old(w.noise)
      ensures Unfinished(w.status) && |old(w.trace)| <= looks.recorded <= |w.trace| && Answered(w.trace, looks)
      ensures parallel ==>
        (result.requeueAfter == 0 <==> PassedChecks(w.trace, looks)) && (result.requeueAfter == 0 ==> launched == [])
      ensures w.noise == start.noise ==> Completed(start, recommended, launched, result)
    {
      result, launched, looks := FinishUp(m);
      if w.noise == start.noise {
        EndsInLastPhase(Effect(first, w.status, FindingsOf(start, w.miner, recommended),
                               launched, result, start.now, w.now),
                        old(w.status), old(w.now), Required(TemplateOf(start)), Duration(), parallel);
      }
    }

    /** The object is left unfinished and not scheduled again. */
    ghost predicate Unscheduled(result: Result)
      reads w
    {
      Unfinished(w.status) && result.requeueAfter == 0
    }

    /** The baseline, and then the checks. */
    method BaselineAndChecks(m: CheckManager, first: Status, ghost recommended: Recommended, ghost start: Snapshot)
      returns (result: Result, ghost launched: seq<Kind>, ghost looks: BaselineLooks, ghost last: LastLooks)
      requires Mine(m) && Unfinished(w.status) && Onward(start, w.Snap())
      requires w.noise == start.noise ==> first == start.status && Undecided(start)
      modifies m, w
      ensures Mine(m) && Onward(start, w.Snap()) && Launches(w.trace) == Launches(old(w.trace)) + launched
      ensures old(w.trace) <= w.trace
      ensures Settled(OwnedOf(old(w.status))) && w.failures == old(w.failures) ==> Settled(OwnedOf(w.status))
      ensures w.failures >= old(w.failures) && w.noise >= old(w.noise)
      ensures BaselineLooksWithin(|old(w.trace)|, looks, |w.trace|) && looks.judged <= last.recorded <= |w.trace|
      ensures PassedBaseline(w.trace, first, looks) ==> Answered(w.trace, last)
      ensures parallel && seconds > 0 && w.failures == old(w.failures) ==>
        (Unscheduled(result) <==> PassedBaseline(w.trace, first, looks) && PassedChecks(w.trace, last)) &&
        (Unscheduled(result) ==> launched == [])
      ensures w.noise == start.noise ==> Completed(start, recommended, launched, result)
    {
      var ended;
      ended, launched, looks := BaselineOf(m, first, recommended, start);
      if ended.Some? { return ended.value, launched, looks, LastLooks(|w.trace|, No(0, 0)); }
      ghost var passed := w.trace;
      result, launched, last := ChecksOf(m, first, recommended, start);
      PassedBaselineStays(passed, w.trace, first, looks);
    }

    /** The final check, the baseline, and then the checks. */
    method Continue(m: CheckManager, first: Status, ghost recommended: Recommended, ghost start: Snapshot,
                    ghost ready: nat)
      returns (result: Result, ghost launched: seq<Kind>, ghost course: Course)
      requires Mine(m) && Unfinished(w.status) && Onward(start, w.Snap()) && ready <= |w.trace|
      requires w.noise == start.noise ==>
        first == start.status && ReachesFinalPhase(first) &&
        AnalysisPhase(first, w.status, Required(TemplateOf(start)), FindingsOf(start, w.miner, recommended))
      modifies m, w
      ensures Mine(m) && Onward(start, w.Snap()) && Launches(w.trace) == Launches(old(w.trace)) + launched
      ensures old(w.trace) <= w.trace
      ensures Settled(OwnedOf(old(w.status))) && w.failures == old(w.failures) ==> Settled(OwnedOf(w.status))
      ensures w.failures >= old(w.failures) && w.noise >= old(w.noise)
      ensures course.ready == ready && |old(w.trace)| <= course.final.running && Taken(w.trace, ready, first, course)
      ensures parallel && seconds > 0 && w.failures == old(w.failures) ==>
        (Unscheduled(result) <==> PassedAll(w.trace, first, course)) && (Unscheduled(result) ==> launched == [])
      ensures w.noise == start.noise ==> Completed(start, recommended, launched, result)
    {
      hide StatusAt, Launches;
      var ended;
      ghost var looks, more, last;
      ended, launched, looks := FinalCheckOf(m, first, recommended, start);
      if ended.Some? {
        var n := |w.trace|;
        return ended.value, launched, EndedAt(ready, n).(final := looks);
      }
      ghost var passed := w.trace;
      result, launched, more, last := BaselineAndChecks(m, first, recommended, start);
      PassedFinalStays(passed, w.trace, first, looks);
      course := Course(ready, looks, more, last);
    }

    ghost method Why(start: seq<Event>, mid: seq<Event>, report: Report, course: Course) returns (why: Overtaking)
      requires Valid() && start <= mid <= w.trace && |start| <= course.ready <= |mid| <= course.final.running
      requires Taken(w.trace, |start|, StatusAt(start), course) && FoundNothing(w.trace, StatusAt(start), course)
      requires Unfinished(StatusAt(start)) && Settled(OwnedOf(StatusAt(start)))
      requires Launches(w.trace) == Launches(start)
      requires StatusAt(mid).recommendation.None? ==>
        Holds(StatusAt(start), Analysis, True) ||
        (|start| <= report.survey && Unrecorded(mid, report.survey, report.look))
      ensures Overtaken(w.trace, |start|, why)
    {
      var tr := w.trace;
      assert tr[..|start|] == start && tr[..|mid|] == mid;
      if StatusAt(mid).recommendation.None? && !Holds(StatusAt(start), Analysis, True) {
        UnrecordedInPrefix(mid, tr, report.survey, report.look);
      }
      why := WhyOvertaken(tr, |start|, |mid|, report.survey, report.look, course);
    }

    /** What follows the question whether to analyze; `ready` is the position of the look before it. */
    method ContinueAfter(m: CheckManager, first: Status, ghost report: Report, ghost start: Snapshot, ghost ready: nat)
      returns (result: Result, ghost launched: seq<Kind>, ghost why: Overtaking, ghost course: Course)
      requires Mine(m) && Unfinished(w.status) && Onward(start, w.Snap()) && |start.trace| <= ready <= |w.trace|
      requires first == StatusAt(start.trace) && Unfinished(first) && Launches(w.trace) == Launches(start.trace)
      requires first.recommendation.Some? ==> !FinalCheckRecorded(StatusAt(w.trace[..ready]))
      requires w.failures == start.failures && w.status.recommendation.None? ==>
        Holds(first, Analysis, True) ||
        (|start.trace| <= report.survey && Unrecorded(w.trace, report.survey, report.look))
      requires w.noise == start.noise ==>
        first == start.status && ReachesFinalPhase(first) &&
        AnalysisPhase(first, w.status, Required(TemplateOf(start)), FindingsOf(start, w.miner, report.recommended))
      modifies m, w
      ensures Mine(m) && Onward(start, w.Snap()) && Launches(w.trace) == Launches(start.trace) + launched
      ensures Settled(OwnedOf(old(w.status))) && w.failures == old(w.failures) ==> Settled(OwnedOf(w.status))
      ensures w.failures >= old(w.failures) && w.noise >= old(w.noise)
      ensures Taken(w.trace, |start.trace|, first, course)
      ensures parallel && seconds > 0 && w.failures == start.failures ==>
        (Unscheduled(result) <==> FoundNothing(w.trace, first, course)) &&
        (Unscheduled(result) && Settled(OwnedOf(first)) ==> Overtaken(w.trace, |start.trace|, why))
      ensures w.noise == start.noise ==> Completed(start, report.recommended, launched, result)
    {
      hide Completed, Overtaken, PassedAll, StatusAt, Launches;
      why := BaselineLost(0, 0);
      ghost var mid := w.trace;
      result, launched, course := Continue(m, first, report.recommended, start, ready);
      StatusStays(mid, w.trace, ready);
      if parallel && seconds > 0 && w.failures == start.failures {
        if Unscheduled(result) && Settled(OwnedOf(first)) {
          why := Why(start.trace, mid, report, course);
        }
      }
    }

    /** The analysis, if there is one to do, and what follows; `ready` is the position of the look before it. */
    method AnalyzeAndContinue(m: CheckManager, first: Status, ghost start: Snapshot)
      returns (result: Result, ghost launched: seq<Kind>, ghost recommended: Recommended, ghost why: Overtaking,
               ghost course: Course)
      requires Mine(m) && Unfinished(w.status) && Onward(start, w.Snap()) && w.failures == start.failures
      requires first == StatusAt(start.trace) && Unfinished(first) && WellFormed(start.trace)
      requires OwnedOf(w.status) == OwnedOf(first) && Launches(w.trace) == Launches(start.trace)
      requires first.recommendation.Some? ==> !FinalCheckRecorded(w.status)
      requires w.noise == start.noise ==> w.Snap() == start.(now := w.now) && first == start.status
      modifies m, w
      ensures Mine(m) && Onward(start, w.Snap()) && Launches(w.trace) == Launches(start.trace) + launched
      ensures Settled(OwnedOf(first)) && w.failures == start.failures ==> Settled(OwnedOf(w.status))
      ensures w.failures == start.failures ==> Taken(w.trace, |start.trace|, first, course)
      ensures parallel && seconds > 0 && w.failures == start.failures ==>
        (Unscheduled(result) <==> FoundNothing(w.trace, first, course)) &&
        (Unscheduled(result) && Settled(OwnedOf(first)) ==> Overtaken(w.trace, |start.trace|, why))
      ensures w.noise == start.noise ==>
        Completed(start, recommended, launched, result) &&
        (ReachesAnalysis(first, Required(TemplateOf(start))) ==> FoldedFrom(start, w.miner, recommended))
    {
      hide Completed, Overtaken, FoundNothing, Taken, FoldedFrom, AnalysisPhase, StatusAt, Launches;
      ghost var ready := w.Snap();
      why, launched, course := BaselineLost(0, 0), [], EndedAt(0, 0);
      var stop;
      ghost var report;
      stop, report := AnalyzeIfReady(m, first);
      recommended := report.recommended;
      if stop { return DONE, launched, recommended, why, course; }
      if w.noise == start.noise && ReachesAnalysis(first, Required(TemplateOf(start))) {
        FoldedEarlier(start, ready, w.miner, recommended);
      }
      if FinalCheckRecorded(first) { ReachesFinal(start.trace); }
      assert w.trace[..|ready.trace|] == ready.trace;
      result, launched, why, course := ContinueAfter(m, first, report, start, |ready.trace|);
    }

    /** Everything after the first read of an unfinished object. */
    method Proceed(first: Status, version: nat)
      returns (result: Result, ghost launched: seq<Kind>, ghost recommended: Recommended, ghost why: Overtaking,
               ghost course: Course)
      requires Valid() && first == w.status && Unfinished(w.status)
      modifies w
      ensures Valid() && Onward(old(w.Snap()), w.Snap()) && Launches(w.trace) == Launches(old(w.trace)) + launched
      ensures Settled(OwnedOf(old(w.status))) && w.failures == old(w.failures) ==> Settled(OwnedOf(w.status))
      ensures w.failures == old(w.failures) ==> Taken(w.trace, |old(w.trace)|, first, course)
      ensures parallel && seconds > 0 && w.failures == old(w.failures) ==>
        (Unscheduled(result) <==> FoundNothing(w.trace, first, course)) &&
        (Unscheduled(result) && Settled(OwnedOf(first)) ==> Overtaken(w.trace, |old(w.trace)|, why))
      ensures w.noise == old(w.noise) ==>
        Completed(old(w.Snap()), recommended, launched, result) &&
        (ReachesAnalysis(first, Required(TemplateOf(old(w.Snap())))) ==>
           FoldedFrom(old(w.Snap()), w.miner, recommended))
    {
      hide CarriedOut, Overtaken, FoldedFrom;
      launched, recommended, why := [], Recommended(EMPTY_POD, EMPTY_LISTED), BaselineLost(0, 0);
      var m := new CheckManager(w, Trace.Reconciler, seconds, specified, first, version);
      var ready;
      ghost var look;
      ready, look := FinishIfReady(m);
      FinishedIsOwned(first);
      if ready.Some? {
        result, course := ready.value, EndedAt(look, |w.trace|);
        if w.noise == old(w.noise) {
          FinishesFirst(Effect(first, w.status, FindingsOf(old(w.Snap()), w.miner, recommended),
                               launched, result, old(w.now), w.now),
                        Required(TemplateOf(old(w.Snap()))), Duration(), parallel);
        }
        return;
      }
      result, launched, recommended, why, course := AnalyzeAndContinue(m, first, old(w.Snap()));
    }

    /** One reconcile, from its first read on, with others acting between any two of its later reads and writes.
        Whatever they do, it breaks none of the rules of the trace, so that a recommendation has a basis; and unless
        one of its own operations fails, it leaves a settled status settled, and in parallel mode with a positive
        duration it leaves the object unscheduled and unfinished exactly if none of its looks, which were taken one
        after another, found anything to do; two of them contradict each other then if the status was settled. If
        nobody interferes, it carries out its decision. */
    method Reconcile()
      returns (result: Result, ghost launched: seq<Kind>, ghost recommended: Recommended, ghost why: Overtaking,
               ghost course: Course, ghost basis: Basis)
      requires Valid()
      modifies w
      ensures Valid() && Onward(old(w.Snap()), w.Snap()) && Launches(w.trace) == Launches(old(w.trace)) + launched
      ensures w.status.recommendation.Some? ==> BasedOn(w.trace, w.miner, basis, w.status.recommendation.value)
      ensures Settled(OwnedOf(old(w.status))) && w.failures == old(w.failures) ==> Settled(OwnedOf(w.status))
      ensures Unfinished(old(w.status)) && w.failures == old(w.failures) ==>
        Taken(w.trace, |old(w.trace)|, old(w.status), course)
      ensures parallel && seconds > 0 && w.failures == old(w.failures) ==>
        (Unscheduled(result) <==> Unfinished(old(w.status)) && FoundNothing(w.trace, old(w.status), course)) &&
        (Unscheduled(result) && Settled(OwnedOf(old(w.status))) ==> Overtaken(w.trace, |old(w.trace)|, why))
      ensures w.noise == old(w.noise) ==>
        Completed(old(w.Snap()), recommended, launched, result) &&
        (ReachesAnalysis(old(w.status), Required(TemplateOf(old(w.Snap())))) ==>
           FoldedFrom(old(w.Snap()), w.miner, recommended))
      ensures w.noise == old(w.noise) && parallel && seconds > 0 && Settled(OwnedOf(old(w.status))) ==>
        !Unscheduled(result)
    {
      hide CarriedOut, Overtaken, FoundNothing, Taken, FoldedFrom, BasedOn;
      basis := Basis(0, 0, 0, 0, 0, 0);
      var first := w.status;
      FinishedIsOwned(first);
      if FinishedTrue(first) {
        result, launched, recommended := DONE, [], Recommended(EMPTY_POD, EMPTY_LISTED);
        why, course := BaselineLost(0, 0), EndedAt(0, 0);
        FinishesFirst(Effect(first, first, FindingsOf(w.Snap(), w.miner, recommended), [], DONE, w.now, w.now),
                      Required(TemplateOf(w.Snap())), Duration(), parallel);
      } else {
        result, launched, recommended, why, course := Proceed(first, w.version);
      }
      FinishedIsOwned(w.status);
      if w.status.recommendation.Some? { basis := RecommendationHasBasis(w.trace, w.miner); }
      if w.noise == old(w.noise) && parallel && seconds > 0 && Settled(OwnedOf(first)) {
        var e := Effect(first, w.status, FindingsOf(old(w.Snap()), w.miner, recommended),
                        launched, result, old(w.now), w.now);
        NotStuckOnce(old(w.trace), e, Required(TemplateOf(old(w.Snap()))), Duration());
      }
    }

    /** No operation of this call, or of the calls before it, has failed. Then it leaves the object finished or
        scheduled again, unless two of its looks contradict each other; and they do not if nobody else has acted. */
    ghost predicate NotStuck(c: Call, failures: nat) {
      c.after.failures == failures && parallel && seconds > 0 ==>
        FinishedTrue(c.after.status) || c.result.requeueAfter > 0 ||
        (c.before.noise < c.after.noise && Overtaken(c.after.trace, |c.before.trace|, c.why))
    }

    /** The life of an object from its creation on: others act, and then there is a reconcile, any number of times. */
    method Operate(rounds: nat) returns (ghost calls: seq<Call>)
      requires Valid() && OwnEvents(w.trace, Trace.Reconciler) == []
      modifies w
      ensures Valid() && Onward(old(w.Snap()), w.Snap()) && |calls| == rounds
      ensures forall i :: 0 <= i < rounds ==> NotStuck(calls[i], old(w.failures))
    {
      calls := [];
      OwnEventsDecide(w.trace);
      for i := 0 to rounds
        invariant Valid() && Onward(old(w.Snap()), w.Snap()) && |calls| == i
        invariant w.failures == old(w.failures) ==> Settled(OwnedOf(w.status))
        invariant forall j :: 0 <= j < i ==> NotStuck(calls[j], old(w.failures))
      {
        ghost var call := SleepAndReconcile(old(w.failures));
        calls := calls + [call];
      }
    }

    method SleepAndReconcile(ghost failures: nat) returns (ghost call: Call)
      requires Valid() && failures <= w.failures && (w.failures == failures ==> Settled(OwnedOf(w.status)))
      modifies w
      ensures Valid() && Onward(old(w.Snap()), w.Snap()) && NotStuck(call, failures)
      ensures w.failures == failures ==> Settled(OwnedOf(w.status))
    {
      hide StatusAt, Launches;
      Sleep();
      ghost var before := w.Snap();
      var result;
      ghost var launched, recommended, why, course, basis;
      result, launched, recommended, why, course, basis := Reconcile();
      call := Call(before, w.Snap(), result, why);
    }
  }
}
