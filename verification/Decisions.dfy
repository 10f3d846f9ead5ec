/** What one reconcile does if nobody else interferes: a decision on the status it finds, and the effect of
    that decision. The reconciler is proved to carry it out; here is what the decisions are good for. */
module Decisions {
  import opened Prelude
  import opened HardeningStatus
  import opened Trace
  import R = Recommendation

  // ---------- effects ----------

  /** Conditions other than the touched ones stay as they are; new ones only announce a check. */
  predicate Kept(s: Status, s': Status, touched: set<CondType>) {
    (forall c :: c in s.conditions && c !in touched ==> c in s'.conditions && s'.conditions[c] == s.conditions[c]) &&
    (forall c :: c in s'.conditions && c !in s.conditions && c !in touched ==>
       c.Check? && s'.conditions[c].status == Unknown && s'.conditions[c].reason == CheckNotStarted)
  }

  predicate AllAnnounced(s: Status, checks: set<CheckType>) {
    forall t :: t in checks ==> Check(t) in s.conditions
  }

  predicate SameHistory(s: Status, s': Status) {
    s'.baselineRuns == s.baselineRuns && s'.finalRun == s.finalRun
  }

  predicate SameRuns(s: Status, s': Status) {
    SameHistory(s, s') && s'.checkRuns == s.checkRuns && s'.recommendation == s.recommendation
  }

  predicate Says(s: Status, c: CondType, status: CondStatus, reason: Reason) {
    c in s.conditions && s.conditions[c].status == status && s.conditions[c].reason == reason
  }

  /** A running recording is left alone, unless it is overdue; between `from` and `to` it becomes overdue. */
  predicate Awaited(s: Status, s': Status, c: CondType, from: nat, to: nat, duration: nat)
    requires c in s.conditions
  {
    (Overdue(s, c, from, duration) ==> Says(s', c, Unknown, Requeue)) &&
    (!Overdue(s, c, to, duration) ==> CondIn(s', c) == CondIn(s, c)) &&
    (Says(s', c, Unknown, Requeue) || CondIn(s', c) == CondIn(s, c))
  }

  lemma AnnouncingKeeps(s: Status, t: CheckType, now: nat)
    requires Check(t) !in s.conditions
    ensures Kept(s, Apply(SetCond(Check(t), Unknown, CheckNotStarted, now), s), {})
    ensures SameRuns(s, Apply(SetCond(Check(t), Unknown, CheckNotStarted, now), s))
  {
  }

  lemma SettingKeeps(s: Status, c: CondType, status: CondStatus, reason: Reason, now: nat, touched: set<CondType>)
    requires c in touched
    ensures Kept(s, Apply(SetCond(c, status, reason, now), s), touched)
    ensures SameRuns(s, Apply(SetCond(c, status, reason, now), s))
    ensures Says(Apply(SetCond(c, status, reason, now), s), c, status, reason)
  {
  }

  lemma SameConditionsKeep(s: Status, s': Status, touched: set<CondType>)
    requires s'.conditions == s.conditions
    ensures Kept(s, s', touched)
  {
  }

  lemma KeptTwice(s: Status, s': Status, s'': Status, touched: set<CondType>)
    requires Kept(s, s', touched) && Kept(s', s'', touched)
    ensures Kept(s, s'', touched)
  {
  }

  lemma KeptMore(s: Status, s': Status, touched: set<CondType>, more: set<CondType>)
    requires Kept(s, s', touched) && touched <= more
    ensures Kept(s, s', more)
  {
  }

  /** Announcing checks makes no difference to any question but whether they have been announced. */
  lemma KeptLooksAlike(s: Status, s': Status, required: set<CheckType>)
    requires Kept(s, s', {}) && SameRuns(s, s')
    ensures FinalCheckRecorded(s') == FinalCheckRecorded(s) && FinalCheckInProgress(s') == FinalCheckInProgress(s)
    ensures BaselineRecorded(s') == BaselineRecorded(s) && BaselineInProgress(s') == BaselineInProgress(s)
    ensures forall t :: CheckRecorded(s', t) == CheckRecorded(s, t) && CheckInProgress(s', t) == CheckInProgress(s, t)
    ensures AllRecorded(s', required) == AllRecorded(s, required)
  {
  }

  const CONCLUSIONS: set<CondType> := {Finished, Analysis}

  // ---------- decisions ----------

  datatype Decision =
    | AlreadyFinished | DeclareFinished | DeclareFinalFailed
    | AwaitFinal | LaunchFinal
    | AwaitBaseline | LaunchBaseline | AbortOnBaseline
    | LaunchChecks | NothingToDo

  predicate BaselineFailed(s: Status) {
    exists i :: 0 <= i < |s.baselineRuns| && !Is(s.baselineRuns[i].checkSuccessful, true)
  }

  /** All is recorded and not yet analyzed. */
  predicate Analyzes(s: Status, required: set<CheckType>) {
    AllRecorded(s, required) && !Holds(s, Analysis, True)
  }

  function Decide(s: Status, required: set<CheckType>): Decision {
    if FinishedTrue(s) then AlreadyFinished
    else if s.recommendation.Some? && FinalCheckRecorded(s) then DeclareFinished
    else if Holds(s, FinalCheck, Unknown) then DeclareFinalFailed
    else if FinalCheckInProgress(s) then AwaitFinal
    else if s.recommendation.Some? || (Analyzes(s, required) && !FinalCheckRecorded(s)) then LaunchFinal
    else if BaselineInProgress(s) then AwaitBaseline
    else if !BaselineRecorded(s) then LaunchBaseline
    else if BaselineFailed(s) then AbortOnBaseline
    else if !AllRecorded(s, required) then LaunchChecks
    else NothingToDo
  }

  /** The check is to be launched: it is not recorded, and not being recorded or overdue. */
  predicate IsDue(s: Status, t: CheckType, now: nat, duration: nat) {
    !CheckRecorded(s, t) && (CheckInProgress(s, t) ==> Overdue(s, Check(t), now, duration))
  }

  /** `requeueAfter` is in nanoseconds; zero means that no further reconcile is scheduled. */
  datatype Result = Result(requeueAfter: nat, failed: bool)

  const DONE := Result(0, false)

  function Requeued(after: nat): Result {
    Result(after, false)
  }

  const MARGIN: nat := 10_000_000_000

  /** The conditions of launched checks whose previous recording was overdue. */
  function Overruled(s: Status, launched: seq<Kind>): set<CondType> {
    set k | k in launched && k.CheckRun? && CheckInProgress(s, k.check) :: Check(k.check)
  }

  /** Of the checks looked at between `from` and `to`, those due have been launched, once each. */
  predicate Selected(s: Status, launched: seq<Kind>, looked: set<CheckType>, from: nat, to: nat, duration: nat) {
    NoDuplicates(launched) &&
    (forall k :: k in launched ==> k.CheckRun? && k.check in looked && IsDue(s, k.check, to, duration)) &&
    (forall t :: t in looked && IsDue(s, t, from, duration) ==> CheckRun(t) in launched)
  }

  predicate LaunchedOf(s: Status, s': Status, launched: seq<Kind>, looked: set<CheckType>, from: nat, to: nat,
                       duration: nat) {
    Selected(s, launched, looked, from, to, duration) &&
    (forall t :: CheckRun(t) in launched && CheckInProgress(s, t) ==> Says(s', Check(t), Unknown, Requeue)) &&
    Kept(s, s', Overruled(s, launched)) && SameRuns(s, s')
  }

  /** One check has been looked at, and launched if it was due. */
  predicate LookedAt(s: Status, s': Status, t: CheckType, started: bool, from: nat, to: nat, duration: nat) {
    SameRuns(s, s') &&
    if !started then !IsDue(s, t, from, duration) && s' == s
    else if CheckInProgress(s, t) then
      IsDue(s, t, to, duration) && Says(s', Check(t), Unknown, Requeue) && Kept(s, s', {Check(t)})
    else IsDue(s, t, to, duration) && s' == s
  }

  /** A recording is overruled exactly if it was overdue when it was looked at, at `at`. */
  lemma LookedAtRunning(s: Status, s': Status, t: CheckType, overruled: bool, from: nat, at: nat, to: nat,
                        duration: nat)
    requires CheckInProgress(s, t) && from <= at <= to && overruled == Overdue(s, Check(t), at, duration)
    requires SameRuns(s, s')
    requires if overruled then Says(s', Check(t), Unknown, Requeue) && Kept(s, s', {Check(t)}) else s' == s
    ensures LookedAt(s, s', t, overruled, from, to, duration)
  {
  }

  lemma KeptDue(s: Status, s': Status, touched: set<CondType>, t: CheckType)
    requires Kept(s, s', touched) && Check(t) !in touched
    ensures CheckInProgress(s', t) == CheckInProgress(s, t)
    ensures forall now, duration :: IsDue(s', t, now, duration) == IsDue(s, t, now, duration)
  {
  }

  lemma OverruledMore(s: Status, s': Status, s'': Status, launched: seq<Kind>, t: CheckType)
    requires Kept(s, s', Overruled(s, launched)) && Check(t) !in Overruled(s, launched)
    requires if CheckInProgress(s', t) then Kept(s', s'', {Check(t)}) else s'' == s'
    ensures Kept(s, s'', Overruled(s, launched + [CheckRun(t)]))
  {
    KeptDue(s, s', Overruled(s, launched), t);
    var more := Overruled(s, launched + [CheckRun(t)]);
    assert forall k :: k in launched ==> k in launched + [CheckRun(t)];
    assert Overruled(s, launched) <= more;
    KeptMore(s, s', Overruled(s, launched), more);
    if CheckInProgress(s', t) {
      assert CheckRun(t) in launched + [CheckRun(t)];
      assert Check(t) in more;
      KeptMore(s', s'', {Check(t)}, more);
      KeptTwice(s, s', s'', more);
    }
  }

  lemma StillSays(s: Status, s': Status, t: CheckType, u: CheckType)
    requires t != u && Says(s, Check(u), Unknown, Requeue) && (s' == s || Kept(s, s', {Check(t)}))
    ensures Says(s', Check(u), Unknown, Requeue)
  {
  }

  lemma SelectedOneMore(s: Status, launched: seq<Kind>, looked: set<CheckType>, t: CheckType, started: bool,
                        from: nat, mid: nat, to: nat, duration: nat)
    requires from <= mid <= to && t !in looked && Selected(s, launched, looked, from, mid, duration)
    requires if started then IsDue(s, t, to, duration) else !IsDue(s, t, mid, duration)
    ensures Selected(s, if started then launched + [CheckRun(t)] else launched, looked + {t}, from, to, duration)
  {
  }

  lemma LookedAtOneMore(s: Status, s': Status, s'': Status, launched: seq<Kind>, looked: set<CheckType>, t: CheckType,
                        started: bool,
                        from: nat, mid: nat, to: nat, duration: nat)
    requires from <= mid <= to && t !in looked
    requires LaunchedOf(s, s', launched, looked, from, mid, duration) &&
             LookedAt(s', s'', t, started, mid, to, duration)
    ensures LaunchedOf(s, s'', if started then launched + [CheckRun(t)] else launched, looked + {t}, from, to, duration)
  {
    KeptDue(s, s', Overruled(s, launched), t);
    SelectedOneMore(s, launched, looked, t, started, from, mid, to, duration);
    if started {
      OverruledMore(s, s', s'', launched, t);
      forall u | CheckRun(u) in launched + [CheckRun(t)] && CheckInProgress(s, u)
        ensures Says(s'', Check(u), Unknown, Requeue)
      {
        if u != t { StillSays(s', s'', t, u); }
      }
    }
  }

  /** The checks' part of a reconcile: in parallel mode all that are due are launched, in sequential mode one of
      them, if there is any. */
  predicate ChecksLaunched(s: Status, s': Status, launched: seq<Kind>, required: set<CheckType>,
                           from: nat, to: nat, duration: nat, parallel: bool) {
    (if parallel then Selected(s, launched, required, from, to, duration)
     else if launched == [] then Selected(s, [], required, from, to, duration)
     else
       |launched| == 1 && launched[0].CheckRun? && launched[0].check in required &&
       IsDue(s, launched[0].check, to, duration)) &&
    (forall t :: CheckRun(t) in launched && CheckInProgress(s, t) ==> Says(s', Check(t), Unknown, Requeue)) &&
    Kept(s, s', {Finished} + Overruled(s, launched)) && SameRuns(s, s')
  }

  lemma SelectedFrom(s: Status, s': Status, launched: seq<Kind>, looked: set<CheckType>, from: nat, later: nat, to: nat,
                     duration: nat)
    requires Kept(s, s', {Finished}) && from <= later && Selected(s', launched, looked, later, to, duration)
    ensures Selected(s, launched, looked, from, to, duration)
    ensures Overruled(s, launched) == Overruled(s', launched)
  {
    forall t
      ensures CheckInProgress(s', t) == CheckInProgress(s, t)
      ensures IsDue(s', t, from, duration) == IsDue(s, t, from, duration) &&
              IsDue(s', t, to, duration) == IsDue(s, t, to, duration)
    {
      KeptDue(s, s', {Finished}, t);
    }
    forall t | t in looked && IsDue(s, t, from, duration)
      ensures CheckRun(t) in launched
    {
      assert IsDue(s', t, later, duration);
    }
  }

  /** After the announcements and the Finished condition the checks that are due are still the same. */
  lemma ChecksLaunchedFrom(s: Status, s': Status, s'': Status, launched: seq<Kind>, looked: set<CheckType>,
                           required: set<CheckType>,
                           from: nat, later: nat, to: nat, duration: nat, parallel: bool)
    requires Kept(s, s', {Finished}) && SameRuns(s, s') && from <= later
    requires LaunchedOf(s', s'', launched, looked, later, to, duration) && looked <= required
    requires looked == required || (!parallel && |launched| == 1)
    requires !parallel ==> |launched| <= 1
    ensures ChecksLaunched(s, s'', launched, required, from, to, duration, parallel)
    ensures Says(s', Finished, False, CheckRecording) ==> Says(s'', Finished, False, CheckRecording)
    ensures AllAnnounced(s', required) ==> AllAnnounced(s'', required)
  {
    SelectedFrom(s, s', launched, looked, from, later, to, duration);
    var touched := {Finished} + Overruled(s, launched);
    KeptMore(s, s', {Finished}, touched);
    KeptMore(s', s'', Overruled(s', launched), touched);
    KeptTwice(s, s', s'', touched);
    forall t
      ensures CheckInProgress(s', t) == CheckInProgress(s, t)
    {
      KeptDue(s, s', {Finished}, t);
    }
  }

  /** The part that is about the checks. */
  predicate ChecksPhase(s: Status, s': Status, result: Result, launched: seq<Kind>, required: set<CheckType>,
                        from: nat, to: nat, duration: nat, parallel: bool) {
    Says(s', Finished, False, CheckRecording) && AllAnnounced(s', required) &&
    ChecksLaunched(s, s', launched, required, from, to, duration, parallel) &&
    result == if parallel || launched != [] then Requeued(duration + MARGIN) else DONE
  }

  /** The part of a reconcile that is about the final check; `first` is the status it found in the beginning. */
  predicate FinalPhase(first: Status, s: Status, s': Status, result: Option<Result>, launched: seq<Kind>,
                       from: nat, to: nat, duration: nat) {
    if Holds(first, FinalCheck, Unknown) then
      result == Some(DONE) && launched == [] && Says(s', Finished, True, Reason.FinalCheckFailed) &&
      Kept(s, s', {Finished}) &&
      SameRuns(s, s')
    else if FinalCheckInProgress(s) then
      result == Some(Requeued(duration / 2)) && launched == [] && Awaited(s, s', FinalCheck, from, to, duration) &&
      Kept(s, s', {FinalCheck}) && SameRuns(s, s')
    else if s.recommendation.Some? && !FinalCheckRecorded(s) then
      result == Some(Requeued(duration + MARGIN)) && launched == [FinalRun] &&
      Says(s', Finished, False, FinalCheckRecording) && Kept(s, s', {Finished}) && SameRuns(s, s')
    else result.None? && launched == [] && s' == s
  }

  /** The part that is about the baseline. */
  predicate BaselinePhase(first: Status, s: Status, s': Status, result: Option<Result>, launched: seq<Kind>,
                          from: nat, to: nat, duration: nat) {
    if BaselineInProgress(s) then
      result == Some(Requeued(duration / 2)) && launched == [] && Awaited(s, s', Baseline, from, to, duration) &&
      Kept(s, s', {Baseline}) && SameRuns(s, s')
    else if !BaselineRecorded(s) then
      result == Some(Requeued(duration + MARGIN)) && launched == [BaselineRun(false), BaselineRun(true)] &&
      Says(s', Finished, False, BaselineRecording) && Kept(s, s', {Finished}) && SameRuns(s, s')
    else if BaselineFailed(first) then
      result == Some(DONE) && launched == [] && Says(s', Finished, True, BaselineRecordingFailed) &&
      Kept(s, s', {Finished}) &&
      SameRuns(s, s')
    else result.None? && launched == [] && s' == s
  }

  predicate DeclaredFinished(s: Status, s': Status) {
    Says(s', Finished, True, AllFinished) && s'.conditions.Keys <= CONCLUSIONS &&
    CondIn(s', Analysis) == CondIn(s, Analysis) &&
    SameRuns(s, s')
  }

  /** A reconcile that finds this status gets as far as an analysis. */
  predicate ReachesAnalysis(s: Status, required: set<CheckType>) {
    !FinishedTrue(s) && !(s.recommendation.Some? && FinalCheckRecorded(s)) && Analyzes(s, required)
  }

  /** What the analysis of a reconcile finds, if it finds one to do. */
  datatype Findings = Findings(verdicts: map<CheckType, R.Run>, recommended: Recommended)

  /** The analysis is over: the verdicts have replaced the runs, and the recommendation is there. */
  predicate Concluded(s: Status, s': Status, required: set<CheckType>, f: Findings) {
    if Analyzes(s, required) then
      SameHistory(s, s') && s'.checkRuns == f.verdicts && s'.recommendation == Some(f.recommended) &&
      Says(s', Analysis, True, AnalysisFinished)
    else SameRuns(s, s') && CondIn(s', Analysis) == CondIn(s, Analysis)
  }

  /** The state before and after a reconcile that ran between `from` and `to`, what it launched and returned. */
  datatype Effect = Effect(before: Status, after: Status, findings: Findings,
                           launched: seq<Kind>, result: Result, from: nat, to: nat)

  predicate CarriedOut(e: Effect, required: set<CheckType>, duration: nat, parallel: bool) {
    var s, s', d := e.before, e.after, Decide(e.before, required);
    match d
    case AlreadyFinished => s' == s && e.launched == [] && e.result == DONE
    case DeclareFinished =>
      DeclaredFinished(s, s') && e.launched == [] && e.result == DONE
    case DeclareFinalFailed =>
      Says(s', Finished, True, Reason.FinalCheckFailed) && Kept(s, s', CONCLUSIONS) &&
      Concluded(s, s', required, e.findings) &&
      e.launched == [] && e.result == DONE
    case AwaitFinal =>
      Awaited(s, s', FinalCheck, e.from, e.to, duration) && Kept(s, s', CONCLUSIONS + {FinalCheck}) &&
      Concluded(s, s', required, e.findings) &&
      (if Analyzes(s, required) then Says(s', Finished, False, Analyzing)
       else CondIn(s', Finished) == CondIn(s, Finished)) &&
      e.launched == [] && e.result == Requeued(duration / 2)
    case LaunchFinal =>
      Says(s', Finished, False, FinalCheckRecording) && Kept(s, s', CONCLUSIONS) &&
      Concluded(s, s', required, e.findings) &&
      e.launched == [FinalRun] && e.result == Requeued(duration + MARGIN)
    case AwaitBaseline =>
      Awaited(s, s', Baseline, e.from, e.to, duration) && Kept(s, s', {Baseline}) && SameRuns(s, s') &&
      e.launched == [] && e.result == Requeued(duration / 2)
    case LaunchBaseline =>
      Says(s', Finished, False, BaselineRecording) && Kept(s, s', {Finished}) && SameRuns(s, s') &&
      e.launched == [BaselineRun(false), BaselineRun(true)] && e.result == Requeued(duration + MARGIN)
    case AbortOnBaseline =>
      Says(s', Finished, True, BaselineRecordingFailed) && Kept(s, s', {Finished}) && SameRuns(s, s') &&
      e.launched == [] && e.result == DONE
    case LaunchChecks =>
      ChecksPhase(s, s', e.result, e.launched, required, e.from, e.to, duration, parallel)
    case NothingToDo => Kept(s, s', {}) && SameRuns(s, s') && e.launched == [] && e.result == DONE
  }

  // ---------- from the parts to the whole ----------

  lemma RemovingDeclares(s: Status, s': Status)
    requires Kept(s, s', {Finished}) && SameRuns(s, s') && Says(s', Finished, True, AllFinished)
    ensures DeclaredFinished(s, Apply(RemoveCheckConditions, s'))
  {
  }

  /** What the analysis phase does to the status. */
  predicate AnalysisPhase(s: Status, s': Status, required: set<CheckType>, f: Findings) {
    if Analyzes(s, required) then
      Kept(s, s', CONCLUSIONS) && SameHistory(s, s') && s'.checkRuns == f.verdicts &&
      s'.recommendation == Some(f.recommended) && Says(s', Analysis, True, AnalysisFinished) &&
      Says(s', Finished, False, Analyzing)
    else Kept(s, s', {}) && SameRuns(s, s')
  }

  predicate ReachesFinalPhase(s: Status) {
    !FinishedTrue(s) && !(s.recommendation.Some? && FinalCheckRecorded(s)) &&
    (FinalCheckRecorded(s) ==> s.recommendation.Some?)
  }

  lemma FinalLooksAlike(s: Status, s': Status, touched: set<CondType>)
    requires Kept(s, s', touched) && touched <= CONCLUSIONS
    ensures CondIn(s', FinalCheck) == CondIn(s, FinalCheck)
    ensures FinalCheckRecorded(s') == FinalCheckRecorded(s) && FinalCheckInProgress(s') == FinalCheckInProgress(s)
    ensures Holds(s', FinalCheck, Unknown) == Holds(s, FinalCheck, Unknown)
  {
  }

  lemma FinishesFirst(e: Effect, required: set<CheckType>, duration: nat, parallel: bool)
    requires e.launched == [] && e.result == DONE
    requires FinishedTrue(e.before) ==> e.after == e.before
    requires !FinishedTrue(e.before) ==>
      e.before.recommendation.Some? && FinalCheckRecorded(e.before) && DeclaredFinished(e.before, e.after)
    ensures CarriedOut(e, required, duration, parallel)
  {
  }

  lemma AwaitedFrom(s: Status, s': Status, s'': Status, c: CondType, from: nat, later: nat, to: nat, duration: nat)
    requires c in s'.conditions && CondIn(s, c) == CondIn(s', c) && from <= later
    requires Awaited(s', s'', c, later, to, duration)
    ensures Awaited(s, s'', c, from, to, duration)
  {
  }

  lemma ConclusionsStay(s: Status, s': Status)
    requires Kept(s, s', {FinalCheck})
    ensures forall c :: c in CONCLUSIONS ==> CondIn(s', c) == CondIn(s, c)
  {
  }

  lemma EndsAwaitingFinal(e: Effect, s: Status, from: nat, required: set<CheckType>, duration: nat, parallel: bool)
    requires ReachesFinalPhase(e.before) && AnalysisPhase(e.before, s, required, e.findings) && e.from <= from
    requires FinalPhase(e.before, s, e.after, Some(e.result), e.launched, from, e.to, duration)
    requires FinalCheckInProgress(s) && !Holds(e.before, FinalCheck, Unknown)
    ensures CarriedOut(e, required, duration, parallel)
  {
    hide Kept, Awaited;
    var touched := if Analyzes(e.before, required) then CONCLUSIONS else {};
    FinalLooksAlike(e.before, s, touched);
    AwaitedFrom(e.before, s, e.after, FinalCheck, e.from, from, e.to, duration);
    ConclusionsStay(s, e.after);
    var more := CONCLUSIONS + {FinalCheck};
    KeptMore(e.before, s, touched, more);
    KeptMore(s, e.after, {FinalCheck}, more);
    KeptTwice(e.before, s, e.after, more);
    AnalysisLeaves(e.before, s, required, e.findings);
  }

  lemma AnalysisLeaves(s: Status, s': Status, required: set<CheckType>, f: Findings)
    requires AnalysisPhase(s, s', required, f)
    ensures !Analyzes(s, required) ==> forall c :: c in CONCLUSIONS ==> CondIn(s', c) == CondIn(s, c)
  {
  }

  lemma EndsInFinalPhase(e: Effect, s: Status, from: nat, required: set<CheckType>, duration: nat, parallel: bool)
    requires ReachesFinalPhase(e.before) && AnalysisPhase(e.before, s, required, e.findings) && e.from <= from
    requires FinalPhase(e.before, s, e.after, Some(e.result), e.launched, from, e.to, duration)
    ensures CarriedOut(e, required, duration, parallel)
  {
    var touched := if Analyzes(e.before, required) then CONCLUSIONS else {};
    FinalLooksAlike(e.before, s, touched);
    if FinalCheckInProgress(s) && !Holds(e.before, FinalCheck, Unknown) {
      EndsAwaitingFinal(e, s, from, required, duration, parallel);
    } else {
      KeptMore(e.before, s, touched, CONCLUSIONS);
      KeptMore(s, e.after, {Finished}, CONCLUSIONS);
      KeptTwice(e.before, s, e.after, CONCLUSIONS);
    }
  }

  predicate PastFinal(d: Decision) {
    d.AwaitBaseline? || d.LaunchBaseline? || d.AbortOnBaseline? || d.LaunchChecks? || d.NothingToDo?
  }

  lemma DecisionPastFinal(s: Status, required: set<CheckType>)
    requires PastFinal(Decide(s, required))
    ensures Decide(s, required) ==
            if BaselineInProgress(s) then AwaitBaseline
            else if !BaselineRecorded(s) then LaunchBaseline
            else if BaselineFailed(s) then AbortOnBaseline
            else if !AllRecorded(s, required) then LaunchChecks
            else NothingToDo
  {
  }

  /** Past the final check there was nothing to analyze. */
  lemma PassesFinalPhase(s: Status, s': Status, s'': Status, f: Findings, launched: seq<Kind>, from: nat, to: nat,
                         required: set<CheckType>, duration: nat)
    requires ReachesFinalPhase(s) && AnalysisPhase(s, s', required, f)
    requires FinalPhase(s, s', s'', None, launched, from, to, duration)
    ensures !Analyzes(s, required) && s'' == s' && Kept(s, s', {}) && SameRuns(s, s')
    ensures PastFinal(Decide(s, required))
  {
    FinalLooksAlike(s, s', if Analyzes(s, required) then CONCLUSIONS else {});
  }

  lemma EndsInBaselinePhase(e: Effect, s: Status, from: nat, required: set<CheckType>, duration: nat, parallel: bool)
    requires Kept(e.before, s, {}) && SameRuns(e.before, s) && e.from <= from
    requires PastFinal(Decide(e.before, required))
    requires BaselinePhase(e.before, s, e.after, Some(e.result), e.launched, from, e.to, duration)
    ensures CarriedOut(e, required, duration, parallel)
  {
    DecisionPastFinal(e.before, required);
    KeptLooksAlike(e.before, s, required);
    assert CondIn(s, Baseline) == CondIn(e.before, Baseline);
    var touched := if BaselineInProgress(s) then {Baseline} else {Finished};
    KeptMore(e.before, s, {}, touched);
    KeptTwice(e.before, s, e.after, touched);
  }

  lemma ChecksPhaseEarlier(s: Status, s': Status, s'': Status, result: Result, launched: seq<Kind>,
                           required: set<CheckType>,
                           from: nat, later: nat, to: nat, duration: nat, parallel: bool)
    requires Kept(s, s', {}) && SameRuns(s, s') && from <= later
    requires ChecksPhase(s', s'', result, launched, required, later, to, duration, parallel)
    ensures ChecksPhase(s, s'', result, launched, required, from, to, duration, parallel)
  {
    KeptMore(s, s', {}, {Finished});
    forall t
      ensures CheckInProgress(s', t) == CheckInProgress(s, t) && IsDue(s', t, to, duration) == IsDue(s, t, to, duration)
    {
      KeptDue(s, s', {}, t);
    }
    assert Overruled(s, launched) == Overruled(s', launched);
    if Selected(s', launched, required, later, to, duration) {
      SelectedFrom(s, s', launched, required, from, later, to, duration);
    }
    KeptMore(s, s', {}, {Finished} + Overruled(s, launched));
    KeptTwice(s, s', s'', {Finished} + Overruled(s, launched));
  }

  predicate PassesBaseline(first: Status, s: Status) {
    !BaselineInProgress(s) && BaselineRecorded(s) && !BaselineFailed(first)
  }

  /** What is left after the final check and the baseline. */
  predicate LastPhase(s: Status, s': Status, result: Result, launched: seq<Kind>, required: set<CheckType>,
                      from: nat, to: nat, duration: nat, parallel: bool) {
    if BaselineRecorded(s) && !AllRecorded(s, required) then
      ChecksPhase(s, s', result, launched, required, from, to, duration, parallel)
    else Kept(s, s', {}) && SameRuns(s, s') && launched == [] && result == DONE
  }

  lemma EndsInLastPhase(e: Effect, s: Status, from: nat, required: set<CheckType>, duration: nat, parallel: bool)
    requires Kept(e.before, s, {}) && SameRuns(e.before, s) && e.from <= from
    requires PastFinal(Decide(e.before, required))
    requires PassesBaseline(e.before, s)
    requires LastPhase(s, e.after, e.result, e.launched, required, from, e.to, duration, parallel)
    ensures CarriedOut(e, required, duration, parallel)
  {
    DecisionPastFinal(e.before, required);
    KeptLooksAlike(e.before, s, required);
    if BaselineRecorded(s) && !AllRecorded(s, required) {
      ChecksPhaseEarlier(e.before, s, e.after, e.result, e.launched, required, e.from, from, e.to, duration, parallel);
    } else {
      KeptTwice(e.before, s, e.after, {});
    }
  }

  // ---------- no stuck state ----------

  /** An analysis that is over has left a recommendation, or the check is finished. */
  predicate Settled(o: Owned) {
    o.analysis.Some? && o.analysis.value.status == True ==>
      o.recommendation.Some? || (o.finished.Some? && o.finished.value.status == True)
  }

  /** In a reachable state nothing is left to do exactly when the analysis is over without a recommendation,
      and no final check is left over. */
  lemma NothingToDoExactly(tr: seq<Event>, required: set<CheckType>)
    requires WellFormed(tr)
    ensures var s := StatusAt(tr);
            Decide(s, required) == NothingToDo <==>
              !FinishedTrue(s) && AllRecorded(s, required) && !BaselineFailed(s) && Holds(s, Analysis, True) &&
              s.recommendation.None? && !Holds(s, FinalCheck, Unknown) && !FinalCheckInProgress(s)
  {
    if FinalCheckRecorded(StatusAt(tr)) {
      TrueWasSeen(tr, FinalCheck);
      FinalNeedsRecommendation(tr);
    }
  }

  predicate NoneDue(s: Status, required: set<CheckType>, now: nat, duration: nat) {
    forall t :: t in required ==> !IsDue(s, t, now, duration)
  }

  /** What a carried-out reconcile comes to is unfinished and not scheduled again in exactly three cases: there was
      nothing to do; it waits for half a duration that is zero; or, in sequential mode, it has launched nothing,
      which means that no check was due. */
  lemma UnscheduledExactly(e: Effect, required: set<CheckType>, duration: nat, parallel: bool)
    requires CarriedOut(e, required, duration, parallel)
    ensures var d := Decide(e.before, required);
            !FinishedTrue(e.after) && e.result.requeueAfter == 0 <==>
              d.NothingToDo? || (duration < 2 && (d.AwaitFinal? || d.AwaitBaseline?)) ||
              (!parallel && d.LaunchChecks? && e.launched == [])
    ensures !parallel && Decide(e.before, required).LaunchChecks? && e.launched == [] ==>
              NoneDue(e.before, required, e.from, duration)
    ensures Decide(e.before, required).LaunchChecks? && NoneDue(e.before, required, e.to, duration) ==> e.launched == []
  {
    if Decide(e.before, required).LaunchChecks? && e.launched != [] {
      assert e.launched[0] in e.launched;
    }
  }

  /** When the next reconcile is scheduled, in nanoseconds: after half a duration while a recording is waited for, and
      ten seconds after a duration when one has been launched. */
  lemma SchedulesAfter(e: Effect, required: set<CheckType>, duration: nat, parallel: bool)
    requires CarriedOut(e, required, duration, parallel)
    ensures e.launched != [] ==> e.result.requeueAfter == duration + 10_000_000_000
    ensures e.launched == [] && !(parallel && Decide(e.before, required).LaunchChecks?) ==>
              e.result.requeueAfter ==
                match Decide(e.before, required)
                case AwaitFinal => duration / 2
                case AwaitBaseline => duration / 2
                case _ => 0
    ensures !e.result.failed
  {
  }

  /** In sequential mode, if it takes no time, a check is launched exactly if one is due, whether or not another one is
      being recorded. */
  lemma SequentialExactly(e: Effect, required: set<CheckType>, duration: nat)
    requires CarriedOut(e, required, duration, false) && Decide(e.before, required).LaunchChecks? && e.from == e.to
    ensures e.launched == [] <==> NoneDue(e.before, required, e.from, duration)
    ensures e.launched != [] ==>
      |e.launched| == 1 && e.launched[0].CheckRun? && e.launched[0].check in required &&
      IsDue(e.before, e.launched[0].check, e.from, duration)
  {
    UnscheduledExactly(e, required, duration, false);
  }

  /** A recording of the baseline or the final run that is waited for is overruled exactly if it is older than the
      duration plus one minute. */
  lemma WaitRunsOut(e: Effect, required: set<CheckType>, duration: nat, parallel: bool, c: CondType, since: nat)
    requires CarriedOut(e, required, duration, parallel) && e.from == e.to
    requires if Decide(e.before, required).AwaitFinal? then c == FinalCheck
             else Decide(e.before, required).AwaitBaseline? && c == Baseline
    requires c in e.before.conditions && e.before.conditions[c].since == since
    ensures e.launched == [] && c in e.after.conditions
    ensures if e.to > since + duration + 60_000_000_000
            then e.after.conditions[c].status == Unknown && e.after.conditions[c].reason == Requeue
            else e.after.conditions[c] == e.before.conditions[c]
  {
  }

  /** A reconcile that finds the baseline recorded and gets past the final check gives up exactly if some entry that a
      baseline runner has committed is not successful. It launches nothing then, and declares the object finished. */
  lemma FailedBaselineAborts(tr: seq<Event>, e: Effect, required: set<CheckType>, duration: nat, parallel: bool)
    requires WellFormed(tr) && e.before == StatusAt(tr) && CarriedOut(e, required, duration, parallel)
    requires BaselineRecorded(e.before) && PastFinal(Decide(e.before, required))
    ensures if exists i :: 0 <= i < |BaselineEntries(tr)| && BaselineEntries(tr)[i].checkSuccessful != Some(true)
            then e.launched == [] && e.result.requeueAfter == 0 && Finished in e.after.conditions &&
                 e.after.conditions[Finished].status == True &&
                 e.after.conditions[Finished].reason == BaselineRecordingFailed
            else !FinishedTrue(e.after)
  {
    BaselineEntriesAreKept(tr);
    DecisionPastFinal(e.before, required);
    assert BaselineFailed(e.before) <==>
      exists i :: 0 <= i < |BaselineEntries(tr)| && BaselineEntries(tr)[i].checkSuccessful != Some(true);
  }

  lemma SettledAfter(e: Effect, required: set<CheckType>, duration: nat, parallel: bool)
    requires CarriedOut(e, required, duration, parallel) && Settled(OwnedOf(e.before))
    ensures Settled(OwnedOf(e.after))
  {
  }

  /** A single carried-out reconcile from a settled, reachable status, in parallel mode and with a positive duration. */
  lemma NotStuckOnce(tr: seq<Event>, e: Effect, required: set<CheckType>, duration: nat)
    requires WellFormed(tr) && e.before == StatusAt(tr) && Settled(OwnedOf(StatusAt(tr)))
    requires CarriedOut(e, required, duration, true) && duration >= 2
    ensures FinishedTrue(e.after) || e.result.requeueAfter > 0
  {
    NothingToDoExactly(tr, required);
    UnscheduledExactly(e, required, duration, true);
  }

  // ---------- whole runs ----------

  /** A reconcile between two positions of a trace. */
  datatype Round = Round(start: nat, end: nat, effect: Effect, required: set<CheckType>)

  /** One carried-out reconcile after another, with anything of others before, between and after them; and the
      reconciler does nothing else. */
  ghost predicate Rounds(tr: seq<Event>, rounds: seq<Round>, duration: nat, parallel: bool)
    decreases |rounds|
  {
    rounds != [] ==>
      var front, r := rounds[..|rounds| - 1], rounds[|rounds| - 1];
      var idle := if front == [] then 0 else front[|front| - 1].end;
      idle <= r.start <= r.end <= |tr| && Rounds(tr, front, duration, parallel) &&
      OthersOnly(tr[..idle], tr[..r.start], Reconciler) &&
      r.effect.before == StatusAt(tr[..r.start]) && r.effect.after == StatusAt(tr[..r.end]) &&
      CarriedOut(r.effect, r.required, duration, parallel)
  }

  predicate StaysSettled(r: Round) {
    Settled(OwnedOf(r.effect.before)) && Settled(OwnedOf(r.effect.after))
  }

  lemma {:induction false} RunsAreSettled(tr: seq<Event>, rounds: seq<Round>, duration: nat, parallel: bool)
    requires WellFormed(tr) && Rounds(tr, rounds, duration, parallel)
    ensures rounds != [] ==> StaysSettled(rounds[|rounds| - 1])
    decreases |rounds|
  {
    if rounds != [] {
      var front, r := rounds[..|rounds| - 1], rounds[|rounds| - 1];
      WellFormedPrefix(tr, r.start);
      if front == [] {
        OthersLeave(tr[..0], tr[..r.start], Reconciler);
      } else {
        RunsAreSettled(tr, front, duration, parallel);
        OthersLeave(tr[..front[|front| - 1].end], tr[..r.start], Reconciler);
      }
      SettledAfter(r.effect, r.required, duration, parallel);
    }
  }

  /** The reconcile leaves the object unfinished and not scheduled again exactly if it waits for half a duration that is
      zero, or has launched nothing in sequential mode. */
  predicate StuckExactly(r: Round, duration: nat, parallel: bool) {
    var e, d := r.effect, Decide(r.effect.before, r.required);
    !FinishedTrue(e.after) && e.result.requeueAfter == 0 <==>
      (duration < 2 && (d.AwaitFinal? || d.AwaitBaseline?)) ||
      (!parallel && d.LaunchChecks? && e.launched == [])
  }

  /** In a run of reconciles from the very beginning, with anything of others in between, the last one is stuck only in
      those two cases; so that in parallel mode and with a positive duration it never is. Every beginning of a run is
      a run, so that this is about each of them. */
  lemma NeverStuck(tr: seq<Event>, rounds: seq<Round>, duration: nat, parallel: bool)
    requires WellFormed(tr) && Rounds(tr, rounds, duration, parallel)
    ensures rounds != [] ==>
      var r := rounds[|rounds| - 1];
      StuckExactly(r, duration, parallel) &&
      (parallel && duration >= 2 ==> FinishedTrue(r.effect.after) || r.effect.result.requeueAfter > 0)
  {
    if rounds != [] {
      var r := rounds[|rounds| - 1];
      RunsAreSettled(tr, rounds, duration, parallel);
      WellFormedPrefix(tr, r.start);
      NothingToDoExactly(tr[..r.start], r.required);
      UnscheduledExactly(r.effect, r.required, duration, parallel);
    }
  }
}
