/** The lease on a check: its condition, together with the time at which it last changed, keeps a second runner
    from being launched while the first is alive. Reconciles are atomic here and carry out their decisions. */
module Lease {
  import opened Prelude
  import opened SecurityContexts
  import opened HardeningStatus
  import opened Decisions

  /** A launched check runner is live until it has written its last condition or has exited. */
  datatype Live = Live(check: CheckType, recording: bool)

  datatype State = State(status: Status, live: seq<Live>, now: nat)

  const INIT := State(NO_STATUS, [], 0)

  datatype Step =
    | Reconcile(after: Status, findings: Findings, launched: seq<Kind>, result: Result, required: set<CheckType>)
    | Begin(i: nat)                  // writes the condition False, for the first or the second time
    | Fail(i: nat)                   // writes Unknown after it has begun, and exits
    | Finish(i: nat, reason: Reason) // writes True, and is done with the condition
    | Exit(i: nat)                   // exits, or crashes, without a word
    | TimeOut(i: nat)                // writes Unknown after the pods were not updated in time, and carries on
    | Elsewhere(after: Status)       // what the runners of the baseline and the final check do, and all entries
    | Tick(passed: nat)

  /** What the lease relies on. */
  datatype Assumptions = Assumptions(
    prompt: bool,     // a launched runner writes False, or exits, before the next reconcile
    patient: bool,    // no runner runs into the wait timeout
    punctual: bool)   // a recording runner is done within the duration plus one minute of the last transition

  const RELIABLE := Assumptions(true, true, true)

  function CheckCond(s: Status, t: CheckType): Option<Condition> {
    CondIn(s, Check(t))
  }

  function LaunchedLive(launched: seq<Kind>): seq<Live> {
    if launched == [] then []
    else
      LaunchedLive(launched[..|launched| - 1]) +
      (if launched[|launched| - 1].CheckRun? then [Live(launched[|launched| - 1].check, false)] else [])
  }

  predicate InTime(s: Status, l: Live, now: nat, duration: nat) {
    l.recording && InRecording(CheckCond(s, l.check)) ==>
      now <= CheckCond(s, l.check).value.since + duration + 60_000_000_000
  }

  function EffectOf(s: State, step: Step): Effect
    requires step.Reconcile?
  {
    Effect(s.status, step.after, step.findings, step.launched, step.result, s.now, s.now)
  }

  predicate Enabled(s: State, step: Step, a: Assumptions, duration: nat, parallel: bool) {
    match step
    case Reconcile(_, _, _, _, required) =>
      CarriedOut(EffectOf(s, step), required, duration, parallel) &&
      (a.prompt ==> forall i :: 0 <= i < |s.live| ==> s.live[i].recording)
    case Begin(i) => i < |s.live|
    case Fail(i) => i < |s.live| && s.live[i].recording
    case Finish(i, reason) =>
      i < |s.live| && s.live[i].recording && reason in {CheckRecordingFinished, CheckRecordingFailed}
    case Exit(i) => i < |s.live|
    case TimeOut(i) => i < |s.live| && s.live[i].recording && !a.patient
    case Elsewhere(after) =>
      CondIn(after, Finished) == CondIn(s.status, Finished) && forall t :: CheckCond(after, t) == CheckCond(s.status, t)
    case Tick(passed) =>
      a.punctual ==> forall i :: 0 <= i < |s.live| ==> InTime(s.status, s.live[i], s.now + passed, duration)
  }

  function Without(live: seq<Live>, i: nat): seq<Live>
    requires i < |live|
  {
    live[..i] + live[i + 1..]
  }

  function Written(s: State, t: CheckType, status: CondStatus, reason: Reason): Status {
    Apply(SetCond(Check(t), status, reason, s.now), s.status)
  }

  function After(s: State, step: Step, a: Assumptions, duration: nat, parallel: bool): State
    requires Enabled(s, step, a, duration, parallel)
  {
    match step
    case Reconcile(after, _, launched, _, _) => s.(status := after, live := s.live + LaunchedLive(launched))
    case Begin(i) =>
      s.(status := Written(s, s.live[i].check, False, CheckRecording),
         live := s.live[i := s.live[i].(recording := true)])
    case Fail(i) => s.(status := Written(s, s.live[i].check, Unknown, CheckRecordingFailed), live := Without(s.live, i))
    case Finish(i, reason) => s.(status := Written(s, s.live[i].check, True, reason), live := Without(s.live, i))
    case Exit(i) => s.(live := Without(s.live, i))
    case TimeOut(i) => s.(status := Written(s, s.live[i].check, Unknown, CheckRecordingFailed))
    case Elsewhere(after) => s.(status := after)
    case Tick(passed) => s.(now := s.now + passed)
  }

  // ---------- the invariant ----------

  predicate Exclusive(live: seq<Live>) {
    forall i, j :: 0 <= i < j < |live| ==> live[i].check != live[j].check
  }

  /** The states of the diagram: not started, recording, to be retried, done. */
  predicate NotStarted(c: Option<Condition>) {
    c.None? || (c.value.status == Unknown && c.value.reason == CheckNotStarted)
  }

  predicate ToRetry(c: Option<Condition>) {
    c.Some? && c.value.status == Unknown && c.value.reason in {CheckRecordingFailed, Requeue}
  }

  predicate InRecording(c: Option<Condition>) {
    c.Some? && c.value.status == False && c.value.reason == CheckRecording
  }

  predicate IsDone(c: Option<Condition>) {
    c.Some? && c.value.status == True && c.value.reason in {CheckRecordingFinished, CheckRecordingFailed}
  }

  predicate Idle(c: Option<Condition>) {
    NotStarted(c) || ToRetry(c)
  }

  predicate InShape(c: Option<Condition>) {
    Idle(c) || InRecording(c) || IsDone(c)
  }

  /** A live runner's condition: idle before it begins and recording, in time, from then on; but it may have been
      removed after the object was finished. */
  predicate Leased(s: Status, l: Live, now: nat, duration: nat) {
    if CheckCond(s, l.check).None? then FinishedTrue(s)
    else if l.recording then
      InRecording(CheckCond(s, l.check)) && now <= CheckCond(s, l.check).value.since + duration + 60_000_000_000
    else Idle(CheckCond(s, l.check))
  }

  ghost predicate Shaped(s: Status) {
    forall t :: InShape(CheckCond(s, t))
  }

  ghost predicate Inv(s: State, duration: nat) {
    Exclusive(s.live) && Shaped(s.status) &&
    forall i :: 0 <= i < |s.live| ==> Leased(s.status, s.live[i], s.now, duration)
  }

  lemma {:induction false} LaunchedAreNew(launched: seq<Kind>)
    requires NoDuplicates(launched)
    ensures Exclusive(LaunchedLive(launched))
    ensures forall i :: 0 <= i < |LaunchedLive(launched)| ==>
      !LaunchedLive(launched)[i].recording && CheckRun(LaunchedLive(launched)[i].check) in launched
  {
    if launched != [] {
      var front, last := launched[..|launched| - 1], launched[|launched| - 1];
      assert launched == front + [last];
      LaunchedAreNew(front);
    }
  }

  lemma ExclusiveTogether(live: seq<Live>, launched: seq<Kind>)
    requires Exclusive(live) && NoDuplicates(launched)
    requires forall i :: 0 <= i < |live| ==> CheckRun(live[i].check) !in launched
    ensures Exclusive(live + LaunchedLive(launched))
  {
    LaunchedAreNew(launched);
  }

  /** Nothing about a check has changed, but that it may have been announced. */
  predicate SameOrAnnounced(before: Option<Condition>, after: Option<Condition>) {
    after == before || (before.None? && after.Some? && NotStarted(after))
  }

  lemma KeptChecks(s: Status, s': Status, touched: set<CondType>, t: CheckType)
    requires Kept(s, s', touched) && Check(t) !in touched
    ensures SameOrAnnounced(CheckCond(s, t), CheckCond(s', t))
  {
  }

  /** The step declares the object finished and removes the check conditions. */
  predicate Removes(s: State, step: Step) {
    step.Reconcile? && Decide(s.status, step.required).DeclareFinished?
  }

  /** Whatever is decided, if it is not to launch checks, then none is launched; and unless the check conditions are
      removed, no check is touched. */
  lemma OtherDecisions(e: Effect, required: set<CheckType>, duration: nat, parallel: bool)
    requires CarriedOut(e, required, duration, parallel) && !Decide(e.before, required).LaunchChecks?
    ensures LaunchedLive(e.launched) == []
    ensures if Decide(e.before, required).DeclareFinished?
            then FinishedTrue(e.after) && forall t :: CheckCond(e.after, t).None?
            else forall t :: SameOrAnnounced(CheckCond(e.before, t), CheckCond(e.after, t))
    ensures FinishedTrue(e.before) ==> e.after == e.before
  {
    var d := Decide(e.before, required);
    assert [FinalRun][..0] == [] && [BaselineRun(false), BaselineRun(true)][..1] == [BaselineRun(false)];
    assert [BaselineRun(false)][..0] == [];
    if !d.AlreadyFinished? && !d.DeclareFinished? {
      var touched := CONCLUSIONS + {FinalCheck, Baseline};
      KeptMore(e.before, e.after,
               match d
               case AwaitFinal => CONCLUSIONS + {FinalCheck}
               case LaunchFinal => CONCLUSIONS
               case DeclareFinalFailed => CONCLUSIONS
               case AwaitBaseline => {Baseline}
               case NothingToDo => {}
               case _ => {Finished}, touched);
      forall t
        ensures SameOrAnnounced(CheckCond(e.before, t), CheckCond(e.after, t))
      {
        KeptChecks(e.before, e.after, touched, t);
      }
    }
  }

  /** A check that is due is idle, or its recording is overdue. */
  lemma DueIsIdleOrOverdue(s: Status, t: CheckType, now: nat, duration: nat)
    requires Shaped(s) && IsDue(s, t, now, duration)
    ensures Idle(CheckCond(s, t)) ||
            (InRecording(CheckCond(s, t)) && now > CheckCond(s, t).value.since + duration + 60_000_000_000)
  {
    assert InShape(CheckCond(s, t));
  }

  /** The condition of a launched check: an overdue recording has been overruled, otherwise it is as before, or
      newly announced. */
  predicate Relaunched(before: Option<Condition>, after: Option<Condition>) {
    after.Some? && (if InRecording(before) then ToRetry(after) else Idle(after) && SameOrAnnounced(before, after))
  }

  /** The decision to launch checks: the launched ones were due and are idle now, the others are as before. */
  lemma LaunchDecision(e: Effect, required: set<CheckType>, duration: nat, parallel: bool)
    requires CarriedOut(e, required, duration, parallel) && Decide(e.before, required).LaunchChecks? && Shaped(e.before)
    ensures NoDuplicates(e.launched)
    ensures forall t :: CheckRun(t) in e.launched ==>
      IsDue(e.before, t, e.to, duration) && Relaunched(CheckCond(e.before, t), CheckCond(e.after, t))
    ensures forall t :: CheckRun(t) !in e.launched ==> SameOrAnnounced(CheckCond(e.before, t), CheckCond(e.after, t))
  {
    var s, s', touched := e.before, e.after, {Finished} + Overruled(e.before, e.launched);
    assert ChecksLaunched(s, s', e.launched, required, e.from, e.to, duration, parallel);
    forall t
      ensures CheckRun(t) in e.launched ==> IsDue(s, t, e.to, duration) && Relaunched(CheckCond(s, t), CheckCond(s', t))
      ensures CheckRun(t) !in e.launched ==> SameOrAnnounced(CheckCond(s, t), CheckCond(s', t))
    {
      if CheckRun(t) !in e.launched {
        KeptChecks(s, s', touched, t);
      } else {
        assert IsDue(s, t, e.to, duration);
        DueIsIdleOrOverdue(s, t, e.to, duration);
        if CheckInProgress(s, t) {
          assert Says(s', Check(t), Unknown, Requeue);
        } else {
          KeptChecks(s, s', touched, t);
          assert t in required && Check(t) in s'.conditions;
        }
      }
    }
  }

  /** A check that is being recorded is overruled and launched again exactly if its recording is older than the
      duration plus one minute; otherwise it is left as it is. So a recording of exactly that age is left alone, and
      one nanosecond later it is overruled. */
  lemma LeaseRunsOut(e: Effect, required: set<CheckType>, duration: nat, t: CheckType, since: nat)
    requires CarriedOut(e, required, duration, true) && Decide(e.before, required).LaunchChecks? && Shaped(e.before)
    requires e.from == e.to && t in required && CheckCond(e.before, t) == Some(Condition(False, CheckRecording, since))
    ensures CheckRun(t) in e.launched <==> e.to > since + duration + 60_000_000_000
    ensures if e.to > since + duration + 60_000_000_000
            then CheckCond(e.after, t).Some? && CheckCond(e.after, t).value.status == Unknown &&
                 CheckCond(e.after, t).value.reason == Requeue
            else CheckCond(e.after, t) == CheckCond(e.before, t)
  {
    LaunchDecision(e, required, duration, true);
    assert IsDue(e.before, t, e.to, duration) <==> e.to > since + duration + 60_000_000_000;
  }

  /** Where the conditions are the same or newly announced, leases stay as they are. */
  lemma LeasesStay(s: Status, s': Status, l: Live, now: nat, duration: nat)
    requires SameOrAnnounced(CheckCond(s, l.check), CheckCond(s', l.check)) && Leased(s, l, now, duration)
    requires FinishedTrue(s) ==> FinishedTrue(s') && CheckCond(s', l.check) == CheckCond(s, l.check)
    ensures Leased(s', l, now, duration)
  {
  }

  lemma OtherDecisionsKeepLeases(s: State, step: Step, a: Assumptions, duration: nat, parallel: bool)
    requires Inv(s, duration) && step.Reconcile? && Enabled(s, step, a, duration, parallel)
    requires !Decide(s.status, step.required).LaunchChecks?
    ensures Inv(After(s, step, a, duration, parallel), duration)
  {
    OtherDecisions(EffectOf(s, step), step.required, duration, parallel);
    assert s.live + [] == s.live;
    if !Removes(s, step) {
      forall i | 0 <= i < |s.live|
        ensures Leased(step.after, s.live[i], s.now, duration)
      {
        LeasesStay(s.status, step.after, s.live[i], s.now, duration);
      }
      forall t
        ensures InShape(CheckCond(step.after, t))
      {
        assert InShape(CheckCond(s.status, t)) && SameOrAnnounced(CheckCond(s.status, t), CheckCond(step.after, t));
      }
    }
  }

  /** No launched check is live: its runner would have a lease. */
  lemma LaunchedWereNotLive(s: State, step: Step, a: Assumptions, duration: nat, parallel: bool)
    requires Inv(s, duration) && step.Reconcile? && a.prompt && Enabled(s, step, a, duration, parallel)
    requires Decide(s.status, step.required).LaunchChecks?
    ensures forall i :: 0 <= i < |s.live| ==> CheckRun(s.live[i].check) !in step.launched
  {
    LaunchDecision(EffectOf(s, step), step.required, duration, parallel);
    forall i | 0 <= i < |s.live|
      ensures CheckRun(s.live[i].check) !in step.launched
    {
      var t := s.live[i].check;
      assert s.live[i].recording && Leased(s.status, s.live[i], s.now, duration);
      if CheckRun(t) in step.launched { DueIsIdleOrOverdue(s.status, t, s.now, duration); }
    }
  }

  lemma LaunchedGetLeases(s: State, step: Step, a: Assumptions, duration: nat, parallel: bool, l: Live)
    requires Inv(s, duration) && step.Reconcile? && a.prompt && Enabled(s, step, a, duration, parallel)
    requires Decide(s.status, step.required).LaunchChecks?
    requires if l.recording then l in s.live else CheckRun(l.check) in step.launched
    ensures Leased(step.after, l, s.now, duration)
  {
    LaunchDecision(EffectOf(s, step), step.required, duration, parallel);
    if l.recording {
      LaunchedWereNotLive(s, step, a, duration, parallel);
      LeasesStay(s.status, step.after, l, s.now, duration);
    } else {
      assert InShape(CheckCond(s.status, l.check));
    }
  }

  lemma LaunchingKeepsShape(s: State, step: Step, a: Assumptions, duration: nat, parallel: bool)
    requires Inv(s, duration) && step.Reconcile? && Enabled(s, step, a, duration, parallel)
    requires Decide(s.status, step.required).LaunchChecks?
    ensures Shaped(step.after)
  {
    LaunchDecision(EffectOf(s, step), step.required, duration, parallel);
    forall t
      ensures InShape(CheckCond(step.after, t))
    {
      assert InShape(CheckCond(s.status, t));
      if CheckRun(t) !in step.launched {
        assert SameOrAnnounced(CheckCond(s.status, t), CheckCond(step.after, t));
      }
    }
  }

  lemma LaunchedOnce(s: State, step: Step, a: Assumptions, duration: nat, parallel: bool)
    requires Inv(s, duration) && step.Reconcile? && Enabled(s, step, a, duration, parallel)
    requires Decide(s.status, step.required).LaunchChecks?
    ensures NoDuplicates(step.launched)
  {
    LaunchDecision(EffectOf(s, step), step.required, duration, parallel);
  }

  lemma AllGetLeases(s: State, step: Step, a: Assumptions, duration: nat, parallel: bool)
    requires Inv(s, duration) && step.Reconcile? && a.prompt && Enabled(s, step, a, duration, parallel)
    requires Decide(s.status, step.required).LaunchChecks?
    ensures Exclusive(s.live + LaunchedLive(step.launched))
    ensures forall l :: l in s.live + LaunchedLive(step.launched) ==> Leased(step.after, l, s.now, duration)
  {
    LaunchedOnce(s, step, a, duration, parallel);
    LaunchedWereNotLive(s, step, a, duration, parallel);
    ExclusiveTogether(s.live, step.launched);
    LaunchedAreNew(step.launched);
    forall l | l in s.live + LaunchedLive(step.launched)
      ensures Leased(step.after, l, s.now, duration)
    {
      LaunchedGetLeases(s, step, a, duration, parallel, l);
    }
  }

  lemma LaunchingKeepsLeases(s: State, step: Step, a: Assumptions, duration: nat, parallel: bool)
    requires Inv(s, duration) && step.Reconcile? && a.prompt && Enabled(s, step, a, duration, parallel)
    requires Decide(s.status, step.required).LaunchChecks?
    ensures Inv(After(s, step, a, duration, parallel), duration)
  {
    LaunchingKeepsShape(s, step, a, duration, parallel);
    AllGetLeases(s, step, a, duration, parallel);
  }

  /** Writing one check's condition leaves the others and the Finished condition alone. */
  lemma WritingOne(s: State, t: CheckType, status: CondStatus, reason: Reason)
    ensures var s' := Written(s, t, status, reason);
            FinishedTrue(s') == FinishedTrue(s.status) &&
            (forall u :: u != t ==> CheckCond(s', u) == CheckCond(s.status, u)) &&
            CheckCond(s', t).Some? && CheckCond(s', t).value.status == status &&
            CheckCond(s', t).value.reason == reason &&
            (CheckCond(s', t).value.since == s.now ||
             (CheckCond(s.status, t).Some? && CheckCond(s.status, t).value.status == status &&
              CheckCond(s', t).value.since == CheckCond(s.status, t).value.since))
  {
  }

  lemma WithoutOne(live: seq<Live>, i: nat)
    requires i < |live| && Exclusive(live)
    ensures Exclusive(Without(live, i))
    ensures forall j :: 0 <= j < |live| - 1 ==>
      Without(live, i)[j] == live[if j < i then j else j + 1] && Without(live, i)[j].check != live[i].check
  {
    forall j | 0 <= j < |live| - 1
      ensures Without(live, i)[j] == live[if j < i then j else j + 1] && Without(live, i)[j].check != live[i].check
    {
      if j < i { assert live[j].check != live[i].check; } else { assert live[i].check != live[j + 1].check; }
    }
  }

  lemma LeasesOfOthers(s: State, t: CheckType, status: CondStatus, reason: Reason, l: Live, duration: nat)
    requires l.check != t && Leased(s.status, l, s.now, duration)
    ensures Leased(Written(s, t, status, reason), l, s.now, duration)
  {
    WritingOne(s, t, status, reason);
  }

  lemma BeginKeepsLeases(s: State, i: nat, duration: nat)
    requires Inv(s, duration) && i < |s.live|
    ensures Inv(s.(status := Written(s, s.live[i].check, False, CheckRecording),
                   live := s.live[i := s.live[i].(recording := true)]), duration)
  {
    var t := s.live[i].check;
    WritingOne(s, t, False, CheckRecording);
    assert Leased(s.status, s.live[i], s.now, duration);
    forall j | 0 <= j < |s.live| && j != i
      ensures Leased(Written(s, t, False, CheckRecording), s.live[j], s.now, duration)
    {
      assert Leased(s.status, s.live[j], s.now, duration);
      LeasesOfOthers(s, t, False, CheckRecording, s.live[j], duration);
    }
    ShapeAfterWriting(s, t, False, CheckRecording);
  }

  lemma ShapeAfterWriting(s: State, t: CheckType, status: CondStatus, reason: Reason)
    requires Shaped(s.status)
    requires (status == False && reason == CheckRecording) || (status == Unknown && reason == CheckRecordingFailed) ||
             (status == True && reason in {CheckRecordingFinished, CheckRecordingFailed})
    ensures Shaped(Written(s, t, status, reason))
  {
    WritingOne(s, t, status, reason);
    forall u
      ensures InShape(CheckCond(Written(s, t, status, reason), u))
    {
      if u != t { assert InShape(CheckCond(s.status, u)); }
    }
  }

  lemma EndKeepsLeases(s: State, i: nat, status: CondStatus, reason: Reason, duration: nat)
    requires Inv(s, duration) && i < |s.live|
    requires (status == Unknown && reason == CheckRecordingFailed) ||
             (status == True && reason in {CheckRecordingFinished, CheckRecordingFailed})
    ensures Inv(s.(status := Written(s, s.live[i].check, status, reason), live := Without(s.live, i)), duration)
  {
    var t, rest := s.live[i].check, Without(s.live, i);
    WithoutOne(s.live, i);
    ShapeAfterWriting(s, t, status, reason);
    forall j | 0 <= j < |rest|
      ensures Leased(Written(s, t, status, reason), rest[j], s.now, duration)
    {
      LeasesOfOthers(s, t, status, reason, s.live[if j < i then j else j + 1], duration);
    }
  }

  lemma ExitKeepsLeases(s: State, i: nat, duration: nat)
    requires Inv(s, duration) && i < |s.live|
    ensures Inv(s.(live := Without(s.live, i)), duration)
  {
    WithoutOne(s.live, i);
  }

  lemma ElsewhereKeepsLeases(s: State, after: Status, duration: nat)
    requires Inv(s, duration) && CondIn(after, Finished) == CondIn(s.status, Finished)
    requires forall t :: CheckCond(after, t) == CheckCond(s.status, t)
    ensures Inv(s.(status := after), duration)
  {
    forall i | 0 <= i < |s.live|
      ensures Leased(after, s.live[i], s.now, duration)
    {
      assert FinishedTrue(after) == FinishedTrue(s.status);
      LeasesStay(s.status, after, s.live[i], s.now, duration);
    }
    forall t
      ensures InShape(CheckCond(after, t))
    {
      assert InShape(CheckCond(s.status, t));
    }
  }

  lemma TickKeepsLeases(s: State, passed: nat, duration: nat)
    requires Inv(s, duration) && forall i :: 0 <= i < |s.live| ==> InTime(s.status, s.live[i], s.now + passed, duration)
    ensures Inv(s.(now := s.now + passed), duration)
  {
  }

  /** Every step of a reliable run keeps the leases. */
  lemma StepKeepsLeases(s: State, step: Step, duration: nat, parallel: bool)
    requires Inv(s, duration) && Enabled(s, step, RELIABLE, duration, parallel)
    ensures Inv(After(s, step, RELIABLE, duration, parallel), duration)
  {
    match step
    case Reconcile(_, _, _, _, required) =>
      if Decide(s.status, required).LaunchChecks? {
        LaunchingKeepsLeases(s, step, RELIABLE, duration, parallel);
      } else {
        OtherDecisionsKeepLeases(s, step, RELIABLE, duration, parallel);
      }
    case Begin(i) => BeginKeepsLeases(s, i, duration);
    case Fail(i) => EndKeepsLeases(s, i, Unknown, CheckRecordingFailed, duration);
    case Finish(i, reason) => EndKeepsLeases(s, i, True, reason, duration);
    case Exit(i) => ExitKeepsLeases(s, i, duration);
    case TimeOut(i) =>
    case Elsewhere(after) => ElsewhereKeepsLeases(s, after, duration);
    case Tick(passed) => TickKeepsLeases(s, passed, duration);
  }

  // ---------- whole runs ----------

  predicate Leads(s: State, step: Step, s': State, a: Assumptions, duration: nat, parallel: bool) {
    Enabled(s, step, a, duration, parallel) && s' == After(s, step, a, duration, parallel)
  }

  ghost predicate IsRun(states: seq<State>, steps: seq<Step>, a: Assumptions, duration: nat, parallel: bool) {
    |states| == |steps| + 1 && states[0] == INIT &&
    forall i {:trigger steps[i]} :: 0 <= i < |steps| ==>
      Leads(states[i], steps[i], states[i + 1], a, duration, parallel)
  }

  /** In a reliable run there is never more than one live runner for a check. */
  lemma {:induction false} LeasesHold(states: seq<State>, steps: seq<Step>, duration: nat, parallel: bool, n: nat)
    requires IsRun(states, steps, RELIABLE, duration, parallel) && n < |states|
    ensures Inv(states[n], duration) && Exclusive(states[n].live)
  {
    if n > 0 {
      LeasesHold(states, steps, duration, parallel, n - 1);
      StepKeepsLeases(states[n - 1], steps[n - 1], duration, parallel);
    }
  }

  /** The edges of the diagram: a check is announced; it begins, for the first time or again; its recording ends, or
      is to be retried. */
  predicate Moves(before: Option<Condition>, after: Option<Condition>) {
    after == before ||
    (before.None? && NotStarted(after)) ||
    (before.Some? && Idle(before) && InRecording(after)) ||
    (InRecording(before) && (ToRetry(after) || IsDone(after)))
  }

  lemma WritingMoves(s: State, i: nat, status: CondStatus, reason: Reason, t: CheckType, duration: nat)
    requires Inv(s, duration) && i < |s.live| && !(FinishedTrue(s.status) && CheckCond(s.status, t).None?)
    requires if status == False then reason == CheckRecording
             else if status == Unknown then s.live[i].recording && reason == CheckRecordingFailed
             else s.live[i].recording && reason in {CheckRecordingFinished, CheckRecordingFailed}
    ensures Moves(CheckCond(s.status, t), CheckCond(Written(s, s.live[i].check, status, reason), t))
  {
    WritingOne(s, s.live[i].check, status, reason);
    assert Leased(s.status, s.live[i], s.now, duration);
    assert InShape(CheckCond(s.status, t));
  }

  lemma ReconcileMoves(s: State, step: Step, t: CheckType, a: Assumptions, duration: nat, parallel: bool)
    requires Inv(s, duration) && step.Reconcile? && Enabled(s, step, a, duration, parallel) && !Removes(s, step)
    ensures Moves(CheckCond(s.status, t), CheckCond(step.after, t))
  {
    assert InShape(CheckCond(s.status, t));
    if Decide(s.status, step.required).LaunchChecks? {
      LaunchDecision(EffectOf(s, step), step.required, duration, parallel);
      if CheckRun(t) !in step.launched {
        assert SameOrAnnounced(CheckCond(s.status, t), CheckCond(step.after, t));
      }
    } else {
      OtherDecisions(EffectOf(s, step), step.required, duration, parallel);
      assert SameOrAnnounced(CheckCond(s.status, t), CheckCond(step.after, t));
    }
  }

  /** The condition of a check moves along the edges of its state diagram and no others, until it is removed. */
  lemma ConditionsMove(s: State, step: Step, t: CheckType, duration: nat, parallel: bool)
    requires Inv(s, duration) && Enabled(s, step, RELIABLE, duration, parallel)
    requires !(FinishedTrue(s.status) && CheckCond(s.status, t).None?)
    ensures var after := CheckCond(After(s, step, RELIABLE, duration, parallel).status, t);
            if Removes(s, step) then after.None? else Moves(CheckCond(s.status, t), after)
  {
    match step
    case Reconcile(_, _, _, _, required) =>
      if Removes(s, step) {
        OtherDecisions(EffectOf(s, step), required, duration, parallel);
      } else {
        ReconcileMoves(s, step, t, RELIABLE, duration, parallel);
      }
    case Begin(i) => WritingMoves(s, i, False, CheckRecording, t, duration);
    case Fail(i) => WritingMoves(s, i, Unknown, CheckRecordingFailed, t, duration);
    case Finish(i, reason) => WritingMoves(s, i, True, reason, t, duration);
    case Elsewhere(after) => assert CheckCond(after, t) == CheckCond(s.status, t);
    case _ =>
  }

  lemma DoneStaysOnce(s: State, step: Step, t: CheckType, c: Condition, duration: nat, parallel: bool)
    requires Inv(s, duration) && Enabled(s, step, RELIABLE, duration, parallel) && !Removes(s, step)
    requires IsDone(Some(c)) && CheckCond(s.status, t) == Some(c)
    ensures CheckCond(After(s, step, RELIABLE, duration, parallel).status, t) == Some(c)
  {
    hide Inv, Enabled, After;
    ConditionsMove(s, step, t, duration, parallel);
  }

  /** A check that is done stays so, unchanged, until the check conditions are removed. */
  lemma {:induction false} DoneStays(states: seq<State>, steps: seq<Step>, duration: nat, parallel: bool, i: nat,
                                     j: nat,
                                     t: CheckType, c: Condition)
    requires IsRun(states, steps, RELIABLE, duration, parallel) && i <= j < |states|
    requires IsDone(Some(c)) && CheckCond(states[i].status, t) == Some(c)
    ensures CheckCond(states[j].status, t) == Some(c) || exists k :: i <= k < j && Removes(states[k], steps[k])
  {
    hide Inv, Enabled, After, CheckCond, IsDone;
    if i < j {
      DoneStays(states, steps, duration, parallel, i, j - 1, t, c);
      LeasesHold(states, steps, duration, parallel, j - 1);
      assert Leads(states[j - 1], steps[j - 1], states[j], RELIABLE, duration, parallel);
      if CheckCond(states[j - 1].status, t) == Some(c) && !Removes(states[j - 1], steps[j - 1]) {
        DoneStaysOnce(states[j - 1], steps[j - 1], t, c, duration, parallel);
      }
    }
  }

  // ---------- every assumption is needed ----------

  const STARTED := NO_STATUS.(conditions := map[Baseline := Condition(True, BaselineRecordingFinished, 0)])
  const LAUNCHED := STARTED.(conditions := STARTED.conditions[Finished := Condition(False, CheckRecording, 0)]
                                                             [Check(User) := Condition(Unknown, CheckNotStarted, 0)])

  const WAITING := State(LAUNCHED, [Live(User, false)], 0)

  function WithUser(c: Condition): Status {
    LAUNCHED.(conditions := LAUNCHED.conditions[Check(User) := c])
  }

  function LaunchOfUser(after: Status, duration: nat): Step {
    Reconcile(after, Findings(map[], Recommended(EMPTY_POD, EMPTY_LISTED)), [CheckRun(User)],
              Requeued(duration + MARGIN), {User})
  }

  lemma BaselineFirst(a: Assumptions, duration: nat, parallel: bool)
    ensures Leads(INIT, Elsewhere(STARTED), State(STARTED, [], 0), a, duration, parallel)
  {
  }

  lemma UserIsDueFirst(duration: nat)
    ensures Decide(STARTED, {User}) == LaunchChecks && IsDue(STARTED, User, 0, duration)
    ensures !CheckInProgress(STARTED, User)
  {
  }

  lemma FirstLaunch(a: Assumptions, duration: nat, parallel: bool)
    ensures Leads(State(STARTED, [], 0), LaunchOfUser(LAUNCHED, duration), WAITING, a, duration, parallel)
  {
    hide Decide, IsDue, CheckInProgress;
    assert [CheckRun(User)][..0] == [];
    UserIsDueFirst(duration);
    assert Overruled(STARTED, [CheckRun(User)]) == {};
  }

  predicate AwaitsUser(s: Status) {
    Check(User) in s.conditions && s.conditions[Check(User)].status != True && s == WithUser(s.conditions[Check(User)])
  }

  lemma DecidesToLaunch(s: Status)
    requires AwaitsUser(s)
    ensures Decide(s, {User}) == LaunchChecks && Says(s, Finished, False, CheckRecording)
  {
  }

  /** Later on the user check is launched again whenever it is due. */
  lemma LaunchedAgain(s: Status, live: seq<Live>, now: nat, a: Assumptions, duration: nat, parallel: bool)
    returns (after: Status)
    requires AwaitsUser(s) && IsDue(s, User, now, duration)
    requires a.prompt ==> forall i :: 0 <= i < |live| ==> live[i].recording
    ensures Leads(State(s, live, now), LaunchOfUser(after, duration), State(after, live + [Live(User, false)], now),
                  a, duration, parallel)
  {
    var launched := [CheckRun(User)];
    after := s;
    if CheckInProgress(s, User) {
      after := s.(conditions := s.conditions[Check(User) := Condition(Unknown, Requeue, now)]);
    }
    DecidesToLaunch(s);
    assert CheckRun(User) in launched;
    assert CheckInProgress(s, User) ==> Check(User) in Overruled(s, launched);
    assert ChecksPhase(s, after, Requeued(duration + MARGIN), launched, {User}, now, now, duration, parallel);
    assert launched[..0] == [];
  }

  lemma UserBegins(a: Assumptions, duration: nat, parallel: bool)
    ensures Leads(WAITING, Begin(0), State(WithUser(Condition(False, CheckRecording, 0)), [Live(User, true)], 0),
                  a, duration, parallel)
  {
  }

  lemma UserTimesOut(a: Assumptions, duration: nat, parallel: bool)
    requires !a.patient
    ensures Leads(State(WithUser(Condition(False, CheckRecording, 0)), [Live(User, true)], 0), TimeOut(0),
                  State(WithUser(Condition(Unknown, CheckRecordingFailed, 0)), [Live(User, true)], 0),
                  a, duration, parallel)
  {
    var before, failed := WithUser(Condition(False, CheckRecording, 0)), Condition(Unknown, CheckRecordingFailed, 0);
    assert WithUser(failed).conditions == before.conditions[Check(User) := failed];
  }

  lemma UserIsLate(late: nat, a: Assumptions, duration: nat, parallel: bool)
    requires !a.punctual
    ensures var s := WithUser(Condition(False, CheckRecording, 0));
            Leads(State(s, [Live(User, true)], 0), Tick(late), State(s, [Live(User, true)], late),
                  a, duration, parallel)
  {
  }

  lemma RunGrows(states: seq<State>, steps: seq<Step>, step: Step, s: State, a: Assumptions,
                 duration: nat, parallel: bool)
    requires IsRun(states, steps, a, duration, parallel)
    requires Leads(states[|states| - 1], step, s, a, duration, parallel)
    ensures IsRun(states + [s], steps + [step], a, duration, parallel)
  {
    var states', steps' := states + [s], steps + [step];
    forall i | 0 <= i < |steps'|
      ensures Leads(states'[i], steps'[i], states'[i + 1], a, duration, parallel)
    {
      if i < |steps| { assert steps'[i] == steps[i]; }
    }
  }

  /** The user check has been launched; its runner has written nothing yet. */
  lemma UserIsLaunched(a: Assumptions, duration: nat, parallel: bool) returns (states: seq<State>, steps: seq<Step>)
    ensures IsRun(states, steps, a, duration, parallel) && states[|states| - 1] == WAITING
  {
    BaselineFirst(a, duration, parallel);
    FirstLaunch(a, duration, parallel);
    steps := [Elsewhere(STARTED), LaunchOfUser(LAUNCHED, duration)];
    states := [INIT, State(STARTED, [], 0), WAITING];
  }

  /** Its runner has begun to record. */
  lemma UserIsRecording(a: Assumptions, duration: nat, parallel: bool) returns (states: seq<State>, steps: seq<Step>)
    ensures IsRun(states, steps, a, duration, parallel)
    ensures states[|states| - 1] == State(WithUser(Condition(False, CheckRecording, 0)), [Live(User, true)], 0)
  {
    states, steps := UserIsLaunched(a, duration, parallel);
    var s := State(WithUser(Condition(False, CheckRecording, 0)), [Live(User, true)], 0);
    UserBegins(a, duration, parallel);
    RunGrows(states, steps, Begin(0), s, a, duration, parallel);
    states, steps := states + [s], steps + [Begin(0)];
  }

  /** When the user check is due although its runner is live, a second one is launched. */
  lemma UserIsJoined(states: seq<State>, steps: seq<Step>, live: Live, a: Assumptions, duration: nat, parallel: bool)
    returns (states': seq<State>, steps': seq<Step>)
    requires IsRun(states, steps, a, duration, parallel) && live.check == User
    requires var s := states[|states| - 1];
             s.live == [live] && AwaitsUser(s.status) && IsDue(s.status, User, s.now, duration) &&
             (a.prompt ==> live.recording)
    ensures IsRun(states', steps', a, duration, parallel) && !Exclusive(states'[|states'| - 1].live)
    ensures |states'| == |states| + 1 && states'[|states| - 1] == states[|states| - 1]
  {
    var s := states[|states| - 1];
    var after := LaunchedAgain(s.status, s.live, s.now, a, duration, parallel);
    var next := State(after, s.live + [Live(User, false)], s.now);
    RunGrows(states, steps, LaunchOfUser(after, duration), next, a, duration, parallel);
    states', steps' := states + [next], steps + [LaunchOfUser(after, duration)];
    assert next.live[0].check == next.live[1].check;
  }

  lemma PromptnessIsNeeded(a: Assumptions, duration: nat, parallel: bool) returns (states: seq<State>, steps: seq<Step>)
    requires !a.prompt
    ensures IsRun(states, steps, a, duration, parallel) && !Exclusive(states[|states| - 1].live)
  {
    states, steps := UserIsLaunched(a, duration, parallel);
    states, steps := UserIsJoined(states, steps, Live(User, false), a, duration, parallel);
  }

  lemma PatienceIsNeeded(a: Assumptions, duration: nat, parallel: bool) returns (states: seq<State>, steps: seq<Step>)
    requires !a.patient
    ensures IsRun(states, steps, a, duration, parallel) && !Exclusive(states[|states| - 1].live)
  {
    states, steps := UserIsRecording(a, duration, parallel);
    var s := State(WithUser(Condition(Unknown, CheckRecordingFailed, 0)), [Live(User, true)], 0);
    UserTimesOut(a, duration, parallel);
    RunGrows(states, steps, TimeOut(0), s, a, duration, parallel);
    states, steps := UserIsJoined(states + [s], steps + [TimeOut(0)], Live(User, true), a, duration, parallel);
  }

  /** A single runner that has recorded for one nanosecond more than the duration plus one minute. */
  lemma PunctualityIsNeeded(a: Assumptions, duration: nat, parallel: bool)
    returns (states: seq<State>, steps: seq<Step>)
    requires !a.punctual
    ensures IsRun(states, steps, a, duration, parallel) && !Exclusive(states[|states| - 1].live)
    ensures |states| >= 2 && var s := states[|states| - 2];
            s.live == [Live(User, true)] && CheckCond(s.status, User) == Some(Condition(False, CheckRecording, 0)) &&
            s.now == duration + 60_000_000_000 + 1
  {
    states, steps := UserIsRecording(a, duration, parallel);
    var late := duration + 60_000_000_000 + 1;
    var s := State(WithUser(Condition(False, CheckRecording, 0)), [Live(User, true)], late);
    UserIsLate(late, a, duration, parallel);
    RunGrows(states, steps, Tick(late), s, a, duration, parallel);
    states, steps := UserIsJoined(states + [s], steps + [Tick(late)], Live(User, true), a, duration, parallel);
  }

  /** Exclusion holds in all runs exactly if all three assumptions do. */
  lemma ExclusionExactly(a: Assumptions, duration: nat, parallel: bool)
    ensures a == RELIABLE <==>
            forall states: seq<State>, steps: seq<Step> :: IsRun(states, steps, a, duration, parallel) ==>
              Exclusive(states[|states| - 1].live)
  {
    if a == RELIABLE {
      forall states: seq<State>, steps: seq<Step> | IsRun(states, steps, a, duration, parallel)
        ensures Exclusive(states[|states| - 1].live)
      {
        LeasesHold(states, steps, duration, parallel, |states| - 1);
      }
    } else {
      var states: seq<State>, steps: seq<Step>;
      if !a.prompt { states, steps := PromptnessIsNeeded(a, duration, parallel); }
      else if !a.patient { states, steps := PatienceIsNeeded(a, duration, parallel); }
      else { states, steps := PunctualityIsNeeded(a, duration, parallel); }
    }
  }
}
