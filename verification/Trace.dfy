/** Everything that happens to one hardening check, as a trace of events, and what every trace keeps.

    The reconciler and any number of runners commit mutations to the stored status in some order. `Allowed`
    says what each of them may do next; the classes of this project are proved to do nothing else, whatever
    the others do in between. */
module Trace {
  import opened Prelude
  import opened SecurityContexts
  import opened Checks
  import opened HardeningStatus
  import R = Recommendation

  datatype Actor = Reconciler | Runner(id: nat) | Operator

  /** The middle five mark places in the reconciler's program. */
  datatype Event =
      // a runner goroutine is started
    | Launch(id: nat, kind: Kind, context: Option<Defaults>)
      // a runner stores its recording
    | Store(id: nat, kind: Kind, recording: R.Recording)
      // a status update is accepted
    | Commit(actor: Actor, mutation: Mutation)
      // the template has been read for the required checks, or could not be
    | Survey(found: Option<set<CheckType>>)
      // the baseline and all checks found by the survey were recorded
    | Verdict
      // the runs listed at some position have been judged
    | Compare(at: nat, verdicts: map<CheckType, R.Run>)
      // the analysis returned without an error
    | Analyzed
      // the successful runs have been folded onto the template
    | Choose(recommended: Recommended, order: seq<CheckType>)
      // the workload's template is changed
    | Edit(podContext: Option<PodContext>, containers: seq<Container>)

  function ActorOf(e: Event): Actor {
    match e
    case Launch(_, _, _) => Reconciler
    case Store(id, _, _) => Runner(id)
    case Commit(actor, _) => actor
    case Survey(_) => Reconciler
    case Verdict => Reconciler
    case Compare(_, _) => Reconciler
    case Analyzed => Reconciler
    case Choose(_, _) => Reconciler
    case Edit(_, _) => Operator
  }

  // ---------- the state a trace leaves behind ----------

  function Step(s: Status, e: Event): Status {
    if e.Commit? then Apply(e.mutation, s) else s
  }

  /** The committed mutations, applied one after another in commit order. */
  function StatusAt(tr: seq<Event>): Status {
    if tr == [] then NO_STATUS else Step(StatusAt(tr[..|tr| - 1]), tr[|tr| - 1])
  }

  function RecordingsAt(tr: seq<Event>): map<Kind, R.Recording> {
    if tr == [] then map[]
    else
      var before, e := RecordingsAt(tr[..|tr| - 1]), tr[|tr| - 1];
      if e.Store? then before[e.kind := e.recording] else before
  }

  /** The template is that of the last edit; the first edit creates it. */
  function TemplateAt(tr: seq<Event>): Template {
    if tr == [] then Template(None, [], [])
    else if tr[|tr| - 1].Edit? then Template(tr[|tr| - 1].podContext, ViewAll(tr[|tr| - 1].containers), [])
    else TemplateAt(tr[..|tr| - 1])
  }

  /** How far the reconciler has come on the way from a survey to a recommendation. */
  datatype Progress =
    | Resting
    | HasSurveyed(found: Option<set<CheckType>>)
    | HasJudged(found: Option<set<CheckType>>)
    | HasCompared(verdicts: map<CheckType, R.Run>)
    | HasAnalyzed(verdicts: map<CheckType, R.Run>)
    | HasChosen(recommended: Recommended)

  function Onwards(p: Progress, e: Event): Progress {
    match e
    case Survey(found) => HasSurveyed(found)
    case Verdict => if p.HasSurveyed? then HasJudged(p.found) else p
    case Compare(_, verdicts) => HasCompared(verdicts)
    case Analyzed => if p.HasCompared? then HasAnalyzed(p.verdicts) else p
    case Choose(recommended, _) => HasChosen(recommended)
    case _ => p
  }

  function ProgressAt(tr: seq<Event>): Progress {
    if tr == [] then Resting else Onwards(ProgressAt(tr[..|tr| - 1]), tr[|tr| - 1])
  }

  /** A survey that could not read the template found nothing. */
  function Found(found: Option<set<CheckType>>): set<CheckType> {
    if found.None? then {} else found.value
  }

  function OwnEvents(tr: seq<Event>, me: Actor): seq<Event> {
    if tr == [] then []
    else
      OwnEvents(tr[..|tr| - 1], me) + (if ActorOf(tr[|tr| - 1]) == me then [tr[|tr| - 1]] else [])
  }

  predicate EndsWith(tr: seq<Event>, e: Event) {
    tr != [] && tr[|tr| - 1] == e
  }

  /** The last thing that happened is the launch of a runner. */
  predicate LaunchedLast(tr: seq<Event>, kind: Kind, context: Option<Defaults>) {
    tr != [] && tr[|tr| - 1] == Launch(|tr| - 1, kind, context)
  }

  lemma Appended(tr: seq<Event>, e: Event, me: Actor)
    ensures StatusAt(tr + [e]) == Step(StatusAt(tr), e)
    ensures RecordingsAt(tr + [e]) == if e.Store? then RecordingsAt(tr)[e.kind := e.recording] else RecordingsAt(tr)
    ensures OwnEvents(tr + [e], me) == OwnEvents(tr, me) + (if ActorOf(e) == me then [e] else [])
  {
    assert (tr + [e])[..|tr|] == tr;
  }

  // ---------- what has been seen ----------

  predicate Launched(tr: seq<Event>, id: nat, kind: Kind) {
    id < |tr| && tr[id].Launch? && tr[id].id == id && tr[id].kind == kind
  }

  predicate Stores(e: Event, id: nat) {
    e.Store? && e.id == id
  }

  predicate Stored(tr: seq<Event>, id: nat) {
    exists i :: 0 <= i < |tr| && Stores(tr[i], id)
  }

  predicate Puts(e: Event, id: nat) {
    e.Commit? && e.actor == Runner(id) && e.mutation.PutRun?
  }

  predicate HasPut(tr: seq<Event>, id: nat) {
    exists i :: 0 <= i < |tr| && Puts(tr[i], id)
  }

  predicate SetsTrue(e: Event, c: CondType) {
    e.Commit? && e.mutation.SetCond? && e.mutation.ctype == c && e.mutation.status == True
  }

  predicate SeenTrue(tr: seq<Event>, c: CondType) {
    exists i :: 0 <= i < |tr| && SetsTrue(tr[i], c)
  }

  /** The baseline and the given checks have been set True. */
  predicate AllSeen(tr: seq<Event>, checks: set<CheckType>) {
    SeenTrue(tr, Baseline) && forall t :: t in checks ==> SeenTrue(tr, Check(t))
  }

  // ---------- what each actor may do ----------

  /** The context of a check run sets whatever the check sets. */
  predicate Configured(t: CheckType, context: Option<Defaults>) {
    context.Some? && Complete(context.value) && WithDefaults(t, context.value) == context.value
  }

  predicate RunnerMay(tr: seq<Event>, id: nat, m: Mutation)
    requires id < |tr| && tr[id].Launch?
  {
    var kind := tr[id].kind;
    match m
    case SetCond(c, status, reason, _) =>
      c == CondOf(kind) &&
      (match status
       case False => reason == RecordingReason(kind)
       case Unknown => reason == FailedReason(kind)
       case True => reason in {FinishedReason(kind), FailedReason(kind)} && Stored(tr, id))
    case PutRun(k, run) => k == kind && Stored(tr, id) && !HasPut(tr, id) && run.context == tr[id].context
    case _ => false
  }

  predicate ReconcilerMay(tr: seq<Event>, m: Mutation) {
    match m
    case RemoveCheckConditions => FinishedTrue(StatusAt(tr))
    case PutRun(_, _) => false
    case _ =>
      !FinishedTrue(StatusAt(tr)) &&
      match m
      case SetCond(Finished, status, reason, _) =>
        status != Unknown &&
        (status == True && reason == AllFinished ==> StatusAt(tr).recommendation.Some? && SeenTrue(tr, FinalCheck))
      case SetCond(Analysis, status, reason, _) =>
        status == True && reason == AnalysisFinished ==> ProgressAt(tr).HasAnalyzed? || ProgressAt(tr).HasChosen?
      case SetCond(c, status, reason, _) =>
        status == Unknown && (reason == Requeue || (c.Check? && reason == CheckNotStarted))
      case ReplaceRuns(runs) =>
        ProgressAt(tr) == HasCompared(runs) &&
        forall t :: t in runs ==> CheckRun(t) in RecordingsAt(tr) && Configured(t, runs[t].context)
      case SetRecommendation(r) => ProgressAt(tr) == HasChosen(r)
      case _ => false
  }

  predicate May(tr: seq<Event>, me: Actor, m: Mutation) {
    match me
    case Reconciler => ReconcilerMay(tr, m)
    case Runner(id) => id < |tr| && tr[id].Launch? && tr[id].id == id && RunnerMay(tr, id, m)
    case Operator => false
  }

  function Projected(r: Recommended): Defaults {
    R.GetRecommendedSecurityContext(r.pod, r.container)
  }

  predicate Allowed(tr: seq<Event>, e: Event) {
    match e
    case Launch(id, kind, context) =>
      id == |tr| && !FinishedTrue(StatusAt(tr)) &&
      (kind.FinalRun? ==>
         StatusAt(tr).recommendation.Some? && context == Some(Projected(StatusAt(tr).recommendation.value))) &&
      (kind.CheckRun? ==> SeenTrue(tr, Baseline) && Configured(kind.check, context))
    case Store(id, kind, _) => Launched(tr, id, kind)
    case Commit(actor, m) => May(tr, actor, m)
    case Survey(_) => !FinishedTrue(StatusAt(tr))
    case Verdict =>
      !FinishedTrue(StatusAt(tr)) && ProgressAt(tr).HasSurveyed? && AllSeen(tr, Found(ProgressAt(tr).found))
    case Compare(at, _) =>
      !FinishedTrue(StatusAt(tr)) && ProgressAt(tr).HasJudged? && at <= |tr| && ProgressAt(tr[..at]) == ProgressAt(tr)
    case Analyzed => !FinishedTrue(StatusAt(tr)) && ProgressAt(tr).HasCompared?
    case Choose(_, _) => !FinishedTrue(StatusAt(tr)) && ProgressAt(tr).HasAnalyzed?
    case Edit(_, _) => true
  }

  ghost predicate WellFormed(tr: seq<Event>) {
    forall i {:trigger Allowed(tr[..i], tr[i])} :: 0 <= i < |tr| ==> Allowed(tr[..i], tr[i])
  }

  lemma WellFormedGrows(tr: seq<Event>, e: Event)
    requires WellFormed(tr) && Allowed(tr, e)
    ensures WellFormed(tr + [e])
  {
    forall i | 0 <= i < |tr + [e]|
      ensures Allowed((tr + [e])[..i], (tr + [e])[i])
    {
      assert (tr + [e])[..i] == tr[..i];
      if i == |tr| { assert tr[..i] == tr; }
    }
  }

  lemma Committed(tr: seq<Event>, me: Actor, m: Mutation)
    requires WellFormed(tr) && May(tr, me, m)
    ensures WellFormed(tr + [Commit(me, m)])
    ensures StatusAt(tr + [Commit(me, m)]) == Apply(m, StatusAt(tr))
    ensures RecordingsAt(tr + [Commit(me, m)]) == RecordingsAt(tr)
  {
    WellFormedGrows(tr, Commit(me, m));
    Appended(tr, Commit(me, m), me);
  }

  lemma WellFormedPrefix(tr: seq<Event>, n: nat)
    requires WellFormed(tr) && n <= |tr|
    ensures WellFormed(tr[..n])
    ensures n < |tr| ==> Allowed(tr[..n], tr[n]) && tr[..n + 1] == tr[..n] + [tr[n]]
  {
    forall i | 0 <= i < n
      ensures Allowed(tr[..n][..i], tr[..n][i])
    {
      assert tr[..n][..i] == tr[..i];
    }
  }

  // ---------- what others leave alone ----------

  /** The trace has grown, but not by anything of mine. */
  predicate OthersOnly(tr: seq<Event>, tr': seq<Event>, me: Actor) {
    tr <= tr' && forall i :: |tr| <= i < |tr'| ==> ActorOf(tr'[i]) != me
  }

  lemma OthersLeaveOwned(tr: seq<Event>, e: Event)
    requires Allowed(tr, e) && ActorOf(e) != Reconciler
    ensures OwnedOf(StatusAt(tr + [e])) == OwnedOf(StatusAt(tr)) && ProgressAt(tr + [e]) == ProgressAt(tr)
  {
    Appended(tr, e, Reconciler);
    ProgressNext(tr, e);
  }

  lemma MayOneStep(tr: seq<Event>, e: Event, me: Actor, m: Mutation)
    requires Allowed(tr, e) && ActorOf(e) != me && May(tr, me, m)
    ensures May(tr + [e], me, m)
  {
    var tr' := tr + [e];
    Appended(tr, e, me);
    assert forall i :: 0 <= i < |tr| ==> tr'[i] == tr[i];
    assert forall c :: SeenTrue(tr, c) ==> SeenTrue(tr', c) by {
      forall c | SeenTrue(tr, c) ensures SeenTrue(tr', c) {
        var i :| 0 <= i < |tr| && SetsTrue(tr[i], c);
        assert SetsTrue(tr'[i], c);
      }
    }
    if me == Reconciler {
      OthersLeaveOwned(tr, e);
      assert FinishedTrue(StatusAt(tr')) == FinishedTrue(StatusAt(tr)) by {
        assert OwnedOf(StatusAt(tr')).finished == OwnedOf(StatusAt(tr)).finished;
      }
    } else if me.Runner? {
      if Stored(tr, me.id) {
        var i :| 0 <= i < |tr| && Stores(tr[i], me.id);
        assert Stores(tr'[i], me.id);
      }
    }
  }

  lemma ProgressNext(tr: seq<Event>, e: Event)
    ensures ProgressAt(tr + [e]) == Onwards(ProgressAt(tr), e)
    ensures TemplateAt(tr + [e]) ==
            if e.Edit? then Template(e.podContext, ViewAll(e.containers), []) else TemplateAt(tr)
  {
    assert (tr + [e])[..|tr|] == tr;
  }

  lemma {:induction false} MayIsStable(tr: seq<Event>, tr': seq<Event>, me: Actor, m: Mutation)
    requires WellFormed(tr') && OthersOnly(tr, tr', me) && May(tr, me, m)
    ensures May(tr', me, m)
  {
    if |tr'| == |tr| {
      assert tr' == tr;
    } else {
      var n := |tr'| - 1;
      WellFormedPrefix(tr', n);
      MayIsStable(tr, tr'[..n], me, m);
      MayOneStep(tr'[..n], tr'[n], me, m);
      assert tr' == tr'[..n] + [tr'[n]];
    }
  }

  lemma {:induction false} OthersLeave(tr: seq<Event>, tr': seq<Event>, me: Actor)
    requires WellFormed(tr') && OthersOnly(tr, tr', me)
    ensures OwnEvents(tr', me) == OwnEvents(tr, me)
    ensures me == Reconciler ==> OwnedOf(StatusAt(tr')) == OwnedOf(StatusAt(tr)) && ProgressAt(tr') == ProgressAt(tr)
  {
    if |tr'| == |tr| {
      assert tr' == tr;
    } else {
      var n := |tr'| - 1;
      WellFormedPrefix(tr', n);
      OthersLeave(tr, tr'[..n], me);
      Appended(tr'[..n], tr'[n], me);
      if me == Reconciler { OthersLeaveOwned(tr'[..n], tr'[n]); }
      assert tr' == tr'[..n] + [tr'[n]];
    }
  }

  /** What has been seen stays seen. */
  lemma SeenGrows(tr: seq<Event>, tr': seq<Event>)
    requires tr <= tr'
    ensures forall c :: SeenTrue(tr, c) ==> SeenTrue(tr', c)
    ensures forall id :: Stored(tr, id) ==> Stored(tr', id)
  {
    assert forall i :: 0 <= i < |tr| ==> tr'[i] == tr[i];
    forall c | SeenTrue(tr, c) ensures SeenTrue(tr', c) {
      var i :| 0 <= i < |tr| && SetsTrue(tr[i], c);
      assert SetsTrue(tr'[i], c);
    }
    forall id | Stored(tr, id) ensures Stored(tr', id) {
      var i :| 0 <= i < |tr| && Stores(tr[i], id);
      assert Stores(tr'[i], id);
    }
  }

  /** What has been launched so far, in order. */
  function Launches(tr: seq<Event>): seq<Kind> {
    if tr == [] then []
    else Launches(tr[..|tr| - 1]) + (if tr[|tr| - 1].Launch? then [tr[|tr| - 1].kind] else [])
  }

  lemma LaunchesNext(tr: seq<Event>, e: Event)
    ensures Launches(tr + [e]) == Launches(tr) + (if e.Launch? then [e.kind] else [])
  {
    assert (tr + [e])[..|tr|] == tr;
  }

  lemma {:induction false} OthersLaunchNothing(tr: seq<Event>, tr': seq<Event>)
    requires OthersOnly(tr, tr', Reconciler)
    ensures Launches(tr') == Launches(tr)
  {
    if |tr'| == |tr| {
      assert tr' == tr;
    } else {
      OthersLaunchNothing(tr, tr'[..|tr'| - 1]);
    }
  }

  /** After a commit of mine, with only others before it, my own events have grown by exactly that commit. */
  lemma CommittedAfterOthers(tr: seq<Event>, before: seq<Event>, me: Actor, m: Mutation)
    requires WellFormed(before) && OthersOnly(tr, before, me)
    ensures OwnEvents(before + [Commit(me, m)], me) == OwnEvents(tr, me) + [Commit(me, m)]
  {
    OthersLeave(tr, before, me);
    Appended(before, Commit(me, m), me);
  }

  /** The same with a detour, and for a commit that may have been refused. */
  lemma AttemptedAfterOthers(tr: seq<Event>, middle: seq<Event>, before: seq<Event>, me: Actor, m: Mutation,
                             accepted: bool)
    requires WellFormed(before) && OthersOnly(tr, middle, me) && OthersOnly(middle, before, me)
    ensures OwnEvents(if accepted then before + [Commit(me, m)] else before, me) ==
            OwnEvents(tr, me) + (if accepted then [Commit(me, m)] else [])
  {
    forall i | |tr| <= i < |before|
      ensures ActorOf(before[i]) != me
    {
      if i < |middle| { assert before[i] == middle[i]; }
    }
    if accepted {
      CommittedAfterOthers(tr, before, me, m);
    } else {
      OthersLeave(tr, before, me);
      assert OwnEvents(tr, me) + [] == OwnEvents(tr, me);
    }
  }

  lemma OwnedFollows(m: Mutation, s: Status, s': Status)
    requires OwnedOf(s) == OwnedOf(s')
    ensures OwnedOf(Apply(m, s)) == OwnedOf(Apply(m, s'))
  {
  }

  /** What only the reconciler writes is settled by its own events. */
  lemma {:induction false} OwnEventsDecide(tr: seq<Event>)
    requires WellFormed(tr)
    ensures OwnedOf(StatusAt(tr)) == OwnedOf(StatusAt(OwnEvents(tr, Reconciler)))
    ensures Launches(tr) == Launches(OwnEvents(tr, Reconciler))
    ensures ProgressAt(tr) == ProgressAt(OwnEvents(tr, Reconciler))
  {
    if tr != [] {
      var n := |tr| - 1;
      var front, e, own := tr[..n], tr[n], OwnEvents(tr[..n], Reconciler);
      WellFormedPrefix(tr, n);
      OwnEventsDecide(front);
      assert tr == front + [e];
      if ActorOf(e) == Reconciler {
        Appended(own, e, Reconciler);
        LaunchesNext(own, e);
        ProgressNext(own, e);
        if e.Commit? { OwnedFollows(e.mutation, StatusAt(front), StatusAt(own)); }
      } else {
        OthersLeaveOwned(front, e);
        assert own + [] == own && Launches(front) + [] == Launches(front);
      }
    }
  }

  /** Two traces with the same own events, up to one more commit at the end of mine. */
  lemma OwnedAfter(tr: seq<Event>, tr': seq<Event>, m: Mutation)
    requires WellFormed(tr) && WellFormed(tr')
    requires OwnEvents(tr', Reconciler) == OwnEvents(tr, Reconciler) + [Commit(Reconciler, m)]
    ensures OwnedOf(StatusAt(tr')) == OwnedOf(Apply(m, StatusAt(tr))) && Launches(tr') == Launches(tr)
    ensures ProgressAt(tr') == ProgressAt(tr)
  {
    var own := OwnEvents(tr, Reconciler);
    OwnEventsDecide(tr);
    OwnEventsDecide(tr');
    Appended(own, Commit(Reconciler, m), Reconciler);
    LaunchesNext(own, Commit(Reconciler, m));
    ProgressNext(own, Commit(Reconciler, m));
    OwnedFollows(m, StatusAt(own), StatusAt(tr));
  }

  lemma OwnedUnchanged(tr: seq<Event>, tr': seq<Event>)
    requires WellFormed(tr) && WellFormed(tr') && OwnEvents(tr', Reconciler) == OwnEvents(tr, Reconciler) + []
    ensures OwnedOf(StatusAt(tr')) == OwnedOf(StatusAt(tr)) && Launches(tr') == Launches(tr) &&
            ProgressAt(tr') == ProgressAt(tr)
  {
    OwnEventsDecide(tr);
    OwnEventsDecide(tr');
    assert OwnEvents(tr, Reconciler) + [] == OwnEvents(tr, Reconciler);
  }

  predicate IsSet(c: Option<Condition>, status: CondStatus, reason: Reason) {
    c.Some? && c.value.status == status && c.value.reason == reason
  }

  /** The reconciler has set one condition, as far as only the reconciler writes it. */
  predicate OwnedSet(o: Owned, o': Owned, c: CondType, status: CondStatus, reason: Reason) {
    o'.recommendation == o.recommendation &&
    (if c == Finished then IsSet(o'.finished, status, reason) else o'.finished == o.finished) &&
    (if c == Analysis then IsSet(o'.analysis, status, reason) else o'.analysis == o.analysis)
  }

  lemma SetCondOwns(s: Status, c: CondType, status: CondStatus, reason: Reason, now: nat)
    ensures OwnedSet(OwnedOf(s), OwnedOf(Apply(SetCond(c, status, reason, now), s)), c, status, reason)
  {
  }

  predicate OwnedFinished(o: Owned) {
    o.finished.Some? && o.finished.value.status == True
  }

  predicate Unfinished(s: Status) {
    !OwnedFinished(OwnedOf(s))
  }

  lemma FinishedIsOwned(s: Status)
    ensures FinishedTrue(s) <==> !Unfinished(s)
  {
  }

  lemma MayAnnounce(tr: seq<Event>, t: CheckType)
    requires !FinishedTrue(StatusAt(tr))
    ensures May(tr, Reconciler, SetCond(Check(t), Unknown, CheckNotStarted, 0))
  {
  }

  lemma {:induction false} OwnEventsAreMine(tr: seq<Event>, me: Actor, e: Event)
    ensures e in OwnEvents(tr, me) <==> e in tr && ActorOf(e) == me
  {
    if tr != [] {
      OwnEventsAreMine(tr[..|tr| - 1], me, e);
      assert tr == tr[..|tr| - 1] + [tr[|tr| - 1]];
    }
  }

  lemma MayReport(tr: seq<Event>, id: nat, status: CondStatus, reason: Reason)
    requires id < |tr| && tr[id].Launch? && tr[id].id == id
    requires status == False ==> reason == RecordingReason(tr[id].kind)
    requires status == Unknown ==> reason == FailedReason(tr[id].kind)
    requires status == True ==> reason in {FinishedReason(tr[id].kind), FailedReason(tr[id].kind)} && Stored(tr, id)
    ensures May(tr, Runner(id), SetCond(CondOf(tr[id].kind), status, reason, 0))
  {
  }

  lemma MayPut(tr: seq<Event>, id: nat, run: R.Run)
    requires id < |tr| && tr[id].Launch? && tr[id].id == id && Stored(tr, id) && !HasPut(tr, id) &&
             run.context == tr[id].context
    ensures May(tr, Runner(id), PutRun(tr[id].kind, run))
  {
  }

  // ---------- invariants of every trace ----------

  /** A condition that holds True was set True by someone. */
  lemma {:induction false} TrueWasSeen(tr: seq<Event>, c: CondType)
    requires Holds(StatusAt(tr), c, True)
    ensures SeenTrue(tr, c)
  {
    if tr != [] {
      var front, e := tr[..|tr| - 1], tr[|tr| - 1];
      if Holds(StatusAt(front), c, True) {
        TrueWasSeen(front, c);
        SeenGrows(front, tr);
      } else {
        assert SetsTrue(e, c);
      }
    }
  }

  /** Recording before status: whatever the status says has been recorded, has been stored first. */
  ghost predicate RecordedFirst(s: Status, recordings: map<Kind, R.Recording>) {
    (forall t :: Holds(s, Check(t), True) || t in s.checkRuns ==> CheckRun(t) in recordings) &&
    (Holds(s, FinalCheck, True) || s.finalRun.Some? ==> FinalRun in recordings) &&
    (Holds(s, Baseline, True) || s.baselineRuns != [] ==>
       BaselineRun(false) in recordings || BaselineRun(true) in recordings)
  }

  lemma StoredByTheLaunched(tr: seq<Event>, i: nat)
    requires WellFormed(tr) && i < |tr| && tr[i].Store?
    ensures Launched(tr, tr[i].id, tr[i].kind)
  {
    assert Allowed(tr[..i], tr[i]);
  }

  lemma {:induction false} StoredKeyIsKept(tr: seq<Event>, i: nat)
    requires i < |tr| && tr[i].Store?
    ensures tr[i].kind in RecordingsAt(tr)
  {
    if i < |tr| - 1 {
      StoredKeyIsKept(tr[..|tr| - 1], i);
    }
  }

  lemma StoredIsRecorded(tr: seq<Event>, id: nat, kind: Kind)
    requires WellFormed(tr) && Launched(tr, id, kind) && Stored(tr, id)
    ensures kind in RecordingsAt(tr)
  {
    var i :| 0 <= i < |tr| && Stores(tr[i], id);
    StoredByTheLaunched(tr, i);
    StoredKeyIsKept(tr, i);
  }

  ghost predicate RunsConfigured(s: Status) {
    forall t :: t in s.checkRuns ==> Configured(t, s.checkRuns[t].context)
  }

  lemma RunnerKeepsRecordedFirst(s: Status, recordings: map<Kind, R.Recording>, kind: Kind, m: Mutation)
    requires RecordedFirst(s, recordings) && RunsConfigured(s)
    requires (m.SetCond? && m.ctype == CondOf(kind) && (m.status == True ==> kind in recordings)) ||
             (m.PutRun? && m.kind == kind && kind in recordings &&
              (kind.CheckRun? ==> Configured(kind.check, m.run.context)))
    ensures RecordedFirst(Apply(m, s), recordings) && RunsConfigured(Apply(m, s))
  {
    var s' := Apply(m, s);
    assert forall c :: Holds(s', c, True) ==> Holds(s, c, True) || (c == CondOf(kind) && kind in recordings);
  }

  lemma ReconcilerKeepsRecordedFirst(tr: seq<Event>, m: Mutation, s: Status)
    requires ReconcilerMay(tr, m)
    requires RecordedFirst(s, RecordingsAt(tr)) && RunsConfigured(s)
    ensures RecordedFirst(Apply(m, s), RecordingsAt(tr)) && RunsConfigured(Apply(m, s))
  {
    var s' := Apply(m, s);
    assert forall c :: Holds(s', c, True) ==> Holds(s, c, True) || c in {Finished, Analysis};
  }

  /** Whoever may change a status that says only what has been recorded, leaves such a status behind. */
  lemma MayKeepsRecordedFirst(tr: seq<Event>, me: Actor, m: Mutation, s: Status)
    requires WellFormed(tr) && May(tr, me, m)
    requires RecordedFirst(s, RecordingsAt(tr)) && RunsConfigured(s)
    ensures RecordedFirst(Apply(m, s), RecordingsAt(tr)) && RunsConfigured(Apply(m, s))
  {
    if me == Reconciler {
      ReconcilerKeepsRecordedFirst(tr, m, s);
    } else {
      var kind := tr[me.id].kind;
      assert Allowed(tr[..me.id], tr[me.id]);
      if Stored(tr, me.id) { StoredIsRecorded(tr, me.id, kind); }
      RunnerKeepsRecordedFirst(s, RecordingsAt(tr), kind, m);
    }
  }

  lemma {:induction false} RecordingBeforeStatus(tr: seq<Event>)
    requires WellFormed(tr)
    ensures RecordedFirst(StatusAt(tr), RecordingsAt(tr)) && RunsConfigured(StatusAt(tr))
  {
    if tr != [] {
      var n := |tr| - 1;
      var front, e := tr[..n], tr[n];
      WellFormedPrefix(tr, n);
      assert tr == front + [e];
      RecordingBeforeStatus(front);
      Appended(front, e, Operator);
      if e.Commit? { MayKeepsRecordedFirst(front, e.actor, e.mutation, StatusAt(front)); }
    }
  }

  /** The part of it that the analysis relies on. */
  ghost predicate RunsRecorded(s: Status, stored: set<Kind>) {
    forall t :: t in s.checkRuns ==> CheckRun(t) in stored && Configured(t, s.checkRuns[t].context)
  }

  lemma RunsAreRecorded(tr: seq<Event>)
    requires WellFormed(tr)
    ensures RunsRecorded(StatusAt(tr), RecordingsAt(tr).Keys)
  {
    RecordingBeforeStatus(tr);
  }

  lemma {:induction false} RecordingsGrow(tr: seq<Event>, n: nat)
    requires n <= |tr|
    ensures RecordingsAt(tr[..n]).Keys <= RecordingsAt(tr).Keys
  {
    if n == |tr| {
      assert tr[..n] == tr;
    } else {
      var front := tr[..|tr| - 1];
      RecordingsGrow(front, n);
      assert front[..n] == tr[..n];
    }
  }

  /** The runs of the copy were read at `at`, and the reconciler has left no mark since. */
  predicate ReadAt(copy: Status, tr: seq<Event>, at: nat) {
    at <= |tr| && copy.checkRuns == StatusAt(tr[..at]).checkRuns && ProgressAt(tr[..at]) == ProgressAt(tr)
  }

  lemma ReadIsRecorded(copy: Status, tr: seq<Event>, at: nat)
    requires WellFormed(tr) && ReadAt(copy, tr, at)
    ensures RunsRecorded(copy, RecordingsAt(tr).Keys)
  {
    WellFormedPrefix(tr, at);
    RunsAreRecorded(tr[..at]);
    RecordingsGrow(tr, at);
  }

  lemma ReadStays(copy: Status, tr: seq<Event>, before: seq<Event>, m: Mutation, accepted: bool)
    requires copy.checkRuns == StatusAt(tr).checkRuns && WellFormed(before) && OthersOnly(tr, before, Reconciler)
    ensures ReadAt(copy, if accepted then before + [Commit(Reconciler, m)] else before, |tr|)
  {
    OthersLeave(tr, before, Reconciler);
    ProgressNext(before, Commit(Reconciler, m));
    assert before[..|tr|] == tr == (before + [Commit(Reconciler, m)])[..|tr|];
  }

  lemma AfterFinished(tr: seq<Event>, e: Event)
    requires Allowed(tr, e) && FinishedTrue(StatusAt(tr))
    ensures CondIn(Step(StatusAt(tr), e), Finished) == CondIn(StatusAt(tr), Finished) &&
            FinishedTrue(Step(StatusAt(tr), e))
    ensures ActorOf(e) == Reconciler ==> e == Commit(Reconciler, RemoveCheckConditions)
  {
  }

  lemma StatusNext(tr: seq<Event>, n: nat)
    requires n < |tr|
    ensures StatusAt(tr[..n + 1]) == Step(StatusAt(tr[..n]), tr[n])
  {
    assert tr[..n + 1] == tr[..n] + [tr[n]];
    Appended(tr[..n], tr[n], Operator);
  }

  /** Finished is final: the condition survives every later reconcile and every late write of a runner. */
  lemma {:induction false} FinishedIsFinal(tr: seq<Event>, i: nat, j: nat)
    requires WellFormed(tr) && i <= j <= |tr| && FinishedTrue(StatusAt(tr[..i]))
    ensures FinishedTrue(StatusAt(tr[..j])) &&
            CondIn(StatusAt(tr[..j]), Finished) == CondIn(StatusAt(tr[..i]), Finished)
  {
    if i < j {
      FinishedIsFinal(tr, i, j - 1);
      StatusNext(tr, j - 1);
      assert Allowed(tr[..j - 1], tr[j - 1]);
      AfterFinished(tr[..j - 1], tr[j - 1]);
    }
  }

  /** Once finished, no runner is launched any more, and all the reconciler still does is remove the check
      conditions. */
  lemma OnlyCleaningUp(tr: seq<Event>, i: nat, k: nat)
    requires WellFormed(tr) && i <= k < |tr| && FinishedTrue(StatusAt(tr[..i])) && ActorOf(tr[k]) == Reconciler
    ensures tr[k] == Commit(Reconciler, RemoveCheckConditions)
  {
    FinishedIsFinal(tr, i, k);
    AfterFinished(tr[..k], tr[k]);
  }

  // ---------- nothing is lost, nothing is repeated ----------

  /** The baseline entries that were committed, in commit order. */
  function BaselineEntries(tr: seq<Event>): seq<R.Run> {
    if tr == [] then []
    else
      var e := tr[|tr| - 1];
      BaselineEntries(tr[..|tr| - 1]) +
      (if e.Commit? && e.mutation.PutRun? && e.mutation.kind.BaselineRun? then [e.mutation.run] else [])
  }

  /** No runner commits more than one entry. */
  lemma EntriesAreSingle(tr: seq<Event>, i: nat, j: nat, id: nat)
    requires WellFormed(tr) && i < j < |tr| && Puts(tr[i], id)
    ensures !Puts(tr[j], id)
  {
    assert Allowed(tr[..j], tr[j]);
    assert Puts(tr[..j][i], id);
  }

  /** Every finish appends its baseline entry exactly once: the list is the committed entries in commit order. */
  lemma {:induction false} BaselineEntriesAreKept(tr: seq<Event>)
    ensures StatusAt(tr).baselineRuns == BaselineEntries(tr)
  {
    if tr != [] {
      BaselineEntriesAreKept(tr[..|tr| - 1]);
    }
  }

  /** The entry is listed under its kind as it is, and nothing else changes. */
  predicate Lists(s: Status, s': Status, kind: Kind, run: R.Run) {
    s'.conditions == s.conditions && s'.recommendation == s.recommendation &&
    match kind
    case BaselineRun(_) =>
      s'.baselineRuns == s.baselineRuns + [run] && s'.finalRun == s.finalRun && s'.checkRuns == s.checkRuns
    case FinalRun =>
      s'.baselineRuns == s.baselineRuns && s'.finalRun == Some(run) && s'.checkRuns == s.checkRuns
    case CheckRun(t) =>
      s'.baselineRuns == s.baselineRuns && s'.finalRun == s.finalRun && t in s'.checkRuns && s'.checkRuns[t] == run &&
      forall u :: u != t ==>
        (u in s'.checkRuns <==> u in s.checkRuns) && (u in s.checkRuns ==> s'.checkRuns[u] == s.checkRuns[u])
  }

  /** A runner's entry is in the status as it was committed. */
  lemma CommittedEntryIsListed(tr: seq<Event>, actor: Actor, kind: Kind, run: R.Run)
    ensures Lists(StatusAt(tr), StatusAt(tr + [Commit(actor, PutRun(kind, run))]), kind, run)
  {
    hide StatusAt, Lists, Apply;
    Appended(tr, Commit(actor, PutRun(kind, run)), actor);
    ListsAfterPut(StatusAt(tr), kind, run);
  }

  lemma ListsAfterPut(s: Status, kind: Kind, run: R.Run)
    ensures Lists(s, Apply(PutRun(kind, run), s), kind, run)
  {
    match kind {
      case BaselineRun(_) =>
      case FinalRun =>
      case CheckRun(t) =>
    }
  }

  lemma {:induction false} EntryIsListed(tr: seq<Event>, n: nat)
    requires n < |tr| && tr[n].Commit? && tr[n].mutation.PutRun? && tr[n].mutation.kind.BaselineRun?
    ensures tr[n].mutation.run in BaselineEntries(tr)
  {
    if n < |tr| - 1 { EntryIsListed(tr[..|tr| - 1], n); }
  }

  predicate Removes(e: Event, c: CondType) {
    e.Commit? && e.mutation.RemoveCheckConditions? && c !in {Finished, Analysis}
  }

  predicate Drops(e: Event, t: CheckType) {
    e.Commit? && e.mutation.ReplaceRuns? && t !in e.mutation.runs
  }

  /** A condition disappears only through RemoveCheckConditions, a check's entry only through the wholesale
      replacement after the analysis; the final entry and the recommendation never disappear. */
  lemma {:induction false} NothingElseIsLost(tr: seq<Event>, i: nat, j: nat)
    requires i <= j <= |tr|
    ensures forall c :: c in StatusAt(tr[..i]).conditions && c !in StatusAt(tr[..j]).conditions ==>
      exists k :: i <= k < j && Removes(tr[k], c)
    ensures forall t :: t in StatusAt(tr[..i]).checkRuns && t !in StatusAt(tr[..j]).checkRuns ==>
      exists k :: i <= k < j && Drops(tr[k], t)
    ensures StatusAt(tr[..i]).baselineRuns <= StatusAt(tr[..j]).baselineRuns
    ensures StatusAt(tr[..i]).finalRun.Some? ==> StatusAt(tr[..j]).finalRun.Some?
    ensures StatusAt(tr[..i]).recommendation.Some? ==> StatusAt(tr[..j]).recommendation.Some?
  {
    if i < j {
      NothingElseIsLost(tr, i, j - 1);
      assert tr[..j] == tr[..j - 1] + [tr[j - 1]];
      Appended(tr[..j - 1], tr[j - 1], Operator);
      var s, e := StatusAt(tr[..j - 1]), tr[j - 1];
      forall c | c in s.conditions && c !in Step(s, e).conditions
        ensures Removes(e, c)
      {
      }
      forall t | t in s.checkRuns && t !in Step(s, e).checkRuns
        ensures Drops(e, t)
      {
      }
    }
  }

  /** A final check that was ever set True was launched with a recommendation, which is still there. */
  lemma FinalNeedsRecommendation(tr: seq<Event>)
    requires WellFormed(tr) && SeenTrue(tr, FinalCheck)
    ensures StatusAt(tr).recommendation.Some?
  {
    var f :| 0 <= f < |tr| && SetsTrue(tr[f], FinalCheck);
    assert Allowed(tr[..f], tr[f]);
    var l := tr[f].actor.id;
    assert tr[..f][l] == tr[l] && tr[l].kind == FinalRun;
    assert Allowed(tr[..l], tr[l]);
    NothingElseIsLost(tr, l, |tr|);
    assert tr[..|tr|] == tr;
  }
}
