/** Runs of the protocol, most of which show what the code does not guarantee. Every run here is well formed and honest,
    so that it is one of those that the theorems about traces speak of. */
module Witnesses {
  import opened Prelude
  import opened SecurityContexts
  import opened Checks
  import opened HardeningStatus
  import opened Trace
  import opened Provenance
  import opened Decisions
  import opened Manager
  import opened Controller
  import opened Looks
  import R = Recommendation

  // ---------- one event after another ----------

  ghost predicate IsRun(tr: seq<Event>, miner: R.Miner) {
    WellFormed(tr) && Honest(tr, miner)
  }

  lemma Happens(tr: seq<Event>, e: Event, miner: R.Miner)
    requires IsRun(tr, miner) && Allowed(tr, e) && Truthful(tr, e, miner)
    ensures IsRun(tr + [e], miner)
    ensures StatusAt(tr + [e]) == Step(StatusAt(tr), e) && ProgressAt(tr + [e]) == Onwards(ProgressAt(tr), e)
    ensures RecordingsAt(tr + [e]) == if e.Store? then RecordingsAt(tr)[e.kind := e.recording] else RecordingsAt(tr)
    ensures !e.Edit? ==> TemplateAt(tr + [e]) == TemplateAt(tr)
    ensures Launches(tr + [e]) == Launches(tr) + (if e.Launch? then [e.kind] else [])
    ensures forall c :: SeenTrue(tr, c) || SetsTrue(e, c) ==> SeenTrue(tr + [e], c)
  {
    WellFormedGrows(tr, e);
    HonestGrows(tr, e, miner);
    Appended(tr, e, Operator);
    ProgressNext(tr, e);
    LaunchesNext(tr, e);
    SeenGrows(tr, tr + [e]);
    assert (tr + [e])[|tr|] == e;
  }

  /** A change of a condition, at time zero. */
  function Sets(actor: Actor, c: CondType, status: CondStatus, reason: Reason): Event {
    Commit(actor, SetCond(c, status, reason, 0))
  }

  /** The status with one condition set at time zero. */
  function With(s: Status, c: CondType, status: CondStatus, reason: Reason): Status {
    s.(conditions := s.conditions[c := Condition(status, reason, 0)])
  }

  function EntryFor(kind: Kind, context: Option<Defaults>, ready: bool := true): R.Run {
    R.Run(kind, ready, Some(ready), context, {})
  }

  function ReasonFor(kind: Kind, ready: bool): Reason {
    if ready then FinishedReason(kind) else FailedReason(kind)
  }

  predicate NothingPut(tr: seq<Event>, id: nat) {
    forall i :: 0 <= i < |tr| ==> !Puts(tr[i], id)
  }

  /** Only the status and the recordings may have changed, and no entry has been put. */
  ghost predicate Unmarked(tr: seq<Event>, tr': seq<Event>) {
    tr <= tr' && ProgressAt(tr') == ProgressAt(tr) && TemplateAt(tr') == TemplateAt(tr) &&
    (forall c :: SeenTrue(tr, c) ==> SeenTrue(tr', c))
  }


  /** A runner that has been launched begins to record. */
  lemma Begins(tr: seq<Event>, id: nat, kind: Kind, miner: R.Miner) returns (tr': seq<Event>)
    requires IsRun(tr, miner) && Launched(tr, id, kind)
    ensures IsRun(tr', miner) && tr' == tr + [Sets(Runner(id), CondOf(kind), False, RecordingReason(kind))] &&
            Unmarked(tr, tr')
    ensures StatusAt(tr') == Apply(SetCond(CondOf(kind), False, RecordingReason(kind), 0), StatusAt(tr))
    ensures RecordingsAt(tr') == RecordingsAt(tr) && Launches(tr') == Launches(tr)
  {
    MayReport(tr, id, False, RecordingReason(kind));
    tr' := tr + [Sets(Runner(id), CondOf(kind), False, RecordingReason(kind))];
    Happens(tr, tr'[|tr|], miner);
  }

  /** It stores its recording, of a workload that was ready or not. */
  lemma Records(tr: seq<Event>, id: nat, kind: Kind, miner: R.Miner, ready: bool := true) returns (tr': seq<Event>)
    requires IsRun(tr, miner) && Launched(tr, id, kind)
    ensures IsRun(tr', miner) && tr' == tr + [Store(id, kind, R.Recording(ready, map[]))] && Stored(tr', id) &&
            Unmarked(tr, tr')
    ensures StatusAt(tr') == StatusAt(tr)
    ensures RecordingsAt(tr') == RecordingsAt(tr)[kind := R.Recording(ready, map[])] && Launches(tr') == Launches(tr)
  {
    tr' := tr + [Store(id, kind, R.Recording(ready, map[]))];
    Happens(tr, tr'[|tr|], miner);
    assert Stores(tr'[|tr|], id);
  }

  /** It sets its condition True. */
  lemma Declares(tr: seq<Event>, id: nat, kind: Kind, miner: R.Miner, ready: bool := true) returns (tr': seq<Event>)
    requires IsRun(tr, miner) && Launched(tr, id, kind) && Stored(tr, id)
    ensures IsRun(tr', miner) && tr' == tr + [Sets(Runner(id), CondOf(kind), True, ReasonFor(kind, ready))] &&
            Unmarked(tr, tr')
    ensures StatusAt(tr') == Apply(SetCond(CondOf(kind), True, ReasonFor(kind, ready), 0), StatusAt(tr))
    ensures RecordingsAt(tr') == RecordingsAt(tr) && Launches(tr') == Launches(tr)
    ensures SeenTrue(tr', CondOf(kind)) && Stored(tr', id)
  {
    MayReport(tr, id, True, ReasonFor(kind, ready));
    tr' := tr + [Sets(Runner(id), CondOf(kind), True, ReasonFor(kind, ready))];
    Happens(tr, tr'[|tr|], miner);
    SeenGrows(tr, tr');
  }

  /** It adds its entry. */
  lemma PutsEntry(tr: seq<Event>, id: nat, kind: Kind, miner: R.Miner, ready: bool := true) returns (tr': seq<Event>)
    requires IsRun(tr, miner) && Launched(tr, id, kind) && Stored(tr, id) && NothingPut(tr, id)
    ensures IsRun(tr', miner) && tr' == tr + [Commit(Runner(id), PutRun(kind, EntryFor(kind, tr[id].context, ready)))]
    ensures Unmarked(tr, tr') &&
            StatusAt(tr') == Apply(PutRun(kind, EntryFor(kind, tr[id].context, ready)), StatusAt(tr))
    ensures RecordingsAt(tr') == RecordingsAt(tr) && Launches(tr') == Launches(tr)
  {
    MayPut(tr, id, EntryFor(kind, tr[id].context, ready));
    tr' := tr + [Commit(Runner(id), PutRun(kind, EntryFor(kind, tr[id].context, ready)))];
    Happens(tr, tr'[|tr|], miner);
  }

  /** The status after a run in which no operation failed. */
  function Recorded(s: Status, kind: Kind, context: Option<Defaults>, ready: bool := true): Status {
    Apply(PutRun(kind, EntryFor(kind, context, ready)),
      Apply(SetCond(CondOf(kind), True, ReasonFor(kind, ready), 0),
        Apply(SetCond(CondOf(kind), False, RecordingReason(kind), 0), s)))
  }

  /** From the first write to the entry, with no operation failing. */
  lemma RunsToTheEnd(tr: seq<Event>, id: nat, kind: Kind, miner: R.Miner, ready: bool := true)
    returns (tr': seq<Event>)
    requires IsRun(tr, miner) && Launched(tr, id, kind) && NothingPut(tr, id)
    ensures IsRun(tr', miner) && Unmarked(tr, tr') &&
            StatusAt(tr') == Recorded(StatusAt(tr), kind, tr[id].context, ready)
    ensures RecordingsAt(tr') == RecordingsAt(tr)[kind := R.Recording(ready, map[])] && Launches(tr') == Launches(tr)
    ensures SeenTrue(tr', CondOf(kind))
    ensures forall other :: other != id && NothingPut(tr, other) ==> NothingPut(tr', other)
  {
    var a := Begins(tr, id, kind, miner);
    var b := Records(a, id, kind, miner, ready);
    tr' := DeclaresAndPuts(b, id, kind, miner, ready);
  }

  lemma DeclaresAndPuts(tr: seq<Event>, id: nat, kind: Kind, miner: R.Miner, ready: bool) returns (tr': seq<Event>)
    requires IsRun(tr, miner) && Launched(tr, id, kind) && Stored(tr, id) && NothingPut(tr, id)
    ensures IsRun(tr', miner) && Unmarked(tr, tr')
    ensures StatusAt(tr') == Apply(PutRun(kind, EntryFor(kind, tr[id].context, ready)),
                                   Apply(SetCond(CondOf(kind), True, ReasonFor(kind, ready), 0), StatusAt(tr)))
    ensures RecordingsAt(tr') == RecordingsAt(tr) && Launches(tr') == Launches(tr)
    ensures SeenTrue(tr', CondOf(kind))
    ensures forall other :: other != id && NothingPut(tr, other) ==> NothingPut(tr', other)
  {
    var a := Declares(tr, id, kind, miner, ready);
    tr' := PutsEntry(a, id, kind, miner, ready);
  }

  lemma NobodyHasPut(tr: seq<Event>)
    requires WellFormed(tr)
    ensures NothingPut(tr, |tr|)
  {
    forall i | 0 <= i < |tr|
      ensures !Puts(tr[i], |tr|)
    {
      assert Allowed(tr[..i], tr[i]);
    }
  }

  lemma Launching(tr: seq<Event>, kind: Kind, context: Option<Defaults>, miner: R.Miner) returns (tr': seq<Event>)
    requires IsRun(tr, miner) && Allowed(tr, Launch(|tr|, kind, context))
    ensures IsRun(tr', miner) && tr' == tr + [Launch(|tr|, kind, context)] && Unmarked(tr, tr') &&
            Launched(tr', |tr|, kind)
    ensures StatusAt(tr') == StatusAt(tr) && RecordingsAt(tr') == RecordingsAt(tr) &&
            Launches(tr') == Launches(tr) + [kind]
    ensures NothingPut(tr', |tr|) && forall id :: NothingPut(tr, id) ==> NothingPut(tr', id)
  {
    NobodyHasPut(tr);
    tr' := tr + [Launch(|tr|, kind, context)];
    Happens(tr, tr'[|tr|], miner);
  }

  /** The reconciler sets a condition that is none of those with a guard. */
  lemma Announces(tr: seq<Event>, c: CondType, status: CondStatus, reason: Reason, miner: R.Miner)
    returns (tr': seq<Event>)
    requires IsRun(tr, miner) && !FinishedTrue(StatusAt(tr))
    requires (c in {Finished, Analysis} && status == False) ||
             (c.Check? && status == Unknown && reason in {CheckNotStarted, Requeue})
    ensures IsRun(tr', miner) && tr' == tr + [Sets(Reconciler, c, status, reason)] && Unmarked(tr, tr')
    ensures StatusAt(tr') == Apply(SetCond(c, status, reason, 0), StatusAt(tr))
    ensures RecordingsAt(tr') == RecordingsAt(tr) && Launches(tr') == Launches(tr)
    ensures forall id :: NothingPut(tr, id) ==> NothingPut(tr', id)
  {
    tr' := tr + [Sets(Reconciler, c, status, reason)];
    Happens(tr, tr'[|tr|], miner);
  }

  // ---------- the beginning of every run ----------

  lemma Beginning(pod: Option<PodContext>, containers: seq<Container>, miner: R.Miner) returns (tr: seq<Event>)
    ensures IsRun(tr, miner) && TemplateAt(tr) == Template(pod, ViewAll(containers), []) && ProgressAt(tr) == Resting
    ensures StatusAt(tr) == NO_STATUS && Launches(tr) == [] && tr == [Edit(pod, containers)]
  {
    Environment.Beginning(pod, containers, miner);
    tr := [Edit(pod, containers)];
    assert [] + tr == tr;
    ProgressNext([], tr[0]);
  }

  const LAUNCHED := With(NO_STATUS, Finished, False, BaselineRecording)

  /** Both baseline runners have been launched, and have done nothing yet. */
  lemma BaselineBegins(pod: Option<PodContext>, containers: seq<Container>, miner: R.Miner) returns (tr: seq<Event>)
    ensures IsRun(tr, miner) && TemplateAt(tr) == Template(pod, ViewAll(containers), []) && ProgressAt(tr) == Resting
    ensures StatusAt(tr) == LAUNCHED && Launches(tr) == [BaselineRun(false), BaselineRun(true)]
    ensures |tr| == 4 && tr[1] == Launch(1, BaselineRun(false), None) && tr[3] == Launch(3, BaselineRun(true), None)
    ensures tr[0] == Edit(pod, containers)
    ensures NothingPut(tr, 1) && NothingPut(tr, 3)
  {
    var a := Beginning(pod, containers, miner);
    var b := Launching(a, BaselineRun(false), None, miner);
    var c := Announces(b, Finished, False, BaselineRecording, miner);
    assert StatusAt(c).conditions == LAUNCHED.conditions;
    tr := Launching(c, BaselineRun(true), None, miner);
  }

  /** The launch of the two baseline runners is the first round of every run. */
  lemma FirstRound(pod: Option<PodContext>, containers: seq<Container>, duration: nat, parallel: bool, miner: R.Miner)
    returns (tr: seq<Event>, r: Round)
    ensures IsRun(tr, miner) && Rounds(tr, [r], duration, parallel) && r.start == 1 && r.end == |tr| == 4
    ensures Decide(r.effect.before, r.required) == LaunchBaseline && r.required == Required(TemplateAt(tr))
  {
    tr := BaselineBegins(pod, containers, miner);
    var start := Beginning(pod, containers, miner);
    assert tr[..1] == start && tr[..4] == tr;
    var e := Effect(NO_STATUS, LAUNCHED, Findings(map[], Recommended(EMPTY_POD, EMPTY_LISTED)),
                    [BaselineRun(false), BaselineRun(true)], Requeued(duration + MARGIN), 0, 0);
    r := Round(1, 4, e, Required(TemplateAt(tr)));
    FirstEffect(e, r.required, duration, parallel);
    assert [r][..0] == [];
  }

  lemma FirstEffect(e: Effect, required: set<CheckType>, duration: nat, parallel: bool)
    requires e.before == NO_STATUS && e.after == LAUNCHED && e.launched == [BaselineRun(false), BaselineRun(true)]
    requires e.result == Requeued(duration + MARGIN)
    ensures Decide(e.before, required) == LaunchBaseline && CarriedOut(e, required, duration, parallel)
  {
  }

  const BASELINED := Status(
    map[Finished := Condition(False, BaselineRecording, 0), Baseline := Condition(True, BaselineRecordingFinished, 0)],
    [EntryFor(BaselineRun(false), None), EntryFor(BaselineRun(true), None)], map[], None, None)

  lemma BaselineEnds(pod: Option<PodContext>, containers: seq<Container>, miner: R.Miner) returns (tr: seq<Event>)
    ensures IsRun(tr, miner) && TemplateAt(tr) == Template(pod, ViewAll(containers), []) && ProgressAt(tr) == Resting
    ensures StatusAt(tr) == BASELINED && SeenTrue(tr, Baseline)
    ensures Launches(tr) == [BaselineRun(false), BaselineRun(true)]
  {
    tr := BaselineBegins(pod, containers, miner);
    tr := RunsToTheEnd(tr, 1, BaselineRun(false), miner);
    tr := RunsToTheEnd(tr, 3, BaselineRun(true), miner);
    assert StatusAt(tr).conditions == BASELINED.conditions;
  }

  const HALF_FAILED := Status(
    map[Finished := Condition(False, BaselineRecording, 0), Baseline := Condition(True, BaselineRecordingFailed, 0)],
    [EntryFor(BaselineRun(false), None), EntryFor(BaselineRun(true), None, false)], map[], None, None)

  /** Only the second baseline runner finds its workload not ready. The next reconcile gives up. */
  lemma SecondBaselineFails(duration: nat, parallel: bool, miner: R.Miner) returns (tr: seq<Event>, e: Effect)
    ensures IsRun(tr, miner) && e.before == StatusAt(tr) && CarriedOut(e, Required(TemplateAt(tr)), duration, parallel)
    ensures |BaselineEntries(tr)| == 2 && BaselineEntries(tr)[0].checkSuccessful == Some(true) &&
            BaselineEntries(tr)[1].checkSuccessful == Some(false)
    ensures Launches(tr) == [BaselineRun(false), BaselineRun(true)] && e.launched == []
    ensures Says(e.after, Finished, True, BaselineRecordingFailed)
  {
    tr := BaselineHalfFails(miner);
    BaselineEntriesAreKept(tr);
    var after := With(HALF_FAILED, Finished, True, BaselineRecordingFailed);
    e := Effect(HALF_FAILED, after, Findings(map[], Recommended(EMPTY_POD, EMPTY_LISTED)), [], DONE, 0, 0);
    GivesUp(e, duration, parallel);
  }

  lemma GivesUp(e: Effect, duration: nat, parallel: bool)
    requires e.before == HALF_FAILED && e.after == With(HALF_FAILED, Finished, True, BaselineRecordingFailed)
    requires e.launched == [] && e.result == DONE
    ensures CarriedOut(e, ALL_CHECKS, duration, parallel)
  {
    assert !CheckRecorded(HALF_FAILED, User) && User in ALL_CHECKS;
    assert !Is(HALF_FAILED.baselineRuns[1].checkSuccessful, true);
  }

  lemma BaselineHalfFails(miner: R.Miner) returns (tr: seq<Event>)
    ensures IsRun(tr, miner) && StatusAt(tr) == HALF_FAILED && Required(TemplateAt(tr)) == ALL_CHECKS
    ensures Launches(tr) == [BaselineRun(false), BaselineRun(true)]
  {
    hide IsRun, StatusAt, Launches, RecordingsAt, TemplateAt;
    var first := FirstIsRecorded(miner);
    tr := RunsToTheEnd(first, 3, BaselineRun(true), miner, false);
    assert StatusAt(tr).conditions == HALF_FAILED.conditions;
  }

  // ---------- marks ----------

  lemma Marks(tr: seq<Event>, e: Event, miner: R.Miner) returns (tr': seq<Event>)
    requires IsRun(tr, miner) && IsMark(e) && Allowed(tr, e) && Truthful(tr, e, miner)
    ensures IsRun(tr', miner) && tr' == tr + [e] && ProgressAt(tr') == Onwards(ProgressAt(tr), e)
    ensures StatusAt(tr') == StatusAt(tr) && RecordingsAt(tr') == RecordingsAt(tr) && TemplateAt(tr') == TemplateAt(tr)
    ensures Launches(tr') == Launches(tr)
    ensures forall c :: SeenTrue(tr, c) ==> SeenTrue(tr', c)
    ensures forall id :: NothingPut(tr, id) ==> NothingPut(tr', id)
  {
    Happens(tr, e, miner);
    tr' := tr + [e];
    assert Launches(tr) + [] == Launches(tr);
  }

  /** A survey that finds nothing, and a verdict on it. */
  lemma NothingRequired(tr: seq<Event>, found: Option<set<CheckType>>, miner: R.Miner) returns (tr': seq<Event>)
    requires IsRun(tr, miner) && !FinishedTrue(StatusAt(tr)) && SeenTrue(tr, Baseline)
    requires found == None || (found == Some({}) && Required(TemplateAt(tr)) == {})
    ensures IsRun(tr', miner) && tr' == tr + [Survey(found), Verdict] && ProgressAt(tr') == HasJudged(found)
    ensures Surveyed(tr', |tr|, |tr| + 1)
    ensures StatusAt(tr') == StatusAt(tr) && RecordingsAt(tr') == RecordingsAt(tr) && TemplateAt(tr') == TemplateAt(tr)
    ensures Launches(tr') == Launches(tr)
    ensures forall c :: SeenTrue(tr, c) ==> SeenTrue(tr', c)
    ensures forall id :: NothingPut(tr, id) ==> NothingPut(tr', id)
  {
    var a := Marks(tr, Survey(found), miner);
    tr' := Marks(a, Verdict, miner);
    assert tr'[..|tr| + 1] == a && tr'[..|tr|] == tr;
  }

  const ANALYZING := With(With(BASELINED, Finished, False, Reason.Analyzing), Analysis, False, Reason.Analyzing)

  lemma ComparesNothing(tr: seq<Event>, miner: R.Miner) returns (tr': seq<Event>)
    requires IsRun(tr, miner) && !FinishedTrue(StatusAt(tr)) && ProgressAt(tr).HasJudged? &&
             StatusAt(tr).checkRuns == map[]
    ensures IsRun(tr', miner) && tr <= tr' && ProgressAt(tr') == HasAnalyzed(map[]) && StatusAt(tr') == StatusAt(tr)
    ensures TemplateAt(tr') == TemplateAt(tr) && Launches(tr') == Launches(tr)
    ensures forall c :: SeenTrue(tr, c) ==> SeenTrue(tr', c)
  {
    assert tr[..|tr|] == tr;
    var a := Marks(tr, Compare(|tr|, map[]), miner);
    tr' := Marks(a, Analyzed, miner);
  }

  /** From the baseline to the end of an analysis of no runs at all. */
  lemma AnalyzesNothing(tr: seq<Event>, found: Option<set<CheckType>>, miner: R.Miner) returns (tr': seq<Event>)
    requires IsRun(tr, miner) && StatusAt(tr) == BASELINED && SeenTrue(tr, Baseline)
    requires found == None || (found == Some({}) && Required(TemplateAt(tr)) == {})
    ensures IsRun(tr', miner) && tr <= tr' && ProgressAt(tr') == HasAnalyzed(map[]) && StatusAt(tr') == ANALYZING
    ensures TemplateAt(tr') == TemplateAt(tr) && Launches(tr') == Launches(tr)
    ensures forall c :: SeenTrue(tr, c) ==> SeenTrue(tr', c)
  {
    var a := NothingRequired(tr, found, miner);
    var b := Announces(a, Finished, False, Reason.Analyzing, miner);
    var c := Announces(b, Analysis, False, Reason.Analyzing, miner);
    assert StatusAt(c).conditions == ANALYZING.conditions;
    tr' := ComparesNothing(c, miner);
  }

  /** The analysis is declared over. */
  lemma Concludes(tr: seq<Event>, miner: R.Miner) returns (tr': seq<Event>)
    requires IsRun(tr, miner) && !FinishedTrue(StatusAt(tr)) &&
             (ProgressAt(tr).HasAnalyzed? || ProgressAt(tr).HasChosen?)
    ensures IsRun(tr', miner) && tr' == tr + [Sets(Reconciler, Analysis, True, AnalysisFinished)] && Unmarked(tr, tr')
    ensures StatusAt(tr') == Apply(SetCond(Analysis, True, AnalysisFinished, 0), StatusAt(tr))
    ensures Launches(tr') == Launches(tr)
  {
    tr' := tr + [Sets(Reconciler, Analysis, True, AnalysisFinished)];
    Happens(tr, tr'[|tr|], miner);
  }

  // ---------- workloads ----------

  /** A workload that requires no check at all. */
  const HARDENED_POD := EMPTY_POD.(runAsUser := Some(1000), runAsGroup := Some(1000), fsGroup := Some(1000),
                                   runAsNonRoot := Some(true))
  const HARDENED := EMPTY_LISTED.(readOnlyRootFilesystem := Some(true), allowPrivilegeEscalation := Some(false),
                                  capabilities := Some(Capabilities([], Some(["ALL"]))))

  /** One that requires the user check only. */
  const USERLESS_POD := HARDENED_POD.(runAsUser := None)

  /** And one that requires two checks. */
  const UNASSIGNED_POD := USERLESS_POD.(runAsGroup := None)

  lemma RequiredOfSamples()
    ensures Required(Template(Some(HARDENED_POD), ViewAll([Container("main", Some(HARDENED))]), [])) == {}
    ensures Required(Template(Some(USERLESS_POD), ViewAll([Container("main", Some(HARDENED))]), [])) == {User}
    ensures Required(Template(Some(UNASSIGNED_POD), ViewAll([Container("main", Some(HARDENED))]), [])) == {User, Group}
    ensures Required(Template(None, ViewAll([Container("main", None)]), [])) == ALL_CHECKS
  {
    var hardened := ViewAll([Container("main", Some(HARDENED))]);
    var bare := ViewAll([Container("main", None)]);
    assert hardened == [Some(ViewContext(HARDENED))] && bare == [None];
    assert "ALL" in Elements(["ALL"]);
    assert Dropped(hardened[0]) != {};
    assert bare[0].None?;
  }

  // ---------- an unreadable workload ----------

  /** The survey could not read the template of a workload that requires every check; the verdict is there all the
      same. */
  lemma UnreadableIsJudged(miner: R.Miner) returns (tr: seq<Event>)
    ensures IsRun(tr, miner) && |tr| >= 2 && Surveyed(tr, |tr| - 2, |tr| - 1) && tr[|tr| - 2].found.None?
    ensures Required(TemplateAt(tr[..|tr| - 2])) == ALL_CHECKS &&
            Launches(tr) == [BaselineRun(false), BaselineRun(true)]
  {
    RequiredOfSamples();
    var early := BaselineEnds(None, [Container("main", None)], miner);
    tr := NothingRequired(early, None, miner);
    assert tr[..|tr| - 2] == early;
  }

  /** A check that was ever set True has been launched. */
  lemma {:induction false} SeenWasLaunched(tr: seq<Event>, t: CheckType)
    requires WellFormed(tr) && SeenTrue(tr, Check(t))
    ensures CheckRun(t) in Launches(tr)
  {
    var i :| 0 <= i < |tr| && SetsTrue(tr[i], Check(t));
    assert Allowed(tr[..i], tr[i]);
    LaunchIsListed(tr, tr[i].actor.id);
  }

  lemma {:induction false} LaunchIsListed(tr: seq<Event>, l: nat)
    requires l < |tr| && tr[l].Launch?
    ensures tr[l].kind in Launches(tr)
  {
    if l < |tr| - 1 { LaunchIsListed(tr[..|tr| - 1], l); }
  }

  /** A verdict guarantees that all checks required at its survey have been recorded exactly if the survey could read
      the template. */
  lemma CoverageExactly(miner: R.Miner, readable: bool)
    ensures readable <==>
      forall tr: seq<Event>, s: nat, v: nat ::
        WellFormed(tr) && Honest(tr, miner) && Surveyed(tr, s, v) && tr[s].found.Some? == readable ==>
        Covered(tr, s, v)
  {
    if !readable {
      var tr := UnreadableIsJudged(miner);
      var s, v := |tr| - 2, |tr| - 1;
      if Covered(tr, s, v) {
        SeenGrows(tr[..v], tr);
        assert User in Required(TemplateAt(tr[..s]));
        SeenWasLaunched(tr, User);
        assert false;
      }
    }
  }

  // ---------- up to the final run ----------

  lemma Recommends(tr: seq<Event>, r: Recommended, miner: R.Miner) returns (tr': seq<Event>)
    requires IsRun(tr, miner) && !FinishedTrue(StatusAt(tr)) && ProgressAt(tr) == HasAnalyzed(map[])
    requires R.Contexts(r.pod, ViewContext(r.container)) == R.BaseOf(TemplateAt(tr))
    ensures IsRun(tr', miner) && tr <= tr' && ProgressAt(tr') == HasChosen(r)
    ensures StatusAt(tr') == StatusAt(tr).(recommendation := Some(r))
    ensures TemplateAt(tr') == TemplateAt(tr) && Launches(tr') == Launches(tr)
    ensures forall c :: SeenTrue(tr, c) ==> SeenTrue(tr', c)
  {
    assert Elements<CheckType>([]) == {} == R.Successful(map[]);
    assert IsFold(r, TemplateAt(tr), [], map[]);
    var a := Marks(tr, Choose(r, []), miner);
    tr' := a + [Commit(Reconciler, Mutation.SetRecommendation(r))];
    Happens(a, tr'[|a|], miner);
    assert Launches(a) + [] == Launches(a);
  }

  function Awaiting(r: Recommended): Status {
    With(ANALYZING, Analysis, True, AnalysisFinished).(recommendation := Some(r))
  }

  lemma RecommendationIsThere(pod: Option<PodContext>, containers: seq<Container>, found: Option<set<CheckType>>,
                              r: Recommended,
                              miner: R.Miner) returns (tr: seq<Event>)
    requires found == None || (found == Some({}) && Required(Template(pod, ViewAll(containers), [])) == {})
    requires R.Contexts(r.pod, ViewContext(r.container)) == R.BaseOf(Template(pod, ViewAll(containers), []))
    ensures IsRun(tr, miner) && TemplateAt(tr) == Template(pod, ViewAll(containers), []) && StatusAt(tr) == Awaiting(r)
    ensures SeenTrue(tr, Baseline) && Launches(tr) == [BaselineRun(false), BaselineRun(true)]
  {
    var a := BaselineEnds(pod, containers, miner);
    var b := AnalyzesNothing(a, found, miner);
    var c := Recommends(b, r, miner);
    tr := Concludes(c, miner);
    assert StatusAt(tr).conditions == Awaiting(r).conditions;
  }

  /** From the very beginning to the launch of the final run, for a workload that requires nothing or cannot be read. */
  lemma FinalIsLaunched(pod: Option<PodContext>, containers: seq<Container>, found: Option<set<CheckType>>,
                        r: Recommended,
                        miner: R.Miner) returns (tr: seq<Event>)
    requires found == None || (found == Some({}) && Required(Template(pod, ViewAll(containers), [])) == {})
    requires R.Contexts(r.pod, ViewContext(r.container)) == R.BaseOf(Template(pod, ViewAll(containers), []))
    ensures IsRun(tr, miner) && TemplateAt(tr) == Template(pod, ViewAll(containers), []) && StatusAt(tr) == Awaiting(r)
    ensures tr != [] && Launched(tr, |tr| - 1, FinalRun) && NothingPut(tr, |tr| - 1) && SeenTrue(tr, Baseline)
    ensures Launches(tr) == [BaselineRun(false), BaselineRun(true), FinalRun]
  {
    var a := RecommendationIsThere(pod, containers, found, r, miner);
    tr := Launching(a, FinalRun, Some(Projected(r)), miner);
  }

  /** A single failed read lets an object reach the end, with a recommendation, although the workload requires every
      check and none has been launched. */
  lemma UnreadableFinishes(miner: R.Miner) returns (tr: seq<Event>)
    ensures IsRun(tr, miner) && tr != [] && FinishesAt(tr[|tr| - 1])
    ensures Required(TemplateAt(tr)) == ALL_CHECKS && Launches(tr) == [BaselineRun(false), BaselineRun(true), FinalRun]
  {
    RequiredOfSamples();
    var early := FinalIsLaunched(None, [Container("main", None)], None, Recommended(EMPTY_POD, EMPTY_LISTED), miner);
    var late := RunsToTheEnd(early, |early| - 1, FinalRun, miner);
    tr := late + [Sets(Reconciler, Finished, True, AllFinished)];
    Happens(late, tr[|late|], miner);
    assert Launches(late) + [] == Launches(late);
  }

  // ---------- nothing to do ----------

  /** The recommendation could not be committed, and the analysis was declared over all the same: whoever reconciles
      this status finds nothing to do, and schedules nothing. */
  lemma StuckAfterFailedWrite(miner: R.Miner) returns (tr: seq<Event>, e: Effect)
    ensures IsRun(tr, miner) && Required(TemplateAt(tr)) == {} && Decide(StatusAt(tr), {}) == NothingToDo
    ensures e.before == StatusAt(tr) == e.after && e.result.requeueAfter == 0 && !FinishedTrue(e.after)
    ensures forall duration, parallel :: CarriedOut(e, {}, duration, parallel)
  {
    tr := AnalysisIsOver(miner);
    e := Effect(UNADVISED, UNADVISED, Findings(map[], Recommended(EMPTY_POD, EMPTY_LISTED)), [], DONE, 0, 0);
    SameConditionsKeep(UNADVISED, UNADVISED, {});
  }

  const UNADVISED := With(ANALYZING, Analysis, True, AnalysisFinished)

  lemma AnalysisIsOver(miner: R.Miner) returns (tr: seq<Event>)
    ensures IsRun(tr, miner) && Required(TemplateAt(tr)) == {} && StatusAt(tr) == UNADVISED
  {
    RequiredOfSamples();
    var a := BaselineEnds(Some(HARDENED_POD), [Container("main", Some(HARDENED))], miner);
    var b := AnalyzesNothing(a, Some({}), miner);
    tr := Concludes(b, miner);
    assert StatusAt(tr).conditions == UNADVISED.conditions;
  }

  /** With a zero duration, the wait for the baseline schedules nothing. */
  lemma ZeroDurationAwaitsBaseline(miner: R.Miner) returns (tr: seq<Event>, e: Effect)
    ensures IsRun(tr, miner) && Decide(StatusAt(tr), Required(TemplateAt(tr))) == AwaitBaseline
    ensures e.before == StatusAt(tr) && e.result.requeueAfter == 0 && !FinishedTrue(e.after)
    ensures forall parallel :: CarriedOut(e, Required(TemplateAt(tr)), 0, parallel)
  {
    tr := BaselineBegins(None, [], miner);
    tr := Begins(tr, 1, BaselineRun(false), miner);
    var s := StatusAt(tr);
    e := Effect(s, s, Findings(map[], Recommended(EMPTY_POD, EMPTY_LISTED)), [], DONE, 0, 0);
    SameConditionsKeep(s, s, {Baseline});
  }

  /** Nor does the wait for the final check. */
  lemma ZeroDurationAwaitsFinal(miner: R.Miner) returns (tr: seq<Event>, e: Effect)
    ensures IsRun(tr, miner) && Decide(StatusAt(tr), Required(TemplateAt(tr))) == AwaitFinal
    ensures e.before == StatusAt(tr) && e.result.requeueAfter == 0 && !FinishedTrue(e.after)
    ensures forall parallel :: CarriedOut(e, Required(TemplateAt(tr)), 0, parallel)
  {
    var id;
    tr, id := FinalBegins(miner);
    var s := RECORDING;
    e := Effect(s, s, Findings(map[], Recommended(EMPTY_POD, EMPTY_LISTED)), [], DONE, 0, 0);
    SameConditionsKeep(s, s, CONCLUSIONS + {FinalCheck});
    assert Holds(s, Analysis, True);
  }

  const FINALIZING := Awaiting(Recommended(HARDENED_POD, HARDENED))
  const RECORDING := With(FINALIZING, FinalCheck, False, CheckRecording)

  /** The final run of a workload that requires nothing is being recorded, and its recording is stored already. */
  lemma FinalBegins(miner: R.Miner) returns (tr: seq<Event>, id: nat)
    ensures IsRun(tr, miner) && Required(TemplateAt(tr)) == {} && SeenTrue(tr, Baseline)
    ensures Launched(tr, id, FinalRun) && Stored(tr, id) && StatusAt(tr) == RECORDING
  {
    RequiredOfSamples();
    var a := FinalIsLaunched(Some(HARDENED_POD), [Container("main", Some(HARDENED))], Some({}),
                             Recommended(HARDENED_POD, HARDENED), miner);
    id := |a| - 1;
    var b := Begins(a, id, FinalRun, miner);
    assert StatusAt(b).conditions == RECORDING.conditions;
    tr := Records(b, id, FinalRun, miner);
  }

  // ---------- sequential mode ----------

  const CHECKED := With(CHECKING, Check(User), True, CheckRecordingFinished)
  const CHECKING := With(With(BASELINED, Finished, False, CheckRecording), Check(User), False, CheckRecording)

  /** The one check that the workload requires has been launched, and its runner is recording. */
  lemma UserBegins(miner: R.Miner) returns (tr: seq<Event>, id: nat)
    ensures IsRun(tr, miner) && Required(TemplateAt(tr)) == {User} && SeenTrue(tr, Baseline)
    ensures StatusAt(tr) == CHECKING && Launched(tr, id, CheckRun(User)) && Stored(tr, id)
  {
    hide IsRun, StatusAt, Launches, RecordingsAt, TemplateAt;
    var a := UserIsAnnounced(miner);
    id := |a|;
    var b := Launching(a, CheckRun(User), Some(WithDefaults(User, BLANK)), miner);
    var c := Begins(b, id, CheckRun(User), miner);
    assert StatusAt(c).conditions == CHECKING.conditions;
    tr := Records(c, id, CheckRun(User), miner);
  }

  lemma UserIsAnnounced(miner: R.Miner) returns (tr: seq<Event>)
    ensures IsRun(tr, miner) && Required(TemplateAt(tr)) == {User} && SeenTrue(tr, Baseline)
    ensures StatusAt(tr) ==
            With(With(BASELINED, Check(User), Unknown, CheckNotStarted), Finished, False, CheckRecording)
  {
    RequiredOfSamples();
    var a := BaselineEnds(Some(USERLESS_POD), [Container("main", Some(HARDENED))], miner);
    var b := Announces(a, Check(User), Unknown, CheckNotStarted, miner);
    tr := Announces(b, Finished, False, CheckRecording, miner);
  }

  /** In sequential mode, while the only required check is being recorded, nothing is launched and nothing scheduled. */
  lemma SequentialIsStuck(duration: nat, miner: R.Miner) returns (tr: seq<Event>, e: Effect)
    ensures IsRun(tr, miner) && Decide(StatusAt(tr), Required(TemplateAt(tr))) == LaunchChecks
    ensures e.before == StatusAt(tr) && e.result.requeueAfter == 0 && !FinishedTrue(e.after)
    ensures CarriedOut(e, Required(TemplateAt(tr)), duration, false)
  {
    var id;
    tr, id := UserBegins(miner);
    var s := CHECKING;
    e := Effect(s, s, Findings(map[], Recommended(EMPTY_POD, EMPTY_LISTED)), [], DONE, 0, 0);
    assert CheckInProgress(s, User) && !Overdue(s, Check(User), 0, duration);
    SameConditionsKeep(s, s, {Finished} + Overruled(s, []));
  }

  const OVERLAPPING :=
    With(With(With(BASELINED, Check(Group), Unknown, CheckNotStarted), Finished, False, CheckRecording),
         Check(User), False, CheckRecording)

  /** In sequential mode the second check is launched while the first is being recorded and not overdue. */
  lemma SequentialOverlaps(duration: nat, miner: R.Miner) returns (tr: seq<Event>, e: Effect)
    ensures IsRun(tr, miner) && tr != [] && Required(TemplateAt(tr)) == {User, Group}
    ensures LaunchedLast(tr, CheckRun(Group), Some(WithDefaults(Group, BLANK)))
    ensures StatusAt(tr[..|tr| - 1]) == e.before && StatusAt(tr) == e.after && e.from == e.to
    ensures CheckInProgress(e.before, User) && !Overdue(e.before, Check(User), e.from, duration)
    ensures Decide(e.before, {User, Group}) == LaunchChecks && e.launched == [CheckRun(Group)]
    ensures CarriedOut(e, {User, Group}, duration, false)
  {
    var early := UserIsFirst(miner);
    tr := Launching(early, CheckRun(Group), Some(WithDefaults(Group, BLANK)), miner);
    assert tr[..|tr| - 1] == early;
    OverlappingDecision(duration);
    e := OverlappingEffect(duration);
  }

  lemma OverlappingDecision(duration: nat)
    ensures Decide(OVERLAPPING, {User, Group}) == LaunchChecks && IsDue(OVERLAPPING, Group, 0, duration)
    ensures CheckInProgress(OVERLAPPING, User) && !Overdue(OVERLAPPING, Check(User), 0, duration)
    ensures !CheckInProgress(OVERLAPPING, Group)
  {
    assert !CheckRecorded(OVERLAPPING, Group);
  }

  lemma OverlappingEffect(duration: nat) returns (e: Effect)
    ensures e.before == OVERLAPPING == e.after && e.from == e.to == 0 && e.launched == [CheckRun(Group)]
    ensures CarriedOut(e, {User, Group}, duration, false)
  {
    hide Decide, Kept, IsDue, CheckInProgress;
    OverlappingDecision(duration);
    var s, launched := OVERLAPPING, [CheckRun(Group)];
    e := Effect(s, s, Findings(map[], Recommended(EMPTY_POD, EMPTY_LISTED)), launched, Requeued(duration + MARGIN),
                0, 0);
    SameConditionsKeep(s, s, {Finished} + Overruled(s, launched));
  }

  lemma UserIsFirst(miner: R.Miner) returns (tr: seq<Event>)
    ensures IsRun(tr, miner) && Required(TemplateAt(tr)) == {User, Group} && SeenTrue(tr, Baseline)
    ensures StatusAt(tr) == OVERLAPPING
  {
    hide IsRun, StatusAt, Launches, RecordingsAt, TemplateAt;
    var a := BothAreAnnounced(miner);
    var b := Launching(a, CheckRun(User), Some(WithDefaults(User, BLANK)), miner);
    tr := Begins(b, |a|, CheckRun(User), miner);
    assert StatusAt(tr).conditions == OVERLAPPING.conditions;
  }

  lemma BothAreAnnounced(miner: R.Miner) returns (tr: seq<Event>)
    ensures IsRun(tr, miner) && Required(TemplateAt(tr)) == {User, Group} && SeenTrue(tr, Baseline)
    ensures StatusAt(tr) == With(With(With(BASELINED, Check(User), Unknown, CheckNotStarted),
                                      Check(Group), Unknown, CheckNotStarted), Finished, False, CheckRecording)
  {
    RequiredOfSamples();
    var a := BaselineEnds(Some(UNASSIGNED_POD), [Container("main", Some(HARDENED))], miner);
    var b := Announces(a, Check(User), Unknown, CheckNotStarted, miner);
    var c := Announces(b, Check(Group), Unknown, CheckNotStarted, miner);
    tr := Announces(c, Finished, False, CheckRecording, miner);
  }

  // ---------- a recorded check is launched again ----------

  /** Between position `n` and the end the check's condition has been True and is not any more, without having been
      removed. */
  predicate TakenBack(tr: seq<Event>, n: nat, t: CheckType) {
    n <= |tr| && CheckRecorded(StatusAt(tr[..n]), t) && !CheckRecorded(StatusAt(tr), t) &&
    forall i :: n <= i < |tr| ==> !Removes(tr[i], Check(t))
  }

  lemma UserIsRecorded(miner: R.Miner) returns (tr: seq<Event>, n: nat)
    ensures IsRun(tr, miner) && |tr| == n + 1 && Required(TemplateAt(tr)) == {User} && SeenTrue(tr, Baseline)
    ensures StatusAt(tr[..n]) == CHECKING && StatusAt(tr) == CHECKED && SetsTrue(tr[n], Check(User))
  {
    hide IsRun, StatusAt, Launches, RecordingsAt, TemplateAt;
    var early, id := UserBegins(miner);
    n := |early|;
    tr := Declares(early, id, CheckRun(User), miner);
    assert StatusAt(tr).conditions == CHECKED.conditions;
    assert tr[..n] == early;
  }

  /** The runner sets its condition True between the question whether its check is recorded, at `n`, and the question
      whether it is in progress. The check is launched once more, and its new runner takes the condition back. */
  lemma RelaunchedThoughRecorded(at: nat, duration: nat, miner: R.Miner) returns (tr: seq<Event>, n: nat)
    ensures IsRun(tr, miner) && |tr| == n + 3 && Required(TemplateAt(tr)) == {User}
    ensures LookedDue(tr, n, User, CheckLooks(n, n + 1, at), duration)
    ensures SetsTrue(tr[n], Check(User)) && TakenBack(tr, n + 1, User)
    ensures tr[n + 1] == Launch(n + 1, CheckRun(User), Some(WithDefaults(User, BLANK))) &&
            ActorOf(tr[n + 2]) == Runner(n + 1)
  {
    hide IsRun, StatusAt, Launches, RecordingsAt, TemplateAt;
    var a;
    a, n := UserIsRecorded(miner);
    var b := Launching(a, CheckRun(User), Some(WithDefaults(User, BLANK)), miner);
    tr := Begins(b, |a|, CheckRun(User), miner);
    assert tr[..n] == a[..n] && tr[..n + 1] == a;
  }

  /** Likewise if the check is found in progress and overdue, at `n`, before its runner sets the condition True: the
      reconciler itself takes it back, and launches the check once more. */
  lemma OverruledThoughRecorded(duration: nat, miner: R.Miner) returns (tr: seq<Event>, n: nat)
    ensures IsRun(tr, miner) && |tr| == n + 3 && Required(TemplateAt(tr)) == {User}
    ensures LookedDue(tr, n, User, CheckLooks(n, n, duration + BUFFER + 1), duration)
    ensures SetsTrue(tr[n], Check(User)) && TakenBack(tr, n + 1, User)
    ensures tr[n + 1] == Sets(Reconciler, Check(User), Unknown, Requeue)
    ensures LaunchedLast(tr, CheckRun(User), Some(WithDefaults(User, BLANK)))
  {
    hide IsRun, StatusAt, Launches, RecordingsAt, TemplateAt;
    var a;
    a, n := UserIsRecorded(miner);
    var b := Announces(a, Check(User), Unknown, Requeue, miner);
    tr := Launching(b, CheckRun(User), Some(WithDefaults(User, BLANK)), miner);
    assert tr[..n] == a[..n] && tr[..n + 1] == a;
  }

  // ---------- two looks that contradict each other ----------

  /** The reconcile that began at `n` has left nothing but these marks, and others have done only one thing. */
  predicate OnlyLooked(tr: seq<Event>, n: nat) {
    n <= |tr| && forall i :: n <= i < |tr| && ActorOf(tr[i]) == Reconciler ==> tr[i].Survey? || tr[i].Verdict?
  }

  /** What the two parts of a reconcile come to: its looks up to the baseline find `s`, but `s'` from some look on. */
  predicate ComesToNothing(s: Status, middle: Status, s': Status, required: set<CheckType>, duration: nat) {
    FinalPhase(s, middle, middle, None, [], 0, 0, duration) &&
    BaselinePhase(s, middle, middle, None, [], 0, 0, duration) &&
    LastPhase(s', s', DONE, [], required, 0, 0, duration, true)
  }

  /** The runner of the last required check sets its condition True between the two questions whether all checks are
      finished. Neither the first part of the reconcile nor its last part finds anything to do. */
  lemma LastCheckOvertakes(duration: nat, miner: R.Miner) returns (tr: seq<Event>, n: nat)
    ensures IsRun(tr, miner) && n <= |tr| && OnlyLooked(tr, n) && Settled(OwnedOf(StatusAt(tr)))
    ensures Overtaken(tr, n, AllRecordedLater(n, n + 1, n + 2, n + 3))
    ensures var s, s', required := StatusAt(tr[..n]), StatusAt(tr), Required(TemplateAt(tr));
            Decide(s, required) == LaunchChecks && Decide(s', required) == LaunchFinal &&
            ComesToNothing(s, s, s', required, duration)
  {
    tr, n := CheckIsFaster(miner);
    CheckedComesToNothing(duration);
  }

  lemma CheckedComesToNothing(duration: nat)
    ensures Decide(CHECKING, {User}) == LaunchChecks && Decide(CHECKED, {User}) == LaunchFinal
    ensures ComesToNothing(CHECKING, CHECKING, CHECKED, {User}, duration)
  {
    SameConditionsKeep(CHECKED, CHECKED, {});
  }

  lemma CheckIsFaster(miner: R.Miner) returns (tr: seq<Event>, n: nat)
    ensures IsRun(tr, miner) && n <= |tr| && OnlyLooked(tr, n) &&
            Overtaken(tr, n, AllRecordedLater(n, n + 1, n + 2, n + 3))
    ensures StatusAt(tr[..n]) == CHECKING && StatusAt(tr) == CHECKED && Required(TemplateAt(tr)) == {User}
  {
    var middle;
    middle, n := UserIsDeclared(miner);
    tr := UserIsJudged(middle, miner);
    UnrecordedInPrefix(middle, tr, n, n + 1);
    assert tr[..n] == middle[..n];
  }

  lemma UserIsDeclared(miner: R.Miner) returns (tr: seq<Event>, n: nat)
    ensures IsRun(tr, miner) && |tr| == n + 2 && OnlyLooked(tr, n) && Unrecorded(tr, n, n + 1)
    ensures StatusAt(tr[..n]) == CHECKING && StatusAt(tr) == CHECKED && Required(TemplateAt(tr)) == {User} &&
            AllSeen(tr, {User})
  {
    hide IsRun, StatusAt, Launches, RecordingsAt, TemplateAt;
    var early, id := UserBegins(miner);
    n := |early|;
    var a := Marks(early, Survey(Some({User})), miner);
    SeenGrows(early, a);
    tr := Declares(a, id, CheckRun(User), miner);
    assert StatusAt(tr).conditions == CHECKED.conditions;
    assert tr[..n] == early && tr[..n + 1] == a;
    assert User in Found(tr[n].found) && !CheckRecorded(StatusAt(a), User);
  }

  lemma UserIsJudged(tr: seq<Event>, miner: R.Miner) returns (tr': seq<Event>)
    requires IsRun(tr, miner) && !FinishedTrue(StatusAt(tr)) && AllSeen(tr, {User}) &&
             Required(TemplateAt(tr)) == {User}
    ensures IsRun(tr', miner) && tr' == tr + [Survey(Some({User})), Verdict] && Surveyed(tr', |tr|, |tr| + 1)
    ensures StatusAt(tr') == StatusAt(tr) && TemplateAt(tr') == TemplateAt(tr)
  {
    var a := Marks(tr, Survey(Some({User})), miner);
    tr' := Marks(a, Verdict, miner);
    assert tr'[..|tr| + 1] == a && tr'[..|tr|] == tr;
  }

  const CONFIRMED := With(FINALIZING, FinalCheck, True, CheckRecordingFinished)

  /** The final runner sets its condition True between the question whether the final check is recorded and the question
      whether it is in progress. */
  lemma FinalOvertakes(duration: nat, miner: R.Miner) returns (tr: seq<Event>, n: nat)
    ensures IsRun(tr, miner) && n <= |tr| && OnlyLooked(tr, n) && Settled(OwnedOf(StatusAt(tr)))
    ensures Overtaken(tr, n, FinalRecorded(n, n + 3))
    ensures var s, s', required := StatusAt(tr[..n]), StatusAt(tr), Required(TemplateAt(tr));
            Decide(s, required) == AwaitFinal && Decide(s', required) == DeclareFinished &&
            ComesToNothing(s, s', s', required, duration)
  {
    tr, n := FinalIsFaster(miner);
    ConfirmedComesToNothing(duration);
  }

  lemma ConfirmedComesToNothing(duration: nat)
    ensures Decide(RECORDING, {}) == AwaitFinal && Decide(CONFIRMED, {}) == DeclareFinished
    ensures ComesToNothing(RECORDING, CONFIRMED, CONFIRMED, {}, duration)
  {
    SameConditionsKeep(CONFIRMED, CONFIRMED, {});
  }

  lemma FinalIsFaster(miner: R.Miner) returns (tr: seq<Event>, n: nat)
    ensures IsRun(tr, miner) && n <= |tr| && OnlyLooked(tr, n) && Overtaken(tr, n, FinalRecorded(n, n + 3))
    ensures StatusAt(tr[..n]) == RECORDING && StatusAt(tr) == CONFIRMED && Required(TemplateAt(tr)) == {}
  {
    var middle;
    middle, n := FinalIsDeclared(miner);
    tr := NothingRequired(middle, Some({}), miner);
    assert tr[..n] == middle[..n] && tr[..n + 3] == middle;
  }

  lemma FinalIsDeclared(miner: R.Miner) returns (tr: seq<Event>, n: nat)
    ensures IsRun(tr, miner) && n <= |tr| && OnlyLooked(tr, n) && |tr| == n + 3
    ensures StatusAt(tr[..n]) == RECORDING && StatusAt(tr) == CONFIRMED && Required(TemplateAt(tr)) == {} &&
            SeenTrue(tr, Baseline)
  {
    var early, id := FinalBegins(miner);
    n := |early|;
    var a := NothingRequired(early, Some({}), miner);
    SeenGrows(early, a);
    tr := Declares(a, id, FinalRun, miner);
    assert StatusAt(tr).conditions == CONFIRMED.conditions;
    assert tr[..n] == early;
  }

  const FIRST_RECORDED :=
    With(LAUNCHED, Baseline, True, BaselineRecordingFinished).(baselineRuns := [EntryFor(BaselineRun(false), None)])
  const SECOND_BEGUN := With(FIRST_RECORDED, Baseline, False, BaselineRecording)

  /** The second baseline runner sets the condition that both share to False after the first has set it True and the
      reconcile has seen that. */
  lemma BaselineIsLost(duration: nat, miner: R.Miner) returns (tr: seq<Event>, n: nat)
    ensures IsRun(tr, miner) && n <= |tr| && OnlyLooked(tr, n) && Settled(OwnedOf(StatusAt(tr)))
    ensures Overtaken(tr, n, BaselineLost(n, n + 2))
    ensures var s, s', required := StatusAt(tr[..n]), StatusAt(tr), Required(TemplateAt(tr));
            Decide(s, required) == LaunchChecks && Decide(s', required) == AwaitBaseline &&
            ComesToNothing(s, s, s', required, duration)
  {
    tr, n := SecondIsSlower(miner);
    SecondComesToNothing(duration);
  }

  lemma SecondComesToNothing(duration: nat)
    ensures Decide(FIRST_RECORDED, ALL_CHECKS) == LaunchChecks && Decide(SECOND_BEGUN, ALL_CHECKS) == AwaitBaseline
    ensures ComesToNothing(FIRST_RECORDED, FIRST_RECORDED, SECOND_BEGUN, ALL_CHECKS, duration)
  {
    assert !CheckRecorded(FIRST_RECORDED, User);
    SameConditionsKeep(SECOND_BEGUN, SECOND_BEGUN, {});
  }

  lemma FirstIsRecorded(miner: R.Miner) returns (tr: seq<Event>)
    ensures IsRun(tr, miner) && StatusAt(tr) == FIRST_RECORDED && Required(TemplateAt(tr)) == ALL_CHECKS
    ensures Launched(tr, 3, BaselineRun(true)) && tr[3].context == None && NothingPut(tr, 3) && SeenTrue(tr, Baseline)
    ensures Launches(tr) == [BaselineRun(false), BaselineRun(true)]
  {
    hide IsRun, StatusAt, Launches, RecordingsAt, TemplateAt;
    RequiredOfSamples();
    var start := BaselineBegins(None, [Container("main", None)], miner);
    tr := RunsToTheEnd(start, 1, BaselineRun(false), miner);
    assert StatusAt(tr).conditions == FIRST_RECORDED.conditions;
  }

  lemma SecondIsSlower(miner: R.Miner) returns (tr: seq<Event>, n: nat)
    ensures IsRun(tr, miner) && n <= |tr| && OnlyLooked(tr, n) && Overtaken(tr, n, BaselineLost(n, n + 2))
    ensures StatusAt(tr[..n]) == FIRST_RECORDED && StatusAt(tr) == SECOND_BEGUN &&
            Required(TemplateAt(tr)) == ALL_CHECKS
  {
    hide IsRun, StatusAt, Launches, RecordingsAt, TemplateAt;
    var early := FirstIsRecorded(miner);
    n := |early|;
    var a := Marks(early, Survey(Some(ALL_CHECKS)), miner);
    tr := Begins(a, 3, BaselineRun(true), miner);
    assert StatusAt(tr).conditions == SECOND_BEGUN.conditions;
    assert tr[..n] == early && tr[..n + 2] == tr;
  }
}
