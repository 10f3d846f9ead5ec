/** The check manager: a local copy of the object, refreshed before almost every question, and the status
    updates that both the reconciler and the runners make through it. */
module Manager {
  import opened Prelude
  import opened SecurityContexts
  import opened Checks
  import HS = HardeningStatus
  import opened HardeningStatus
  import opened Trace
  import opened Provenance
  import opened Environment
  import opened Decisions
  import R = Recommendation

  const ATTEMPTS := 5

  /** The error of a run without a recording cannot occur, and judging a run leaves its context alone. */
  lemma NothingIsMissing(miner: R.Miner, stored: map<Kind, R.Recording>, s: Status)
    requires RunsRecorded(s, stored.Keys)
    ensures var analysis := R.AnalysisOf(miner, stored, s.checkRuns);
            !analysis.Missing? &&
            (analysis.Updated? ==>
               forall t :: t in analysis.runs ==> CheckRun(t) in stored && Configured(t, analysis.runs[t].context))
  {
  }

  predicate EachConfigured(runs: map<CheckType, R.Run>) {
    forall t :: t in runs ==> Configured(t, runs[t].context)
  }

  predicate KeepsRuns(m: Mutation) {
    !m.PutRun? && !m.ReplaceRuns?
  }

  function SurveyOf(readable: bool, template: Template): (e: Event)
    ensures e.Survey?
  {
    Survey(if readable then Some(Required(template)) else None)
  }

  /** A check that the survey has found, or the baseline, is not recorded at some moment. */
  predicate Unrecorded(tr: seq<Event>, survey: nat, look: nat) {
    survey <= look <= |tr| &&
    (HS.BaselineRecorded(StatusAt(tr[..look])) ==>
       survey < look && tr[survey].Survey? &&
       exists t :: t in Found(tr[survey].found) && !HS.CheckRecorded(StatusAt(tr[..look]), t))
  }

  class CheckManager {
    const w: World
    const me: Actor
    const seconds: nat
    const specified: Option<Defaults>
    var local: Status
    var version: nat
    /** Where in the trace the copy was read. */
    var readAt: nat

    constructor (w: World, me: Actor, seconds: nat, specified: Option<Defaults>, local: Status, version: nat)
      requires w.Valid()
      requires specified.Some? ==> Complete(specified.value)
      ensures Valid() && this.w == w && this.me == me && this.seconds == seconds && this.specified == specified
      ensures this.local == local
    {
      readAt := |w.trace|;
      this.w, this.me, this.seconds, this.specified := w, me, seconds, specified;
      this.local, this.version := local, version;
    }

    ghost predicate Valid()
      reads this, w
    {
      w.Valid() && (specified.Some? ==> Complete(specified.value))
    }

    /** The runs of the copy were read at some moment from position `n` on, and no mark has been left since. */
    ghost predicate ReadSince(n: nat)
      reads this, w
    {
      n <= readAt && ReadAt(local, w.trace, readAt)
    }

    /** The recording duration in nanoseconds. */
    function GetCheckDuration(): nat {
      seconds * 1_000_000_000
    }

    method Refresh()
      requires Valid()
      modifies this, w
      ensures Valid() && Waited(old(w.Snap()), w.Snap(), me)
      ensures local == w.status && version == w.version && readAt == |w.trace|
      ensures me == Reconciler ==> Quiet(old(w.Snap()), w.Snap())
    {
      w.Interfere(me);
      OthersLeave(old(w.trace), w.trace, me);
      if me == Reconciler { OthersLaunchNothing(old(w.trace), w.trace); }
      local, version, readAt := w.status, w.version, |w.trace|;
    }

    /** Reads the object and changes the copy. */
    method Prepare(m: Mutation) returns (at: nat)
      requires Valid() && May(w.trace, me, m)
      modifies this, w
      ensures Valid() && Waited(old(w.Snap()), w.Snap(), me)
      ensures May(w.trace, me, Timed(m, at)) && version == w.version && local == Apply(Timed(m, at), w.status)
      ensures at == w.now && readAt == |w.trace|
    {
      Refresh();
      at := w.now;
      MayIsStable(old(w.trace), w.trace, me, m);
      local := Apply(Timed(m, at), local);
    }

    /** Submits the copy with the version that was read. */
    method Submit(m: Mutation) returns (outcome: Outcome, ghost before: seq<Event>)
      requires Valid() && May(w.trace, me, m) && version == w.version && local == Apply(m, w.status)
      modifies this`version, w
      ensures Valid() && Onward(old(w.Snap()), w.Snap())
      ensures outcome.Accepted? ==> local == w.status
      ensures OthersOnly(old(w.trace), before, me) && WellFormed(before)
      ensures w.trace == if outcome.Accepted? then before + [Commit(me, m)] else before
      ensures outcome.Conflict? ==> Waited(old(w.Snap()), w.Snap(), me) && w.noise > old(w.noise)
      ensures w.failures == old(w.failures) + (if outcome.Failed? then 1 else 0)
      ensures w.noise == old(w.noise) ==> outcome.Accepted? && w.recordings == old(w.recordings)
    {
      outcome, before := w.Send(me, version, local, m);
      if outcome.Accepted? { version := w.version; }
    }

    /** One attempt: read, change, submit. */
    method Attempt(m: Mutation) returns (outcome: Outcome, at: nat, ghost before: seq<Event>)
      requires Valid() && May(w.trace, me, m)
      modifies this, w
      ensures Valid() && Onward(old(w.Snap()), w.Snap())
      ensures me == Reconciler && KeepsRuns(m) ==> ReadSince(|old(w.trace)|)
      ensures OthersOnly(old(w.trace), before, me) && WellFormed(before)
      ensures w.trace == if outcome.Accepted? then before + [Commit(me, Timed(m, at))] else before
      ensures outcome.Accepted? ==> local == w.status
      ensures outcome.Conflict? ==> Waited(old(w.Snap()), w.Snap(), me) && w.noise > old(w.noise)
      ensures w.failures == old(w.failures) + (if outcome.Failed? then 1 else 0)
      ensures w.noise == old(w.noise) ==>
        outcome.Accepted? && old(w.now) <= at <= w.now && w.recordings == old(w.recordings) &&
        local == w.status == Apply(Timed(m, at), old(w.status))
    {
      at := Prepare(m);
      label Prepared:
      outcome, before := Submit(Timed(m, at));
      if me == Reconciler && KeepsRuns(m) {
        ReadStays(local, old@Prepared(w.trace), before, Timed(m, at), outcome.Accepted?);
      }
      if outcome.Conflict? { WaitedTwice(old(w.Snap()), old@Prepared(w.Snap()), w.Snap(), me); }
      OthersOnlyTwice(old(w.trace), old@Prepared(w.trace), before, me);
    }

    /** One attempt of a series that began with `start` and has only seen conflicts so far. */
    method AttemptAgain(m: Mutation, ghost start: Snapshot) returns (outcome: Outcome, at: nat)
      requires Valid() && Waited(start, w.Snap(), me) && May(start.trace, me, m)
      modifies this, w
      ensures Valid() && Onward(start, w.Snap())
      ensures me == Reconciler && KeepsRuns(m) ==> ReadSince(|start.trace|)
      ensures OwnEvents(w.trace, me) ==
        OwnEvents(start.trace, me) + (if outcome.Accepted? then [Commit(me, Timed(m, at))] else [])
      ensures outcome.Accepted? ==> local == w.status && EndsWith(w.trace, Commit(me, Timed(m, at)))
      ensures outcome.Conflict? ==> Waited(start, w.Snap(), me) && w.noise > old(w.noise) >= start.noise
      ensures w.noise >= old(w.noise)
      ensures w.failures == start.failures + (if outcome.Failed? then 1 else 0)
      ensures w.noise == start.noise ==>
        outcome.Accepted? && start.now <= at <= w.now && w.recordings == start.recordings &&
        local == w.status == Apply(Timed(m, at), start.status)
    {
      ghost var middle := w.Snap();
      MayIsStable(start.trace, w.trace, me, m);
      ghost var before;
      outcome, at, before := Attempt(m);
      AttemptedAfterOthers(start.trace, middle.trace, before, me, Timed(m, at), outcome.Accepted?);
      if outcome.Conflict? { WaitedTwice(start, middle, w.Snap(), me); }
    }

    /** What every status update of this program does: retried on conflict, given up after five attempts or on
        any other error. It is committed once or not at all, and nobody else's changes are lost. */
    method UpdateStatus(m: Mutation) returns (ok: bool, at: nat, ghost last: Outcome, ghost conflicts: nat)
      requires Valid() && May(w.trace, me, m)
      modifies this, w
      ensures Valid() && Onward(old(w.Snap()), w.Snap())
      ensures me == Reconciler && KeepsRuns(m) ==> ReadSince(|old(w.trace)|)
      ensures w.failures == old(w.failures) + (if ok then 0 else 1)
      ensures (ok <==> last.Accepted?) && (last.Conflict? <==> conflicts == 5) && conflicts <= 5
      ensures w.noise >= old(w.noise) + conflicts
      ensures ok ==> local == w.status && EndsWith(w.trace, Commit(me, Timed(m, at)))
      ensures OwnEvents(w.trace, me) == OwnEvents(old(w.trace), me) + (if ok then [Commit(me, Timed(m, at))] else [])
      ensures w.noise == old(w.noise) ==>
        ok && old(w.now) <= at <= w.now && w.recordings == old(w.recordings) &&
        local == w.status == Apply(Timed(m, at), old(w.status))
    {
      ok, at, last, conflicts := false, 0, Conflict, 0;
      var attempt := 0;
      while attempt < ATTEMPTS
        invariant 0 <= attempt <= ATTEMPTS && !ok && last.Conflict? && conflicts == attempt
        invariant w.noise >= old(w.noise) + conflicts
        invariant Valid() && Waited(old(w.Snap()), w.Snap(), me)
        invariant attempt > 0 ==> w.noise > old(w.noise)
        invariant attempt > 0 && me == Reconciler && KeepsRuns(m) ==> ReadSince(|old(w.trace)|)
      {
        var outcome;
        outcome, at := AttemptAgain(m, old(w.Snap()));
        if !outcome.Conflict? { return outcome.Accepted?, at, outcome, conflicts; }
        attempt, conflicts := attempt + 1, conflicts + 1;
      }
      OthersLeave(old(w.trace), w.trace, me);
      w.GiveUp();
    }

    /** Sets one condition; for the reconciler with the effect on what only it writes. */
    method SetCondition(c: CondType, status: CondStatus, reason: Reason) returns (ok: bool, ghost at: nat)
      requires Valid() && May(w.trace, me, SetCond(c, status, reason, 0))
      modifies this, w
      ensures Valid() && Onward(old(w.Snap()), w.Snap())
      ensures me == Reconciler ==> ReadSince(|old(w.trace)|)
      ensures w.failures == old(w.failures) + (if ok then 0 else 1)
      ensures OwnEvents(w.trace, me) ==
        OwnEvents(old(w.trace), me) + (if ok then [Commit(me, SetCond(c, status, reason, at))] else [])
      ensures me == Reconciler ==>
        Launches(w.trace) == Launches(old(w.trace)) && ProgressAt(w.trace) == ProgressAt(old(w.trace))
      ensures me == Reconciler && !ok ==> OwnedOf(w.status) == OwnedOf(old(w.status))
      ensures me == Reconciler && ok ==> OwnedSet(OwnedOf(old(w.status)), OwnedOf(w.status), c, status, reason)
      ensures w.noise == old(w.noise) ==>
        ok && old(w.now) <= at <= w.now && w.recordings == old(w.recordings) &&
        local == w.status == Apply(SetCond(c, status, reason, at), old(w.status))
    {
      var time;
      ghost var last, conflicts;
      ok, time, last, conflicts := UpdateStatus(SetCond(c, status, reason, 0));
      at := time;
      if me == Reconciler {
        if ok {
          OwnedAfter(old(w.trace), w.trace, SetCond(c, status, reason, at));
          SetCondOwns(old(w.status), c, status, reason, at);
        } else {
          OwnedUnchanged(old(w.trace), w.trace);
        }
      }
    }

    // ---------- questions ----------

    method BaselineRecorded() returns (r: bool)
      requires Valid()
      modifies this, w
      ensures Valid() && Waited(old(w.Snap()), w.Snap(), me) && local == w.status
      ensures me == Reconciler ==> Quiet(old(w.Snap()), w.Snap())
      ensures r == HS.BaselineRecorded(local) && (r ==> SeenTrue(w.trace, Baseline))
      ensures r <==>
        Baseline in local.conditions && local.conditions[Baseline].status == True &&
        local.conditions[Baseline].reason in {BaselineRecordingFinished, BaselineRecordingFailed}
    {
      Refresh();
      r := HS.BaselineRecorded(local);
      if r { TrueWasSeen(w.trace, Baseline); }
    }

    method BaselineInProgress() returns (r: bool)
      requires Valid()
      modifies this, w
      ensures Valid() && Waited(old(w.Snap()), w.Snap(), me) && local == w.status
      ensures me == Reconciler ==> Quiet(old(w.Snap()), w.Snap())
      ensures r == HS.BaselineInProgress(local)
      ensures r <==>
        Baseline in local.conditions && local.conditions[Baseline].status == False &&
        local.conditions[Baseline].reason == BaselineRecording
    {
      Refresh();
      r := HS.BaselineInProgress(local);
    }

    method BaselineOverdue() returns (r: bool)
      requires Valid()
      modifies this, w
      ensures Valid() && Waited(old(w.Snap()), w.Snap(), me) && local == w.status
      ensures me == Reconciler ==> Quiet(old(w.Snap()), w.Snap())
      ensures r == (HS.BaselineInProgress(local) && Overdue(local, Baseline, w.now, GetCheckDuration()))
      ensures r <==>
        Baseline in local.conditions && local.conditions[Baseline].status == False &&
        local.conditions[Baseline].reason == BaselineRecording &&
        w.now > local.conditions[Baseline].since + seconds * 1_000_000_000 + 60_000_000_000
    {
      var running := BaselineInProgress();
      r := running && Overdue(local, Baseline, w.now, GetCheckDuration());
    }

    method FinalCheckRecorded() returns (r: bool)
      requires Valid()
      modifies this, w
      ensures Valid() && Waited(old(w.Snap()), w.Snap(), me) && local == w.status
      ensures me == Reconciler ==> Quiet(old(w.Snap()), w.Snap())
      ensures r == HS.FinalCheckRecorded(local) && (r ==> SeenTrue(w.trace, FinalCheck))
      ensures r <==>
        FinalCheck in local.conditions && local.conditions[FinalCheck].status == True &&
        local.conditions[FinalCheck].reason in {CheckRecordingFinished, CheckRecordingFailed}
    {
      Refresh();
      r := HS.FinalCheckRecorded(local);
      if r { TrueWasSeen(w.trace, FinalCheck); }
    }

    method FinalCheckInProgress() returns (r: bool)
      requires Valid()
      modifies this, w
      ensures Valid() && Waited(old(w.Snap()), w.Snap(), me) && local == w.status
      ensures me == Reconciler ==> Quiet(old(w.Snap()), w.Snap())
      ensures r == HS.FinalCheckInProgress(local)
      ensures r <==>
        FinalCheck in local.conditions && local.conditions[FinalCheck].status == False &&
        local.conditions[FinalCheck].reason == CheckRecording
    {
      Refresh();
      r := HS.FinalCheckInProgress(local);
    }

    method FinalCheckOverdue() returns (r: bool)
      requires Valid()
      modifies this, w
      ensures Valid() && Waited(old(w.Snap()), w.Snap(), me) && local == w.status
      ensures me == Reconciler ==> Quiet(old(w.Snap()), w.Snap())
      ensures r == (HS.FinalCheckInProgress(local) && Overdue(local, FinalCheck, w.now, GetCheckDuration()))
      ensures r <==>
        FinalCheck in local.conditions && local.conditions[FinalCheck].status == False &&
        local.conditions[FinalCheck].reason == CheckRecording &&
        w.now > local.conditions[FinalCheck].since + seconds * 1_000_000_000 + 60_000_000_000
    {
      var running := FinalCheckInProgress();
      r := running && Overdue(local, FinalCheck, w.now, GetCheckDuration());
    }

    method CheckRecorded(t: CheckType) returns (r: bool)
      requires Valid()
      modifies this, w
      ensures Valid() && Waited(old(w.Snap()), w.Snap(), me) && local == w.status
      ensures me == Reconciler ==> Quiet(old(w.Snap()), w.Snap())
      ensures r == HS.CheckRecorded(local, t) && (r ==> SeenTrue(w.trace, Check(t)))
      ensures r <==>
        Check(t) in local.conditions && local.conditions[Check(t)].status == True &&
        local.conditions[Check(t)].reason in {CheckRecordingFinished, CheckRecordingFailed}
    {
      Refresh();
      r := HS.CheckRecorded(local, t);
      if r { TrueWasSeen(w.trace, Check(t)); }
    }

    method CheckInProgress(t: CheckType) returns (r: bool)
      requires Valid()
      modifies this, w
      ensures Valid() && Waited(old(w.Snap()), w.Snap(), me) && local == w.status
      ensures me == Reconciler ==> Quiet(old(w.Snap()), w.Snap())
      ensures r == HS.CheckInProgress(local, t)
      ensures r <==>
        Check(t) in local.conditions && local.conditions[Check(t)].status == False &&
        local.conditions[Check(t)].reason == CheckRecording
    {
      Refresh();
      r := HS.CheckInProgress(local, t);
    }

    method CheckOverdue(t: CheckType) returns (r: bool)
      requires Valid()
      modifies this, w
      ensures Valid() && Waited(old(w.Snap()), w.Snap(), me) && local == w.status
      ensures me == Reconciler ==> Quiet(old(w.Snap()), w.Snap())
      ensures r == (HS.CheckInProgress(local, t) && Overdue(local, Check(t), w.now, GetCheckDuration()))
      ensures r <==>
        Check(t) in local.conditions && local.conditions[Check(t)].status == False &&
        local.conditions[Check(t)].reason == CheckRecording &&
        w.now > local.conditions[Check(t)].since + seconds * 1_000_000_000 + 60_000_000_000
    {
      var running := CheckInProgress(t);
      r := running && Overdue(local, Check(t), w.now, GetCheckDuration());
    }

    predicate RecommendationExists()
      reads this
    {
      local.recommendation.Some?
    }

    /** Announces a required check that has no condition yet. */
    method Announce(t: CheckType)
      requires Valid() && me == Reconciler && Unfinished(w.status)
      modifies this, w
      ensures Valid() && Onward(old(w.Snap()), w.Snap()) && Quiet(old(w.Snap()), w.Snap())
      ensures w.noise == old(w.noise) && old(local) == old(w.status) ==>
        local == w.status && w.recordings == old(w.recordings) &&
        Kept(old(w.status), w.status, {}) && SameRuns(old(w.status), w.status) && Check(t) in w.status.conditions
    {
      if Check(t) !in local.conditions {
        FinishedIsOwned(w.status);
        MayAnnounce(w.trace, t);
        ghost var at;
        var ok;
        ok, at := SetCondition(Check(t), Unknown, CheckNotStarted);
        if Check(t) !in old(w.status).conditions { AnnouncingKeeps(old(w.status), t, at); }
      }
    }

    /** What the template requires is entered in the trace, or that it could not be read. */
    method EnterSurvey(readable: bool)
      requires Valid() && me == Reconciler && Unfinished(w.status)
      modifies w
      ensures Valid() && Onward(old(w.Snap()), w.Snap()) && Steady(old(w.Snap()), w.Snap())
      ensures w.Snap() == old(w.Snap()).(trace := w.trace)
      ensures w.trace == old(w.trace) + [SurveyOf(readable, TemplateAt(old(w.trace)))]
      ensures ProgressAt(w.trace) == HasSurveyed(SurveyOf(readable, TemplateAt(old(w.trace))).found)
    {
      FinishedIsOwned(w.status);
      var e := SurveyOf(readable, Template(w.podContext, ViewAll(w.containers), []));
      LaunchesNext(w.trace, e);
      ProgressNext(w.trace, e);
      w.Record(e);
    }

    /** Announces what the template requires. */
    method AnnounceRequired(template: Template) returns (required: set<CheckType>)
      requires Valid() && me == Reconciler && Unfinished(w.status)
      modifies this, w
      ensures Valid() && Onward(old(w.Snap()), w.Snap()) && Quiet(old(w.Snap()), w.Snap())
      ensures required == Required(template)
      ensures w.noise == old(w.noise) && old(local) == old(w.status) ==>
        local == w.status && w.recordings == old(w.recordings) &&
        Kept(old(w.status), w.status, {}) && SameRuns(old(w.status), w.status) && AllAnnounced(w.status, required)
    {
      required := {};
      var rest := ALL_CHECKS;
      while rest != {}
        invariant Valid() && Onward(old(w.Snap()), w.Snap()) && Quiet(old(w.Snap()), w.Snap())
        invariant required == set t | t in ALL_CHECKS - rest && ShouldRun(t, template)
        invariant w.noise == old(w.noise) && old(local) == old(w.status) ==>
          local == w.status && w.recordings == old(w.recordings) &&
          Kept(old(w.status), w.status, {}) && SameRuns(old(w.status), w.status) && AllAnnounced(w.status, required)
      {
        var t :| t in rest;
        rest := rest - {t};
        if ShouldRun(t, template) {
          ghost var before := w.status;
          required := required + {t};
          Announce(t);
          if w.noise == old(w.noise) && old(local) == old(w.status) {
            KeptTwice(old(w.status), before, w.status, {});
          }
        }
      }
    }

    /** The checks that the workload needs; none at all if the workload cannot be read. */
    method GetRequiredCheckRuns() returns (required: set<CheckType>, ghost survey: nat)
      requires Valid() && me == Reconciler && Unfinished(w.status)
      modifies this, w
      ensures Valid() && Onward(old(w.Snap()), w.Snap()) && Steady(old(w.Snap()), w.Snap())
      ensures |old(w.trace)| <= survey < |w.trace| && w.trace[survey].Survey? &&
              required == Found(w.trace[survey].found)
      ensures ProgressAt(w.trace) == HasSurveyed(w.trace[survey].found)
      ensures w.trace[survey].found == Some(Required(TemplateAt(w.trace[..survey]))) ||
              (w.trace[survey].found.None? && w.failures > old(w.failures))
      ensures w.noise == old(w.noise) && old(local) == old(w.status) ==>
        required == Required(TemplateOf(old(w.Snap()))) && local == w.status && w.recordings == old(w.recordings) &&
        Kept(old(w.status), w.status, {}) && SameRuns(old(w.status), w.status) && AllAnnounced(w.status, required)
    {
      required := {};
      var readable := w.ReadTemplate();
      var template := Template(w.podContext, ViewAll(w.containers), []);
      survey := |w.trace|;
      EnterSurvey(readable);
      if readable {
        ghost var surveyed := w.trace;
        required := AnnounceRequired(template);
        assert w.trace[survey] == surveyed[survey];
      }
      assert w.trace[..survey] == old(w.trace);
    }

    /** One turn of the loop that began with `start` and has found `seen` recorded. */
    method SeeRecorded(t: CheckType, ghost seen: set<CheckType>, ghost start: Snapshot) returns (r: bool)
      requires Valid() && me == Reconciler && Waited(start, w.Snap(), me) && Quiet(start, w.Snap())
      requires AllSeen(w.trace, seen)
      modifies this, w
      ensures Valid() && Waited(start, w.Snap(), me) && Quiet(start, w.Snap()) && local == w.status
      ensures w.noise >= old(w.noise) && r == HS.CheckRecorded(w.status, t)
      ensures w.noise == start.noise && ChecksRecorded(start.status, seen) ==>
        r == ChecksRecorded(start.status, seen + {t})
      ensures r ==> AllSeen(w.trace, seen + {t})
    {
      r := CheckRecorded(t);
      SeenGrows(old(w.trace), w.trace);
      WaitedTwice(start, old(w.Snap()), w.Snap(), me);
    }

    /** The conditions are read one after another, with room for changes in between. */
    method AllRecordedOneByOne(required: set<CheckType>) returns (r: bool)
      requires Valid() && me == Reconciler && SeenTrue(w.trace, Baseline)
      modifies this, w
      ensures Valid() && Waited(old(w.Snap()), w.Snap(), me) && Quiet(old(w.Snap()), w.Snap())
      ensures r ==> AllSeen(w.trace, required)
      ensures !r ==> exists t :: t in required && !HS.CheckRecorded(w.status, t)
      ensures w.noise == old(w.noise) ==> r == ChecksRecorded(old(w.status), required)
      ensures local == old(local) || local == w.status
    {
      var seen: set<CheckType> := {};
      r := true;
      while r && seen != required
        invariant seen <= required
        invariant Valid() && Waited(old(w.Snap()), w.Snap(), me) && Quiet(old(w.Snap()), w.Snap())
        invariant r ==> AllSeen(w.trace, seen)
        invariant !r ==> exists t :: t in required && !HS.CheckRecorded(w.status, t)
        invariant w.noise == old(w.noise) ==> r == ChecksRecorded(old(w.status), seen)
        invariant local == old(local) || local == w.status
        decreases required - seen
      {
        var t :| t in required && t !in seen;
        r := SeeRecorded(t, seen, old(w.Snap()));
        seen := seen + {t};
      }
    }

    /** The verdict is entered in the trace. */
    method EnterVerdict()
      requires Valid() && Unfinished(w.status)
      requires ProgressAt(w.trace).HasSurveyed? && AllSeen(w.trace, Found(ProgressAt(w.trace).found))
      modifies w
      ensures Valid() && Onward(old(w.Snap()), w.Snap()) && Steady(old(w.Snap()), w.Snap())
      ensures w.trace == old(w.trace) + [Verdict] && w.Snap() == old(w.Snap()).(trace := w.trace)
      ensures ProgressAt(w.trace) == HasJudged(ProgressAt(old(w.trace)).found)
    {
      FinishedIsOwned(w.status);
      LaunchesNext(w.trace, Verdict);
      ProgressNext(w.trace, Verdict);
      w.Record(Verdict);
    }

    /** Whether what the survey has found is recorded. */
    method Judge(required: set<CheckType>) returns (r: bool)
      requires Valid() && me == Reconciler && Unfinished(w.status) && SeenTrue(w.trace, Baseline)
      requires ProgressAt(w.trace).HasSurveyed? && required == Found(ProgressAt(w.trace).found)
      modifies this, w
      ensures Valid() && Onward(old(w.Snap()), w.Snap()) && Steady(old(w.Snap()), w.Snap())
      ensures w.failures == old(w.failures)
      ensures r ==> EndsWith(w.trace, Verdict) && |old(w.trace)| < |w.trace| &&
                    ProgressAt(w.trace) == HasJudged(ProgressAt(old(w.trace)).found)
      ensures !r ==> exists t :: t in required && !HS.CheckRecorded(w.status, t)
      ensures w.noise == old(w.noise) && old(local) == old(w.status) ==>
        r == ChecksRecorded(old(w.status), required) &&
        local == w.status == old(w.status) && w.recordings == old(w.recordings)
    {
      r := AllRecordedOneByOne(required);
      if r { EnterVerdict(); }
    }

    /** All but the baseline. */
    method AllRequiredFinished() returns (r: bool, ghost survey: nat)
      requires Valid() && me == Reconciler && Unfinished(w.status) && SeenTrue(w.trace, Baseline) && local == w.status
      modifies this, w
      ensures Valid() && Onward(old(w.Snap()), w.Snap()) && Steady(old(w.Snap()), w.Snap())
      ensures |old(w.trace)| <= survey < |w.trace| && w.trace[survey].Survey?
      ensures w.failures == old(w.failures) ==> w.trace[survey].found.Some?
      ensures r ==> EndsWith(w.trace, Verdict) && survey < |w.trace| - 1
      ensures r ==> ProgressAt(w.trace) == HasJudged(w.trace[survey].found)
      ensures !r ==> exists t :: t in Found(w.trace[survey].found) && !HS.CheckRecorded(w.status, t)
      ensures w.noise == old(w.noise) ==>
        r == ChecksRecorded(old(w.status), Required(TemplateOf(old(w.Snap())))) &&
        local == w.status && w.recordings == old(w.recordings) &&
        Kept(old(w.status), w.status, {}) && SameRuns(old(w.status), w.status)
    {
      var required;
      required, survey := GetRequiredCheckRuns();
      SeenGrows(old(w.trace), w.trace);
      ghost var surveyed := w.trace;
      r := Judge(required);
      assert w.trace[survey] == surveyed[survey];
      if w.noise == old(w.noise) { KeptLooksAlike(old(w.status), w.status, required); }
    }

    /** The survey that the verdict at the end of the trace is on. */
    ghost method LatestSurvey(survey: nat) returns (latest: nat)
      requires Valid() && EndsWith(w.trace, Verdict) && survey < |w.trace| - 1 && w.trace[survey].Survey?
      requires ProgressAt(w.trace) == HasJudged(w.trace[survey].found)
      ensures survey <= latest < |w.trace| - 1 && Surveyed(w.trace, latest, |w.trace| - 1)
      ensures w.trace[latest].found == w.trace[survey].found
    {
      latest := VerdictHasSurvey(w.trace, w.miner, |w.trace| - 1);
      if latest < survey { assert IsMark(w.trace[survey]); }
    }

    /** The answer with its place in the trace. */
    method JudgeRequired() returns (r: bool, ghost survey: nat)
      requires Valid() && me == Reconciler && Unfinished(w.status) && SeenTrue(w.trace, Baseline) && local == w.status
      modifies this, w
      ensures Valid() && Onward(old(w.Snap()), w.Snap()) && Steady(old(w.Snap()), w.Snap())
      ensures r ==> |old(w.trace)| <= survey < |w.trace| && Surveyed(w.trace, survey, |w.trace| - 1) &&
                    ProgressAt(w.trace).HasJudged?
      ensures r && w.failures == old(w.failures) ==> w.trace[survey].found.Some?
      ensures !r ==> |old(w.trace)| <= survey && Unrecorded(w.trace, survey, |w.trace|)
      ensures w.noise == old(w.noise) ==>
        r == ChecksRecorded(old(w.status), Required(TemplateOf(old(w.Snap())))) &&
        local == w.status && w.recordings == old(w.recordings) &&
        Kept(old(w.status), w.status, {}) && SameRuns(old(w.status), w.status)
    {
      r, survey := AllRequiredFinished();
      assert w.trace[..|w.trace|] == w.trace;
      if r { survey := LatestSurvey(survey); }
    }

    /** True: the last thing entered is a verdict on a survey of this very call. False: the baseline or a check found
        by that survey was not recorded when it was looked at, which was at position `look`. */
    method AllChecksFinished() returns (r: bool, ghost survey: nat, ghost look: nat)
      requires Valid() && me == Reconciler && Unfinished(w.status)
      modifies this, w
      ensures Valid() && Onward(old(w.Snap()), w.Snap()) && Steady(old(w.Snap()), w.Snap())
      ensures r ==> |old(w.trace)| <= survey < |w.trace| && Surveyed(w.trace, survey, |w.trace| - 1) &&
                    ProgressAt(w.trace).HasJudged?
      ensures r && w.failures == old(w.failures) ==> w.trace[survey].found.Some?
      ensures !r ==> |old(w.trace)| <= survey && Unrecorded(w.trace, survey, look)
      ensures w.noise == old(w.noise) ==>
        r == AllRecorded(old(w.status), Required(TemplateOf(old(w.Snap())))) &&
        local == w.status && w.recordings == old(w.recordings) &&
        Kept(old(w.status), w.status, {}) && SameRuns(old(w.status), w.status)
    {
      hide StatusAt, Launches;
      var baseline := RefreshedBaselineRecorded();
      survey, look := |w.trace|, |w.trace|;
      if !baseline { return false, survey, look; }
      r, survey := JudgeRequired();
      look := |w.trace|;
    }

    method RefreshedBaselineRecorded() returns (r: bool)
      requires Valid() && me == Reconciler
      modifies this, w
      ensures Valid() && Waited(old(w.Snap()), w.Snap(), me) && local == w.status && Quiet(old(w.Snap()), w.Snap())
      ensures r == HS.BaselineRecorded(local) && (r ==> SeenTrue(w.trace, Baseline))
      ensures !r ==> Unrecorded(w.trace, |w.trace|, |w.trace|)
    {
      Refresh();
      ghost var middle := w.Snap();
      r := BaselineRecorded();
      WaitedTwice(old(w.Snap()), middle, w.Snap(), me);
      assert w.trace[..|w.trace|] == w.trace;
    }

    // ---------- analysis and recommendation ----------

    /** The verdicts on the runs of the local copy, by the recordings of this moment, are entered in the trace. */
    method EnterComparison(verdicts: map<CheckType, R.Run>)
      requires Valid() && me == Reconciler && Unfinished(w.status)
      requires ProgressAt(w.trace).HasJudged? && ReadAt(local, w.trace, readAt)
      requires verdicts == R.RunsAfter(w.miner, w.recordings, local.checkRuns)
      modifies w
      ensures Valid() && Onward(old(w.Snap()), w.Snap()) && Steady(old(w.Snap()), w.Snap())
      ensures w.trace == old(w.trace) + [Compare(readAt, verdicts)] && w.Snap() == old(w.Snap()).(trace := w.trace)
      ensures ProgressAt(w.trace) == HasCompared(verdicts)
    {
      FinishedIsOwned(w.status);
      LaunchesNext(w.trace, Compare(readAt, verdicts));
      ProgressNext(w.trace, Compare(readAt, verdicts));
      w.Record(Compare(readAt, verdicts));
    }

    method EnterAnalyzed()
      requires Valid() && Unfinished(w.status) && ProgressAt(w.trace).HasCompared?
      modifies w
      ensures Valid() && Onward(old(w.Snap()), w.Snap()) && Steady(old(w.Snap()), w.Snap())
      ensures w.Snap() == old(w.Snap()).(trace := w.trace)
      ensures ProgressAt(w.trace) == HasAnalyzed(ProgressAt(old(w.trace)).verdicts)
    {
      FinishedIsOwned(w.status);
      LaunchesNext(w.trace, Analyzed);
      ProgressNext(w.trace, Analyzed);
      w.Record(Analyzed);
    }

    method ReplaceCheckRuns(runs: map<CheckType, R.Run>) returns (ok: bool)
      requires Valid() && me == Reconciler && Unfinished(w.status) && ProgressAt(w.trace) == HasCompared(runs)
      requires forall t :: t in runs ==> CheckRun(t) in w.recordings && Configured(t, runs[t].context)
      modifies this, w
      ensures Valid() && Onward(old(w.Snap()), w.Snap()) && Quiet(old(w.Snap()), w.Snap())
      ensures w.failures == old(w.failures) + (if ok then 0 else 1)
      ensures ok ==> local.checkRuns == runs
      ensures w.noise == old(w.noise) ==>
        ok && local == w.status == old(w.status).(checkRuns := runs) && w.recordings == old(w.recordings)
    {
      FinishedIsOwned(w.status);
      var at;
      ghost var last, conflicts;
      ok, at, last, conflicts := UpdateStatus(ReplaceRuns(runs));
      if ok {
        OwnedAfter(old(w.trace), w.trace, ReplaceRuns(runs));
      } else {
        OwnedUnchanged(old(w.trace), w.trace);
      }
    }

    /** Stores the runs as they have been judged, if they have been. */
    method StoreAnalysis(analysis: R.Analysis) returns (ok: bool)
      requires Valid() && me == Reconciler && Unfinished(w.status) && !analysis.Missing?
      requires ProgressAt(w.trace) == HasCompared(if analysis.Updated? then analysis.runs else local.checkRuns)
      requires analysis.Updated? ==>
        forall t :: t in analysis.runs ==> CheckRun(t) in w.recordings && Configured(t, analysis.runs[t].context)
      modifies this, w
      ensures Valid() && Onward(old(w.Snap()), w.Snap()) && Steady(old(w.Snap()), w.Snap())
      ensures w.failures == old(w.failures) + (if ok then 0 else 1)
      ensures ok ==> ProgressAt(w.trace) == HasAnalyzed(ProgressAt(old(w.trace)).verdicts) &&
                     local.checkRuns == ProgressAt(old(w.trace)).verdicts
      ensures w.noise == old(w.noise) && old(local) == old(w.status) ==>
        ok && w.recordings == old(w.recordings) &&
        local == w.status == old(w.status).(checkRuns := ProgressAt(old(w.trace)).verdicts)
    {
      ok := true;
      if analysis.Updated? { ok := ReplaceCheckRuns(analysis.runs); }
      if ok { EnterAnalyzed(); }
    }

    /** Judges the runs of the local copy by the recordings of this moment, and stores the result. */
    method JudgeAndStore() returns (failed: bool)
      requires Valid() && me == Reconciler && Unfinished(w.status)
      requires ProgressAt(w.trace).HasJudged? && ReadAt(local, w.trace, readAt)
      modifies this, w
      ensures Valid() && Onward(old(w.Snap()), w.Snap()) && Steady(old(w.Snap()), w.Snap())
      ensures w.failures == old(w.failures) + (if failed then 1 else 0)
      ensures var verdicts := R.RunsAfter(w.miner, old(w.recordings), old(local.checkRuns));
              EachConfigured(verdicts) && |old(w.trace)| < |w.trace| &&
              w.trace[|old(w.trace)|] == Compare(old(readAt), verdicts) &&
              (!failed ==> ProgressAt(w.trace) == HasAnalyzed(verdicts) && local.checkRuns == verdicts) &&
              (w.noise == old(w.noise) && old(local) == old(w.status) ==>
                 w.recordings == old(w.recordings) && local == w.status == old(w.status).(checkRuns := verdicts))
    {
      var analysis := R.AnalyzeCheckRuns(w.miner, w.recordings, local.checkRuns);
      ReadIsRecorded(local, w.trace, readAt);
      NothingIsMissing(w.miner, w.recordings, local);
      EnterComparison(if analysis.Updated? then analysis.runs else local.checkRuns);
      var ok := StoreAnalysis(analysis);
      failed := !ok;
    }

    /** Others act, and nothing is read. */
    method Pause()
      requires Valid() && me == Reconciler
      modifies w
      ensures Valid() && Waited(old(w.Snap()), w.Snap(), me) && Quiet(old(w.Snap()), w.Snap())
      ensures ReadAt(local, old(w.trace), readAt) ==> ReadAt(local, w.trace, readAt)
    {
      w.Interfere(me);
      OthersLeave(old(w.trace), w.trace, me);
      OthersLaunchNothing(old(w.trace), w.trace);
      if ReadAt(local, old(w.trace), readAt) {
        assert w.trace[..readAt] == old(w.trace)[..readAt];
      }
    }

    /** Reads the recordings at some moment, which is position `compared`, judges the runs of the local copy by
        them, and replaces the stored runs by the result. The source's error of a missing recording cannot occur,
        so that the only errors are failed operations. */
    method AnalyzeCheckRuns() returns (failed: bool, ghost compared: nat)
      requires Valid() && me == Reconciler && Unfinished(w.status)
      requires ProgressAt(w.trace).HasJudged? && ReadAt(local, w.trace, readAt)
      modifies this, w
      ensures Valid() && Onward(old(w.Snap()), w.Snap()) && Steady(old(w.Snap()), w.Snap())
      ensures w.failures == old(w.failures) + (if failed then 1 else 0)
      ensures |old(w.trace)| <= compared <= |w.trace|
      ensures var verdicts := R.RunsAfter(w.miner, RecordingsAt(w.trace[..compared]), old(local.checkRuns));
              (!failed ==> ProgressAt(w.trace) == HasAnalyzed(verdicts) && local.checkRuns == verdicts &&
                           EachConfigured(verdicts) &&
                           compared < |w.trace| && w.trace[compared] == Compare(old(readAt), verdicts)) &&
              (w.noise == old(w.noise) && old(local) == old(w.status) ==>
                 w.recordings == old(w.recordings) && RecordingsAt(w.trace[..compared]) == old(w.recordings) &&
                 local == w.status == old(w.status).(checkRuns := verdicts))
    {
      Pause();
      compared := |w.trace|;
      ghost var before := w.trace;
      assert w.trace[..compared] == before;
      failed := *;
      if failed {
        w.GiveUp();
        return;
      }
      failed := JudgeAndStore();
      assert w.trace[..compared] == before;
    }

    method EnterChoice(recommended: Recommended, order: seq<CheckType>)
      requires Valid() && me == Reconciler && Unfinished(w.status) && ProgressAt(w.trace).HasAnalyzed?
      requires IsFold(recommended, TemplateAt(w.trace), order, ProgressAt(w.trace).verdicts)
      modifies w
      ensures Valid() && Onward(old(w.Snap()), w.Snap()) && Steady(old(w.Snap()), w.Snap())
      ensures w.trace == old(w.trace) + [Choose(recommended, order)] && w.Snap() == old(w.Snap()).(trace := w.trace)
      ensures ProgressAt(w.trace) == HasChosen(recommended)
    {
      FinishedIsOwned(w.status);
      LaunchesNext(w.trace, Choose(recommended, order));
      ProgressNext(w.trace, Choose(recommended, order));
      w.Record(Choose(recommended, order));
    }

    method StoreRecommendation(recommended: Recommended) returns (ok: bool)
      requires Valid() && me == Reconciler && Unfinished(w.status) && ProgressAt(w.trace) == HasChosen(recommended)
      modifies this, w
      ensures Valid() && Onward(old(w.Snap()), w.Snap()) && Launches(w.trace) == Launches(old(w.trace))
      ensures w.failures == old(w.failures) + (if ok then 0 else 1)
      ensures ProgressAt(w.trace) == HasChosen(recommended)
      ensures !ok ==> OwnedOf(w.status) == OwnedOf(old(w.status))
      ensures ok ==> OwnedOf(w.status) == OwnedOf(old(w.status)).(recommendation := Some(recommended))
      ensures w.noise == old(w.noise) ==>
        ok && local == w.status == old(w.status).(recommendation := Some(recommended)) &&
        w.recordings == old(w.recordings)
    {
      FinishedIsOwned(w.status);
      var at;
      ghost var last, conflicts;
      ok, at, last, conflicts := UpdateStatus(Mutation.SetRecommendation(recommended));
      if ok {
        OwnedAfter(old(w.trace), w.trace, Mutation.SetRecommendation(recommended));
      } else {
        OwnedUnchanged(old(w.trace), w.trace);
      }
    }

    /** The recommendation is entered in the trace and then committed. */
    method CommitRecommendation(recommended: Recommended, order: seq<CheckType>) returns (ok: bool)
      requires Valid() && me == Reconciler && Unfinished(w.status) && ProgressAt(w.trace).HasAnalyzed?
      requires IsFold(recommended, TemplateAt(w.trace), order, ProgressAt(w.trace).verdicts)
      modifies this, w
      ensures Valid() && Onward(old(w.Snap()), w.Snap()) && Launches(w.trace) == Launches(old(w.trace))
      ensures |old(w.trace)| < |w.trace| && w.trace[|old(w.trace)|] == Choose(recommended, order)
      ensures w.failures == old(w.failures) + (if ok then 0 else 1)
      ensures ProgressAt(w.trace) == HasChosen(recommended)
      ensures !ok ==> OwnedOf(w.status) == OwnedOf(old(w.status))
      ensures ok ==> OwnedOf(w.status) == OwnedOf(old(w.status)).(recommendation := Some(recommended))
      ensures w.noise == old(w.noise) ==>
        ok && local == w.status == old(w.status).(recommendation := Some(recommended)) &&
        w.recordings == old(w.recordings)
    {
      EnterChoice(recommended, order);
      ghost var chosen := w.trace;
      ok := StoreRecommendation(recommended);
      assert w.trace[|old(w.trace)|] == chosen[|old(w.trace)|];
    }

    /** Folds the successful runs of the local copy onto the template of some moment, which is position `chosen`,
        and commits the result. */
    method SetRecommendation() returns (failed: bool, ghost chosen: nat)
      requires Valid() && me == Reconciler && Unfinished(w.status)
      requires ProgressAt(w.trace) == HasAnalyzed(local.checkRuns) && EachConfigured(local.checkRuns)
      modifies this, w
      ensures Valid() && Onward(old(w.Snap()), w.Snap()) && Launches(w.trace) == Launches(old(w.trace))
      ensures w.failures == old(w.failures) + (if failed then 1 else 0)
      ensures |old(w.trace)| <= chosen <= |w.trace|
      ensures failed ==>
        OwnedOf(w.status) == OwnedOf(old(w.status)) &&
        (ProgressAt(w.trace).HasAnalyzed? || ProgressAt(w.trace).HasChosen?)
      ensures !failed ==> chosen < |w.trace| && w.trace[chosen].Choose? && var r := w.trace[chosen].recommended;
        IsFold(r, TemplateAt(w.trace[..chosen]), w.trace[chosen].order, old(local.checkRuns)) &&
        OwnedOf(w.status) == OwnedOf(old(w.status)).(recommendation := Some(r)) && ProgressAt(w.trace) == HasChosen(r)
      ensures w.noise == old(w.noise) ==>
        !failed && TemplateAt(w.trace[..chosen]) == TemplateOf(old(w.Snap())) && w.recordings == old(w.recordings) &&
        local == w.status == old(w.status).(recommendation := Some(w.trace[chosen].recommended))
    {
      Pause();
      chosen := |w.trace|;
      ghost var before := w.trace;
      var readable := w.ReadTemplate();
      assert w.trace[..chosen] == before;
      if !readable { return true, chosen; }
      failed := FoldAndCommit();
      assert w.trace[..chosen] == before;
    }

    method FoldAndCommit() returns (failed: bool)
      requires Valid() && me == Reconciler && Unfinished(w.status)
      requires ProgressAt(w.trace) == HasAnalyzed(local.checkRuns) && EachConfigured(local.checkRuns)
      modifies this, w
      ensures Valid() && Onward(old(w.Snap()), w.Snap()) && Launches(w.trace) == Launches(old(w.trace))
      ensures w.failures == old(w.failures) + (if failed then 1 else 0)
      ensures |old(w.trace)| < |w.trace| && w.trace[|old(w.trace)|].Choose?
      ensures var r, order := w.trace[|old(w.trace)|].recommended, w.trace[|old(w.trace)|].order;
              IsFold(r, TemplateAt(old(w.trace)), order, old(local.checkRuns)) && ProgressAt(w.trace) == HasChosen(r) &&
              OwnedOf(w.status) ==
                (if failed then OwnedOf(old(w.status)) else OwnedOf(old(w.status)).(recommendation := Some(r))) &&
              (w.noise == old(w.noise) ==>
                 !failed && w.recordings == old(w.recordings) &&
                 local == w.status == old(w.status).(recommendation := Some(r)))
    {
      var pod, container, order := R.SetRecommendation(local.checkRuns, w.podContext, w.containers);
      var ok := CommitRecommendation(Recommended(pod, container), order);
      failed := !ok;
    }

    method RemoveCheckConditions() returns (ok: bool)
      requires Valid() && me == Reconciler && !Unfinished(w.status)
      modifies this, w
      ensures Valid() && Onward(old(w.Snap()), w.Snap()) && Steady(old(w.Snap()), w.Snap())
      ensures w.failures == old(w.failures) + (if ok then 0 else 1)
      ensures w.noise == old(w.noise) ==>
        ok && local == w.status && w.status == Apply(Mutation.RemoveCheckConditions, old(w.status)) &&
        w.recordings == old(w.recordings)
    {
      FinishedIsOwned(w.status);
      var at;
      ghost var last, conflicts;
      ok, at, last, conflicts := UpdateStatus(Mutation.RemoveCheckConditions);
      if ok {
        OwnedAfter(old(w.trace), w.trace, Mutation.RemoveCheckConditions);
      } else {
        OwnedUnchanged(old(w.trace), w.trace);
      }
    }

    // ---------- contexts ----------

    /** Every refresh has replaced the copy and with it the user's defaults, so that each call starts from them
        afresh; `Checks.CheckContexts` has the sharing without a refresh. */
    function GetSecurityContextForCheckType(t: CheckType): (d: Defaults)
      requires specified.Some? ==> Complete(specified.value)
      ensures Configured(t, Some(d))
      ensures specified.Some? ==> KeepsAll(specified.value, d)
    {
      DefaultsAreKept(t, if specified.Some? then specified.value else BLANK);
      WithDefaults(t, if specified.Some? then specified.value else BLANK)
    }

    function GetRecommendedSecurityContext(): Option<Defaults>
      reads this
    {
      if RecommendationExists() then Some(Projected(local.recommendation.value)) else None
    }
  }
}
