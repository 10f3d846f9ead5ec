/** The check runner, and the story that its own events tell. */
module CheckRunner {
  import opened Prelude
  import opened SecurityContexts
  import opened HardeningStatus
  import opened Trace
  import opened Environment
  import opened Decisions
  import opened Manager
  import R = Recommendation

  // ---------- the story ----------

  /** The entry that belongs to a recording: the verdict is the readiness that was recorded, and a failed run
      lists every container with logs. */
  function EntryOf(kind: Kind, context: Option<Defaults>, r: R.Recording): R.Run {
    R.Run(kind, r.success, Some(r.success), context, if r.success then {} else r.logs.Keys)
  }

  function DoneReason(kind: Kind, r: R.Recording): Reason {
    if r.success then FinishedReason(kind) else FailedReason(kind)
  }

  /** `running` says whether the condition was last set to False, `recorded` what was last stored and whether
      the condition was False then. */
  datatype Stage =
    | Preparing(running: bool, recorded: Option<(R.Recording, bool)>)
    | Marked(recording: R.Recording, ran: bool)
    | Entered(recording: R.Recording, ran: bool, marked: bool)
    | Illegal

  function Next(stage: Stage, kind: Kind, context: Option<Defaults>, e: Event): Stage {
    match stage
    case Preparing(running, recorded) => (
      match e
      case Store(_, k, r) => if k == kind then Preparing(running, Some((r, running))) else Illegal
      case Commit(_, SetCond(c, status, reason, _)) =>
        if c != CondOf(kind) then Illegal
        else if status == False then if reason == RecordingReason(kind) then Preparing(true, recorded) else Illegal
        else if status == Unknown then if reason == FailedReason(kind) then Preparing(false, recorded) else Illegal
        else if recorded.Some? && reason == DoneReason(kind, recorded.value.0)
        then Marked(recorded.value.0, recorded.value.1)
        else Illegal
      case Commit(_, PutRun(k, run)) =>
        if k == kind && recorded.Some? && run == EntryOf(kind, context, recorded.value.0)
        then Entered(recorded.value.0, recorded.value.1, false) else Illegal
      case _ => Illegal)
    case Marked(r, ran) =>
      if e.Commit? && e.mutation.PutRun? && e.mutation.kind == kind && e.mutation.run == EntryOf(kind, context, r)
      then Entered(r, ran, true) else Illegal
    case _ => Illegal
  }

  function StageOf(own: seq<Event>, kind: Kind, context: Option<Defaults>): Stage {
    if own == [] then Preparing(false, None)
    else Next(StageOf(own[..|own| - 1], kind, context), kind, context, own[|own| - 1])
  }

  lemma StageNext(own: seq<Event>, e: Event, kind: Kind, context: Option<Defaults>)
    ensures StageOf(own + [e], kind, context) == Next(StageOf(own, kind, context), kind, context, e)
  {
    assert (own + [e])[..|own|] == own;
  }

  /** What a legal stage says about the events that led to it. */
  lemma {:induction false} StageTells(own: seq<Event>, kind: Kind, context: Option<Defaults>)
    ensures var stage := StageOf(own, kind, context);
            (stage.Preparing? && stage.recorded.Some? ==> exists e :: e in own && e.Store?) &&
            (stage.Marked? ==> exists e :: e in own && e.Store?) &&
            (stage.Preparing? || stage.Marked? ==> forall e :: e in own ==> !(e.Commit? && e.mutation.PutRun?))
  {
    if own != [] {
      var front, last := own[..|own| - 1], own[|own| - 1];
      StageTells(front, kind, context);
      assert own == front + [last];
      assert forall e :: e in front ==> e in own;
      assert last in own;
    }
  }

  predicate Declares(e: Event) {
    e.Commit? && e.mutation.SetCond? && e.mutation.status == True
  }

  predicate Enters(e: Event) {
    e.Commit? && e.mutation.PutRun?
  }

  /** No recording is stored after the one at `s`. */
  predicate StoredLast(own: seq<Event>, s: nat) {
    s < |own| && own[s].Store? && forall i :: s < i < |own| ==> !own[i].Store?
  }

  lemma {:induction false} PreparingTells(own: seq<Event>, kind: Kind, context: Option<Defaults>) returns (s: nat)
    requires StageOf(own, kind, context).Preparing?
    ensures forall e :: e in own ==> !Declares(e) && !Enters(e)
    ensures StageOf(own, kind, context).recorded.Some? ==>
      StoredLast(own, s) && own[s].recording == StageOf(own, kind, context).recorded.value.0
  {
    s := 0;
    if own != [] {
      var front, last := own[..|own| - 1], own[|own| - 1];
      s := PreparingTells(front, kind, context);
      assert own == front + [last];
      if last.Store? { s := |own| - 1; }
    }
  }

  lemma MarkedTells(own: seq<Event>, kind: Kind, context: Option<Defaults>) returns (s: nat)
    requires StageOf(own, kind, context).Marked?
    ensures var n := |own| - 1;
            s < n && StoredLast(own, s) && own[s].recording == StageOf(own, kind, context).recording &&
            Declares(own[n]) && own[n].mutation.ctype == CondOf(kind) &&
            own[n].mutation.reason == (
              if kind.BaselineRun? then if own[s].recording.success then BaselineRecordingFinished
                                        else BaselineRecordingFailed
              else if own[s].recording.success then CheckRecordingFinished else CheckRecordingFailed) &&
            (forall i :: 0 <= i < n ==> !Declares(own[i])) && (forall i :: 0 <= i <= n ==> !Enters(own[i]))
  {
    var front := own[..|own| - 1];
    s := PreparingTells(front, kind, context);
    assert forall i :: 0 <= i < |front| ==> own[i] == front[i] && front[i] in front;
  }

  /** A run that has ended with its entry stored its recording first, then declared it at most once, and entered it
      once, as the last thing it did. The entry has the verdict, the context and, if the workload was not ready, the
      containers of the recording that was stored last; and the reason has its verdict. */
  lemma EnteredTells(own: seq<Event>, kind: Kind, context: Option<Defaults>) returns (s: nat)
    requires StageOf(own, kind, context).Entered?
    ensures var n := |own| - 1;
            s < n && StoredLast(own, s) && own[s].recording == StageOf(own, kind, context).recording &&
            Enters(own[n]) && own[n].mutation.kind == kind &&
            var run, r := own[n].mutation.run, own[s].recording;
            run.kind == kind && run.context == context && run.recordingSuccessful == r.success &&
            run.checkSuccessful == Some(r.success) && run.anomalous == (if r.success then {} else r.logs.Keys)
    ensures var stage, n := StageOf(own, kind, context), |own| - 1;
            (forall i :: 0 <= i < n ==> !Enters(own[i])) &&
            (forall i :: 0 <= i < n && Declares(own[i]) ==>
               i == n - 1 && s < i && own[i].mutation.ctype == CondOf(kind) &&
               own[i].mutation.reason == (
                 if kind.BaselineRun? then if own[s].recording.success then BaselineRecordingFinished
                                           else BaselineRecordingFailed
                 else if own[s].recording.success then CheckRecordingFinished else CheckRecordingFailed)) &&
            (stage.marked ==> n > 0 && Declares(own[n - 1]))
  {
    var front := own[..|own| - 1];
    assert forall i :: 0 <= i < |front| ==> own[i] == front[i] && front[i] in front;
    if StageOf(front, kind, context).Marked? {
      s := MarkedTells(front, kind, context);
    } else {
      s := PreparingTells(front, kind, context);
    }
  }

  /** A check whose workload was not ready when it was recorded never counts as successful once its runner has entered
      it, whatever the logs say and whether or not there is an analysis. */
  lemma UnreadyIsNotSuccessful(own: seq<Event>, t: CheckType, context: Option<Defaults>, s: nat, miner: R.Miner,
                               recordings: map<Kind, R.Recording>, runs: map<CheckType, R.Run>)
    requires StageOf(own, CheckRun(t), context).Entered? && StoredLast(own, s) && !own[s].recording.success
    requires Enters(own[|own| - 1]) && t in runs && runs[t] == own[|own| - 1].mutation.run
    ensures t !in R.Successful(runs) && t !in R.Successful(R.RunsAfter(miner, recordings, runs))
  {
    var last := EnteredTells(own, CheckRun(t), context);
    assert last == s;
  }

  /** A baseline runner that has found its workload not ready makes every reconcile give up that finds the baseline
      recorded and gets past the final check. */
  lemma UnreadyBaselineAborts(tr: seq<Event>, id: nat, second: bool, context: Option<Defaults>, s: nat, e: Effect,
                              required: set<CheckType>, duration: nat, parallel: bool)
    requires WellFormed(tr) && e.before == StatusAt(tr) && CarriedOut(e, required, duration, parallel)
    requires BaselineRecorded(e.before) && PastFinal(Decide(e.before, required))
    requires var own := OwnEvents(tr, Actor.Runner(id));
             StageOf(own, BaselineRun(second), context).Entered? && StoredLast(own, s) && !own[s].recording.success
    ensures e.launched == [] && e.result.requeueAfter == 0 && Finished in e.after.conditions &&
            e.after.conditions[Finished].status == True &&
            e.after.conditions[Finished].reason == BaselineRecordingFailed
  {
    hide StageOf, StatusAt, Launches, CarriedOut, Decide;
    var own := OwnEvents(tr, Actor.Runner(id));
    var last := EnteredTells(own, BaselineRun(second), context);
    var entry := own[|own| - 1];
    OwnEventsAreMine(tr, Actor.Runner(id), entry);
    var n :| 0 <= n < |tr| && tr[n] == entry;
    EntryIsListed(tr, n);
    var i :| 0 <= i < |BaselineEntries(tr)| && BaselineEntries(tr)[i] == entry.mutation.run;
    FailedBaselineAborts(tr, e, required, duration, parallel);
  }

  lemma StageAllows(tr: seq<Event>, id: nat, kind: Kind, context: Option<Defaults>)
    requires WellFormed(tr)
    ensures var stage := StageOf(OwnEvents(tr, Actor.Runner(id)), kind, context);
            ((stage.Preparing? && stage.recorded.Some?) || stage.Marked? ==> Trace.Stored(tr, id)) &&
            (stage.Preparing? || stage.Marked? ==> !HasPut(tr, id))
  {
    var me := Actor.Runner(id);
    var own := OwnEvents(tr, me);
    var stage := StageOf(own, kind, context);
    StageTells(own, kind, context);
    if (stage.Preparing? && stage.recorded.Some?) || stage.Marked? {
      var e :| e in own && e.Store?;
      OwnEventsAreMine(tr, me, e);
      var i :| 0 <= i < |tr| && tr[i] == e;
      assert Stores(tr[i], id);
    }
    if (stage.Preparing? || stage.Marked?) && HasPut(tr, id) {
      var i :| 0 <= i < |tr| && Puts(tr[i], id);
      OwnEventsAreMine(tr, me, tr[i]);
      assert false;
    }
  }

  /** What the cluster does to a runner: how long it waits for the pods, and which steps succeed. */
  datatype Wait = Updated | TimedOut(logs: Option<R.Logs>)

  datatype Surroundings = Surroundings(cloned: bool, found: bool, applied: bool, waited: Wait, metered: bool,
                                       logs: Option<R.Logs>, ready: bool)

  predicate NothingToApply(context: Option<Defaults>) {
    context.None? || context.value.IsEmpty()
  }

  /** The runner gets as far as a recording. */
  predicate Records(e: Surroundings, context: Option<Defaults>) {
    e.cloned && e.found && (NothingToApply(context) || e.applied) && e.metered && e.logs.Some?
  }

  class WorkloadCheckRunner {
    const w: World
    const id: nat
    const kind: Kind
    const context: Option<Defaults>
    const m: CheckManager

    constructor (w: World, id: nat, kind: Kind, context: Option<Defaults>, seconds: nat, copy: Status, version: nat)
      requires w.Valid() && id < |w.trace| && w.trace[id] == Launch(id, kind, context)
      ensures Valid() && this.w == w && this.id == id && this.kind == kind && this.context == context && fresh(m)
    {
      this.w, this.id, this.kind, this.context := w, id, kind, context;
      m := new CheckManager(w, Actor.Runner(id), seconds, None, copy, version);
    }

    ghost predicate Valid()
      reads m, w
    {
      m.w == w && m.me == Actor.Runner(id) && m.Valid() && id < |w.trace| && w.trace[id] == Launch(id, kind, context)
    }

    ghost function Own(): seq<Event>
      reads w
    {
      OwnEvents(w.trace, Actor.Runner(id))
    }

    ghost function Stage(): Stage
      reads w
    {
      StageOf(Own(), kind, context)
    }

    method SetStatus(status: CondStatus, reason: Reason) returns (ok: bool, ghost at: nat)
      requires Valid()
      requires status == False ==> reason == RecordingReason(kind)
      requires status == Unknown ==> reason == FailedReason(kind)
      requires status == True ==> reason in {FinishedReason(kind), FailedReason(kind)} && Trace.Stored(w.trace, id)
      modifies m, w
      ensures Valid() && Onward(old(w.Snap()), w.Snap())
      ensures w.failures == old(w.failures) + (if ok then 0 else 1)
      ensures !ok ==> Own() == old(Own())
      ensures ok ==> Own() == old(Own()) + [Commit(Actor.Runner(id), SetCond(CondOf(kind), status, reason, at))]
    {
      MayReport(w.trace, id, status, reason);
      ok, at := m.SetCondition(CondOf(kind), status, reason);
      assert old(Own()) + [] == old(Own());
    }

    /** The condition is set to False, with the reason that a recording runs. */
    ghost predicate Begins(e: Event) {
      e.Commit? && e.mutation.SetCond? && e.mutation.ctype == CondOf(kind) && e.mutation.status == False &&
      e.mutation.reason == RecordingReason(kind)
    }

    lemma Reported(own: seq<Event>, status: CondStatus, reason: Reason, at: nat)
      ensures var e := Commit(Actor.Runner(id), SetCond(CondOf(kind), status, reason, at));
              StageOf(own + [e], kind, context) == Next(StageOf(own, kind, context), kind, context, e)
    {
      StageNext(own, Commit(Actor.Runner(id), SetCond(CondOf(kind), status, reason, at)), kind, context);
    }

    method SetStatusRunning()
      requires Valid() && Stage().Preparing?
      modifies m, w
      ensures old(Own()) <= Own()
      ensures Valid() && Onward(old(w.Snap()), w.Snap())
      ensures Stage().Preparing? && Stage().recorded == old(Stage()).recorded
      ensures w.failures == old(w.failures) ==>
        Stage().running && |Own()| == |old(Own())| + 1 && Begins(Own()[|old(Own())|])
    {
      hide StatusAt, Launches, WellFormed, StageOf, OwnEvents;
      ghost var at;
      var ok;
      ok, at := SetStatus(False, RecordingReason(kind));
      if ok { Reported(old(Own()), False, RecordingReason(kind), at); }
    }

    method SetStatusFailed()
      requires Valid() && Stage().Preparing?
      modifies m, w
      ensures old(Own()) <= Own()
      ensures Valid() && Onward(old(w.Snap()), w.Snap())
      ensures Stage().Preparing? && Stage().recorded == old(Stage()).recorded
      ensures w.failures == old(w.failures) ==> GaveUp() && !Stage().running
    {
      hide StatusAt, Launches, WellFormed, StageOf, OwnEvents;
      ghost var at;
      var ok;
      ok, at := SetStatus(Unknown, FailedReason(kind));
      if ok {
        Reported(old(Own()), Unknown, FailedReason(kind), at);
        ghost var own := Own();
        assert own[|own| - 1] == Commit(Actor.Runner(id), SetCond(CondOf(kind), Unknown, FailedReason(kind), at));
      }
    }

    /** The last thing the runner did was to enter its run, as ready or not. */
    ghost predicate EnteredLast(ready: bool, logs: R.Logs)
      reads w
    {
      Own() != [] && var last := Own()[|Own()| - 1];
      last.Commit? && last.mutation.PutRun? && last.mutation.kind == kind && var run := last.mutation.run;
      run.kind == kind && run.context == context && run.recordingSuccessful == ready &&
      run.checkSuccessful == Some(ready) && run.anomalous == (if ready then {} else logs.Keys)
    }

    lemma EntryTells()
      ensures Stage().Entered? ==> EnteredLast(Stage().recording.success, Stage().recording.logs)
    {
      if Stage().Entered? { var s := EnteredTells(Own(), kind, context); }
    }

    /** The last thing the runner did was to set its condition to Unknown. */
    ghost predicate GaveUp()
      reads w
    {
      Own() != [] && var last := Own()[|Own()| - 1];
      last.Commit? && last.mutation.SetCond? && last.mutation.ctype == CondOf(kind) && last.mutation.status == Unknown
    }

    method StoreRecording(r: R.Recording) returns (ok: bool)
      requires Valid() && Stage().Preparing?
      modifies w
      ensures old(Own()) <= Own()
      ensures Valid() && Onward(old(w.Snap()), w.Snap())
      ensures w.failures == old(w.failures) + (if ok then 0 else 1)
      ensures Stage() == if ok then Preparing(old(Stage()).running, Some((r, old(Stage()).running))) else old(Stage())
    {
      ok := w.StoreRecording(id, kind, r);
      if ok {
        Appended(old(w.trace), Store(id, kind, r), Actor.Runner(id));
        StageNext(old(Own()), Store(id, kind, r), kind, context);
      }
    }

    /** Adds the entry to the status; this update has a retry loop and a copy of the object of its own. */
    method PutEntry(r: R.Recording)
      requires Valid()
      requires Stage().Preparing? || Stage().Marked?
      requires Stage().Preparing? ==> Stage().recorded.Some? && Stage().recorded.value.0 == r
      requires Stage().Marked? ==> Stage().recording == r
      modifies m, w
      ensures old(Own()) <= Own()
      ensures Valid() && Onward(old(w.Snap()), w.Snap()) && !Stage().Illegal?
      ensures w.failures == old(w.failures) && old(Stage()).Marked? ==> Stage() == Entered(r, old(Stage()).ran, true)
    {
      StageAllows(w.trace, id, kind, context);
      MayPut(w.trace, id, EntryOf(kind, context, r));
      var ok, at;
      ghost var last, conflicts;
      ok, at, last, conflicts := m.UpdateStatus(PutRun(kind, EntryOf(kind, context, r)));
      if ok {
        StageNext(old(Own()), Commit(Actor.Runner(id), PutRun(kind, EntryOf(kind, context, r))), kind, context);
      } else {
        assert old(Own()) + [] == old(Own());
      }
    }

    /** First the condition and then, as an update of its own, the entry. */
    method SetStatusFinished(r: R.Recording)
      requires Valid() && Stage().Preparing? && Stage().recorded.Some? && Stage().recorded.value.0 == r
      modifies m, w
      ensures old(Own()) <= Own()
      ensures Valid() && Onward(old(w.Snap()), w.Snap()) && !Stage().Illegal?
      ensures w.failures == old(w.failures) ==> Stage() == Entered(r, old(Stage()).recorded.value.1, true)
      ensures w.failures == old(w.failures) ==> EnteredLast(r.success, r.logs)
    {
      hide StatusAt, Launches, WellFormed, StageOf, EnteredLast;
      StageAllows(w.trace, id, kind, context);
      ghost var at;
      var ok;
      var reason := if r.success then FinishedReason(kind) else FailedReason(kind);
      ok, at := SetStatus(True, reason);
      if ok { Reported(old(Own()), True, reason, at); }
      PutEntry(r);
      EntryTells();
    }

    /** Gives up waiting after two minutes, but records what there is. */
    method WaitForUpdatedPods(wait: Wait) returns (updated: bool)
      requires Valid() && Stage().Preparing?
      modifies m, w
      ensures old(Own()) <= Own()
      ensures Valid() && Onward(old(w.Snap()), w.Snap()) && Stage().Preparing?
      ensures updated == wait.Updated?
      ensures w.failures == old(w.failures) && wait.TimedOut? && wait.logs.Some? ==>
        Stage() == Preparing(false, Some((R.Recording(false, wait.logs.value), false)))
      ensures w.failures == old(w.failures) && wait.TimedOut? && wait.logs.None? ==> GaveUp()
    {
      updated := wait.Updated?;
      if !updated {
        SetStatusFailed();
        if wait.logs.Some? {
          var stored := StoreRecording(R.Recording(false, wait.logs.value));
        }
      }
    }

    method AwaitPods(wait: Wait)
      requires Valid() && Stage().Preparing?
      modifies m, w
      ensures old(Own()) <= Own()
      ensures Valid() && Onward(old(w.Snap()), w.Snap()) && Stage().Preparing?
      ensures w.failures == old(w.failures) ==> Stage().running
    {
      var updated := WaitForUpdatedPods(wait);
      if !updated { SetStatusFailed(); }
      SetStatusRunning();
    }

    /** From the stored recording on. */
    method RecordAndFinish(r: R.Recording)
      requires Valid() && Stage().Preparing?
      modifies m, w
      ensures old(Own()) <= Own()
      ensures Valid() && Onward(old(w.Snap()), w.Snap()) && !Stage().Illegal?
      ensures w.failures == old(w.failures) ==> Stage() == Entered(r, old(Stage()).running, true)
    {
      var stored := StoreRecording(r);
      if !stored {
        SetStatusFailed();
        return;
      }
      SetStatusFinished(r);
    }

    /** A check that is being recorded. After a failed wait the runner carries on all the same. */
    method RecordSignals(e: Surroundings)
      requires Valid() && Stage().Preparing?
      modifies m, w
      ensures old(Own()) <= Own()
      ensures Valid() && Onward(old(w.Snap()), w.Snap()) && !Stage().Illegal?
      ensures w.failures == old(w.failures) ==>
        if e.metered && e.logs.Some? then Stage() == Entered(R.Recording(e.ready, e.logs.value), true, true)
        else GaveUp()
    {
      AwaitPods(e.waited);
      if !e.metered {
        SetStatusFailed();
        return;
      }
      if e.logs.None? {
        SetStatusFailed();
        return;
      }
      RecordAndFinish(R.Recording(e.ready, e.logs.value));
    }

    /** The whole run. Whatever others do in between, the runner's own events are legal: nothing is declared
        before it has been recorded, declared once, entered once, and with one and the same verdict. Unless one
        of its operations fails, the run ends with the entry, with the condition Unknown, or never begins. */
    method RunCheck(e: Surroundings)
      requires Valid() && Own() == []
      modifies m, w
      ensures Valid() && Onward(old(w.Snap()), w.Snap()) && !Stage().Illegal?
      ensures !e.cloned ==> Own() == []
      ensures w.failures == old(w.failures) && e.cloned ==> Own() != [] && Begins(Own()[0])
      ensures w.failures == old(w.failures) && e.cloned ==>
        if Records(e, context) then Stage() == Entered(R.Recording(e.ready, e.logs.value), true, true) else GaveUp()
      ensures w.failures == old(w.failures) && e.cloned && e.found &&
              (e.applied || context.None? || context.value.IsEmpty()) && e.metered && e.logs.Some? ==>
        EnteredLast(e.ready, e.logs.value)
    {
      hide StatusAt, Launches, WellFormed, OwnEvents, EnteredLast, Begins, GaveUp;
      if !e.cloned { return; }
      SetStatusRunning();
      if !e.found {
        SetStatusFailed();
        return;
      }
      if !NothingToApply(context) && !e.applied {
        SetStatusFailed();
        return;
      }
      RecordSignals(e);
      EntryTells();
    }
  }
}
