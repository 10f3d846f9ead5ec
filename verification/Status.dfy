/** The status of a hardening check and the changes that are committed to it. */
module HardeningStatus {
  import opened Prelude
  import opened SecurityContexts
  import R = Recommendation
  import Names

  // ---------- conditions ----------

  datatype CondType = Finished | Analysis | Baseline | FinalCheck | Check(check: CheckType)

  datatype CondStatus = True | False | Unknown

  datatype Reason =
    | CheckNotStarted | CheckRecording | CheckRecordingFinished | CheckRecordingFailed | Requeue
    | BaselineRecording | BaselineRecordingFinished | BaselineRecordingFailed
    | Analyzing | AnalysisFinished | AnalysisFailed
    | AllFinished | FinalCheckRecording | FinalCheckFailed

  /** `since` is the last transition time. */
  datatype Condition = Condition(status: CondStatus, reason: Reason, since: nat)

  type Conditions = map<CondType, Condition>

  /** The transition time moves only when the status does. */
  function SetStatusCondition(cs: Conditions, c: CondType, status: CondStatus, reason: Reason, now: nat): Conditions {
    if c in cs && cs[c].status == status then cs[c := cs[c].(reason := reason)]
    else cs[c := Condition(status, reason, now)]
  }

  function Title(s: string): string
    requires s != ""
  {
    [if 'a' <= s[0] <= 'z' then s[0] - 'a' + 'A' else s[0]] + Names.Lower(s[1..])
  }

  /** The type string under which a condition is stored. */
  function ConditionName(c: CondType): string {
    match c
    case Finished => "Finished"
    case Analysis => "CheckResultAnalysis"
    case Baseline => "Baseline"
    case FinalCheck => "FinalCheck"
    case Check(t) => Title(Names.TypeName(CheckRun(t))) + "Check"
  }

  lemma InitialOf(c: CondType)
    ensures |ConditionName(c)| >= 4
    ensures ConditionName(c)[0] ==
            match c
            case Finished => 'F'
            case FinalCheck => 'F'
            case Analysis => 'C'
            case Baseline => 'B'
            case Check(User) => 'U'
            case Check(Group) => 'G'
            case Check(ReadOnlyRootFilesystem) => 'R'
            case Check(AllowPrivilegeEscalation) => 'A'
            case Check(DropAllCapabilities) => 'D'
    ensures c.Finished? ==> ConditionName(c)[3] == 'i'
    ensures c.FinalCheck? ==> ConditionName(c)[3] == 'a'
  {
  }

  /** No two conditions share a type string, so conditions can be told apart by `CondType`. */
  lemma ConditionNamesAreDistinct(c: CondType, d: CondType)
    ensures ConditionName(c) == ConditionName(d) <==> c == d
  {
    hide ConditionName;
    InitialOf(c);
    InitialOf(d);
  }

  // ---------- the status ----------

  datatype Status = Status(
    conditions: Conditions,
    baselineRuns: seq<R.Run>,
    checkRuns: map<CheckType, R.Run>,
    finalRun: Option<R.Run>,
    recommendation: Option<Recommended>)

  datatype Recommended = Recommended(pod: PodContext, container: Listed)

  const NO_STATUS := Status(map[], [], map[], None, None)

  predicate Holds(s: Status, c: CondType, status: CondStatus) {
    c in s.conditions && s.conditions[c].status == status
  }

  predicate FinishedTrue(s: Status) {
    Holds(s, Finished, True)
  }

  predicate BaselineRecorded(s: Status) {
    Holds(s, Baseline, True) && s.conditions[Baseline].reason in {BaselineRecordingFinished, BaselineRecordingFailed}
  }

  predicate BaselineInProgress(s: Status) {
    Holds(s, Baseline, False) && s.conditions[Baseline].reason == BaselineRecording
  }

  predicate FinalCheckRecorded(s: Status) {
    Holds(s, FinalCheck, True) && s.conditions[FinalCheck].reason in {CheckRecordingFinished, CheckRecordingFailed}
  }

  predicate FinalCheckInProgress(s: Status) {
    Holds(s, FinalCheck, False) && s.conditions[FinalCheck].reason == CheckRecording
  }

  predicate CheckRecorded(s: Status, t: CheckType) {
    Holds(s, Check(t), True) && s.conditions[Check(t)].reason in {CheckRecordingFinished, CheckRecordingFailed}
  }

  predicate CheckInProgress(s: Status, t: CheckType) {
    Holds(s, Check(t), False) && s.conditions[Check(t)].reason == CheckRecording
  }

  const BUFFER: nat := 60_000_000_000

  /** Older than the recording duration plus one minute, in nanoseconds. */
  predicate Overdue(s: Status, c: CondType, now: nat, duration: nat)
    requires c in s.conditions
  {
    now - s.conditions[c].since > duration + BUFFER
  }

  predicate ChecksRecorded(s: Status, checks: set<CheckType>) {
    forall t :: t in checks ==> CheckRecorded(s, t)
  }

  predicate AllRecorded(s: Status, required: set<CheckType>) {
    BaselineRecorded(s) && ChecksRecorded(s, required)
  }

  // ---------- mutations ----------

  datatype Mutation =
    | SetCond(ctype: CondType, status: CondStatus, reason: Reason, now: nat)
    | PutRun(kind: Kind, run: R.Run)
    | ReplaceRuns(runs: map<CheckType, R.Run>)
    | SetRecommendation(recommended: Recommended)
    | RemoveCheckConditions

  function Apply(m: Mutation, s: Status): Status {
    match m
    case SetCond(c, status, reason, now) => s.(conditions := SetStatusCondition(s.conditions, c, status, reason, now))
    case PutRun(kind, run) => (
      match kind
      case BaselineRun(_) => s.(baselineRuns := s.baselineRuns + [run])
      case FinalRun => s.(finalRun := Some(run))
      case CheckRun(t) => s.(checkRuns := s.checkRuns[t := run]))
    case ReplaceRuns(runs) => s.(checkRuns := runs)
    case SetRecommendation(r) => s.(recommendation := Some(r))
    case RemoveCheckConditions =>
      s.(conditions := map c | c in s.conditions && c in {Finished, Analysis} :: s.conditions[c])
  }

  /** The clock is read when the change is computed, on every attempt anew. */
  function Timed(m: Mutation, now: nat): Mutation {
    if m.SetCond? then m.(now := now) else m
  }

  function CondOf(k: Kind): CondType {
    match k
    case BaselineRun(_) => Baseline
    case FinalRun => FinalCheck
    case CheckRun(t) => Check(t)
  }

  function RecordingReason(k: Kind): Reason {
    if k.BaselineRun? then BaselineRecording else CheckRecording
  }

  function FailedReason(k: Kind): Reason {
    if k.BaselineRun? then BaselineRecordingFailed else CheckRecordingFailed
  }

  function FinishedReason(k: Kind): Reason {
    if k.BaselineRun? then BaselineRecordingFinished else CheckRecordingFinished
  }

  // ---------- what only the reconciler writes ----------

  datatype Owned = Owned(finished: Option<Condition>, analysis: Option<Condition>, recommendation: Option<Recommended>)

  function CondIn(s: Status, c: CondType): Option<Condition> {
    if c in s.conditions then Some(s.conditions[c]) else None
  }

  function OwnedOf(s: Status): Owned {
    Owned(CondIn(s, Finished), CondIn(s, Analysis), s.recommendation)
  }
}
