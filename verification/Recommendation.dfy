/** From recordings to verdicts, from verdicts to a recommendation, and back onto the template. */
module Recommendation {
  import opened Prelude
  import opened SecurityContexts
  import opened Checks

  // ---------- the log oracle ----------

  predicate IsSpace(c: char) {
    c in {' ', '\t', '\n', '\r', 11 as char, 12 as char}
  }

  function Trim(line: string): string
    decreases |line|
  {
    if line != [] && IsSpace(line[0]) then Trim(line[1..])
    else if line != [] && IsSpace(line[|line| - 1]) then Trim(line[..|line| - 1])
    else line
  }

  predicate Blank(c: char) {
    c == ' ' || 9 <= c as int <= 13
  }

  /** What is left neither begins nor ends with white space. */
  lemma {:induction false} TrimmedEnds(line: string)
    ensures Trim(line) != "" ==> !Blank(Trim(line)[0]) && !Blank(Trim(line)[|Trim(line)| - 1])
    decreases |line|
  {
    if line != [] && IsSpace(line[0]) {
      TrimmedEnds(line[1..]);
    } else if line != [] && IsSpace(line[|line| - 1]) {
      TrimmedEnds(line[..|line| - 1]);
    }
  }

  /** What is cut off at either end is white space. */
  predicate CutAt(line: string, i: nat, j: nat) {
    i <= j <= |line| && forall k :: 0 <= k < |line| && (k < i || j <= k) ==> Blank(line[k])
  }

  lemma {:induction false} TrimCutsSpaces(line: string) returns (i: nat, j: nat)
    ensures CutAt(line, i, j) && Trim(line) == line[i..j]
    decreases |line|
  {
    i, j := 0, |line|;
    if line != [] && IsSpace(line[0]) {
      i, j := TrimCutsSpaces(line[1..]);
      assert line[1..][i..j] == line[i + 1..j + 1];
      i, j := i + 1, j + 1;
      assert forall k :: 0 < k < |line| ==> line[1..][k - 1] == line[k];
    } else if line != [] && IsSpace(line[|line| - 1]) {
      i, j := TrimCutsSpaces(line[..|line| - 1]);
      assert line[..|line| - 1][i..j] == line[i..j];
    }
  }

  /** The lines a log miner is trained on or asked about. */
  function Cleaned(lines: seq<string>): seq<string> {
    if lines == [] then []
    else Cleaned(lines[..|lines| - 1]) + (if Trim(lines[|lines| - 1]) == "" then [] else [Trim(lines[|lines| - 1])])
  }

  /** `kept` has the trimmed forms of exactly those lines at the given places, in order. */
  predicate TrimmedAt(lines: seq<string>, kept: seq<string>, places: seq<nat>) {
    |places| == |kept| &&
    (forall k :: 0 <= k < |kept| ==> places[k] < |lines| && kept[k] == Trim(lines[places[k]])) &&
    forall k, l :: 0 <= k < l < |kept| ==> places[k] < places[l]
  }

  lemma TrimmedAtMore(lines: seq<string>, kept: seq<string>, places: seq<nat>, line: string)
    requires TrimmedAt(lines, kept, places)
    ensures TrimmedAt(lines + [line], kept, places)
    ensures TrimmedAt(lines + [line], kept + [Trim(line)], places + [|lines|])
  {
    assert forall i :: 0 <= i < |lines| ==> (lines + [line])[i] == lines[i];
  }

  /** Cleaning keeps exactly the lines that are not blank, in order and trimmed. */
  lemma {:induction false} CleanedAreTheNonBlank(lines: seq<string>) returns (places: seq<nat>)
    ensures TrimmedAt(lines, Cleaned(lines), places)
    ensures forall i :: 0 <= i < |lines| ==> (i in places <==> Trim(lines[i]) != "")
  {
    places := [];
    if lines != [] {
      var front, line := lines[..|lines| - 1], lines[|lines| - 1];
      places := CleanedAreTheNonBlank(front);
      assert lines == front + [line];
      TrimmedAtMore(front, Cleaned(front), places, line);
      assert forall i :: i in places ==> i < |front|;
      if Trim(line) != "" {
        assert forall i :: i in places + [|front|] <==> i in places || i == |front|;
        places := places + [|front|];
      } else {
        assert Cleaned(lines) == Cleaned(front);
      }
    }
  }

  lemma {:induction false} CleanedTwice(a: seq<string>, b: seq<string>)
    ensures Cleaned(a + b) == Cleaned(a) + Cleaned(b)
  {
    if b == [] {
      assert a + b == a;
    } else {
      assert (a + b)[..|a + b| - 1] == a + b[..|b| - 1];
      CleanedTwice(a, b[..|b| - 1]);
    }
  }

  /** Whether a line matches a template mined from the given training lines; the mining is not modelled. */
  type Miner = (seq<string>, string) -> bool

  function Anomalies(miner: Miner, trained: seq<string>, lines: seq<string>): seq<string> {
    if lines == [] then []
    else
      var line := Trim(lines[|lines| - 1]);
      Anomalies(miner, trained, lines[..|lines| - 1]) + (if line == "" || miner(trained, line) then [] else [line])
  }

  method AnalyzeTarget(miner: Miner, trained: seq<string>, lines: seq<string>) returns (anomalies: seq<string>)
    ensures anomalies == Anomalies(miner, trained, lines)
  {
    anomalies := [];
    for i := 0 to |lines|
      invariant anomalies == Anomalies(miner, trained, lines[..i])
    {
      assert lines[..i + 1][..i] == lines[..i];
      var line := Trim(lines[i]);
      if line != "" && !miner(trained, line) {
        anomalies := anomalies + [line];
      }
    }
    assert lines[..|lines|] == lines;
  }

  /** The anomalies are exactly the lines that are not blank and match nothing, in order and trimmed. */
  lemma {:induction false} AnomaliesAreTheUnmatched(miner: Miner, trained: seq<string>, lines: seq<string>)
    returns (places: seq<nat>)
    ensures TrimmedAt(lines, Anomalies(miner, trained, lines), places)
    ensures forall i :: 0 <= i < |lines| ==>
      (i in places <==> Trim(lines[i]) != "" && !miner(trained, Trim(lines[i])))
  {
    places := [];
    if lines != [] {
      var front, line := lines[..|lines| - 1], lines[|lines| - 1];
      places := AnomaliesAreTheUnmatched(miner, trained, front);
      assert lines == front + [line];
      TrimmedAtMore(front, Anomalies(miner, trained, front), places, line);
      assert forall i :: i in places ==> i < |front|;
      if Trim(line) != "" && !miner(trained, Trim(line)) {
        assert forall i :: i in places + [|front|] <==> i in places || i == |front|;
        places := places + [|front|];
      } else {
        assert Anomalies(miner, trained, lines) == Anomalies(miner, trained, front);
      }
    }
  }

  predicate LogsUnmatched(miner: Miner, trained: seq<string>, lines: seq<string>) {
    exists i :: 0 <= i < |lines| && Trim(lines[i]) != "" && !miner(trained, Trim(lines[i]))
  }

  lemma {:induction false} AnomaliesAreUnmatchedLines(miner: Miner, trained: seq<string>, lines: seq<string>)
    ensures Anomalies(miner, trained, lines) != [] <==> LogsUnmatched(miner, trained, lines)
  {
    if lines != [] {
      var front := lines[..|lines| - 1];
      AnomaliesAreUnmatchedLines(miner, trained, front);
      if LogsUnmatched(miner, trained, lines) && Trim(lines[|lines| - 1]) == "" {
        var i :| 0 <= i < |lines| && Trim(lines[i]) != "" && !miner(trained, Trim(lines[i]));
        assert front[i] == lines[i];
      }
      if i :| 0 <= i < |front| && Trim(front[i]) != "" && !miner(trained, Trim(front[i])) {
        assert lines[i] == front[i];
      }
      if Trim(lines[|lines| - 1]) != "" && miner(trained, Trim(lines[|lines| - 1])) &&
         LogsUnmatched(miner, trained, lines) {
        var i :| 0 <= i < |lines| && Trim(lines[i]) != "" && !miner(trained, Trim(lines[i]));
        assert front[i] == lines[i];
      }
    }
  }

  // ---------- verdicts ----------

  datatype ContainerName = ContainerName(name: string)

  type Logs = map<ContainerName, seq<string>>

  datatype Recording = Recording(success: bool, logs: Logs)

  datatype Run = Run(kind: Kind, recordingSuccessful: bool, checkSuccessful: Option<bool>, context: Option<Defaults>,
                     anomalous: set<ContainerName>)

  /** What the miners know after one more baseline recording. */
  function Loaded(trained: Logs, logs: Logs): Logs {
    map c | c in trained.Keys + logs.Keys ::
      if c !in logs then trained[c]
      else (if c in trained then trained[c] else []) + Cleaned(logs[c])
  }

  /** Each container that appears in a baseline, with every line its miner is trained on. */
  function Trained(first: Logs, second: Logs): (trained: Logs)
    ensures trained.Keys == first.Keys + second.Keys
  {
    Loaded(Loaded(map[], first), second)
  }

  /** The lines that a container logged in a recording, if it did. */
  function LinesOf(logs: Logs, c: ContainerName): seq<string> {
    if c in logs then logs[c] else []
  }

  /** The miner of a container is trained on the lines of both baselines that are not blank: those of the first, then
      those of the second, each in order and trimmed. */
  lemma TrainedOnBoth(first: Logs, second: Logs, c: ContainerName) returns (places: seq<nat>)
    requires c in first || c in second
    ensures var lines := LinesOf(first, c) + LinesOf(second, c);
            c in Trained(first, second) && TrimmedAt(lines, Trained(first, second)[c], places) &&
            forall i :: 0 <= i < |lines| ==> (i in places <==> Trim(lines[i]) != "")
  {
    var a, b := LinesOf(first, c), LinesOf(second, c);
    CleanedTwice(a, b);
    assert Cleaned([]) == [];
    assert [] + Cleaned(a) == Cleaned(a) && [] + Cleaned(b) == Cleaned(b) && Cleaned(a) + [] == Cleaned(a);
    assert Trained(first, second)[c] == Cleaned(a + b);
    places := CleanedAreTheNonBlank(a + b);
  }

  lemma TrimmedLineIsIn(lines: seq<string>, kept: seq<string>, places: seq<nat>, line: string)
    requires TrimmedAt(lines, kept, places) && forall i :: 0 <= i < |lines| ==> (i in places <==> Trim(lines[i]) != "")
    ensures line in kept <==> line != "" && exists l :: l in lines && Trim(l) == line
  {
    hide Trim;
    if line in kept {
      var k :| 0 <= k < |kept| && kept[k] == line;
      assert places[k] in places && lines[places[k]] in lines;
    }
    if l :| l in lines && Trim(l) == line && line != "" {
      var i :| 0 <= i < |lines| && lines[i] == l;
      assert i in places;
      var k :| 0 <= k < |places| && places[k] == i;
      assert kept[k] == line;
    }
  }

  /** A line is known exactly if it is the trimmed form, not empty, of a line of one of the baselines. */
  lemma TrainedLines(first: Logs, second: Logs, c: ContainerName, line: string)
    requires c in first || c in second
    ensures line in Trained(first, second)[c] <==>
            line != "" && exists l :: l in LinesOf(first, c) + LinesOf(second, c) && Trim(l) == line
  {
    hide Trim, Trained;
    var lines, known := LinesOf(first, c) + LinesOf(second, c), Trained(first, second)[c];
    var places := TrainedOnBoth(first, second, c);
    TrimmedLineIsIn(lines, known, places, line);
  }

  method LoadBaseline(trained: Logs, logs: Logs) returns (more: Logs)
    ensures more == Loaded(trained, logs)
    ensures more.Keys == trained.Keys + logs.Keys
    ensures forall c :: c in trained ==> trained[c] <= more[c] && (c !in logs ==> more[c] == trained[c])
  {
    ghost var goal := Loaded(trained, logs);
    more := trained;
    var rest := logs.Keys;
    while rest != {}
      invariant rest <= logs.Keys
      invariant forall c :: c in more <==> c in trained || (c in logs && c !in rest)
      invariant forall c :: c in more && c !in rest ==> more[c] == goal[c]
      invariant forall c :: c in more && c in rest ==> c in trained && more[c] == trained[c]
    {
      var c :| c in rest;
      var known := if c in more then more[c] else [];
      more, rest := more[c := known + Cleaned(logs[c])], rest - {c};
    }
  }

  function Suspicious(miner: Miner, trained: Logs, logs: Logs): set<ContainerName> {
    set c | c in logs && c in trained && Anomalies(miner, trained[c], logs[c]) != []
  }

  /** The runner's own flag wins over the recording's; a single suspicious container overrules both. */
  function Analyzed(miner: Miner, trained: Logs, run: Run, recording: Recording): Run {
    var ready := if run.checkSuccessful.Some? then run.checkSuccessful.value else recording.success;
    run.(checkSuccessful := Some(ready && Suspicious(miner, trained, recording.logs) == {}),
         anomalous := run.anomalous + Suspicious(miner, trained, recording.logs))
  }

  method AnalyzeRun(miner: Miner, trained: Logs, run: Run, recording: Recording) returns (result: Run)
    ensures result == Analyzed(miner, trained, run, recording)
  {
    var successful := recording.success;
    if run.checkSuccessful.Some? {
      successful := run.checkSuccessful.value;
    }
    var found: set<ContainerName> := {};
    var rest := recording.logs.Keys;
    ghost var ready := successful;
    while rest != {}
      invariant rest <= recording.logs.Keys
      invariant found == set c | c in Suspicious(miner, trained, recording.logs) && c !in rest
      invariant successful == (ready && found == {})
    {
      var c :| c in rest;
      rest := rest - {c};
      if c in trained {
        var anomalies := AnalyzeTarget(miner, trained[c], recording.logs[c]);
        if |anomalies| > 0 {
          found := found + {c};
          successful := false;
        }
      }
    }
    assert found == Suspicious(miner, trained, recording.logs);
    result := run.(checkSuccessful := Some(successful), anomalous := run.anomalous + found);
  }

  /** Skipped leaves the stored runs alone; Missing is the error of a run without a recording. */
  datatype Analysis = Skipped | Missing | Updated(runs: map<CheckType, Run>)

  function EachAnalyzed(miner: Miner, trained: Logs, recordings: map<Kind, Recording>, runs: map<CheckType, Run>)
    : Analysis
  {
    if exists t :: t in runs && CheckRun(t) !in recordings then Missing
    else Updated(map t | t in runs :: Analyzed(miner, trained, runs[t], recordings[CheckRun(t)]))
  }

  function AnalysisOf(miner: Miner, recordings: map<Kind, Recording>, runs: map<CheckType, Run>): Analysis {
    if BaselineRun(false) !in recordings || BaselineRun(true) !in recordings || runs == map[] then Skipped
    else
      var trained := Trained(recordings[BaselineRun(false)].logs, recordings[BaselineRun(true)].logs);
      EachAnalyzed(miner, trained, recordings, runs)
  }

  method AnalyzeEach(miner: Miner, trained: Logs, recordings: map<Kind, Recording>, runs: map<CheckType, Run>)
    returns (result: Analysis)
    ensures result == EachAnalyzed(miner, trained, recordings, runs)
  {
    ghost var goal := map t | t in runs && CheckRun(t) in recordings ::
      Analyzed(miner, trained, runs[t], recordings[CheckRun(t)]);
    var updated: map<CheckType, Run> := map[];
    var rest := runs.Keys;
    while rest != {}
      invariant rest <= runs.Keys && updated.Keys == runs.Keys - rest
      invariant forall t :: t in updated ==> t in goal && updated[t] == goal[t]
    {
      var t :| t in rest;
      if CheckRun(t) !in recordings { return Missing; }
      var run := AnalyzeRun(miner, trained, runs[t], recordings[CheckRun(t)]);
      assert run == goal[t];
      updated, rest := updated[t := run], rest - {t};
    }
    forall t | t in runs
      ensures CheckRun(t) in recordings
    {
      assert t in updated && t in goal;
    }
    assert updated == map t | t in runs :: Analyzed(miner, trained, runs[t], recordings[CheckRun(t)]);
    result := Updated(updated);
  }

  method AnalyzeCheckRuns(miner: Miner, recordings: map<Kind, Recording>, runs: map<CheckType, Run>)
    returns (result: Analysis)
    ensures result == AnalysisOf(miner, recordings, runs)
  {
    if BaselineRun(false) !in recordings { return Skipped; }
    var trained := LoadBaseline(map[], recordings[BaselineRun(false)].logs);
    if BaselineRun(true) !in recordings { return Skipped; }
    trained := LoadBaseline(trained, recordings[BaselineRun(true)].logs);
    if runs == map[] { return Skipped; }
    result := AnalyzeEach(miner, trained, recordings, runs);
  }

  /** The runs as they are after the analysis of the given recordings. */
  function RunsAfter(miner: Miner, recordings: map<Kind, Recording>, runs: map<CheckType, Run>): map<CheckType, Run> {
    var analysis := AnalysisOf(miner, recordings, runs);
    if analysis.Updated? then analysis.runs else runs
  }

  /** A run without a verdict counts as successful. */
  function Successful(runs: map<CheckType, Run>): set<CheckType> {
    set t | t in runs && (runs[t].checkSuccessful.None? || runs[t].checkSuccessful.value)
  }

  /** The workload became ready and no container known from the baselines logged a line that matches nothing. */
  predicate Harmless(miner: Miner, recordings: map<Kind, Recording>, run: Run, t: CheckType)
    requires BaselineRun(false) in recordings && BaselineRun(true) in recordings && CheckRun(t) in recordings
  {
    var first, second := recordings[BaselineRun(false)].logs, recordings[BaselineRun(true)].logs;
    var logs := recordings[CheckRun(t)].logs;
    (if run.checkSuccessful.Some? then run.checkSuccessful.value else recordings[CheckRun(t)].success) &&
    forall c :: c in logs && c in first.Keys + second.Keys ==> !LogsUnmatched(miner, Trained(first, second)[c], logs[c])
  }

  lemma VerdictsAreMeant(miner: Miner, recordings: map<Kind, Recording>, runs: map<CheckType, Run>, t: CheckType)
    requires AnalysisOf(miner, recordings, runs).Updated?
    ensures t in Successful(AnalysisOf(miner, recordings, runs).runs) <==>
            t in runs && Harmless(miner, recordings, runs[t], t)
  {
    if t in runs {
      var trained := Trained(recordings[BaselineRun(false)].logs, recordings[BaselineRun(true)].logs);
      var logs := recordings[CheckRun(t)].logs;
      forall c | c in logs && c in trained
        ensures c in Suspicious(miner, trained, logs) <==> LogsUnmatched(miner, trained[c], logs[c])
      {
        AnomaliesAreUnmatchedLines(miner, trained[c], logs[c]);
      }
      assert Suspicious(miner, trained, logs) == {} <==>
        forall c :: c in logs && c in trained ==> c !in Suspicious(miner, trained, logs);
    }
  }

  /** When there is an analysis, and what it leaves of a run: all but the verdict, and the containers in which some
      line that is not blank matched nothing come on top. */
  lemma AnalysisExactly(miner: Miner, recordings: map<Kind, Recording>, runs: map<CheckType, Run>)
    ensures var both := BaselineRun(false) in recordings && BaselineRun(true) in recordings;
            var recorded := forall t :: t in runs ==> CheckRun(t) in recordings;
            match AnalysisOf(miner, recordings, runs)
            case Skipped => (!both || runs == map[]) && RunsAfter(miner, recordings, runs) == runs
            case Missing => both && runs != map[] && !recorded && RunsAfter(miner, recordings, runs) == runs
            case Updated(after) =>
              both && runs != map[] && recorded && RunsAfter(miner, recordings, runs) == after &&
              after.Keys == runs.Keys
  {
  }

  lemma JudgedRun(miner: Miner, recordings: map<Kind, Recording>, runs: map<CheckType, Run>, t: CheckType)
    requires AnalysisOf(miner, recordings, runs).Updated? && t in runs
    ensures var run, after := runs[t], AnalysisOf(miner, recordings, runs).runs[t];
            var first, second := recordings[BaselineRun(false)].logs, recordings[BaselineRun(true)].logs;
            var logs := recordings[CheckRun(t)].logs;
            after.kind == run.kind && after.recordingSuccessful == run.recordingSuccessful &&
            after.context == run.context && after.checkSuccessful.Some? &&
            forall c :: c in after.anomalous <==>
              c in run.anomalous ||
              (c in logs && c in first.Keys + second.Keys && LogsUnmatched(miner, Trained(first, second)[c], logs[c]))
  {
    var trained := Trained(recordings[BaselineRun(false)].logs, recordings[BaselineRun(true)].logs);
    var logs := recordings[CheckRun(t)].logs;
    forall c | c in logs && c in trained
      ensures c in Suspicious(miner, trained, logs) <==> LogsUnmatched(miner, trained[c], logs[c])
    {
      AnomaliesAreUnmatchedLines(miner, trained[c], logs[c]);
    }
  }

  /** The flag of the entry, or else the recording, says that the workload became ready. */
  predicate BecameReady(run: Run, recording: Recording) {
    run.checkSuccessful == Some(true) || (run.checkSuccessful == None && recording.success)
  }

  predicate Familiar(lines: seq<string>, known: seq<string>) {
    forall l :: l in lines && Trim(l) != "" ==> exists k :: k in known && Trim(k) == Trim(l)
  }

  lemma FamiliarLinesMatch(miner: Miner, first: Logs, second: Logs, c: ContainerName, lines: seq<string>)
    requires c in first || c in second
    requires forall trained: seq<string>, line: string :: line in trained ==> miner(trained, line)
    requires Familiar(lines, LinesOf(first, c) + LinesOf(second, c))
    ensures !LogsUnmatched(miner, Trained(first, second)[c], lines)
  {
    hide Trim, Trained;
    forall i | 0 <= i < |lines| && Trim(lines[i]) != ""
      ensures miner(Trained(first, second)[c], Trim(lines[i]))
    {
      assert lines[i] in lines;
      TrainedLines(first, second, c, Trim(lines[i]));
    }
  }

  lemma UnfamiliarLinesDoNot(miner: Miner, first: Logs, second: Logs, c: ContainerName, lines: seq<string>)
    requires c in first || c in second
    requires forall trained: seq<string>, line: string :: miner(trained, line) ==> line in trained
    requires !LogsUnmatched(miner, Trained(first, second)[c], lines)
    ensures Familiar(lines, LinesOf(first, c) + LinesOf(second, c))
  {
    hide Trim, Trained;
    forall l | l in lines && Trim(l) != ""
      ensures exists k :: k in LinesOf(first, c) + LinesOf(second, c) && Trim(k) == Trim(l)
    {
      var i :| 0 <= i < |lines| && lines[i] == l;
      assert miner(Trained(first, second)[c], Trim(lines[i]));
      TrainedLines(first, second, c, Trim(l));
    }
  }

  /** With a miner that accepts what it was trained on, a run of a workload that became ready is successful if in every
      container known from the baselines each of its lines that is not blank occurs in one of them; and with a miner
      that accepts nothing else, only then. */
  lemma FamiliarRunsAreSuccessful(miner: Miner, recordings: map<Kind, Recording>, runs: map<CheckType, Run>,
                                  t: CheckType)
    requires AnalysisOf(miner, recordings, runs).Updated? && t in runs
    requires forall trained: seq<string>, line: string :: line in trained ==> miner(trained, line)
    ensures var first, second := recordings[BaselineRun(false)].logs, recordings[BaselineRun(true)].logs;
            var logs := recordings[CheckRun(t)].logs;
            var familiar := forall c :: c in logs && (c in first || c in second) ==>
              Familiar(logs[c], LinesOf(first, c) + LinesOf(second, c));
            var ready := BecameReady(runs[t], recordings[CheckRun(t)]);
            var successful := t in Successful(AnalysisOf(miner, recordings, runs).runs);
            (ready && familiar ==> successful) && (successful ==> ready) &&
            ((forall trained: seq<string>, line: string :: miner(trained, line) ==> line in trained) ==>
               (successful <==> ready && familiar))
  {
    hide Familiar, LogsUnmatched, Trained;
    VerdictsAreMeant(miner, recordings, runs, t);
    var first, second := recordings[BaselineRun(false)].logs, recordings[BaselineRun(true)].logs;
    var logs := recordings[CheckRun(t)].logs;
    forall c | c in logs && (c in first || c in second)
      ensures Familiar(logs[c], LinesOf(first, c) + LinesOf(second, c)) ==>
                !LogsUnmatched(miner, Trained(first, second)[c], logs[c])
      ensures (forall trained: seq<string>, line: string :: miner(trained, line) ==> line in trained) &&
              !LogsUnmatched(miner, Trained(first, second)[c], logs[c]) ==>
                Familiar(logs[c], LinesOf(first, c) + LinesOf(second, c))
    {
      if Familiar(logs[c], LinesOf(first, c) + LinesOf(second, c)) {
        FamiliarLinesMatch(miner, first, second, c, logs[c]);
      }
      if (forall trained: seq<string>, line: string :: miner(trained, line) ==> line in trained) &&
         !LogsUnmatched(miner, Trained(first, second)[c], logs[c]) {
        UnfamiliarLinesDoNot(miner, first, second, c, logs[c]);
      }
    }
  }

  // ---------- the fold ----------

  /** The pod context and the main container's context; neither is nil once a fold has begun. */
  datatype Contexts = Contexts(pod: PodContext, container: Viewed)

  function BaseOf(t: Template): Contexts {
    Contexts(if t.context.Some? then t.context.value else EMPTY_POD,
             if |t.containers| > 0 && t.containers[0].Some? then t.containers[0].value else EMPTY_CONTAINER)
  }

  function MergeBoth(c: Contexts, d: Defaults): Contexts {
    Contexts(MergePod(Some(c.pod), PodToK8s(d.pod)).value,
             MergeContainer(Some(c.container), View(ContainerToK8s(d.container))).value)
  }

  function Fold(base: Contexts, order: seq<CheckType>, ds: map<CheckType, Defaults>): Contexts
    requires Elements(order) <= ds.Keys
  {
    if order == [] then base
    else
      var front := order[..|order| - 1];
      assert order == front + [order[|order| - 1]];
      MergeBoth(Fold(base, front, ds), ds[order[|order| - 1]])
  }

  function ContextsOf(runs: map<CheckType, Run>): (ds: map<CheckType, Defaults>)
    requires forall t :: t in Successful(runs) ==> runs[t].context.Some?
    ensures ds.Keys == Successful(runs)
  {
    map t | t in Successful(runs) :: runs[t].context.value
  }

  method MergeStep(pod: PodContext, container: Listed, d: Defaults)
    returns (mergedPod: PodContext, mergedContainer: Listed)
    ensures Contexts(mergedPod, ViewContext(mergedContainer)) == MergeBoth(Contexts(pod, ViewContext(container)), d)
  {
    var p := MergePodSecurityContexts(Some(pod), PodToK8s(d.pod));
    var c := MergeContainerSecurityContexts(Some(container), ContainerToK8s(d.container));
    mergedPod, mergedContainer := p.value, c.value;
  }

  lemma FoldStep(base: Contexts, order: seq<CheckType>, t: CheckType, ds: map<CheckType, Defaults>)
    requires Elements(order) <= ds.Keys && t in ds && t !in order && NoDuplicates(order)
    ensures Elements(order + [t]) == Elements(order) + {t} && NoDuplicates(order + [t])
    ensures Fold(base, order + [t], ds) == MergeBoth(Fold(base, order, ds), ds[t])
  {
    assert (order + [t])[..|order|] == order;
  }

  /** In whatever order the map yields its keys; `order` is that order. */
  method FoldInMapOrder(pod: PodContext, container: Listed, ds: map<CheckType, Defaults>)
    returns (mergedPod: PodContext, mergedContainer: Listed, order: seq<CheckType>)
    ensures NoDuplicates(order) && Elements(order) == ds.Keys
    ensures Contexts(mergedPod, ViewContext(mergedContainer)) == Fold(Contexts(pod, ViewContext(container)), order, ds)
  {
    mergedPod, mergedContainer, order := pod, container, [];
    var rest := ds.Keys;
    while rest != {}
      invariant rest <= ds.Keys && Elements(order) == ds.Keys - rest && NoDuplicates(order)
      invariant Contexts(mergedPod, ViewContext(mergedContainer)) ==
        Fold(Contexts(pod, ViewContext(container)), order, ds)
    {
      var t :| t in rest;
      assert t !in Elements(order);
      FoldStep(Contexts(pod, ViewContext(container)), order, t, ds);
      mergedPod, mergedContainer := MergeStep(mergedPod, mergedContainer, ds[t]);
      order, rest := order + [t], rest - {t};
    }
  }

  /** Starts from the template's own contexts and folds in those of the successful runs. */
  method SetRecommendation(runs: map<CheckType, Run>, podContext: Option<PodContext>, containers: seq<Container>)
    returns (pod: PodContext, container: Listed, order: seq<CheckType>)
    requires forall t :: t in Successful(runs) ==> runs[t].context.Some?
    ensures NoDuplicates(order) && Elements(order) == Successful(runs)
    ensures forall t :: t in order <==> t in runs && runs[t].checkSuccessful != Some(false)
    ensures order == [] ==>
      pod == (if podContext.Some? then podContext.value else EMPTY_POD) &&
      ViewContext(container) ==
        (if |containers| > 0 && containers[0].context.Some? then ViewContext(containers[0].context.value)
         else EMPTY_CONTAINER)
    ensures Contexts(pod, ViewContext(container)) ==
            Fold(BaseOf(Template(podContext, ViewAll(containers), [])), order, ContextsOf(runs))
  {
    pod := if podContext.Some? then podContext.value else EMPTY_POD;
    container := if |containers| > 0 && containers[0].context.Some? then containers[0].context.value else EMPTY_LISTED;
    assert Contexts(pod, ViewContext(container)) == BaseOf(Template(podContext, ViewAll(containers), []));
    pod, container, order := FoldInMapOrder(pod, container, ContextsOf(runs));
    assert forall t :: t in order <==> t in Elements(order);
  }

  // ---------- one name for every field ----------

  datatype Field =
    | PodUser | PodGroup | PodFsGroup | PodNonRoot | PodSeccomp | PodGroups | PodSeLinux | PodGroupsPolicy
    | ContainerUser | ContainerGroup | ContainerNonRoot | ContainerReadOnly | ContainerEscalation
    | ContainerSeccomp | ContainerSeLinux | ContainerPrivileged

  datatype FieldValue = Number(n: int) | Flag(b: bool) | Profile(p: Seccomp) | Text(t: string) | Numbers(ns: seq<int>)

  function Num(x: Option<int>): Option<FieldValue> { if x.None? then None else Some(Number(x.value)) }
  function Bit(x: Option<bool>): Option<FieldValue> { if x.None? then None else Some(Flag(x.value)) }
  function Sec(x: Option<Seccomp>): Option<FieldValue> { if x.None? then None else Some(Profile(x.value)) }
  function Str(x: Option<string>): Option<FieldValue> { if x.None? then None else Some(Text(x.value)) }
  function Nums(x: Option<seq<int>>): Option<FieldValue> { if x.None? then None else Some(Numbers(x.value)) }

  function Get(c: Contexts, f: Field): Option<FieldValue> {
    match f
    case PodUser => Num(c.pod.runAsUser)
    case PodGroup => Num(c.pod.runAsGroup)
    case PodFsGroup => Num(c.pod.fsGroup)
    case PodNonRoot => Bit(c.pod.runAsNonRoot)
    case PodSeccomp => Sec(c.pod.seccomp)
    case PodGroups => Nums(c.pod.supplementalGroups)
    case PodSeLinux => Str(c.pod.seLinux)
    case PodGroupsPolicy => Str(c.pod.supplementalGroupsPolicy)
    case ContainerUser => Num(c.container.runAsUser)
    case ContainerGroup => Num(c.container.runAsGroup)
    case ContainerNonRoot => Bit(c.container.runAsNonRoot)
    case ContainerReadOnly => Bit(c.container.readOnlyRootFilesystem)
    case ContainerEscalation => Bit(c.container.allowPrivilegeEscalation)
    case ContainerSeccomp => Sec(c.container.seccomp)
    case ContainerSeLinux => Str(c.container.seLinux)
    case ContainerPrivileged => Bit(c.container.privileged)
  }

  /** What a set of defaults asks for. */
  function Asked(d: Defaults): Contexts {
    Contexts(if d.pod.Some? then d.pod.value.ToK8s() else EMPTY_POD,
             if d.container.Some? then ViewContext(d.container.value.ToK8s()) else EMPTY_CONTAINER)
  }

  function AskedDrops(d: Defaults): set<string> {
    if d.container.Some? && d.container.value.capabilitiesDrop.Some?
    then Elements(d.container.value.capabilitiesDrop.value) else {}
  }

  /** The capability block left after dropping `more` as well. */
  function AlsoDropping(base: Option<Capabilities<set<string>>>, more: set<string>): Option<Capabilities<set<string>>> {
    if more == {} then base
    else if base.None? then Some(Capabilities([], Some(more)))
    else Some(Capabilities(base.value.add, Some((if base.value.drop.Some? then base.value.drop.value else {}) + more)))
  }

  /** Both merges take every field from the base if it is set there, and otherwise from the extension; except the
      container's runAsNonRoot, the capabilities, and the fields that no merge looks at. */
  lemma MergesAreLeftBiased(a: Contexts, b: Contexts)
    ensures var pod := MergePod(Some(a.pod), Some(b.pod));
            var container := MergeContainer(Some(a.container), Some(b.container));
            pod.Some? && container.Some? && pod.value.other == a.pod.other &&
            container.value.other == a.container.other && container.value.runAsNonRoot == a.container.runAsNonRoot &&
            forall f :: f != ContainerNonRoot ==>
              Get(Contexts(pod.value, container.value), f) == if Get(a, f).Some? then Get(a, f) else Get(b, f)
    ensures var own, theirs := a.container.capabilities, b.container.capabilities;
            var merged := MergeContainer(Some(a.container), Some(b.container)).value.capabilities;
            (merged.None? <==> own.None? && theirs.None?) &&
            (merged.Some? ==> merged.value.add == if own.Some? then own.value.add else theirs.value.add)
  {
  }

  lemma MergeBothFields(c: Contexts, d: Defaults)
    ensures forall f ::
      Get(MergeBoth(c, d), f) == if f == ContainerNonRoot then Get(c, f) else OrElse(Get(c, f), Get(Asked(d), f))
    ensures MergeBoth(c, d).pod.other == c.pod.other && MergeBoth(c, d).container.other == c.container.other
  {
  }

  lemma MergeBothCapabilities(c: Contexts, d: Defaults)
    ensures MergeBoth(c, d).container.capabilities == AlsoDropping(c.container.capabilities, AskedDrops(d))
  {
    if d.container.Some? {
      var k := d.container.value;
      if k.capabilitiesDrop.Some? && k.capabilitiesDrop.value != [] {
        assert k.capabilitiesDrop.value[0] in Elements(k.capabilitiesDrop.value);
        assert {} + AskedDrops(d) == AskedDrops(d);
      } else {
        assert AskedDrops(d) == {};
      }
    }
  }

  lemma LiftsAreInjective()
    ensures forall x, y :: Num(x) == Num(y) ==> x == y
    ensures forall x, y :: Bit(x) == Bit(y) ==> x == y
    ensures forall x, y :: Sec(x) == Sec(y) ==> x == y
    ensures forall x, y :: Str(x) == Str(y) ==> x == y
    ensures forall x, y :: Nums(x) == Nums(y) ==> x == y
  {
  }

  lemma PodFieldsDetermine(a: Contexts, b: Contexts)
    requires forall f :: Get(a, f) == Get(b, f)
    requires a.pod.other == b.pod.other
    ensures a.pod == b.pod
  {
    var p, q := a.pod, b.pod;
    LiftsAreInjective();
    assert Num(p.runAsUser) == Num(q.runAsUser) by { assert Get(a, PodUser) == Get(b, PodUser); }
    assert Num(p.runAsGroup) == Num(q.runAsGroup) by { assert Get(a, PodGroup) == Get(b, PodGroup); }
    assert Num(p.fsGroup) == Num(q.fsGroup) by { assert Get(a, PodFsGroup) == Get(b, PodFsGroup); }
    assert Bit(p.runAsNonRoot) == Bit(q.runAsNonRoot) by { assert Get(a, PodNonRoot) == Get(b, PodNonRoot); }
    assert Sec(p.seccomp) == Sec(q.seccomp) by { assert Get(a, PodSeccomp) == Get(b, PodSeccomp); }
    assert Nums(p.supplementalGroups) == Nums(q.supplementalGroups) by {
      assert Get(a, PodGroups) == Get(b, PodGroups);
    }
    assert Str(p.seLinux) == Str(q.seLinux) by { assert Get(a, PodSeLinux) == Get(b, PodSeLinux); }
    assert Str(p.supplementalGroupsPolicy) == Str(q.supplementalGroupsPolicy) by {
      assert Get(a, PodGroupsPolicy) == Get(b, PodGroupsPolicy);
    }
  }

  lemma ContainerUsersDetermine(a: Contexts, b: Contexts)
    requires forall f :: Get(a, f) == Get(b, f)
    ensures a.container.runAsUser == b.container.runAsUser && a.container.runAsGroup == b.container.runAsGroup &&
            a.container.runAsNonRoot == b.container.runAsNonRoot
  {
    var p, q := a.container, b.container;
    LiftsAreInjective();
    assert Num(p.runAsUser) == Num(q.runAsUser) by { assert Get(a, ContainerUser) == Get(b, ContainerUser); }
    assert Num(p.runAsGroup) == Num(q.runAsGroup) by { assert Get(a, ContainerGroup) == Get(b, ContainerGroup); }
    assert Bit(p.runAsNonRoot) == Bit(q.runAsNonRoot) by {
      assert Get(a, ContainerNonRoot) == Get(b, ContainerNonRoot);
    }
  }

  lemma ContainerFieldsDetermine(a: Contexts, b: Contexts)
    requires forall f :: Get(a, f) == Get(b, f)
    requires a.container.capabilities == b.container.capabilities && a.container.other == b.container.other
    ensures a.container == b.container
  {
    var p, q := a.container, b.container;
    ContainerUsersDetermine(a, b);
    LiftsAreInjective();
    assert Bit(p.readOnlyRootFilesystem) == Bit(q.readOnlyRootFilesystem) by {
      assert Get(a, ContainerReadOnly) == Get(b, ContainerReadOnly);
    }
    assert Bit(p.allowPrivilegeEscalation) == Bit(q.allowPrivilegeEscalation) by {
      assert Get(a, ContainerEscalation) == Get(b, ContainerEscalation);
    }
    assert Sec(p.seccomp) == Sec(q.seccomp) by { assert Get(a, ContainerSeccomp) == Get(b, ContainerSeccomp); }
    assert Str(p.seLinux) == Str(q.seLinux) by { assert Get(a, ContainerSeLinux) == Get(b, ContainerSeLinux); }
    assert Bit(p.privileged) == Bit(q.privileged) by {
      assert Get(a, ContainerPrivileged) == Get(b, ContainerPrivileged);
    }
  }

  // ---------- soundness ----------

  function DropsOf(order: seq<CheckType>, ds: map<CheckType, Defaults>): (drops: set<string>)
    requires Elements(order) <= ds.Keys
    ensures forall cap :: cap in drops <==> exists t :: t in order && cap in AskedDrops(ds[t])
  {
    set t, cap | t in order && cap in AskedDrops(ds[t]) :: cap
  }

  /** A field of the result is the template's if the template sets it; otherwise it is what some folded
      check asks for, and it is unset only if none of them asks for it. */
  predicate Justified(result: Option<FieldValue>, original: Option<FieldValue>, f: Field, order: seq<CheckType>,
                      ds: map<CheckType, Defaults>)
    requires Elements(order) <= ds.Keys
  {
    (original.Some? ==> result == original) &&
    (original.None? && result.Some? ==> exists t :: t in order && Get(Asked(ds[t]), f) == result) &&
    (original.None? && result.None? ==> forall t :: t in order ==> Get(Asked(ds[t]), f).None?)
  }

  lemma {:induction false} FoldIsJustified(base: Contexts, order: seq<CheckType>, ds: map<CheckType, Defaults>)
    requires Elements(order) <= ds.Keys
    ensures forall f :: f != ContainerNonRoot ==> Justified(Get(Fold(base, order, ds), f), Get(base, f), f, order, ds)
    ensures Get(Fold(base, order, ds), ContainerNonRoot) == Get(base, ContainerNonRoot)
    ensures Fold(base, order, ds).container.capabilities ==
      AlsoDropping(base.container.capabilities, DropsOf(order, ds))
    ensures Fold(base, order, ds).pod.other == base.pod.other &&
            Fold(base, order, ds).container.other == base.container.other
  {
    if order == [] {
      assert DropsOf(order, ds) == {};
    } else {
      var front, t := order[..|order| - 1], order[|order| - 1];
      assert order == front + [t];
      assert forall u :: u in order <==> u in front || u == t;
      FoldIsJustified(base, front, ds);
      MergeBothFields(Fold(base, front, ds), ds[t]);
      MergeBothCapabilities(Fold(base, front, ds), ds[t]);
      DroppingTwice(base.container.capabilities, DropsOf(front, ds), AskedDrops(ds[t]));
      assert DropsOf(order, ds) == DropsOf(front, ds) + AskedDrops(ds[t]);
    }
  }

  lemma DroppingTwice(base: Option<Capabilities<set<string>>>, a: set<string>, b: set<string>)
    ensures AlsoDropping(AlsoDropping(base, a), b) == AlsoDropping(base, a + b)
  {
    assert a + {} == a && {} + b == b && {} + a == a && {} + (a + b) == a + b;
    assert a + b == {} <==> a == {} && b == {} by {
      assert a <= a + b && b <= a + b;
    }
    if base.Some? && base.value.drop.Some? {
      assert (base.value.drop.value + a) + b == base.value.drop.value + (a + b);
    }
  }

  /** The check was run with some context and did no harm. */
  predicate Vouched(miner: Miner, recordings: map<Kind, Recording>, runs: map<CheckType, Run>, t: CheckType)
    requires AnalysisOf(miner, recordings, runs).Updated?
  {
    t in runs && Harmless(miner, recordings, runs[t], t) && runs[t].context.Some?
  }

  /** The order lists exactly the successful runs, all of which have contexts. */
  predicate Folds(order: seq<CheckType>, runs: map<CheckType, Run>) {
    (forall t :: t in Successful(runs) ==> runs[t].context.Some?) && Elements(order) == Successful(runs)
  }

  lemma FoldedChecksAreVouched(miner: Miner, recordings: map<Kind, Recording>, runs: map<CheckType, Run>,
                               order: seq<CheckType>, t: CheckType)
    requires AnalysisOf(miner, recordings, runs).Updated? && Folds(order, AnalysisOf(miner, recordings, runs).runs)
    ensures t in order <==> Vouched(miner, recordings, runs, t)
    ensures t in order ==> ContextsOf(AnalysisOf(miner, recordings, runs).runs)[t] == runs[t].context.value
  {
    var analyzed := AnalysisOf(miner, recordings, runs).runs;
    VerdictsAreMeant(miner, recordings, runs, t);
    assert t in order <==> t in Elements(order);
    if t in runs {
      assert analyzed[t].context == runs[t].context;
    }
  }

  /** Every field of the result is the base's own or was asked for by a check that did no harm; nothing such a
      check asks for is missing where the base is silent, except the container's runAsNonRoot; and the
      capabilities dropped are exactly the base's and those checks'. */
  ghost predicate TracesBack(miner: Miner, recordings: map<Kind, Recording>, runs: map<CheckType, Run>, base: Contexts,
                             result: Contexts)
    requires AnalysisOf(miner, recordings, runs).Updated?
  {
    (forall f :: Get(base, f).Some? ==> Get(result, f) == Get(base, f)) &&
    (forall f :: Get(base, f).None? && Get(result, f).Some? ==>
       exists t :: Vouched(miner, recordings, runs, t) && Get(Asked(runs[t].context.value), f) == Get(result, f)) &&
    (forall f, t | f != ContainerNonRoot && Vouched(miner, recordings, runs, t) ::
       Get(Asked(runs[t].context.value), f).Some? ==> Get(result, f).Some?) &&
    (forall cap :: cap in Dropped(Some(result.container)) <==>
       cap in Dropped(Some(base.container)) ||
       exists t :: Vouched(miner, recordings, runs, t) && cap in AskedDrops(runs[t].context.value))
  }

  /** What is justified by the folded checks traces back if these are the ones that did no harm. */
  lemma JustifiedTracesBack(miner: Miner, recordings: map<Kind, Recording>, runs: map<CheckType, Run>, base: Contexts,
                            result: Contexts, order: seq<CheckType>, ds: map<CheckType, Defaults>)
    requires AnalysisOf(miner, recordings, runs).Updated? && Elements(order) <= ds.Keys
    requires forall t :: t in order <==> Vouched(miner, recordings, runs, t)
    requires forall t :: t in order && t in runs && runs[t].context.Some? ==> ds[t] == runs[t].context.value
    requires forall f :: f != ContainerNonRoot ==> Justified(Get(result, f), Get(base, f), f, order, ds)
    requires Get(result, ContainerNonRoot) == Get(base, ContainerNonRoot)
    requires Dropped(Some(result.container)) == Dropped(Some(base.container)) + DropsOf(order, ds)
    ensures TracesBack(miner, recordings, runs, base, result)
  {
    hide Get, Asked, AskedDrops, Dropped, AnalysisOf, Harmless;
    forall f
      ensures Get(base, f).Some? ==> Get(result, f) == Get(base, f)
      ensures Get(base, f).None? && Get(result, f).Some? ==>
                exists t ::
                  Vouched(miner, recordings, runs, t) && Get(Asked(runs[t].context.value), f) == Get(result, f)
    {
      if f != ContainerNonRoot {
        assert Justified(Get(result, f), Get(base, f), f, order, ds);
      }
    }
    forall f, t | f != ContainerNonRoot && Vouched(miner, recordings, runs, t) &&
                  Get(Asked(runs[t].context.value), f).Some?
      ensures Get(result, f).Some?
    {
      assert Justified(Get(result, f), Get(base, f), f, order, ds);
    }
  }

  /** End to end: with both baselines recorded and an analysis that went through, the recommendation traces back
      to the template and to the checks that did no harm. */
  lemma RecommendationIsSound(miner: Miner, recordings: map<Kind, Recording>, runs: map<CheckType, Run>,
                              template: Template, order: seq<CheckType>)
    requires AnalysisOf(miner, recordings, runs).Updated?
    ensures var analyzed := AnalysisOf(miner, recordings, runs).runs;
            Folds(order, analyzed) ==>
              TracesBack(miner, recordings, runs, BaseOf(template), Fold(BaseOf(template), order, ContextsOf(analyzed)))
  {
    if Folds(order, AnalysisOf(miner, recordings, runs).runs) {
      var ds := ContextsOf(AnalysisOf(miner, recordings, runs).runs);
      var base := BaseOf(template);
      var result := Fold(base, order, ds);
      FoldIsJustified(base, order, ds);
      forall t
        ensures t in order <==> Vouched(miner, recordings, runs, t)
        ensures t in order ==> ds[t] == runs[t].context.value
      {
        FoldedChecksAreVouched(miner, recordings, runs, order, t);
      }
      assert Dropped(Some(result.container)) == Dropped(Some(base.container)) + DropsOf(order, ds);
      JustifiedTracesBack(miner, recordings, runs, base, result, order, ds);
    }
  }

  // ---------- order ----------

  predicate Agreeing(order: seq<CheckType>, ds: map<CheckType, Defaults>)
    requires Elements(order) <= ds.Keys
  {
    forall f, t, u ::
      f != ContainerNonRoot && t in order && u in order && Get(Asked(ds[t]), f).Some? && Get(Asked(ds[u]), f).Some? ==>
      Get(Asked(ds[t]), f) == Get(Asked(ds[u]), f)
  }

  lemma AgreeingFoldsAreEqual(base: Contexts, s: seq<CheckType>, t: seq<CheckType>, ds: map<CheckType, Defaults>)
    requires Elements(s) <= ds.Keys && Elements(s) == Elements(t)
    requires Agreeing(s, ds)
    ensures Fold(base, s, ds) == Fold(base, t, ds)
  {
    FoldIsJustified(base, s, ds);
    FoldIsJustified(base, t, ds);
    assert forall u :: u in s <==> u in Elements(s);
    assert forall u :: u in t <==> u in Elements(t);
    assert DropsOf(s, ds) == DropsOf(t, ds);
    var a, b := Fold(base, s, ds), Fold(base, t, ds);
    forall f
      ensures Get(a, f) == Get(b, f)
    {
      if f != ContainerNonRoot {
        assert Justified(Get(a, f), Get(base, f), f, s, ds) && Justified(Get(b, f), Get(base, f), f, t, ds);
      }
    }
    PodFieldsDetermine(a, b);
    ContainerFieldsDetermine(a, b);
  }

  /** Each check is given its own fresh copy of the user's defaults. */
  function FreshContexts(d: Defaults): (ds: map<CheckType, Defaults>)
    requires Complete(d)
    ensures ds.Keys == ALL_CHECKS
  {
    map t | t in ALL_CHECKS :: WithDefaults(t, d)
  }

  ghost predicate OrderDoesNotMatter(d: Defaults)
    requires Complete(d)
  {
    forall base: Contexts, s: seq<CheckType>, t: seq<CheckType> ::
      Elements(s) <= ALL_CHECKS && Elements(s) == Elements(t) ==>
      Fold(base, s, FreshContexts(d)) == Fold(base, t, FreshContexts(d))
  }

  /** The recommendation is independent of the map's iteration order, for every workload and every set of
      successful checks, exactly when the user's defaults leave the container's user consistent. In
      particular it always is without user defaults. */
  lemma OrderIndependence(d: Defaults)
    requires Complete(d)
    ensures OrderDoesNotMatter(d) <==> UserConsistent(d)
    ensures OrderDoesNotMatter(BLANK)
  {
    ConsistentOrder(BLANK);
    if UserConsistent(d) {
      ConsistentOrder(d);
    } else {
      InconsistentOrder(d);
      var base := Contexts(EMPTY_POD, EMPTY_CONTAINER);
      assert Elements([User, Group]) == {User, Group} == Elements([Group, User]);
      assert Fold(base, [User, Group], FreshContexts(d)) != Fold(base, [Group, User], FreshContexts(d));
    }
  }

  lemma ConsistentOrder(d: Defaults)
    requires Complete(d) && UserConsistent(d)
    ensures OrderDoesNotMatter(d)
  {
    var ds := FreshContexts(d);
    forall base: Contexts, s: seq<CheckType>, t: seq<CheckType> |
        Elements(s) <= ALL_CHECKS && Elements(s) == Elements(t)
      ensures Fold(base, s, ds) == Fold(base, t, ds)
    {
      forall f, x, y | f != ContainerNonRoot && x in s && y in s &&
                       Get(Asked(ds[x]), f).Some? && Get(Asked(ds[y]), f).Some?
        ensures Get(Asked(ds[x]), f) == Get(Asked(ds[y]), f)
      {
        ConsistentDefaultsAgree(d, f, x, y);
      }
      AgreeingFoldsAreEqual(base, s, t, ds);
    }
  }

  lemma ConsistentDefaultsAgree(d: Defaults, f: Field, x: CheckType, y: CheckType)
    requires Complete(d) && UserConsistent(d)
    requires Get(Asked(WithDefaults(x, d)), f).Some? && Get(Asked(WithDefaults(y, d)), f).Some?
    ensures Get(Asked(WithDefaults(x, d)), f) == Get(Asked(WithDefaults(y, d)), f)
  {
    FieldIsShared(d, f, x);
    FieldIsShared(d, f, y);
  }

  /** Under consistency a check that asks for a field asks for what all checks together would ask for. */
  lemma FieldIsShared(d: Defaults, f: Field, t: CheckType)
    requires Complete(d) && UserConsistent(d)
    requires Get(Asked(WithDefaults(t, d)), f).Some?
    ensures Get(Asked(WithDefaults(t, d)), f) == Get(Asked(Together(ALL_CHECKS, d)), f)
  {
    match t {
      case User =>
      case Group =>
      case ReadOnlyRootFilesystem =>
      case AllowPrivilegeEscalation =>
      case DropAllCapabilities =>
    }
  }

  lemma InconsistentOrder(d: Defaults)
    requires Complete(d) && !UserConsistent(d)
    ensures var base, ds := Contexts(EMPTY_POD, EMPTY_CONTAINER), FreshContexts(d);
            Elements([User, Group]) <= ds.Keys && Elements([Group, User]) <= ds.Keys &&
            Fold(base, [User, Group], ds).container.runAsUser == Some(1000) &&
            Fold(base, [Group, User], ds).container.runAsUser == d.pod.value.runAsUser
  {
    var base, ds := Contexts(EMPTY_POD, EMPTY_CONTAINER), FreshContexts(d);
    assert [User, Group][..1] == [User] && [Group, User][..1] == [Group] && [User][..0] == [] && [Group][..0] == [];
    assert Fold(base, [], ds) == base;
    assert Fold(base, [User], ds) == MergeBoth(base, ds[User]);
    assert Fold(base, [Group], ds) == MergeBoth(base, ds[Group]);
  }

  // ---------- the final run ----------

  /** What the final run applies: the recommendation, projected back to defaults. */
  function GetRecommendedSecurityContext(pod: PodContext, container: Listed): Defaults {
    Defaults(Some(PodDefaults(pod.fsGroup, pod.runAsUser, pod.runAsGroup, pod.runAsNonRoot, None, None)),
             Some(ContainerDefaults(container.runAsNonRoot, container.readOnlyRootFilesystem,
                                    container.allowPrivilegeEscalation,
                                    if container.capabilities.Some? && container.capabilities.value.drop.Some?
                                    then container.capabilities.value.drop else Some([]),
                                    None, container.runAsUser, container.runAsGroup)))
  }

  predicate Carried(f: Field) {
    f in {PodUser, PodGroup, PodFsGroup, PodNonRoot, ContainerUser, ContainerGroup, ContainerNonRoot, ContainerReadOnly,
          ContainerEscalation}
  }

  /** The part that holds for any recommendation in which the template's own values are kept. */
  lemma ProjectionReproduces(template: Template, pod: PodContext, container: Listed)
    requires |template.containers| > 0
    requires var base, result := BaseOf(template), Contexts(pod, ViewContext(container));
             (forall f :: Get(base, f).Some? ==> Get(result, f) == Get(base, f)) &&
             Get(result, ContainerNonRoot) == Get(base, ContainerNonRoot)
    ensures var result := Contexts(pod, ViewContext(container));
            var final := BaseOf(Applied(template, GetRecommendedSecurityContext(pod, container)));
            forall f :: Get(final, f) == Get(result, f) <==> Carried(f) || Get(result, f) == Get(BaseOf(template), f)
  {
    var d := GetRecommendedSecurityContext(pod, container);
    assert Applied(template, d).containers[0] ==
      MergeContainer(template.containers[0], View(ContainerToK8s(d.container)));
    assert forall f :: Carried(f) ==> Get(Asked(d), f) == Get(Contexts(pod, ViewContext(container)), f);
    assert forall f :: !Carried(f) ==> Get(Asked(d), f) == None;
    FinalFields(template, d);
  }

  lemma FinalFields(template: Template, d: Defaults)
    requires |template.containers| > 0
    ensures forall f :: f != ContainerNonRoot ==>
      Get(BaseOf(Applied(template, d)), f) == OrElse(Get(BaseOf(template), f), Get(Asked(d), f))
    ensures Get(BaseOf(Applied(template, d)), ContainerNonRoot) ==
      if template.containers[0].None? then Get(Asked(d), ContainerNonRoot) else Get(BaseOf(template), ContainerNonRoot)
  {
    MergeBothFields(BaseOf(template), d);
    assert Applied(template, d).containers[0] ==
      MergeContainer(template.containers[0], View(ContainerToK8s(d.container)));
  }

  lemma FinalRunDrops(template: Template, order: seq<CheckType>, ds: map<CheckType, Defaults>, pod: PodContext,
                      container: Listed)
    requires Elements(order) <= ds.Keys && |template.containers| > 0
    requires Contexts(pod, ViewContext(container)) == Fold(BaseOf(template), order, ds)
    ensures Dropped(Some(BaseOf(Applied(template, GetRecommendedSecurityContext(pod, container))).container)) ==
            Dropped(Some(ViewContext(container)))
  {
    hide Get, Fold, Justified;
    var base, d := BaseOf(template), GetRecommendedSecurityContext(pod, container);
    FoldIsJustified(base, order, ds);
    DropOfDefaults(d.container.value);
    MergeDropsTheUnion(template.containers[0], View(ContainerToK8s(d.container)));
    assert Applied(template, d).containers[0] ==
      MergeContainer(template.containers[0], View(ContainerToK8s(d.container)));
    assert Dropped(Some(base.container)) <= Dropped(Some(ViewContext(container)));
  }

  /** Applying the projection to a fresh clone of the template reproduces the recommendation on the pod and
      the first container: always for the carried fields and for the dropped capabilities, and for any other
      field exactly when the recommendation takes it from the template. */
  lemma FinalRunReproduces(template: Template, order: seq<CheckType>, ds: map<CheckType, Defaults>, pod: PodContext,
                           container: Listed)
    requires Elements(order) <= ds.Keys && |template.containers| > 0
    requires Contexts(pod, ViewContext(container)) == Fold(BaseOf(template), order, ds)
    ensures var result := Contexts(pod, ViewContext(container));
            var final := BaseOf(Applied(template, GetRecommendedSecurityContext(pod, container)));
            (forall f :: Get(final, f) == Get(result, f) <==>
               Carried(f) || Get(result, f) == Get(BaseOf(template), f)) &&
            Dropped(Some(final.container)) == Dropped(Some(result.container))
  {
    hide Fold, Dropped, MergeContainer;
    var base, result := BaseOf(template), Contexts(pod, ViewContext(container));
    FoldIsJustified(base, order, ds);
    forall f | Get(base, f).Some?
      ensures Get(result, f) == Get(base, f)
    {
      if f != ContainerNonRoot {
        assert Justified(Get(result, f), Get(base, f), f, order, ds);
      }
    }
    ProjectionReproduces(template, pod, container);
    FinalRunDrops(template, order, ds, pod, container);
  }
}
