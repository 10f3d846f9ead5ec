/** Any number of status updates in flight at once, each a Get followed by an Update, retried on conflict. */
module Serialisation {
  import opened Prelude
  import opened HardeningStatus
  import opened Trace
  import opened Manager

  datatype Operation = Operation(actor: Actor, mutation: Mutation)

  /** An operation holds the changed copy together with the version it has read. */
  datatype Client =
    | Working(op: Operation, attempts: nat)
    | Holding(op: Operation, attempts: nat, change: Mutation, copy: Status, version: nat)
    | Succeeded(op: Operation)
    | GivenUp(op: Operation)

  /** `log` has the accepted updates in commit order, `order` the operations they belong to. */
  datatype State = State(status: Status, version: nat, clients: seq<Client>, log: seq<Event>, order: seq<nat>)

  const INIT := State(NO_STATUS, 0, [], [], [])

  datatype Step =
    | Begin(op: Operation)
    | Get(c: nat, now: nat)
    | Update(c: nat)
    | Refuse(c: nat)     // the API server answers with an error other than a conflict

  predicate Enabled(s: State, step: Step) {
    match step
    case Begin(_) => true
    case Get(c, _) => c < |s.clients| && s.clients[c].Working?
    case Update(c) => c < |s.clients| && s.clients[c].Holding?
    case Refuse(c) => c < |s.clients| && s.clients[c].Holding?
  }

  function After(s: State, step: Step): State
    requires Enabled(s, step)
  {
    match step
    case Begin(op) => s.(clients := s.clients + [Working(op, 0)])
    case Get(c, now) =>
      var change := Timed(s.clients[c].op.mutation, now);
      s.(clients := s.clients[c := Holding(s.clients[c].op, s.clients[c].attempts, change, Apply(change, s.status),
                                           s.version)])
    case Update(c) =>
      var k := s.clients[c];
      if k.version == s.version then
        State(k.copy, s.version + 1, s.clients[c := Succeeded(k.op)],
              s.log + [Commit(k.op.actor, k.change)], s.order + [c])
      else if k.attempts + 1 < ATTEMPTS then s.(clients := s.clients[c := Working(k.op, k.attempts + 1)])
      else s.(clients := s.clients[c := GivenUp(k.op)])
    case Refuse(c) => s.(clients := s.clients[c := GivenUp(s.clients[c].op)])
  }

  /** The change is the mutation, with some time filled in. */
  predicate IsTimed(change: Mutation, m: Mutation) {
    change == Timed(m, if change.SetCond? then change.now else 0)
  }

  /** The i-th accepted update is that of the operation it is booked for. */
  predicate Booked(s: State, i: nat)
    requires i < |s.log| == |s.order|
  {
    s.order[i] < |s.clients| && s.clients[s.order[i]].Succeeded? && s.log[i].Commit? &&
    s.log[i].actor == s.clients[s.order[i]].op.actor && IsTimed(s.log[i].mutation, s.clients[s.order[i]].op.mutation)
  }

  /** A copy was made from the status as it was after the commits that its version counts. */
  predicate CopyIsSound(k: Client, log: seq<Event>) {
    k.Holding? ==>
      IsTimed(k.change, k.op.mutation) && k.version <= |log| &&
      k.copy == Apply(k.change, StatusAt(log[..k.version]))
  }

  ghost predicate Inv(s: State) {
    s.version == |s.log| == |s.order| && s.status == StatusAt(s.log) &&
    (forall c :: 0 <= c < |s.clients| ==> CopyIsSound(s.clients[c], s.log)) &&
    (forall i :: 0 <= i < |s.order| ==> Booked(s, i)) && NoDuplicates(s.order) &&
    (forall c :: 0 <= c < |s.clients| && s.clients[c].Succeeded? ==> c in s.order)
  }

  lemma GetKeeps(s: State, c: nat, now: nat)
    requires Inv(s) && Enabled(s, Get(c, now))
    ensures Inv(After(s, Get(c, now)))
  {
    var s' := After(s, Get(c, now));
    assert s.log[..|s.log|] == s.log;
    forall i | 0 <= i < |s.order|
      ensures Booked(s', i)
    {
      assert Booked(s, i);
    }
  }

  lemma SoundCopiesStay(k: Client, log: seq<Event>, e: Event)
    requires CopyIsSound(k, log)
    ensures CopyIsSound(k, log + [e])
  {
    if k.Holding? { assert (log + [e])[..k.version] == log[..k.version]; }
  }

  /** An accepted update was made from the current status, so that it adds its own change and keeps all others. */
  lemma AcceptedKeeps(s: State, c: nat)
    requires Inv(s) && Enabled(s, Update(c)) && s.clients[c].version == s.version
    ensures Inv(After(s, Update(c)))
    ensures After(s, Update(c)).status == Apply(s.clients[c].change, s.status)
  {
    var k, s' := s.clients[c], After(s, Update(c));
    var e := Commit(k.op.actor, k.change);
    assert CopyIsSound(k, s.log) && s.log[..|s.log|] == s.log;
    Appended(s.log, e, k.op.actor);
    forall j | 0 <= j < |s.clients|
      ensures CopyIsSound(s'.clients[j], s'.log)
    {
      if j != c { SoundCopiesStay(s.clients[j], s.log, e); }
    }
    forall i | 0 <= i < |s'.order|
      ensures Booked(s', i) && (i < |s.order| ==> s.order[i] != c)
    {
      if i < |s.order| { assert Booked(s, i); }
    }
    assert c in s'.order by { assert s'.order[|s.order|] == c; }
    forall j | 0 <= j < |s.clients| && s'.clients[j].Succeeded?
      ensures j in s'.order
    {
      if j != c { assert j in s.order; }
    }
  }

  lemma OthersKeep(s: State, step: Step)
    requires Inv(s) && Enabled(s, step) && !step.Get?
    requires step.Update? ==> s.clients[step.c].version != s.version
    ensures Inv(After(s, step))
  {
    var s' := After(s, step);
    forall i | 0 <= i < |s.order|
      ensures Booked(s', i)
    {
      assert Booked(s, i);
    }
  }

  lemma StepKeeps(s: State, step: Step)
    requires Inv(s) && Enabled(s, step)
    ensures Inv(After(s, step))
  {
    match step
    case Get(c, now) => GetKeeps(s, c, now);
    case Update(c) => if s.clients[c].version == s.version { AcceptedKeeps(s, c); } else { OthersKeep(s, step); }
    case _ => OthersKeep(s, step);
  }

  ghost predicate IsRun(states: seq<State>, steps: seq<Step>) {
    |states| == |steps| + 1 && states[0] == INIT &&
    forall i {:trigger steps[i]} :: 0 <= i < |steps| ==>
      Enabled(states[i], steps[i]) && states[i + 1] == After(states[i], steps[i])
  }

  lemma {:induction false} RunsKeep(states: seq<State>, steps: seq<Step>, n: nat)
    requires IsRun(states, steps) && n < |states|
    ensures Inv(states[n])
  {
    if n > 0 {
      RunsKeep(states, steps, n - 1);
      StepKeeps(states[n - 1], steps[n - 1]);
    }
  }

  /** Under every interleaving of reads and updates, the stored status is the accepted changes applied one after
      another in commit order, and each operation that has succeeded is among them exactly once, however often
      it was retried; one that was given up, or is still under way, is not among them at all. */
  lemma CommitsAreSerial(states: seq<State>, steps: seq<Step>, n: nat)
    requires IsRun(states, steps) && n < |states|
    ensures var s := states[n];
            |s.log| == |s.order| && s.status == StatusAt(s.log) && NoDuplicates(s.order) &&
            (forall c :: 0 <= c < |s.clients| ==> (s.clients[c].Succeeded? <==> c in s.order)) &&
            (forall i :: 0 <= i < |s.log| ==>
               s.order[i] < |s.clients| && s.log[i].Commit? &&
               IsTimed(s.log[i].mutation, s.clients[s.order[i]].op.mutation))
  {
    RunsKeep(states, steps, n);
    var s := states[n];
    forall i | 0 <= i < |s.log|
      ensures s.order[i] < |s.clients| && s.clients[s.order[i]].Succeeded? && s.log[i].Commit? &&
              IsTimed(s.log[i].mutation, s.clients[s.order[i]].op.mutation)
    {
      assert Booked(s, i);
    }
  }
}
