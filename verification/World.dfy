/** The API server and the recording store, and what everybody else does to them in the meantime. */
module Environment {
  import opened Prelude
  import opened SecurityContexts
  import opened HardeningStatus
  import opened Trace
  import opened Provenance
  import R = Recommendation

  datatype Outcome = Accepted | Conflict | Failed

  /** What a call can be compared with. `failures` counts operations that were given up with an error;
      `noise` counts those and the events of others. */
  datatype Snapshot = Snapshot(trace: seq<Event>, status: Status, recordings: map<Kind, R.Recording>,
                               podContext: Option<PodContext>, containers: seq<Container>,
                               now: nat, failures: nat, noise: nat)

  function TemplateOf(s: Snapshot): Template {
    Template(s.podContext, ViewAll(s.containers), [])
  }

  /** Time has passed and things may have happened; without noise nothing but the actor's own doing. */
  predicate Onward(a: Snapshot, b: Snapshot) {
    a.trace <= b.trace && a.now <= b.now &&
    a.failures <= b.failures && b.failures - a.failures <= b.noise - a.noise &&
    a.recordings.Keys <= b.recordings.Keys &&
    (a.noise == b.noise ==> b.podContext == a.podContext && b.containers == a.containers)
  }

  /** Nothing has happened but what others did; without noise nothing at all. */
  predicate Waited(a: Snapshot, b: Snapshot, me: Actor) {
    Onward(a, b) && OthersOnly(a.trace, b.trace, me) && a.failures == b.failures &&
    (a.noise == b.noise ==> b == a.(now := b.now))
  }

  /** The reconciler has launched nothing and changed nothing of what only it writes. */
  predicate Steady(a: Snapshot, b: Snapshot) {
    OwnedOf(b.status) == OwnedOf(a.status) && Launches(b.trace) == Launches(a.trace)
  }

  /** Nor has it left a mark. */
  predicate Quiet(a: Snapshot, b: Snapshot) {
    Steady(a, b) && ProgressAt(b.trace) == ProgressAt(a.trace)
  }

  lemma OthersOnlyTwice(a: seq<Event>, b: seq<Event>, c: seq<Event>, me: Actor)
    requires OthersOnly(a, b, me) && OthersOnly(b, c, me)
    ensures OthersOnly(a, c, me)
  {
    forall i | |a| <= i < |c|
      ensures ActorOf(c[i]) != me
    {
      if i < |b| { assert c[i] == b[i]; }
    }
  }

  lemma WaitedTwice(a: Snapshot, b: Snapshot, c: Snapshot, me: Actor)
    requires Waited(a, b, me) && Waited(b, c, me)
    ensures Waited(a, c, me)
  {
    OthersOnlyTwice(a.trace, b.trace, c.trace, me);
  }

  lemma Beginning(podContext: Option<PodContext>, containers: seq<Container>, miner: R.Miner)
    ensures var tr := [Edit(podContext, containers)];
            WellFormed(tr) && Honest(tr, miner) && StatusAt(tr) == NO_STATUS && RecordingsAt(tr) == map[] &&
            TemplateAt(tr) == Template(podContext, ViewAll(containers), [])
  {
    var e := Edit(podContext, containers);
    assert [] + [e] == [e];
    WellFormedGrows([], e);
    HonestGrows([], e, miner);
    Appended([], e, Operator);
    ProgressNext([], e);
  }

  class World {
    var status: Status
    var version: nat
    var recordings: map<Kind, R.Recording>
    var podContext: Option<PodContext>
    var containers: seq<Container>
    var now: nat
    var trace: seq<Event>
    ghost var history: seq<Status>
    ghost var failures: nat
    ghost var noise: nat
    const miner: R.Miner

    constructor (miner: R.Miner, podContext: Option<PodContext>, containers: seq<Container>)
      ensures Valid() && trace == [Edit(podContext, containers)] && status == NO_STATUS
    {
      this.miner, this.podContext, this.containers := miner, podContext, containers;
      status, version, recordings, now, trace := NO_STATUS, 0, map[], 0, [Edit(podContext, containers)];
      history, failures, noise := [NO_STATUS], 0, 0;
      new;
      Beginning(podContext, containers, miner);
    }

    ghost function Snap(): Snapshot
      reads this
    {
      Snapshot(trace, status, recordings, podContext, containers, now, failures, noise)
    }

    /** Serialisation: the stored status is the committed mutations, applied one after another. */
    ghost predicate Valid()
      reads this
    {
      WellFormed(trace) && Honest(trace, miner) && status == StatusAt(trace) && recordings == RecordingsAt(trace) &&
      Template(podContext, ViewAll(containers), []) == TemplateAt(trace) &&
      |history| == version + 1 && history[version] == status
    }

    /** One event happens. */
    method Record(e: Event)
      requires Valid() && Allowed(trace, e) && Truthful(trace, e, miner) && !e.Commit?
      modifies this
      ensures Valid() && trace == old(trace) + [e]
      ensures Onward(old(Snap()), Snap()) || e.Edit?
      ensures status == old(status) && version == old(version) && history == old(history) && now == old(now)
      ensures failures == old(failures) && noise == old(noise)
      ensures recordings == if e.Store? then old(recordings)[e.kind := e.recording] else old(recordings)
      ensures e.Edit? || (podContext == old(podContext) && containers == old(containers))
    {
      WellFormedGrows(trace, e);
      HonestGrows(trace, e, miner);
      Appended(trace, e, Operator);
      ProgressNext(trace, e);
      trace := trace + [e];
      if e.Store? {
        recordings := recordings[e.kind := e.recording];
      } else if e.Edit? {
        podContext, containers := e.podContext, e.containers;
      }
    }

    /** The stored status is replaced; its version grows with every change. */
    method Replace(actor: Actor, m: Mutation, next: Status)
      requires Valid() && May(trace, actor, m) && next == Apply(m, status)
      modifies this
      ensures Valid() && trace == old(trace) + [Commit(actor, m)] && status == next
      ensures old(history) <= history
      ensures Onward(old(Snap()), Snap()) && now == old(now)
      ensures failures == old(failures) && noise == old(noise)
      ensures recordings == old(recordings) && podContext == old(podContext) && containers == old(containers)
    {
      Committed(trace, actor, m);
      HonestGrows(trace, Commit(actor, m), miner);
      ProgressNext(trace, Commit(actor, m));
      trace := trace + [Commit(actor, m)];
      var bumped: bool := *;
      if next != status || bumped {
        status, version, history := next, version + 1, history + [next];
      }
    }

    /** An event of somebody else. */
    method Happen(e: Event)
      requires Valid() && Allowed(trace, e) && Truthful(trace, e, miner)
      modifies this
      ensures Valid() && trace == old(trace) + [e] && now == old(now)
      ensures old(history) <= history
      ensures old(recordings).Keys <= recordings.Keys
      ensures failures == old(failures) && noise == old(noise) + 1
    {
      if e.Commit? {
        assert May(trace, e.actor, e.mutation);
        Replace(e.actor, e.mutation, Apply(e.mutation, status));
      } else {
        Record(e);
      }
      noise := noise + 1;
    }

    /** Perhaps the event happens. */
    method Disturb(me: Actor, e: Event)
      requires Valid()
      modifies this
      ensures Valid() && now == old(now) && OthersOnly(old(trace), trace, me)
      ensures old(history) <= history
      ensures old(recordings).Keys <= recordings.Keys
      ensures failures == old(failures) && noise >= old(noise)
      ensures noise == old(noise) ==> Snap() == old(Snap()) && version == old(version)
    {
      if ActorOf(e) != me && Allowed(trace, e) && Truthful(trace, e, miner) {
        Happen(e);
      }
    }

    method PassTime()
      requires Valid()
      modifies this`now
      ensures Valid() && old(now) <= now
    {
      var passed: int := *;
      if passed > 0 { now := now + passed; }
    }

    /** Time passes, and perhaps one event of somebody else happens. */
    method Turn(me: Actor)
      requires Valid()
      modifies this
      ensures Valid() && Waited(old(Snap()), Snap(), me)
      ensures old(history) <= history
      ensures noise == old(noise) ==> version == old(version)
    {
      PassTime();
      var e: Event := *;
      Disturb(me, e);
    }

    /** Others act while `me` is between two of its steps. */
    method Interfere(me: Actor)
      requires Valid()
      modifies this
      ensures Valid() && Waited(old(Snap()), Snap(), me)
      ensures old(history) <= history
      ensures noise == old(noise) ==> version == old(version)
    {
      var steps: int := *;
      for i := 0 to if steps < 0 then 0 else steps
        invariant Valid() && Waited(old(Snap()), Snap(), me)
        invariant old(history) <= history
        invariant noise == old(noise) ==> version == old(version)
      {
        ghost var before := Snap();
        Turn(me);
        WaitedTwice(old(Snap()), before, Snap(), me);
      }
    }

    /** A status update carries the version it is based on, and is accepted only if that is still the
        current one. */
    method Update(me: Actor, read: nat, next: Status, m: Mutation) returns (outcome: Outcome)
      requires Valid() && May(trace, me, m)
      requires read <= version && next == Apply(m, history[read])
      modifies this
      ensures Valid() && Onward(old(Snap()), Snap()) && now == old(now)
      ensures outcome.Accepted? ==>
        trace == old(trace) + [Commit(me, m)] && status == next == Apply(m, old(status)) &&
        noise == old(noise) && failures == old(failures) && recordings == old(recordings)
      ensures outcome.Conflict? ==> Snap() == old(Snap()) && read < version == old(version)
      ensures outcome.Failed? ==> Snap() == old(Snap()).(failures := old(failures) + 1, noise := old(noise) + 1)
      ensures old(history) <= history
    {
      var refused: bool := *;
      if refused {
        GiveUp();
        return Failed;
      }
      if read != version { return Conflict; }
      Replace(me, m, next);
      outcome := Accepted;
    }

    /** The update travels, and others are faster or they are not. */
    method Send(me: Actor, read: nat, next: Status, m: Mutation) returns (outcome: Outcome, ghost before: seq<Event>)
      requires Valid() && May(trace, me, m) && read == version && next == Apply(m, status)
      modifies this
      ensures Valid() && Onward(old(Snap()), Snap())
      ensures outcome.Accepted? ==> status == next
      ensures OthersOnly(old(trace), before, me) && WellFormed(before)
      ensures trace == if outcome.Accepted? then before + [Commit(me, m)] else before
      ensures outcome.Conflict? ==> Waited(old(Snap()), Snap(), me) && noise > old(noise)
      ensures failures == old(failures) + (if outcome.Failed? then 1 else 0)
      ensures noise == old(noise) ==> outcome.Accepted? && recordings == old(recordings)
    {
      Interfere(me);
      before := trace;
      MayIsStable(old(trace), trace, me, m);
      outcome := Update(me, read, next, m);
    }

    ghost method GiveUp()
      requires Valid()
      modifies this`failures, this`noise
      ensures Valid()
      ensures Snap() == old(Snap()).(failures := old(failures) + 1, noise := old(noise) + 1)
    {
      failures, noise := failures + 1, noise + 1;
    }

    /** The recording store may refuse. */
    method StoreRecording(id: nat, kind: Kind, recording: R.Recording) returns (ok: bool)
      requires Valid() && Launched(trace, id, kind)
      modifies this
      ensures Valid() && Onward(old(Snap()), Snap()) && now == old(now)
      ensures trace == if ok then old(trace) + [Store(id, kind, recording)] else old(trace)
      ensures noise - old(noise) == failures - old(failures) == if ok then 0 else 1
      ensures status == old(status)
    {
      ok := *;
      if ok {
        Record(Store(id, kind, recording));
      } else {
        GiveUp();
      }
    }

    /** The workload under test may be unreadable. */
    method ReadTemplate() returns (ok: bool)
      requires Valid()
      modifies this`failures, this`noise
      ensures Valid() && (ok ==> Snap() == old(Snap()))
      ensures !ok ==> Snap() == old(Snap()).(failures := old(failures) + 1, noise := old(noise) + 1)
    {
      ok := *;
      if !ok { GiveUp(); }
    }
  }
}
