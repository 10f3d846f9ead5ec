/** Cloning a namespace copies the cluster role bindings of its service accounts; deleting the clone
    removes the copies again. Only namespaces and cluster role bindings are modelled. */
module RoleBindings {
  import opened Prelude

  datatype Subject = Subject(serviceAccount: bool, namespace: string, name: string)

  /** Reading a label that is not set gives the empty string. */
  datatype Labels = Labels(managedBy: string, source: string, target: string, suffix: string,
                           others: map<string, string>)

  datatype Binding = Binding(role: string, subjects: seq<Subject>, labels: Labels)

  type Bindings = map<string, Binding>

  datatype State = State(namespaces: set<string>, bindings: Bindings)

  predicate In(s: Subject, namespace: string) {
    s.serviceAccount && s.namespace == namespace
  }

  /** Some subject is a service account of the namespace. */
  predicate Names(b: Binding, namespace: string) {
    exists i :: 0 <= i < |b.subjects| && In(b.subjects[i], namespace)
  }

  function Moved(s: Subject, source: string, target: string): Subject {
    if In(s, source) then s.(namespace := target) else s
  }

  function Rewritten(b: Binding, source: string, target: string, suffix: string): Binding {
    Binding(b.role,
            seq(|b.subjects|, i requires 0 <= i < |b.subjects| => Moved(b.subjects[i], source, target)),
            Labels("oracle-of-funk", source, target, suffix, b.labels.others))
  }

  lemma RewrittenNames(b: Binding, source: string, target: string, suffix: string, other: string)
    requires source != target
    ensures !Names(Rewritten(b, source, target, suffix), source)
    ensures other != source && other != target ==>
      (Names(Rewritten(b, source, target, suffix), other) <==> Names(b, other))
  {
    var r := Rewritten(b, source, target, suffix);
    if i :| 0 <= i < |b.subjects| && In(b.subjects[i], other) && other != source {
      assert In(r.subjects[i], other);
    }
    if other != source && other != target && Names(r, other) {
      var i :| 0 <= i < |r.subjects| && In(r.subjects[i], other);
      assert In(b.subjects[i], other);
    }
  }

  /** A clone binds to the same role exactly the accounts of the target that the original binds in the source or in the
      target, and whatever else the original binds; it is labelled with where it comes from and keeps other labels. */
  lemma ClonesBindTheSame(b: Binding, source: string, target: string, suffix: string)
    requires source != target
    ensures var clone := Rewritten(b, source, target, suffix);
            clone.role == b.role && |clone.subjects| == |b.subjects| &&
            (forall name :: Subject(true, target, name) in clone.subjects <==>
               Subject(true, source, name) in b.subjects || Subject(true, target, name) in b.subjects) &&
            (forall s: Subject :: !s.serviceAccount || (s.namespace != source && s.namespace != target) ==>
               (s in clone.subjects <==> s in b.subjects)) &&
            clone.labels.managedBy == "oracle-of-funk" && clone.labels.source == source &&
            clone.labels.target == target && clone.labels.suffix == suffix && clone.labels.others == b.labels.others
  {
    var clone := Rewritten(b, source, target, suffix);
    forall s: Subject
      ensures s in clone.subjects <==> exists x :: x in b.subjects && Moved(x, source, target) == s
    {
      if x :| x in b.subjects && Moved(x, source, target) == s {
        var i :| 0 <= i < |b.subjects| && b.subjects[i] == x;
        assert clone.subjects[i] == s;
      }
      if s in clone.subjects {
        var i :| 0 <= i < |clone.subjects| && clone.subjects[i] == s;
        assert b.subjects[i] in b.subjects && Moved(b.subjects[i], source, target) == s;
      }
    }
    forall name
      ensures Subject(true, target, name) in clone.subjects <==>
              Subject(true, source, name) in b.subjects || Subject(true, target, name) in b.subjects
    {
      assert Moved(Subject(true, source, name), source, target) == Subject(true, target, name);
      assert Moved(Subject(true, target, name), source, target) == Subject(true, target, name);
    }
    forall s: Subject | !s.serviceAccount || (s.namespace != source && s.namespace != target)
      ensures s in clone.subjects <==> s in b.subjects
    {
      assert Moved(s, source, target) == s;
    }
  }

  // ---------- names of clones ----------

  method RandomString(n: nat) returns (s: string)
    ensures |s| == n
  {
    s := "";
    while |s| < n
      invariant |s| <= n
    {
      var c: char := *;
      s := s + [c];
    }
  }

  /** The clone's name, or a panic: a random string cannot have a negative length. A name keeps within 253 characters,
      and collides with the original exactly if that has 253. */
  method CloneName(name: string, target: string) returns (clone: Option<string>)
    ensures clone.None? <==> |name| > 253
    ensures clone.Some? ==> |clone.value| <= 253 && (clone.value == name <==> |name| == 253)
    ensures |name| + 1 + |target| <= 250 ==> clone == Some(name + "-" + target)
    ensures |name| + 1 + |target| > 250 && clone.Some? ==>
      name <= clone.value && |clone.value| == (if |name| <= 242 then |name| + 11 else 253) &&
      (|name| < 253 ==> clone.value[|name|] == '-')
  {
    var composite := name + "-" + target;
    if |composite| > 250 {
      var suffixLength := 10;
      if |name| > 245 {
        suffixLength := 253 - |name|;
      }
      if suffixLength < 0 { return None; }
      var random := RandomString(suffixLength);
      composite := name + "-" + random;
      if |composite| > 253 {
        composite := composite[..253];
      }
      assert |name| == 253 ==> composite == name;
    }
    clone := Some(composite);
  }

  // ---------- what the two operations do ----------

  function BindingsNaming(b: Bindings, namespace: string): Bindings {
    map n | n in b && Names(b[n], namespace) :: b[n]
  }

  /** Nothing that was there changes, and whatever is new copies a binding that names the source. */
  predicate ClonesFrom(before: Bindings, after: Bindings, source: string, target: string, suffix: string) {
    before.Keys <= after.Keys &&
    (forall n :: n in before ==> after[n] == before[n]) &&
    (forall n :: n in after && n !in before ==>
       exists o :: o in before && Names(before[o], source) && after[n] == Rewritten(before[o], source, target, suffix))
  }

  predicate HasClone(o: string, before: Bindings, after: Bindings, source: string, target: string, suffix: string)
    requires o in before
  {
    exists n :: n in after && n !in before && after[n] == Rewritten(before[o], source, target, suffix)
  }

  predicate EveryOneCloned(before: Bindings, after: Bindings, source: string, target: string, suffix: string) {
    forall o :: o in before && Names(before[o], source) ==> HasClone(o, before, after, source, target, suffix)
  }

  /** The name of the clone does not collide with a binding that is already there. */
  predicate NameIsFree(o: string, before: Bindings, target: string) {
    |o| < 253 && (|o| + 1 + |target| <= 250 ==> o + "-" + target !in before)
  }

  predicate CloneStep(s: State, t: State, source: string, target: string, suffix: string) {
    (s == t) ||
    (target !in s.namespaces && t.namespaces == s.namespaces + {target} &&
     ClonesFrom(s.bindings, t.bindings, source, target, suffix))
  }

  predicate DeleteStep(s: State, t: State, target: string) {
    (s == t) ||
    (target in s.namespaces && t.namespaces == s.namespaces - {target} &&
     t.bindings.Keys <= s.bindings.Keys &&
     (forall n :: n in t.bindings ==> t.bindings[n] == s.bindings[n]) &&
     (forall n :: n in s.bindings && n !in t.bindings ==> s.bindings[n].labels.target == target))
  }

  /** Only bindings that lack the target's label are left. */
  function Unlabelled(b: Bindings, target: string): Bindings {
    map n | n in b && b[n].labels.target != target :: b[n]
  }

  /** Some binding that is to be cloned has a name that no clone's name can be made from. */
  predicate NameIsTooLong(b: Bindings, source: string) {
    exists o :: o in b && Names(b[o], source) && |o| > 253
  }

  predicate ShortNamesAdded(before: Bindings, after: Bindings) {
    forall n :: n in after && n !in before ==> |n| <= 253
  }

  /** All but the rest have been cloned, and under free names. */
  predicate ClonedBut(rest: set<string>, before: Bindings, after: Bindings, source: string, target: string,
                      suffix: string) {
    forall o :: o in before && o !in rest && Names(before[o], source) ==>
      NameIsFree(o, before, target) && HasClone(o, before, after, source, target, suffix)
  }

  predicate Extends(b: Bindings, b': Bindings) {
    b.Keys <= b'.Keys && forall n :: n in b ==> b'[n] == b[n]
  }

  lemma CloneIsAdded(items: Bindings, b: Bindings, o: string, name: string, source: string, target: string,
                     suffix: string)
    requires o in items && Names(items[o], source) && ClonesFrom(items, b, source, target, suffix) && name !in b
    ensures var b' := b[name := Rewritten(items[o], source, target, suffix)];
            Extends(b, b') && ClonesFrom(items, b', source, target, suffix) &&
            HasClone(o, items, b', source, target, suffix)
  {
    var b' := b[name := Rewritten(items[o], source, target, suffix)];
    assert b'[name] == Rewritten(items[o], source, target, suffix) && name !in items;
  }

  lemma ClonesStay(rest: set<string>, items: Bindings, b: Bindings, b': Bindings, source: string, target: string,
                   suffix: string)
    requires ClonedBut(rest, items, b, source, target, suffix) && Extends(b, b')
    ensures ClonedBut(rest, items, b', source, target, suffix)
  {
    forall o | o in items && o !in rest && Names(items[o], source)
      ensures HasClone(o, items, b', source, target, suffix)
    {
      var n :| n in b && n !in items && b[n] == Rewritten(items[o], source, target, suffix);
      assert n in b' && b'[n] == b[n];
    }
  }

  // ---------- the operations ----------

  /** A panic ends the whole process. */
  datatype Outcome = Done | Failed | Panicked

  class Cluster {
    var namespaces: set<string>
    var bindings: Bindings
    /** Whether requests to the API server may fail. */
    const faulty: bool

    constructor (namespaces: set<string>, bindings: Bindings, faulty: bool)
      ensures Contents() == State(namespaces, bindings) && this.faulty == faulty
    {
      this.namespaces, this.bindings, this.faulty := namespaces, bindings, faulty;
    }

    function Contents(): State
      reads this
    {
      State(namespaces, bindings)
    }

    /** Stops at the first binding that cannot be created and keeps what it has created so far. If the bindings could
        not be listed, it reports success all the same and has done nothing. */
    method CloneClusterRoleBindings(source: string, target: string, suffix: string)
      returns (outcome: Outcome, ghost listed: bool)
      modifies this`bindings
      ensures ClonesFrom(old(bindings), bindings, source, target, suffix)
      ensures ShortNamesAdded(old(bindings), bindings)
      ensures !faulty ==> listed
      ensures !listed ==> outcome.Done? && bindings == old(bindings)
      ensures outcome.Panicked? ==> NameIsTooLong(old(bindings), source)
      ensures outcome.Done? && listed ==>
        EveryOneCloned(old(bindings), bindings, source, target, suffix) &&
        forall o :: o in old(bindings) && Names(old(bindings)[o], source) ==> NameIsFree(o, old(bindings), target)
    {
      var items := bindings;
      listed := true;
      if faulty {
        var answered: bool := *;
        if !answered { return Done, false; }
      }
      var rest := items.Keys;
      while rest != {}
        invariant rest <= items.Keys
        invariant ClonesFrom(items, bindings, source, target, suffix) && ShortNamesAdded(items, bindings)
        invariant ClonedBut(rest, items, bindings, source, target, suffix)
      {
        var o :| o in rest;
        rest := rest - {o};
        if Names(items[o], source) {
          ghost var before := bindings;
          outcome := CreateClone(items, o, source, target, suffix);
          if !outcome.Done? { return outcome, listed; }
          ClonesStay(rest + {o}, items, before, bindings, source, target, suffix);
        }
      }
      outcome := Done;
    }

    method CreateClone(items: Bindings, o: string, source: string, target: string, suffix: string)
      returns (outcome: Outcome)
      requires o in items && Names(items[o], source)
      requires ClonesFrom(items, bindings, source, target, suffix)
      modifies this`bindings
      ensures ClonesFrom(items, bindings, source, target, suffix)
      ensures !outcome.Done? ==> bindings == old(bindings)
      ensures outcome.Panicked? <==> |o| > 253
      ensures outcome.Done? ==> NameIsFree(o, items, target) && HasClone(o, items, bindings, source, target, suffix)
      ensures ShortNamesAdded(old(bindings), bindings) && Extends(old(bindings), bindings)
    {
      var name := CloneName(o, target);
      if name.None? { return Panicked; }
      var accepted := true;
      if faulty { accepted := *; }
      if !accepted || name.value in bindings {
        return Failed;
      }
      CloneIsAdded(items, bindings, o, name.value, source, target, suffix);
      bindings := bindings[name.value := Rewritten(items[o], source, target, suffix)];
      outcome := Done;
    }

    /** Refuses to clone into a namespace that exists. A clone that fails half-way keeps the namespace. */
    method Clone(source: string, target: string, suffix: string) returns (outcome: Outcome, ghost listed: bool)
      modifies this
      ensures CloneStep(old(Contents()), Contents(), source, target, suffix)
      ensures ShortNamesAdded(old(bindings), bindings)
      ensures target in old(namespaces) ==> outcome.Failed? && Contents() == old(Contents())
      ensures outcome.Panicked? ==> NameIsTooLong(old(bindings), source)
      ensures outcome.Done? && !faulty ==> listed
      ensures outcome.Done? && listed ==>
        EveryOneCloned(old(bindings), bindings, source, target, suffix) && !NameIsTooLong(old(bindings), source)
    {
      if target in namespaces { return Failed, false; }
      if faulty {
        var reachable: bool := *;
        if !reachable { return Failed, false; }
      }
      namespaces := namespaces + {target};
      outcome, listed := CloneClusterRoleBindings(source, target, suffix);
    }

    /** Deleting a namespace that is not there does nothing, so clones left behind by a failed deletion stay. */
    method Delete(target: string) returns (ok: bool)
      modifies this
      ensures DeleteStep(old(Contents()), Contents(), target)
      ensures target !in old(namespaces) ==> Contents() == old(Contents())
      ensures target in old(namespaces) && !faulty ==>
        Contents() == State(old(namespaces) - {target}, Unlabelled(old(bindings), target))
    {
      if target !in namespaces { return true; }
      if faulty {
        ok := *;
        if !ok { return; }
      }
      namespaces := namespaces - {target};
      var items := bindings;
      if faulty {
        var listed: bool := *;
        if !listed { return true; }
      }
      var rest := items.Keys;
      while rest != {}
        invariant rest <= items.Keys
        invariant namespaces == old(namespaces) - {target}
        invariant bindings.Keys <= items.Keys && forall n :: n in bindings ==> bindings[n] == items[n]
        invariant forall n :: n in items && n !in bindings ==> items[n].labels.target == target
        invariant forall n :: n in rest ==> n in bindings
        invariant !faulty ==> forall n :: n in bindings && n !in rest ==> items[n].labels.target != target
      {
        var n :| n in rest;
        rest := rest - {n};
        if items[n].labels.target == target {
          var accepted := true;
          if faulty { accepted := *; }
          if accepted {
            bindings := bindings - {n};
          }
        }
      }
      ok := true;
      assert !faulty ==> bindings == Unlabelled(items, target);
    }
  }

  // ---------- any sequence of operations ----------

  datatype Operation = CloneTo(target: string, suffix: string) | Remove(target: string)

  /** A run of operations for one source namespace, which is never itself a target. Any of them may fail,
      also half-way. */
  predicate Run(states: seq<State>, ops: seq<Operation>, source: string) {
    |states| == |ops| + 1 && source in states[0].namespaces &&
    forall i :: 0 <= i < |ops| ==> Step(states[i], ops[i], states[i + 1], source)
  }

  predicate Step(s: State, op: Operation, t: State, source: string) {
    match op
    case CloneTo(target, suffix) => CloneStep(s, t, source, target, suffix)
    case Remove(target) => target != source && DeleteStep(s, t, target)
  }

  /** No binding of the source's service accounts carries the label of a namespace the run deletes. */
  predicate OriginalsUnlabelled(b: Bindings, ops: seq<Operation>, source: string) {
    forall n, i :: n in b && Names(b[n], source) && 0 <= i < |ops| && ops[i].Remove? ==>
      b[n].labels.target != ops[i].target
  }

  /** A binding is one of the originals, untouched, or a copy of an original made for an earlier target. */
  predicate Accounted(b: Binding, n: string, originals: Bindings, ops: seq<Operation>, source: string) {
    (n in originals && b == originals[n]) ||
    exists i, o :: 0 <= i < |ops| && ops[i].CloneTo? && o in originals && Names(originals[o], source) &&
                   ops[i].target != source && b == Rewritten(originals[o], source, ops[i].target, ops[i].suffix)
  }

  lemma AccountedLonger(b: Binding, n: string, originals: Bindings, ops: seq<Operation>, more: seq<Operation>,
                        source: string)
    requires Accounted(b, n, originals, ops, source) && ops <= more
    ensures Accounted(b, n, originals, more, source)
  {
    if !(n in originals && b == originals[n]) {
      var i, o :| 0 <= i < |ops| && ops[i].CloneTo? && o in originals && Names(originals[o], source) &&
                  ops[i].target != source && b == Rewritten(originals[o], source, ops[i].target, ops[i].suffix);
      assert more[i] == ops[i];
    }
  }

  lemma CloneStepKeepsAccount(s: State, t: State, originals: Bindings, ops: seq<Operation>, source: string,
                              target: string, suffix: string)
    requires CloneStep(s, t, source, target, suffix) && source in s.namespaces
    requires forall n :: n in s.bindings ==> Accounted(s.bindings[n], n, originals, ops, source)
    requires BindingsNaming(s.bindings, source) == BindingsNaming(originals, source)
    ensures source in t.namespaces
    ensures BindingsNaming(t.bindings, source) == BindingsNaming(originals, source)
    ensures forall n :: n in t.bindings ==>
      Accounted(t.bindings[n], n, originals, ops + [CloneTo(target, suffix)], source)
  {
    var longer := ops + [CloneTo(target, suffix)];
    forall n | n in s.bindings
      ensures Accounted(s.bindings[n], n, originals, longer, source)
    {
      AccountedLonger(s.bindings[n], n, originals, ops, longer, source);
    }
    if s != t {
      forall n | n in t.bindings && n !in s.bindings
        ensures !Names(t.bindings[n], source) && Accounted(t.bindings[n], n, originals, longer, source)
      {
        var o :| o in s.bindings && Names(s.bindings[o], source) &&
                 t.bindings[n] == Rewritten(s.bindings[o], source, target, suffix);
        RewrittenNames(s.bindings[o], source, target, suffix, source);
        assert o in BindingsNaming(s.bindings, source);
        assert o in BindingsNaming(originals, source);
        assert longer[|ops|] == CloneTo(target, suffix);
      }
      assert BindingsNaming(t.bindings, source) == BindingsNaming(s.bindings, source);
    }
  }

  lemma DeleteStepKeepsAccount(s: State, t: State, originals: Bindings, ops: seq<Operation>, source: string,
                               target: string)
    requires DeleteStep(s, t, target) && source in s.namespaces && target != source
    requires forall n :: n in originals && Names(originals[n], source) ==> originals[n].labels.target != target
    requires forall n :: n in s.bindings ==> Accounted(s.bindings[n], n, originals, ops, source)
    requires BindingsNaming(s.bindings, source) == BindingsNaming(originals, source)
    ensures source in t.namespaces
    ensures BindingsNaming(t.bindings, source) == BindingsNaming(originals, source)
    ensures forall n :: n in t.bindings ==> Accounted(t.bindings[n], n, originals, ops + [Remove(target)], source)
  {
    forall n | n in t.bindings
      ensures Accounted(t.bindings[n], n, originals, ops + [Remove(target)], source)
    {
      AccountedLonger(t.bindings[n], n, originals, ops, ops + [Remove(target)], source);
    }
    forall n | n in s.bindings && Names(s.bindings[n], source)
      ensures n in t.bindings
    {
      assert n in BindingsNaming(s.bindings, source);
      assert n in BindingsNaming(originals, source) && s.bindings[n] == originals[n];
    }
    assert BindingsNaming(t.bindings, source) == BindingsNaming(s.bindings, source);
  }

  /** Over any run the bindings of the source's service accounts stay exactly the same, and every other
      binding is either untouched or a copy of one of the originals: a copy is never copied again. */
  lemma {:induction false} Conservation(states: seq<State>, ops: seq<Operation>, source: string)
    requires Run(states, ops, source) && OriginalsUnlabelled(states[0].bindings, ops, source)
    ensures var last := states[|ops|];
            source in last.namespaces &&
            BindingsNaming(last.bindings, source) == BindingsNaming(states[0].bindings, source) &&
            forall n :: n in last.bindings ==> Accounted(last.bindings[n], n, states[0].bindings, ops, source)
  {
    if ops != [] {
      var k := |ops| - 1;
      var front := ops[..k];
      var earlier := states[..k + 1];
      forall i | 0 <= i < k
        ensures Step(earlier[i], front[i], earlier[i + 1], source)
      {
        assert Step(states[i], ops[i], states[i + 1], source);
      }
      Conservation(earlier, front, source);
      assert Step(states[k], ops[k], states[k + 1], source);
      assert ops == front + [ops[k]];
      match ops[k]
      case CloneTo(target, suffix) =>
        CloneStepKeepsAccount(states[k], states[k + 1], states[0].bindings, front, source, target, suffix);
      case Remove(target) =>
        DeleteStepKeepsAccount(states[k], states[k + 1], states[0].bindings, front, source, target);
    }
  }

  /** A deletion, with or without faults, is sure to keep the bindings of the source's service accounts exactly if none
      of them carries the label of the deleted namespace. */
  lemma DeletionKeepsExactly(s: State, source: string, target: string)
    requires target in s.namespaces && target != source
    ensures (forall t :: DeleteStep(s, t, target) ==>
               BindingsNaming(t.bindings, source) == BindingsNaming(s.bindings, source)) <==>
            (forall n :: n in s.bindings && Names(s.bindings[n], source) ==> s.bindings[n].labels.target != target)
  {
    if forall n :: n in s.bindings && Names(s.bindings[n], source) ==> s.bindings[n].labels.target != target {
      forall t | DeleteStep(s, t, target)
        ensures BindingsNaming(t.bindings, source) == BindingsNaming(s.bindings, source)
      {
      }
    } else {
      var n :| n in s.bindings && Names(s.bindings[n], source) && s.bindings[n].labels.target == target;
      var t := State(s.namespaces - {target}, Unlabelled(s.bindings, target));
      assert DeleteStep(s, t, target);
      assert n in BindingsNaming(s.bindings, source) && n !in BindingsNaming(t.bindings, source);
    }
  }

  /** Deleting an existing target without faults removes exactly the copies made for that target, provided
      no original carried its label. */
  lemma DeleteRemovesTheClones(states: seq<State>, ops: seq<Operation>, source: string, target: string, n: string)
    requires Run(states, ops, source) && OriginalsUnlabelled(states[0].bindings, ops, source)
    requires n in states[|ops|].bindings
    requires forall o :: o in states[0].bindings ==> states[0].bindings[o].labels.target != target
    ensures n !in Unlabelled(states[|ops|].bindings, target) <==>
            states[|ops|].bindings[n].labels.target == target &&
            exists i, o :: 0 <= i < |ops| && ops[i].CloneTo? && ops[i].target == target && o in states[0].bindings &&
                           Names(states[0].bindings[o], source) &&
                           states[|ops|].bindings[n] == Rewritten(states[0].bindings[o], source, target, ops[i].suffix)
  {
    Conservation(states, ops, source);
    var b := states[|ops|].bindings[n];
    assert Accounted(b, n, states[0].bindings, ops, source);
    if b.labels.target == target {
      var i, o :| 0 <= i < |ops| && ops[i].CloneTo? && o in states[0].bindings &&
                  Names(states[0].bindings[o], source) &&
                  ops[i].target != source &&
                  b == Rewritten(states[0].bindings[o], source, ops[i].target, ops[i].suffix);
      assert ops[i].target == target;
    }
  }

  /** With several sources: a complete clone of one source disturbs the bindings of another when some binding
      names service accounts of both. */
  lemma SharedBindingsDisturb(before: Bindings, after: Bindings, o: string, source: string, target: string,
                              suffix: string, other: string)
    requires EveryOneCloned(before, after, source, target, suffix)
    requires o in before && Names(before[o], source) && Names(before[o], other)
    requires source != target && other != source && other != target
    ensures BindingsNaming(after, other) != BindingsNaming(before, other)
  {
    assert HasClone(o, before, after, source, target, suffix);
    var n :| n in after && n !in before && after[n] == Rewritten(before[o], source, target, suffix);
    RewrittenNames(before[o], source, target, suffix, other);
    assert n in BindingsNaming(after, other) && n !in BindingsNaming(before, other);
  }

  /** And only then: without such a binding even a half-finished clone leaves the other source alone. */
  lemma OtherSourcesAreKept(before: Bindings, after: Bindings, source: string, target: string, suffix: string,
                            other: string)
    requires ClonesFrom(before, after, source, target, suffix)
    requires forall o :: o in before && Names(before[o], source) ==> !Names(before[o], other)
    requires source != target && other != source && other != target
    ensures BindingsNaming(after, other) == BindingsNaming(before, other)
  {
    forall n | n in after && n !in before
      ensures !Names(after[n], other)
    {
      var o :| o in before && Names(before[o], source) && after[n] == Rewritten(before[o], source, target, suffix);
      RewrittenNames(before[o], source, target, suffix, other);
    }
  }
}
