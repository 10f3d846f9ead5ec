/** Security contexts, their left-biased merge, and its application to a pod template.

    `capabilities.drop` is a Go slice: nil, empty or a list in no particular order. The executable
    methods keep it as an optional sequence; the specification looks at it as an optional set. */
module SecurityContexts {
  import opened Prelude

  // ---------- Kubernetes contexts ----------

  datatype Seccomp = Seccomp(profile: string, localhost: Option<string>)

  /** `other` stands for the fields that no merge looks at (sysctls, fsGroupChangePolicy, ...). */
  datatype PodContext = PodContext(
    runAsUser: Option<int>, runAsGroup: Option<int>, fsGroup: Option<int>, runAsNonRoot: Option<bool>,
    seccomp: Option<Seccomp>, seLinux: Option<string>, supplementalGroups: Option<seq<int>>,
    supplementalGroupsPolicy: Option<string>, other: seq<string>)

  const EMPTY_POD := PodContext(None, None, None, None, None, None, None, None, [])

  datatype Capabilities<+D> = Capabilities(add: seq<string>, drop: Option<D>)

  /** `other` stands for the fields that no merge looks at (procMount, windowsOptions, ...). */
  datatype ContainerContext<+D> = ContainerContext(
    runAsUser: Option<int>, runAsGroup: Option<int>, capabilities: Option<Capabilities<D>>,
    privileged: Option<bool>, allowPrivilegeEscalation: Option<bool>, readOnlyRootFilesystem: Option<bool>,
    seccomp: Option<Seccomp>, seLinux: Option<string>, runAsNonRoot: Option<bool>, other: seq<string>)

  type Listed = ContainerContext<seq<string>>
  type Viewed = ContainerContext<set<string>>

  const EMPTY_CONTAINER: Viewed := ContainerContext(None, None, None, None, None, None, None, None, None, [])
  const EMPTY_LISTED: Listed := ContainerContext(None, None, None, None, None, None, None, None, None, [])

  function ViewDrop(d: Option<seq<string>>): Option<set<string>> {
    if d.None? then None else Some(Elements(d.value))
  }

  function ViewCapabilities(c: Option<Capabilities<seq<string>>>): Option<Capabilities<set<string>>> {
    if c.None? then None else Some(Capabilities(c.value.add, ViewDrop(c.value.drop)))
  }

  function ViewContext(c: Listed): Viewed {
    ContainerContext(c.runAsUser, c.runAsGroup, ViewCapabilities(c.capabilities), c.privileged,
                     c.allowPrivilegeEscalation, c.readOnlyRootFilesystem, c.seccomp, c.seLinux,
                     c.runAsNonRoot, c.other)
  }

  function View(c: Option<Listed>): Option<Viewed> {
    if c.None? then None else Some(ViewContext(c.value))
  }

  /** The drop list of a context, nil when there is no capabilities block. */
  function DropOf<D>(c: Option<ContainerContext<D>>): Option<D> {
    if c.Some? && c.value.capabilities.Some? then c.value.capabilities.value.drop else None
  }

  /** What the kernel is told to drop: nil and empty are the same. */
  function Dropped(c: Option<Viewed>): set<string> {
    if DropOf(c).Some? then DropOf(c).value else {}
  }

  // ---------- the merges ----------

  function MergePod(base: Option<PodContext>, extension: Option<PodContext>): Option<PodContext> {
    if base.None? then extension
    else if extension.None? then base
    else
      var b, e := base.value, extension.value;
      Some(b.(runAsUser := OrElse(b.runAsUser, e.runAsUser),
              runAsGroup := OrElse(b.runAsGroup, e.runAsGroup),
              fsGroup := OrElse(b.fsGroup, e.fsGroup),
              runAsNonRoot := OrElse(b.runAsNonRoot, e.runAsNonRoot),
              seccomp := OrElse(b.seccomp, e.seccomp),
              seLinux := OrElse(b.seLinux, e.seLinux),
              supplementalGroups := OrElse(b.supplementalGroups, e.supplementalGroups),
              supplementalGroupsPolicy := OrElse(b.supplementalGroupsPolicy, e.supplementalGroupsPolicy)))
  }

  /** Collecting the keys of an empty Go map gives a nil slice, so two empty lists merge to nil. */
  function MergeDrop(base: Option<set<string>>, extension: Option<set<string>>): Option<set<string>> {
    if extension.None? then base
    else
      var union := (if base.Some? then base.value else {}) + extension.value;
      if union == {} then None else Some(union)
  }

  function MergeCapabilities(base: Option<Capabilities<set<string>>>, extension: Option<Capabilities<set<string>>>)
    : Option<Capabilities<set<string>>>
  {
    if extension.None? then base
    else if base.None? then Some(Capabilities(extension.value.add, MergeDrop(None, extension.value.drop)))
    else Some(Capabilities(base.value.add, MergeDrop(base.value.drop, extension.value.drop)))
  }

  /** `runAsNonRoot` is never copied into an existing container context. */
  function MergeContainer(base: Option<Viewed>, extension: Option<Viewed>): Option<Viewed> {
    if base.None? then extension
    else if extension.None? then base
    else
      var b, e := base.value, extension.value;
      Some(b.(runAsUser := OrElse(b.runAsUser, e.runAsUser),
              runAsGroup := OrElse(b.runAsGroup, e.runAsGroup),
              capabilities := MergeCapabilities(b.capabilities, e.capabilities),
              privileged := OrElse(b.privileged, e.privileged),
              allowPrivilegeEscalation := OrElse(b.allowPrivilegeEscalation, e.allowPrivilegeEscalation),
              readOnlyRootFilesystem := OrElse(b.readOnlyRootFilesystem, e.readOnlyRootFilesystem),
              seccomp := OrElse(b.seccomp, e.seccomp),
              seLinux := OrElse(b.seLinux, e.seLinux)))
  }

  // ---------- the merges as the code performs them ----------

  /** The keys of the capability map, in whatever order the map gives them. */
  method CollectKeys(keys: set<string>) returns (list: seq<string>)
    ensures Elements(list) == keys && NoDuplicates(list)
  {
    list := [];
    var rest := keys;
    while rest != {}
      invariant Elements(list) + rest == keys && Elements(list) !! rest
      invariant NoDuplicates(list)
    {
      var k :| k in rest;
      assert k !in Elements(list);
      assert Elements(list + [k]) == Elements(list) + {k};
      list, rest := list + [k], rest - {k};
    }
  }

  method MergeDropLists(base: Option<seq<string>>, extension: Option<seq<string>>) returns (drop: Option<seq<string>>)
    ensures ViewDrop(drop) == MergeDrop(ViewDrop(base), ViewDrop(extension))
    ensures extension.None? ==> drop == base
    ensures extension.Some? && drop.Some? ==> NoDuplicates(drop.value)
  {
    drop := base;
    if drop.None? && extension.Some? {
      drop := extension;
    }
    if drop.Some? && extension.Some? {
      var appended := drop.value + extension.value;
      var seen: set<string> := {};
      for i := 0 to |appended|
        invariant seen == Elements(appended[..i])
      {
        assert appended[..i + 1] == appended[..i] + [appended[i]];
        seen := seen + {appended[i]};
      }
      assert appended[..|appended|] == appended;
      assert Elements(appended) == Elements(drop.value) + Elements(extension.value);
      var list := CollectKeys(seen);
      assert list == [] <==> Elements(list) == {} by {
        if list != [] { assert list[0] in Elements(list); }
      }
      assert base.None? ==> Elements(drop.value) + Elements(extension.value) == {} + Elements(extension.value);
      drop := if list == [] then None else Some(list);
    }
  }

  /** Field by field, as the code does it. */
  method MergePodSecurityContexts(base: Option<PodContext>, extension: Option<PodContext>)
    returns (result: Option<PodContext>)
    ensures result == MergePod(base, extension)
  {
    if base.None? { return extension; }
    if extension.None? { return base; }
    var merged, e := base.value, extension.value;
    merged := merged.(runAsUser := OrElse(merged.runAsUser, e.runAsUser));
    merged := merged.(runAsGroup := OrElse(merged.runAsGroup, e.runAsGroup));
    merged := merged.(fsGroup := OrElse(merged.fsGroup, e.fsGroup));
    merged := merged.(runAsNonRoot := OrElse(merged.runAsNonRoot, e.runAsNonRoot));
    merged := merged.(seccomp := OrElse(merged.seccomp, e.seccomp));
    merged := merged.(seLinux := OrElse(merged.seLinux, e.seLinux));
    merged := merged.(supplementalGroups := OrElse(merged.supplementalGroups, e.supplementalGroups));
    merged := merged.(supplementalGroupsPolicy := OrElse(merged.supplementalGroupsPolicy, e.supplementalGroupsPolicy));
    result := Some(merged);
  }

  /** The capabilities block of a container context, which contexts may share. */
  class CapabilityBlock {
    var add: seq<string>
    var drop: Option<seq<string>>

    constructor (c: Capabilities<seq<string>>)
      ensures Contents() == c
    {
      add, drop := c.add, c.drop;
    }

    function Contents(): Capabilities<seq<string>>
      reads this
    {
      Capabilities(add, drop)
    }
  }

  function ContentsOf(block: CapabilityBlock?): Option<Capabilities<seq<string>>>
    reads if block == null then {} else {block}
  {
    if block == null then None else Some(block.Contents())
  }

  /** The result starts out as a copy of the base's block. If there is none, it is the extension's own block, whose drop
      list is then replaced in place; otherwise neither argument changes. */
  method MergeBlocks(base: CapabilityBlock?, extension: CapabilityBlock?) returns (merged: CapabilityBlock?)
    modifies if base == null && extension != null then {extension} else {}
    ensures ViewCapabilities(ContentsOf(merged)) ==
            MergeCapabilities(ViewCapabilities(old(ContentsOf(base))), ViewCapabilities(old(ContentsOf(extension))))
    ensures if base == null then merged == extension else merged != null && fresh(merged)
    ensures merged != null ==> merged.add == if base == null then old(extension.add) else old(base.add)
    ensures extension != null && old(extension.drop).Some? && merged.drop.Some? ==> NoDuplicates(merged.drop.value)
  {
    merged := base;
    if base != null { merged := new CapabilityBlock(base.Contents()); }
    if merged == null && extension != null { merged := extension; }
    if merged != null && extension != null {
      DropMergeLaws(ViewDrop(extension.drop), None, None);
      var drop := MergeDropLists(merged.drop, extension.drop);
      merged.drop := drop;
    }
  }

  method BlockOf(c: Option<Capabilities<seq<string>>>) returns (block: CapabilityBlock?)
    ensures ContentsOf(block) == c && (block != null ==> fresh(block))
  {
    block := null;
    if c.Some? { block := new CapabilityBlock(c.value); }
  }

  method MergeContainerSecurityContexts(base: Option<Listed>, extension: Option<Listed>)
    returns (result: Option<Listed>)
    ensures View(result) == MergeContainer(View(base), View(extension))
    ensures base.Some? && DropOf(extension).Some? && DropOf(result).Some? ==> NoDuplicates(DropOf(result).value)
  {
    if base.None? { return extension; }
    if extension.None? { return base; }
    var merged, e := base.value, extension.value;
    merged := merged.(runAsUser := OrElse(merged.runAsUser, e.runAsUser));
    merged := merged.(runAsGroup := OrElse(merged.runAsGroup, e.runAsGroup));
    var ours := BlockOf(merged.capabilities);
    var theirs := BlockOf(e.capabilities);
    var block := MergeBlocks(ours, theirs);
    merged := merged.(capabilities := ContentsOf(block));
    merged := merged.(privileged := OrElse(merged.privileged, e.privileged));
    merged := merged.(allowPrivilegeEscalation := OrElse(merged.allowPrivilegeEscalation, e.allowPrivilegeEscalation));
    merged := merged.(readOnlyRootFilesystem := OrElse(merged.readOnlyRootFilesystem, e.readOnlyRootFilesystem));
    merged := merged.(seccomp := OrElse(merged.seccomp, e.seccomp));
    merged := merged.(seLinux := OrElse(merged.seLinux, e.seLinux));
    result := Some(merged);
  }

  // ---------- the merge algebra ----------

  lemma PodMergeIsAMonoid(a: Option<PodContext>, b: Option<PodContext>, c: Option<PodContext>)
    ensures MergePod(None, a) == a == MergePod(a, None)
    ensures MergePod(MergePod(a, b), c) == MergePod(a, MergePod(b, c))
    ensures MergePod(a, a) == a && MergePod(a, MergePod(a, b)) == MergePod(a, b)
  {
  }

  /** A drop list that is present but empty: the one value on which the container laws can break. */
  predicate EmptyDrop(c: Option<Viewed>) {
    DropOf(c) == Some({})
  }

  /** Forgets the difference between a nil and an empty drop list. */
  function Normal(c: Option<Viewed>): Option<Viewed> {
    if EmptyDrop(c) then Some(c.value.(capabilities := Some(c.value.capabilities.value.(drop := None)))) else c
  }

  lemma NormalIsCongruent(a: Option<Viewed>, b: Option<Viewed>)
    ensures Normal(MergeContainer(a, b)) == Normal(MergeContainer(Normal(a), b))
    ensures Normal(MergeContainer(a, b)) == Normal(MergeContainer(a, Normal(b)))
  {
    if DropOf(a).Some? { assert DropOf(a).value + {} == DropOf(a).value; }
  }

  /** On the nose when no empty drop list is involved, and exactly then for the first two laws. */
  lemma ContainerMergeIsAMonoid(a: Option<Viewed>, b: Option<Viewed>, c: Option<Viewed>)
    ensures MergeContainer(None, a) == a == MergeContainer(a, None)
    ensures Normal(MergeContainer(MergeContainer(a, b), c)) == Normal(MergeContainer(a, MergeContainer(b, c)))
    ensures MergeContainer(MergeContainer(a, b), c) == MergeContainer(a, MergeContainer(b, c))
            <==> !(EmptyDrop(a) && EmptyDrop(c) && b.Some? && Dropped(b) == {})
    ensures MergeContainer(a, a) == a <==> !EmptyDrop(a)
    ensures Normal(MergeContainer(a, a)) == Normal(a)
    ensures MergeContainer(a, MergeContainer(a, b)) == MergeContainer(a, b) <==> !(EmptyDrop(a) && Dropped(b) == {})
    ensures Normal(MergeContainer(a, MergeContainer(a, b))) == Normal(MergeContainer(a, b))
  {
    DropMergeLaws(DropOf(a), DropOf(b), DropOf(c));
  }

  lemma DropMergeLaws(a: Option<set<string>>, b: Option<set<string>>, c: Option<set<string>>)
    ensures var l, r := MergeDrop(MergeDrop(a, b), c), MergeDrop(a, MergeDrop(b, c));
            (l == r || (l == None && r == Some({})) || (l == Some({}) && r == None)) &&
            (l == r <==> !(a == Some({}) && c == Some({}) && (b.None? || b.value == {})))
    ensures MergeDrop(a, a) == MergeDrop(None, a) == if a == Some({}) then None else a
  {
    var A := if a.Some? then a.value else {};
    var B := if b.Some? then b.value else {};
    var C := if c.Some? then c.value else {};
    assert (A + B) + C == A + (B + C);
    assert A + A == A;
    assert A + {} == A && {} + A == A && {} + B == B && {} + C == C && B + {} == B;
  }

  /** Dropping is a plain union, whatever is nil, empty or missing on either side. */
  lemma MergeDropsTheUnion(a: Option<Viewed>, b: Option<Viewed>)
    ensures Dropped(MergeContainer(a, b)) == Dropped(a) + Dropped(b)
  {
  }

  // ---------- the defaults of the custom resource ----------

  datatype PodDefaults = PodDefaults(
    fsGroup: Option<int>, runAsUser: Option<int>, runAsGroup: Option<int>, runAsNonRoot: Option<bool>,
    supplementalGroups: Option<seq<int>>, seccomp: Option<string>)
  {
    predicate IsEmpty() {
      fsGroup.None? && runAsUser.None? && runAsGroup.None? && runAsNonRoot.None? &&
      (supplementalGroups.None? || supplementalGroups.value == []) &&
      (seccomp.None? || seccomp.value == "")
    }

    function ToK8s(): PodContext {
      PodContext(runAsUser, runAsGroup, fsGroup, runAsNonRoot,
                 if seccomp.Some? then Some(Seccomp(seccomp.value, None)) else None, None, supplementalGroups, None, [])
    }
  }

  datatype ContainerDefaults = ContainerDefaults(
    runAsNonRoot: Option<bool>, readOnlyRootFilesystem: Option<bool>, allowPrivilegeEscalation: Option<bool>,
    capabilitiesDrop: Option<seq<string>>, seccomp: Option<string>, runAsUser: Option<int>, runAsGroup: Option<int>)
  {
    predicate IsEmpty() {
      runAsNonRoot.None? && readOnlyRootFilesystem.None? && allowPrivilegeEscalation.None? &&
      (capabilitiesDrop.None? || capabilitiesDrop.value == []) &&
      (seccomp.None? || seccomp.value == "") && runAsUser.None? && runAsGroup.None?
    }

    function ToK8s(): Listed {
      ContainerContext(runAsUser, runAsGroup,
                       if capabilitiesDrop.Some? && |capabilitiesDrop.value| > 0
                       then Some(Capabilities([], capabilitiesDrop)) else None,
                       None, allowPrivilegeEscalation, readOnlyRootFilesystem,
                       if seccomp.Some? then Some(Seccomp(seccomp.value, None)) else None, None, runAsNonRoot, [])
    }
  }

  const NO_POD_DEFAULTS := PodDefaults(None, None, None, None, None, None)
  const NO_CONTAINER_DEFAULTS := ContainerDefaults(None, None, None, None, None, None, None)

  /** A non-nil `SecurityContextDefaults`; either half may be nil. */
  datatype Defaults = Defaults(pod: Option<PodDefaults>, container: Option<ContainerDefaults>)
  {
    predicate IsEmpty() {
      (pod.None? || pod.value.IsEmpty()) && (container.None? || container.value.IsEmpty())
    }
  }

  function PodToK8s(p: Option<PodDefaults>): Option<PodContext> {
    if p.None? then None else Some(p.value.ToK8s())
  }

  function ContainerToK8s(c: Option<ContainerDefaults>): Option<Listed> {
    if c.None? then None else Some(c.value.ToK8s())
  }

  // ---------- applying defaults to a pod template ----------

  /** The parts of a pod template that hardening reads or writes. */
  datatype Template = Template(context: Option<PodContext>, containers: seq<Option<Viewed>>, inits: seq<Option<Viewed>>)

  function MergeEach(contexts: seq<Option<Viewed>>, extension: Option<Viewed>): (merged: seq<Option<Viewed>>)
    ensures |merged| == |contexts|
    ensures forall i :: 0 <= i < |contexts| ==> merged[i] == MergeContainer(contexts[i], extension)
  {
    seq(|contexts|, i requires 0 <= i < |contexts| => MergeContainer(contexts[i], extension))
  }

  function Applied(t: Template, d: Defaults): Template {
    Template(MergePod(t.context, PodToK8s(d.pod)),
             MergeEach(t.containers, View(ContainerToK8s(d.container))),
             MergeEach(t.inits, View(ContainerToK8s(d.container))))
  }

  /** The value is the own one if there is one, and otherwise the one that is asked for. */
  predicate OwnOrAsked<T(==)>(value: Option<T>, own: Option<T>, asked: Option<T>) {
    if own.Some? then value == own else value == asked
  }

  /** A seccomp profile is asked for by its type only. */
  predicate SeccompOf(profile: Option<Seccomp>, own: Option<Seccomp>, asked: Option<string>) {
    if own.Some? then profile == own
    else if asked.Some? then profile.Some? && profile.value.profile == asked.value && profile.value.localhost.None?
    else profile.None?
  }

  predicate PodHas(result: Option<PodContext>, own: Option<PodContext>, asked: Option<PodDefaults>) {
    if asked.None? then result == own
    else
      var p, d := if own.Some? then own.value else EMPTY_POD, asked.value;
      result.Some? && var r := result.value;
      OwnOrAsked(r.runAsUser, p.runAsUser, d.runAsUser) && OwnOrAsked(r.runAsGroup, p.runAsGroup, d.runAsGroup) &&
      OwnOrAsked(r.fsGroup, p.fsGroup, d.fsGroup) && OwnOrAsked(r.runAsNonRoot, p.runAsNonRoot, d.runAsNonRoot) &&
      OwnOrAsked(r.supplementalGroups, p.supplementalGroups, d.supplementalGroups) &&
      SeccompOf(r.seccomp, p.seccomp, d.seccomp) &&
      r.seLinux == p.seLinux && r.supplementalGroupsPolicy == p.supplementalGroupsPolicy && r.other == p.other
  }

  /** A container that has a context keeps its own runAsNonRoot, set or not. */
  ghost predicate ContainerHas(result: Option<Viewed>, own: Option<Viewed>, asked: Option<ContainerDefaults>) {
    if asked.None? then result == own
    else
      var c, d := if own.Some? then own.value else EMPTY_CONTAINER, asked.value;
      result.Some? && var r := result.value;
      OwnOrAsked(r.runAsUser, c.runAsUser, d.runAsUser) && OwnOrAsked(r.runAsGroup, c.runAsGroup, d.runAsGroup) &&
      OwnOrAsked(r.readOnlyRootFilesystem, c.readOnlyRootFilesystem, d.readOnlyRootFilesystem) &&
      OwnOrAsked(r.allowPrivilegeEscalation, c.allowPrivilegeEscalation, d.allowPrivilegeEscalation) &&
      SeccompOf(r.seccomp, c.seccomp, d.seccomp) &&
      r.runAsNonRoot == (if own.Some? then c.runAsNonRoot else d.runAsNonRoot) &&
      r.privileged == c.privileged && r.seLinux == c.seLinux && r.other == c.other &&
      (forall cap :: cap in Dropped(result) <==>
         cap in Dropped(own) || (d.capabilitiesDrop.Some? && cap in d.capabilitiesDrop.value)) &&
      (c.capabilities.Some? ==> r.capabilities.Some? && r.capabilities.value.add == c.capabilities.value.add) &&
      (c.capabilities.None? && r.capabilities.Some? ==> r.capabilities.value.add == [])
  }

  lemma ContainerHasAll(own: Option<Viewed>, asked: Option<ContainerDefaults>)
    ensures ContainerHas(MergeContainer(own, View(ContainerToK8s(asked))), own, asked)
  {
  }

  /** Whatever is asked for and not set by the template itself is in the applied template: in the pod's context, and in
      that of every container and every init container. Nothing else changes. */
  lemma AppliedHasAll(t: Template, d: Defaults)
    ensures var after := Applied(t, d);
            PodHas(after.context, t.context, d.pod) &&
            |after.containers| == |t.containers| && |after.inits| == |t.inits| &&
            (forall i :: 0 <= i < |t.containers| ==>
               ContainerHas(after.containers[i], t.containers[i], d.container)) &&
            (forall i :: 0 <= i < |t.inits| ==> ContainerHas(after.inits[i], t.inits[i], d.container))
  {
    hide ContainerHas, MergeContainer;
    forall own
      ensures ContainerHas(MergeContainer(own, View(ContainerToK8s(d.container))), own, d.container)
    {
      ContainerHasAll(own, d.container);
    }
  }

  datatype Container = Container(name: string, context: Option<Listed>)

  function ViewAll(cs: seq<Container>): (views: seq<Option<Viewed>>)
    ensures |views| == |cs|
    ensures forall i :: 0 <= i < |cs| ==> views[i] == View(cs[i].context)
  {
    seq(|cs|, i requires 0 <= i < |cs| => View(cs[i].context))
  }

  /** A pod template in memory, edited in place. */
  class PodSpec {
    var context: Option<PodContext>
    const containers: array<Container>
    const inits: array<Container>

    ghost predicate Valid() {
      containers != inits
    }

    ghost function Contents(): Template
      reads this, containers, inits
    {
      Template(context, ViewAll(containers[..]), ViewAll(inits[..]))
    }

    constructor (context: Option<PodContext>, containers: array<Container>, inits: array<Container>)
      requires containers != inits
      ensures Valid() && this.context == context && this.containers == containers && this.inits == inits
    {
      this.context := context;
      this.containers := containers;
      this.inits := inits;
    }

    /** Every container, regular or init, keeps its name and gets the merged context. */
    method ApplySecurityContext(d: Defaults)
      requires Valid()
      modifies this, containers, inits
      ensures Contents() == Applied(old(Contents()), d)
      ensures forall i :: 0 <= i < containers.Length ==> containers[i].name == old(containers[i].name)
      ensures forall i :: 0 <= i < inits.Length ==> inits[i].name == old(inits[i].name)
    {
      if context.None? {
        context := PodToK8s(d.pod);
      } else {
        context := MergePodSecurityContexts(context, PodToK8s(d.pod));
      }
      ApplyToContainers(containers, d.container);
      ApplyToContainers(inits, d.container);
      assert Contents().containers == Applied(old(Contents()), d).containers;
      assert Contents().inits == Applied(old(Contents()), d).inits;
    }

    static method ApplyToContainers(cs: array<Container>, c: Option<ContainerDefaults>)
      modifies cs
      ensures forall i :: 0 <= i < cs.Length ==> cs[i].name == old(cs[i].name)
      ensures forall i :: 0 <= i < cs.Length ==>
        View(cs[i].context) == MergeContainer(View(old(cs[i].context)), View(ContainerToK8s(c)))
    {
      for i := 0 to cs.Length
        invariant forall j :: 0 <= j < cs.Length ==> cs[j].name == old(cs[j].name)
        invariant forall j :: i <= j < cs.Length ==> cs[j] == old(cs[j])
        invariant forall j :: 0 <= j < i ==>
          View(cs[j].context) == MergeContainer(View(old(cs[j].context)), View(ContainerToK8s(c)))
      {
        if cs[i].context.None? {
          cs[i] := cs[i].(context := ContainerToK8s(c));
        } else {
          var merged := MergeContainerSecurityContexts(cs[i].context, ContainerToK8s(c));
          cs[i] := cs[i].(context := merged);
        }
      }
    }
  }

  // ---------- skipping empty defaults ----------

  /** Nil and empty contexts, nil and empty lists of groups, capabilities or drops look the same to Kubernetes. */
  function PodEffect(p: Option<PodContext>): PodContext {
    var q := if p.None? then EMPTY_POD else p.value;
    if q.supplementalGroups == Some([]) then q.(supplementalGroups := None) else q
  }

  function ContainerEffect(c: Option<Viewed>): Viewed {
    var k := if c.None? then EMPTY_CONTAINER else c.value;
    if k.capabilities.Some? && k.capabilities.value.add == [] && Dropped(Some(k)) == {} then k.(capabilities := None)
    else if Dropped(Some(k)) == {} && k.capabilities.Some?
    then k.(capabilities := Some(Capabilities(k.capabilities.value.add, None)))
    else k
  }

  predicate SameEffect(s: Template, t: Template) {
    PodEffect(s.context) == PodEffect(t.context) &&
    |s.containers| == |t.containers| && |s.inits| == |t.inits| &&
    (forall i :: 0 <= i < |s.containers| ==> ContainerEffect(s.containers[i]) == ContainerEffect(t.containers[i])) &&
    (forall i :: 0 <= i < |s.inits| ==> ContainerEffect(s.inits[i]) == ContainerEffect(t.inits[i]))
  }

  /** A seccomp profile that is present with an empty type, which IsEmpty overlooks. */
  predicate NamelessSeccomp(d: Defaults) {
    (d.pod.Some? && d.pod.value.seccomp == Some("")) || (d.container.Some? && d.container.value.seccomp == Some(""))
  }

  lemma EmptyHasNoEffect(d: Defaults, c: Option<Viewed>)
    requires d.IsEmpty() && !NamelessSeccomp(d)
    ensures ContainerEffect(MergeContainer(c, View(ContainerToK8s(d.container)))) == ContainerEffect(c)
  {
  }

  lemma EmptyPodExactly(p: Option<PodDefaults>)
    ensures PodEffect(PodToK8s(p)) == PodEffect(None) <==> p.None? || (p.value.IsEmpty() && p.value.seccomp != Some(""))
  {
  }

  lemma EmptyContainerExactly(c: Option<ContainerDefaults>)
    ensures ContainerEffect(View(ContainerToK8s(c))) == ContainerEffect(None) <==>
            c.None? || (c.value.IsEmpty() && c.value.seccomp != Some(""))
  {
    if c.Some? && c.value.capabilitiesDrop.Some? && c.value.capabilitiesDrop.value != [] {
      assert c.value.capabilitiesDrop.value[0] in Elements(c.value.capabilitiesDrop.value);
    }
  }

  /** RunCheck skips defaults that are IsEmpty. Applying defaults has no effect on any template exactly if they are
      IsEmpty and hold no nameless seccomp profile; so that skipping them equals applying them, and only then. */
  lemma SkippingIsApplying(d: Defaults)
    ensures (forall t: Template :: SameEffect(Applied(t, d), t)) <==> d.IsEmpty() && !NamelessSeccomp(d)
  {
    hide ContainerEffect, MergeContainer, ContainerToK8s, PodEffect, PodToK8s;
    if d.IsEmpty() && !NamelessSeccomp(d) {
      EmptyPodHasNoEffect(d);
      forall t: Template
        ensures SameEffect(Applied(t, d), t)
      {
        forall c: Option<Viewed>
          ensures ContainerEffect(MergeContainer(c, View(ContainerToK8s(d.container)))) == ContainerEffect(c)
        {
          EmptyHasNoEffect(d, c);
        }
      }
    } else {
      var t := Template(None, [None], []);
      AppliedToNothing(d);
      EmptyPodExactly(d.pod);
      EmptyContainerExactly(d.container);
      assert Applied(t, d).containers[0] == View(ContainerToK8s(d.container)) && t.containers[0] == None;
      assert !SameEffect(Applied(t, d), t);
    }
  }

  lemma EmptyPodHasNoEffect(d: Defaults)
    requires d.IsEmpty() && !NamelessSeccomp(d)
    ensures forall p :: PodEffect(MergePod(p, PodToK8s(d.pod))) == PodEffect(p)
  {
  }

  lemma AppliedToNothing(d: Defaults)
    ensures Applied(Template(None, [None], []), d).context == PodToK8s(d.pod)
    ensures Applied(Template(None, [None], []), d).containers == [View(ContainerToK8s(d.container))]
  {
    assert Applied(Template(None, [None], []), d).containers[0] == View(ContainerToK8s(d.container));
  }
}
