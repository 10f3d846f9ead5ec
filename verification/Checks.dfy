/** The five hardening checks: what each adds to a set of defaults, and when it must run. */
module Checks {
  import opened Prelude
  import opened SecurityContexts

  // ---------- what a check adds, on values ----------

  /** The checks dereference both halves of the defaults they are handed. */
  predicate Complete(d: Defaults) {
    d.pod.Some? && d.container.Some?
  }

  const BLANK := Defaults(Some(NO_POD_DEFAULTS), Some(NO_CONTAINER_DEFAULTS))

  function WithDefaults(t: CheckType, d: Defaults): (r: Defaults)
    requires Complete(d)
    ensures Complete(r)
  {
    var p, c := d.pod.value, d.container.value;
    match t
    case User =>
      Defaults(Some(p.(runAsUser := OrElse(p.runAsUser, Some(1000)),
                       runAsNonRoot := OrElse(p.runAsNonRoot, Some(true)))),
               Some(c.(runAsUser := OrElse(c.runAsUser, Some(1000)),
                       runAsNonRoot := OrElse(c.runAsNonRoot, Some(true)))))
    case Group =>
      var user := OrElse(p.runAsUser, Some(1000));
      var group := OrElse(p.runAsGroup, user);
      Defaults(Some(p.(runAsUser := user, runAsGroup := group, fsGroup := OrElse(p.fsGroup, group))),
               Some(c.(runAsUser := OrElse(c.runAsUser, user), runAsGroup := OrElse(c.runAsGroup, group))))
    case ReadOnlyRootFilesystem =>
      d.(container := Some(c.(readOnlyRootFilesystem := OrElse(c.readOnlyRootFilesystem, Some(true)))))
    case AllowPrivilegeEscalation =>
      d.(container := Some(c.(allowPrivilegeEscalation := OrElse(c.allowPrivilegeEscalation, Some(false)))))
    case DropAllCapabilities =>
      d.(container := Some(c.(capabilitiesDrop := OrElse(c.capabilitiesDrop, Some(["ALL"])))))
  }

  predicate Keeps<T(==)>(before: Option<T>, after: Option<T>) {
    before.Some? ==> after == before
  }

  /** Whatever was set before is set to the same value now. */
  predicate KeepsAll(d: Defaults, r: Defaults)
    requires Complete(d) && Complete(r)
  {
    var p, q, c, k := d.pod.value, r.pod.value, d.container.value, r.container.value;
    Keeps(p.fsGroup, q.fsGroup) && Keeps(p.runAsUser, q.runAsUser) && Keeps(p.runAsGroup, q.runAsGroup) &&
    Keeps(p.runAsNonRoot, q.runAsNonRoot) && Keeps(p.supplementalGroups, q.supplementalGroups) &&
    Keeps(p.seccomp, q.seccomp) && Keeps(c.runAsNonRoot, k.runAsNonRoot) &&
    Keeps(c.readOnlyRootFilesystem, k.readOnlyRootFilesystem) &&
    Keeps(c.allowPrivilegeEscalation, k.allowPrivilegeEscalation) && Keeps(c.capabilitiesDrop, k.capabilitiesDrop) &&
    Keeps(c.seccomp, k.seccomp) && Keeps(c.runAsUser, k.runAsUser) && Keeps(c.runAsGroup, k.runAsGroup)
  }

  /** A check adds to the defaults and overrides nothing, and adds it once. */
  lemma DefaultsAreKept(t: CheckType, d: Defaults)
    requires Complete(d)
    ensures KeepsAll(d, WithDefaults(t, d)) && WithDefaults(t, WithDefaults(t, d)) == WithDefaults(t, d)
  {
    match t {
      case User =>
      case Group =>
      case ReadOnlyRootFilesystem =>
      case AllowPrivilegeEscalation =>
      case DropAllCapabilities =>
    }
  }

  // ---------- the same, on the objects the code shares and mutates ----------

  class PodObject {
    var fsGroup: Option<int>
    var runAsUser: Option<int>
    var runAsGroup: Option<int>
    var runAsNonRoot: Option<bool>
    var supplementalGroups: Option<seq<int>>
    var seccomp: Option<string>

    constructor ()
      ensures Value() == NO_POD_DEFAULTS
    {
      fsGroup, runAsUser, runAsGroup, runAsNonRoot, supplementalGroups, seccomp := None, None, None, None, None, None;
    }

    function Value(): PodDefaults
      reads this
    {
      PodDefaults(fsGroup, runAsUser, runAsGroup, runAsNonRoot, supplementalGroups, seccomp)
    }
  }

  class ContainerObject {
    var runAsNonRoot: Option<bool>
    var readOnlyRootFilesystem: Option<bool>
    var allowPrivilegeEscalation: Option<bool>
    var capabilitiesDrop: Option<seq<string>>
    var seccomp: Option<string>
    var runAsUser: Option<int>
    var runAsGroup: Option<int>

    constructor ()
      ensures Value() == NO_CONTAINER_DEFAULTS
    {
      runAsNonRoot, readOnlyRootFilesystem, allowPrivilegeEscalation := None, None, None;
      capabilitiesDrop, seccomp, runAsUser, runAsGroup := None, None, None, None;
    }

    function Value(): ContainerDefaults
      reads this
    {
      ContainerDefaults(runAsNonRoot, readOnlyRootFilesystem, allowPrivilegeEscalation, capabilitiesDrop, seccomp,
                        runAsUser, runAsGroup)
    }
  }

  class DefaultsObject {
    const pod: PodObject
    const container: ContainerObject

    constructor (pod: PodObject, container: ContainerObject)
      ensures this.pod == pod && this.container == container
    {
      this.pod, this.container := pod, container;
    }

    function Value(): (d: Defaults)
      reads pod, container
      ensures Complete(d)
    {
      Defaults(Some(pod.Value()), Some(container.Value()))
    }
  }

  /** Edits the object it is given and hands the same object back. */
  method GetSecurityContextDefaults(t: CheckType, base: DefaultsObject) returns (r: DefaultsObject)
    modifies base.pod, base.container
    ensures r == base
    ensures base.Value() == WithDefaults(t, old(base.Value()))
  {
    var pod, container := base.pod, base.container;
    match t {
      case User =>
        if pod.runAsUser.None? { pod.runAsUser := Some(1000); }
        if pod.runAsNonRoot.None? { pod.runAsNonRoot := Some(true); }
        if container.runAsUser.None? { container.runAsUser := Some(1000); }
        if container.runAsNonRoot.None? { container.runAsNonRoot := Some(true); }
      case Group =>
        if pod.runAsUser.None? { pod.runAsUser := Some(1000); }
        if pod.runAsGroup.None? { pod.runAsGroup := pod.runAsUser; }
        if pod.fsGroup.None? { pod.fsGroup := pod.runAsGroup; }
        if container.runAsUser.None? { container.runAsUser := pod.runAsUser; }
        if container.runAsGroup.None? { container.runAsGroup := pod.runAsGroup; }
      case ReadOnlyRootFilesystem =>
        if container.readOnlyRootFilesystem.None? { container.readOnlyRootFilesystem := Some(true); }
      case AllowPrivilegeEscalation =>
        if container.allowPrivilegeEscalation.None? { container.allowPrivilegeEscalation := Some(false); }
      case DropAllCapabilities =>
        if container.capabilitiesDrop.None? { container.capabilitiesDrop := Some(["ALL"]); }
    }
    r := base;
  }

  function Compose(ts: seq<CheckType>, d: Defaults): (r: Defaults)
    requires Complete(d)
    ensures Complete(r)
  {
    if ts == [] then d else WithDefaults(ts[|ts| - 1], Compose(ts[..|ts| - 1], d))
  }

  /** The manager's own copy of the custom resource holds the user's defaults, if there are any. */
  class CheckContexts {
    const specified: DefaultsObject?

    constructor (specified: DefaultsObject?)
      ensures this.specified == specified
    {
      this.specified := specified;
    }

    method GetSecurityContextForCheckType(t: CheckType) returns (r: DefaultsObject)
      modifies if specified == null then {} else {specified.pod, specified.container}
      ensures specified == null ==>
        fresh(r) && fresh(r.pod) && fresh(r.container) && r.Value() == WithDefaults(t, BLANK)
      ensures specified != null ==> r == specified && r.Value() == WithDefaults(t, old(specified.Value()))
    {
      var base := specified;
      if base == null {
        var pod := new PodObject();
        var container := new ContainerObject();
        base := new DefaultsObject(pod, container);
      }
      r := GetSecurityContextDefaults(t, base);
    }

    /** One call per type, with no refresh of the resource in between. With user defaults every result is
        the same object and has accumulated all the types; without, each result is an object of its own. */
    method GetAll(ts: seq<CheckType>) returns (rs: seq<DefaultsObject>)
      modifies if specified == null then {} else {specified.pod, specified.container}
      ensures |rs| == |ts|
      ensures specified != null ==>
        (forall i :: 0 <= i < |ts| ==> rs[i] == specified) && specified.Value() == Compose(ts, old(specified.Value()))
      ensures specified == null ==>
        (forall i :: 0 <= i < |ts| ==> fresh(rs[i]) && fresh(rs[i].pod) && fresh(rs[i].container)
                                       && rs[i].Value() == WithDefaults(ts[i], BLANK)) &&
        (forall i, j :: 0 <= i < j < |ts| ==>
          rs[i] != rs[j] && rs[i].pod != rs[j].pod && rs[i].container != rs[j].container)
    {
      rs := [];
      assert ts[..0] == [];
      for k := 0 to |ts|
        invariant |rs| == k
        invariant specified != null ==>
          (forall i :: 0 <= i < k ==> rs[i] == specified) &&
          specified.Value() == Compose(ts[..k], old(specified.Value()))
        invariant specified == null ==>
          (forall i :: 0 <= i < k ==> fresh(rs[i]) && fresh(rs[i].pod) && fresh(rs[i].container)
                                      && rs[i].Value() == WithDefaults(ts[i], BLANK)) &&
          (forall i, j :: 0 <= i < j < k ==>
            rs[i] != rs[j] && rs[i].pod != rs[j].pod && rs[i].container != rs[j].container)
      {
        assert ts[..k + 1][..k] == ts[..k] && ts[..k + 1][k] == ts[k];
        var r := GetSecurityContextForCheckType(ts[k]);
        rs := rs + [r];
      }
      assert ts[..|ts|] == ts;
    }
  }

  // ---------- accumulation and order ----------

  /** The user and the group check agree on the container's user. */
  predicate UserConsistent(d: Defaults)
    requires Complete(d)
  {
    d.container.value.runAsUser.Some? || d.pod.value.runAsUser.None? || d.pod.value.runAsUser == Some(1000)
  }

  function FilledIf<T>(field: Option<T>, filled: bool, filler: Option<T>): Option<T> {
    if filled then OrElse(field, filler) else field
  }

  /** All the checks of a set at once, with no order at all. */
  function Together(ts: set<CheckType>, d: Defaults): Defaults
    requires Complete(d)
  {
    var p, c := d.pod.value, d.container.value;
    var user := FilledIf(p.runAsUser, User in ts || Group in ts, Some(1000));
    var group := FilledIf(p.runAsGroup, Group in ts, user);
    Defaults(Some(p.(runAsUser := user,
                     runAsGroup := group,
                     fsGroup := FilledIf(p.fsGroup, Group in ts, group),
                     runAsNonRoot := FilledIf(p.runAsNonRoot, User in ts, Some(true)))),
             Some(c.(runAsUser := FilledIf(c.runAsUser, User in ts || Group in ts, user),
                     runAsGroup := FilledIf(c.runAsGroup, Group in ts, group),
                     runAsNonRoot := FilledIf(c.runAsNonRoot, User in ts, Some(true)),
                     readOnlyRootFilesystem :=
                       FilledIf(c.readOnlyRootFilesystem, ReadOnlyRootFilesystem in ts, Some(true)),
                     allowPrivilegeEscalation :=
                       FilledIf(c.allowPrivilegeEscalation, AllowPrivilegeEscalation in ts, Some(false)),
                     capabilitiesDrop := FilledIf(c.capabilitiesDrop, DropAllCapabilities in ts, Some(["ALL"])))))
  }

  lemma {:induction false} ComposeIsTogether(ts: seq<CheckType>, d: Defaults)
    requires Complete(d) && UserConsistent(d)
    ensures Compose(ts, d) == Together(Elements(ts), d)
  {
    if ts != [] {
      var front, last := ts[..|ts| - 1], ts[|ts| - 1];
      ComposeIsTogether(front, d);
      TogetherGrows(last, Elements(front), d);
      assert ts == front + [last];
      assert Elements(ts) == Elements(front) + {last};
    }
  }

  lemma TogetherGrows(t: CheckType, ts: set<CheckType>, d: Defaults)
    requires Complete(d) && UserConsistent(d)
    ensures WithDefaults(t, Together(ts, d)) == Together(ts + {t}, d)
  {
    match t {
      case User =>
      case Group =>
      case ReadOnlyRootFilesystem =>
      case AllowPrivilegeEscalation =>
      case DropAllCapabilities =>
    }
  }

  /** For the given user defaults the order of the calls never matters exactly when the two user
      fields are consistent. */
  lemma AccumulationOrder(d: Defaults)
    requires Complete(d)
    ensures UserConsistent(d) <==>
            (forall s: seq<CheckType>, t: seq<CheckType> :: Elements(s) == Elements(t) ==>
               Compose(s, d) == Compose(t, d))
  {
    if UserConsistent(d) {
      forall s: seq<CheckType>, t: seq<CheckType> | Elements(s) == Elements(t)
        ensures Compose(s, d) == Compose(t, d)
      {
        ComposeIsTogether(s, d);
        ComposeIsTogether(t, d);
      }
    } else {
      var s, t := [User, Group], [Group, User];
      assert s[..1] == [User] && t[..1] == [Group] && [User][..0] == [] && [Group][..0] == [];
      assert Compose([User], d) == WithDefaults(User, d) && Compose([Group], d) == WithDefaults(Group, d);
      assert Elements(s) == {User, Group} == Elements(t);
      assert Compose(s, d).container.value.runAsUser == Some(1000) != Compose(t, d).container.value.runAsUser;
    }
  }

  /** Asking twice for the same check changes nothing, whatever the defaults are and whatever came between. */
  lemma {:induction false} ComposeIsIdempotentPerType(ts: seq<CheckType>, t: CheckType, d: Defaults)
    requires Complete(d) && t in ts
    ensures Compose(ts + [t], d) == Compose(ts, d)
  {
    var front, last := ts[..|ts| - 1], ts[|ts| - 1];
    assert ts == front + [last];
    assert (ts + [t])[..|ts|] == ts;
    if last != t {
      ComposeIsIdempotentPerType(front, t, d);
      assert (front + [t])[..|front|] == front;
      assert WithDefaults(t, Compose(front, d)) == Compose(front, d);
    }
    assert WithDefaults(t, Compose(ts, d)) == Compose(ts, d);
  }

  // ---------- when a check must run ----------

  predicate ShouldRun(t: CheckType, s: Template) {
    match t
    case User => s.context.None? || s.context.value.runAsUser.None? || s.context.value.runAsNonRoot.None?
    case Group => s.context.None? || s.context.value.runAsGroup.None? || s.context.value.fsGroup.None?
    case ReadOnlyRootFilesystem =>
      exists i ::
        0 <= i < |s.containers| && (s.containers[i].None? || !Is(s.containers[i].value.readOnlyRootFilesystem, true))
    case AllowPrivilegeEscalation =>
      exists i ::
        0 <= i < |s.containers| && (s.containers[i].None? || !Is(s.containers[i].value.allowPrivilegeEscalation, false))
    case DropAllCapabilities =>
      exists i :: 0 <= i < |s.containers| && Dropped(s.containers[i]) == {}
  }

  function Required(s: Template): set<CheckType> {
    set t | t in ALL_CHECKS && ShouldRun(t, s)
  }

  /** The pod's context has a value of its own for all that the check asks of the pod; for the group check the user is
      not looked at. */
  predicate PodIsSettled(t: CheckType, own: Option<PodContext>) {
    var e := WithDefaults(t, BLANK).pod.value.ToK8s();
    own.Some? &&
    (t != Group && e.runAsUser.Some? ==> own.value.runAsUser.Some?) &&
    (e.runAsGroup.Some? ==> own.value.runAsGroup.Some?) && (e.fsGroup.Some? ==> own.value.fsGroup.Some?) &&
    (e.runAsNonRoot.Some? ==> own.value.runAsNonRoot.Some?)
  }

  /** The container's context already has the values that the check asks for; a container may drop other capabilities
      than those, but must drop some. */
  predicate ContainerIsSettled(t: CheckType, own: Option<Viewed>) {
    var e := WithDefaults(t, BLANK).container.value;
    (e.readOnlyRootFilesystem.Some? ==> own.Some? && own.value.readOnlyRootFilesystem == e.readOnlyRootFilesystem) &&
    (e.allowPrivilegeEscalation.Some? ==>
       own.Some? && own.value.allowPrivilegeEscalation == e.allowPrivilegeEscalation) &&
    (e.capabilitiesDrop.Some? ==> Dropped(own) != {})
  }

  /** A check is required exactly if the template does not settle what it asks for: the user and the group check look
      at the pod only, the others at every container. */
  lemma RequiredExactly(s: Template, t: CheckType)
    ensures t in Required(s) <==>
            if t in {User, Group} then !PodIsSettled(t, s.context)
            else exists i :: 0 <= i < |s.containers| && !ContainerIsSettled(t, s.containers[i])
  {
    match t {
      case User =>
      case Group =>
      case ReadOnlyRootFilesystem =>
        assert forall i :: 0 <= i < |s.containers| ==>
          (ContainerIsSettled(t, s.containers[i]) <==>
             s.containers[i].Some? && Is(s.containers[i].value.readOnlyRootFilesystem, true));
      case AllowPrivilegeEscalation =>
        assert forall i :: 0 <= i < |s.containers| ==>
          (ContainerIsSettled(t, s.containers[i]) <==>
             s.containers[i].Some? && Is(s.containers[i].value.allowPrivilegeEscalation, false));
      case DropAllCapabilities =>
        assert forall i :: 0 <= i < |s.containers| ==>
          (ContainerIsSettled(t, s.containers[i]) <==> Dropped(s.containers[i]) != {});
    }
  }

  /** What each check asks for on its own. */
  lemma ChecksAsk(t: CheckType)
    ensures var p, c := WithDefaults(t, BLANK).pod.value, WithDefaults(t, BLANK).container.value;
            p.runAsUser == c.runAsUser == (if t in {User, Group} then Some(1000) else None) &&
            p.runAsGroup == c.runAsGroup == (if t == Group then Some(1000) else None) &&
            p.fsGroup == (if t == Group then Some(1000) else None) &&
            p.runAsNonRoot == c.runAsNonRoot == (if t == User then Some(true) else None) &&
            c.readOnlyRootFilesystem == (if t == ReadOnlyRootFilesystem then Some(true) else None) &&
            c.allowPrivilegeEscalation == (if t == AllowPrivilegeEscalation then Some(false) else None) &&
            c.capabilitiesDrop == (if t == DropAllCapabilities then Some(["ALL"]) else None) &&
            p.supplementalGroups == None && p.seccomp == c.seccomp == None
  {
    match t {
      case User =>
      case Group =>
      case ReadOnlyRootFilesystem =>
      case AllowPrivilegeEscalation =>
      case DropAllCapabilities =>
    }
  }

  /** The user's own defaults contradict the check. */
  predicate Contradicted(t: CheckType, d: Defaults)
    requires Complete(d)
  {
    match t
    case ReadOnlyRootFilesystem => Is(d.container.value.readOnlyRootFilesystem, false)
    case AllowPrivilegeEscalation => Is(d.container.value.allowPrivilegeEscalation, true)
    case DropAllCapabilities => d.container.value.capabilitiesDrop == Some([])
    case _ => false
  }

  /** The container explicitly holds the opposite of what the check asks for. */
  predicate HoldsOpposite(t: CheckType, c: Option<Viewed>) {
    match t
    case ReadOnlyRootFilesystem => c.Some? && Is(c.value.readOnlyRootFilesystem, false)
    case AllowPrivilegeEscalation => c.Some? && Is(c.value.allowPrivilegeEscalation, true)
    case _ => false
  }

  /** The container already satisfies the check by itself. */
  predicate Satisfies(t: CheckType, c: Option<Viewed>) {
    match t
    case ReadOnlyRootFilesystem => c.Some? && Is(c.value.readOnlyRootFilesystem, true)
    case AllowPrivilegeEscalation => c.Some? && Is(c.value.allowPrivilegeEscalation, false)
    case DropAllCapabilities => Dropped(c) != {}
    case _ => true
  }

  lemma DropOfDefaults(c: ContainerDefaults)
    ensures Dropped(View(Some(c.ToK8s()))) ==
            if c.capabilitiesDrop.Some? then Elements(c.capabilitiesDrop.value) else {}
  {
    if c.capabilitiesDrop == Some([]) { assert Elements(c.capabilitiesDrop.value) == {}; }
  }

  lemma DischargedIn(t: CheckType, d: Defaults, c: Option<Viewed>)
    requires Complete(d)
    ensures !Satisfies(t, MergeContainer(c, View(ContainerToK8s(WithDefaults(t, d).container)))) <==>
            HoldsOpposite(t, c) || (Contradicted(t, d) && !Satisfies(t, c))
  {
    var w := WithDefaults(t, d).container.value;
    var e := ViewContext(w.ToK8s());
    match t {
      case DropAllCapabilities =>
        var drop := w.capabilitiesDrop.value;
        assert Elements(drop) == {} <==> drop == [] by {
          if drop != [] { assert drop[0] in Elements(drop); }
        }
        DropOfDefaults(w);
        MergeDropsTheUnion(c, Some(e));
      case _ =>
    }
  }

  /** Running a check discharges it, exactly unless a container holds the opposite value, or the user's
      defaults do and some container does not satisfy the check already. */
  lemma ChecksDischarge(t: CheckType, d: Defaults, s: Template)
    requires Complete(d)
    ensures ShouldRun(t, Applied(s, WithDefaults(t, d))) <==>
            (exists i :: 0 <= i < |s.containers| &&
               (HoldsOpposite(t, s.containers[i]) || (Contradicted(t, d) && !Satisfies(t, s.containers[i]))))
  {
    var after := Applied(s, WithDefaults(t, d));
    forall i | 0 <= i < |s.containers|
      ensures !Satisfies(t, after.containers[i]) <==>
              HoldsOpposite(t, s.containers[i]) || (Contradicted(t, d) && !Satisfies(t, s.containers[i]))
    {
      DischargedIn(t, d, s.containers[i]);
    }
  }

  /** Whatever is applied to a template, a check that need not run never becomes required. */
  lemma RequiredOnlyShrinks(s: Template, d: Defaults)
    ensures Required(Applied(s, d)) <= Required(s)
  {
    var e := View(ContainerToK8s(d.container));
    forall t | ShouldRun(t, Applied(s, d))
      ensures ShouldRun(t, s)
    {
      if t in {ReadOnlyRootFilesystem, AllowPrivilegeEscalation} {
        var i :| 0 <= i < |s.containers| && !Satisfies(t, Applied(s, d).containers[i]);
        assert Applied(s, d).containers[i] == MergeContainer(s.containers[i], e);
      } else if t == DropAllCapabilities {
        var i :| 0 <= i < |s.containers| && Dropped(Applied(s, d).containers[i]) == {};
        MergeDropsTheUnion(s.containers[i], e);
      }
    }
  }
}
