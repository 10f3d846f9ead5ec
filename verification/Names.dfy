/** Names built from a namespace, a suffix and a check type: target namespaces and recording keys. */
module Names {
  import opened Prelude

  function TypeName(k: Kind): string {
    match k
    case BaselineRun(second) => if second then "baseline-2" else "baseline"
    case FinalRun => "Final"
    case CheckRun(User) => "user"
    case CheckRun(Group) => "group"
    case CheckRun(ReadOnlyRootFilesystem) => "readOnlyRootFilesystem"
    case CheckRun(AllowPrivilegeEscalation) => "allowPrivilegeEscalation"
    case CheckRun(DropAllCapabilities) => "dropAllCapabilities"
  }

  function LowerChar(c: char): char {
    if 'A' <= c <= 'Z' then c - 'A' + 'a' else c
  }

  /** Names of Kubernetes objects are ASCII, where lower-casing keeps the length. */
  function Lower(s: string): (l: string)
    ensures |l| == |s| && forall i :: 0 <= i < |s| ==> l[i] == LowerChar(s[i])
  {
    seq(|s|, i requires 0 <= i < |s| => LowerChar(s[i]))
  }

  function Shortened(namespace: string): string {
    if |namespace| > 45 then namespace[..45] else namespace
  }

  function TargetNamespace(namespace: string, suffix: string, k: Kind): (name: string)
    ensures |name| <= 63
  {
    var full := Lower(Shortened(namespace) + "-" + suffix + "-" + TypeName(k));
    if |full| > 63 then full[..63] else full
  }

  function RecordingKey(namespace: string, suffix: string, k: Kind): string {
    Lower("recording:" + namespace + ":" + suffix + ":" + TypeName(k))
  }

  /** What the API server and the pattern of the suffix admit. */
  predicate Plain(s: string) {
    forall i :: 0 <= i < |s| ==> 'a' <= s[i] <= 'z' || '0' <= s[i] <= '9' || s[i] == '-'
  }

  lemma LowerPlain(s: string)
    requires Plain(s)
    ensures Lower(s) == s
  {
    assert forall i :: 0 <= i < |s| ==> Lower(s)[i] == s[i];
  }

  lemma LowerJoins(a: string, b: string)
    ensures Lower(a + b) == Lower(a) + Lower(b)
  {
    assert forall i :: 0 <= i < |a + b| ==> Lower(a + b)[i] == (Lower(a) + Lower(b))[i];
  }

  lemma FullName(namespace: string, suffix: string, k: Kind)
    requires Plain(namespace) && Plain(suffix)
    ensures Lower(Shortened(namespace) + "-" + suffix + "-" + TypeName(k)) ==
            Shortened(namespace) + "-" + suffix + "-" + Lower(TypeName(k))
  {
    var head := Shortened(namespace) + "-" + suffix + "-";
    assert Plain(Shortened(namespace)) && Plain("-");
    assert Plain(head);
    LowerPlain(head);
    LowerJoins(head, TypeName(k));
  }

  /** The name begins with the namespace, as far as its first 45 characters, then the whole suffix, then the type in
      lower case, as far as there is room in 63 characters. */
  lemma NameBeginsWith(namespace: string, suffix: string, k: Kind)
    requires Plain(namespace) && Plain(suffix) && |suffix| <= 15
    ensures var name, p := TargetNamespace(namespace, suffix, k), if |namespace| < 45 then |namespace| else 45;
            namespace[..p] + "-" + suffix + "-" <= name <= namespace[..p] + "-" + suffix + "-" + Lower(TypeName(k)) &&
            (|name| == 63 || |name| == p + |suffix| + 2 + |TypeName(k)|)
  {
    FullName(namespace, suffix, k);
    assert Shortened(namespace) == namespace[..if |namespace| < 45 then |namespace| else 45];
  }

  lemma CharactersOfTheName(namespace: string, suffix: string, k: Kind, i: nat)
    requires var p := |Shortened(namespace)| + |suffix| + 2;
             p <= i < p + |TypeName(k)| && i < 63
    ensures var p := |Shortened(namespace)| + |suffix| + 2;
            i < |TargetNamespace(namespace, suffix, k)| &&
            TargetNamespace(namespace, suffix, k)[i] == LowerChar(TypeName(k)[i - p])
  {
    hide TypeName, Shortened, LowerChar;
    var head := Shortened(namespace) + "-" + suffix + "-";
    assert |head| == |Shortened(namespace)| + |suffix| + 2;
    assert (head + TypeName(k))[i] == TypeName(k)[i - |head|];
  }

  lemma InitialsTellKindsApart(k: Kind, l: Kind)
    requires k != l && !(k.BaselineRun? && l.BaselineRun?)
    ensures LowerChar(TypeName(k)[0]) != LowerChar(TypeName(l)[0])
  {
  }

  lemma BaselinesShareAPrefix(namespace: string, suffix: string)
    requires |Shortened(namespace)| + |suffix| > 52
    ensures TargetNamespace(namespace, suffix, BaselineRun(false)) ==
            TargetNamespace(namespace, suffix, BaselineRun(true))
  {
    var head := Shortened(namespace) + "-" + suffix + "-";
    var first, second := head + "baseline", head + "baseline-2";
    assert |head| >= 55;
    assert Lower(first)[..63] == Lower(second)[..63] by {
      assert forall i :: 0 <= i < 63 ==> first[i] == second[i];
    }
    assert |first| == 63 ==> Lower(first) == Lower(first)[..63];
  }

  /** For suffixes the resource accepts, two runs share a target namespace exactly when they are the two
      baselines and the name is too long for the final "-2" to begin. */
  lemma NamesAreDistinct(namespace: string, suffix: string, k: Kind, l: Kind)
    requires |suffix| <= 15 && k != l
    ensures TargetNamespace(namespace, suffix, k) == TargetNamespace(namespace, suffix, l) <==>
            k.BaselineRun? && l.BaselineRun? &&
            (if |namespace| < 45 then |namespace| else 45) + |suffix| > 52
  {
    var p := |Shortened(namespace)| + |suffix| + 2;
    assert p <= 62;
    if !(k.BaselineRun? && l.BaselineRun?) {
      CharactersOfTheName(namespace, suffix, k, p);
      CharactersOfTheName(namespace, suffix, l, p);
      InitialsTellKindsApart(k, l);
    } else if p > 54 {
      BaselinesShareAPrefix(namespace, suffix);
    } else {
      var first := TargetNamespace(namespace, suffix, BaselineRun(false));
      assert |first| == p + 8;
      CharactersOfTheName(namespace, suffix, BaselineRun(true), p + 8);
    }
  }

  /** The store keeps the recordings of one resource under one key per kind. */
  lemma RecordingKeysAreDistinct(namespace: string, suffix: string, k: Kind, l: Kind)
    ensures RecordingKey(namespace, suffix, k) == RecordingKey(namespace, suffix, l) <==> k == l
  {
    var head := "recording:" + namespace + ":" + suffix + ":";
    if k != l {
      if k.BaselineRun? && l.BaselineRun? {
        assert |head + TypeName(k)| != |head + TypeName(l)|;
      } else {
        InitialsTellKindsApart(k, l);
        assert (head + TypeName(k))[|head|] == TypeName(k)[0] && (head + TypeName(l))[|head|] == TypeName(l)[0];
        assert RecordingKey(namespace, suffix, k)[|head|] != RecordingKey(namespace, suffix, l)[|head|];
      }
    }
  }

  lemma FirstColon(a: string, b: string, a': string, b': string)
    requires Plain(a) && Plain(a') && a + ":" + b == a' + ":" + b'
    ensures a == a' && b == b'
  {
    var s := a + ":" + b;
    assert s[|a|] == ':' && s[|a'|] == ':';
    assert forall i :: 0 <= i < |a| ==> s[i] == a[i];
    assert forall i :: 0 <= i < |a'| ==> s[i] == a'[i];
    assert |a| == |a'|;
    assert a == s[..|a|] == a' && b == s[|a| + 1..] == b';
  }

  lemma KeyHasParts(namespace: string, suffix: string, k: Kind)
    requires Plain(namespace) && Plain(suffix)
    ensures RecordingKey(namespace, suffix, k) ==
            "recording:" + (namespace + ":" + (suffix + ":" + Lower(TypeName(k))))
  {
    var first := "recording:";
    LowerHead(first, namespace, suffix);
    LowerJoins(first + namespace + ":" + suffix + ":", TypeName(k));
    Regrouped(first, namespace, suffix, Lower(TypeName(k)));
  }

  lemma LowerHead(first: string, namespace: string, suffix: string)
    requires first == "recording:" && Plain(namespace) && Plain(suffix)
    ensures Lower(first + namespace + ":" + suffix + ":") == first + namespace + ":" + suffix + ":"
  {
    var head := first + namespace + ":" + suffix + ":";
    assert forall i :: 0 <= i < |head| ==> LowerChar(head[i]) == head[i];
  }

  lemma Regrouped(first: string, a: string, b: string, c: string)
    ensures first + a + ":" + b + ":" + c == first + (a + ":" + (b + ":" + c))
  {
  }

  /** No two recordings of any two resources share a key. */
  lemma KeysIdentifyRecordings(namespace: string, suffix: string, k: Kind,
                               namespace': string, suffix': string, k': Kind)
    requires Plain(namespace) && Plain(suffix) && Plain(namespace') && Plain(suffix')
    ensures RecordingKey(namespace, suffix, k) == RecordingKey(namespace', suffix', k') <==>
            namespace == namespace' && suffix == suffix' && k == k'
  {
    if RecordingKey(namespace, suffix, k) == RecordingKey(namespace', suffix', k') {
      KeyHasParts(namespace, suffix, k);
      KeyHasParts(namespace', suffix', k');
      var rest, rest' := suffix + ":" + Lower(TypeName(k)), suffix' + ":" + Lower(TypeName(k'));
      AfterTheHead(namespace + ":" + rest, namespace' + ":" + rest');
      FirstColon(namespace, rest, namespace', rest');
      FirstColon(suffix, Lower(TypeName(k)), suffix', Lower(TypeName(k')));
      RecordingKeysAreDistinct(namespace, suffix, k, k');
    }
  }

  lemma AfterTheHead(a: string, b: string)
    requires "recording:" + a == "recording:" + b
    ensures a == b
  {
    assert ("recording:" + a)[10..] == a && ("recording:" + b)[10..] == b;
  }
}
