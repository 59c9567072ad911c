/**
 The label schema shared by every per-service metric, and the label values a
 service contributes to it. The schema is the three built-in labels, then one
 label per default exported annotation key, then one per configured extra
 key; the values follow exactly the same order.
 */
module Labels {
  import opened Swarm

  /** Prefix that keeps annotation-derived label names apart from the built-in ones. */
  const LabelPrefix: string := "docker_label_"

  /** Annotation keys exported as labels on every service. */
  const DefaultExportedServiceLabels: seq<string> := ["com.docker.stack.image", "com.docker.stack.namespace"]

  /** Built-in labels, taken from the service's id, name and task runtime. */
  const BuiltinServiceLabels: seq<string> := ["id", "name", "task_runtime"]

  /** Position of the first `.` of `s`. */
  function FirstDot(s: string): (k: nat)
    requires '.' in s
    ensures k < |s| && s[k] == '.'
    ensures '.' !in s[..k]
  {
    if s[0] == '.' then 0 else 1 + FirstDot(s[1..])
  }

  /** Every `.` of `key` replaced by `_`, all other characters kept. */
  function ReplaceDots(key: string): (r: string)
    ensures |r| == |key|
    ensures forall i :: 0 <= i < |key| ==> if key[i] == '.' then r[i] == '_' else r[i] == key[i]
  {
    seq(|key|, i requires 0 <= i < |key| => if key[i] == '.' then '_' else key[i])
  }

  /** The same rewrite computed the way a replace-all does it: copy the text
      up to the next dot, write `_` for it, and go on after it. */
  function ReplaceByScanning(key: string): (r: string)
    ensures r == ReplaceDots(key)
    decreases |key|
  {
    if '.' !in key then
      ReplaceDotsKeepsDotFree(key);
      key
    else
      var k := FirstDot(key);
      var rest := ReplaceByScanning(key[k + 1..]);
      ScanStep(key, k, rest);
      key[..k] + "_" + rest
  }

  /** Rewriting after the first dot and splicing in `_` for it rewrites the whole key. */
  lemma ScanStep(key: string, k: nat, rest: string)
    requires k < |key| && key[k] == '.' && '.' !in key[..k]
    requires rest == ReplaceDots(key[k + 1..])
    ensures key[..k] + "_" + rest == ReplaceDots(key)
  {
    var r := key[..k] + "_" + rest;
    var want := ReplaceDots(key);
    assert |r| == |want|;
    forall i | 0 <= i < |key| ensures r[i] == want[i] {
      if i < k {
        assert key[i] == key[..k][i];
      } else if i > k {
        assert r[i] == rest[i - k - 1];
        assert key[i] == key[k + 1..][i - k - 1];
      }
    }
  }

  /** The label name an annotation key is exported under. */
  function UnifyLabel(key: string): (name: string)
    ensures |name| == |LabelPrefix| + |key|
    ensures name[..|LabelPrefix|] == LabelPrefix
    ensures '.' !in name
    ensures forall i :: 0 <= i < |key| && key[i] != '.' ==> name[|LabelPrefix| + i] == key[i]
    ensures forall i :: 0 <= i < |key| && key[i] == '.' ==> name[|LabelPrefix| + i] == '_'
  {
    LabelPrefix + ReplaceDots(key)
  }

  /** Label names for a list of annotation keys, one per key, in order. */
  function UnifyServiceLabels(keys: seq<string>): (names: seq<string>)
    ensures |names| == |keys|
    ensures forall i :: 0 <= i < |keys| ==> names[i] == UnifyLabel(keys[i])
    ensures forall i :: 0 <= i < |names| ==> '.' !in names[i]
  {
    seq(|keys|, i requires 0 <= i < |keys| => UnifyLabel(keys[i]))
  }

  /** The schema without extra keys. */
  const DefaultServiceLabels: seq<string> := BuiltinServiceLabels + UnifyServiceLabels(DefaultExportedServiceLabels)

  /** All annotation keys that become labels, in schema order. */
  function ExportedKeys(extraLabels: seq<string>): seq<string>
  {
    DefaultExportedServiceLabels + extraLabels
  }

  /** The label-name schema of every per-service metric. */
  function ServiceLabelSchema(extraLabels: seq<string>): (schema: seq<string>)
    ensures |schema| == |BuiltinServiceLabels| + |DefaultExportedServiceLabels| + |extraLabels|
    ensures schema[..|BuiltinServiceLabels|] == BuiltinServiceLabels
    ensures forall i :: 0 <= i < |ExportedKeys(extraLabels)| ==>
              schema[|BuiltinServiceLabels| + i] == UnifyLabel(ExportedKeys(extraLabels)[i])
  {
    DefaultServiceLabels + UnifyServiceLabels(extraLabels)
  }

  /** The value of annotation `key`, or the empty string when it is missing. */
  function AnnotationValue(labels: map<string, string>, key: string): string
  {
    if key in labels then labels[key] else ""
  }

  /** One value per key, appended in key order. */
  function AnnotationValues(labels: map<string, string>, keys: seq<string>): (values: seq<string>)
    ensures |values| == |keys|
    ensures forall i :: 0 <= i < |keys| ==> values[i] == AnnotationValue(labels, keys[i])
  {
    if keys == [] then []
    else AnnotationValues(labels, keys[..|keys| - 1]) + [AnnotationValue(labels, keys[|keys| - 1])]
  }

  /** The label values of `svc`: id, name and runtime, then the default
      exported annotations, then the extra ones. */
  function ServiceLabelValues(extraLabels: seq<string>, svc: Service): (values: seq<string>)
    ensures |values| == |ServiceLabelSchema(extraLabels)|
    ensures values[0] == svc.id && values[1] == svc.name && values[2] == svc.runtime
    ensures forall i :: 0 <= i < |ExportedKeys(extraLabels)| ==>
              values[|BuiltinServiceLabels| + i] == AnnotationValue(svc.labels, ExportedKeys(extraLabels)[i])
  {
    var defaults := AnnotationValues(svc.labels, DefaultExportedServiceLabels);
    var extras := AnnotationValues(svc.labels, extraLabels);
    var values := [svc.id, svc.name, svc.runtime] + defaults + extras;
    assert forall i :: 0 <= i < |ExportedKeys(extraLabels)| ==>
             values[|BuiltinServiceLabels| + i] == AnnotationValue(svc.labels, ExportedKeys(extraLabels)[i]) by {
      forall i | 0 <= i < |ExportedKeys(extraLabels)|
        ensures values[|BuiltinServiceLabels| + i] == AnnotationValue(svc.labels, ExportedKeys(extraLabels)[i])
      {
        if i < |DefaultExportedServiceLabels| {
          assert values[|BuiltinServiceLabels| + i] == defaults[i];
        } else {
          assert values[|BuiltinServiceLabels| + i] == extras[i - |DefaultExportedServiceLabels|];
        }
      }
    }
    values
  }

  /** Label names as the Prometheus data model admits them: `[a-zA-Z_][a-zA-Z0-9_]*`. */
  predicate IsNameStart(c: char)
  {
    ('a' <= c <= 'z') || ('A' <= c <= 'Z') || c == '_'
  }

  predicate IsNameChar(c: char)
  {
    IsNameStart(c) || ('0' <= c <= '9')
  }

  predicate ValidLabelName(s: string)
  {
    |s| > 0 && IsNameStart(s[0]) && forall i :: 1 <= i < |s| ==> IsNameChar(s[i])
  }

  /** An annotation key whose characters are all dots or label-name characters. */
  predicate ExportableKey(key: string)
  {
    forall i :: 0 <= i < |key| ==> key[i] == '.' || IsNameChar(key[i])
  }

  /** The prefix alone is made of label-name characters and starts a name. */
  lemma PrefixIsName(name: string)
    requires |name| >= |LabelPrefix| && name[..|LabelPrefix|] == LabelPrefix
    ensures IsNameStart(name[0])
    ensures forall i :: 0 <= i < |LabelPrefix| ==> IsNameChar(name[i])
  {
    assert name[0] == LabelPrefix[0];
    forall i | 0 <= i < |LabelPrefix| ensures IsNameChar(name[i]) {
      assert name[i] == name[..|LabelPrefix|][i];
    }
  }

  lemma ExportableKeyGivesValidName(key: string)
    requires ExportableKey(key)
    ensures ValidLabelName(UnifyLabel(key))
  {
    var name := UnifyLabel(key);
    var n := |LabelPrefix|;
    PrefixIsName(name);
    forall i | 1 <= i < |name| ensures IsNameChar(name[i]) {
      if i >= n {
        var k := i - n;
        assert key[k] == '.' || IsNameChar(key[k]);
      }
    }
  }

  lemma ValidNameGivesExportableKey(key: string)
    requires ValidLabelName(UnifyLabel(key))
    ensures ExportableKey(key)
  {
    var name := UnifyLabel(key);
    var n := |LabelPrefix|;
    forall k | 0 <= k < |key| ensures key[k] == '.' || IsNameChar(key[k]) {
      assert IsNameChar(name[n + k]);
    }
  }

  /** Only dots are rewritten, so a key yields a valid label name exactly
      when every other character of it is already a label-name character. */
  lemma UnifyLabelValidIff(key: string)
    ensures ValidLabelName(UnifyLabel(key)) <==> ExportableKey(key)
  {
    if ExportableKey(key) {
      ExportableKeyGivesValidName(key);
    }
    if ValidLabelName(UnifyLabel(key)) {
      ValidNameGivesExportableKey(key);
    }
  }

  /** Stripping the prefix from a label name gives back a dot-free key. */
  lemma UnifyLabelRoundTrip(key: string)
    requires '.' !in key
    ensures UnifyLabel(key)[|LabelPrefix|..] == key
  {
    assert UnifyLabel(key)[|LabelPrefix|..] == ReplaceDots(key);
  }

  /** Two keys share a label name exactly when they agree after dots are
      replaced, so `a.b` and `a_b` collide. */
  lemma UnifyLabelCollision(a: string, b: string)
    ensures UnifyLabel(a) == UnifyLabel(b) <==> ReplaceDots(a) == ReplaceDots(b)
  {
    if UnifyLabel(a) == UnifyLabel(b) {
      assert UnifyLabel(a)[|LabelPrefix|..] == ReplaceDots(a);
      assert UnifyLabel(b)[|LabelPrefix|..] == ReplaceDots(b);
    }
  }

  lemma ReplaceDotsKeepsDotFree(w: string)
    requires '.' !in w
    ensures ReplaceDots(w) == w
  {
  }

  /** Replacing dots in `a.b` replaces the joining dot and those on each side. */
  lemma ReplaceDotsJoin(a: string, b: string)
    ensures ReplaceDots(a + "." + b) == ReplaceDots(a) + "_" + ReplaceDots(b)
  {
  }

  lemma SplitKeyImage()
    ensures "com.docker.stack.image" == "com" + "." + ("docker" + "." + ("stack" + "." + "image"))
  {
  }

  lemma JoinLabelImage()
    ensures LabelPrefix + ("com" + "_" + ("docker" + "_" + ("stack" + "_" + "image")))
         == "docker_label_com_docker_stack_image"
  {
  }

  lemma SplitKeyNamespace()
    ensures "com.docker.stack.namespace" == "com" + "." + ("docker" + "." + ("stack" + "." + "namespace"))
  {
  }

  lemma JoinLabelNamespace()
    ensures LabelPrefix + ("com" + "_" + ("docker" + "_" + ("stack" + "_" + "namespace")))
         == "docker_label_com_docker_stack_namespace"
  {
  }

  lemma UnifyImageKey()
    ensures UnifyLabel("com.docker.stack.image") == "docker_label_com_docker_stack_image"
  {
    SplitKeyImage();
    ReplaceDotsJoin("com", "docker" + "." + ("stack" + "." + "image"));
    ReplaceDotsJoin("docker", "stack" + "." + "image");
    ReplaceDotsJoin("stack", "image");
    ReplaceDotsKeepsDotFree("com");
    ReplaceDotsKeepsDotFree("docker");
    ReplaceDotsKeepsDotFree("stack");
    ReplaceDotsKeepsDotFree("image");
    JoinLabelImage();
  }

  lemma UnifyNamespaceKey()
    ensures UnifyLabel("com.docker.stack.namespace") == "docker_label_com_docker_stack_namespace"
  {
    SplitKeyNamespace();
    ReplaceDotsJoin("com", "docker" + "." + ("stack" + "." + "namespace"));
    ReplaceDotsJoin("docker", "stack" + "." + "namespace");
    ReplaceDotsJoin("stack", "namespace");
    ReplaceDotsKeepsDotFree("com");
    ReplaceDotsKeepsDotFree("docker");
    ReplaceDotsKeepsDotFree("stack");
    ReplaceDotsKeepsDotFree("namespace");
    JoinLabelNamespace();
  }

  /** The default part of the schema, spelled out. */
  lemma DefaultServiceLabelsValue()
    ensures DefaultServiceLabels == ["id", "name", "task_runtime",
                                     "docker_label_com_docker_stack_image",
                                     "docker_label_com_docker_stack_namespace"]
  {
    UnifyImageKey();
    UnifyNamespaceKey();
    assert UnifyServiceLabels(DefaultExportedServiceLabels)
        == [UnifyLabel("com.docker.stack.image"), UnifyLabel("com.docker.stack.namespace")];
  }

  /** For every exported key, the schema's label and the service's value sit
      at the same position: the label is the unified key and the value is the
      annotation, or "" when the service lacks it. */
  lemma LabelsAligned(extraLabels: seq<string>, svc: Service, i: nat)
    requires i < |ExportedKeys(extraLabels)|
    ensures var key := ExportedKeys(extraLabels)[i];
            var pos := |BuiltinServiceLabels| + i;
            && pos < |ServiceLabelSchema(extraLabels)| == |ServiceLabelValues(extraLabels, svc)|
            && ServiceLabelSchema(extraLabels)[pos] == UnifyLabel(key)
            && ServiceLabelValues(extraLabels, svc)[pos] == (if key in svc.labels then svc.labels[key] else "")
  {
  }
}
