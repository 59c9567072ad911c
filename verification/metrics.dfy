/**
 The metric catalog: the six per-service gauges, the two bookkeeping
 metrics, and how each gauge reads its value off a service record.
 */
module Metrics {
  import opened Swarm
  import opened Labels

  datatype ValueType = CounterValue | GaugeValue

  /** A metric descriptor: fully-qualified name, help text and the ordered
      names of its variable labels. */
  datatype Desc = Desc(fqName: string, help: string, variableLabels: seq<string>)

  /** Prometheus's name builder: the non-empty parts joined by `_`, or the
      empty name when `name` is empty. */
  function BuildFQName(namespace: string, subsystem: string, name: string): string
  {
    if name == "" then ""
    else if namespace != "" && subsystem != "" then namespace + "_" + subsystem + "_" + name
    else if namespace != "" then namespace + "_" + name
    else if subsystem != "" then subsystem + "_" + name
    else name
  }

  /** Which field of the service a per-service gauge reports. */
  datatype Kind = MetaCreated | MetaUpdated | SpecReplicas | StatusRunning | StatusDesired | StatusCompleted

  /** The value a per-service gauge reports for `svc`. Timestamps become
      seconds since the epoch; a service that is not replicated reports
      replicas as the sentinel -1, which no replica count can equal. */
  function Value(kind: Kind, svc: Service): (v: real)
    ensures kind == MetaCreated ==> v * 1000.0 == svc.createdAtMs as real
    ensures kind == MetaUpdated ==> v * 1000.0 == svc.updatedAtMs as real
    ensures kind == SpecReplicas ==> (v == -1.0 <==> svc.mode.NotReplicated?)
    ensures kind == SpecReplicas ==> v >= -1.0
    ensures kind == SpecReplicas && svc.mode.Replicated? ==> v == svc.mode.replicas as real
    ensures kind == StatusRunning ==> v == svc.status.runningTasks as real
    ensures kind == StatusDesired ==> v == svc.status.desiredTasks as real
    ensures kind == StatusCompleted ==> v == svc.status.completedTasks as real
    ensures kind != MetaCreated && kind != MetaUpdated ==> v == v.Floor as real
  {
    match kind
    case MetaCreated => svc.createdAtMs as real / 1000.0
    case MetaUpdated => svc.updatedAtMs as real / 1000.0
    case SpecReplicas => if svc.mode.Replicated? then svc.mode.replicas as real else -1.0
    case StatusRunning => svc.status.runningTasks as real
    case StatusDesired => svc.status.desiredTasks as real
    case StatusCompleted => svc.status.completedTasks as real
  }

  /** The replicas gauge reads only the service mode, never the task counts. */
  lemma ReplicasIgnoresTaskCounts(a: Service, b: Service)
    requires a.mode == b.mode
    ensures Value(SpecReplicas, a) == Value(SpecReplicas, b)
  {
  }

  /** One per-service gauge: its value type, descriptor and value source. */
  datatype ServiceMetric = ServiceMetric(valueType: ValueType, desc: Desc, kind: Kind)

  /** The collector as built once at start-up. */
  datatype Services = Services(
    extraLabels: seq<string>,
    up: Desc,
    totalScrapes: Desc,
    serviceMetrics: seq<ServiceMetric>)

  /** The per-service gauges, in declaration order. */
  const Kinds: seq<Kind> := [MetaCreated, MetaUpdated, SpecReplicas, StatusRunning, StatusDesired, StatusCompleted]

  /** Every per-service gauge declares the label schema of the collector's
      extra keys and the two bookkeeping metrics declare no labels; this is
      what `NewServices` establishes. */
  predicate WellFormed(s: Services)
  {
    && s.up.variableLabels == []
    && s.totalScrapes.variableLabels == []
    && forall j :: 0 <= j < |s.serviceMetrics| ==>
         s.serviceMetrics[j].desc.variableLabels == ServiceLabelSchema(s.extraLabels)
  }

  function NewServices(namespace: string, extraLabels: seq<string>): (s: Services)
    ensures WellFormed(s)
    ensures s.extraLabels == extraLabels
    ensures |s.serviceMetrics| == |Kinds|
    ensures forall j :: 0 <= j < |Kinds| ==>
              s.serviceMetrics[j].kind == Kinds[j] && s.serviceMetrics[j].valueType == GaugeValue
    ensures forall j :: 0 <= j < |Kinds| ==>
              |s.serviceMetrics[j].desc.variableLabels| == 3 + |DefaultExportedServiceLabels| + |extraLabels|
  {
    var schema := ServiceLabelSchema(extraLabels);
    Services(
      extraLabels,
      Desc(BuildFQName(namespace, "node_stats", "up"), "Was the last scrape of the Docker services successful.", []),
      Desc(BuildFQName(namespace, "node_stats", "total_scrapes"), "Current total Docker services scrapes.", []),
      [ ServiceMetric(GaugeValue, Desc(BuildFQName(namespace, "meta", "created"), "Service created at", schema), MetaCreated),
        ServiceMetric(GaugeValue, Desc(BuildFQName(namespace, "meta", "updated"), "Service updated at", schema), MetaUpdated),
        ServiceMetric(GaugeValue, Desc(BuildFQName(namespace, "spec", "replicas"), "Service replicas", schema), SpecReplicas),
        ServiceMetric(GaugeValue, Desc(BuildFQName(namespace, "service_status", "running"), "Service replicas", schema), StatusRunning),
        ServiceMetric(GaugeValue, Desc(BuildFQName(namespace, "service_status", "desired"), "Service replicas", schema), StatusDesired),
        ServiceMetric(GaugeValue, Desc(BuildFQName(namespace, "service_status", "completed"), "Service replicas", schema), StatusCompleted)
      ])
  }

  /** The descriptors the collector announces: one per per-service gauge, then
      `up`, then the scrape counter. It reads no scrape state. */
  function Describe(s: Services): (descs: seq<Desc>)
    ensures |descs| == |s.serviceMetrics| + 2
    ensures forall j :: 0 <= j < |s.serviceMetrics| ==> descs[j] == s.serviceMetrics[j].desc
    ensures descs[|s.serviceMetrics|] == s.up && descs[|s.serviceMetrics| + 1] == s.totalScrapes
  {
    seq(|s.serviceMetrics|, j requires 0 <= j < |s.serviceMetrics| => s.serviceMetrics[j].desc)
    + [s.up, s.totalScrapes]
  }

  /** With both a subsystem and a name, the qualified name is a namespace
      prefix followed by `subsystem_name`. */
  lemma FQNameSplit(namespace: string, subsystem: string, name: string)
    requires subsystem != "" && name != ""
    ensures BuildFQName(namespace, subsystem, name)
            == (if namespace == "" then "" else namespace + "_") + (subsystem + "_" + name)
  {
  }

  lemma PrefixCancels(p: string, a: string, b: string)
    requires p + a == p + b
    ensures a == b
  {
    assert a == (p + a)[|p|..];
    assert b == (p + b)[|p|..];
  }

  /** The announced names with the namespace prefix taken off, in `Describe` order. */
  const CatalogSuffixes: seq<string> :=
    ["meta_created", "meta_updated", "spec_replicas", "service_status_running",
     "service_status_desired", "service_status_completed", "node_stats_up", "node_stats_total_scrapes"]

  lemma SuffixesJoin()
    ensures "meta" + "_" + "created" == CatalogSuffixes[0]
    ensures "meta" + "_" + "updated" == CatalogSuffixes[1]
    ensures "spec" + "_" + "replicas" == CatalogSuffixes[2]
    ensures "service_status" + "_" + "running" == CatalogSuffixes[3]
    ensures "service_status" + "_" + "desired" == CatalogSuffixes[4]
    ensures "service_status" + "_" + "completed" == CatalogSuffixes[5]
    ensures "node_stats" + "_" + "up" == CatalogSuffixes[6]
    ensures "node_stats" + "_" + "total_scrapes" == CatalogSuffixes[7]
  {
  }

  lemma SuffixesDistinct()
    ensures forall i, j :: 0 <= i < j < |CatalogSuffixes| ==> CatalogSuffixes[i] != CatalogSuffixes[j]
  {
    var names := CatalogSuffixes;
    forall i, j | 0 <= i < j < |names| ensures names[i] != names[j] {
      if i == 0 && j == 1 { assert names[i][5] != names[j][5]; }
      else if i == 3 && j == 4 { assert names[i][15] != names[j][15]; }
      else if i == 3 && j == 5 { assert names[i][15] != names[j][15]; }
      else if i == 4 && j == 5 { assert names[i][15] != names[j][15]; }
      else { assert |names[i]| != |names[j]| || names[i][0] != names[j][0]; }
    }
  }

  /** Each announced name is the namespace prefix followed by its suffix. */
  lemma CatalogNames(namespace: string, extraLabels: seq<string>)
    ensures var d := Describe(NewServices(namespace, extraLabels));
            var p := if namespace == "" then "" else namespace + "_";
            |d| == |CatalogSuffixes| &&
            forall k :: 0 <= k < |d| ==> d[k].fqName == p + CatalogSuffixes[k]
  {
    FQNameSplit(namespace, "meta", "created");
    FQNameSplit(namespace, "meta", "updated");
    FQNameSplit(namespace, "spec", "replicas");
    FQNameSplit(namespace, "service_status", "running");
    FQNameSplit(namespace, "service_status", "desired");
    FQNameSplit(namespace, "service_status", "completed");
    FQNameSplit(namespace, "node_stats", "up");
    FQNameSplit(namespace, "node_stats", "total_scrapes");
    SuffixesJoin();
  }

  /** Whatever the namespace and extra keys, the eight announced descriptors
      have pairwise distinct names, as a registry requires. */
  lemma CatalogNamesDistinct(namespace: string, extraLabels: seq<string>)
    ensures var d := Describe(NewServices(namespace, extraLabels));
            |d| == 8 &&
            forall i, j :: 0 <= i < j < |d| ==> d[i].fqName != d[j].fqName
  {
    var d := Describe(NewServices(namespace, extraLabels));
    var p := if namespace == "" then "" else namespace + "_";
    CatalogNames(namespace, extraLabels);
    SuffixesDistinct();
    forall i, j | 0 <= i < j < |d| ensures d[i].fqName != d[j].fqName {
      if d[i].fqName == d[j].fqName {
        PrefixCancels(p, CatalogSuffixes[i], CatalogSuffixes[j]);
      }
    }
  }
}
