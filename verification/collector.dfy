/**
 One scrape cycle. The scrape counter and the `up` gauge are the only state
 carried from one scrape to the next; the service list is fetched once per
 scrape and arrives here as an outcome, success or failure.
 */
module Collector {
  import opened Swarm
  import opened Labels
  import opened Metrics

  /** The two bookkeeping values: scrape attempts so far and the last outcome
      (1 for a successful fetch, 0 for a failed one; 0 before any scrape). */
  datatype ScrapeState = ScrapeState(totalScrapes: nat, up: real)

  const InitialState: ScrapeState := ScrapeState(0, 0.0)

  /** The result of asking the orchestrator for its services. */
  datatype Fetch = Fetched(services: seq<Service>) | FetchFailed(cause: string)

  /** One emitted sample. */
  datatype Metric = Metric(desc: Desc, valueType: ValueType, value: real, labelValues: seq<string>)

  /** Prometheus's constant-metric constructor. It panics when there is not
      exactly one value per variable label of the descriptor; it also panics
      on a descriptor that carries an error, which descriptors here never do. */
  function MustNewConstMetric(desc: Desc, valueType: ValueType, value: real, labelValues: seq<string>): Metric
    requires |labelValues| == |desc.variableLabels|
  {
    Metric(desc, valueType, value, labelValues)
  }

  /** Every sample belongs to the announced catalog and carries one value per
      label its descriptor declares. */
  predicate Conforms(s: Services, samples: seq<Metric>)
  {
    forall k :: 0 <= k < |samples| ==>
      samples[k].desc in Describe(s) && |samples[k].labelValues| == |samples[k].desc.variableLabels|
  }

  /** The sample one per-service gauge reports for one service: the gauge's
      reading of the service, labelled position by position with the
      service's id, name, runtime and exported annotations. */
  function ServiceSample(s: Services, svc: Service, m: ServiceMetric): (sample: Metric)
    requires m.desc.variableLabels == ServiceLabelSchema(s.extraLabels)
    ensures sample.desc == m.desc && sample.valueType == m.valueType
    ensures sample.value == Value(m.kind, svc)
    ensures sample.labelValues == ServiceLabelValues(s.extraLabels, svc)
    ensures |sample.labelValues| == |sample.desc.variableLabels|
    ensures sample.desc.variableLabels[..3] == BuiltinServiceLabels
    ensures sample.labelValues[0] == svc.id && sample.labelValues[1] == svc.name
            && sample.labelValues[2] == svc.runtime
    ensures forall i :: 0 <= i < |ExportedKeys(s.extraLabels)| ==>
              && sample.desc.variableLabels[3 + i] == UnifyLabel(ExportedKeys(s.extraLabels)[i])
              && sample.labelValues[3 + i] == AnnotationValue(svc.labels, ExportedKeys(s.extraLabels)[i])
  {
    MustNewConstMetric(m.desc, m.valueType, Value(m.kind, svc), ServiceLabelValues(s.extraLabels, svc))
  }

  /** The samples for one service, one per per-service gauge, in catalog order. */
  function PerServiceSamples(s: Services, svc: Service): (samples: seq<Metric>)
    requires WellFormed(s)
    ensures |samples| == |s.serviceMetrics|
    ensures forall j :: 0 <= j < |s.serviceMetrics| ==> samples[j] == ServiceSample(s, svc, s.serviceMetrics[j])
  {
    seq(|s.serviceMetrics|, j requires 0 <= j < |s.serviceMetrics| => ServiceSample(s, svc, s.serviceMetrics[j]))
  }

  /** The samples for a list of services, service by service: the i-th
      service's samples form the i-th block of |serviceMetrics| samples. */
  function ServicesSamples(s: Services, services: seq<Service>): (samples: seq<Metric>)
    requires WellFormed(s)
    ensures |samples| == |services| * |s.serviceMetrics|
    ensures forall i :: 0 <= i < |services| ==>
              Block(samples, i, |s.serviceMetrics|) == PerServiceSamples(s, services[i])
    ensures Conforms(s, samples)
  {
    if services == [] then []
    else
      var n := |services| - 1;
      var m := |s.serviceMetrics|;
      var front := ServicesSamples(s, services[..n]);
      var last := PerServiceSamples(s, services[n]);
      var samples := front + last;
      assert |samples| == |services| * m by {
        assert |services| * m == n * m + m;
      }
      assert forall i :: 0 <= i < |services| ==> Block(samples, i, m) == PerServiceSamples(s, services[i]) by {
        forall i | 0 <= i < |services|
          ensures Block(samples, i, m) == PerServiceSamples(s, services[i])
        {
          if i < n {
            BlockFits(i, n, m);
            BlockOfPrefix(front, last, i, m);
            assert services[..n][i] == services[i];
          } else {
            BlockAtEnd(front, last, n, m);
          }
        }
      }
      assert Conforms(s, samples) by {
        forall k | 0 <= k < |samples|
          ensures samples[k].desc in Describe(s) && |samples[k].labelValues| == |samples[k].desc.variableLabels|
        {
          if k >= |front| {
            var j := k - |front|;
            assert samples[k] == ServiceSample(s, services[n], s.serviceMetrics[j]);
            assert Describe(s)[j] == s.serviceMetrics[j].desc;
          }
        }
      }
      samples
  }

  /** The i-th block of `m` consecutive elements of `xs`. */
  function Block<T>(xs: seq<T>, i: nat, m: nat): seq<T>
  {
    if (i + 1) * m <= |xs| then xs[i * m .. (i + 1) * m] else []
  }

  /** Appending after a complete block leaves that block alone. */
  lemma BlockOfPrefix<T>(front: seq<T>, rest: seq<T>, i: nat, m: nat)
    requires (i + 1) * m <= |front|
    ensures Block(front + rest, i, m) == Block(front, i, m)
  {
    assert (front + rest)[i * m .. (i + 1) * m] == front[i * m .. (i + 1) * m];
  }

  /** Appending a block to `n` complete blocks makes it block `n`. */
  lemma BlockAtEnd<T>(front: seq<T>, last: seq<T>, n: nat, m: nat)
    requires |front| == n * m && |last| == m
    ensures Block(front + last, n, m) == last
  {
    assert (n + 1) * m == n * m + m;
    assert (front + last)[n * m .. (n + 1) * m] == last;
  }

  lemma BlockFits(i: nat, n: nat, m: nat)
    requires i < n
    ensures (i + 1) * m <= n * m
  {
  }

  /** The bookkeeping samples, `up` then the scrape counter, sent last. */
  function Bookkeeping(s: Services, st: ScrapeState): seq<Metric>
  {
    [Metric(s.up, GaugeValue, st.up, []), Metric(s.totalScrapes, CounterValue, st.totalScrapes as real, [])]
  }

  /** The state after a scrape and the samples it emitted, in order. */
  datatype Scrape = Scrape(state: ScrapeState, emitted: seq<Metric>)

  /** One scrape: count the attempt, then either record the failure and emit
      only the bookkeeping samples, or record success and emit one sample per
      service per gauge before the bookkeeping samples. */
  function Collect(s: Services, st: ScrapeState, fetch: Fetch): (r: Scrape)
    requires WellFormed(s)
    ensures r.state.totalScrapes == st.totalScrapes + 1
    ensures r.state.up == (if fetch.Fetched? then 1.0 else 0.0)
    ensures |r.emitted| == (if fetch.Fetched? then |fetch.services| * |s.serviceMetrics| else 0) + 2
    ensures r.emitted[|r.emitted| - 2] == Metric(s.up, GaugeValue, r.state.up, [])
    ensures r.emitted[|r.emitted| - 1] == Metric(s.totalScrapes, CounterValue, r.state.totalScrapes as real, [])
    ensures fetch.Fetched? ==>
              forall i :: 0 <= i < |fetch.services| ==>
                Block(r.emitted, i, |s.serviceMetrics|) == PerServiceSamples(s, fetch.services[i])
    ensures Conforms(s, r.emitted)
  {
    var counted := st.(totalScrapes := st.totalScrapes + 1);
    match fetch
    case FetchFailed(_) =>
      var next := counted.(up := 0.0);
      Scrape(next, Bookkeeping(s, next))
    case Fetched(services) =>
      var next := counted.(up := 1.0);
      var samples := ServicesSamples(s, services);
      var emitted := samples + Bookkeeping(s, next);
      forall i | 0 <= i < |services|
        ensures Block(emitted, i, |s.serviceMetrics|) == PerServiceSamples(s, services[i])
      {
        BlockFits(i, |services|, |s.serviceMetrics|);
        BlockOfPrefix(samples, Bookkeeping(s, next), i, |s.serviceMetrics|);
      }
      assert Conforms(s, emitted) by {
        var d := Describe(s);
        assert d[|d| - 2] == s.up && d[|d| - 1] == s.totalScrapes;
        forall k | 0 <= k < |emitted|
          ensures emitted[k].desc in d && |emitted[k].labelValues| == |emitted[k].desc.variableLabels|
        {
          if k < |samples| {
            assert emitted[k] == samples[k];
          }
        }
      }
      Scrape(next, emitted)
  }

  /** The state after a sequence of scrapes, one per fetch outcome. */
  function Run(s: Services, st: ScrapeState, fetches: seq<Fetch>): ScrapeState
    requires WellFormed(s)
    decreases |fetches|
  {
    if fetches == [] then st
    else Run(s, Collect(s, st, fetches[0]).state, fetches[1..])
  }

  /** The scrape-counter value each scrape of a sequence reports. */
  function CounterReports(s: Services, st: ScrapeState, fetches: seq<Fetch>): seq<real>
    requires WellFormed(s)
    decreases |fetches|
  {
    if fetches == [] then []
    else
      var r := Collect(s, st, fetches[0]);
      [r.emitted[|r.emitted| - 1].value] + CounterReports(s, r.state, fetches[1..])
  }

  /** Every scrape counts, successful or not; `up` reflects only the last one. */
  lemma {:induction false} RunCountsEveryAttempt(s: Services, st: ScrapeState, fetches: seq<Fetch>)
    requires WellFormed(s)
    ensures Run(s, st, fetches).totalScrapes == st.totalScrapes + |fetches|
    ensures fetches != [] ==> Run(s, st, fetches).up == (if fetches[|fetches| - 1].Fetched? then 1.0 else 0.0)
    ensures fetches == [] ==> Run(s, st, fetches).up == st.up
    decreases |fetches|
  {
    if fetches != [] {
      var next := Collect(s, st, fetches[0]).state;
      RunCountsEveryAttempt(s, next, fetches[1..]);
      if |fetches| > 1 {
        assert fetches[1..][|fetches[1..]| - 1] == fetches[|fetches| - 1];
      }
    }
  }

  /** Successive scrapes report consecutive counter values, one above the
      starting count for the first scrape: none is lost or repeated. */
  lemma {:induction false} CounterReportsConsecutive(s: Services, st: ScrapeState, fetches: seq<Fetch>)
    requires WellFormed(s)
    ensures |CounterReports(s, st, fetches)| == |fetches|
    ensures forall k :: 0 <= k < |fetches| ==>
              CounterReports(s, st, fetches)[k] == (st.totalScrapes + k + 1) as real
    decreases |fetches|
  {
    if fetches != [] {
      var next := Collect(s, st, fetches[0]).state;
      CounterReportsConsecutive(s, next, fetches[1..]);
    }
  }

  /** A failed fetch emits exactly the two bookkeeping samples, whatever the
      collector and state. */
  lemma FailedScrapeEmitsOnlyBookkeeping(s: Services, st: ScrapeState, cause: string)
    requires WellFormed(s)
    ensures var r := Collect(s, st, FetchFailed(cause));
            && r.state == ScrapeState(st.totalScrapes + 1, 0.0)
            && r.emitted == [Metric(s.up, GaugeValue, 0.0, []),
                             Metric(s.totalScrapes, CounterValue, (st.totalScrapes + 1) as real, [])]
  {
  }

  /** One replicated service with id `svc1`, name `web`, runtime `container`,
      no annotations, created at epoch millisecond 1_700_000_000_000, three
      replicas and task counts 2 running, 3 desired, 1 completed. */
  const ExampleService: Service :=
    Service("svc1", "web", map[], "container", Replicated(3),
            1_700_000_000_000, 1_700_000_000_000, ServiceStatus(2, 3, 1))

  lemma ExampleLabelValues()
    ensures ServiceLabelValues([], ExampleService) == ["svc1", "web", "container", "", ""]
  {
  }

  /** Scraping the example service with no extra keys: created at
      1700000000 seconds, 3 replicas, 2/3/1 tasks, the annotation labels
      present but empty, and `up` at 1. */
  lemma MappingExample(namespace: string, st: ScrapeState)
    ensures var r := Collect(NewServices(namespace, []), st, Fetched([ExampleService]));
            && |r.emitted| == 8
            && r.emitted[0].value == 1_700_000_000.0
            && r.emitted[2].value == 3.0
            && r.emitted[3].value == 2.0
            && r.emitted[4].value == 3.0
            && r.emitted[5].value == 1.0
            && (forall j :: 0 <= j < 6 ==> r.emitted[j].labelValues == ["svc1", "web", "container", "", ""])
            && r.emitted[6].value == 1.0
  {
    var s := NewServices(namespace, []);
    var r := Collect(s, st, Fetched([ExampleService]));
    ExampleLabelValues();
    assert r.emitted[..6] == Block(r.emitted, 0, 6) == PerServiceSamples(s, ExampleService);
    forall j | 0 <= j < 6 ensures r.emitted[j] == ServiceSample(s, ExampleService, s.serviceMetrics[j]) {
      assert r.emitted[j] == r.emitted[..6][j];
    }
  }

  /** A global-mode service reports replicas as -1, whatever its task counts. */
  lemma NonReplicatedSentinel(s: Services, st: ScrapeState, services: seq<Service>, i: nat, j: nat)
    requires WellFormed(s)
    requires i < |services| && j < |s.serviceMetrics|
    requires s.serviceMetrics[j].kind == SpecReplicas
    ensures var r := Collect(s, st, Fetched(services));
            Block(r.emitted, i, |s.serviceMetrics|)[j].value == -1.0 <==> services[i].mode.NotReplicated?
  {
  }
}
