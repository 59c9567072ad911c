# Docker service exporter: metric mapping and scrape cycle

A Dafny model of the collector at the heart of `docker_service_exporter`.
This is a Prometheus exporter that lists the services of a Docker swarm and
exposes six gauges per service, plus two bookkeeping metrics.

The model covers:

- **Label schema** (`Labels`). Each exported annotation key becomes the
  label `docker_label_<key>`, with every `.` replaced by `_`. The schema of
  every per-service gauge is `id`, `name`, `task_runtime`, then the two
  default exported keys (`com.docker.stack.image` and
  `com.docker.stack.namespace`), then the configured extra keys, in the
  configured order.
- **Label values** (`Labels`). A service's values are its id, name and task
  runtime, then one value per default key and one per extra key. Each value
  is the annotation's value, or `""` when the service lacks that annotation.
  The model proves that the values always line up with the schema,
  position by position. That alignment is a necessary condition for
  Prometheus's `MustNewConstMetric` not to panic. It is not sufficient: the
  descriptor must also be free of errors, which is not modelled (see the
  `NewDesc` line under "Left out").
- **Metric catalog** (`Metrics`). `NewServices` builds the six gauges
  (`meta_created`, `meta_updated`, `spec_replicas`, `service_status_running`,
  `service_status_desired`, `service_status_completed`) plus the `up` gauge
  and the `total_scrapes` counter. `Describe` announces them in that order.
  Each gauge reads a value off the service record. The replicas gauge uses
  `-1` as a sentinel for services that are not replicated.
- **Scrape cycle** (`Collector`). `Collect` is a pure transition on the
  state (scrape count, `up`). It takes the outcome of the service listing as
  an input and returns the new state and the emitted samples. It always
  counts the attempt. On failure it sets `up` to 0 and emits only `up` and
  the counter. On success it sets `up` to 1, emits one sample per service per
  gauge (service by service, gauges in catalog order), then emits `up` and
  the counter.

The input types mirror the Docker swarm service record (`Swarm`).
Timestamps are integer milliseconds since the epoch. Task and replica counts
are unsigned 64-bit naturals. Sample values are exact `real`s.

Three facts about the program that shape the model:

- Only `.` is rewritten in annotation keys; other characters are kept as
  they are. `Labels.UnifyLabelValidIff` states exactly which keys give a
  valid Prometheus label name.
- Every per-service gauge carries the two default annotation labels, even
  with no extra keys configured. A service without annotations has five
  label values, the last two `""`.
- Samples are emitted service by service, with each service's gauges in
  catalog order (`Collector.Collect`).

The `namespace` constant is not part of this model: it is defined elsewhere
in the collector package, in a file not modelled here. It is a parameter of `Metrics.NewServices`, and
metric names are built from it the way Prometheus's `BuildFQName` joins
namespace, subsystem and name.

## Model

| member | source | states |
|---|---|---|
| `Labels.ReplaceByScanning` | src/collector/services.go:51 | replacing every dot by scanning for the next `.`, copying up to it and writing `_` in its place gives, for every key, the characterwise rewrite: same length, each `.` turned to `_`, every other character kept |
| `Labels.UnifyLabel` | src/collector/services.go:51 | the label name is `docker_label_` followed by the key, so it is longer by the prefix; after the prefix every `.` of the key is `_` and every other character is kept in place; the name contains no `.` |
| `Labels.UnifyServiceLabels` | src/collector/services.go:47-54 | one label name per key, same length and order as the keys, none containing `.` |
| `Labels.UnifyLabelValidIff` | src/collector/services.go:47-54 | a key yields a valid Prometheus label name (`[a-zA-Z_][a-zA-Z0-9_]*`) if and only if each of its characters is a dot or a label-name character |
| `Labels.UnifyLabelRoundTrip` | src/collector/services.go:51 | for a dot-free key, removing the prefix from its label name gives the key back |
| `Labels.UnifyLabelCollision` | src/collector/services.go:51 | two keys get the same label name if and only if they agree once dots are replaced, so `a.b` and `a_b` collide |
| `Labels.DefaultServiceLabelsValue` | src/collector/services.go:14-19 | the default schema is `id`, `name`, `task_runtime`, `docker_label_com_docker_stack_image`, `docker_label_com_docker_stack_namespace` |
| `Labels.ServiceLabelSchema` | src/collector/services.go:75 | the schema has 3 + 2 + (number of extra keys) names: the three built-in labels first, then the label name of each default key and then of each extra key, in order |
| `Labels.AnnotationValues` | src/collector/services.go:27-41 | one value per key, in key order; each is the annotation's value when present and `""` otherwise |
| `Labels.ServiceLabelValues` | src/collector/services.go:20-44 | for every service, the values are exactly as many as the schema's names: id, name and runtime first, then each default key's and each extra key's annotation value or `""` |
| `Labels.LabelsAligned` | src/collector/services.go:19-44 | for each exported key, the schema and the values hold that key's label name and that key's annotation value (or `""`) at the same position |
| `Metrics.Value` | src/collector/services.go:98-165 | timestamps are reported in seconds (the value times 1000 is the millisecond timestamp); replicas is -1 exactly when the service is not replicated, otherwise the replica count; the task gauges report running, desired and completed tasks; all but the timestamps are whole numbers |
| `Metrics.ReplicasIgnoresTaskCounts` | src/collector/services.go:122-128 | two services with the same mode report the same replicas value, whatever their task counts |
| `Metrics.NewServices` | src/collector/services.go:74-169 | six gauges in the order created, updated, replicas, running, desired, completed; each declares the full label schema; `up` and the counter declare no labels; the extra keys are kept for value extraction |
| `Metrics.Describe` | src/collector/services.go:171-178 | always announces the six gauges' descriptors in catalog order, then `up`, then the counter: per-service gauges + 2 descriptors, whatever the scrape state |
| `Metrics.CatalogNames` | src/collector/services.go:82-166 | in `Describe` order the eight metric names are `<ns>_meta_created`, `<ns>_meta_updated`, `<ns>_spec_replicas`, `<ns>_service_status_running`, `<ns>_service_status_desired`, `<ns>_service_status_completed`, `<ns>_node_stats_up` and `<ns>_node_stats_total_scrapes`, with no `<ns>_` prefix when the namespace is empty |
| `Metrics.CatalogNamesDistinct` | src/collector/services.go:82-166 | for every namespace and every set of extra keys, the eight announced metric names are pairwise distinct |
| `Collector.ServiceSample` | src/collector/services.go:205-210 | a per-service sample carries its gauge's descriptor, type and reading of the service, and one label value per declared label: positions 0-2 are `id`, `name`, `task_runtime` with the service's id, name and runtime, and each later position holds an exported key's label name in the descriptor and that key's annotation value (or `""`) in the sample; so the constructor's arity check always passes |
| `Collector.ServicesSamples` | src/collector/services.go:201-212 | (services × gauges) samples; the i-th block of consecutive samples is the i-th service's samples; every sample belongs to the announced catalog with matching label arity |
| `Collector.Collect` | src/collector/services.go:180-212 | the count rises by exactly 1; `up` is 1 on success and 0 on failure; success emits services × gauges + 2 samples and failure emits 2; the service samples come service by service; the last two are `up` then the counter with their new values; every sample is announced by `Describe` and has one value per declared label |
| `Collector.FailedScrapeEmitsOnlyBookkeeping` | src/collector/services.go:182-197 | a failed listing leaves the count one higher and `up` at 0, and emits exactly `up` = 0 followed by the counter |
| `Collector.NonReplicatedSentinel` | src/collector/services.go:122-128 | in a successful scrape, a service's replicas sample is -1 if and only if that service is not replicated |
| `Collector.RunCountsEveryAttempt` | src/collector/services.go:181-199 | after any sequence of scrapes, the count has risen by the number of scrapes, successful or not, and `up` reflects only the last scrape |
| `Collector.CounterReportsConsecutive` | src/collector/services.go:180-185 | in a sequence of scrapes, the k-th scrape reports the starting count + k + 1, so no increment is lost or repeated |
| `Collector.ExampleLabelValues` | src/collector/services.go:20-44 | a service without annotations, with no extra keys configured, gets the values `svc1`, `web`, `container`, `""`, `""` |
| `Collector.MappingExample` | src/collector/services.go:90-166 | scraping one replicated service created at epoch millisecond 1_700_000_000_000, with 3 replicas and 2/3/1 tasks, emits 8 samples: created = 1700000000, replicas = 3, running = 2, desired = 3, completed = 1, each with those five label values; then `up` = 1 |

## Left out

- The Docker `ServiceList` call, its context and its status option (src/collector/services.go:187-189). This is foreign I/O; its outcome is the `Fetch` input of `Collect`.
- The warning logged on a failed listing (src/collector/services.go:192-195). It is a side effect with no bearing on the emitted samples.
- The Prometheus library: registries, channels and the atomic gauge and counter. Descriptors are plain values, and emissions are a sequence.
- `NewDesc` validation. Prometheus records an error in a descriptor whose label names are invalid or repeated. Registration then fails, and `MustNewConstMetric` panics on such a descriptor. Extra keys like `com.example-team` (an invalid name), `com.docker.stack.image` (a repeat of a default label) or `a.b` next to `a_b` (a collision) cause this. The model's descriptors carry no error, so for such keys the model emits samples where the program would fail. The conditions are stated as lemmas instead (`Labels.UnifyLabelValidIff`, `Labels.UnifyLabelCollision`).
- Concurrent scrapes. The counter and gauge are atomic in the library. The model runs scrapes one after another (`Collector.Run`), so it does not state what concurrent invocations observe.
- Metrics.Value: uses exact rational arithmetic, not float64. It does not model the rounding of `float64(ms) / 1000`, nor the loss of precision when converting counts above 2^53 to float64.
- The possibly-nil fields `Spec.Mode.Replicated.Replicas` and `ServiceStatus` are assumed filled. The daemon always fills the replica count of a replicated service, and the listing asks for status. A nil dereference would panic in the source; the model has no such case.
- The bookkeeping samples are the live gauge and counter. Prometheus reads their values when it writes them out. The model takes their values at the end of the scrape.
- Slice sharing between the package-level default schema and the per-collector schema. The collector is built once per process, so it has no observable effect.
- main.go (flag parsing, signal handling, HTTP wiring), src/logger.go (logger construction) and collector/services.go (an unfinished variant without any mapping) are not part of this model.
