/**
 The part of a Docker swarm service record that the exporter reads. The
 orchestrator owns these records; the exporter only ever sees an immutable
 snapshot of them, fetched once per scrape.
 */
module Swarm {

  /** An unsigned 64-bit counter as the Docker API reports it. */
  type uint64 = x: nat | x < 0x1_0000_0000_0000_0000

  /** `Spec.Mode`: only the replicated mode carries a replica count; the
      global and job modes leave `Mode.Replicated` unset. */
  datatype ServiceMode = Replicated(replicas: uint64) | NotReplicated

  /** `ServiceStatus`, populated because the list request asks for status. */
  datatype ServiceStatus = ServiceStatus(
    runningTasks: uint64,
    desiredTasks: uint64,
    completedTasks: uint64)

  /** One service record. Timestamps are milliseconds since the Unix epoch
      (what `UnixMilli()` returns), so they may be negative. `labels` are the
      service-level annotation labels; a missing map behaves as an empty one. */
  datatype Service = Service(
    id: string,
    name: string,
    labels: map<string, string>,
    runtime: string,
    mode: ServiceMode,
    createdAtMs: int,
    updatedAtMs: int,
    status: ServiceStatus)
}
