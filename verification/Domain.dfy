/** Values shared by every component: results, snapshots and their observations. */
module Domain {

  datatype Option<+T> = None | Some(value: T)

  /** A value or the error that stopped the computation; usable with `:-`. */
  datatype Result<+T, +E> = Ok(value: T) | Err(error: E) {
    predicate IsFailure() {
      Err?
    }

    function PropagateFailure<U>(): Result<U, E>
      requires Err?
    {
      Err(error)
    }

    function Extract(): T
      requires Ok?
    {
      value
    }
  }

  datatype AssetStatus = Active | Stale | Missing | Conflicting | Retired | Unknown

  const ASSET_TYPES: set<string> := {
    "PHYSICAL_HOST", "VIRTUAL_MACHINE", "CONTAINER", "CONTAINER_IMAGE", "KUBERNETES_CLUSTER",
    "KUBERNETES_NODE", "KUBERNETES_NAMESPACE", "KUBERNETES_WORKLOAD", "KUBERNETES_POD",
    "APPLICATION", "SERVICE", "DATABASE", "CACHE", "MESSAGE_BROKER", "STORAGE", "NETWORK",
    "IP_ADDRESS", "DNS_NAME", "LOAD_BALANCER", "CERTIFICATE", "VOLUME", "CLOUD_RESOURCE", "UNKNOWN"
  }

  /** An asset as one source reports it. `attributes` maps each key to the normalised JSON
      text of its value; `hints` maps each identity hint to its printed text. Strings are
      byte strings, so `|s|` is Go's `len(s)`; time 0 is the zero time. */
  datatype Observation = Observation(
    external: string, assetType: string, observedAt: int,
    attributes: map<string, string>, hints: map<string, string>,
    fingerprint: string, status: string)

  datatype RelationshipObservation = RelationshipObservation(
    from: string, to: string, relType: string, observedAt: int, attributes: map<string, string>)

  datatype Snapshot = Snapshot(
    protocolVersion: string, id: string, org: string, collector: string, connector: string,
    startedAt: int, completedAt: int, sequence: int,
    assets: seq<Observation>, relationships: seq<RelationshipObservation>,
    warnings: seq<string>, statistics: map<string, int>)

  datatype Summary = Summary(
    created: nat, updated: nat, kept: nat, missing: nat, conflicting: nat,
    relationshipsCreated: nat, relationshipsRemoved: nat, changes: nat)

  const ZERO_SUMMARY := Summary(0, 0, 0, 0, 0, 0, 0, 0)
}
