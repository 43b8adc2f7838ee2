/**
 * The parts of the host (the home-automation core) that the integration talks to, reduced to
 * plain values: persisted entity-registry entries, entity-adding callbacks and points in time.
 */
module Host {

  /** Identity of an `add_entities` callback handed to a platform's setup. */
  type CallbackId = nat

  /** One entry of the persisted entity registry, as far as the restore scans read it. */
  datatype RegistryEntry = RegistryEntry(
    configEntryId: string,
    domain: string,     // the entity platform kind: "sensor", "number", "binary_sensor", ...
    platform: string,   // the integration that created the entity
    uniqueId: string)

  /** A point in time, as produced by the host's clock or by parsing an ISO timestamp. */
  datatype Instant = Instant(ticks: int)
}
