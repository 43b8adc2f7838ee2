/**
 * The binary-sensor platform: one breaker-overload problem sensor per CPE, on exactly when the
 * breaker load is above 100 %, kept in the per-entry `binary_sensor_entities` dictionary under
 * the CPE.
 */
module BinarySensors {
  import opened Wrappers
  import opened Strings
  import opened Host
  import opened Catalog
  import opened Identifiers

  /** The overload threshold, in percent of the breaker limit. */
  const OVERLOAD_THRESHOLD: real := 100.0

  /**
   * What `_check_overload` finds under `"{cpe}_breaker_load"` in the sensor dictionary: no
   * sensor, a sensor without a value, a value `float` rejects, or a load percentage.
   */
  datatype BreakerLoad = Missing | NoValue | Unconvertible | Load(percent: real)

  class OverloadSensor {
    const cpe: string
    const configEntryId: string
    var isOn: bool

    /** A new sensor is off. */
    constructor (cpe: string, configEntryId: string)
      ensures this.cpe == cpe && this.configEntryId == configEntryId
      ensures !isOn
    {
      this.cpe := cpe;
      this.configEntryId := configEntryId;
      isOn := false;
    }

    function UniqueId(): string {
      OverloadUniqueId(cpe)
    }

    /** `_check_overload`: on exactly when a load is known and strictly above the threshold. */
    method CheckOverload(load: BreakerLoad)
      modifies this
      ensures isOn <==> load.Load? && load.percent > OVERLOAD_THRESHOLD
    {
      match load
      case Missing => isOn := false;
      case NoValue => isOn := false;
      case Unconvertible => isOn := false;  // the conversion error is caught
      case Load(p) => isOn := p > OVERLOAD_THRESHOLD;
    }
  }

  /** The CPE whose overload sensor a registry entry persists, if it is one of this entry's. */
  function OverloadTarget(e: RegistryEntry, entryId: string): Option<string> {
    if !(e.configEntryId == entryId && e.domain == "binary_sensor" && e.platform == DOMAIN) then None
    else ParseCpe(e.uniqueId, OVERLOAD_SUFFIX)
  }

  /** The CPEs whose overload sensors a registry rebuilds, in registry order. */
  function RestoredOverloads(registry: seq<RegistryEntry>, entryId: string): seq<string> {
    if registry == [] then []
    else
      var rest := RestoredOverloads(registry[..|registry| - 1], entryId);
      match OverloadTarget(registry[|registry| - 1], entryId)
      case None => rest
      case Some(cpe) => rest + [cpe]
  }

  function Cpes(sensors: seq<OverloadSensor>): (r: seq<string>)
    ensures |r| == |sensors|
    ensures forall i :: 0 <= i < |sensors| ==> r[i] == sensors[i].cpe
  {
    if sensors == [] then [] else Cpes(sensors[..|sensors| - 1]) + [sensors[|sensors| - 1].cpe]
  }

  /** The sensors of a batch by CPE, as storing them one after another leaves them. */
  function OverloadStash(sensors: seq<OverloadSensor>): map<string, OverloadSensor> {
    if sensors == [] then map[]
    else
      var last := sensors[|sensors| - 1];
      OverloadStash(sensors[..|sensors| - 1])[last.cpe := last]
  }

  lemma OverloadStashAppend(m: map<string, OverloadSensor>, sensors: seq<OverloadSensor>, s: OverloadSensor)
    ensures m + OverloadStash(sensors + [s]) == (m + OverloadStash(sensors))[s.cpe := s]
  {
    TakeSnoc(sensors, s);
  }

  lemma RestoredOverloadsStep(registry: seq<RegistryEntry>, entryId: string, n: nat)
    requires n < |registry|
    ensures OverloadTarget(registry[n], entryId).None? ==>
      RestoredOverloads(registry[..n + 1], entryId) == RestoredOverloads(registry[..n], entryId)
    ensures OverloadTarget(registry[n], entryId).Some? ==>
      RestoredOverloads(registry[..n + 1], entryId) ==
      RestoredOverloads(registry[..n], entryId) + [OverloadTarget(registry[n], entryId).value]
  {
    TakeTake(registry, n, n + 1);
  }

  /** An entry of this config entry's binary-sensor platform is restored exactly when it is an overload id. */
  lemma OverloadTargetSome(e: RegistryEntry, entryId: string, cpe: string)
    ensures OverloadTarget(e, entryId) == Some(cpe) <==>
      && e.configEntryId == entryId && e.domain == "binary_sensor" && e.platform == DOMAIN
      && e.uniqueId == OverloadUniqueId(cpe)
  {
    OverloadUniqueIdParse(e.uniqueId, cpe);
  }

  /** Entries without the domain prefix or the overload suffix are skipped. */
  lemma OverloadTargetNone(e: RegistryEntry, entryId: string)
    ensures OverloadTarget(e, entryId).None? <==>
      || e.configEntryId != entryId || e.domain != "binary_sensor" || e.platform != DOMAIN
      || !StartsWith(e.uniqueId, PREFIX) || !EndsWith(e.uniqueId[|PREFIX|..], OVERLOAD_SUFFIX)
  {
  }

  /** The registry entries the binary-sensor platform leaves behind for the sensors of some CPEs. */
  function RegisteredOverloads(cpes: seq<string>, entryId: string): seq<RegistryEntry> {
    if cpes == [] then []
    else
      RegisteredOverloads(cpes[..|cpes| - 1], entryId) +
        [RegistryEntry(entryId, "binary_sensor", DOMAIN, OverloadUniqueId(cpes[|cpes| - 1]))]
  }

  /** After a restart, the registry entries of the created sensors rebuild exactly those sensors. */
  lemma {:induction false} RestoreRecoversOverloads(cpes: seq<string>, entryId: string)
    ensures RestoredOverloads(RegisteredOverloads(cpes, entryId), entryId) == cpes
  {
    if cpes != [] {
      var init, last := cpes[..|cpes| - 1], cpes[|cpes| - 1];
      RestoreRecoversOverloads(init, entryId);
      TakeSnoc(RegisteredOverloads(init, entryId), RegistryEntry(entryId, "binary_sensor", DOMAIN, OverloadUniqueId(last)));
      OverloadUniqueIdParse(OverloadUniqueId(last), last);
      InitLast(cpes);
    }
  }

  /** The binary-sensor platform's part of the per-entry data. */
  class BinarySensorPlatform {
    const entryId: string
    /** `binary_sensor_add_entities`; None while the key is absent. */
    var addEntities: Option<CallbackId>
    var entities: map<string, OverloadSensor>
    /** Every call of an `add_entities` callback, with the batch of entities it was given. */
    var addCalls: seq<(CallbackId, seq<OverloadSensor>)>

    ghost predicate Valid()
      reads this
    {
      forall cpe :: cpe in entities ==> entities[cpe].cpe == cpe && entities[cpe].configEntryId == entryId
    }

    /** The per-entry data before the platform is set up: the integration forwards only the sensor platform. */
    constructor (entryId: string)
      ensures Valid() && this.entryId == entryId
      ensures addEntities == None && entities == map[] && addCalls == []
    {
      this.entryId := entryId;
      addEntities := None;
      entities := map[];
      addCalls := [];
    }

    /** `async_setup_entry`: store the callback, reset the dictionary, then restore from the registry. */
    method SetupEntry(cb: CallbackId, registry: seq<RegistryEntry>) returns (restored: seq<OverloadSensor>)
      modifies this
      ensures Valid() && addEntities == Some(cb)
      ensures entities == OverloadStash(restored) && Cpes(restored) == RestoredOverloads(registry, entryId)
      ensures forall s :: s in restored ==> fresh(s) && !s.isOn
      ensures addCalls == old(addCalls) + (if restored == [] then [] else [(cb, restored)])
    {
      addEntities := Some(cb);
      entities := map[];
      restored := RestoreExisting(registry, cb);
    }

    /** One pass of the restore loop: rebuild and store the sensor a registry entry names, if any. */
    method RestoreEntry(e: RegistryEntry) returns (sensor: Option<OverloadSensor>)
      requires Valid()
      modifies this
      ensures Valid() && addEntities == old(addEntities) && addCalls == old(addCalls)
      ensures sensor.None? <==> OverloadTarget(e, entryId).None?
      ensures sensor.None? ==> entities == old(entities)
      ensures sensor.Some? ==>
        && fresh(sensor.value) && !sensor.value.isOn
        && sensor.value.configEntryId == entryId
        && OverloadTarget(e, entryId) == Some(sensor.value.cpe)
        && entities == old(entities)[sensor.value.cpe := sensor.value]
    {
      if !(e.configEntryId == entryId && e.domain == "binary_sensor" && e.platform == DOMAIN) {
        return None;
      }
      if !StartsWith(e.uniqueId, PREFIX) {
        return None;
      }
      var remainder := e.uniqueId[|PREFIX|..];
      if !EndsWith(remainder, OVERLOAD_SUFFIX) {
        return None;
      }
      var cpe := remainder[..|remainder| - |OVERLOAD_SUFFIX|];
      var s := new OverloadSensor(cpe, entryId);
      entities := entities[cpe := s];
      sensor := Some(s);
    }

    /** `async_restore_existing_binary_sensors` */
    method RestoreExisting(registry: seq<RegistryEntry>, cb: CallbackId) returns (restored: seq<OverloadSensor>)
      requires Valid()
      modifies this
      ensures Valid() && addEntities == old(addEntities)
      ensures Cpes(restored) == RestoredOverloads(registry, entryId)
      ensures forall s :: s in restored ==> fresh(s) && !s.isOn
      ensures entities == old(entities) + OverloadStash(restored)
      ensures addCalls == old(addCalls) + (if restored == [] then [] else [(cb, restored)])
    {
      var toRestore: seq<OverloadSensor> := [];
      var n := 0;
      while n < |registry|
        invariant 0 <= n <= |registry|
        invariant Valid() && addEntities == old(addEntities) && addCalls == old(addCalls)
        invariant Cpes(toRestore) == RestoredOverloads(registry[..n], entryId)
        invariant forall s :: s in toRestore ==> fresh(s) && !s.isOn
        invariant entities == old(entities) + OverloadStash(toRestore)
      {
        var sensor := RestoreEntry(registry[n]);
        RestoredOverloadsStep(registry, entryId, n);
        if sensor.Some? {
          var s := sensor.value;
          OverloadStashAppend(old(entities), toRestore, s);
          TakeSnoc(toRestore, s);
          toRestore := toRestore + [s];
        }
        n := n + 1;
      }
      TakeAll(registry);
      if |toRestore| > 0 {
        addCalls := addCalls + [(cb, toRestore)];
      }
      restored := toRestore;
    }

    /**
     * `async_create_breaker_overload_sensor`: nothing happens when the CPE already has a sensor or
     * when the platform was never set up (no callback).
     */
    method CreateOverloadSensor(cpe: string)
      requires Valid()
      modifies this
      ensures Valid() && addEntities == old(addEntities)
      ensures cpe in old(entities) || old(addEntities).None? ==>
        entities == old(entities) && addCalls == old(addCalls)
      ensures cpe !in old(entities) && old(addEntities).Some? ==>
        && cpe in entities && fresh(entities[cpe])
        && entities == old(entities)[cpe := entities[cpe]]
        && !entities[cpe].isOn
        && addCalls == old(addCalls) + [(old(addEntities).value, [entities[cpe]])]
    {
      if cpe in entities {
        return;
      }
      if addEntities.None? {
        return;  // add_entities not available
      }
      var s := new OverloadSensor(cpe, entryId);
      addCalls := addCalls + [(addEntities.value, [s])];
      entities := entities[cpe := s];
    }
  }
}
