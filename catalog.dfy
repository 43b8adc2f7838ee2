/**
 * The static tables of the integration: its domain, the fixed webhook id and path, the catalog of
 * raw webhook fields (field name -> sensor configuration) and the one calculated sensor.
 *
 * The seven rows of the raw-field catalog are the constructors of `Entry`; `FieldName` and `Config`
 * give each row's dictionary key and value, and `ENTRIES` lists the rows in declaration order,
 * which is the order the restore scans try them in.
 */
module Catalog {
  import opened Wrappers
  import opened Strings

  const DOMAIN: string := "e_redes_smart_metering_plus"

  /** The webhook id is fixed, so the webhook URL path is predictable. */
  const WEBHOOK_ID: string := DOMAIN
  const WEBHOOK_PATH: string := "/api/webhook/" + WEBHOOK_ID

  const MANUFACTURER: string := "E-Redes"
  const MODEL: string := "Smart Metering Plus"

  /** How the host treats a sensor's history; the integration also derives its update rule from it. */
  datatype StateClass = Measurement | TotalIncreasing

  datatype SensorConfig = SensorConfig(
    name: string,
    key: string,
    unit: string,
    deviceClass: string,
    stateClass: StateClass,
    icon: string)

  /** A row of the raw-field catalog. */
  datatype Entry =
    | PowerImport | MaxPowerImport | EnergyImport
    | PowerExport | MaxPowerExport | EnergyExport
    | VoltageL1

  /** The rows in declaration order (dictionary iteration order). */
  const ENTRIES: seq<Entry> :=
    [PowerImport, MaxPowerImport, EnergyImport, PowerExport, MaxPowerExport, EnergyExport, VoltageL1]

  /** The webhook field a row is keyed by. */
  function FieldName(e: Entry): string {
    match e
    case PowerImport => "instantaneousActivePowerImport"
    case MaxPowerImport => "maxActivePowerImport"
    case EnergyImport => "activeEnergyImport"
    case PowerExport => "instantaneousActivePowerExport"
    case MaxPowerExport => "maxActivePowerExport"
    case EnergyExport => "activeEnergyExport"
    case VoltageL1 => "voltageL1"
  }

  /** The sensor key of a row: it names the sensor in unique ids, entity keys and signals. */
  function Key(e: Entry): string {
    match e
    case PowerImport => "instantaneous_active_power_import"
    case MaxPowerImport => "max_active_power_import"
    case EnergyImport => "active_energy_import"
    case PowerExport => "instantaneous_active_power_export"
    case MaxPowerExport => "max_active_power_export"
    case EnergyExport => "active_energy_export"
    case VoltageL1 => "voltage_l1"
  }

  /** The state class of a row: the two energy counters only ever grow. */
  function ClassOf(e: Entry): StateClass {
    match e
    case EnergyImport | EnergyExport => TotalIncreasing
    case _ => Measurement
  }

  /** The configuration dictionary of a row. */
  function Config(e: Entry): (c: SensorConfig)
    ensures c.key == Key(e) && c.stateClass == ClassOf(e)
  {
    match e
    case PowerImport =>
      SensorConfig("Instantaneous Active Power Import", Key(e), "W", "power", Measurement,
                   "mdi:transmission-tower-import")
    case MaxPowerImport =>
      SensorConfig("Max Active Power Import", Key(e), "W", "power", Measurement,
                   "mdi:transmission-tower-import")
    case EnergyImport =>
      SensorConfig("Active Energy Import", Key(e), "Wh", "energy", TotalIncreasing, "mdi:counter")
    case PowerExport =>
      SensorConfig("Instantaneous Active Power Export", Key(e), "W", "power", Measurement,
                   "mdi:transmission-tower-export")
    case MaxPowerExport =>
      SensorConfig("Max Active Power Export", Key(e), "W", "power", Measurement,
                   "mdi:transmission-tower-export")
    case EnergyExport =>
      SensorConfig("Active Energy Export", Key(e), "Wh", "energy", TotalIncreasing, "mdi:counter")
    case VoltageL1 =>
      SensorConfig("Voltage L1", Key(e), "V", "voltage", Measurement, "mdi:sine-wave")
  }

  datatype CalculatedConfig = CalculatedConfig(
    name: string,
    key: string,
    unit: string,
    deviceClass: string,
    stateClass: StateClass,
    icon: string,
    calculation: string,
    sourceSensors: seq<string>)

  /** Sensors computed from other sensors rather than posted by the meter. */
  const CALCULATED_SENSORS: seq<(string, CalculatedConfig)> := [
    ("instantaneous_active_current_import",
     CalculatedConfig("Instantaneous Active Current Import", "instantaneous_active_current_import", "A",
                      "current", Measurement, "mdi:current-ac", "power_voltage",
                      ["instantaneous_active_power_import", "voltage_l1"]))
  ]

  /** `key` is the sensor key of some row. */
  predicate IsKey(key: string) {
    exists e :: Key(e) == key
  }

  /** First row of `es` keyed by the field `name`. */
  function FindField(es: seq<Entry>, name: string): Option<Entry> {
    if es == [] then None
    else if FieldName(es[0]) == name then Some(es[0])
    else FindField(es[1..], name)
  }

  /** A found row is in the table and has the field name; nothing is found only when no row has it. */
  lemma {:induction false} FindFieldFound(es: seq<Entry>, name: string)
    ensures FindField(es, name).Some? ==> FindField(es, name).value in es && FieldName(FindField(es, name).value) == name
    ensures FindField(es, name).None? ==> forall i :: 0 <= i < |es| ==> FieldName(es[i]) != name
  {
    if es != [] && FieldName(es[0]) != name {
      FindFieldFound(es[1..], name);
      forall i | 0 <= i < |es| && FindField(es, name).None?
        ensures FieldName(es[i]) != name
      {
        if i > 0 {
          assert es[i] == es[1..][i - 1];
        }
      }
    }
  }

  /** `SENSOR_MAPPING.get(name)`: the row a webhook field feeds, if it is mapped at all. */
  function Lookup(name: string): Option<Entry> {
    FindField(ENTRIES, name)
  }

  /** A mapped field's row has that field name. */
  lemma LookupFound(name: string)
    requires Lookup(name).Some?
    ensures FieldName(Lookup(name).value) == name
  {
    FindFieldFound(ENTRIES, name);
  }

  /** First row of `es` whose sensor key is `key`. */
  function FindKey(es: seq<Entry>, key: string): Option<Entry> {
    if es == [] then None
    else if Key(es[0]) == key then Some(es[0])
    else FindKey(es[1..], key)
  }

  /** A found row is in the table and carries the key; nothing is found only when no row carries it. */
  lemma {:induction false} FindKeyFound(es: seq<Entry>, key: string)
    ensures FindKey(es, key).Some? ==> FindKey(es, key).value in es && Key(FindKey(es, key).value) == key
    ensures FindKey(es, key).None? ==> forall i :: 0 <= i < |es| ==> Key(es[i]) != key
  {
    if es != [] && Key(es[0]) != key {
      FindKeyFound(es[1..], key);
      forall i | 0 <= i < |es| && FindKey(es, key).None?
        ensures Key(es[i]) != key
      {
        if i > 0 {
          assert es[i] == es[1..][i - 1];
        }
      }
    }
  }

  /** The search stops at the first row that carries the key. */
  lemma {:induction false} FindKeyAt(es: seq<Entry>, key: string, i: nat)
    requires i < |es| && Key(es[i]) == key
    requires forall j :: 0 <= j < i ==> Key(es[j]) != key
    ensures FindKey(es, key) == Some(es[i])
  {
    if i > 0 {
      assert Key(es[0]) != key;
      FindKeyAt(es[1..], key, i - 1);
    }
  }

  /** Where a row sits in `ENTRIES`. */
  function Position(e: Entry): (i: nat)
    ensures i < |ENTRIES| && ENTRIES[i] == e
  {
    match e
    case PowerImport => 0
    case MaxPowerImport => 1
    case EnergyImport => 2
    case PowerExport => 3
    case MaxPowerExport => 4
    case EnergyExport => 5
    case VoltageL1 => 6
  }

  /** Field names are dictionary keys: no two rows share one. */
  lemma FieldNamesDistinct(e1: Entry, e2: Entry)
    requires FieldName(e1) == FieldName(e2)
    ensures e1 == e2
  {
  }

  /** No two rows share a sensor key. */
  lemma KeysDistinct(e1: Entry, e2: Entry)
    requires Key(e1) == Key(e2)
    ensures e1 == e2
  {
  }

  /** Looking a row's own field name up gives that row. */
  lemma LookupFieldName(e: Entry)
    ensures Lookup(FieldName(e)) == Some(e)
  {
    var r := Lookup(FieldName(e));
    FindFieldFound(ENTRIES, FieldName(e));
    assert ENTRIES[Position(e)] == e;
    FieldNamesDistinct(r.value, e);
  }

  /** A field is mapped exactly when it is some row's field name. */
  lemma LookupNone(name: string)
    ensures Lookup(name).None? <==> forall e :: FieldName(e) != name
  {
    FindFieldFound(ENTRIES, name);
    if Lookup(name).None? {
      forall e ensures FieldName(e) != name {
        assert ENTRIES[Position(e)] == e;
      }
    }
  }

  /** Searching the rows for a row's own key gives that row. */
  lemma FindKeyOfKey(e: Entry)
    ensures FindKey(ENTRIES, Key(e)) == Some(e)
  {
    var r := FindKey(ENTRIES, Key(e));
    FindKeyFound(ENTRIES, Key(e));
    assert ENTRIES[Position(e)] == e;
    KeysDistinct(r.value, e);
  }

  /** Exactly the two energy counters are total_increasing; every other row is a measurement. */
  lemma TotalIncreasingEntries(e: Entry)
    ensures Config(e).stateClass == TotalIncreasing <==> e == EnergyImport || e == EnergyExport
  {
  }

  /** `ShorterKeyMisaligned` for the two instantaneous-power keys. */
  lemma PowerKeyMisaligned(e1: Entry, e2: Entry)
    requires (e2 == PowerImport || e2 == PowerExport) && |Key(e1)| < |Key(e2)|
    ensures Key(e2)[|Key(e2)| - |Key(e1)| - 1] != '_'
  {
    match e1 { case PowerImport => case MaxPowerImport => case EnergyImport => case PowerExport => case MaxPowerExport => case EnergyExport => case VoltageL1 => }
  }

  /** `ShorterKeyMisaligned` for the two maximum-power keys. */
  lemma MaxKeyMisaligned(e1: Entry, e2: Entry)
    requires (e2 == MaxPowerImport || e2 == MaxPowerExport) && |Key(e1)| < |Key(e2)|
    ensures Key(e2)[|Key(e2)| - |Key(e1)| - 1] != '_'
  {
    match e1 { case PowerImport => case MaxPowerImport => case EnergyImport => case PowerExport => case MaxPowerExport => case EnergyExport => case VoltageL1 => }
  }

  /** `ShorterKeyMisaligned` for the two energy keys. */
  lemma EnergyKeyMisaligned(e1: Entry, e2: Entry)
    requires (e2 == EnergyImport || e2 == EnergyExport) && |Key(e1)| < |Key(e2)|
    ensures Key(e2)[|Key(e2)| - |Key(e1)| - 1] != '_'
  {
    match e1 { case PowerImport => case MaxPowerImport => case EnergyImport => case PowerExport => case MaxPowerExport => case EnergyExport => case VoltageL1 => }
  }

  /** Where a shorter key would start inside a longer one, the longer one has no separator. */
  lemma ShorterKeyMisaligned(e1: Entry, e2: Entry)
    requires |Key(e1)| < |Key(e2)|
    ensures Key(e2)[|Key(e2)| - |Key(e1)| - 1] != '_'
  {
    match e2
    case PowerImport | PowerExport => PowerKeyMisaligned(e1, e2);
    case MaxPowerImport | MaxPowerExport => MaxKeyMisaligned(e1, e2);
    case EnergyImport | EnergyExport => EnergyKeyMisaligned(e1, e2);
    case VoltageL1 => match e1 { case PowerImport => case MaxPowerImport => case EnergyImport => case PowerExport => case MaxPowerExport => case EnergyExport => case VoltageL1 => }
  }

  /** Keys of equal length (an import key and its export twin) differ five characters from the end. */
  lemma SameLengthKeysDiffer(e1: Entry, e2: Entry)
    requires e1 != e2 && |Key(e1)| == |Key(e2)|
    ensures |Key(e1)| >= 5 && Key(e1)[|Key(e1)| - 5] != Key(e2)[|Key(e2)| - 5]
  {
  }

  /** A shorter key, with its separator, is not a suffix of a longer one with its separator. */
  lemma ShorterKeyNotSuffix(e1: Entry, e2: Entry)
    requires |Key(e1)| < |Key(e2)|
    ensures !EndsWith("_" + Key(e2), "_" + Key(e1))
  {
    ShorterKeyMisaligned(e1, e2);
    MisalignedNotSuffix("_", Key(e1), Key(e2));
  }

  /** Of two different keys of one length, neither with its separator is a suffix of the other. */
  lemma SameLengthKeyNotSuffix(e1: Entry, e2: Entry)
    requires e1 != e2 && |Key(e1)| == |Key(e2)|
    ensures !EndsWith("_" + Key(e2), "_" + Key(e1))
  {
    SameLengthKeysDiffer(e1, e2);
    DifferentNotSuffix("_", Key(e1), Key(e2), 5);
  }

  /**
   * No `"_" + Key(e1)` is a suffix of `"_" + Key(e2)` for two different rows, so a string ends in
   * `"_" + key` for at most one sensor key and the first-match suffix scan does not depend on the
   * order of the table.
   */
  lemma NoKeyIsSuffixOfAnother(e1: Entry, e2: Entry)
    requires e1 != e2
    ensures !EndsWith("_" + Key(e2), "_" + Key(e1))
  {
    if |Key(e1)| < |Key(e2)| {
      ShorterKeyNotSuffix(e1, e2);
    } else if |Key(e1)| == |Key(e2)| {
      SameLengthKeyNotSuffix(e1, e2);
    }
  }

  /** Both inputs of the calculated current are raw sensor keys; the calculated key is not one. */
  lemma CalculatedSourcesAreRawKeys()
    ensures forall c, s :: 0 <= c < |CALCULATED_SENSORS| && s in CALCULATED_SENSORS[c].1.sourceSensors ==> IsKey(s)
    ensures forall c :: 0 <= c < |CALCULATED_SENSORS| ==> !IsKey(CALCULATED_SENSORS[c].1.key)
  {
    assert Key(PowerImport) == CALCULATED_SENSORS[0].1.sourceSensors[0];
    assert Key(VoltageL1) == CALCULATED_SENSORS[0].1.sourceSensors[1];
  }

  /** The webhook id is the domain itself and the webhook path spells it out. */
  lemma WebhookConstants()
    ensures WEBHOOK_ID == DOMAIN
    ensures WEBHOOK_PATH == "/api/webhook/e_redes_smart_metering_plus"
  {
  }
}
