/**
 * The sensor platform: one `Sensor` object per (CPE, catalog key), kept in the per-entry `entities`
 * dictionary under `EntityKey(cpe, key)`, created lazily from webhook fields or rebuilt at startup
 * from the persisted entity registry, and updated by the dispatcher under the monotonic rule for
 * total_increasing sensors.
 */
module Sensors {
  import opened Wrappers
  import opened Strings
  import opened Host
  import opened Catalog
  import opened Identifiers

  /** What a sensor shows: its native value and the time of the last accepted update. */
  datatype Reading = Reading(value: Option<real>, lastUpdate: Option<Instant>)

  /** A freshly constructed sensor has neither. */
  const NO_READING: Reading := Reading(None, None)

  /** The update rule: a total_increasing sensor that has a value refuses a smaller one. */
  predicate Accepts(sc: StateClass, current: Option<real>, value: real) {
    !(sc == TotalIncreasing && current.Some? && value < current.value)
  }

  /**
   * The time an accepted update is stamped with: the parsed `clock` of the payload when it is a
   * non-empty string that parses, the host's clock otherwise.
   */
  function UpdateTime(timestamp: Option<string>, parsed: Option<Instant>, now: Instant): Instant {
    if timestamp.Some? && timestamp.value != "" && parsed.Some? then parsed.value else now
  }

  /** The reading after one update of `value` stamped `at`. */
  function Apply(sc: StateClass, r: Reading, value: real, at: Instant): (r': Reading)
    ensures sc == Measurement ==> r' == Reading(Some(value), Some(at))
    ensures sc == TotalIncreasing && (r.value.None? || value >= r.value.value) ==>
              r' == Reading(Some(value), Some(at))
    ensures sc == TotalIncreasing && r.value.Some? && value < r.value.value ==> r' == r
    ensures sc == TotalIncreasing && r.value.Some? ==> r'.value.Some? && r'.value.value >= r.value.value
  {
    if Accepts(sc, r.value, value) then Reading(Some(value), Some(at)) else r
  }

  /** The reading after a sequence of updates, applied in order. */
  function Replay(sc: StateClass, r: Reading, updates: seq<(real, Instant)>): Reading {
    if updates == [] then r
    else
      var last := updates[|updates| - 1];
      Apply(sc, Replay(sc, r, updates[..|updates| - 1]), last.0, last.1)
  }

  /** Over any sequence of updates the value of a total_increasing sensor never decreases. */
  lemma {:induction false} ReplayNeverDecreases(r: Reading, updates: seq<(real, Instant)>, i: nat, j: nat)
    requires i <= j <= |updates|
    requires Replay(TotalIncreasing, r, updates[..i]).value.Some?
    ensures Replay(TotalIncreasing, r, updates[..j]).value.Some?
    ensures Replay(TotalIncreasing, r, updates[..j]).value.value >= Replay(TotalIncreasing, r, updates[..i]).value.value
  {
    if j > i {
      ReplayNeverDecreases(r, updates, i, j - 1);
      TakeTake(updates, j - 1, j);
    }
  }

  /** A measurement sensor ends at the last value it was sent, whatever came before. */
  lemma {:induction false} MeasurementReplayTakesLast(r: Reading, updates: seq<(real, Instant)>)
    requires updates != []
    ensures Replay(Measurement, r, updates) ==
            Reading(Some(updates[|updates| - 1].0), Some(updates[|updates| - 1].1))
  {
  }

  /** 10000, 10500, then 9500 is refused, then 11000 is accepted. */
  lemma DecreaseRejectedScenario(t1: Instant, t2: Instant, t3: Instant, t4: Instant)
    ensures var u := [(10000.0, t1), (10500.0, t2), (9500.0, t3), (11000.0, t4)];
            Replay(TotalIncreasing, NO_READING, u[..3]) == Reading(Some(10500.0), Some(t2)) &&
            Replay(TotalIncreasing, NO_READING, u) == Reading(Some(11000.0), Some(t4))
  {
    var u: seq<(real, Instant)> := [(10000.0, t1), (10500.0, t2), (9500.0, t3), (11000.0, t4)];
    assert u[..1][..0] == [] && u[..2][..1] == u[..1] && u[..3][..2] == u[..2] && u[..|u| - 1] == u[..3];
    assert Replay(TotalIncreasing, NO_READING, u[..1]) == Reading(Some(10000.0), Some(t1));
    assert Replay(TotalIncreasing, NO_READING, u[..2]) == Reading(Some(10500.0), Some(t2));
    assert Replay(TotalIncreasing, NO_READING, u[..3]) == Reading(Some(10500.0), Some(t2));
  }

  /**
   * An ERedisSensor entity, built from one catalog row (the source passes the row's key and its
   * configuration): its identity is fixed at construction, its reading changes.
   */
  class Sensor {
    const cpe: string
    const entry: Entry
    const configEntryId: string
    const sensorKey: string := Key(entry)
    const stateClass: StateClass := ClassOf(entry)
    var nativeValue: Option<real>
    var lastUpdate: Option<Instant>

    constructor (cpe: string, entry: Entry, configEntryId: string)
      ensures this.cpe == cpe && this.entry == entry && this.configEntryId == configEntryId
      ensures nativeValue == None && lastUpdate == None
    {
      this.cpe := cpe;
      this.entry := entry;
      this.configEntryId := configEntryId;
      nativeValue := None;
      lastUpdate := None;
    }

    /** The entity's name, unit, device class and icon come from its catalog row. */
    function Configuration(): (c: SensorConfig)
      ensures c.key == sensorKey && c.stateClass == stateClass
    {
      Config(entry)
    }

    /** The unique id the entity registry persists the sensor under. */
    function UniqueId(): string {
      SensorUniqueId(cpe, sensorKey)
    }

    function State(): Reading
      reads this
    {
      Reading(nativeValue, lastUpdate)
    }

    /**
     * `_handle_update`: `parsed` is what parsing `timestamp` (with its space turned into a `T`)
     * gives, `now` is the host's clock.
     */
    method HandleUpdate(value: real, timestamp: Option<string>, parsed: Option<Instant>, now: Instant)
      modifies this
      ensures State() == Apply(stateClass, old(State()), value, UpdateTime(timestamp, parsed, now))
    {
      if stateClass == TotalIncreasing {
        if nativeValue.Some? {
          var current := nativeValue.value;
          if value < current {
            return;  // a decrease is discarded
          }
        }
      }
      nativeValue := Some(value);
      if timestamp.Some? && timestamp.value != "" {
        if parsed.Some? {
          lastUpdate := Some(parsed.value);
        } else {
          lastUpdate := Some(now);
        }
      } else {
        lastUpdate := Some(now);
      }
    }
  }

  /** A sensor stored under `k` in the entities dictionary of config entry `entryId`. */
  predicate Stored(s: Sensor, k: string, entryId: string) {
    k == EntityKey(s.cpe, s.sensorKey) && s.configEntryId == entryId
  }

  /** What the sensor restore scan makes of one registry entry: the (CPE, row) it rebuilds, if any. */
  function RestoreTarget(e: RegistryEntry, entryId: string): Option<(string, Entry)> {
    if !(e.configEntryId == entryId && e.domain == "sensor" && e.platform == DOMAIN) then None
    else ParseSensorUniqueId(e.uniqueId)
  }

  /** The (CPE, row) pairs rebuilt from a registry, in registry order. */
  function RestoredSensors(registry: seq<RegistryEntry>, entryId: string): seq<(string, Entry)> {
    if registry == [] then []
    else
      var rest := RestoredSensors(registry[..|registry| - 1], entryId);
      match RestoreTarget(registry[|registry| - 1], entryId)
      case None => rest
      case Some(p) => rest + [p]
  }

  /** The (CPE, row) of each sensor of a batch. */
  function Pairs(sensors: seq<Sensor>): (r: seq<(string, Entry)>)
    ensures |r| == |sensors|
    ensures forall i :: 0 <= i < |sensors| ==> r[i] == (sensors[i].cpe, sensors[i].entry)
  {
    if sensors == [] then []
    else Pairs(sensors[..|sensors| - 1]) + [(sensors[|sensors| - 1].cpe, sensors[|sensors| - 1].entry)]
  }

  /** The sensors of a batch by entity key, as storing them one after another leaves them. */
  function Stash(sensors: seq<Sensor>): map<string, Sensor> {
    if sensors == [] then map[]
    else
      var last := sensors[|sensors| - 1];
      Stash(sensors[..|sensors| - 1])[EntityKey(last.cpe, last.sensorKey) := last]
  }

  lemma StashAppend(m: map<string, Sensor>, sensors: seq<Sensor>, s: Sensor)
    ensures m + Stash(sensors + [s]) == (m + Stash(sensors))[EntityKey(s.cpe, s.sensorKey) := s]
  {
    TakeSnoc(sensors, s);
  }

  /** Every sensor of a batch is stored under its own entity key. */
  lemma {:induction false} StashStored(sensors: seq<Sensor>, entryId: string)
    requires forall s :: s in sensors ==> s.configEntryId == entryId
    ensures forall k :: k in Stash(sensors) ==> Stored(Stash(sensors)[k], k, entryId)
    ensures forall k :: k in Stash(sensors) ==> Stash(sensors)[k] in sensors
  {
    if sensors != [] {
      StashStored(sensors[..|sensors| - 1], entryId);
    }
  }

  lemma RestoredSensorsStep(registry: seq<RegistryEntry>, entryId: string, n: nat)
    requires n < |registry|
    ensures RestoreTarget(registry[n], entryId).None? ==>
      RestoredSensors(registry[..n + 1], entryId) == RestoredSensors(registry[..n], entryId)
    ensures RestoreTarget(registry[n], entryId).Some? ==>
      RestoredSensors(registry[..n + 1], entryId) ==
      RestoredSensors(registry[..n], entryId) + [RestoreTarget(registry[n], entryId).value]
  {
    TakeTake(registry, n, n + 1);
  }

  /**
   * An entry is skipped exactly when it belongs to another config entry, another entity domain or
   * another integration, lacks the domain prefix, ends in no sensor key, or leaves an empty CPE.
   */
  lemma RestoreTargetNone(e: RegistryEntry, entryId: string)
    ensures RestoreTarget(e, entryId).None? <==>
      || e.configEntryId != entryId || e.domain != "sensor" || e.platform != DOMAIN
      || !StartsWith(e.uniqueId, PREFIX)
      || (forall r :: !EndsWith(e.uniqueId[|PREFIX|..], "_" + Key(r)))
      || (var rem := e.uniqueId[|PREFIX|..];
          var m := MatchKey(rem, ENTRIES);
          m.Some? && rem[..|rem| - |Key(m.value)| - 1] == "")
  {
    if e.configEntryId == entryId && e.domain == "sensor" && e.platform == DOMAIN && StartsWith(e.uniqueId, PREFIX) {
      var rem := e.uniqueId[|PREFIX|..];
      if MatchKey(rem, ENTRIES).None? {
        forall r ensures !EndsWith(rem, "_" + Key(r)) {
          assert ENTRIES[Position(r)] == r;
        }
      }
    }
  }

  /** A registry entry is restored as (cpe, row) exactly when it is that sensor's own entry. */
  lemma RestoreTargetSome(e: RegistryEntry, entryId: string, cpe: string, r: Entry)
    ensures RestoreTarget(e, entryId) == Some((cpe, r)) <==>
      && e.configEntryId == entryId && e.domain == "sensor" && e.platform == DOMAIN
      && e.uniqueId == SensorUniqueId(cpe, Key(r)) && cpe != ""
  {
    SensorUniqueIdParse(e.uniqueId, cpe, r);
  }

  /** A pair is restored exactly when some registry entry parses to it. */
  lemma {:induction false} RestoredSensorsMembers(registry: seq<RegistryEntry>, entryId: string, p: (string, Entry))
    ensures p in RestoredSensors(registry, entryId) <==>
            exists e :: e in registry && RestoreTarget(e, entryId) == Some(p)
  {
    if registry != [] {
      var init := registry[..|registry| - 1];
      RestoredSensorsMembers(init, entryId, p);
      forall e ensures e in registry <==> e in init || e == registry[|registry| - 1] {
        InInitOrLast(registry, e);
      }
      if p in RestoredSensors(registry, entryId) && p !in RestoredSensors(init, entryId) {
        assert RestoreTarget(registry[|registry| - 1], entryId) == Some(p);
      }
    }
  }

  /** The registry entries the sensor platform leaves behind for a list of created sensors. */
  function Registered(pairs: seq<(string, Entry)>, entryId: string): seq<RegistryEntry> {
    if pairs == [] then []
    else
      var last := pairs[|pairs| - 1];
      Registered(pairs[..|pairs| - 1], entryId) +
        [RegistryEntry(entryId, "sensor", DOMAIN, SensorUniqueId(last.0, Key(last.1)))]
  }

  /** A sensor created for an empty CPE leaves a registry entry that the restore scan skips. */
  lemma EmptyCpeSensorNotRestored(e: Entry, entryId: string)
    ensures RestoredSensors(Registered([("", e)], entryId), entryId) == []
  {
    var entry := RegistryEntry(entryId, "sensor", DOMAIN, SensorUniqueId("", Key(e)));
    assert Registered([("", e)], entryId) == [entry];
    EmptyCpeSensorUniqueIdRejected(e);
    assert RestoreTarget(entry, entryId).None?;
    assert [entry][..0] == [];
  }

  /** After a restart, the registry entries of the created sensors rebuild exactly those sensors. */
  lemma {:induction false} RestoreRecoversCreated(pairs: seq<(string, Entry)>, entryId: string)
    requires forall i :: 0 <= i < |pairs| ==> pairs[i].0 != ""
    ensures RestoredSensors(Registered(pairs, entryId), entryId) == pairs
  {
    if pairs != [] {
      var init := pairs[..|pairs| - 1];
      var last := pairs[|pairs| - 1];
      RestoreRecoversCreated(init, entryId);
      var reg := Registered(pairs, entryId);
      TakeSnoc(Registered(init, entryId), RegistryEntry(entryId, "sensor", DOMAIN, SensorUniqueId(last.0, Key(last.1))));
      SensorUniqueIdRoundTrip(last.0, last.1);
      InitLast(pairs);
    }
  }

  /** The first-match suffix scan over the catalog (the first inner loop of the sensor restore). */
  method MatchSensorKey(remainder: string) returns (matched: Option<Entry>, cpe: string)
    ensures matched == MatchKey(remainder, ENTRIES)
    ensures matched.Some? ==> cpe == remainder[..|remainder| - |Key(matched.value)| - 1]
    ensures matched.None? ==> cpe == ""
  {
    matched, cpe := None, "";
    var i := 0;
    while i < |ENTRIES|
      invariant 0 <= i <= |ENTRIES|
      invariant matched == None && cpe == ""
      invariant forall j :: 0 <= j < i ==> !EndsWith(remainder, "_" + Key(ENTRIES[j]))
    {
      var key := Key(ENTRIES[i]);
      if EndsWith(remainder, "_" + key) {
        MatchKeyAt(remainder, ENTRIES, i);
        matched := Some(ENTRIES[i]);
        cpe := remainder[..|remainder| - |key| - 1];
        return;
      }
      i := i + 1;
    }
  }

  /** The scan for the row carrying a sensor key (the second inner loop of the sensor restore). */
  method FindConfig(key: string) returns (found: Option<Entry>)
    ensures found == FindKey(ENTRIES, key)
  {
    found := None;
    var i := 0;
    while i < |ENTRIES|
      invariant 0 <= i <= |ENTRIES|
      invariant found == None
      invariant forall j :: 0 <= j < i ==> Key(ENTRIES[j]) != key
    {
      if Key(ENTRIES[i]) == key {
        FindKeyAt(ENTRIES, key, i);
        found := Some(ENTRIES[i]);
        return;
      }
      i := i + 1;
    }
    FindKeyFound(ENTRIES, key);
  }

  /** The filters and parse the sensor restore applies to one registry entry. */
  method ParseRegistryEntry(e: RegistryEntry, entryId: string) returns (target: Option<(string, Entry)>)
    ensures target == RestoreTarget(e, entryId)
  {
    target := None;
    if !(e.configEntryId == entryId && e.domain == "sensor" && e.platform == DOMAIN) {
      return;
    }
    if !StartsWith(e.uniqueId, PREFIX) {
      return;
    }
    var remainder := e.uniqueId[|PREFIX|..];
    var matched, cpe := MatchSensorKey(remainder);
    if matched.Some? && cpe != "" {
      var found := FindConfig(Key(matched.value));
      FindKeyOfKey(matched.value);
      if found.Some? {
        target := Some((cpe, found.value));
      }
    }
  }

  /** The readings after making sure a sensor exists under `k`. */
  function EnsureKey(view: map<string, Reading>, k: string): map<string, Reading> {
    if k in view then view else view[k := NO_READING]
  }

  /** Whether the sensor pass of the webhook handles a field: not `cpe`, and in the catalog. */
  predicate Mapped(name: string) {
    name != "cpe" && Lookup(name).Some?
  }

  /** The entity key of the sensor a mapped field feeds. */
  function FeedKey(cpe: string, name: string): string
    requires Lookup(name).Some?
  {
    EntityKey(cpe, Key(Lookup(name).value))
  }

  /** The entity key of the sensor a payload member named `name` feeds, if it feeds one. */
  function Feed(cpe: string, name: string): Option<string> {
    if Mapped(name) then Some(FeedKey(cpe, name)) else None
  }

  /** What each member of a payload feeds, in order. */
  function Feeds(cpe: string, readings: seq<(string, real)>): seq<Option<string>> {
    seq(|readings|, j requires 0 <= j < |readings| => Feed(cpe, readings[j].0))
  }

  /** The keys present in a list of optional keys. */
  function KeySet(keys: seq<Option<string>>): set<string> {
    if keys == [] then {}
    else
      var n := |keys| - 1;
      KeySet(keys[..n]) + (if keys[n].Some? then {keys[n].value} else {})
  }

  /** The readings after making sure a sensor exists under each present key, one after another. */
  function EnsureAll(view: map<string, Reading>, keys: seq<Option<string>>): (r: map<string, Reading>)
    ensures r.Keys == view.Keys + KeySet(keys)
    ensures forall k :: k in view ==> r[k] == view[k]
    ensures forall k :: k in r && k !in view ==> r[k] == NO_READING
  {
    if keys == [] then view
    else
      var n := |keys| - 1;
      var rest := EnsureAll(view, keys[..n]);
      if keys[n].Some? then EnsureKey(rest, keys[n].value) else rest
  }

  /** Entity keys of the mapped fields of a payload. */
  function MappedKeys(cpe: string, readings: seq<(string, real)>): set<string> {
    KeySet(Feeds(cpe, readings))
  }

  /** The readings after `async_ensure_sensors_for_data` has run over a payload's fields. */
  function EnsureFields(view: map<string, Reading>, cpe: string, readings: seq<(string, real)>): (r: map<string, Reading>)
    ensures r.Keys == view.Keys + MappedKeys(cpe, readings)
    ensures forall k :: k in view ==> r[k] == view[k]
    ensures forall k :: k in r && k !in view ==> r[k] == NO_READING
  {
    EnsureAll(view, Feeds(cpe, readings))
  }

  /** The keys of a list that are neither in `existing` nor earlier in the list, in the order they first appear. */
  function NewKeys(keys: seq<Option<string>>, existing: set<string>): seq<string> {
    if keys == [] then []
    else
      var n := |keys| - 1;
      NewKeys(keys[..n], existing) +
        (if keys[n].Some? && keys[n].value !in existing && keys[n].value !in KeySet(keys[..n])
         then [keys[n].value] else [])
  }

  /** The entity keys of the sensors a payload's fields create, given the keys that already exist. */
  function CreatedKeys(cpe: string, readings: seq<(string, real)>, existing: set<string>): seq<string> {
    NewKeys(Feeds(cpe, readings), existing)
  }

  /** Every key present in the list and not in `existing` is new, and each exactly once. */
  lemma {:induction false} NewKeysExactly(keys: seq<Option<string>>, existing: set<string>)
    ensures forall k :: k in NewKeys(keys, existing) <==> k in KeySet(keys) && k !in existing
    ensures forall a, b :: 0 <= a < b < |NewKeys(keys, existing)| ==> NewKeys(keys, existing)[a] != NewKeys(keys, existing)[b]
  {
    if keys != [] {
      var n := |keys| - 1;
      NewKeysExactly(keys[..n], existing);
    }
  }

  /** The members of a payload's prefix feed what the same members of the payload feed. */
  lemma FeedsTake(cpe: string, readings: seq<(string, real)>, i: nat)
    requires i < |readings|
    ensures Feeds(cpe, readings[..i + 1])[..i] == Feeds(cpe, readings[..i])
    ensures Feeds(cpe, readings[..i + 1])[i] == Feed(cpe, readings[i].0)
  {
    assert Feeds(cpe, readings[..i + 1])[..i] == Feeds(cpe, readings[..i]);
  }

  lemma MappedKeysStep(cpe: string, readings: seq<(string, real)>, i: nat)
    requires i < |readings|
    ensures !Mapped(readings[i].0) ==> MappedKeys(cpe, readings[..i + 1]) == MappedKeys(cpe, readings[..i])
    ensures Mapped(readings[i].0) ==>
      MappedKeys(cpe, readings[..i + 1]) == MappedKeys(cpe, readings[..i]) + {FeedKey(cpe, readings[i].0)}
  {
    FeedsTake(cpe, readings, i);
    var keys := Feeds(cpe, readings[..i + 1]);
    assert KeySet(keys) == KeySet(keys[..i]) + (if keys[i].Some? then {keys[i].value} else {});
  }

  lemma EnsureFieldsStep(view: map<string, Reading>, cpe: string, readings: seq<(string, real)>, i: nat)
    requires i < |readings|
    ensures !Mapped(readings[i].0) ==>
      EnsureFields(view, cpe, readings[..i + 1]) == EnsureFields(view, cpe, readings[..i])
    ensures Mapped(readings[i].0) ==>
      EnsureFields(view, cpe, readings[..i + 1]) ==
      EnsureKey(EnsureFields(view, cpe, readings[..i]), FeedKey(cpe, readings[i].0))
  {
    FeedsTake(cpe, readings, i);
    var keys := Feeds(cpe, readings[..i + 1]);
    if Mapped(readings[i].0) {
      assert EnsureAll(view, keys) == EnsureKey(EnsureAll(view, keys[..i]), FeedKey(cpe, readings[i].0));
    } else {
      assert EnsureAll(view, keys) == EnsureAll(view, keys[..i]);
    }
  }

  lemma CreatedKeysStep(cpe: string, readings: seq<(string, real)>, i: nat, existing: set<string>)
    requires i < |readings|
    ensures !Mapped(readings[i].0) ==> CreatedKeys(cpe, readings[..i + 1], existing) == CreatedKeys(cpe, readings[..i], existing)
    ensures Mapped(readings[i].0) ==>
      var k := FeedKey(cpe, readings[i].0);
      CreatedKeys(cpe, readings[..i + 1], existing) ==
        CreatedKeys(cpe, readings[..i], existing) +
          (if k !in existing && k !in MappedKeys(cpe, readings[..i]) then [k] else [])
  {
    FeedsTake(cpe, readings, i);
    var keys := Feeds(cpe, readings[..i + 1]);
    assert NewKeys(keys, existing) ==
      NewKeys(keys[..i], existing) +
        (if keys[i].Some? && keys[i].value !in existing && keys[i].value !in KeySet(keys[..i]) then [keys[i].value] else []);
  }

  /** Taking one more field of a payload keeps its mapped keys within `keys` when that field's key is in it. */
  lemma MappedKeysWithin(cpe: string, readings: seq<(string, real)>, i: nat, keys: set<string>)
    requires i < |readings| && MappedKeys(cpe, readings[..i]) <= keys
    requires Mapped(readings[i].0) ==> FeedKey(cpe, readings[i].0) in keys
    ensures MappedKeys(cpe, readings[..i + 1]) <= keys
  {
    MappedKeysStep(cpe, readings, i);
  }

  /** Every key present in a list is in its key set. */
  lemma {:induction false} KeySetMember(keys: seq<Option<string>>, i: nat)
    requires i < |keys| && keys[i].Some?
    ensures keys[i].value in KeySet(keys)
  {
    var n := |keys| - 1;
    if i < n {
      assert keys[..n][i] == keys[i];
      KeySetMember(keys[..n], i);
    }
  }

  /** The key of every mapped field of a payload is among its mapped keys. */
  lemma MappedKeysMember(cpe: string, readings: seq<(string, real)>, i: nat)
    requires i < |readings| && Mapped(readings[i].0)
    ensures FeedKey(cpe, readings[i].0) in MappedKeys(cpe, readings)
  {
    KeySetMember(Feeds(cpe, readings), i);
  }

  /** The `cpe` guard is redundant: `cpe` is not a catalog field. */
  lemma CpeIsNotAField()
    ensures Lookup("cpe").None?
  {
    LookupNone("cpe");
  }

  /** A row's own field name is mapped, and looks that row up. */
  lemma FieldNameFeeds(e: Entry)
    ensures Mapped(FieldName(e)) && Lookup(FieldName(e)) == Some(e)
  {
    LookupFieldName(e);
    CpeIsNotAField();
  }

  /** The readings of the sensors of an entity dictionary, by key. */
  ghost function Readings(m: map<string, Sensor>): map<string, Reading>
    reads m.Values
  {
    map k | k in m :: m[k].State()
  }

  lemma ReadingsInsert(m: map<string, Sensor>, k: string, s: Sensor)
    ensures Readings(m[k := s]) == Readings(m)[k := s.State()]
  {
  }

  /** One `add_entities` call per key, each with a batch of the one sensor stored under that key. */
  function Batches(cb: CallbackId, keys: seq<string>, m: map<string, Sensor>): seq<(CallbackId, seq<Sensor>)> {
    seq(|keys|, j requires 0 <= j < |keys| => (cb, if keys[j] in m then [m[keys[j]]] else []))
  }

  lemma BatchesSnoc(cb: CallbackId, keys: seq<string>, m: map<string, Sensor>, k: string, s: Sensor)
    requires k !in keys
    ensures Batches(cb, keys + [k], m[k := s]) == Batches(cb, keys, m) + [(cb, [s])]
  {
    assert forall j :: 0 <= j < |keys| ==> (keys + [k])[j] == keys[j] != k;
  }

  /**
   * One field's step of the `add_entities` log: a field that creates no sensor leaves the log, and a
   * field that creates one appends the call for it, which is the call `CreatedKeys` adds.
   */
  lemma CreatedBatchesStep(cb: CallbackId, cpe: string, readings: seq<(string, real)>, i: nat, existing: set<string>,
                           a0: seq<(CallbackId, seq<Sensor>)>, m: map<string, Sensor>, m': map<string, Sensor>,
                           calls: seq<(CallbackId, seq<Sensor>)>, calls': seq<(CallbackId, seq<Sensor>)>)
    requires i < |readings|
    requires m.Keys == existing + MappedKeys(cpe, readings[..i])
    requires calls == a0 + Batches(cb, CreatedKeys(cpe, readings[..i], existing), m)
    requires !Mapped(readings[i].0) || FeedKey(cpe, readings[i].0) in m ==> m' == m && calls' == calls
    requires Mapped(readings[i].0) && FeedKey(cpe, readings[i].0) !in m ==>
      var k := FeedKey(cpe, readings[i].0);
      k in m' && m' == m[k := m'[k]] && calls' == calls + [(cb, [m'[k]])]
    ensures m'.Keys == existing + MappedKeys(cpe, readings[..i + 1])
    ensures calls' == a0 + Batches(cb, CreatedKeys(cpe, readings[..i + 1], existing), m')
  {
    MappedKeysStep(cpe, readings, i);
    CreatedKeysStep(cpe, readings, i, existing);
    if Mapped(readings[i].0) && FeedKey(cpe, readings[i].0) !in m {
      var k := FeedKey(cpe, readings[i].0);
      NewKeysExactly(Feeds(cpe, readings[..i]), existing);
      BatchesSnoc(cb, CreatedKeys(cpe, readings[..i], existing), m, k, m'[k]);
    }
  }

  /**
   * Once a payload's sensors are ensured, its `add_entities` log holds one call per key that was
   * missing, each with the one sensor now stored under that key, and no call for any other key.
   */
  lemma CreatedCallsExactly(cb: CallbackId, cpe: string, readings: seq<(string, real)>, existing: set<string>,
                            m: map<string, Sensor>)
    requires m.Keys == existing + MappedKeys(cpe, readings)
    ensures var keys := CreatedKeys(cpe, readings, existing);
      && |Batches(cb, keys, m)| == |keys|
      && (forall j :: 0 <= j < |keys| ==> keys[j] in m && Batches(cb, keys, m)[j] == (cb, [m[keys[j]]]))
      && (forall k :: k in keys <==> k in MappedKeys(cpe, readings) && k !in existing)
      && (forall a, b :: 0 <= a < b < |keys| ==> keys[a] != keys[b])
  {
    NewKeysExactly(Feeds(cpe, readings), existing);
  }

  /** The per-entry state of the sensor platform: `entities` and its `add_entities` callback. */
  class SensorPlatform {
    const entryId: string
    var addEntities: Option<CallbackId>
    var entities: map<string, Sensor>
    /** Every call of an `add_entities` callback, with the batch of entities it was given. */
    var addCalls: seq<(CallbackId, seq<Sensor>)>

    ghost predicate Valid()
      reads this
    {
      forall k :: k in entities ==> Stored(entities[k], k, entryId)
    }

    /** The readings of all stored sensors, by entity key. */
    ghost function View(): map<string, Reading>
      reads this, entities.Values
    {
      Readings(entities)
    }

    /** The shape the integration's setup gives the per-entry data: no sensors, no callback yet. */
    constructor (entryId: string)
      ensures Valid() && this.entryId == entryId
      ensures addEntities == None && entities == map[] && addCalls == []
    {
      this.entryId := entryId;
      addEntities := None;
      entities := map[];
      addCalls := [];
    }

    /** `async_setup_entry`: store the callback, reset `entities`, then restore from the registry. */
    method SetupEntry(cb: CallbackId, registry: seq<RegistryEntry>) returns (restored: seq<Sensor>)
      modifies this
      ensures Valid() && addEntities == Some(cb)
      ensures entities == Stash(restored) && Pairs(restored) == RestoredSensors(registry, entryId)
      ensures forall s :: s in restored ==> fresh(s) && s.State() == NO_READING
      ensures addCalls == old(addCalls) + (if restored == [] then [] else [(cb, restored)])
    {
      addEntities := Some(cb);
      entities := map[];
      restored := RestoreExisting(registry, cb);
    }

    /** One pass of the restore loop: rebuild and store the sensor a registry entry names, if any. */
    method RestoreEntry(e: RegistryEntry) returns (sensor: Option<Sensor>)
      requires Valid()
      modifies this
      ensures Valid() && addEntities == old(addEntities) && addCalls == old(addCalls)
      ensures sensor.None? <==> RestoreTarget(e, entryId).None?
      ensures sensor.None? ==> entities == old(entities)
      ensures sensor.Some? ==>
        && fresh(sensor.value) && sensor.value.State() == NO_READING
        && sensor.value.configEntryId == entryId
        && RestoreTarget(e, entryId) == Some((sensor.value.cpe, sensor.value.entry))
        && entities == old(entities)[EntityKey(sensor.value.cpe, sensor.value.sensorKey) := sensor.value]
    {
      var target := ParseRegistryEntry(e, entryId);
      if target.None? {
        return None;
      }
      var (cpe, row) := target.value;
      var s := new Sensor(cpe, row, entryId);
      entities := entities[EntityKey(cpe, s.sensorKey) := s];
      sensor := Some(s);
    }

    /** One pass of the restore loop: the sensors rebuilt so far, and the dictionary, after entry `n`. */
    method RestoreInto(registry: seq<RegistryEntry>, n: nat, toRestore: seq<Sensor>, ghost e0: map<string, Sensor>)
      returns (restored: seq<Sensor>)
      requires Valid() && n < |registry|
      requires Pairs(toRestore) == RestoredSensors(registry[..n], entryId)
      requires forall s :: s in toRestore ==> s.State() == NO_READING && s.configEntryId == entryId
      requires entities == e0 + Stash(toRestore)
      modifies this
      ensures Valid() && addEntities == old(addEntities) && addCalls == old(addCalls)
      ensures Pairs(restored) == RestoredSensors(registry[..n + 1], entryId)
      ensures forall s :: s in restored ==> s.State() == NO_READING && s.configEntryId == entryId
      ensures forall s :: s in restored ==> s in toRestore || fresh(s)
      ensures entities == e0 + Stash(restored)
    {
      var sensor := RestoreEntry(registry[n]);
      RestoredSensorsStep(registry, entryId, n);
      restored := toRestore;
      if sensor.Some? {
        var s := sensor.value;
        StashAppend(e0, toRestore, s);
        TakeSnoc(toRestore, s);
        restored := toRestore + [s];
      }
    }

    /** `async_restore_existing_entities` */
    method RestoreExisting(registry: seq<RegistryEntry>, cb: CallbackId) returns (restored: seq<Sensor>)
      requires Valid()
      modifies this
      ensures Valid() && addEntities == old(addEntities)
      ensures Pairs(restored) == RestoredSensors(registry, entryId)
      ensures forall s :: s in restored ==> fresh(s) && s.State() == NO_READING && s.configEntryId == entryId
      ensures entities == old(entities) + Stash(restored)
      ensures addCalls == old(addCalls) + (if restored == [] then [] else [(cb, restored)])
    {
      ghost var e0 := entities;
      var toRestore: seq<Sensor> := [];
      var n := 0;
      while n < |registry|
        invariant 0 <= n <= |registry|
        invariant Valid() && addEntities == old(addEntities) && addCalls == old(addCalls)
        invariant Pairs(toRestore) == RestoredSensors(registry[..n], entryId)
        invariant forall s :: s in toRestore ==> fresh(s) && s.State() == NO_READING && s.configEntryId == entryId
        invariant entities == e0 + Stash(toRestore)
      {
        toRestore := RestoreInto(registry, n, toRestore, e0);
        n := n + 1;
      }
      TakeAll(registry);
      if |toRestore| > 0 {
        addCalls := addCalls + [(cb, toRestore)];
      }
      restored := toRestore;
    }

    /**
     * The part of `async_create_sensor_for_cpe` after the catalog lookup, for the sensor of `row`:
     * nothing happens when its key is taken, and `ok` is false where the source raises (no
     * callback to add entities with yet).
     */
    method CreateSensor(cpe: string, row: Entry) returns (ok: bool)
      requires Valid()
      modifies this
      ensures Valid() && addEntities == old(addEntities)
      ensures var k := EntityKey(cpe, Key(row));
        if k in old(entities) || old(addEntities).None? then
          && (ok <==> k in old(entities))
          && entities == old(entities) && addCalls == old(addCalls)
        else
          && ok && k in entities && fresh(entities[k])
          && entities == old(entities)[k := entities[k]]
          && entities[k].cpe == cpe && entities[k].entry == row
          && addCalls == old(addCalls) + [(old(addEntities).value, [entities[k]])]
      ensures ok ==> View() == EnsureKey(old(View()), EntityKey(cpe, Key(row)))
      ensures forall k :: k in entities ==> (k in old(entities) && entities[k] == old(entities)[k]) || fresh(entities[k])
    {
      var entityKey := EntityKey(cpe, Key(row));
      if entityKey in entities {
        return true;  // already exists
      }
      ghost var before, r0 := entities, Readings(entities);
      var sensor := new Sensor(cpe, row, entryId);
      if addEntities.None? {
        return false;  // calling the missing callback raises
      }
      addCalls := addCalls + [(addEntities.value, [sensor])];
      entities := entities[entityKey := sensor];
      assert Readings(before) == r0;
      ReadingsInsert(before, entityKey, sensor);
      assert View() == r0[entityKey := NO_READING];
      ok := true;
    }

    /** `async_create_sensor_for_cpe`: fields outside the catalog are skipped. */
    method CreateSensorForCpe(cpe: string, field: string) returns (ok: bool)
      requires Valid()
      modifies this
      ensures Valid() && addEntities == old(addEntities)
      ensures Lookup(field).None? ==> ok && entities == old(entities) && addCalls == old(addCalls)
      ensures Lookup(field).Some? ==>
        var k := FeedKey(cpe, field);
        if k in old(entities) || old(addEntities).None? then
          && (ok <==> k in old(entities))
          && entities == old(entities) && addCalls == old(addCalls)
        else
          && ok && k in entities && fresh(entities[k])
          && entities == old(entities)[k := entities[k]]
          && entities[k].cpe == cpe && entities[k].entry == Lookup(field).value
          && addCalls == old(addCalls) + [(old(addEntities).value, [entities[k]])]
      ensures ok ==> View() == if Lookup(field).Some? then EnsureKey(old(View()), FeedKey(cpe, field)) else old(View())
      ensures forall k :: k in entities ==> (k in old(entities) && entities[k] == old(entities)[k]) || fresh(entities[k])
    {
      var row := Lookup(field);
      if row.None? {
        return true;  // not in the mapping
      }
      ok := CreateSensor(cpe, row.value);
    }

    /**
     * One pass of the loop of `async_ensure_sensors_for_data`, over the `i`-th field of a payload,
     * given what the passes before it established (`v0`, `e0` and `cb0` are the readings, the
     * dictionary and the callback before the first pass).
     */
    method EnsureFieldAt(cpe: string, readings: seq<(string, real)>, i: nat,
                         ghost v0: map<string, Reading>, ghost e0: map<string, Sensor>, ghost cb0: Option<CallbackId>,
                         ghost a0: seq<(CallbackId, seq<Sensor>)>)
      returns (ok: bool)
      requires Valid() && i < |readings| && addEntities == cb0
      requires cb0.None? ==> MappedKeys(cpe, readings[..i]) <= e0.Keys && entities == e0
      requires cb0.Some? ==>
        && entities.Keys == e0.Keys + MappedKeys(cpe, readings[..i])
        && addCalls == a0 + Batches(cb0.value, CreatedKeys(cpe, readings[..i], e0.Keys), entities)
      requires View() == EnsureFields(v0, cpe, readings[..i])
      modifies this
      ensures Valid() && addEntities == cb0
      ensures !ok ==> cb0.None? && !(MappedKeys(cpe, readings) <= e0.Keys) && entities == old(entities) && addCalls == old(addCalls)
      ensures ok && cb0.None? ==> MappedKeys(cpe, readings[..i + 1]) <= e0.Keys
      ensures cb0.None? ==> entities == old(entities) && addCalls == old(addCalls)
      ensures cb0.Some? ==>
        && entities.Keys == e0.Keys + MappedKeys(cpe, readings[..i + 1])
        && addCalls == a0 + Batches(cb0.value, CreatedKeys(cpe, readings[..i + 1], e0.Keys), entities)
      ensures ok ==> View() == EnsureFields(v0, cpe, readings[..i + 1])
      ensures forall k :: k in entities ==> (k in old(entities) && entities[k] == old(entities)[k]) || fresh(entities[k])
    {
      EnsureFieldsStep(v0, cpe, readings, i);
      ghost var m, calls := entities, addCalls;
      ok := true;
      var field := readings[i].0;
      if field != "cpe" && Lookup(field).Some? {
        ok := CreateSensorForCpe(cpe, field);
        if !ok {
          MappedKeysMember(cpe, readings, i);
          return;
        }
      }
      if cb0.Some? {
        CreatedBatchesStep(cb0.value, cpe, readings, i, e0.Keys, a0, m, entities, calls, addCalls);
      } else {
        MappedKeysWithin(cpe, readings, i, e0.Keys);
      }
    }

    /** `async_ensure_sensors_for_data`; `ok` is false where a creation raises. */
    method EnsureSensorsForData(cpe: string, readings: seq<(string, real)>) returns (ok: bool)
      requires Valid()
      modifies this
      ensures Valid() && addEntities == old(addEntities)
      ensures ok <==> old(addEntities).Some? || MappedKeys(cpe, readings) <= old(entities.Keys)
      ensures old(addEntities).None? ==> entities == old(entities) && addCalls == old(addCalls)
      ensures old(addEntities).Some? ==>
        && entities.Keys == old(entities.Keys) + MappedKeys(cpe, readings)
        && addCalls == old(addCalls) + Batches(old(addEntities).value, CreatedKeys(cpe, readings, old(entities.Keys)), entities)
      ensures ok ==> View() == EnsureFields(old(View()), cpe, readings)
      ensures !ok ==> View() == old(View())
      ensures forall k :: k in entities ==> (k in old(entities) && entities[k] == old(entities)[k]) || fresh(entities[k])
    {
      ok := true;
      ghost var v0, e0, cb0, a0 := View(), entities, addEntities, addCalls;
      assert CreatedKeys(cpe, readings[..0], e0.Keys) == [];
      var i := 0;
      while i < |readings| && ok
        invariant 0 <= i <= |readings|
        invariant Valid() && addEntities == cb0
        invariant cb0.None? ==> MappedKeys(cpe, readings[..i]) <= e0.Keys && entities == e0 && addCalls == a0
        invariant cb0.Some? ==>
          && ok
          && entities.Keys == e0.Keys + MappedKeys(cpe, readings[..i])
          && addCalls == a0 + Batches(cb0.value, CreatedKeys(cpe, readings[..i], e0.Keys), entities)
        invariant !ok ==> !(MappedKeys(cpe, readings) <= e0.Keys)
        invariant View() == EnsureFields(v0, cpe, readings[..i])
        invariant forall k :: k in entities ==> (k in e0 && entities[k] == e0[k]) || fresh(entities[k])
        decreases |readings| - i, if ok then 1 else 0
      {
        ok := EnsureFieldAt(cpe, readings, i, v0, e0, cb0, a0);
        if ok {
          i := i + 1;
        }
      }
      TakeAll(readings);
    }

    /**
     * What the dispatcher does with an update sent to `UpdateSignal(cpe, Key(row))`: the sensor
     * that subscribed to that signal when it was added (the one stored under
     * `EntityKey(cpe, Key(row))`) runs `_handle_update`.
     */
    method DeliverUpdate(cpe: string, row: Entry, value: real, timestamp: Option<string>,
                         parsed: Option<Instant>, now: Instant)
      requires Valid()
      modifies entities.Values
      ensures Valid() && entities == old(entities)
      ensures var k := EntityKey(cpe, Key(row));
        View() == if k in entities
                  then old(View())[k := Apply(ClassOf(row), old(View())[k], value, UpdateTime(timestamp, parsed, now))]
                  else old(View())
    {
      var k := EntityKey(cpe, Key(row));
      if k in entities {
        var sensor := entities[k];
        EntityKeyInjective(sensor.cpe, sensor.entry, cpe, row);
        ghost var before := View();
        sensor.HandleUpdate(value, timestamp, parsed, now);
        assert View() == before[k := sensor.State()] by {
          assert forall k' :: k' in entities && k' != k ==> entities[k'] != sensor;
        }
      }
    }
  }
}
