/**
 * The webhook handler: it validates a posted payload, ensures the meter's device (and, on its
 * creation, the breaker-limit and overload entities), materialises the sensors of the payload's
 * catalog fields and dispatches one update per catalog field to the sensor listening for it, then
 * answers with an HTTP status and text.
 */
module Webhook {
  import opened Wrappers
  import opened Strings
  import opened Host
  import opened Catalog
  import opened Identifiers
  import opened Sensors
  import opened Numbers
  import opened BinarySensors

  /**
   * A decoded JSON object: its `cpe` and `clock` members, when present, and its other members
   * with numeric values, in document order.
   */
  datatype Body = Body(cpe: Option<string>, readings: seq<(string, real)>, clock: Option<string>)

  datatype Response = Response(status: int, text: string)

  /** One `async_dispatcher_send`: the signal, the posted value and the payload's clock. */
  datatype Dispatch = Dispatch(signal: string, value: real, clock: Option<string>)

  const OK: Response := Response(200, "OK")
  const INVALID_JSON: Response := Response(400, "Invalid JSON")
  const MISSING_CPE: Response := Response(400, "Missing 'cpe' field")
  /** What the generic handler answers when the sensor platform's callback is still None. */
  const NO_CALLBACK: Response := Response(500, "Internal Server Error: 'NoneType' object is not callable")

  /** The members of a payload that feed a sensor, in order. */
  function MappedFields(readings: seq<(string, real)>): (r: seq<(string, real)>)
    ensures forall j :: 0 <= j < |r| ==> Mapped(r[j].0)
  {
    if readings == [] then []
    else
      var n := |readings| - 1;
      MappedFields(readings[..n]) + (if Mapped(readings[n].0) then [readings[n]] else [])
  }

  /** The send loop acts on a member exactly when its name is mapped and not `cpe`. */
  lemma {:induction false} MappedFieldsMembers(readings: seq<(string, real)>, f: (string, real))
    ensures f in MappedFields(readings) <==> f in readings && Mapped(f.0)
  {
    if readings != [] {
      var n := |readings| - 1;
      MappedFieldsMembers(readings[..n], f);
      InInitOrLast(readings, f);
    }
  }

  /** The dispatch the send loop makes for a mapped member. */
  function DispatchFor(cpe: string, f: (string, real), clock: Option<string>): Dispatch
    requires Mapped(f.0)
  {
    Dispatch(UpdateSignal(cpe, Key(Lookup(f.0).value)), f.1, clock)
  }

  /** The dispatches the send loop of `async_process_sensor_data` makes, in order. */
  function Dispatches(cpe: string, readings: seq<(string, real)>, clock: Option<string>): seq<Dispatch> {
    if readings == [] then []
    else
      var n := |readings| - 1;
      Dispatches(cpe, readings[..n], clock) +
        (if Mapped(readings[n].0) then [DispatchFor(cpe, readings[n], clock)] else [])
  }

  /** Exactly one dispatch per mapped member, in member order, carrying its value and the clock. */
  lemma {:induction false} DispatchesOnePerField(cpe: string, readings: seq<(string, real)>, clock: Option<string>)
    ensures |Dispatches(cpe, readings, clock)| == |MappedFields(readings)|
    ensures forall j :: 0 <= j < |MappedFields(readings)| ==>
      Dispatches(cpe, readings, clock)[j] == DispatchFor(cpe, MappedFields(readings)[j], clock)
  {
    if readings != [] {
      DispatchesOnePerField(cpe, readings[..|readings| - 1], clock);
    }
  }

  /** What delivering one payload member does to the readings: nothing, or an update of one sensor. */
  datatype Update = Skip | Write(key: string, stateClass: StateClass, value: real)

  /** The update a member's dispatch makes: a mapped member goes to its sensor, with its row's state class. */
  function UpdateOf(cpe: string, f: (string, real)): Update {
    if Mapped(f.0) then Write(FeedKey(cpe, f.0), ClassOf(Lookup(f.0).value), f.1) else Skip
  }

  /** The updates of a payload's members, in order. */
  function Updates(cpe: string, readings: seq<(string, real)>): seq<Update> {
    seq(|readings|, j requires 0 <= j < |readings| => UpdateOf(cpe, readings[j]))
  }

  /** The readings after a list of updates stamped `at`; a write to a sensor that does not exist is lost. */
  function ApplyAll(view: map<string, Reading>, updates: seq<Update>, at: Instant): (r: map<string, Reading>)
    ensures r.Keys == view.Keys
  {
    if updates == [] then view
    else
      var n := |updates| - 1;
      var rest := ApplyAll(view, updates[..n], at);
      match updates[n]
      case Skip => rest
      case Write(k, sc, value) => if k in rest then rest[k := Apply(sc, rest[k], value, at)] else rest
  }

  /** The readings after the send loop has delivered every mapped member's update, stamped `at`. */
  function Ingest(view: map<string, Reading>, cpe: string, readings: seq<(string, real)>, at: Instant): (r: map<string, Reading>)
    ensures r.Keys == view.Keys
  {
    ApplyAll(view, Updates(cpe, readings), at)
  }

  lemma DispatchesStep(cpe: string, readings: seq<(string, real)>, clock: Option<string>, i: nat)
    requires i < |readings|
    ensures !Mapped(readings[i].0) ==> Dispatches(cpe, readings[..i + 1], clock) == Dispatches(cpe, readings[..i], clock)
    ensures Mapped(readings[i].0) ==>
      Dispatches(cpe, readings[..i + 1], clock) == Dispatches(cpe, readings[..i], clock) + [DispatchFor(cpe, readings[i], clock)]
  {
    TakeTake(readings, i, i + 1);
  }

  lemma IngestStep(view: map<string, Reading>, cpe: string, readings: seq<(string, real)>, at: Instant, i: nat)
    requires i < |readings|
    ensures !Mapped(readings[i].0) ==> Ingest(view, cpe, readings[..i + 1], at) == Ingest(view, cpe, readings[..i], at)
    ensures Mapped(readings[i].0) ==>
      var rest := Ingest(view, cpe, readings[..i], at);
      var k := FeedKey(cpe, readings[i].0);
      Ingest(view, cpe, readings[..i + 1], at) ==
        if k in rest then rest[k := Apply(ClassOf(Lookup(readings[i].0).value), rest[k], readings[i].1, at)] else rest
  {
    TakeTake(readings, i, i + 1);
    var ups := Updates(cpe, readings[..i + 1]);
    assert ups[..i] == Updates(cpe, readings[..i]);
  }

  /** Every mapped member's sensor exists once the sensors of the payload are ensured. */
  lemma DispatchedSensorsExist(view: map<string, Reading>, cpe: string, readings: seq<(string, real)>, f: (string, real))
    requires f in readings && Mapped(f.0)
    ensures FeedKey(cpe, f.0) in EnsureFields(view, cpe, readings)
  {
    var i :| 0 <= i < |readings| && readings[i] == f;
    MappedKeysMember(cpe, readings, i);
  }

  /**
   * Sensors are ensured before anything is dispatched, so the j-th dispatch goes to the signal of
   * the j-th mapped member's sensor, and that sensor exists.
   */
  lemma DispatchesReachSensors(view: map<string, Reading>, cpe: string, readings: seq<(string, real)>, clock: Option<string>)
    ensures |Dispatches(cpe, readings, clock)| == |MappedFields(readings)|
    ensures forall j :: 0 <= j < |Dispatches(cpe, readings, clock)| ==>
      && Mapped(MappedFields(readings)[j].0)
      && Dispatches(cpe, readings, clock)[j].signal == UpdateSignal(cpe, Key(Lookup(MappedFields(readings)[j].0).value))
      && FeedKey(cpe, MappedFields(readings)[j].0) in EnsureFields(view, cpe, readings)
  {
    DispatchesOnePerField(cpe, readings, clock);
    forall j | 0 <= j < |MappedFields(readings)|
      ensures FeedKey(cpe, MappedFields(readings)[j].0) in EnsureFields(view, cpe, readings)
    {
      MappedFieldsMembers(readings, MappedFields(readings)[j]);
      DispatchedSensorsExist(view, cpe, readings, MappedFields(readings)[j]);
    }
  }

  /** Two mapped member names feed the same sensor only if they are the same name. */
  lemma FeedKeyInjective(cpe: string, a: string, b: string)
    requires Mapped(a) && Mapped(b) && FeedKey(cpe, a) == FeedKey(cpe, b)
    ensures a == b
  {
    EntityKeyInjective(cpe, Lookup(a).value, cpe, Lookup(b).value);
    LookupFound(a);
    LookupFound(b);
  }

  /** Member names of a JSON object are distinct. */
  predicate DistinctNames(readings: seq<(string, real)>) {
    forall i, j :: 0 <= i < j < |readings| ==> readings[i].0 != readings[j].0
  }

  /** The last write to a measurement sensor decides its reading, when the sensor exists. */
  lemma {:induction false} ApplyAllLastWrite(view: map<string, Reading>, updates: seq<Update>, at: Instant, i: nat)
    requires i < |updates| && updates[i].Write? && updates[i].stateClass == Measurement && updates[i].key in view
    requires forall j :: i < j < |updates| ==> !(updates[j].Write? && updates[j].key == updates[i].key)
    ensures ApplyAll(view, updates, at)[updates[i].key] == Reading(Some(updates[i].value), Some(at))
  {
    var n := |updates| - 1;
    if i < n {
      assert updates[..n][i] == updates[i];
      assert forall j :: i < j < n ==> updates[..n][j] == updates[j];
      ApplyAllLastWrite(view, updates[..n], at, i);
    }
  }

  /**
   * The last member named `name`, a field of a measurement row, leaves that field's sensor
   * holding the member's value, stamped with the update time, as long as the sensor exists.
   */
  lemma IngestLastWrite(view: map<string, Reading>, cpe: string, readings: seq<(string, real)>,
                        at: Instant, name: string, i: nat)
    requires i < |readings| && readings[i].0 == name
    requires Mapped(name) && ClassOf(Lookup(name).value) == Measurement
    requires forall j :: i < j < |readings| ==> readings[j].0 != name
    requires FeedKey(cpe, name) in view
    ensures Ingest(view, cpe, readings, at)[FeedKey(cpe, name)] == Reading(Some(readings[i].1), Some(at))
  {
    var ups := Updates(cpe, readings);
    forall j | i < j < |ups|
      ensures !(ups[j].Write? && ups[j].key == ups[i].key)
    {
      if Mapped(readings[j].0) && FeedKey(cpe, readings[j].0) == FeedKey(cpe, name) {
        FeedKeyInjective(cpe, readings[j].0, name);
      }
    }
    ApplyAllLastWrite(view, ups, at, i);
  }

  /**
   * End to end: after a successful webhook carrying a measurement member, the member's sensor
   * exists and holds the posted value.
   */
  lemma WebhookHoldsMeasurement(view: map<string, Reading>, cpe: string, readings: seq<(string, real)>,
                                at: Instant, e: Entry, value: real)
    requires DistinctNames(readings) && (FieldName(e), value) in readings && ClassOf(e) == Measurement
    ensures EntityKey(cpe, Key(e)) in Ingest(EnsureFields(view, cpe, readings), cpe, readings, at)
    ensures Ingest(EnsureFields(view, cpe, readings), cpe, readings, at)[EntityKey(cpe, Key(e))] ==
            Reading(Some(value), Some(at))
  {
    FieldNameFeeds(e);
    DispatchedSensorsExist(view, cpe, readings, (FieldName(e), value));
    var i :| 0 <= i < |readings| && readings[i] == (FieldName(e), value);
    IngestLastWrite(EnsureFields(view, cpe, readings), cpe, readings, at, FieldName(e), i);
  }

  /**
   * The webhook accepts an empty `cpe`, and then creates a sensor, a limit and an overload entity
   * for it. After a restart the limit and the overload entity come back, the sensor does not.
   */
  lemma EmptyCpeRestoresOnlyDeviceEntities(e: Entry, entryId: string)
    ensures RestoredSensors(Registered([("", e)], entryId), entryId) == []
    ensures RestoredLimits(RegisteredLimits([""], entryId), entryId) == [""]
    ensures RestoredOverloads(RegisteredOverloads([""], entryId), entryId) == [""]
  {
    EmptyCpeSensorNotRestored(e, entryId);
    RestoreRecoversLimits([""], entryId);
    RestoreRecoversOverloads([""], entryId);
  }

  /** The host with one config entry of the integration: its three platforms, devices and dispatches. */
  class Hass {
    const entryId: string
    const sensors: SensorPlatform
    const numbers: NumberPlatform
    const binarySensors: BinarySensorPlatform
    /** The CPEs with a device in the device registry. */
    var devices: set<string>
    /** Every dispatcher send, in order. */
    var sent: seq<Dispatch>

    ghost predicate Valid()
      reads this, sensors, numbers, binarySensors
    {
      && sensors.Valid() && numbers.Valid() && binarySensors.Valid()
      && sensors.entryId == entryId && numbers.entryId == entryId && binarySensors.entryId == entryId
    }

    /** The state `async_setup_entry` of the integration leaves before any platform is set up. */
    constructor (entryId: string, devices: set<string>)
      ensures Valid() && this.entryId == entryId && this.devices == devices && sent == []
      ensures fresh(sensors) && fresh(numbers) && fresh(binarySensors)
      ensures sensors.addEntities.None? && sensors.entities == map[]
      ensures numbers.addEntities.None? && numbers.entities == map[]
      ensures binarySensors.addEntities.None? && binarySensors.entities == map[]
    {
      this.entryId := entryId;
      sensors := new SensorPlatform(entryId);
      numbers := new NumberPlatform(entryId);
      binarySensors := new BinarySensorPlatform(entryId);
      this.devices := devices;
      sent := [];
    }

    /**
     * What `async_ensure_device` does to the number and binary-sensor platforms: a known CPE changes
     * nothing; for a new one each platform gains a fresh default entity under the CPE when its
     * callback is set, and nothing otherwise.
     */
    twostate predicate DeviceEntities(cpe: string)
      reads this, numbers, binarySensors, numbers.entities.Values, binarySensors.entities.Values
    {
      && numbers.addEntities == old(numbers.addEntities) && binarySensors.addEntities == old(binarySensors.addEntities)
      && (cpe in old(devices) ==>
            && numbers.entities == old(numbers.entities) && numbers.addCalls == old(numbers.addCalls)
            && binarySensors.entities == old(binarySensors.entities) && binarySensors.addCalls == old(binarySensors.addCalls))
      && (cpe !in old(devices) ==>
            && (cpe in old(numbers.entities) || old(numbers.addEntities).None? ==>
                  numbers.entities == old(numbers.entities) && numbers.addCalls == old(numbers.addCalls))
            && (cpe !in old(numbers.entities) && old(numbers.addEntities).Some? ==>
                  && cpe in numbers.entities && fresh(numbers.entities[cpe])
                  && numbers.entities == old(numbers.entities)[cpe := numbers.entities[cpe]]
                  && numbers.entities[cpe].nativeValue == DEFAULT_BREAKER_LIMIT
                  && numbers.addCalls == old(numbers.addCalls) + [(old(numbers.addEntities).value, [numbers.entities[cpe]])])
            && (cpe in old(binarySensors.entities) || old(binarySensors.addEntities).None? ==>
                  binarySensors.entities == old(binarySensors.entities) && binarySensors.addCalls == old(binarySensors.addCalls))
            && (cpe !in old(binarySensors.entities) && old(binarySensors.addEntities).Some? ==>
                  && cpe in binarySensors.entities && fresh(binarySensors.entities[cpe])
                  && binarySensors.entities == old(binarySensors.entities)[cpe := binarySensors.entities[cpe]]
                  && !binarySensors.entities[cpe].isOn
                  && binarySensors.addCalls == old(binarySensors.addCalls) + [(old(binarySensors.addEntities).value, [binarySensors.entities[cpe]])]))
    }

    /**
     * `async_ensure_device`: a new device is registered, and only then are its breaker-limit and
     * overload entities created.
     */
    method EnsureDevice(cpe: string)
      requires Valid()
      modifies this, numbers, binarySensors
      ensures Valid() && sent == old(sent) && devices == old(devices) + {cpe}
      ensures DeviceEntities(cpe)
    {
      if cpe in devices {
        return;
      }
      devices := devices + {cpe};
      numbers.CreateBreakerLimit(cpe);
      binarySensors.CreateOverloadSensor(cpe);
    }

    /** One pass of the send loop: the update of a mapped member goes to its sensor's signal. */
    method SendField(cpe: string, f: (string, real), clock: Option<string>, parsed: Option<Instant>, now: Instant)
      requires Valid()
      modifies this, sensors.entities.Values
      ensures Valid() && devices == old(devices) && sensors.entities == old(sensors.entities)
      ensures sent == old(sent) + (if Mapped(f.0) then [DispatchFor(cpe, f, clock)] else [])
      ensures !Mapped(f.0) ==> sensors.View() == old(sensors.View())
      ensures Mapped(f.0) ==>
        var k := FeedKey(cpe, f.0);
        sensors.View() ==
          if k in old(sensors.View())
          then old(sensors.View())[k := Apply(ClassOf(Lookup(f.0).value), old(sensors.View())[k], f.1, UpdateTime(clock, parsed, now))]
          else old(sensors.View())
    {
      var (field, value) := f;
      if field == "cpe" {
        return;  // not a reading
      }
      var row := Lookup(field);
      if row.None? {
        return;  // not in the mapping
      }
      sent := sent + [Dispatch(UpdateSignal(cpe, Key(row.value)), value, clock)];
      sensors.DeliverUpdate(cpe, row.value, value, clock, parsed, now);
    }

    /** The send loop of `async_process_sensor_data`, once the sensors exist. */
    method SendUpdates(cpe: string, readings: seq<(string, real)>, clock: Option<string>,
                       parsed: Option<Instant>, now: Instant)
      requires Valid()
      modifies this, sensors.entities.Values
      ensures Valid() && devices == old(devices) && sensors.entities == old(sensors.entities)
      ensures sent == old(sent) + Dispatches(cpe, readings, clock)
      ensures sensors.View() == Ingest(old(sensors.View()), cpe, readings, UpdateTime(clock, parsed, now))
    {
      ghost var d0, e0, s0, v0 := devices, sensors.entities, sent, sensors.View();
      ghost var at := UpdateTime(clock, parsed, now);
      var i := 0;
      while i < |readings|
        invariant 0 <= i <= |readings|
        invariant Valid() && devices == d0 && sensors.entities == e0
        invariant sent == s0 + Dispatches(cpe, readings[..i], clock)
        invariant sensors.View() == Ingest(v0, cpe, readings[..i], at)
      {
        DispatchesStep(cpe, readings, clock, i);
        IngestStep(v0, cpe, readings, at, i);
        SendField(cpe, readings[i], clock, parsed, now);
        i := i + 1;
      }
      TakeAll(readings);
    }

    /**
     * `async_process_sensor_data`: ensure the sensors, then dispatch every mapped member's update;
     * `parsed` is what parsing the clock gives and `now` the host's clock during the call. `ok` is
     * false where ensuring the sensors raises, and then nothing was dispatched.
     */
    method ProcessSensorData(cpe: string, readings: seq<(string, real)>, clock: Option<string>,
                             parsed: Option<Instant>, now: Instant) returns (ok: bool)
      requires Valid()
      modifies this, sensors, sensors.entities.Values
      ensures Valid() && devices == old(devices) && sensors.addEntities == old(sensors.addEntities)
      ensures ok <==> old(sensors.addEntities).Some? || MappedKeys(cpe, readings) <= old(sensors.entities.Keys)
      ensures !ok ==> sent == old(sent) && sensors.entities == old(sensors.entities) && sensors.addCalls == old(sensors.addCalls)
      ensures !ok ==> sensors.View() == old(sensors.View())
      ensures old(sensors.addEntities).None? ==> sensors.entities == old(sensors.entities) && sensors.addCalls == old(sensors.addCalls)
      ensures old(sensors.addEntities).Some? ==>
        sensors.addCalls == old(sensors.addCalls) +
          Batches(old(sensors.addEntities).value, CreatedKeys(cpe, readings, old(sensors.entities.Keys)), sensors.entities)
      ensures ok ==> sent == old(sent) + Dispatches(cpe, readings, clock)
      ensures ok ==> sensors.View() ==
                     Ingest(EnsureFields(old(sensors.View()), cpe, readings), cpe, readings, UpdateTime(clock, parsed, now))
    {
      ok := sensors.EnsureSensorsForData(cpe, readings);
      if !ok {
        return;
      }
      SendUpdates(cpe, readings, clock, parsed, now);
    }

    /** The part of `handle_webhook` after a JSON object with a `cpe` member has been read. */
    method HandlePayload(cpe: string, readings: seq<(string, real)>, clock: Option<string>,
                         parsed: Option<Instant>, now: Instant) returns (resp: Response)
      requires Valid()
      modifies this, sensors, sensors.entities.Values, numbers, binarySensors
      ensures Valid()
      ensures devices == old(devices) + {cpe} && DeviceEntities(cpe)
      ensures sensors.addEntities == old(sensors.addEntities)
      ensures resp == OK || resp == NO_CALLBACK
      ensures resp == OK <==> old(sensors.addEntities).Some? || MappedKeys(cpe, readings) <= old(sensors.entities.Keys)
      ensures resp == NO_CALLBACK ==>
        && sent == old(sent) && sensors.entities == old(sensors.entities) && sensors.addCalls == old(sensors.addCalls)
        && sensors.View() == old(sensors.View())
      ensures old(sensors.addEntities).None? ==> sensors.entities == old(sensors.entities) && sensors.addCalls == old(sensors.addCalls)
      ensures old(sensors.addEntities).Some? ==>
        sensors.addCalls == old(sensors.addCalls) +
          Batches(old(sensors.addEntities).value, CreatedKeys(cpe, readings, old(sensors.entities.Keys)), sensors.entities)
      ensures resp == OK ==> sent == old(sent) + Dispatches(cpe, readings, clock)
      ensures resp == OK ==> sensors.View() ==
                             Ingest(EnsureFields(old(sensors.View()), cpe, readings), cpe, readings, UpdateTime(clock, parsed, now))
    {
      ghost var v0, e0, a0 := sensors.View(), sensors.entities, sensors.addEntities;
      EnsureDevice(cpe);
      assert sensors.View() == v0 && sensors.entities == e0 && sensors.addEntities == a0;
      var ok := ProcessSensorData(cpe, readings, clock, parsed, now);
      resp := if ok then OK else NO_CALLBACK;
    }

    /** `handle_webhook`: `body` is None where the request body is not valid JSON. */
    method HandleWebhook(body: Option<Body>, parsed: Option<Instant>, now: Instant) returns (resp: Response)
      requires Valid()
      modifies this, sensors, sensors.entities.Values, numbers, binarySensors
      ensures Valid()
      ensures body.None? ==> resp == INVALID_JSON
      ensures body.Some? && body.value.cpe.None? ==> resp == MISSING_CPE
      ensures body.None? || body.value.cpe.None? ==>
        unchanged(this, sensors, numbers, binarySensors) && sensors.View() == old(sensors.View())
      ensures body.Some? && body.value.cpe.Some? ==>
        var Body(cpe, readings, clock) := body.value;
        && devices == old(devices) + {cpe.value} && DeviceEntities(cpe.value)
        && sensors.addEntities == old(sensors.addEntities)
        && (resp == OK || resp == NO_CALLBACK)
        && (resp == OK <==> old(sensors.addEntities).Some? || MappedKeys(cpe.value, readings) <= old(sensors.entities.Keys))
        && (resp == NO_CALLBACK ==>
              && sent == old(sent) && sensors.entities == old(sensors.entities) && sensors.addCalls == old(sensors.addCalls)
              && sensors.View() == old(sensors.View()))
        && (old(sensors.addEntities).None? ==> sensors.entities == old(sensors.entities) && sensors.addCalls == old(sensors.addCalls))
        && (old(sensors.addEntities).Some? ==>
              sensors.addCalls == old(sensors.addCalls) +
                Batches(old(sensors.addEntities).value, CreatedKeys(cpe.value, readings, old(sensors.entities.Keys)), sensors.entities))
        && (resp == OK ==> sent == old(sent) + Dispatches(cpe.value, readings, clock))
        && (resp == OK ==> sensors.View() ==
                           Ingest(EnsureFields(old(sensors.View()), cpe.value, readings), cpe.value, readings, UpdateTime(clock, parsed, now)))
    {
      if body.None? {
        return INVALID_JSON;
      }
      var Body(cpe, readings, clock) := body.value;
      if cpe.None? {
        return MISSING_CPE;
      }
      resp := HandlePayload(cpe.value, readings, clock, parsed, now);
    }
  }
}
