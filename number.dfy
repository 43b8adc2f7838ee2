/**
 * The number platform: one breaker-limit entity per CPE, a configuration value in amps with a
 * default, restored from the host's last stored state when the entity is added, kept in the
 * per-entry `number_entities` dictionary under the CPE itself.
 */
module Numbers {
  import opened Wrappers
  import opened Strings
  import opened Host
  import opened Catalog
  import opened Identifiers

  const DEFAULT_BREAKER_LIMIT: real := 20.0
  /** The declared bounds and step of the entity (the host's number service enforces the bounds). */
  const MIN_LIMIT: real := 1.0
  const MAX_LIMIT: real := 200.0
  const LIMIT_STEP: real := 1.0

  /** The state string the host kept for the entity from its previous run, when it kept one. */
  datatype LastState = LastState(state: Option<string>)

  /** A last state worth restoring: present, and neither None, `unknown` nor `unavailable`. */
  predicate Usable(last: Option<LastState>) {
    last.Some? && last.value.state.Some? &&
    last.value.state.value != "unknown" && last.value.state.value != "unavailable"
  }

  /**
   * The limit after `async_added_to_hass`: `parsed` is what `float` makes of the stored state
   * string (None where it raises).
   */
  function RestoredLimit(current: real, last: Option<LastState>, parsed: Option<real>): real {
    if !Usable(last) then current
    else if parsed.Some? then parsed.value
    else DEFAULT_BREAKER_LIMIT
  }

  class BreakerLimit {
    const cpe: string
    const configEntryId: string
    var nativeValue: real

    /** A new entity holds the default limit. */
    constructor (cpe: string, configEntryId: string)
      ensures this.cpe == cpe && this.configEntryId == configEntryId
      ensures nativeValue == DEFAULT_BREAKER_LIMIT
    {
      this.cpe := cpe;
      this.configEntryId := configEntryId;
      nativeValue := DEFAULT_BREAKER_LIMIT;
    }

    function UniqueId(): string {
      LimitUniqueId(cpe)
    }

    /** `async_added_to_hass`: restore the previous value, fall back to the default when it does not parse. */
    method AddedToHass(last: Option<LastState>, parsed: Option<real>)
      modifies this
      ensures nativeValue == RestoredLimit(old(nativeValue), last, parsed)
    {
      if last.Some? && last.value.state.Some? {
        var state := last.value.state.value;
        if state != "unknown" && state != "unavailable" {
          match parsed
          case Some(v) => nativeValue := v;
          case None => nativeValue := DEFAULT_BREAKER_LIMIT;
        }
      }
    }

    /** `async_set_native_value`, called by the host only with a value inside the declared bounds. */
    method SetNativeValue(value: real)
      requires MIN_LIMIT <= value <= MAX_LIMIT
      modifies this
      ensures nativeValue == value
    {
      nativeValue := value;
    }
  }

  /** Without a usable last state a new entity keeps its default; an unparsable one resets to it. */
  lemma RestoreFallsBackToDefault(last: Option<LastState>, parsed: Option<real>)
    ensures !Usable(last) || parsed.None? ==> RestoredLimit(DEFAULT_BREAKER_LIMIT, last, parsed) == DEFAULT_BREAKER_LIMIT
  {
  }

  /** The CPE whose breaker limit a registry entry persists, if it is one of this entry's. */
  function LimitTarget(e: RegistryEntry, entryId: string): Option<string> {
    if !(e.configEntryId == entryId && e.domain == "number" && e.platform == DOMAIN) then None
    else ParseCpe(e.uniqueId, LIMIT_SUFFIX)
  }

  /** The CPEs whose limits a registry rebuilds, in registry order. */
  function RestoredLimits(registry: seq<RegistryEntry>, entryId: string): seq<string> {
    if registry == [] then []
    else
      var rest := RestoredLimits(registry[..|registry| - 1], entryId);
      match LimitTarget(registry[|registry| - 1], entryId)
      case None => rest
      case Some(cpe) => rest + [cpe]
  }

  function Cpes(limits: seq<BreakerLimit>): (r: seq<string>)
    ensures |r| == |limits|
    ensures forall i :: 0 <= i < |limits| ==> r[i] == limits[i].cpe
  {
    if limits == [] then [] else Cpes(limits[..|limits| - 1]) + [limits[|limits| - 1].cpe]
  }

  /** The limits of a batch by CPE, as storing them one after another leaves them. */
  function LimitStash(limits: seq<BreakerLimit>): map<string, BreakerLimit> {
    if limits == [] then map[]
    else
      var last := limits[|limits| - 1];
      LimitStash(limits[..|limits| - 1])[last.cpe := last]
  }

  lemma LimitStashAppend(m: map<string, BreakerLimit>, limits: seq<BreakerLimit>, l: BreakerLimit)
    ensures m + LimitStash(limits + [l]) == (m + LimitStash(limits))[l.cpe := l]
  {
    TakeSnoc(limits, l);
  }

  lemma RestoredLimitsStep(registry: seq<RegistryEntry>, entryId: string, n: nat)
    requires n < |registry|
    ensures LimitTarget(registry[n], entryId).None? ==>
      RestoredLimits(registry[..n + 1], entryId) == RestoredLimits(registry[..n], entryId)
    ensures LimitTarget(registry[n], entryId).Some? ==>
      RestoredLimits(registry[..n + 1], entryId) ==
      RestoredLimits(registry[..n], entryId) + [LimitTarget(registry[n], entryId).value]
  {
    TakeTake(registry, n, n + 1);
  }

  /** An entry of this config entry's number platform is restored exactly when it is a limit's id. */
  lemma LimitTargetSome(e: RegistryEntry, entryId: string, cpe: string)
    ensures LimitTarget(e, entryId) == Some(cpe) <==>
      && e.configEntryId == entryId && e.domain == "number" && e.platform == DOMAIN
      && e.uniqueId == LimitUniqueId(cpe)
  {
    LimitUniqueIdParse(e.uniqueId, cpe);
  }

  /** Entries without the domain prefix or the limit suffix are skipped. */
  lemma LimitTargetNone(e: RegistryEntry, entryId: string)
    ensures LimitTarget(e, entryId).None? <==>
      || e.configEntryId != entryId || e.domain != "number" || e.platform != DOMAIN
      || !StartsWith(e.uniqueId, PREFIX) || !EndsWith(e.uniqueId[|PREFIX|..], LIMIT_SUFFIX)
  {
  }

  /** The registry entries the number platform leaves behind for the limits of some CPEs. */
  function RegisteredLimits(cpes: seq<string>, entryId: string): seq<RegistryEntry> {
    if cpes == [] then []
    else
      RegisteredLimits(cpes[..|cpes| - 1], entryId) +
        [RegistryEntry(entryId, "number", DOMAIN, LimitUniqueId(cpes[|cpes| - 1]))]
  }

  /** After a restart, the registry entries of the created limits rebuild exactly those limits. */
  lemma {:induction false} RestoreRecoversLimits(cpes: seq<string>, entryId: string)
    ensures RestoredLimits(RegisteredLimits(cpes, entryId), entryId) == cpes
  {
    if cpes != [] {
      var init, last := cpes[..|cpes| - 1], cpes[|cpes| - 1];
      RestoreRecoversLimits(init, entryId);
      TakeSnoc(RegisteredLimits(init, entryId), RegistryEntry(entryId, "number", DOMAIN, LimitUniqueId(last)));
      LimitUniqueIdParse(LimitUniqueId(last), last);
      InitLast(cpes);
    }
  }

  /** The number platform's part of the per-entry data: `number_entities` and its callback. */
  /** A first run that creates the CPE's limit and sets it to `value`. */
  method SetLimitOnFirstRun(entryId: string, cpe: string, cb: CallbackId, value: real) returns (limit: BreakerLimit)
    requires MIN_LIMIT <= value <= MAX_LIMIT
    ensures fresh(limit) && limit.cpe == cpe && limit.configEntryId == entryId && limit.nativeValue == value
  {
    var platform := new NumberPlatform(entryId);
    var none := platform.SetupEntry(cb, []);
    assert |none| == |RestoredLimits([], entryId)| == 0;
    platform.CreateBreakerLimit(cpe);
    limit := platform.entities[cpe];
    limit.SetNativeValue(value);
  }

  /** A later run whose registry holds the registration of one CPE's limit restores a fresh entity for it. */
  method RestoreOnRestart(entryId: string, cpe: string, cb: CallbackId, registry: seq<RegistryEntry>)
    returns (limit: BreakerLimit)
    requires registry == RegisteredLimits([cpe], entryId)
    ensures fresh(limit) && limit.cpe == cpe && limit.nativeValue == DEFAULT_BREAKER_LIMIT
  {
    var platform := new NumberPlatform(entryId);
    RestoreRecoversLimits([cpe], entryId);
    var restored := platform.SetupEntry(cb, registry);
    assert Cpes(restored) == [cpe];
    limit := restored[0];
    assert limit in restored;
  }

  /**
   * A limit the user set survives a reload. The first run sets the limit to `value`; the entity
   * registry then holds that entity's registration, and the host has stored its state as `state`,
   * which `float` reads back as the value it was written from. The second run restores a fresh
   * entity from the registry and hands it that stored state.
   */
  method ReloadKeepsLimit(entryId: string, cpe: string, cb: CallbackId, value: real, state: string)
    returns (before: BreakerLimit, after: BreakerLimit)
    requires MIN_LIMIT <= value <= MAX_LIMIT
    requires state != "unknown" && state != "unavailable"
    ensures before.cpe == cpe && before.nativeValue == value
    ensures after != before && after.cpe == cpe
    ensures after.nativeValue == value
  {
    before := SetLimitOnFirstRun(entryId, cpe, cb, value);
    var registry := [RegistryEntry(before.configEntryId, "number", DOMAIN, before.UniqueId())];
    assert registry == RegisteredLimits([cpe], entryId);
    after := RestoreOnRestart(entryId, cpe, cb, registry);
    after.AddedToHass(Some(LastState(Some(state))), Some(before.nativeValue));
  }

  class NumberPlatform {
    const entryId: string
    /** `number_add_entities`; None while the key is absent. */
    var addEntities: Option<CallbackId>
    var entities: map<string, BreakerLimit>
    /** Every call of an `add_entities` callback, with the batch of entities it was given. */
    var addCalls: seq<(CallbackId, seq<BreakerLimit>)>

    ghost predicate Valid()
      reads this
    {
      forall cpe :: cpe in entities ==> entities[cpe].cpe == cpe && entities[cpe].configEntryId == entryId
    }

    /** The per-entry data before the platform is set up: the integration forwards only the sensor platform. */
    constructor (entryId: string)
      ensures Valid() && this.entryId == entryId
      ensures addEntities == None && entities == map[] && addCalls == []
    {
      this.entryId := entryId;
      addEntities := None;
      entities := map[];
      addCalls := [];
    }

    /**
     * `async_setup_entry`: only the first setup stores the callback and starts an empty dictionary;
     * a repeat setup keeps both and restores on top of them.
     */
    method SetupEntry(cb: CallbackId, registry: seq<RegistryEntry>) returns (restored: seq<BreakerLimit>)
      requires Valid()
      modifies this
      ensures Valid()
      ensures old(addEntities).None? ==> addEntities == Some(cb) && entities == LimitStash(restored)
      ensures old(addEntities).Some? ==> addEntities == old(addEntities) && entities == old(entities) + LimitStash(restored)
      ensures Cpes(restored) == RestoredLimits(registry, entryId)
      ensures forall l :: l in restored ==> fresh(l) && l.nativeValue == DEFAULT_BREAKER_LIMIT
      ensures addCalls == old(addCalls) + (if restored == [] then [] else [(cb, restored)])
    {
      if addEntities.None? {
        addEntities := Some(cb);
        entities := map[];
      }
      restored := RestoreExisting(registry, cb);
    }

    /** One pass of the restore loop: rebuild and store the limit a registry entry names, if any. */
    method RestoreEntry(e: RegistryEntry) returns (limit: Option<BreakerLimit>)
      requires Valid()
      modifies this
      ensures Valid() && addEntities == old(addEntities) && addCalls == old(addCalls)
      ensures limit.None? <==> LimitTarget(e, entryId).None?
      ensures limit.None? ==> entities == old(entities)
      ensures limit.Some? ==>
        && fresh(limit.value) && limit.value.nativeValue == DEFAULT_BREAKER_LIMIT
        && limit.value.configEntryId == entryId
        && LimitTarget(e, entryId) == Some(limit.value.cpe)
        && entities == old(entities)[limit.value.cpe := limit.value]
    {
      if !(e.configEntryId == entryId && e.domain == "number" && e.platform == DOMAIN) {
        return None;
      }
      if !StartsWith(e.uniqueId, PREFIX) {
        return None;
      }
      var remainder := e.uniqueId[|PREFIX|..];
      if !EndsWith(remainder, LIMIT_SUFFIX) {
        return None;
      }
      var cpe := remainder[..|remainder| - |LIMIT_SUFFIX|];
      var l := new BreakerLimit(cpe, entryId);
      entities := entities[cpe := l];
      limit := Some(l);
    }

    /** `async_restore_existing_number_entities` */
    method RestoreExisting(registry: seq<RegistryEntry>, cb: CallbackId) returns (restored: seq<BreakerLimit>)
      requires Valid()
      modifies this
      ensures Valid() && addEntities == old(addEntities)
      ensures Cpes(restored) == RestoredLimits(registry, entryId)
      ensures forall l :: l in restored ==> fresh(l) && l.nativeValue == DEFAULT_BREAKER_LIMIT
      ensures entities == old(entities) + LimitStash(restored)
      ensures addCalls == old(addCalls) + (if restored == [] then [] else [(cb, restored)])
    {
      var toRestore: seq<BreakerLimit> := [];
      var n := 0;
      while n < |registry|
        invariant 0 <= n <= |registry|
        invariant Valid() && addEntities == old(addEntities) && addCalls == old(addCalls)
        invariant Cpes(toRestore) == RestoredLimits(registry[..n], entryId)
        invariant forall l :: l in toRestore ==> fresh(l) && l.nativeValue == DEFAULT_BREAKER_LIMIT
        invariant entities == old(entities) + LimitStash(toRestore)
      {
        var limit := RestoreEntry(registry[n]);
        RestoredLimitsStep(registry, entryId, n);
        if limit.Some? {
          var l := limit.value;
          LimitStashAppend(old(entities), toRestore, l);
          TakeSnoc(toRestore, l);
          toRestore := toRestore + [l];
        }
        n := n + 1;
      }
      TakeAll(registry);
      if |toRestore| > 0 {
        addCalls := addCalls + [(cb, toRestore)];
      }
      restored := toRestore;
    }

    /**
     * `async_create_breaker_limit_entity`: nothing happens when the CPE already has a limit or
     * when the platform was never set up (no callback).
     */
    method CreateBreakerLimit(cpe: string)
      requires Valid()
      modifies this
      ensures Valid() && addEntities == old(addEntities)
      ensures cpe in old(entities) || old(addEntities).None? ==>
        entities == old(entities) && addCalls == old(addCalls)
      ensures cpe !in old(entities) && old(addEntities).Some? ==>
        && cpe in entities && fresh(entities[cpe])
        && entities == old(entities)[cpe := entities[cpe]]
        && entities[cpe].nativeValue == DEFAULT_BREAKER_LIMIT
        && addCalls == old(addCalls) + [(old(addEntities).value, [entities[cpe]])]
    {
      if cpe in entities {
        return;
      }
      if addEntities.None? {
        return;  // add_entities not available
      }
      var l := new BreakerLimit(cpe, entryId);
      addCalls := addCalls + [(addEntities.value, [l])];
      entities := entities[cpe := l];
    }
  }
}
