/**
 * The identifier scheme that lets entities be found again after a restart: unique ids, keys of the
 * per-entry entity dictionaries and dispatcher signal names are all built from the CPE and a sensor
 * key, and the restore scans parse unique ids back into the CPE (and the key).
 */
module Identifiers {
  import opened Wrappers
  import opened Strings
  import opened Catalog

  /** Every unique id of the integration starts with this. */
  const PREFIX: string := DOMAIN + "_"
  const LIMIT_SUFFIX: string := "_breaker_limit"
  const OVERLOAD_SUFFIX: string := "_breaker_overload"
  /** Key of the calculated breaker-load sensor that the overload check reads. */
  const BREAKER_LOAD_KEY: string := "breaker_load"

  function SensorUniqueId(cpe: string, key: string): string {
    DOMAIN + "_" + cpe + "_" + key
  }

  /** Key of a sensor in the per-entry `entities` dictionary. */
  function EntityKey(cpe: string, key: string): string {
    cpe + "_" + key
  }

  /** Dispatcher signal a sensor listens on and the webhook sends to. */
  function UpdateSignal(cpe: string, key: string): string {
    DOMAIN + "_" + cpe + "_" + key + "_update"
  }

  function LimitUniqueId(cpe: string): string {
    DOMAIN + "_" + cpe + LIMIT_SUFFIX
  }

  function OverloadUniqueId(cpe: string): string {
    DOMAIN + "_" + cpe + OVERLOAD_SUFFIX
  }

  /** The first-match suffix scan: the first row of `es` such that `remainder` ends in `"_" + key`. */
  function MatchKey(remainder: string, es: seq<Entry>): (r: Option<Entry>)
    ensures r.Some? ==> r.value in es && EndsWith(remainder, "_" + Key(r.value))
    ensures r.None? <==> forall i :: 0 <= i < |es| ==> !EndsWith(remainder, "_" + Key(es[i]))
  {
    if es == [] then None
    else if EndsWith(remainder, "_" + Key(es[0])) then Some(es[0])
    else MatchKey(remainder, es[1..])
  }

  /** The scan stops at the first row that matches. */
  lemma {:induction false} MatchKeyAt(remainder: string, es: seq<Entry>, i: nat)
    requires i < |es| && EndsWith(remainder, "_" + Key(es[i]))
    requires forall j :: 0 <= j < i ==> !EndsWith(remainder, "_" + Key(es[j]))
    ensures MatchKey(remainder, es) == Some(es[i])
  {
    if i > 0 {
      assert !EndsWith(remainder, "_" + Key(es[0]));
      MatchKeyAt(remainder, es[1..], i - 1);
    }
  }

  /** What the sensor restore scan reads out of a unique id: the CPE and the catalog row. */
  function ParseSensorUniqueId(uid: string): Option<(string, Entry)> {
    if !StartsWith(uid, PREFIX) then None else ParseRemainder(uid[|PREFIX|..])
  }

  /** The part of the parse after the domain prefix: the matched key and what precedes it. */
  function ParseRemainder(remainder: string): Option<(string, Entry)> {
    match MatchKey(remainder, ENTRIES)
    case None => None
    case Some(e) =>
      var cpe := remainder[..|remainder| - |Key(e)| - 1];
      if cpe == "" then None else Some((cpe, e))
  }

  /** What the number and binary-sensor restore scans read out of a unique id with a fixed suffix. */
  function ParseCpe(uid: string, suffix: string): Option<string>
    requires suffix != ""
  {
    if !StartsWith(uid, PREFIX) then None
    else
      var remainder := uid[|PREFIX|..];
      if !EndsWith(remainder, suffix) then None
      else Some(remainder[..|remainder| - |suffix|])
  }

  /** At most one sensor key can end a given string (after a separator). */
  lemma CatalogSuffixUnique(s: string, e1: Entry, e2: Entry)
    requires EndsWith(s, "_" + Key(e1)) && EndsWith(s, "_" + Key(e2))
    ensures e1 == e2
  {
    if e1 != e2 {
      NoKeyIsSuffixOfAnother(e1, e2);
      NoKeyIsSuffixOfAnother(e2, e1);
      if |Key(e1)| <= |Key(e2)| {
        SuffixOfSuffix(s, "_" + Key(e1), "_" + Key(e2));
      } else {
        SuffixOfSuffix(s, "_" + Key(e2), "_" + Key(e1));
      }
    }
  }

  lemma JoinParts(cpe: string, key: string)
    ensures EndsWith(cpe + "_" + key, "_" + key)
    ensures (cpe + "_" + key)[..|cpe + "_" + key| - |key| - 1] == cpe
  {
    assert cpe + "_" + key == cpe + ("_" + key);
    SuffixJoin(cpe, "_" + key);
  }

  lemma SensorUniqueIdShape(d: string, cpe: string, key: string)
    ensures d + "_" + cpe + "_" + key == (d + "_") + (cpe + "_" + key)
    ensures d + "_" + cpe + "_" + key == (d + "_") + (cpe + ("_" + key))
  {
  }

  /** The remainder of a sensor's unique id names its own row. */
  lemma MatchOwnKey(cpe: string, e: Entry)
    ensures MatchKey(cpe + "_" + Key(e), ENTRIES) == Some(e)
  {
    var remainder := cpe + "_" + Key(e);
    JoinParts(cpe, Key(e));
    assert ENTRIES[Position(e)] == e;
    var r := MatchKey(remainder, ENTRIES);
    CatalogSuffixUnique(remainder, r.value, e);
  }

  /** Parsing a sensor's unique id gives back exactly the CPE and row it was built from. */
  lemma SensorUniqueIdRoundTrip(cpe: string, e: Entry)
    requires cpe != ""
    ensures ParseSensorUniqueId(SensorUniqueId(cpe, Key(e))) == Some((cpe, e))
  {
    var uid := SensorUniqueId(cpe, Key(e));
    var remainder := cpe + "_" + Key(e);
    SensorUniqueIdShape(DOMAIN, cpe, Key(e));
    PrefixJoin(PREFIX, remainder);
    MatchOwnKey(cpe, e);
    JoinParts(cpe, Key(e));
    assert ParseRemainder(remainder) == Some((cpe, e));
  }

  /** With an empty CPE the parse finds the sensor's own key and then rejects the empty CPE before it. */
  lemma EmptyCpeSensorUniqueIdRejected(e: Entry)
    ensures ParseSensorUniqueId(SensorUniqueId("", Key(e))) == None
  {
    var remainder := "" + "_" + Key(e);
    SensorUniqueIdShape(DOMAIN, "", Key(e));
    PrefixJoin(PREFIX, remainder);
    MatchOwnKey("", e);
    JoinParts("", Key(e));
  }

  /** Conversely, whatever the parse accepts is the unique id of a sensor with a non-empty CPE. */
  lemma ParseSensorUniqueIdSound(uid: string, cpe: string, e: Entry)
    requires ParseSensorUniqueId(uid) == Some((cpe, e))
    ensures uid == SensorUniqueId(cpe, Key(e)) && cpe != ""
  {
    var remainder := uid[|PREFIX|..];
    assert ParseRemainder(remainder) == Some((cpe, e));
    PrefixSplit(uid, PREFIX);
    SuffixSplit(remainder, "_" + Key(e));
    assert uid == PREFIX + (cpe + ("_" + Key(e)));
    SensorUniqueIdShape(DOMAIN, cpe, Key(e));
  }

  /** Two sensors share an entity-dictionary key only if they share CPE and row. */
  lemma EntityKeyInjective(c1: string, e1: Entry, c2: string, e2: Entry)
    requires EntityKey(c1, Key(e1)) == EntityKey(c2, Key(e2))
    ensures c1 == c2 && e1 == e2
  {
    JoinParts(c1, Key(e1));
    JoinParts(c2, Key(e2));
    CatalogSuffixUnique(EntityKey(c1, Key(e1)), e1, e2);
  }

  lemma Regroup(d: string, c: string, k: string, t: string)
    ensures d + "_" + c + "_" + k + t == (d + "_") + (c + "_" + k) + t
  {
  }

  lemma CancelAround(p: string, a: string, b: string, t: string)
    requires p + a + t == p + b + t
    ensures a == b
  {
    assert |a| == |b|;
    assert a == (p + a + t)[|p|..|p| + |a|];
    assert b == (p + b + t)[|p|..|p| + |b|];
  }

  /** Two sensors listen on the same dispatcher signal only if they share CPE and row. */
  lemma UpdateSignalInjective(c1: string, e1: Entry, c2: string, e2: Entry)
    requires UpdateSignal(c1, Key(e1)) == UpdateSignal(c2, Key(e2))
    ensures c1 == c2 && e1 == e2
  {
    Regroup(DOMAIN, c1, Key(e1), "_update");
    Regroup(DOMAIN, c2, Key(e2), "_update");
    CancelAround(PREFIX, EntityKey(c1, Key(e1)), EntityKey(c2, Key(e2)), "_update");
    EntityKeyInjective(c1, e1, c2, e2);
  }

  /** A fixed-suffix unique id parses back to exactly its CPE (an empty CPE included). */
  lemma CpeRoundTrip(cpe: string, suffix: string)
    requires suffix != ""
    ensures ParseCpe(DOMAIN + "_" + cpe + suffix, suffix) == Some(cpe)
  {
    var uid := DOMAIN + "_" + cpe + suffix;
    assert uid == PREFIX + (cpe + suffix);
    PrefixJoin(PREFIX, cpe + suffix);
    SuffixJoin(cpe, suffix);
  }

  /** Conversely, whatever the fixed-suffix parse accepts is such a unique id. */
  lemma ParseCpeSound(uid: string, suffix: string, cpe: string)
    requires suffix != ""
    requires ParseCpe(uid, suffix) == Some(cpe)
    ensures uid == DOMAIN + "_" + cpe + suffix
  {
    PrefixSplit(uid, PREFIX);
    SuffixSplit(uid[|PREFIX|..], suffix);
    assert uid == PREFIX + (cpe + suffix);
  }

  /** The breaker-limit unique id parses back to its CPE, and only such ids parse. */
  lemma LimitUniqueIdParse(uid: string, cpe: string)
    ensures ParseCpe(uid, LIMIT_SUFFIX) == Some(cpe) <==> uid == LimitUniqueId(cpe)
  {
    if uid == LimitUniqueId(cpe) {
      CpeRoundTrip(cpe, LIMIT_SUFFIX);
    }
    if ParseCpe(uid, LIMIT_SUFFIX) == Some(cpe) {
      ParseCpeSound(uid, LIMIT_SUFFIX, cpe);
    }
  }

  /** The overload unique id parses back to its CPE, and only such ids parse. */
  lemma OverloadUniqueIdParse(uid: string, cpe: string)
    ensures ParseCpe(uid, OVERLOAD_SUFFIX) == Some(cpe) <==> uid == OverloadUniqueId(cpe)
  {
    if uid == OverloadUniqueId(cpe) {
      CpeRoundTrip(cpe, OVERLOAD_SUFFIX);
    }
    if ParseCpe(uid, OVERLOAD_SUFFIX) == Some(cpe) {
      ParseCpeSound(uid, OVERLOAD_SUFFIX, cpe);
    }
  }

  /** The sensor unique id parses back to its CPE and row, and only such ids parse. */
  lemma SensorUniqueIdParse(uid: string, cpe: string, e: Entry)
    ensures ParseSensorUniqueId(uid) == Some((cpe, e)) <==> (uid == SensorUniqueId(cpe, Key(e)) && cpe != "")
  {
    if uid == SensorUniqueId(cpe, Key(e)) && cpe != "" {
      SensorUniqueIdRoundTrip(cpe, e);
    }
    if ParseSensorUniqueId(uid) == Some((cpe, e)) {
      ParseSensorUniqueIdSound(uid, cpe, e);
    }
  }
}
