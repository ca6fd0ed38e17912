/** The config-entry lifecycle of the Hubitat integration: `async_setup_entry`
    registers a hub under its entry id in the integration's table of
    `hass.data`, and `async_unload_entry` takes it out again once every
    platform has unloaded. The hub itself, the framework and the event bus
    are outside: their outcomes come in as parameters, and what this code
    does to them is kept in logs. */
module Lifecycle {
  import opened LegacyTitle

  datatype Option<T> = None | Some(value: T)

  /** What the integration knows of a hub: the config entry it was built
      for, the sequence number it was given, and its id. */
  datatype Hub = Hub(entryId: string, index: nat, id: string)

  /** An event fired on the integration's event type, with its payload. */
  datatype Event = Event(payload: map<string, string>)

  const Ready: Event := Event(map["name" := "ready"])

  /** The result of `async_unload_entry`: its boolean, or the failure of the
      hub lookup when no hub was registered for the entry. */
  datatype UnloadOutcome = Unloaded(ok: bool) | HubNotFound

  /** `all(...)` over the platform unload results. */
  function AllSucceeded(results: seq<bool>): (r: bool)
    ensures r <==> forall i :: 0 <= i < |results| ==> results[i]
  {
    results == [] || (results[0] && AllSucceeded(results[1..]))
  }

  /** The verdict depends only on how many platforms succeeded and failed,
      not on their position in the list: the model may take the results in
      any order (the source's `gather` lists them in platform order). */
  lemma AllSucceededIgnoresOrder(a: seq<bool>, b: seq<bool>)
    requires multiset(a) == multiset(b)
    ensures AllSucceeded(a) == AllSucceeded(b)
  {
    if !AllSucceeded(a) {
      var i :| 0 <= i < |a| && !a[i];
      assert a[i] in multiset(b);
      var j :| 0 <= j < |b| && b[j] == a[i];
    }
    if !AllSucceeded(b) {
      var j :| 0 <= j < |b| && !b[j];
      assert b[j] in multiset(a);
      var i :| 0 <= i < |a| && a[i] == b[j];
    }
  }

  /** One failing platform makes the whole unload fail. */
  lemma OneFailureFails(results: seq<bool>, j: nat)
    requires j < |results| && !results[j]
    ensures !AllSucceeded(results)
  {
  }

  /** The table a setup works on: the one present, or a new empty one. */
  function TableOf(data: Option<map<string, Hub>>): map<string, Hub> {
    if data.Some? then data.value else map[]
  }

  /** `get_hub`: the hub registered for an entry id, if any. */
  function GetHub(data: Option<map<string, Hub>>, entryId: string): Option<Hub> {
    if data.Some? && entryId in data.value then Some(data.value[entryId]) else None
  }

  /** The part of `hass` the integration touches. */
  class Hass {
    /** `hass.data[DOMAIN]`: absent until the first setup. */
    var domainData: Option<map<string, Hub>>
    /** Events fired on the integration's event type. */
    ghost var fired: seq<Event>
    /** Hubs told to unload, in order. */
    ghost var unloadedHubs: seq<Hub>

    /** Every hub sits under its own entry id and has a sequence number of
        at least 1. */
    ghost predicate Valid()
      reads this
    {
      domainData.Some? ==>
        forall k :: k in domainData.value ==>
          domainData.value[k].entryId == k && domainData.value[k].index >= 1
    }

    constructor ()
      ensures Valid()
      ensures domainData == None && fired == [] && unloadedHubs == []
    {
      domainData := None;
      fired := [];
      unloadedHubs := [];
    }
  }

  class ConfigEntry {
    const entryId: string
    var title: string

    constructor (entryId: string, title: string)
      ensures this.entryId == entryId && this.title == title
    {
      this.entryId := entryId;
      this.title := title;
    }
  }

  /** `async_setup_entry`. `hubSetupOk` is what the hub's own setup reports
      and `hubId` is the id the hub then has. */
  method SetupEntry(hass: Hass, entry: ConfigEntry, hubSetupOk: bool, hubId: string) returns (ok: bool)
    requires hass.Valid()
    modifies hass, entry
    ensures hass.Valid()
    ensures ok == hubSetupOk
    // the table exists afterwards, and on failure holds what it held before
    ensures hass.domainData.Some?
    ensures !ok ==> hass.domainData.value == TableOf(old(hass.domainData))
    // on success the hub is numbered one past the size of the table it joins
    ensures ok ==> (
      hass.domainData.value ==
      TableOf(old(hass.domainData))[entry.entryId := Hub(entry.entryId, |TableOf(old(hass.domainData))| + 1, hubId)])
    ensures entry.title == (if ok then Retitled(old(entry.title), hubId) else old(entry.title))
    ensures hass.fired == (if ok then old(hass.fired) + [Ready] else old(hass.fired))
    ensures hass.unloadedHubs == old(hass.unloadedHubs)
  {
    if hass.domainData.None? {
      hass.domainData := Some(map[]);
    }
    var table := hass.domainData.value;
    var hub := Hub(entry.entryId, |table| + 1, hubId);
    if !hubSetupOk {
      return false;
    }
    hass.domainData := Some(table[entry.entryId := hub]);
    LegacyPatternMatchesIff(entry.title);
    if MatchPrefix(LegacyPattern, entry.title) {
      entry.title := "Hubitat (" + hub.id + ")";
    }
    hass.fired := hass.fired + [Ready];
    return true;
  }

  /** `async_unload_entry`. `platformResults` are the results of the
      platform unloads. */
  method UnloadEntry(hass: Hass, entry: ConfigEntry, platformResults: seq<bool>) returns (r: UnloadOutcome)
    requires hass.Valid()
    modifies hass
    ensures hass.Valid()
    ensures hass.fired == old(hass.fired)
    ensures GetHub(old(hass.domainData), entry.entryId).None? ==>
      r == HubNotFound && hass.domainData == old(hass.domainData) && hass.unloadedHubs == old(hass.unloadedHubs)
    ensures GetHub(old(hass.domainData), entry.entryId).Some? ==>
      var table := old(hass.domainData).value;
      && r == Unloaded(AllSucceeded(platformResults))
      && hass.unloadedHubs == old(hass.unloadedHubs) + [table[entry.entryId]]
      && hass.domainData == Some(if r.ok then table - {entry.entryId} else table)
    // the hub told to unload is the one built for this entry
    ensures |hass.unloadedHubs| > |old(hass.unloadedHubs)| ==>
      hass.unloadedHubs[|hass.unloadedHubs| - 1].entryId == entry.entryId
  {
    var unloadOk := AllSucceeded(platformResults);
    var hub := GetHub(hass.domainData, entry.entryId);
    if hub.None? {
      return HubNotFound;
    }
    hass.unloadedHubs := hass.unloadedHubs + [hub.value];
    if unloadOk {
      hass.domainData := Some(hass.domainData.value - {entry.entryId});
    }
    return Unloaded(unloadOk);
  }

  // ---------------------------------------------------------------------
  // Runs of several calls

  /** A successful setup followed by an unload in which every platform
      succeeds leaves no hub for the entry and every other entry as before. */
  method SetupThenUnload(hass: Hass, entry: ConfigEntry, hubId: string, platformResults: seq<bool>)
    returns (r: UnloadOutcome)
    requires hass.Valid()
    requires AllSucceeded(platformResults)
    modifies hass, entry
    ensures hass.Valid()
    ensures r == Unloaded(true)
    ensures hass.domainData == Some(TableOf(old(hass.domainData)) - {entry.entryId})
    ensures hass.fired == old(hass.fired) + [Ready]
  {
    var ok := SetupEntry(hass, entry, true, hubId);
    r := UnloadEntry(hass, entry, platformResults);
    assert TableOf(old(hass.domainData))[entry.entryId := Hub(entry.entryId, |TableOf(old(hass.domainData))| + 1, hubId)] - {entry.entryId}
        == TableOf(old(hass.domainData)) - {entry.entryId};
  }

  /** On a fresh `hass`, two entries set up one after the other get the
      sequence numbers 1 and 2. */
  method TwoHubsAreNumbered(a: ConfigEntry, b: ConfigEntry, idA: string, idB: string)
    returns (hass: Hass)
    requires a.entryId != b.entryId
    modifies a, b
    ensures hass.domainData.Some?
    ensures hass.domainData.value.Keys == {a.entryId, b.entryId}
    ensures hass.domainData.value[a.entryId].index == 1
    ensures hass.domainData.value[b.entryId].index == 2
    ensures hass.fired == [Ready, Ready]
  {
    hass := new Hass();
    var okA := SetupEntry(hass, a, true, idA);
    var okB := SetupEntry(hass, b, true, idB);
  }

  /** Sequence numbers count the hubs present, so a number is given out
      again after an unload: with A (1) and B (2) set up and A unloaded, a
      new entry C gets 2, the number B holds. */
  method NumberReusedAfterUnload(a: ConfigEntry, b: ConfigEntry, c: ConfigEntry, idA: string, idB: string, idC: string, platformResults: seq<bool>)
    returns (hass: Hass)
    requires a.entryId != b.entryId && b.entryId != c.entryId && a.entryId != c.entryId
    requires AllSucceeded(platformResults)
    modifies a, b, c
    ensures hass.domainData.Some?
    ensures hass.domainData.value.Keys == {b.entryId, c.entryId}
    ensures hass.domainData.value[b.entryId].index == 2
    ensures hass.domainData.value[c.entryId].index == 2
  {
    hass := new Hass();
    var okA := SetupEntry(hass, a, true, idA);
    var okB := SetupEntry(hass, b, true, idB);
    assert hass.domainData.value.Keys == {a.entryId, b.entryId};
    assert hass.domainData.value[b.entryId].index == 2;
    var r := UnloadEntry(hass, a, platformResults);
    assert hass.domainData.value.Keys == {b.entryId};
    assert |hass.domainData.value| == |hass.domainData.value.Keys| == 1;
    var okC := SetupEntry(hass, c, true, idC);
  }
}
