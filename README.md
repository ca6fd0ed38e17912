# Hubitat integration: config-entry lifecycle

A model of the config-entry lifecycle of the Hubitat custom integration for
Home Assistant (`custom_components/hubitat/__init__.py`).

- `async_setup_entry` makes sure the integration's table in `hass.data`
  exists, builds a hub numbered one past the table's current size, and stops
  with `False` if the hub's own setup fails. Otherwise it files the hub under
  the entry id and renames a legacy MAC-address title after the hub id. It
  then fires the `{"name": "ready"}` event and returns `True`.
- `async_unload_entry` takes the AND of the platform unload results. It always
  tells the hub to unload. It drops the table entry only when every platform
  unloaded.

`lifecycle.dfy` (module `Lifecycle`) holds the state. Class `Hass` has the
integration's table as `domainData: Option<map<string, Hub>>`, where `None`
means "absent from `hass.data`". Two ghost logs record the events fired and the
hubs told to unload. Class `ConfigEntry` has the entry id and the mutable title.
`SetupEntry` and `UnloadEntry` follow the two coroutines line by line. Their
external outcomes come in as parameters: the hub's setup result, the hub's id,
and the platform unload results. `Valid()` is the table invariant that every
hub sits under its own entry id with a sequence number of at least 1.

`legacy_title.dfy` (module `LegacyTitle`) models the title test.
`LegacyPattern` encodes `Hubitat \(\w{2}(:\w{2}){5}\)` as fixed-width tokens.
`MatchPrefix` gives it `re.match` semantics: it anchors at the start, and text
after the match is ignored. `IsLegacyTitle` states the same shape by character
position. `LegacyPatternMatchesIff` proves the two agree, and `SetupEntry` runs
the regex form.

Four details of the code are easy to misread:

- The title pattern uses `\w`, so any word characters are accepted, not just
  hex digits. `WordTitleIsLegacy` shows "Hubitat (GG:hh:_0:99:zz:Q_)" is
  renamed.
- The rename is not one-way in general. A renamed title is final whenever the
  hub id has no `:` (`RetitledIsFinal`). Renaming twice still changes nothing
  more (`RetitledIdempotent`).
- A failed setup is not free of side effects. The table is created before the
  hub's setup runs, so a failed first setup leaves an empty table behind.
- Sequence numbers count the hubs present at the time. A number is handed out
  again after an unload (`NumberReusedAfterUnload`).

## Model

| member | source | states |
|---|---|---|
| `LegacyTitle.LegacyPatternMatchesIff` | custom_components/hubitat/__init__.py:47 | the regex `Hubitat \(\w{2}(:\w{2}){5}\)` under `re.match` accepts a title exactly when it starts with "Hubitat (", then two word characters, then five groups of ":" and two word characters, then ")" |
| `LegacyTitle.MatchConcat` | custom_components/hubitat/__init__.py:47 | matching a concatenated pattern is matching the first part and then the second on the rest of the text |
| `LegacyTitle.MatchGroups` | custom_components/hubitat/__init__.py:47 | `(:\w{2}){n}` matches exactly when the first n `:\w\w` groups are present |
| `LegacyTitle.MatchLiteral` | custom_components/hubitat/__init__.py:47 | a literal part of the pattern matches exactly when the text starts with that literal |
| `LegacyTitle.LegacyTitleIgnoresSuffix` | custom_components/hubitat/__init__.py:47 | `re.match` anchors at the start only: any text after the closing ")" leaves a legacy title legacy |
| `LegacyTitle.LeadingTextIsNotLegacy` | custom_components/hubitat/__init__.py:47 | the match is anchored at the start: a title whose first character is not 'H' never matches, whatever follows |
| `LegacyTitle.MacTitleIsLegacy` | custom_components/hubitat/__init__.py:47 | "Hubitat (AA:BB:CC:DD:EE:FF)" is a legacy title |
| `LegacyTitle.WordTitleIsLegacy` | custom_components/hubitat/__init__.py:47 | `\w` is not restricted to hex digits: "Hubitat (GG:hh:_0:99:zz:Q_)" matches |
| `LegacyTitle.WordTitleWithSuffixIsLegacy` | custom_components/hubitat/__init__.py:47 | a trailing " old" after the closing ")" still matches |
| `LegacyTitle.OtherTitlesAreNotLegacy` | custom_components/hubitat/__init__.py:47-50 | "My Hub", a dash-separated address and a five-group address do not match, and "My Hub" is kept |
| `LegacyTitle.MacTitleIsRetitled` | custom_components/hubitat/__init__.py:47-50 | "Hubitat (AA:BB:CC:DD:EE:FF)" becomes "Hubitat (3)" for hub id "3" |
| `LegacyTitle.MatchPrefix` | custom_components/hubitat/__init__.py:47 | `re.match` of a fixed-width pattern: the pattern matches a prefix of the text, token by token; a match needs at least as many characters as the pattern has tokens. Run on `LegacyPattern`, the transcription of the regex at line 47. |
| `LegacyTitle.IsLegacyTitle` | custom_components/hubitat/__init__.py:47 | the shape the regex accepts, by position: "Hubitat (" at 0-8, word characters at 9 and 10, five `:\w\w` groups at 11-25, ")" at 26, any text after |
| `LegacyTitle.Retitled` | custom_components/hubitat/__init__.py:47-50 | the definition of the rename: a legacy title (`IsLegacyTitle`) becomes "Hubitat (", the hub id, ")", any other title is kept. `SetupEntry` is proved to apply it through the regex (`LegacyPatternMatchesIff`); its properties are `RetitledIsFinal` and `RetitledIdempotent` |
| `LegacyTitle.RetitledIsFinal` | custom_components/hubitat/__init__.py:47-50 | a title the rename wrote is not renamed again when the hub id contains no ":" |
| `LegacyTitle.RetitledIdempotent` | custom_components/hubitat/__init__.py:47-50 | renaming twice with the same hub id gives the same title as renaming once |
| `Lifecycle.AllSucceeded` | custom_components/hubitat/__init__.py:61-68 | the AND of the platform unload results is true exactly when every result is true, so an empty list gives true |
| `Lifecycle.AllSucceededIgnoresOrder` | custom_components/hubitat/__init__.py:61-68 | the AND depends only on the multiset of results, not on their positions; `gather` returns them in platform order, and this lemma shows the model does not rely on that order |
| `Lifecycle.OneFailureFails` | custom_components/hubitat/__init__.py:61-68 | one failing platform makes the AND false |
| `Lifecycle.GetHub` | custom_components/hubitat/__init__.py:70 | the lookup assumed for `get_hub`, whose code in `.device` is not part of this model (see "## Left out"): the hub registered under the entry id, or none when the table or the key is absent. That the hub found is the one built for the entry is `UnloadEntry`'s last ensures, from the table invariant |
| `Lifecycle.SetupEntry` | custom_components/hubitat/__init__.py:26-55 | returns the hub's setup result. The table exists afterwards. On failure the table holds what it held before, or is newly created empty, and the title and events are unchanged. On success the entry id maps to a hub numbered one past the table's old size, every other key keeps its hub, the title is renamed exactly when it is a legacy title, and exactly one ready event is fired. No hub is unloaded. The table invariant is kept. |
| `Lifecycle.UnloadEntry` | custom_components/hubitat/__init__.py:58-77 | with no hub registered for the entry, the lookup fails and nothing changes. Otherwise it returns the AND of the platform results and tells the registered hub, the one built for this entry, to unload. It removes the entry id from the table exactly when the AND is true, and leaves every other key untouched. No event is fired. The table invariant is kept. |
| `Lifecycle.SetupThenUnload` | custom_components/hubitat/__init__.py:26-77 | a successful setup followed by an unload where every platform succeeds returns true, leaves the table as it was minus the entry id, and fires one ready event |
| `Lifecycle.TwoHubsAreNumbered` | custom_components/hubitat/__init__.py:28-36 | on a fresh `hass`, two distinct entries set up in turn get sequence numbers 1 and 2 |
| `Lifecycle.NumberReusedAfterUnload` | custom_components/hubitat/__init__.py:31 | with A (1) and B (2) set up and A unloaded, a new entry C is numbered 2, the number B still holds |

## Left out

- `CONFIG_SCHEMA` (line 18) is a voluptuous schema object, not logic.
- The legacy `async_setup` (lines 21-23) only returns `True`.
- The `Hub` class and `get_hub` live in `.device`, which is not part of this model. The hub is reduced to the outcome of `async_setup` (`hubSetupOk`) and its `id` (`hubId`). `GetHub` assumes that `get_hub` reads the integration's table and raises when the entry id is absent. That raise becomes the `HubNotFound` outcome.
- Exceptions raised by `hub.async_setup` or `hub.async_update_device_registry` are not modelled. A raise from `async_setup` leaves the same state as a `False` result. A raise from the registry sync, after the hub is filed, would skip the rename and the event.
- `async_update_device_registry` (line 38), the `stop_hub` shutdown listener (lines 40-43) and `hub.unload()`'s own effects are calls into the framework or the hub. Only the unload is recorded, in the ghost log `unloadedHubs`.
- The event type `CONF_HUBITAT_EVENT` comes from `.const`, which is not part of this model. An event is recorded only by its payload.
- `hass.config_entries.async_update_entry` becomes an assignment to the entry's title.
- `async_forward_entry_unload` and `asyncio.gather` (lines 62-67) run concurrently. They become a sequence of results in any order, since only their AND is used (`AllSucceededIgnoresOrder`).
- Logging (lines 53, 72) is left out.
- Lifecycle.SetupEntry: each coroutine is one atomic step here; interleaving at its awaits is not modelled. The source reads the table size at line 31, suspends at `await hub.async_setup()` (line 33) and inserts at line 36. Two setups interleaved there would both get sequence number size + 1. The contract, including "every other key keeps its hub", holds only for runs without such interleaving.
- Lifecycle.UnloadEntry: likewise atomic. The source suspends at lines 62 and 70 before the `pop` at line 75. If another coroutine removed the entry in between, that `pop` would raise `KeyError`; the model does not capture this.
- Lifecycle.UnloadEntry: exceptions from the unload calls are not modelled. An exception from `async_forward_entry_unload` is re-raised by `gather`, which skips the hub unload at line 70 and the `pop` at line 75. An exception from `hub.unload()` skips the `pop`. The model only covers the paths where these calls return.
- LegacyTitle.IsWordChar: `\w` is ASCII here: letters, digits and underscore. Python's Unicode word characters beyond ASCII are not modelled.
