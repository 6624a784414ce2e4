# Feeder registry model

A Dafny model of the feeder registry in the AgentGridWatch agent
(`agent/AgentGridWatch/agent_grid_watch/agent.py`). The registry is one
process-wide key-value store, `_memory`, with three key families:

- `feeder:<id>` holds one feeder record;
- `all_feeders` holds the index of registered ids;
- `alerts:<id>` holds a feeder's alerts (no operation writes it).

Four tool functions work on the store:

- `register_feeder` checks for a duplicate, writes the record, then appends
  the id to the index;
- `get_registered_feeders` walks the index and decodes each record;
- `get_feeder_health` and `get_feeder_alerts` are guarded lookups.

Each tool returns `{"status": "success", "report": ...}` or
`{"status": "error", "error_message": ...}`.

## Layout

- `json_values.dfy` (`JsonValues`): the values the store holds after
  `json.load`. It also models the pieces of Python the registry relies on:
  - truthiness;
  - dict lookup with `d[k]`, `d.get(k)` and `k in d`;
  - iteration with `for x in v`;
  - `str()` of an index entry that is not a string.
- `responses.dfy` (`Responses`): the response shape. Besides the two
  returned dicts, there is a third variant, `Raised`, for a Python exception
  (KeyError, TypeError or AttributeError) that leaves a tool function.
- `store_keys.dfy` (`StoreKeys`): the key builders, and the proof that the
  key families never collide.
- `feeders.dfy` (`Feeders`): the `Feeder` record with `to_dict` and
  `from_dict`.
- `registry.dfy` (`Registry`):
  - each tool as a function of the store contents, which serves as its
    specification;
  - the class `FeederStore`, which holds `_memory` as a mutable field and
    implements the two tools the source writes step by step: registration
    updates the field, and listing uses a `for` loop;
  - two index invariants, together with the lemmas about registration and
    listing: `Indexed` (every entry of a list index has a record), which
    registration keeps on any store that has it, and `Consistent` (every
    entry is a string id with its own `to_dict` record), the shape the
    operations build from an empty store.
- `scenarios.dfy` (`Scenarios`): a concrete session from an empty store,
  and an index entry that has no record.

The store is `map<string, Json>`. A JSON object is the sequence of its
(key, value) insertions, read as a Python dict: the last insertion under a
key wins, and keys iterate in first-insertion order.

### Where the model follows the code

The model covers stores that `json.load` can produce but that the
operations never create. On such stores `get_registered_feeders` does not
always succeed:

- an index that is not iterable (a number or a boolean) raises TypeError;
- an index entry whose record is truthy but is not a dict raises TypeError;
- a record dict that lacks `feeder_id`, `name` or `location` raises KeyError.

`ListFeeders` models these paths. `ListConsistent` proves that on a store
satisfying the index invariant the listing always succeeds.

An entry is skipped when its record is missing and also when its record is
falsy (for example an empty dict), because the test is `if feeder_data:`.

`register_feeder` also raises in one case: when the index is neither a
list nor null, the `append` raises AttributeError. By then the record has
already been written, so it stays in the store.

## Model

| member | source | states |
|---|---|---|
| JsonValues.Get | agent/AgentGridWatch/agent_grid_watch/agent.py:93-96 | A dict lookup finds a value exactly when the key was inserted, and the value found is one stored under that key. |
| JsonValues.Iterate | agent/AgentGridWatch/agent_grid_watch/agent.py:171 | `for x in v` fails exactly for null, booleans and numbers. A list yields its own items. A string yields its characters, one one-character string each, in order. A dict yields its keys as strings, in first-insertion order. |
| Responses.AsDict | agent/AgentGridWatch/agent_grid_watch/agent.py:194-200 | A returned response is a dict with exactly the keys `status` and `report` (on success) or `status` and `error_message` (on error). `status` is "success" or "error", and the payload is under its key. |
| StoreKeys.KeysInjective | agent/AgentGridWatch/agent_grid_watch/agent.py:100-110 | Distinct ids get distinct `feeder:` keys and distinct `alerts:` keys. |
| StoreKeys.KeyFamiliesDisjoint | agent/AgentGridWatch/agent_grid_watch/agent.py:100-119 | No `feeder:` key and no `alerts:` key equals `all_feeders`, and no `feeder:` key equals any `alerts:` key. |
| Feeders.ToDict | agent/AgentGridWatch/agent_grid_watch/agent.py:67-79 | `to_dict` yields a non-empty dict with exactly the four keys `feeder_id`, `name`, `location` and `configuration`, each holding the matching attribute. |
| Feeders.FromDictOutcome | agent/AgentGridWatch/agent_grid_watch/agent.py:81-97 | `from_dict` succeeds exactly when the dict holds `feeder_id`, `name` and `location`. Otherwise it raises TypeError for a non-dict, or KeyError naming the first of the three keys that is missing. A decoded feeder holds the dict's values, and None when `configuration` is absent. |
| Feeders.FromDictOfToDict | agent/AgentGridWatch/agent_grid_watch/agent.py:67-97 | `from_dict(to_dict(f))` returns `f`, all four fields included. |
| Feeders.NormalFormIsStable | agent/AgentGridWatch/agent_grid_watch/agent.py:175 | After one pass of `from_dict(...).to_dict()`, a record is in normal form, and further passes leave it unchanged. |
| Registry.RegisterRejectsDuplicate | agent/AgentGridWatch/agent_grid_watch/agent.py:137-139 | An id whose `feeder:` key exists gets the error "Feeder ID '<id>' already exists.", and the store is unchanged. |
| Registry.RegisterNewFeeder | agent/AgentGridWatch/agent_grid_watch/agent.py:141-153 | A new id's record is the `to_dict` of the new feeder. The call succeeds exactly when the index is absent, null or a list. On success the index becomes the old list (or the empty list) with the id appended, and the report is the stored record. Otherwise AttributeError is raised, the record stays written and the index is unchanged. |
| Registry.RegisterFrame | agent/AgentGridWatch/agent_grid_watch/agent.py:141-151 | Registration changes no key other than the feeder's record key and `all_feeders`. |
| Registry.RegisterKeepsAlerts | agent/AgentGridWatch/agent_grid_watch/agent.py:141-151 | No `alerts:` entry, of any feeder, is changed by a registration. |
| Registry.DanglingIdIndexedAgain | agent/AgentGridWatch/agent_grid_watch/agent.py:145-151 | The index is not deduplicated: registering an id that the index holds without a record adds one more occurrence of it. |
| Registry.RegisterKeepsConsistent | agent/AgentGridWatch/agent_grid_watch/agent.py:136-153 | Registration keeps the invariant that every indexed id is a string with its own `to_dict` record. On a store with that invariant, registration never raises. |
| Registry.RegisterKeepsIndexed | agent/AgentGridWatch/agent_grid_watch/agent.py:138-151 | On any store, loaded or built by the operations, if every entry of a list index has a record under the key the listing looks up, this stays true after a registration, whatever its outcome, including the AttributeError path. |
| Registry.SecondRegistrationRejected | agent/AgentGridWatch/agent_grid_watch/agent.py:137-142 | After any first call for an id, whether it succeeded, was rejected or raised, registering the same id again is rejected, and the store stays as the first call left it. So an id whose first call raised after writing its record is never indexed. |
| Registry.RegisteredFeederIsFound | agent/AgentGridWatch/agent_grid_watch/agent.py:192-224 | After any registration call for an id, its health lookup returns "Operational and healthy.". Its alerts lookup returns the alert entry as it was before the call, or the empty list when that entry was absent or null. |
| Registry.Gather | agent/AgentGridWatch/agent_grid_watch/agent.py:170-176 | The loop lists no more records than it takes turns, and it completes only when no turn raised. |
| Registry.GatherStopsAtError | agent/AgentGridWatch/agent_grid_watch/agent.py:171-175 | Once `from_dict` raises, the entries after it do not affect the outcome. |
| Registry.GatherAppend | agent/AgentGridWatch/agent_grid_watch/agent.py:170-176 | The loop over two runs of entries lists the records of the first run followed by those of the second, so records keep index order. |
| Registry.GatherAllListed | agent/AgentGridWatch/agent_grid_watch/agent.py:174-175 | When every entry has a decodable record, all the records are listed, in order. |
| Registry.EntryContributionCases | agent/AgentGridWatch/agent_grid_watch/agent.py:172-175 | One turn of the loop skips an entry whose record is missing or falsy, raises TypeError for a truthy record that is not a dict, raises KeyError for a non-empty dict without `feeder_id`, and lists unchanged a record that `to_dict` wrote. |
| Registry.GatherPresent | agent/AgentGridWatch/agent_grid_watch/agent.py:170-175 | When every entry has either its own `to_dict` record or no truthy record, the loop completes and lists exactly the truthy records, in index order. |
| Registry.ListFeeders | agent/AgentGridWatch/agent_grid_watch/agent.py:157-176 | The listing never returns an error dict. An absent or null index gives the empty list, and a successful listing is a list. |
| Registry.ListConsistent | agent/AgentGridWatch/agent_grid_watch/agent.py:165-176 | On a store with the invariant, the listing succeeds and holds exactly the stored records of the indexed ids, one per entry, in index order. |
| Registry.ListMixed | agent/AgentGridWatch/agent_grid_watch/agent.py:165-176 | A list index that mixes ids with their own records and ids whose record is missing or falsy lists the present records in index order and leaves the others out. |
| Registry.DanglingEntriesDropped | agent/AgentGridWatch/agent_grid_watch/agent.py:172-174 | Index entries whose record is missing or falsy can be removed from anywhere in the index without changing the outcome. |
| Registry.ListBoundedByIndex | agent/AgentGridWatch/agent_grid_watch/agent.py:170-176 | A successful listing holds no more records than the index has entries. |
| Registry.ListAfterAppend | agent/AgentGridWatch/agent_grid_watch/agent.py:170-176 | Consider two consistent stores where the second's index is the first's plus one id and the earlier records are kept. The second lists the first's records followed by the new id's record. |
| Registry.RegisterThenList | agent/AgentGridWatch/agent_grid_watch/agent.py:145-176 | Registering a new feeder in a consistent store succeeds and appends exactly its record to the listing. The earlier records are unchanged. |
| Registry.FeederHealth | agent/AgentGridWatch/agent_grid_watch/agent.py:180-200 | The error "Feeder ID '<id>' not found." is returned exactly when the record key is absent; otherwise the report is "Operational and healthy.". |
| Registry.FeederAlerts | agent/AgentGridWatch/agent_grid_watch/agent.py:204-224 | The not-found error is returned exactly when the record key is absent. Otherwise the report is the stored `alerts:<id>` value, or the empty list when that value is absent or null; the report is never None and the lookup never raises. |
| Registry.FeederStore.constructor | agent/AgentGridWatch/agent_grid_watch/agent.py:20-33 | The store starts with the contents `_load_memory` produced. |
| Registry.FeederStore.RegisterFeeder | agent/AgentGridWatch/agent_grid_watch/agent.py:122-153 | The step-by-step registration returns the response `Register` specifies and leaves the store `Register` specifies. It preserves the index invariant and never raises on a store with that invariant. |
| Registry.FeederStore.Collect | agent/AgentGridWatch/agent_grid_watch/agent.py:170-175 | The loop yields exactly the outcome `Gather` specifies: the listed records in index order, or the first exception raised. |
| Registry.FeederStore.GetRegisteredFeeders | agent/AgentGridWatch/agent_grid_watch/agent.py:157-176 | The loop returns exactly the response `ListFeeders` specifies, including the first exception raised. It has no `modifies` clause, so it leaves the store unchanged. |
| Scenarios.FirstSession | agent/AgentGridWatch/agent_grid_watch/agent.py:122-224 | In a session from an empty store: "F1" is registered; a second registration of "F1" is rejected with the exact message; the listing holds one record; health succeeds for "F1" and reports "not found" for "F2"; the alerts of "F1" are the empty list. |
| Scenarios.DanglingEntrySkipped | agent/AgentGridWatch/agent_grid_watch/agent.py:171-174 | An index entry with no record is left out of the listing. |

## Left out

- `_load_memory` and `_save_memory` (agent.py:22-45) are file I/O with JSON (de)serialisation, and they swallow their exceptions. The store's constructor takes whatever map the load produced. Saves are treated as no-ops, so the window between the two saves of `register_feeder` is not modelled: a crash there leaves a record that is not in the index.
- `get_weather` and `get_current_time` are stubs or read the wall clock and time zones. `root_agent` is wiring into an external agent framework. None of them touches the store.
- JSON floats are not modelled; numbers are integers. `configuration` is opaque and is never validated.
- When an index entry is a nested list or dict, `str()` formats its string parts without the escaping of quotes, backslashes and unprintable characters that Python's `repr` applies. Non-string index entries are outside what the operations write.
- Aliasing is not modelled: Python shares the `configuration` object between the stored record and the report, and appends to the index list in place. The model works on values.
- The key order of `_memory` itself is not modelled. It only affects the layout of the saved file.
- `get_feeder_health` and `get_feeder_alerts` are modelled as functions of the store (`FeederHealth`, `FeederAlerts`) rather than as methods of `FeederStore`, because they only read it.
