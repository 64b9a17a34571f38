# Satellite 6 dynamic inventory — a verified model

`satellite-inventory.py` is an Ansible dynamic-inventory script. It asks a Red
Hat Satellite 6 server for its hosts and prints them grouped by hostgroup, or
prints the cached details of one host. Answers are kept in two cache files in
the configured cache directory. `ansible-hammer.cache` holds the host-detail
mapping. `ansible-hammer.index` holds the hostgroup-to-host-names mapping.
This project models the decision and data-structure logic of the
`SatelliteInventory` class in Dafny and proves what it does.

Modules:

- `Records` (`records.dfy`): JSON values, the `name`/`hostgroup_name` host record, `Option`.
- `SafeName` (`safe_name.dfy`): `to_safe`, the substitution of every character outside `[A-Za-z0-9-]` by `_`.
- `Grouping` (`grouping.dfy`): `push` and the grouping loop of `update_cache`, stated as pure functions. They are compared with a reference filter (`NamesIn`) and a name count (`Size`).
- `CacheStore` (`cache_store.dfy`): the two cache files as slots. A slot is absent, or present with an mtime and a content that decodes or does not. The module also holds `is_cache_valid` and the `CacheFiles` class (write, read).
- `Satellite` (`satellite.dfy`): a stand-in for the API (`SatelliteApi`) that records every request. It also holds the `SatelliteInventory` class, whose fields `inventory` and `cache` are updated in place by `update_cache`, the two loads, `get_host_info` and the body of `__init__`.

Inputs that the script gets from the outside are parameters:

- The API's answers are the `orgFound` flag and the `hosts` sequence of `SatelliteApi`.
- The settings file is `Settings`.
- The command line is `Args`.
- The clock is a `now: int` argument.
- The disk is the `CacheFiles` object.

Behaviour of the code that the model reproduces and the proofs make explicit:

- `is_cache_valid` (lines 110-120, with the paths at 138-139) reads the mtime of `ansible-hammer.cache`, the host-detail file, not that of the group file `ansible-hammer.index`. For the index it only checks that the file exists. See `CacheStore.CacheValidIgnoresIndexAge`. If only the `.index` write of a refresh fails, the next runs accept the old index as valid. See `CacheStore.StaleIndexAccepted`.
- Refreshing twice in one run is not idempotent. `update_cache` never clears `self.inventory` before grouping, so a second call appends every name again. See `Grouping.GroupTwiceDuplicates` and `Grouping.GroupTwiceChanges`.
- A refresh never fills `self.cache`. It only writes back the detail mapping it already held. So `--host` prints the details held before any refresh, which is `{}` in a fresh run. A host missing from them always makes `get_host_info` refresh, and that refresh adds one more copy of every name to the inventory and rewrites `ansible-hammer.index`. This happens after a forced or stale refresh in the same run, and also on a valid cache. So each such `--host` run grows the index by one copy of the API's host list, and a later list run prints the duplicates. See `Satellite.SatelliteInventory.GetHostInfo` and `Satellite.SatelliteInventory.Run`.

## Model

| member | source | states |
|---|---|---|
| `SafeName.ToSafe` | satellite-inventory.py:213-217 | The result has the word's length. Characters in `[A-Za-z0-9-]` are kept at their position. Every other character becomes `_`. |
| `SafeName.ToSafeAlphabet` | satellite-inventory.py:213-217 | Every character of `to_safe(w)` is in `[A-Za-z0-9_-]`. |
| `SafeName.ToSafeFixedPoints` | satellite-inventory.py:213-217 | `to_safe(w) == w` iff every character of `w` is in `[A-Za-z0-9_-]`. |
| `SafeName.ToSafeIdempotent` | satellite-inventory.py:213-217 | `to_safe(to_safe(w)) == to_safe(w)`. |
| `Grouping.Push` | satellite-inventory.py:183-190 | Afterwards the key is present. Its list is the old list with the element appended, or `[element]` if the key was absent. Every other key keeps its list. |
| `Grouping.GroupHosts` | satellite-inventory.py:158-161 | After the loop, a group's list is its old list followed by the names of that group's records, in API order. |
| `Grouping.GroupAt` | satellite-inventory.py:158-161 | A key exists after the loop iff it existed before or some record has that hostgroup. Keys are created only on first encounter. The list contents are as in `GroupHosts`. |
| `Grouping.GroupKeepsExisting` | satellite-inventory.py:158-161 | Lists already in the mapping are kept as prefixes. Nothing is cleared or reordered. |
| `Grouping.GroupExample` | satellite-inventory.py:158-161 | Hosts a/G1, b/G1, c/G2 grouped into an empty mapping give `{"G1": ["a","b"], "G2": ["c"]}`. |
| `Grouping.PushSize` | satellite-inventory.py:183-190 | One push adds exactly one name to the mapping's total. |
| `Grouping.GroupSize` | satellite-inventory.py:158-161 | The loop adds exactly `len(results)` names in total, on top of what the mapping held. |
| `Grouping.GroupTwiceDuplicates` | satellite-inventory.py:158-161 | Grouping the same answer twice without clearing lists each group's names twice. |
| `Grouping.GroupTwiceChanges` | satellite-inventory.py:158-161 | For a non-empty answer, a second grouping pass always changes the mapping, so refreshing is not idempotent within a run. |
| `CacheStore.CacheValidIff` | satellite-inventory.py:110-120 | Valid iff three things hold: the `.cache` file exists, its mtime plus the maximum age is strictly greater than now, and the `.index` file exists. |
| `CacheStore.CacheValidIgnoresIndexAge` | satellite-inventory.py:110-120 | Only the `.cache` file's mtime counts. The `.index` file's mtime and both files' contents do not change the verdict. |
| `CacheStore.StaleIndexAccepted` | satellite-inventory.py:113-118 | A `.cache` file written at some time makes any existing `.index` file valid until the maximum age has passed, whatever the index's age or contents. |
| `CacheStore.ExpiryIsPermanent` | satellite-inventory.py:113-118 | A cache that is invalid at some time stays invalid at every later time. |
| `CacheStore.JustWrittenValid` | satellite-inventory.py:113-118 | Files written at `now` are valid at `now` iff the maximum age is positive. |
| `CacheStore.LoadAfterWrite` | satellite-inventory.py:199-211 | Loading a file that a write left behind gives back the mapping written. |
| `CacheStore.LoadFails` | satellite-inventory.py:192-204 | A load raises iff the file is missing or not decodable. The error names the file and the reason. |
| `CacheStore.CacheFiles.WriteCache` | satellite-inventory.py:206-211 | If the file can be opened for writing, the `.cache` file then holds the given mapping, stamped `now`, and reads back as that mapping. Otherwise the write raises and leaves the file as it was. |
| `CacheStore.CacheFiles.WriteIndex` | satellite-inventory.py:206-211 | If the file can be opened for writing, the `.index` file then holds the given mapping, stamped `now`, and reads back as that mapping. Otherwise the write raises and leaves the file as it was. |
| `CacheStore.CacheFiles.ReadCache` | satellite-inventory.py:202-204 | Succeeds iff the `.cache` file exists and decodes. On success it returns that file's mapping. |
| `CacheStore.CacheFiles.ReadIndex` | satellite-inventory.py:195-197 | Succeeds iff the `.index` file exists and decodes. On success it returns that file's mapping. |
| `Satellite.SatelliteApi.SearchOrganization` | satellite-inventory.py:82-84 | Answers whether the organisation exists, and records one search request. |
| `Satellite.SatelliteApi.GetHostgroups` | satellite-inventory.py:155 | Records one `hostgroups` request. |
| `Satellite.SatelliteApi.GetHosts` | satellite-inventory.py:156 | Returns the host records in API order, and records one `hosts` request. |
| `Satellite.SatelliteInventory.constructor` | satellite-inventory.py:70-80 | Both mappings start empty. Arguments and settings are fixed for the run. |
| `Satellite.SatelliteInventory.UpdateCache` | satellite-inventory.py:152-164 | The inventory becomes `Group(old inventory, hosts)`, with no clearing. The detail mapping is untouched, and exactly two API requests are made. The `.cache` file holds exactly the in-memory detail mapping, and the `.index` file holds the new inventory. If the `.cache` write fails, it raises and neither file changes. If only the `.index` write fails, it raises after the `.cache` file was rewritten. |
| `Satellite.SatelliteInventory.LoadInventoryFromCache` | satellite-inventory.py:192-197 | The inventory becomes the `.index` file's mapping, or it raises with the file's error and leaves the inventory as it was. |
| `Satellite.SatelliteInventory.LoadCacheFromCache` | satellite-inventory.py:199-204 | The detail mapping becomes the `.cache` file's mapping, or it raises with the file's error and leaves it as it was. |
| `Satellite.SatelliteInventory.RefreshOrLoad` | satellite-inventory.py:87-93 | A refresh happens iff `--refresh-cache` is set or the cache is invalid, and a failed write is raised. Otherwise both mappings are loaded from disk, the files are untouched and no API request is made. A failed index load skips the detail load. |
| `Satellite.SatelliteInventory.GetHostInfo` | satellite-inventory.py:166-181 | The answer is the host's record in the detail mapping (loaded if it was empty), or `{}`. A refresh happens exactly when the host is missing, and it never changes the answer. A refresh whose write fails raises. |
| `Satellite.SatelliteInventory.Run` | satellite-inventory.py:82-103 | Exit 1 iff the organisation is missing, and nothing else is done. A refresh whose write fails ends the run with that error. After a refresh, list prints the grouped answer. After a refresh, `--host` prints from the detail mapping held before it, and a missing host triggers a second refresh that doubles every group's names in the `.index` file. With a valid cache and no forced refresh, both files are loaded. A load error ends the run, and list prints the loaded index without any hosts or hostgroups request. `--host` prints the host's record from the loaded `.cache` file with no further request. If the host is missing there, it requests hostgroups and hosts, appends every name to the loaded index, rewrites both files and prints `{}`. The final inventory, detail mapping, files and request log are given for every path. |

## Left out

- HTTP: authentication, TLS verification, URLs and network errors are left out (lines 82-85, 105-108, 155-156). The API is the `SatelliteApi` stand-in, which answers the same host list to every `hosts` request in a run. A failing or malformed answer, and a host record without `name` or `hostgroup_name`, are not modelled.
- `hostgroup_name` is modelled as a string. A host without a hostgroup (JSON `null`) is not modelled.
- Reading the settings file and parsing the command line (`read_settings`, `parse_cli_args`, lines 122-150) are left out. Their results are the `Settings` and `Args` inputs. `--list` is never read by the script and has no field. Missing settings keys are not modelled.
- JSON encoding and pretty-printing (`json_format_dict`, lines 219-226) are left out. The output is the abstract value printed (`Output`). JSON numbers are integers.
- SafeName.ToSafe: a string is a sequence of Unicode characters, and the substitution replaces each character. That is what `re.sub` does on the Unicode strings that `json.loads` returns. On a Python 2 byte string it would replace each byte instead, so a character encoded as several UTF-8 bytes would become several underscores. The byte-string case is not modelled. The script itself never calls `to_safe`.
- File contents are abstracted: a cache file either decodes to a mapping of the expected shape or does not (`Garbled`). A write either fails to open the file, leaving it as it was, or stores the whole document. A write that fails half-way (a full disk) and concurrent writers are not modelled. Whether a file can be opened for writing is fixed for the whole run.
- Time: `time()` and `os.path.getmtime` return floats. They are modelled as whole seconds, and one `now` serves the whole run.
- `print` and `sys.exit` (lines 85, 103) become the `RunResult` value returned by `Run`.
- `push` (lines 183-190) mutates the dict passed in. Dafny maps are values, so `Grouping.Push` returns the updated mapping. Aliasing of that dict is not modelled. `update_cache` itself performs the step in place on the `inventory` field.
- The hostgroups answer (`self.hostgroups`), `katello_api` and `orderby_keyname` are fetched or defined but never used. Only the `hostgroups` request itself is recorded.
