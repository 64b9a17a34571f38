/** The `SatelliteInventory` object: it groups the hosts the Satellite API
    returns by hostgroup, keeps them in a two-file cache, and prints either
    the whole mapping or the details of one host. */
module Satellite {
  import opened Records
  import opened Grouping
  import opened CacheStore

  /** The API calls the inventory makes, in the order they are made. */
  datatype Request = OrganizationSearch(name: string) | HostgroupsRequest | HostsRequest

  /** The Satellite 6 API as seen by one run: whether the configured
      organisation exists, and the `results` of the `hosts` endpoint. Every
      request is recorded in `log`. */
  class SatelliteApi {
    const orgFound: bool
    const hosts: seq<HostRecord>
    var log: seq<Request>

    constructor(orgFound: bool, hosts: seq<HostRecord>)
      ensures this.orgFound == orgFound && this.hosts == hosts && log == []
    {
      this.orgFound := orgFound;
      this.hosts := hosts;
      log := [];
    }

    /** `organizations?search=<name>`: true when the `results` are not empty. */
    method SearchOrganization(name: string) returns (found: bool)
      modifies this`log
      ensures found == orgFound
      ensures log == old(log) + [OrganizationSearch(name)]
    {
      found := orgFound;
      log := log + [OrganizationSearch(name)];
    }

    /** `hostgroups`: fetched, and its answer never used. */
    method GetHostgroups()
      modifies this`log
      ensures log == old(log) + [HostgroupsRequest]
    {
      log := log + [HostgroupsRequest];
    }

    /** `hosts`: the host records, in the order the API lists them. */
    method GetHosts() returns (results: seq<HostRecord>)
      modifies this`log
      ensures results == hosts
      ensures log == old(log) + [HostsRequest]
    {
      results := hosts;
      log := log + [HostsRequest];
    }
  }

  /** The command line: `--host NAME` and `--refresh-cache` (`--list` is
      accepted but never read). */
  datatype Args = Args(host: Option<string>, refreshCache: bool)

  /** The `hammer` section of the settings file that the core reads. */
  datatype Settings = Settings(organisation: string, cacheMaxAge: int)

  /** What is printed: the whole mapping, or one host's details. */
  datatype Output = InventoryOut(groups: Inventory) | HostVars(vars: Json)

  /** How a run ends: output printed, `sys.exit(1)`, or an uncaught error. */
  datatype RunResult = Printed(output: Output) | Exit(code: int) | Crash(error: Error)

  /** `if self.args.host:` is Python truthiness: an empty name lists instead. */
  predicate HostRequested(args: Args)
  {
    args.host.Some? && args.host.value != ""
  }

  /** The details printed for `host`: its cached record, or `{}`. */
  function LookupHost(cache: map<string, Json>, host: string): Json
  {
    if host in cache then cache[host] else EmptyObject
  }

  class SatelliteInventory {
    /** Hostgroup name to host names. */
    var inventory: Inventory
    /** Host name to host details. */
    var cache: map<string, Json>
    const args: Args
    const settings: Settings
    const store: CacheFiles
    const api: SatelliteApi

    /** The start of `__init__`: both mappings empty, settings and arguments read. */
    constructor(args: Args, settings: Settings, store: CacheFiles, api: SatelliteApi)
      ensures inventory == map[] && cache == map[]
      ensures this.args == args && this.settings == settings
      ensures this.store == store && this.api == api
    {
      inventory := map[];
      cache := map[];
      this.args := args;
      this.settings := settings;
      this.store := store;
      this.api := api;
    }

    /** `is_cache_valid` on the files as they are now. */
    predicate CacheValid(now: int)
      reads store
    {
      IsCacheValid(store.cacheFile, store.indexFile, settings.cacheMaxAge, now)
    }

    /** The refresh decision of `__init__`. */
    predicate MustRefresh(now: int)
      reads store
    {
      args.refreshCache || !CacheValid(now)
    }

    /** The detail mapping `get_host_info` looks in: the one in memory, or,
        when that is empty, the one loaded from the `.cache` file. */
    function DetailsForLookup(): Result<map<string, Json>>
      reads this, store
    {
      if cache != map[] then Ok(cache) else Load(store.cacheFile, CacheFile)
    }

    /** `update_cache`: fetch hostgroups and hosts, append every host's name to
        the list of its hostgroup (the mapping is not cleared first), and
        write both files; the detail mapping is written back unchanged. A
        write that fails raises after the grouping, and a failed `.cache`
        write skips the `.index` write. */
    method UpdateCache(now: int) returns (o: Outcome)
      modifies this`inventory, store, api
      ensures inventory == Group(old(inventory), api.hosts)
      ensures cache == old(cache)
      ensures api.log == old(api.log) + [HostgroupsRequest, HostsRequest]
      ensures o == (if store.Writable() then Pass else Fail(store.WriteError()))
      ensures store.cacheFile == (if store.cacheWritable then Present(now, Holds(cache)) else old(store.cacheFile))
      ensures store.indexFile == (if store.Writable() then Present(now, Holds(inventory)) else old(store.indexFile))
    {
      api.GetHostgroups();
      var results := api.GetHosts();
      assert api.log == old(api.log) + [HostgroupsRequest, HostsRequest];
      var i := 0;
      while i < |results|
        invariant 0 <= i <= |results|
        invariant inventory == Group(old(inventory), results[..i])
        modifies this`inventory
      {
        var system := results[i];
        ghost var before := inventory;
        if system.hostgroupName !in inventory {
          inventory := inventory[system.hostgroupName := []];
        }
        inventory := inventory[system.hostgroupName := inventory[system.hostgroupName] + [system.name]];
        assert inventory == Push(before, system.hostgroupName, system.name) by {
          var pushed := Push(before, system.hostgroupName, system.name);
          assert inventory.Keys == pushed.Keys;
          forall k | k in inventory
            ensures inventory[k] == pushed[k]
          {
          }
        }
        assert results[..i + 1][..i] == results[..i];
        i := i + 1;
      }
      assert results[..|results|] == results;
      o := store.WriteCache(cache, now);
      if o.Fail? {
        return;
      }
      o := store.WriteIndex(inventory, now);
    }

    /** `load_inventory_from_cache`. */
    method LoadInventoryFromCache() returns (o: Outcome)
      modifies this`inventory
      ensures Load(store.indexFile, IndexFile).Ok? ==>
        o == Pass && inventory == Load(store.indexFile, IndexFile).value
      ensures Load(store.indexFile, IndexFile).Err? ==>
        o == Fail(Load(store.indexFile, IndexFile).error) && inventory == old(inventory)
    {
      var r := store.ReadIndex();
      if r.Err? {
        return Fail(r.error);
      }
      inventory := r.value;
      o := Pass;
    }

    /** `load_cache_from_cache`. */
    method LoadCacheFromCache() returns (o: Outcome)
      modifies this`cache
      ensures Load(store.cacheFile, CacheFile).Ok? ==>
        o == Pass && cache == Load(store.cacheFile, CacheFile).value
      ensures Load(store.cacheFile, CacheFile).Err? ==>
        o == Fail(Load(store.cacheFile, CacheFile).error) && cache == old(cache)
    {
      var r := store.ReadCache();
      if r.Err? {
        return Fail(r.error);
      }
      cache := r.value;
      o := Pass;
    }

    /** The refresh-or-load step of `__init__`: a refresh happens iff
        `--refresh-cache` is given or the cache is not valid; otherwise both
        mappings are loaded from disk and the API is not asked anything. */
    method RefreshOrLoad(now: int) returns (o: Outcome)
      modifies this, store, api
      ensures old(MustRefresh(now)) ==>
        && o == (if store.Writable() then Pass else Fail(store.WriteError()))
        && inventory == Group(old(inventory), api.hosts)
        && cache == old(cache)
        && store.cacheFile == (if store.cacheWritable then Present(now, Holds(cache)) else old(store.cacheFile))
        && store.indexFile == (if store.Writable() then Present(now, Holds(inventory)) else old(store.indexFile))
        && api.log == old(api.log) + [HostgroupsRequest, HostsRequest]
      ensures !old(MustRefresh(now)) ==>
        && unchanged(store)
        && api.log == old(api.log)
        && var li, lc := Load(store.indexFile, IndexFile), Load(store.cacheFile, CacheFile);
        && (li.Err? ==> o == Fail(li.error) && inventory == old(inventory) && cache == old(cache))
        && (li.Ok? && lc.Err? ==> o == Fail(lc.error) && inventory == li.value && cache == old(cache))
        && (li.Ok? && lc.Ok? ==> o == Pass && inventory == li.value && cache == lc.value)
    {
      if args.refreshCache {
        o := UpdateCache(now);
      } else if !CacheValid(now) {
        o := UpdateCache(now);
      } else {
        o := LoadInventoryFromCache();
        if o.Pass? {
          o := LoadCacheFromCache();
        }
      }
    }

    /** `get_host_info`: load the detail mapping if it is empty, refresh once
        if the host is missing, and print `{}` if it is still missing. The
        refresh leaves the detail mapping as it was, so any answer is decided
        by the mapping before the refresh. */
    method GetHostInfo(now: int) returns (r: Result<Json>)
      requires args.host.Some?
      modifies this, store, api
      ensures old(DetailsForLookup()).Err? ==>
        && r == Err(old(DetailsForLookup()).error)
        && inventory == old(inventory) && cache == old(cache)
        && unchanged(store) && api.log == old(api.log)
      ensures old(DetailsForLookup()).Ok? ==>
        var details, host := old(DetailsForLookup()).value, args.host.value;
        && cache == details
        && (r.Ok? ==> r.value == LookupHost(details, host))
        && (host in details ==>
              && r == Ok(details[host])
              && inventory == old(inventory) && unchanged(store) && api.log == old(api.log))
        && (host !in details ==>
              && r == (if store.Writable() then Ok(EmptyObject) else Err(store.WriteError()))
              && inventory == Group(old(inventory), api.hosts)
              && store.cacheFile == (if store.cacheWritable then Present(now, Holds(details)) else old(store.cacheFile))
              && store.indexFile == (if store.Writable() then Present(now, Holds(inventory)) else old(store.indexFile))
              && api.log == old(api.log) + [HostgroupsRequest, HostsRequest])
    {
      var host := args.host.value;
      if cache == map[] {
        var o := LoadCacheFromCache();
        if o.Fail? {
          return Err(o.error);
        }
      }
      if host !in cache {
        var o := UpdateCache(now);
        if o.Fail? {
          return Err(o.error);
        }
        if host !in cache {
          return Ok(EmptyObject);
        }
      }
      r := Ok(cache[host]);
    }

    /** The rest of `__init__`: check the organisation, refresh or load, and
        print the mapping or the requested host's details. */
    method Run(now: int) returns (r: RunResult)
      modifies this, store, api
      ensures r.Exit? <==> !api.orgFound
      ensures !api.orgFound ==>
        && r == Exit(1)
        && inventory == old(inventory) && cache == old(cache) && unchanged(store)
        && api.log == old(api.log) + [OrganizationSearch(settings.organisation)]
      // Refresh whose writes fail: the error is raised after the grouping.
      ensures api.orgFound && old(MustRefresh(now)) && !store.Writable() ==>
        && r == Crash(store.WriteError())
        && inventory == Group(old(inventory), api.hosts) && cache == old(cache)
        && store.cacheFile == (if store.cacheWritable then Present(now, Holds(old(cache))) else old(store.cacheFile))
        && store.indexFile == old(store.indexFile)
        && api.log == old(api.log) + [OrganizationSearch(settings.organisation), HostgroupsRequest, HostsRequest]
      // Refresh, then list: the printed mapping is the grouped API answer.
      ensures api.orgFound && old(MustRefresh(now)) && store.Writable() && !HostRequested(args) ==>
        && r == Printed(InventoryOut(Group(old(inventory), api.hosts)))
        && inventory == Group(old(inventory), api.hosts) && cache == old(cache)
        && store.indexFile == Present(now, Holds(inventory))
        && store.cacheFile == Present(now, Holds(old(cache)))
        && api.log == old(api.log) + [OrganizationSearch(settings.organisation), HostgroupsRequest, HostsRequest]
      // Refresh, then one host: the refresh never fills the detail mapping, so
      // the answer comes from the mapping held before; a missing host triggers
      // a second refresh, which appends every name once more.
      ensures api.orgFound && old(MustRefresh(now)) && store.Writable() && HostRequested(args) ==>
        var host := args.host.value;
        && r == Printed(HostVars(LookupHost(old(cache), host)))
        && cache == old(cache)
        && store.cacheFile == Present(now, Holds(old(cache)))
        && (host in old(cache) ==>
              && inventory == Group(old(inventory), api.hosts)
              && store.indexFile == Present(now, Holds(inventory))
              && api.log == old(api.log) + [OrganizationSearch(settings.organisation),
                                            HostgroupsRequest, HostsRequest])
        && (host !in old(cache) ==>
              && inventory == Group(Group(old(inventory), api.hosts), api.hosts)
              && store.indexFile == Present(now, Holds(inventory))
              && api.log == old(api.log) + [OrganizationSearch(settings.organisation),
                                            HostgroupsRequest, HostsRequest,
                                            HostgroupsRequest, HostsRequest])
      // Valid cache, no forced refresh, a file that does not load: the error
      // is raised and the API is asked nothing beyond the organisation search.
      ensures api.orgFound && !old(MustRefresh(now)) ==>
        && var li, lc := old(Load(store.indexFile, IndexFile)), old(Load(store.cacheFile, CacheFile));
        && (li.Err? ==>
              && r == Crash(li.error)
              && inventory == old(inventory) && cache == old(cache) && unchanged(store)
              && api.log == old(api.log) + [OrganizationSearch(settings.organisation)])
        && (li.Ok? && lc.Err? ==>
              && r == Crash(lc.error)
              && inventory == li.value && cache == old(cache) && unchanged(store)
              && api.log == old(api.log) + [OrganizationSearch(settings.organisation)])
      // Valid cache, no forced refresh, list: both files are loaded and the
      // API is asked nothing beyond the organisation search.
      ensures api.orgFound && !old(MustRefresh(now)) && !HostRequested(args) ==>
        && var li, lc := old(Load(store.indexFile, IndexFile)), old(Load(store.cacheFile, CacheFile));
        && (li.Ok? && lc.Ok? ==>
              && r == Printed(InventoryOut(li.value))
              && inventory == li.value && cache == lc.value && unchanged(store)
              && api.log == old(api.log) + [OrganizationSearch(settings.organisation)])
      // Valid cache, no forced refresh, one host: the loaded `.cache` file
      // decides the answer. A host missing from it makes `get_host_info`
      // refresh, which requests hostgroups and hosts, appends every name to
      // the loaded index once more and rewrites both files.
      ensures api.orgFound && !old(MustRefresh(now)) && HostRequested(args) ==>
        && var li, lc := old(Load(store.indexFile, IndexFile)), old(Load(store.cacheFile, CacheFile));
        && var host := args.host.value;
        && (li.Ok? && lc.Ok? && host in lc.value ==>
              && r == Printed(HostVars(lc.value[host]))
              && inventory == li.value && cache == lc.value && unchanged(store)
              && api.log == old(api.log) + [OrganizationSearch(settings.organisation)])
        && (li.Ok? && lc.Ok? && host !in lc.value ==>
              && r == (if store.Writable() then Printed(HostVars(EmptyObject)) else Crash(store.WriteError()))
              && inventory == Group(li.value, api.hosts) && cache == lc.value
              && store.cacheFile == (if store.cacheWritable then Present(now, Holds(lc.value)) else old(store.cacheFile))
              && store.indexFile == (if store.Writable() then Present(now, Holds(inventory)) else old(store.indexFile))
              && api.log == old(api.log) + [OrganizationSearch(settings.organisation),
                                            HostgroupsRequest, HostsRequest])
    {
      var found := api.SearchOrganization(settings.organisation);
      if !found {
        return Exit(1);
      }
      var o := RefreshOrLoad(now);
      if o.Fail? {
        return Crash(o.error);
      }
      if HostRequested(args) {
        var info := GetHostInfo(now);
        if info.Err? {
          return Crash(info.error);
        }
        r := Printed(HostVars(info.value));
      } else {
        r := Printed(InventoryOut(inventory));
      }
    }
  }
}
