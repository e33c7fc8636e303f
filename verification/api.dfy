/**
 The client object (RiotApi): a registry of region schedulers, one per
 platform id, created on the first call for that platform and reused by
 every later one. All regions share the client's configuration and store.
 */
module Client {
  import opened Limits
  import opened Url
  import opened Scheduler

  class RiotApi {
    const config: Config
    const store: Store
    var regions: map<string, Region>
    /** The application limiters every region of this client is built with. */
    ghost const appLimiters: seq<Limiter>

    /** Each registered region was built for its own platform id from the
        client's configuration and store. Distinct platform ids therefore name
        distinct region objects. */
    ghost predicate Valid()
      reads this, regions.Values
    {
      && appLimiters == AppLimiters(config)
      && forall p :: p in regions ==>
        && regions[p].platformId == p
        && regions[p].config == config
        && regions[p].store == store
        && regions[p].appLimiters == appLimiters
    }

    /** `new RiotApi(key, config)`: the merged configuration, a store client and
        no region yet. */
    constructor(config: Config, store: Store)
      ensures this.config == config && this.store == store
      ensures appLimiters == AppLimiters(config)
      ensures regions == map[]
      ensures Valid()
    {
      this.config := config;
      this.store := store;
      appLimiters := AppLimiters(config);
      regions := map[];
    }

    /** The registry half of `get`: the region of a platform id, created from
        the client's configuration and store on the first call for it and the
        same object on every later call. */
    method RegionFor(platformId: string) returns (r: Region)
      requires Valid()
      modifies this
      ensures Valid()
      ensures regions == old(regions)[platformId := r]
      ensures platformId in old(regions) ==> r == old(regions[platformId])
      ensures platformId !in old(regions) ==> fresh(r) && r.State() == Idle
    {
      if platformId in regions {
        r := regions[platformId];
      } else {
        r := new Region(config, store, platformId);
        regions := regions[platformId := r];
      }
    }

    /** `RiotApi.prototype.get(region, ...)`: hand the call to the region of its
        platform id, creating that region first if this is the first call for
        it. Only that region changes, as `Region.get` changes it; a new region
        starts idle. */
    method Get(call: Call, env: nat -> StepInput) returns (id: nat)
      requires Valid()
      modifies this, regions.Values
      ensures Valid()
      ensures regions.Keys == old(regions.Keys) + {call.region}
      ensures forall p :: p in old(regions) ==> regions[p] == old(regions[p])
      ensures forall p :: p in old(regions) && p != call.region ==> unchanged(regions[p])
      ensures call.region in old(regions) ==>
        var r := regions[call.region];
        && id == old(r.nextId)
        && r.State() == r.Run(Pushed(old(r.State()), call), env, store.data).0
      ensures call.region !in old(regions) ==>
        var r := regions[call.region];
        && fresh(r) && id == 0
        && r.State() == r.Run(Pushed(Idle, call), env, store.data).0
    {
      var r := RegionFor(call.region);
      if call.region in old(regions) {
        assert old(regions)[call.region] == r;
        assert r in old(regions).Values;
      }
      id := r.Get(call, env);
      assert forall p :: p in regions && p != call.region ==> regions[p] != r;
    }

    /** The application limiters are not kept per region: every region of a
        client consults the same two buckets, named `env + "app_0"` and
        `env + "app_1"` whatever the platform id. */
    lemma SharedAppLimiters(a: string, b: string)
      requires Valid() && a in regions && b in regions
      ensures regions[a].appLimiters == regions[b].appLimiters
      ensures |regions[a].appLimiters| == 2
      ensures regions[a].appLimiters[0].namespace == config.env + "app_0"
      ensures regions[a].appLimiters[1].namespace == config.env + "app_1"
    {
    }
  }
}
