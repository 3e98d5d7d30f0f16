/**
 * The environmental provider: a snapshot of the process environment (or of
 * variables handed to it), looked up by case-insensitive name.
 */
module Environmental {
  import opened Base
  import opened Text
  import opened Directories
  import opened Providers

  const EnvironmentalPath: string := "/_environmental"
  const EnvironmentalDirectory: Directory := Directory(EnvironmentalPath, false)
  const EnvironmentalSource: string := "env"

  /** An environment: its variables in iteration order. */
  type Environ = seq<(string, string)>

  /** The directory string `/_environmental` of the snapshot items parses into a plain directory. */
  lemma EnvironmentalDirectoryParses()
    ensures FromPath(EnvironmentalPath, None) == Ok(EnvironmentalDirectory)
  {
    var s := "_environmental";
    assert '/' !in s && '{' !in s && '}' !in s;
    var p := "/" + s;
    assert EnvironmentalPath == p;
    FromServicePathRoundTrip(s);
    assert FromPath(p, None) == Ok(Directory(p, false));
  }

  /** The snapshot item for one variable. */
  function VariableItem(v: (string, string)): (item: DirectoryItem)
    ensures item.name == Lower(v.0) && item.originalName == v.0
    ensures item.value == Some(Text(v.1))
    ensures item.directory == EnvironmentalDirectory
    ensures !item.cacheable && item.source == Some(EnvironmentalSource)
  {
    SimpleItem(Some(EnvironmentalDirectory), v.0, Some(Text(v.1)), EnvironmentalSource, false)
  }

  function SnapshotItems(vars: Environ): (r: seq<DirectoryItem>)
    ensures |r| == |vars| && forall i :: 0 <= i < |vars| ==> r[i] == VariableItem(vars[i])
  {
    seq(|vars|, i requires 0 <= i < |vars| => VariableItem(vars[i]))
  }

  /** The listing `_create_snapshot` fills: one item per variable, added in order. */
  function Snapshot(vars: Environ): Listing
  {
    ListingOf(SnapshotItems(vars))
  }

  /**
   * A name is found in the snapshot iff some variable has it in any case, and
   * what is found is the item of the last such variable.
   */
  lemma SnapshotLookup(vars: Environ, name: string)
    ensures Lookup(Snapshot(vars), name).Some? <==>
      exists i :: 0 <= i < |vars| && Lower(vars[i].0) == Lower(name)
    ensures Lookup(Snapshot(vars), name).Some? ==>
      exists i :: 0 <= i < |vars| && Lower(vars[i].0) == Lower(name)
        && Lookup(Snapshot(vars), name).value == VariableItem(vars[i])
        && forall j :: i < j < |vars| ==> Lower(vars[j].0) != Lower(name)
  {
    var xs := SnapshotItems(vars);
    ListingOfHoldsLast(xs, Lower(name));
    if Lookup(Snapshot(vars), name).Some? {
      var i :| 0 <= i < |xs| && xs[i] == ListingOf(xs)[Lower(name)]
               && forall j :: i < j < |xs| ==> xs[j].name != Lower(name);
      assert Lower(vars[i].0) == Lower(name) && Lookup(Snapshot(vars), name).value == VariableItem(vars[i]);
    } else {
      forall i | 0 <= i < |vars| ensures Lower(vars[i].0) != Lower(name) {
        assert xs[i].name == Lower(vars[i].0);
      }
    }
  }

  /** Every snapshot item is a non-cacheable `env` item of `/_environmental`. */
  lemma {:induction false} SnapshotItemsAreEnvironmental(vars: Environ)
    ensures forall k :: k in Snapshot(vars) ==>
      Snapshot(vars)[k].directory == EnvironmentalDirectory && !Snapshot(vars)[k].cacheable
      && Snapshot(vars)[k].source == Some(EnvironmentalSource)
  {
    var xs := SnapshotItems(vars);
    forall k | k in Snapshot(vars)
      ensures Snapshot(vars)[k].directory == EnvironmentalDirectory && !Snapshot(vars)[k].cacheable
              && Snapshot(vars)[k].source == Some(EnvironmentalSource)
    {
      ListingOfHoldsLast(xs, k);
      var i :| 0 <= i < |xs| && xs[i] == ListingOf(xs)[k] && forall j :: i < j < |xs| ==> xs[j].name != k;
      assert Snapshot(vars)[k] == VariableItem(vars[i]);
    }
  }

  /** `_create_snapshot`: a listing filled with one item per variable, in order. */
  method CreateSnapshot(vars: Environ) returns (listing: DirectoryListing)
    ensures fresh(listing) && listing.Valid()
    ensures listing.items == Snapshot(vars)
  {
    listing := new DirectoryListing(None, []);
    var i := 0;
    while i < |vars|
      invariant 0 <= i <= |vars|
      invariant listing.Valid()
      invariant listing.items == ListingOf(SnapshotItems(vars)[..i])
    {
      assert SnapshotItems(vars)[..i + 1][..i] == SnapshotItems(vars)[..i];
      listing.AddItem(VariableItem(vars[i]));
      i := i + 1;
    }
    assert SnapshotItems(vars)[..i] == SnapshotItems(vars);
  }

  /** The snapshot the provider's entry in a cache state holds, if any. */
  predicate HoldsSnapshot(s: CacheState<ProviderCache>, id: nat)
  {
    id in s.entries ==> s.entries[id].EnvironSnapshot?
  }

  /**
   * The snapshot a lookup uses: the user-provided one, else the one in the
   * (expired) shared cache, else a new snapshot of the environment as it is now.
   */
  function CurrentSnapshot(user: Option<Listing>, s: CacheState<ProviderCache>, delta: int, now: int, id: nat, environ: Environ)
    : Listing
  {
    if user.Some? then user.value
    else
      var e := Expire(s, delta, now);
      if id in e.entries && e.entries[id].EnvironSnapshot? then e.entries[id].items else Snapshot(environ)
  }

  /**
   * `EnvironmentalProvider`. The process environment is passed in as `environ`
   * wherever the source would read `os.environ`.
   */
  class EnvironmentalProvider {
    /** The provider's key in the shared local cache. */
    const id: nat
    /** A snapshot of user-provided variables: permanent, never expires. */
    var userProvidedCache: Option<Listing>

    /** `EnvironmentalProvider(env_vars)`: variables given up front become the permanent snapshot. */
    constructor (id: nat, envVars: Option<Environ>)
      ensures this.id == id
      ensures userProvidedCache == if envVars.Some? then Some(Snapshot(envVars.value)) else None
    {
      this.id := id;
      if envVars.Some? {
        var listing := CreateSnapshot(envVars.value);
        userProvidedCache := Some(listing.items);
      } else {
        userProvidedCache := None;
      }
    }

    /**
     * `local_cache`: the user-provided snapshot, else the provider's entry in
     * the shared cache, whose constructor stores a snapshot of the environment
     * itself and returns `None`.
     */
    method LocalCache(cache: LocalProviderCache<ProviderCache>, now: int, environ: Environ) returns (listing: Listing)
      requires cache.Valid() && HoldsSnapshot(cache.State(), id)
      modifies cache
      ensures cache.Valid() && HoldsSnapshot(cache.State(), id)
      ensures listing == CurrentSnapshot(userProvidedCache, old(cache.State()), cache.expireTimeDelta, now, id, environ)
      ensures userProvidedCache.Some? ==> cache.State() == old(cache.State())
      ensures userProvidedCache.None? ==>
        (cache.State(), Ok(Some(EnvironSnapshot(listing)))) ==
        GetCache(old(cache.State()), cache.expireTimeDelta, now, id, SetsAndReturnsNone(EnvironSnapshot(Snapshot(environ))))
    {
      if userProvidedCache.Some? {
        return userProvidedCache.value;
      }
      var snapshot := CreateSnapshot(environ);
      var r := cache.GetCacheForProvider(id, now, SetsAndReturnsNone(EnvironSnapshot(snapshot.items)));
      listing := r.value.value.items;
    }

    /** `get_item_without_environ`: case-insensitive lookup in the snapshot. */
    method GetItemWithoutEnviron(name: string, cache: LocalProviderCache<ProviderCache>, now: int, environ: Environ)
      returns (item: Option<DirectoryItem>)
      requires cache.Valid() && HoldsSnapshot(cache.State(), id)
      modifies cache
      ensures cache.Valid() && HoldsSnapshot(cache.State(), id)
      ensures item == Lookup(CurrentSnapshot(userProvidedCache, old(cache.State()), cache.expireTimeDelta, now, id, environ), name)
    {
      var listing := LocalCache(cache, now, environ);
      item := Lookup(listing, name);
    }

    /** `get_value_without_environ`: `None` for an absent name, the item's value otherwise. */
    method GetValueWithoutEnviron(name: string, cache: LocalProviderCache<ProviderCache>, now: int, environ: Environ)
      returns (value: Option<Value>)
      requires cache.Valid() && HoldsSnapshot(cache.State(), id)
      modifies cache
      ensures cache.Valid() && HoldsSnapshot(cache.State(), id)
      ensures var item := Lookup(CurrentSnapshot(userProvidedCache, old(cache.State()), cache.expireTimeDelta, now, id, environ), name);
        value == if item.None? then None else item.value.value
    {
      var item := GetItemWithoutEnviron(name, cache, now, environ);
      if item.None? {
        return None;
      }
      value := item.value.value;
    }

    /** `get_item`: the directory (and the chains) play no part. */
    method GetItem(name: string, directory: Option<DirectoryOrPath>, cache: LocalProviderCache<ProviderCache>,
                   now: int, environ: Environ)
      returns (item: Option<DirectoryItem>)
      requires cache.Valid() && HoldsSnapshot(cache.State(), id)
      modifies cache
      ensures cache.Valid() && HoldsSnapshot(cache.State(), id)
      ensures item == Lookup(CurrentSnapshot(userProvidedCache, old(cache.State()), cache.expireTimeDelta, now, id, environ), name)
    {
      item := GetItemWithoutEnviron(name, cache, now, environ);
    }

    /** `retrieved_items_map`: always an empty map, never `None`, so the chain never stops here. */
    function RetrievedItemsMap(directory: DirectoryOrPath): (r: Option<Listing>)
      ensures r.Some? && r.value == map[]
    {
      Some(map[])
    }
  }

  /** Without a user snapshot, the snapshot lives in the shared cache until it expires. */
  lemma EnvironSnapshotUntilReset(s: CacheState<ProviderCache>, delta: int, t1: int, t2: int, id: nat,
                                  environ1: Environ, environ2: Environ)
    requires HoldsSnapshot(s, id)
    requires GetCache(s, delta, t1, id, SetsAndReturnsNone(EnvironSnapshot(Snapshot(environ1)))).0.lastReset >= t2 - delta
    ensures var s1 := GetCache(s, delta, t1, id, SetsAndReturnsNone(EnvironSnapshot(Snapshot(environ1)))).0;
      CurrentSnapshot(None, s1, delta, t2, id, environ2) == CurrentSnapshot(None, s, delta, t1, id, environ1)
  {
  }
}
