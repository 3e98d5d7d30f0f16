/**
 * The SSM Parameter Store provider: each directory's parameters are fetched
 * once, kept as a listing in the shared local cache, and looked up by name.
 */
module SsmParamStore {
  import opened Base
  import opened Text
  import opened Directories
  import opened Providers
  import opened AwsErrors

  const SsmSource: string := "ssm"

  /** One entry of a `get_parameters_by_path` page. */
  datatype Parameter = Parameter(name: string, value: string)

  /** What paginating a path delivers: the pages received, then possibly an exception. */
  datatype Fetched = Fetched(pages: seq<seq<Parameter>>, error: Option<AwsError>)

  /** The parameter store, by directory path. */
  type ParameterStore = string -> Fetched

  /** The item for a parameter found under directory `d`. */
  function ParameterItem(d: Directory, p: Parameter): (item: DirectoryItem)
    ensures item.directory == d && item.name == Lower(LastSegment(p.name, '/'))
    ensures item.value == Some(Text(p.value)) && item.source == Some(SsmSource) && item.cacheable
  {
    SimpleItem(Some(d), LastSegment(p.name, '/'), Some(Text(p.value)), SsmSource, true)
  }

  function PageItems(d: Directory, page: seq<Parameter>): (r: seq<DirectoryItem>)
    ensures |r| == |page| && forall j :: 0 <= j < |page| ==> r[j] == ParameterItem(d, page[j])
  {
    seq(|page|, j requires 0 <= j < |page| => ParameterItem(d, page[j]))
  }

  /** The items of all pages, in order. */
  function FetchedItems(d: Directory, pages: seq<seq<Parameter>>): seq<DirectoryItem>
  {
    if |pages| == 0 then [] else FetchedItems(d, pages[..|pages| - 1]) + PageItems(d, pages[|pages| - 1])
  }

  /** One more parameter of a page adds its item at the end. */
  lemma PageItemsStep(d: Directory, page: seq<Parameter>, j: nat)
    requires j < |page|
    ensures PageItems(d, page[..j + 1]) == PageItems(d, page[..j]) + [ParameterItem(d, page[j])]
  {
  }

  /** One more page adds its items at the end. */
  lemma FetchedItemsStep(d: Directory, pages: seq<seq<Parameter>>, i: nat)
    requires i < |pages|
    ensures FetchedItems(d, pages[..i + 1]) == FetchedItems(d, pages[..i]) + PageItems(d, pages[i][..|pages[i]|])
  {
    assert pages[..i + 1][..i] == pages[..i];
    assert pages[i][..|pages[i]|] == pages[i];
  }

  /** The listing stored for `d`: the items of the pages received, empty when the first page failed. */
  function FetchListing(d: Directory, f: Fetched): Listing
  {
    ListingOf(FetchedItems(d, f.pages))
  }

  /** Every fetched item is a parameter of some page, placed in `d`. */
  lemma {:induction false} FetchedItemsMembers(d: Directory, pages: seq<seq<Parameter>>, x: DirectoryItem)
    ensures x in FetchedItems(d, pages) <==>
      exists i, j :: 0 <= i < |pages| && 0 <= j < |pages[i]| && x == ParameterItem(d, pages[i][j])
  {
    if x in FetchedItems(d, pages) {
      FetchedItemFromPage(d, pages, x);
    }
    if exists i, j :: 0 <= i < |pages| && 0 <= j < |pages[i]| && x == ParameterItem(d, pages[i][j]) {
      var i, j :| 0 <= i < |pages| && 0 <= j < |pages[i]| && x == ParameterItem(d, pages[i][j]);
      PageItemFetched(d, pages, i, j);
    }
  }

  lemma {:induction false} FetchedItemFromPage(d: Directory, pages: seq<seq<Parameter>>, x: DirectoryItem)
    requires x in FetchedItems(d, pages)
    ensures exists i, j :: 0 <= i < |pages| && 0 <= j < |pages[i]| && x == ParameterItem(d, pages[i][j])
  {
    var init := pages[..|pages| - 1];
    var last := pages[|pages| - 1];
    if x in FetchedItems(d, init) {
      FetchedItemFromPage(d, init, x);
      var i, j :| 0 <= i < |init| && 0 <= j < |init[i]| && x == ParameterItem(d, init[i][j]);
      assert init[i] == pages[i];
    } else {
      var j :| 0 <= j < |last| && PageItems(d, last)[j] == x;
      assert x == ParameterItem(d, pages[|pages| - 1][j]);
    }
  }

  lemma {:induction false} PageItemFetched(d: Directory, pages: seq<seq<Parameter>>, i: nat, j: nat)
    requires i < |pages| && j < |pages[i]|
    ensures ParameterItem(d, pages[i][j]) in FetchedItems(d, pages)
  {
    var init := pages[..|pages| - 1];
    if i < |init| {
      assert init[i] == pages[i];
      PageItemFetched(d, init, i, j);
    } else {
      assert PageItems(d, pages[|pages| - 1])[j] == ParameterItem(d, pages[i][j]);
    }
  }

  /**
   * A name is in the fetched listing iff some received parameter's last
   * segment is that name (in any case); the item found is that parameter's,
   * placed in `d`, with source `ssm`.
   */
  lemma FetchListingLookup(d: Directory, f: Fetched, name: string)
    ensures Lookup(FetchListing(d, f), name).Some? <==>
      exists i, j :: 0 <= i < |f.pages| && 0 <= j < |f.pages[i]| && Lower(LastSegment(f.pages[i][j].name, '/')) == Lower(name)
    ensures Lookup(FetchListing(d, f), name).Some? ==>
      exists i, j :: 0 <= i < |f.pages| && 0 <= j < |f.pages[i]|
        && Lookup(FetchListing(d, f), name).value == ParameterItem(d, f.pages[i][j])
  {
    var xs := FetchedItems(d, f.pages);
    var k := Lower(name);
    ListingOfHoldsLast(xs, k);
    if Lookup(FetchListing(d, f), name).Some? {
      var n :| 0 <= n < |xs| && xs[n] == ListingOf(xs)[k] && forall m :: n < m < |xs| ==> xs[m].name != k;
      FetchedItemsMembers(d, f.pages, xs[n]);
    } else {
      forall i, j | 0 <= i < |f.pages| && 0 <= j < |f.pages[i]|
        ensures Lower(LastSegment(f.pages[i][j].name, '/')) != k
      {
        var x := ParameterItem(d, f.pages[i][j]);
        FetchedItemsMembers(d, f.pages, x);
        var n :| 0 <= n < |xs| && xs[n] == x;
      }
    }
  }

  /**
   * `_item_only_for_directory` on the provider's listings: the lookup result
   * and the listings afterwards. A listing already held is used as it is; a
   * fetch whose exception is raised again stores nothing; otherwise what was
   * received (nothing, after an ignored error) is stored for good.
   */
  function ItemForDirectory(listings: map<Directory, Listing>, d: Directory, name: string, f: Fetched)
    : (Result<Option<DirectoryItem>, XconError>, map<Directory, Listing>)
  {
    if d in listings then (Ok(Lookup(listings[d], name)), listings)
    else if f.error.Some? && Classify(f.error.value).Reraised? then (Err(Aws(f.error.value)), listings)
    else (Ok(Lookup(FetchListing(d, f), name)), listings[d := FetchListing(d, f)])
  }

  /** A directory is fetched at most once: after a successful lookup, later ones ignore the store. */
  lemma FetchedOnce(listings: map<Directory, Listing>, d: Directory, name: string, f: Fetched, name2: string, f2: Fetched)
    requires ItemForDirectory(listings, d, name, f).0.Ok?
    ensures var after := ItemForDirectory(listings, d, name, f).1;
      d in after && ItemForDirectory(after, d, name2, f2) == (Ok(Lookup(after[d], name2)), after)
  {
  }

  /** After an ignored error on the first page the directory holds an empty listing: every later lookup is `None`. */
  lemma IgnoredErrorLeavesEmptyListing(listings: map<Directory, Listing>, d: Directory, name: string, e: AwsError, name2: string, f2: Fetched)
    requires d !in listings && !Classify(e).Reraised?
    ensures var (r, after) := ItemForDirectory(listings, d, name, Fetched([], Some(e)));
      r == Ok(None) && after == listings[d := map[]]
      && ItemForDirectory(after, d, name2, f2) == (Ok(None), after)
  {
  }

  /** `SsmParamStoreProvider`; the parameter store is passed in as `store`. */
  class SsmParamStoreProvider {
    /** The provider's key in the shared local cache. */
    const id: nat
    const errors: ProviderErrors

    constructor (id: nat)
      ensures this.id == id && fresh(errors)
      ensures errors.erroredDirectories == {} && errors.botocoreErrorIgnored.None?
    {
      this.id := id;
      errors := new ProviderErrors();
    }

    /** The pagination loop: the items of every page received, in order. */
    static method CollectItems(d: Directory, pages: seq<seq<Parameter>>) returns (items: seq<DirectoryItem>)
      ensures items == FetchedItems(d, pages)
    {
      items := [];
      var i := 0;
      while i < |pages|
        invariant 0 <= i <= |pages|
        invariant items == FetchedItems(d, pages[..i])
      {
        var page := pages[i];
        var j := 0;
        while j < |page|
          invariant 0 <= j <= |page|
          invariant items == FetchedItems(d, pages[..i]) + PageItems(d, page[..j])
        {
          PageItemsStep(d, page, j);
          items := items + [ParameterItem(d, page[j])];
          j := j + 1;
        }
        FetchedItemsStep(d, pages, i);
        i := i + 1;
      }
      assert pages[..i] == pages;
    }

    /** `_item_only_for_directory`. */
    method ItemOnlyForDirectory(name: string, d: Directory, cache: LocalProviderCache<ProviderCache>, now: int,
                                store: ParameterStore)
      returns (r: Result<Option<DirectoryItem>, XconError>)
      requires cache.Valid() && HoldsListings(cache.State(), id)
      modifies cache, errors
      ensures cache.Valid()
      ensures var expired := Expire(old(cache.State()), cache.expireTimeDelta, now);
        var (res, after) := ItemForDirectory(ListingsOf(expired, id), d, name, store(d.path));
        r == res && cache.State() == WithListings(expired, id, after)
      ensures var expired := Expire(old(cache.State()), cache.expireTimeDelta, now);
        var f := store(d.path);
        if d !in ListingsOf(expired, id) && f.error.Some? then
          errors.erroredDirectories == MarkedAfter(f.error.value, old(errors.erroredDirectories), d)
          && errors.botocoreErrorIgnored == BotoCoreAfter(f.error.value, old(errors.botocoreErrorIgnored))
        else
          errors.erroredDirectories == old(errors.erroredDirectories)
          && errors.botocoreErrorIgnored == old(errors.botocoreErrorIgnored)
    {
      ghost var expired := Expire(old(cache.State()), cache.expireTimeDelta, now);
      var listings := AwsLocalCache(cache, id, now);
      if d in listings {
        return Ok(Lookup(listings[d], name));
      }
      ghost var fetched := cache.State();
      r := FetchDirectory(name, d, cache, now, store);
      assert WithListings(fetched, id, ItemForDirectory(listings, d, name, store(d.path)).1)
          == WithListings(expired, id, ItemForDirectory(listings, d, name, store(d.path)).1);
    }

    /** The fetching half of `_item_only_for_directory`, for a directory not held yet. */
    method FetchDirectory(name: string, d: Directory, cache: LocalProviderCache<ProviderCache>, now: int,
                          store: ParameterStore)
      returns (r: Result<Option<DirectoryItem>, XconError>)
      requires cache.Valid() && HoldsListings(cache.State(), id)
      requires cache.lastReset >= now - cache.expireTimeDelta
      requires id in cache.entries && d !in ListingsOf(cache.State(), id)
      modifies cache, errors
      ensures cache.Valid()
      ensures var (res, after) := ItemForDirectory(ListingsOf(old(cache.State()), id), d, name, store(d.path));
        r == res && cache.State() == WithListings(old(cache.State()), id, after)
      ensures var f := store(d.path);
        if f.error.Some? then
          errors.erroredDirectories == MarkedAfter(f.error.value, old(errors.erroredDirectories), d)
          && errors.botocoreErrorIgnored == BotoCoreAfter(f.error.value, old(errors.botocoreErrorIgnored))
        else
          errors.erroredDirectories == old(errors.erroredDirectories)
          && errors.botocoreErrorIgnored == old(errors.botocoreErrorIgnored)
    {
      var f := store(d.path);
      var items := CollectItems(d, f.pages);
      if f.error.Some? {
        var handled := HandleAwsException(f.error.value, errors, d);
        if handled.Err? {
          assert cache.State() == WithListings(cache.State(), id, ListingsOf(cache.State(), id));
          return Err(handled.error);
        }
      }
      var listing := new DirectoryListing(Some(d), items);
      AwsStoreListing(cache, id, now, d, listing.items);
      r := Ok(Lookup(listing.items, name));
    }

    /** `get_item`: no directory, no lookup; otherwise the directory (or path) is looked in. */
    method GetItem(name: string, directory: Option<DirectoryOrPath>, cache: LocalProviderCache<ProviderCache>,
                   now: int, store: ParameterStore)
      returns (r: Result<Option<DirectoryItem>, XconError>)
      requires cache.Valid() && HoldsListings(cache.State(), id)
      modifies cache, errors
      ensures cache.Valid() && HoldsListings(cache.State(), id)
      ensures directory.None? ==> r == Ok(None) && cache.State() == old(cache.State())
      ensures directory.Some? && DirectoryFrom(directory.value).Err? ==>
        r == Err(DirectoryFrom(directory.value).error) && cache.State() == old(cache.State())
      ensures directory.Some? && DirectoryFrom(directory.value).Ok? ==>
        var d := DirectoryFrom(directory.value).value;
        var expired := Expire(old(cache.State()), cache.expireTimeDelta, now);
        var (res, after) := ItemForDirectory(ListingsOf(expired, id), d, name, store(d.path));
        r == res && cache.State() == WithListings(expired, id, after)
    {
      if directory.None? {
        return Ok(None);
      }
      var parsed := DirectoryFrom(directory.value);
      if parsed.Err? {
        return Err(parsed.error);
      }
      r := ItemOnlyForDirectory(name, parsed.value, cache, now, store);
    }

    /** `retrieved_items_map`: the directory's listing, `None` when it has not been fetched. */
    method RetrievedItemsMap(directory: DirectoryOrPath, cache: LocalProviderCache<ProviderCache>, now: int)
      returns (r: Result<Option<Listing>, XconError>)
      requires cache.Valid() && HoldsListings(cache.State(), id)
      modifies cache
      ensures cache.Valid() && HoldsListings(cache.State(), id)
      ensures DirectoryFrom(directory).Err? ==> r == Err(DirectoryFrom(directory).error)
      ensures DirectoryFrom(directory).Ok? ==>
        var d := DirectoryFrom(directory).value;
        var listings := ListingsOf(Expire(old(cache.State()), cache.expireTimeDelta, now), id);
        r == Ok(if d in listings then Some(listings[d]) else None)
    {
      var parsed := DirectoryFrom(directory);
      if parsed.Err? {
        return Err(parsed.error);
      }
      var listings := AwsLocalCache(cache, id, now);
      r := Ok(if parsed.value in listings then Some(listings[parsed.value]) else None);
    }
  }
}
