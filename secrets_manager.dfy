/**
 * The Secrets Manager provider: the names of all secrets are listed once and
 * grouped by directory; a secret's value is fetched the first time it is
 * asked for and then kept.
 */
module SecretsManager {
  import opened Base
  import opened Text
  import opened Directories
  import opened Providers
  import opened AwsErrors

  const SecretsSource: string := "secrets"
  const NameOnlySource: string := "secrets-nameOnly"
  const ResourceNotFound: string := "ResourceNotFoundException"

  /** What paginating `list_secrets` delivers: the secret names of the pages received, then possibly an exception. */
  datatype SecretList = SecretList(pages: seq<seq<string>>, error: Option<AwsError>)

  /** What `get_secret_value` gives for a path: the secret string (absent: `None`), or an exception. */
  datatype SecretFetch = Secret(secret: Option<string>) | Failed(error: AwsError)

  type SecretStore = string -> SecretFetch

  /** The directory a failed listing is reported against: `Directory(path="list_secrets")`. */
  const ListSecretsDirectory: Directory := Directory("/global", false)

  lemma ListSecretsDirectoryParses()
    ensures FromPath("list_secrets", None) == Ok(ListSecretsDirectory)
  {
    var p := "list_secrets";
    assert '/' !in p;
    SplitNoSep(p, '/');
    assert ServiceEnvFromPath(p) == (None, None);
    GlobalPath();
    PlainNewDirectory("", "", false);
  }

  /** No service and no environment make the path `/global`. */
  lemma GlobalPath()
    ensures PathFromComponents("", "", false) == "/global"
    ensures '{' !in "/global" && '}' !in "/global"
  {
  }

  // ---------------------------------------------------------------------
  // The names available
  // ---------------------------------------------------------------------

  /** All names of the pages, in order. */
  function Flatten(pages: seq<seq<string>>): seq<string>
  {
    if |pages| == 0 then [] else Flatten(pages[..|pages| - 1]) + pages[|pages| - 1]
  }

  /** The name-only item for a listed secret. */
  function NameOnlyItem(d: Directory, name: string): (item: DirectoryItem)
    ensures item.directory == d && item.name == Lower(name) && item.originalName == name
    ensures item.value.None? && item.source == Some(NameOnlySource)
  {
    SimpleItem(Some(d), name, None, NameOnlySource, true)
  }

  /**
   * One listed secret: its name is the last `/`-segment and its directory
   * the rest; an empty name is skipped. An unparseable directory raises.
   */
  function AddAvailable(m: map<Directory, Listing>, fullPath: string): Result<map<Directory, Listing>, XconError>
  {
    var name := LastSegment(fullPath, '/');
    if name == "" then Ok(m)
    else
      match FromPath(InitSegments(fullPath, '/'), None)
      case Err(e) => Err(e)
      case Ok(d) =>
        var item := NameOnlyItem(d, name);
        Ok(m[d := (if d in m then m[d] else map[])[item.name := item]])
  }

  /** The available names, grouped by directory, after listing the given secret names in order. */
  function AvailableFrom(names: seq<string>): Result<map<Directory, Listing>, XconError>
  {
    if |names| == 0 then Ok(map[])
    else
      var prev := AvailableFrom(names[..|names| - 1]);
      if prev.Err? then prev else AddAvailable(prev.value, names[|names| - 1])
  }

  /** A secret `dir/name` with a plain name is listed as `name` under the directory parsed from `dir`. */
  lemma AddAvailableSplits(m: map<Directory, Listing>, dir: string, name: string)
    requires name != "" && '/' !in name
    requires FromPath(dir, None).Ok?
    ensures var d := FromPath(dir, None).value;
      AddAvailable(m, dir + "/" + name).Ok?
      && d in AddAvailable(m, dir + "/" + name).value
      && Lookup(AddAvailable(m, dir + "/" + name).value[d], name) == Some(NameOnlyItem(d, name))
      && forall other :: other != d && other in m ==>
           other in AddAvailable(m, dir + "/" + name).value && AddAvailable(m, dir + "/" + name).value[other] == m[other]
  {
    SplitAtLast(dir, name, '/');
    assert dir + "/" + name == dir + ['/'] + name;
  }

  /** A listed secret whose name ends in `/` adds nothing. */
  lemma EmptyNameSkipped(m: map<Directory, Listing>, fullPath: string)
    requires |fullPath| > 0 && fullPath[|fullPath| - 1] == '/'
    ensures AddAvailable(m, fullPath) == Ok(m)
  {
    var init := fullPath[..|fullPath| - 1];
    assert fullPath == init + ['/'] + "";
    SplitAtLast(init, "", '/');
  }

  /** Every listed item sits in the listing of its own directory, under its own name. */
  lemma {:induction false} AvailableFromWellFormed(names: seq<string>)
    requires AvailableFrom(names).Ok?
    ensures var m := AvailableFrom(names).value;
      forall d, k :: d in m && k in m[d] ==> m[d][k].directory == d && m[d][k].name == k && m[d][k].value.None?
  {
    if |names| > 0 {
      AvailableFromWellFormed(names[..|names| - 1]);
    }
  }

  /** The per-directory state of the provider: fetched items, and the names available once listed. */
  predicate HoldsSecrets(s: CacheState<ProviderCache>, id: nat)
  {
    id in s.entries ==> s.entries[id].SecretsCache?
  }

  /** The provider's cache object: a fresh `_LocalSecretsManagerCache` when it has none. */
  function SecretsOf(s: CacheState<ProviderCache>, id: nat): (c: ProviderCache)
    ensures c.SecretsCache?
  {
    if id in s.entries && s.entries[id].SecretsCache? then s.entries[id] else SecretsCache(map[], None)
  }

  function WithSecrets(s: CacheState<ProviderCache>, id: nat, c: ProviderCache): (r: CacheState<ProviderCache>)
    requires c.SecretsCache?
    ensures HoldsSecrets(r, id) && SecretsOf(r, id) == c && r.lastReset == s.lastReset
  {
    s.(entries := s.entries[id := c])
  }

  /**
   * `_available_names_for_directory` on the provider's cache object: the
   * names available and the cache object afterwards. A listing is made once
   * and kept, even when empty after an ignored error; while it is being made,
   * an exception that is raised again leaves nothing stored.
   */
  function Available(c: ProviderCache, list: SecretList): (r: (Result<map<Directory, Listing>, XconError>, ProviderCache))
    requires c.SecretsCache?
    ensures r.1.SecretsCache? && r.1.directories == c.directories
    ensures c.available.Some? ==> r == (Ok(c.available.value), c)
    ensures r.0.Err? ==> r.1 == c
    ensures r.0.Ok? ==> r.1.available == Some(r.0.value)
  {
    if c.available.Some? then (Ok(c.available.value), c)
    else
      match AvailableFrom(Flatten(list.pages))
      case Err(e) => (Err(e), c)
      case Ok(m) =>
        if list.error.Some? && Classify(list.error.value).Reraised? then (Err(Aws(list.error.value)), c)
        else (Ok(m), c.(available := Some(m)))
  }

  // ---------------------------------------------------------------------
  // Secret values
  // ---------------------------------------------------------------------

  /** `f'{item.directory.path}/{item.original_name or item.name}'`. */
  function SecretPath(item: DirectoryItem): string
  {
    item.directory.path + "/" + (if item.originalName != "" then item.originalName else item.name)
  }

  /**
   * The secret after `get_secret_value`: a missing secret leaves `None`; any
   * other `ClientError` is handled (and may be raised again); anything else
   * is raised. `e.response['Error']['Code']` itself raises when the
   * response or the code is missing.
   */
  function SecretOutcome(f: SecretFetch): (r: Result<Option<string>, XconError>)
    ensures f.Secret? ==> r == Ok(f.secret)
    ensures r.Ok? && f.Failed? ==> r.value.None? && f.error.ClientError?
  {
    match f
    case Secret(s) => Ok(s)
    case Failed(e) =>
      if !e.ClientError? then Err(Aws(e))
      else if !e.hasResponse then Err(WrongType("response"))
      else if e.code.None? then Err(MissingKey("Code"))
      else if e.code.value == ResourceNotFound then Ok(None)
      else if Classify(e).Reraised? then Err(Aws(e))
      else Ok(None)
  }

  /** Whether the value fetch's exception went through `handle_aws_exception`. */
  predicate HandledFetch(f: SecretFetch)
  {
    f.Failed? && f.error.ClientError? && f.error.hasResponse && f.error.code.Some?
    && f.error.code.value != ResourceNotFound
  }

  /** The item stored after a value fetch, whatever the value. */
  function SecretItem(d: Directory, name: string, secret: Option<string>): (item: DirectoryItem)
    ensures item.directory == d && item.name == Lower(name) && item.source == Some(SecretsSource)
    ensures item.value.Some? <==> secret.Some?
    ensures secret.Some? ==> item.value == Some(Text(secret.value))
  {
    SimpleItem(Some(d), name, if secret.Some? then Some(Text(secret.value)) else None, SecretsSource, true)
  }

  /** The listing's exception, handed over when a listing is made and ends in one. */
  function ListingHandled(c: ProviderCache, list: SecretList): (hs: Handled)
    requires c.SecretsCache?
    ensures hs != [] <==> c.available.None? && AvailableFrom(Flatten(list.pages)).Ok? && list.error.Some?
    ensures hs != [] ==> hs == [(list.error.value, ListSecretsDirectory)]
  {
    if c.available.None? && AvailableFrom(Flatten(list.pages)).Ok? && list.error.Some? then
      [(list.error.value, ListSecretsDirectory)]
    else []
  }

  /**
   * The value half of `get_item`, for a name the listing has as `listed`: the
   * value is fetched by the listed path and stored as an item of its own, with
   * or without a value, and only a value is returned.
   */
  function FetchedSecret(c: ProviderCache, d: Directory, name: string, listed: DirectoryItem, store: SecretStore)
    : (r: (Result<Option<DirectoryItem>, XconError>, ProviderCache, Handled))
    requires c.SecretsCache?
    ensures r.1.SecretsCache? && r.1.available == c.available
    ensures r.0.Err? ==> r.1 == c
    ensures r.0.Ok? ==>
      d in r.1.directories && Lookup(r.1.directories[d], name).Some?
      && (r.0.value.Some? <==> store(SecretPath(listed)).Secret? && store(SecretPath(listed)).secret.Some?)
    ensures var f := store(SecretPath(listed));
      r.2 == if HandledFetch(f) then [(f.error, d)] else []
  {
    var f := store(SecretPath(listed));
    var handled := if HandledFetch(f) then [(f.error, d)] else [];
    match SecretOutcome(f)
    case Err(e) => (Err(e), c, handled)
    case Ok(secret) =>
      var item := SecretItem(d, name, secret);
      var dirs := c.directories;
      var c2 := c.(directories := dirs[d := (if d in dirs then dirs[d] else map[])[item.name := item]]);
      (Ok(if secret.Some? then Some(item) else None), c2, handled)
  }

  /**
   * `get_item` for a directory on the provider's cache object: the result,
   * the cache object afterwards and the exceptions handed over on the way.
   */
  function SecretLookup(c: ProviderCache, d: Directory, name: string, list: SecretList, store: SecretStore)
    : (r: (Result<Option<DirectoryItem>, XconError>, ProviderCache, Handled))
    requires c.SecretsCache?
    ensures r.1.SecretsCache?
  {
    if d in c.directories && Lookup(c.directories[d], name).Some? then
      var item := Lookup(c.directories[d], name).value;
      (Ok(if item.value.Some? then Some(item) else None), c, [])
    else
      var (available, c1) := Available(c, list);
      var listing := ListingHandled(c, list);
      if available.Err? then (Err(available.error), c1, listing)
      else if d !in available.value || Lookup(available.value[d], name).None? then (Ok(None), c1, listing)
      else
        var (res, c2, fetch) := FetchedSecret(c1, d, name, Lookup(available.value[d], name).value, store);
        (res, c2, listing + fetch)
  }

  /** A name not listed for the directory gives `None` without a value fetch: the store plays no part. */
  lemma UnlistedNameNeedsNoFetch(c: ProviderCache, d: Directory, name: string, list: SecretList,
                                 store1: SecretStore, store2: SecretStore)
    requires c.SecretsCache? && !(d in c.directories && Lookup(c.directories[d], name).Some?)
    requires Available(c, list).0.Ok?
    requires var m := Available(c, list).0.value; d !in m || Lookup(m[d], name).None?
    ensures SecretLookup(c, d, name, list, store1) == SecretLookup(c, d, name, list, store2)
    ensures SecretLookup(c, d, name, list, store1).0 == Ok(None)
  {
  }

  /**
   * After a value fetch the item is stored (even with no value): the next
   * lookup of that name answers from it, needs neither the listing nor the
   * store, and returns `None` for a missing value.
   */
  lemma FetchedValueIsKept(c: ProviderCache, d: Directory, name: string, list: SecretList, store: SecretStore,
                           list2: SecretList, store2: SecretStore)
    requires c.SecretsCache?
    requires SecretLookup(c, d, name, list, store).0.Ok?
    ensures var c2 := SecretLookup(c, d, name, list, store).1;
      SecretLookup(c2, d, name, list2, store2) == (SecretLookup(c, d, name, list, store).0, c2, [])
  {
    LowerIdempotent(name);
    var (available, c1) := Available(c, list);
    if !(d in c.directories && Lookup(c.directories[d], name).Some?) && available.Ok?
       && d in available.value && Lookup(available.value[d], name).Some? {
      var listed := Lookup(available.value[d], name).value;
      var secret := SecretOutcome(store(SecretPath(listed))).value;
      var item := SecretItem(d, name, secret);
      var c2 := SecretLookup(c, d, name, list, store).1;
      assert c2 == FetchedSecret(c1, d, name, listed, store).1;
      assert Lookup(c2.directories[d], name) == Some(item);
    }
  }

  /** The listing of names is made at most once: a later lookup uses the kept one. */
  lemma ListingMadeOnce(c: ProviderCache, list: SecretList, list2: SecretList)
    requires c.SecretsCache? && Available(c, list).0.Ok?
    ensures var c1 := Available(c, list).1; Available(c1, list2) == (Available(c, list).0, c1)
  {
  }

  /** `SecretsManagerProvider`; the service is passed in as the listing and the store. */
  class SecretsManagerProvider {
    /** The provider's key in the shared local cache. */
    const id: nat
    const errors: ProviderErrors

    constructor (id: nat)
      ensures this.id == id && fresh(errors)
      ensures errors.erroredDirectories == {} && errors.botocoreErrorIgnored.None?
    {
      this.id := id;
      errors := new ProviderErrors();
    }

    /** `local_cache`: the provider's `_LocalSecretsManagerCache`, created when it has none. */
    method LocalCache(cache: LocalProviderCache<ProviderCache>, now: int) returns (c: ProviderCache)
      requires cache.Valid() && HoldsSecrets(cache.State(), id)
      modifies cache
      ensures cache.Valid() && c.SecretsCache?
      ensures c == SecretsOf(Expire(old(cache.State()), cache.expireTimeDelta, now), id)
      ensures cache.State() == WithSecrets(Expire(old(cache.State()), cache.expireTimeDelta, now), id, c)
    {
      var r := cache.GetCacheForProvider(id, now, Returns(SecretsCache(map[], None)));
      var expired := Expire(old(cache.State()), cache.expireTimeDelta, now);
      if id in expired.entries {
        assert r == Ok(Some(expired.entries[id]));
        assert cache.State() == expired;
        assert expired == WithSecrets(expired, id, expired.entries[id]);
      }
      c := r.value.value;
    }

    /** Writing the updated cache object back under the provider, at the same moment. */
    method StoreCache(cache: LocalProviderCache<ProviderCache>, now: int, c: ProviderCache)
      requires cache.Valid() && HoldsSecrets(cache.State(), id) && c.SecretsCache?
      requires cache.lastReset >= now - cache.expireTimeDelta
      modifies cache
      ensures cache.Valid()
      ensures cache.State() == WithSecrets(old(cache.State()), id, c)
    {
      cache.SetCacheForProvider(id, c, now);
    }

    /** The loops over the listed pages: the names grouped by directory. */
    static method GroupNames(pages: seq<seq<string>>) returns (r: Result<map<Directory, Listing>, XconError>)
      ensures r == AvailableFrom(Flatten(pages))
    {
      var m: map<Directory, Listing> := map[];
      var i := 0;
      while i < |pages|
        invariant 0 <= i <= |pages|
        invariant AvailableFrom(Flatten(pages[..i])) == Ok(m)
      {
        var page := pages[i];
        ghost var done := Flatten(pages[..i]);
        var j := 0;
        assert done + page[..0] == done;
        while j < |page|
          invariant 0 <= j <= |page|
          invariant AvailableFrom(done + page[..j]) == Ok(m)
        {
          ghost var names := done + page[..j + 1];
          assert names[..|names| - 1] == done + page[..j] && names[|names| - 1] == page[j];
          AvailableFromStep(names, m);
          var next := AddAvailable(m, page[j]);
          if next.Err? {
            FlattenSplit(pages, i, j);
            AvailableFromErrSticks(names, page[j + 1..] + Flatten(pages[i + 1..]));
            return Err(next.error);
          }
          m := next.value;
          j := j + 1;
        }
        assert page[..j] == page;
        FlattenStep(pages, i);
        i := i + 1;
      }
      assert pages[..i] == pages;
      r := Ok(m);
    }

    /** `_available_names_for_directory`. */
    method AvailableNames(cache: LocalProviderCache<ProviderCache>, now: int, list: SecretList)
      returns (r: Result<map<Directory, Listing>, XconError>)
      requires cache.Valid() && HoldsSecrets(cache.State(), id)
      modifies cache, errors
      ensures cache.Valid() && HoldsSecrets(cache.State(), id)
      ensures var expired := Expire(old(cache.State()), cache.expireTimeDelta, now);
        var (res, c1) := Available(SecretsOf(expired, id), list);
        r == res && cache.State() == WithSecrets(expired, id, c1)
      ensures var hs := ListingHandled(SecretsOf(Expire(old(cache.State()), cache.expireTimeDelta, now), id), list);
        errors.erroredDirectories == MarkedAfterAll(hs, old(errors.erroredDirectories))
        && errors.botocoreErrorIgnored == BotoCoreAfterAll(hs, old(errors.botocoreErrorIgnored))
    {
      ghost var expired := Expire(old(cache.State()), cache.expireTimeDelta, now);
      var c := LocalCache(cache, now);
      if c.available.Some? {
        return Ok(c.available.value);
      }
      ghost var listed := cache.State();
      r := ListNames(cache, now, list, c);
      assert WithSecrets(listed, id, Available(c, list).1) == WithSecrets(expired, id, Available(c, list).1);
      if list.error.Some? {
        HandledSingle(list.error.value, ListSecretsDirectory, old(errors.erroredDirectories), old(errors.botocoreErrorIgnored));
      }
    }

    /** The listing half of `_available_names_for_directory`, when no listing is kept yet. */
    method ListNames(cache: LocalProviderCache<ProviderCache>, now: int, list: SecretList, c: ProviderCache)
      returns (r: Result<map<Directory, Listing>, XconError>)
      requires cache.Valid() && HoldsSecrets(cache.State(), id)
      requires cache.lastReset >= now - cache.expireTimeDelta
      requires c.SecretsCache? && c.available.None? && cache.State() == WithSecrets(cache.State(), id, c)
      modifies cache, errors
      ensures cache.Valid() && HoldsSecrets(cache.State(), id)
      ensures r == Available(c, list).0 && cache.State() == WithSecrets(old(cache.State()), id, Available(c, list).1)
      ensures if AvailableFrom(Flatten(list.pages)).Ok? && list.error.Some? then
          errors.erroredDirectories == MarkedAfter(list.error.value, old(errors.erroredDirectories), ListSecretsDirectory)
          && errors.botocoreErrorIgnored == BotoCoreAfter(list.error.value, old(errors.botocoreErrorIgnored))
        else
          errors.erroredDirectories == old(errors.erroredDirectories)
          && errors.botocoreErrorIgnored == old(errors.botocoreErrorIgnored)
    {
      var grouped := GroupNames(list.pages);
      if grouped.Err? {
        return Err(grouped.error);
      }
      if list.error.Some? {
        ListSecretsDirectoryParses();
        var handled := HandleAwsException(list.error.value, errors, ListSecretsDirectory);
        if handled.Err? {
          return Err(handled.error);
        }
      }
      StoreCache(cache, now, c.(available := Some(grouped.value)));
      r := Ok(grouped.value);
    }

    /**
     * The value half of `get_item`: the value is fetched, an exception other
     * than a missing secret is handled, and the item is put in the listing of
     * the directory held by the (re-read) cache object.
     */
    method FetchValue(name: string, d: Directory, listed: DirectoryItem, cache: LocalProviderCache<ProviderCache>,
                      now: int, store: SecretStore)
      returns (r: Result<Option<DirectoryItem>, XconError>)
      requires cache.Valid() && HoldsSecrets(cache.State(), id)
      requires cache.lastReset >= now - cache.expireTimeDelta && id in cache.entries
      modifies cache, errors
      ensures cache.Valid() && HoldsSecrets(cache.State(), id)
      ensures var (res, c2, hs) := FetchedSecret(SecretsOf(old(cache.State()), id), d, name, listed, store);
        r == res && cache.State() == WithSecrets(old(cache.State()), id, c2)
        && errors.erroredDirectories == MarkedAfterAll(hs, old(errors.erroredDirectories))
        && errors.botocoreErrorIgnored == BotoCoreAfterAll(hs, old(errors.botocoreErrorIgnored))
    {
      var f := store(SecretPath(listed));
      if HandledFetch(f) {
        HandledSingle(f.error, d, errors.erroredDirectories, errors.botocoreErrorIgnored);
      }
      var secret := FetchSecret(d, f);
      if secret.Err? {
        assert cache.State() == WithSecrets(cache.State(), id, SecretsOf(cache.State(), id));
        return Err(secret.error);
      }
      var c := LocalCache(cache, now);
      var item := SecretItem(d, name, secret.value);
      var dirs := c.directories;
      StoreCache(cache, now, c.(directories := dirs[d := (if d in dirs then dirs[d] else map[])[item.name := item]]));
      r := Ok(if secret.value.Some? then Some(item) else None);
    }

    /**
     * `get_secret_value` and its `except ClientError`: a missing secret gives
     * no value, any other error code goes through `handle_aws_exception`, and
     * any other exception is raised.
     */
    method FetchSecret(d: Directory, f: SecretFetch) returns (r: Result<Option<string>, XconError>)
      modifies errors
      ensures r == SecretOutcome(f)
      ensures if HandledFetch(f) then
          errors.erroredDirectories == MarkedAfter(f.error, old(errors.erroredDirectories), d)
          && errors.botocoreErrorIgnored == BotoCoreAfter(f.error, old(errors.botocoreErrorIgnored))
        else
          errors.erroredDirectories == old(errors.erroredDirectories)
          && errors.botocoreErrorIgnored == old(errors.botocoreErrorIgnored)
    {
      if f.Secret? {
        return Ok(f.secret);
      }
      var e := f.error;
      if !e.ClientError? {
        return Err(Aws(e));
      } else if !e.hasResponse {
        return Err(WrongType("response"));
      } else if e.code.None? {
        return Err(MissingKey("Code"));
      } else if e.code.value == ResourceNotFound {
        return Ok(None);
      }
      var handled := HandleAwsException(e, errors, d);
      if handled.Err? {
        return Err(handled.error);
      }
      r := Ok(None);
    }

    /** `get_item` once the directory is known: the cached item, else the listing, else a value fetch. */
    method ItemForDirectory(name: string, d: Directory, cache: LocalProviderCache<ProviderCache>, now: int,
                            list: SecretList, store: SecretStore)
      returns (r: Result<Option<DirectoryItem>, XconError>)
      requires cache.Valid() && HoldsSecrets(cache.State(), id)
      modifies cache, errors
      ensures cache.Valid() && HoldsSecrets(cache.State(), id)
      ensures var expired := Expire(old(cache.State()), cache.expireTimeDelta, now);
        var (res, after, hs) := SecretLookup(SecretsOf(expired, id), d, name, list, store);
        r == res && cache.State() == WithSecrets(expired, id, after)
        && errors.erroredDirectories == MarkedAfterAll(hs, old(errors.erroredDirectories))
        && errors.botocoreErrorIgnored == BotoCoreAfterAll(hs, old(errors.botocoreErrorIgnored))
    {
      ghost var expired := Expire(old(cache.State()), cache.expireTimeDelta, now);
      var c := LocalCache(cache, now);
      if d in c.directories && Lookup(c.directories[d], name).Some? {
        var item := Lookup(c.directories[d], name).value;
        return Ok(if item.value.Some? then Some(item) else None);
      }
      ghost var s1 := cache.State();
      ghost var look := SecretLookup(c, d, name, list, store);
      r := ListedItem(name, d, cache, now, list, store);
      assert WithSecrets(s1, id, look.1) == WithSecrets(expired, id, look.1);
    }

    /** `get_item` past a cache miss: the listing, then a value fetch for a listed name. */
    method ListedItem(name: string, d: Directory, cache: LocalProviderCache<ProviderCache>, now: int,
                      list: SecretList, store: SecretStore)
      returns (r: Result<Option<DirectoryItem>, XconError>)
      requires cache.Valid() && HoldsSecrets(cache.State(), id)
      requires cache.lastReset >= now - cache.expireTimeDelta
      requires var c := SecretsOf(cache.State(), id); !(d in c.directories && Lookup(c.directories[d], name).Some?)
      modifies cache, errors
      ensures cache.Valid() && HoldsSecrets(cache.State(), id)
      ensures var (res, after, hs) := SecretLookup(SecretsOf(old(cache.State()), id), d, name, list, store);
        r == res && cache.State() == WithSecrets(old(cache.State()), id, after)
        && errors.erroredDirectories == MarkedAfterAll(hs, old(errors.erroredDirectories))
        && errors.botocoreErrorIgnored == BotoCoreAfterAll(hs, old(errors.botocoreErrorIgnored))
    {
      ghost var s0 := cache.State();
      assert Expire(s0, cache.expireTimeDelta, now) == s0;
      ghost var c := SecretsOf(s0, id);
      ghost var errored := errors.erroredDirectories;
      ghost var prior := errors.botocoreErrorIgnored;
      var available := AvailableNames(cache, now, list);
      if available.Err? {
        return Err(available.error);
      }
      if d !in available.value || Lookup(available.value[d], name).None? {
        return Ok(None);
      }
      ghost var before := cache.State();
      ghost var hs := ListingHandled(c, list);
      var listed := Lookup(available.value[d], name).value;
      r := FetchValue(name, d, listed, cache, now, store);
      ghost var fetched := FetchedSecret(Available(c, list).1, d, name, listed, store);
      assert WithSecrets(before, id, fetched.1) == WithSecrets(s0, id, fetched.1);
      FoldsConcat(hs, fetched.2, errored, prior);
    }

    /** `get_item`: no directory, no lookup; otherwise the directory (or path) is looked in. */
    method GetItem(name: string, directory: Option<DirectoryOrPath>, cache: LocalProviderCache<ProviderCache>,
                   now: int, list: SecretList, store: SecretStore)
      returns (r: Result<Option<DirectoryItem>, XconError>)
      requires cache.Valid() && HoldsSecrets(cache.State(), id)
      modifies cache, errors
      ensures cache.Valid() && HoldsSecrets(cache.State(), id)
      ensures directory.None? ==> r == Ok(None) && cache.State() == old(cache.State())
      ensures directory.Some? && DirectoryFrom(directory.value).Err? ==>
        r == Err(DirectoryFrom(directory.value).error) && cache.State() == old(cache.State())
      ensures directory.Some? && DirectoryFrom(directory.value).Ok? ==>
        var d := DirectoryFrom(directory.value).value;
        var expired := Expire(old(cache.State()), cache.expireTimeDelta, now);
        var (res, after, hs) := SecretLookup(SecretsOf(expired, id), d, name, list, store);
        r == res && cache.State() == WithSecrets(expired, id, after)
        && errors.erroredDirectories == MarkedAfterAll(hs, old(errors.erroredDirectories))
        && errors.botocoreErrorIgnored == BotoCoreAfterAll(hs, old(errors.botocoreErrorIgnored))
    {
      if directory.None? {
        return Ok(None);
      }
      var d := DirectoryFrom(directory.value);
      if d.Err? {
        return Err(d.error);
      }
      r := ItemForDirectory(name, d.value, cache, now, list, store);
    }

    /** `retrieved_items_map`: the listing of fetched items for the directory, `None` when there is none. */
    method RetrievedItemsMap(directory: DirectoryOrPath, cache: LocalProviderCache<ProviderCache>, now: int)
      returns (r: Result<Option<Listing>, XconError>)
      requires cache.Valid() && HoldsSecrets(cache.State(), id)
      modifies cache
      ensures cache.Valid() && HoldsSecrets(cache.State(), id)
      ensures DirectoryFrom(directory).Err? ==>
        r == Err(DirectoryFrom(directory).error) && cache.State() == old(cache.State())
      ensures DirectoryFrom(directory).Ok? ==>
        var d := DirectoryFrom(directory).value;
        var expired := Expire(old(cache.State()), cache.expireTimeDelta, now);
        var c := SecretsOf(expired, id);
        r == Ok(if d in c.directories then Some(c.directories[d]) else None)
        && cache.State() == WithSecrets(expired, id, c)
    {
      var d := DirectoryFrom(directory);
      if d.Err? {
        return Err(d.error);
      }
      var c := LocalCache(cache, now);
      r := Ok(if d.value in c.directories then Some(c.directories[d.value]) else None);
    }
  }

  /** Once adding a name fails, the listing fails with that error whatever follows. */
  lemma {:induction false} AvailableFromErrSticks(prefix: seq<string>, rest: seq<string>)
    requires AvailableFrom(prefix).Err?
    ensures AvailableFrom(prefix + rest) == AvailableFrom(prefix)
    decreases |rest|
  {
    if |rest| > 0 {
      var all := prefix + rest;
      var init := all[..|all| - 1];
      assert init == prefix + rest[..|rest| - 1];
      AvailableFromErrSticks(prefix, rest[..|rest| - 1]);
      AvailableFromErrStep(all);
    } else {
      assert prefix + rest == prefix;
    }
  }

  lemma AvailableFromErrStep(names: seq<string>)
    requires |names| > 0 && AvailableFrom(names[..|names| - 1]).Err?
    ensures AvailableFrom(names) == AvailableFrom(names[..|names| - 1])
  {
  }

  lemma AvailableFromStep(names: seq<string>, m: map<Directory, Listing>)
    requires |names| > 0 && AvailableFrom(names[..|names| - 1]) == Ok(m)
    ensures AvailableFrom(names) == AddAvailable(m, names[|names| - 1])
  {
  }

  lemma FlattenStep(pages: seq<seq<string>>, i: nat)
    requires i < |pages|
    ensures Flatten(pages[..i + 1]) == Flatten(pages[..i]) + pages[i]
  {
    assert pages[..i + 1][..i] == pages[..i];
  }

  lemma {:induction false} FlattenConcat(a: seq<seq<string>>, b: seq<seq<string>>)
    ensures Flatten(a + b) == Flatten(a) + Flatten(b)
    decreases |b|
  {
    if |b| == 0 {
      assert a + b == a;
    } else {
      var ab := a + b;
      assert ab[..|ab| - 1] == a + b[..|b| - 1];
      FlattenConcat(a, b[..|b| - 1]);
    }
  }

  /** The names up to the `j`-th of page `i` start the names of all pages. */
  lemma FlattenSplit(pages: seq<seq<string>>, i: nat, j: nat)
    requires i < |pages| && j < |pages[i]|
    ensures Flatten(pages) ==
      (Flatten(pages[..i]) + pages[i][..j + 1]) + (pages[i][j + 1..] + Flatten(pages[i + 1..]))
  {
    assert pages == pages[..i] + [pages[i]] + pages[i + 1..];
    FlattenConcat(pages[..i] + [pages[i]], pages[i + 1..]);
    FlattenConcat(pages[..i], [pages[i]]);
    assert [pages[i]][..0] == [];
    assert Flatten([pages[i]]) == pages[i];
    assert pages[i] == pages[i][..j + 1] + pages[i][j + 1..];
  }
}
