/**
 * Providers and the provider chain: which providers are searched, in what
 * order, where the cacher is consulted, and the process-wide local cache
 * that every provider keeps its retrieved listings in.
 */
module Providers {
  import opened Base
  import opened Text
  import opened Directories

  /** The provider types of the library. */
  datatype ProviderKind = EnvironmentalProvider | DynamoProvider | SsmParamStoreProvider | SecretsManagerProvider
  {
    function Name(): string
    {
      match this
      case EnvironmentalProvider => "env"
      case DynamoProvider => "dynamo"
      case SsmParamStoreProvider => "ssm"
      case SecretsManagerProvider => "secrets"
    }

    /** Whether the provider is asked before the cacher when it comes first. */
    predicate QueryBeforeCacheIfPossible()
    {
      this.EnvironmentalProvider?
    }
  }

  const CacherName: string := "cacher"

  /** One place the chain asks: a provider, or the cacher placed among them. */
  datatype Source = Plain(kind: ProviderKind) | Cacher

  function Names(ps: seq<ProviderKind>): (r: seq<string>)
    ensures |r| == |ps| && forall i :: 0 <= i < |ps| ==> r[i] == ps[i].Name()
  {
    seq(|ps|, i requires 0 <= i < |ps| => ps[i].Name())
  }

  function Plains(ps: seq<ProviderKind>): (r: seq<Source>)
    ensures |r| == |ps| && forall i :: 0 <= i < |ps| ==> r[i] == Plain(ps[i])
  {
    seq(|ps|, i requires 0 <= i < |ps| => Plain(ps[i]))
  }

  /** The position of the first provider that is not asked before the cache, `|ps|` when there is none. */
  function FirstCacheable(ps: seq<ProviderKind>): (i: nat)
    ensures i <= |ps|
    ensures forall j :: 0 <= j < i ==> ps[j].QueryBeforeCacheIfPossible()
    ensures i < |ps| ==> !ps[i].QueryBeforeCacheIfPossible()
  {
    if |ps| == 0 || !ps[0].QueryBeforeCacheIfPossible() then 0 else 1 + FirstCacheable(ps[1..])
  }

  /** An immutable list of providers, identified (for the cache) by the names of its cacheable part. */
  datatype ProviderChain = ProviderChain(providers: seq<ProviderKind>)
  {
    /** The names of every provider from the first cacheable one on, joined by `|`. */
    function ConcatenatedProviderNames(): string
    {
      Join(Names(providers[FirstCacheable(providers)..]), "|")
    }

    predicate HaveAnyCachableProviders()
    {
      FirstCacheable(providers) < |providers|
    }
  }

  /**
   * `ProviderChain.__post_init__`: skips the leading run of providers that
   * query before the cache, collects the names of all the others and notes
   * whether there were any.
   */
  method ChainFingerprint(ps: seq<ProviderKind>) returns (names: string, haveAnyCachable: bool)
    ensures names == ProviderChain(ps).ConcatenatedProviderNames()
    ensures haveAnyCachable <==> exists i :: 0 <= i < |ps| && !ps[i].QueryBeforeCacheIfPossible()
  {
    var keyNames: seq<string> := [];
    var queryBeforeFinished := false;
    var i := 0;
    while i < |ps|
      invariant 0 <= i <= |ps|
      invariant queryBeforeFinished <==> FirstCacheable(ps) < i
      invariant keyNames == if queryBeforeFinished then Names(ps[FirstCacheable(ps)..i]) else []
    {
      if !queryBeforeFinished {
        if ps[i].QueryBeforeCacheIfPossible() {
          i := i + 1;
          continue;
        }
        queryBeforeFinished := true;
      }
      assert Names(ps[FirstCacheable(ps)..i + 1]) == Names(ps[FirstCacheable(ps)..i]) + [ps[i].Name()];
      keyNames := keyNames + [ps[i].Name()];
      i := i + 1;
    }
    if queryBeforeFinished {
      assert ps[FirstCacheable(ps)..i] == ps[FirstCacheable(ps)..];
    } else {
      assert Names(ps[FirstCacheable(ps)..]) == [];
      assert forall j :: 0 <= j < |ps| ==> ps[j].QueryBeforeCacheIfPossible();
    }
    names := Join(keyNames, "|");
    haveAnyCachable := queryBeforeFinished;
  }

  /** The name list is the suffix of the chain from its first cacheable provider. */
  lemma CacheKeyNamesArePastLeadingRun(ps: seq<ProviderKind>)
    ensures var i := FirstCacheable(ps);
      Names(ps) == Names(ps[..i]) + Names(ps[i..])
      && (forall j :: 0 <= j < i ==> ps[j].QueryBeforeCacheIfPossible())
      && (i < |ps| ==> Names(ps[i..])[0] == ps[i].Name() && !ps[i].QueryBeforeCacheIfPossible())
  {
    NamesSplit(ps, FirstCacheable(ps));
  }

  /** The names of a chain cut at `i`: the names before it, then the names from it on. */
  lemma NamesSplit(ps: seq<ProviderKind>, i: nat)
    requires i <= |ps|
    ensures Names(ps) == Names(ps[..i]) + Names(ps[i..])
    ensures i < |ps| ==> Names(ps[i..])[0] == ps[i].Name()
  {
    assert ps[..i] + ps[i..] == ps;
    NamesConcat(ps[..i], ps[i..]);
    if i < |ps| {
      assert ps[i..][0] == ps[i];
    }
  }

  lemma NamesConcat(a: seq<ProviderKind>, b: seq<ProviderKind>)
    ensures Names(a + b) == Names(a) + Names(b)
  {
    var l := Names(a + b);
    var r := Names(a) + Names(b);
    forall k | 0 <= k < |l| ensures l[k] == r[k] {
      if k < |a| {
        assert (a + b)[k] == a[k];
      } else {
        assert (a + b)[k] == b[k - |a|];
      }
    }
  }

  /** The sources a chain asks, in order: the cacher just before the first cacheable provider. */
  function WithCacher(ps: seq<ProviderKind>, hasCacher: bool): seq<Source>
  {
    var i := FirstCacheable(ps);
    if hasCacher && i < |ps| then Plains(ps[..i]) + [Cacher] + Plains(ps[i..]) else Plains(ps)
  }

  /** `ProviderChain._providers_with_cacher`. */
  method ProvidersWithCacher(ps: seq<ProviderKind>, hasCacher: bool) returns (r: seq<Source>)
    ensures r == WithCacher(ps, hasCacher)
  {
    r := [];
    var alreadyUsedCache := false;
    var i := 0;
    while i < |ps|
      invariant 0 <= i <= |ps|
      invariant alreadyUsedCache <==> FirstCacheable(ps) < i
      invariant r == if hasCacher && alreadyUsedCache
                     then Plains(ps[..FirstCacheable(ps)]) + [Cacher] + Plains(ps[FirstCacheable(ps)..i])
                     else Plains(ps[..i])
    {
      if alreadyUsedCache || ps[i].QueryBeforeCacheIfPossible() {
        r := r + [Plain(ps[i])];
        i := i + 1;
        continue;
      }
      alreadyUsedCache := true;
      if hasCacher {
        r := r + [Cacher];
      }
      r := r + [Plain(ps[i])];
      i := i + 1;
    }
    assert ps[..i] == ps;
  }

  function ProvidersOnly(r: seq<Source>): seq<ProviderKind>
  {
    if |r| == 0 then [] else (if r[0].Plain? then [r[0].kind] else []) + ProvidersOnly(r[1..])
  }

  function CacherCount(r: seq<Source>): nat
  {
    if |r| == 0 then 0 else (if r[0].Cacher? then 1 else 0) + CacherCount(r[1..])
  }

  lemma {:induction false} ProvidersOnlyConcat(a: seq<Source>, b: seq<Source>)
    ensures ProvidersOnly(a + b) == ProvidersOnly(a) + ProvidersOnly(b)
    ensures CacherCount(a + b) == CacherCount(a) + CacherCount(b)
  {
    if |a| > 0 {
      ProvidersOnlyConcat(a[1..], b);
      assert (a + b)[1..] == a[1..] + b;
    } else {
      assert a + b == b;
    }
  }

  lemma {:induction false} ProvidersOnlyPlains(ps: seq<ProviderKind>)
    ensures ProvidersOnly(Plains(ps)) == ps && CacherCount(Plains(ps)) == 0
  {
    if |ps| > 0 {
      ProvidersOnlyPlains(ps[1..]);
      assert Plains(ps)[1..] == Plains(ps[1..]);
    }
  }

  /** Every provider is asked, in the chain's order, with or without a cacher. */
  lemma WithCacherKeepsProviders(ps: seq<ProviderKind>, hasCacher: bool)
    ensures ProvidersOnly(WithCacher(ps, hasCacher)) == ps
  {
    var i := FirstCacheable(ps);
    if hasCacher && i < |ps| {
      ProvidersOnlyConcat(Plains(ps[..i]) + [Cacher], Plains(ps[i..]));
      ProvidersOnlyConcat(Plains(ps[..i]), [Cacher]);
      ProvidersOnlyPlains(ps[..i]);
      ProvidersOnlyPlains(ps[i..]);
      assert ProvidersOnly([Cacher]) == [];
      assert ps[..i] + ps[i..] == ps;
    } else {
      ProvidersOnlyPlains(ps);
    }
  }

  /**
   * The cacher is asked exactly once when there is a cacher and some provider
   * that does not query before the cache, and never otherwise.
   */
  lemma WithCacherAsksCacherOnce(ps: seq<ProviderKind>, hasCacher: bool)
    ensures CacherCount(WithCacher(ps, hasCacher)) ==
      if hasCacher && exists j :: 0 <= j < |ps| && !ps[j].QueryBeforeCacheIfPossible() then 1 else 0
  {
    var i := FirstCacheable(ps);
    if hasCacher && i < |ps| {
      ProvidersOnlyConcat(Plains(ps[..i]) + [Cacher], Plains(ps[i..]));
      ProvidersOnlyConcat(Plains(ps[..i]), [Cacher]);
      ProvidersOnlyPlains(ps[..i]);
      ProvidersOnlyPlains(ps[i..]);
      assert CacherCount([Cacher]) == 1;
    } else {
      ProvidersOnlyPlains(ps);
    }
  }

  /** The cacher comes after the leading run of query-before providers and just before the first other provider. */
  lemma WithCacherPosition(ps: seq<ProviderKind>, hasCacher: bool)
    requires hasCacher && FirstCacheable(ps) < |ps|
    ensures var r := WithCacher(ps, hasCacher); var i := FirstCacheable(ps);
      r[i].Cacher? && r[i + 1] == Plain(ps[i])
      && forall j :: 0 <= j < i ==> r[j].Plain? && r[j].kind.QueryBeforeCacheIfPossible()
  {
    var i := FirstCacheable(ps);
    var front := Plains(ps[..i]);
    var back := Plains(ps[i..]);
    SourcesAround(front, back);
    forall j | 0 <= j < i ensures front[j] == Plain(ps[j]) {
      assert ps[..i][j] == ps[j];
    }
    assert back[0] == Plain(ps[i..][0]);
  }

  /** The sources before the cacher keep their positions, the cacher is next, then the rest. */
  lemma SourcesAround(front: seq<Source>, back: seq<Source>)
    requires |back| > 0
    ensures var r := front + [Cacher] + back;
      r[|front|].Cacher? && r[|front| + 1] == back[0]
      && forall j :: 0 <= j < |front| ==> r[j] == front[j]
  {
  }

  // ---------------------------------------------------------------------
  // ProviderChain.get_item and retrieved_items_map
  // ---------------------------------------------------------------------

  /**
   * What each source's `get_item` does for a directory for the name being
   * looked up: `None`, an item, or the exception it raises.
   */
  type Answers = (Source, Directory) -> Option<Result<DirectoryItem, XconError>>

  /** What each provider has retrieved for a directory so far (`None`: nothing retrieved yet). */
  type Retrieved = (ProviderKind, Directory) -> Option<map<string, DirectoryItem>>

  /** The first answer among `sources` for `d`. */
  function FirstAnswer(sources: seq<Source>, d: Directory, answer: Answers): Option<Result<DirectoryItem, XconError>>
  {
    if |sources| == 0 then None
    else if answer(sources[0], d).Some? then answer(sources[0], d)
    else FirstAnswer(sources[1..], d, answer)
  }

  /** A directory is answered exactly when some source answers it, and then by the first such source. */
  lemma {:induction false} FirstAnswerIsFirst(sources: seq<Source>, d: Directory, answer: Answers)
    ensures FirstAnswer(sources, d, answer).Some? <==> exists j :: 0 <= j < |sources| && answer(sources[j], d).Some?
    ensures FirstAnswer(sources, d, answer).Some? ==>
      exists j :: 0 <= j < |sources| && FirstAnswer(sources, d, answer) == answer(sources[j], d)
                && forall l :: 0 <= l < j ==> answer(sources[l], d).None?
  {
    if |sources| > 0 && answer(sources[0], d).None? {
      FirstAnswerIsFirst(sources[1..], d, answer);
      if FirstAnswer(sources, d, answer).Some? {
        var j :| 0 <= j < |sources[1..]| && FirstAnswer(sources[1..], d, answer) == answer(sources[1..][j], d)
                 && forall l :: 0 <= l < j ==> answer(sources[1..][l], d).None?;
        assert FirstAnswer(sources, d, answer) == answer(sources[j + 1], d);
        forall l | 0 <= l < j + 1 ensures answer(sources[l], d).None? {
          if l > 0 { assert sources[l] == sources[1..][l - 1]; }
        }
      } else {
        forall j | 0 <= j < |sources| ensures answer(sources[j], d).None? {
          if j > 0 { assert sources[j] == sources[1..][j - 1]; }
        }
      }
    } else if |sources| > 0 {
      assert FirstAnswer(sources, d, answer) == answer(sources[0], d);
    }
  }

  /** The position of the first directory some source answers for, `|dirs|` when none does. */
  function HitDirectory(dirs: seq<Directory>, sources: seq<Source>, answer: Answers): (k: nat)
    ensures k <= |dirs|
  {
    if |dirs| == 0 || FirstAnswer(sources, dirs[0], answer).Some? then 0
    else 1 + HitDirectory(dirs[1..], sources, answer)
  }

  /** Merges maps so that a key keeps the value of the first map that has it. */
  function EarlierWins(ms: seq<map<string, DirectoryItem>>): map<string, DirectoryItem>
  {
    if |ms| == 0 then map[] else ms[|ms| - 1] + EarlierWins(ms[..|ms| - 1])
  }

  lemma {:induction false} EarlierWinsLookup(ms: seq<map<string, DirectoryItem>>, key: string)
    ensures key in EarlierWins(ms) <==> exists i :: 0 <= i < |ms| && key in ms[i]
    ensures key in EarlierWins(ms) ==>
      exists i :: 0 <= i < |ms| && key in ms[i] && EarlierWins(ms)[key] == ms[i][key]
               && forall j :: 0 <= j < i ==> key !in ms[j]
  {
    if |ms| > 0 {
      var init := ms[..|ms| - 1];
      EarlierWinsLookup(init, key);
      if key in EarlierWins(init) {
        var i :| 0 <= i < |init| && key in init[i] && EarlierWins(init)[key] == init[i][key]
                 && forall j :: 0 <= j < i ==> key !in init[j];
        assert ms[i] == init[i];
      } else if key in ms[|ms| - 1] {
        forall j | 0 <= j < |ms| - 1 ensures key !in ms[j] {
          assert ms[j] == init[j];
        }
      } else {
        forall i | 0 <= i < |ms| ensures key !in ms[i] {
          if i < |ms| - 1 { assert ms[i] == init[i]; }
        }
      }
    }
  }

  /** The maps of the providers, in order, up to (not including) the first one that has retrieved nothing. */
  function AnsweredMaps(ps: seq<ProviderKind>, d: Directory, retrieved: Retrieved): (r: seq<map<string, DirectoryItem>>)
    ensures |r| <= |ps|
    ensures forall i :: 0 <= i < |r| ==> retrieved(ps[i], d) == Some(r[i])
    ensures |r| < |ps| ==> retrieved(ps[|r|], d).None?
  {
    if |ps| == 0 || retrieved(ps[0], d).None? then []
    else [retrieved(ps[0], d).value] + AnsweredMaps(ps[1..], d, retrieved)
  }

  /** `ProviderChain.retrieved_items_map`: higher-priority providers win; stops at the first `None`. */
  method RetrievedItemsMap(ps: seq<ProviderKind>, d: Directory, retrieved: Retrieved)
    returns (finalMap: map<string, DirectoryItem>)
    ensures finalMap == EarlierWins(AnsweredMaps(ps, d, retrieved))
  {
    finalMap := map[];
    var i := 0;
    while i < |ps|
      invariant 0 <= i <= |ps|
      invariant forall j :: 0 <= j < i ==> retrieved(ps[j], d).Some?
      invariant finalMap == EarlierWins(AnsweredMaps(ps[..i], d, retrieved))
      decreases |ps| - i
    {
      var providerMap := retrieved(ps[i], d);
      if providerMap.None? {
        break;
      }
      EarlierWinsExtend(ps, i, d, retrieved);
      finalMap := providerMap.value + finalMap;
      i := i + 1;
    }
    AnsweredMapsStop(ps, i, d, retrieved);
  }

  /** One more answering provider: its map goes under the merged maps of the earlier ones. */
  lemma EarlierWinsExtend(ps: seq<ProviderKind>, i: nat, d: Directory, retrieved: Retrieved)
    requires i < |ps|
    requires forall j :: 0 <= j <= i ==> retrieved(ps[j], d).Some?
    ensures EarlierWins(AnsweredMaps(ps[..i + 1], d, retrieved)) ==
            retrieved(ps[i], d).value + EarlierWins(AnsweredMaps(ps[..i], d, retrieved))
  {
    AnsweredMapsExtend(ps, i, d, retrieved);
    var m := AnsweredMaps(ps[..i + 1], d, retrieved);
    assert m[..|m| - 1] == AnsweredMaps(ps[..i], d, retrieved);
  }

  /** The maps end where the providers end or at the first provider that has retrieved nothing. */
  lemma AnsweredMapsStop(ps: seq<ProviderKind>, i: nat, d: Directory, retrieved: Retrieved)
    requires i <= |ps|
    requires forall j :: 0 <= j < i ==> retrieved(ps[j], d).Some?
    requires i == |ps| || retrieved(ps[i], d).None?
    ensures AnsweredMaps(ps, d, retrieved) == AnsweredMaps(ps[..i], d, retrieved)
  {
    AnsweredMapsPrefix(ps, i, d, retrieved);
    if i == |ps| {
      assert ps[..i] == ps;
    } else {
      assert |AnsweredMaps(ps, d, retrieved)| == i;
    }
  }

  lemma {:induction false} AnsweredMapsPrefix(ps: seq<ProviderKind>, i: nat, d: Directory, retrieved: Retrieved)
    requires i <= |ps|
    requires forall j :: 0 <= j < i ==> retrieved(ps[j], d).Some?
    ensures |AnsweredMaps(ps, d, retrieved)| >= i
    ensures AnsweredMaps(ps, d, retrieved)[..i] == AnsweredMaps(ps[..i], d, retrieved)
  {
    if i > 0 {
      AnsweredMapsPrefix(ps[1..], i - 1, d, retrieved);
      assert ps[..i][1..] == ps[1..][..i - 1];
    }
  }

  lemma AnsweredMapsExtend(ps: seq<ProviderKind>, i: nat, d: Directory, retrieved: Retrieved)
    requires i < |ps|
    requires forall j :: 0 <= j <= i ==> retrieved(ps[j], d).Some?
    ensures AnsweredMaps(ps[..i + 1], d, retrieved) ==
            AnsweredMaps(ps[..i], d, retrieved) + [retrieved(ps[i], d).value]
  {
    var p1, p0 := ps[..i + 1], ps[..i];
    var a := AnsweredMaps(p1, d, retrieved);
    var b := AnsweredMaps(p0, d, retrieved);
    assert forall j :: 0 <= j <= i ==> retrieved(p1[j], d).Some?;
    assert forall j :: 0 <= j < i ==> retrieved(p0[j], d).Some?;
    assert |a| == i + 1 && |b| == i;
    assert forall j :: 0 <= j < i ==> a[j] == b[j];
  }

  /** The chain's retrieved map for each directory in order. */
  function DirectoryMaps(dirs: seq<Directory>, ps: seq<ProviderKind>, retrieved: Retrieved): (r: seq<map<string, DirectoryItem>>)
    ensures |r| == |dirs|
    ensures forall i :: 0 <= i < |dirs| ==> r[i] == EarlierWins(AnsweredMaps(ps, dirs[i], retrieved))
  {
    seq(|dirs|, i requires 0 <= i < |dirs| => EarlierWins(AnsweredMaps(ps, dirs[i], retrieved)))
  }

  /** The outcome of a chain lookup: the item, and the batch handed to the cacher (if any). */
  datatype ChainResult = ChainResult(item: DirectoryItem, cached: Option<map<string, DirectoryItem>>)

  /**
   * What `ProviderChain.get_item` returns and caches: the first answer in
   * directory-then-source order (else the non-existent item), or the
   * exception of the first source that raises instead of answering; with a
   * cacher and an environ and a cacheable result, the batch is the searched
   * directories' retrieved maps (earlier directories winning) plus the result,
   * and `cacheRaised` is what `cache_items` raises on it, if anything.
   */
  function ChainLookup(
    name: string, dirs: seq<Directory>, ps: seq<ProviderKind>, hasCacher: bool, environ: Option<Directory>,
    answer: Answers, retrieved: Retrieved, cacheRaised: Option<XconError>): Result<ChainResult, XconError>
  {
    var item :- ChainItem(name, dirs, WithCacher(ps, hasCacher), answer);
    if hasCacher && environ.Some? && item.cacheable then
      if cacheRaised.Some? then Err(cacheRaised.value)
      else Ok(ChainResult(item, Some(SearchedItems(dirs, ps, hasCacher, answer, retrieved)[item.name := item])))
    else Ok(ChainResult(item, None))
  }

  /** The first answer in directory-then-source order, else the non-existent item. */
  function ChainItem(name: string, dirs: seq<Directory>, sources: seq<Source>, answer: Answers): Result<DirectoryItem, XconError>
  {
    var k := HitDirectory(dirs, sources, answer);
    HitDirectoryIsFirst(dirs, sources, answer);
    if k < |dirs| then FirstAnswer(sources, dirs[k], answer).value else Ok(NonExistentItem(name))
  }

  /** The directories searched: up to and including the one that answered. */
  function Searched(dirs: seq<Directory>, sources: seq<Source>, answer: Answers): seq<Directory>
  {
    var k := HitDirectory(dirs, sources, answer);
    if k < |dirs| then dirs[..k + 1] else dirs
  }

  /** The searched directories' retrieved maps merged, earlier directories winning. */
  function SearchedItems(dirs: seq<Directory>, ps: seq<ProviderKind>, hasCacher: bool, answer: Answers, retrieved: Retrieved)
    : map<string, DirectoryItem>
  {
    EarlierWins(DirectoryMaps(Searched(dirs, WithCacher(ps, hasCacher), answer), ps, retrieved))
  }

  /**
   * `ProviderChain.get_item`: directories in the outer loop, the sources in
   * the inner one; the first item found ends both; the cacher is told what to
   * cache at the end unless a non-cacheable item was found.
   */
  method GetItem(
    name: string, dirs: seq<Directory>, ps: seq<ProviderKind>, hasCacher: bool, environ: Option<Directory>,
    answer: Answers, retrieved: Retrieved, cacheRaised: Option<XconError>) returns (result: Result<ChainResult, XconError>)
    ensures result == ChainLookup(name, dirs, ps, hasCacher, environ, answer, retrieved, cacheRaised)
  {
    ghost var sources := WithCacher(ps, hasCacher);
    ghost var hit := HitDirectory(dirs, sources, answer);
    HitDirectoryIsFirst(dirs, sources, answer);
    var useCacher := hasCacher && environ.Some?;
    var itemsCache: map<string, DirectoryItem> := map[];
    var item: Option<Result<DirectoryItem, XconError>> := None;
    var i := 0;
    while i < |dirs| && item.None?
      invariant 0 <= i <= |dirs|
      invariant item.None? ==> i <= hit
      invariant item.Some? ==> i < |dirs| && i == hit && item == FirstAnswer(sources, dirs[i], answer)
      invariant item.None? ==>
        useCacher == (hasCacher && environ.Some?)
        && itemsCache == if useCacher then EarlierWins(DirectoryMaps(dirs[..i], ps, retrieved)) else map[]
      invariant item.Some? && item.value.Ok? ==>
        useCacher == (hasCacher && environ.Some? && item.value.value.cacheable)
        && (useCacher ==> itemsCache == EarlierWins(DirectoryMaps(dirs[..i + 1], ps, retrieved)))
      decreases |dirs| - i, if item.None? then 1 else 0
    {
      var directory := dirs[i];
      var order := ProvidersWithCacher(ps, hasCacher);
      item := AskSources(order, directory, answer);
      if item.None? || item.value.Ok? {
        if useCacher && item.Some? && !item.value.value.cacheable {
          useCacher := false;
        }
        if useCacher {
          var m := RetrievedItemsMap(ps, directory, retrieved);
          DirectoryMapsSnoc(dirs, i, ps, retrieved);
          itemsCache := m + itemsCache;
        }
      }
      if item.None? {
        i := i + 1;
      }
    }
    if item.Some? && item.value.Err? {
      RaisedOutcome(name, dirs, ps, hasCacher, environ, answer, retrieved, cacheRaised, i, item.value.error);
      return Err(item.value.error);
    }
    var found: DirectoryItem;
    if item.None? {
      found := NonExistentItem(name);
      MissOutcome(name, dirs, ps, hasCacher, environ, answer, retrieved, cacheRaised, useCacher, itemsCache);
    } else {
      found := item.value.value;
      HitOutcome(name, dirs, ps, hasCacher, environ, answer, retrieved, cacheRaised, i, found, useCacher, itemsCache);
    }
    if useCacher && found.cacheable {
      if cacheRaised.Some? {
        return Err(cacheRaised.value);
      }
      itemsCache := itemsCache[found.name := found];
      result := Ok(ChainResult(found, Some(itemsCache)));
    } else {
      result := Ok(ChainResult(found, None));
    }
  }

  /** When the first source to answer in directory `i` raises instead, `get_item` raises the same exception. */
  lemma RaisedOutcome(
    name: string, dirs: seq<Directory>, ps: seq<ProviderKind>, hasCacher: bool, environ: Option<Directory>,
    answer: Answers, retrieved: Retrieved, cacheRaised: Option<XconError>, i: nat, e: XconError)
    requires i < |dirs| && i == HitDirectory(dirs, WithCacher(ps, hasCacher), answer)
    requires FirstAnswer(WithCacher(ps, hasCacher), dirs[i], answer) == Some(Err(e))
    ensures ChainLookup(name, dirs, ps, hasCacher, environ, answer, retrieved, cacheRaised) == Err(e)
  {
    assert ChainItem(name, dirs, WithCacher(ps, hasCacher), answer) == Err(e);
  }

  /** When no directory answers, `get_item` ends with the non-existent item. */
  lemma MissOutcome(
    name: string, dirs: seq<Directory>, ps: seq<ProviderKind>, hasCacher: bool, environ: Option<Directory>,
    answer: Answers, retrieved: Retrieved, cacheRaised: Option<XconError>,
    useCacher: bool, itemsCache: map<string, DirectoryItem>)
    requires HitDirectory(dirs, WithCacher(ps, hasCacher), answer) == |dirs|
    requires useCacher == (hasCacher && environ.Some?)
    requires itemsCache == if useCacher then EarlierWins(DirectoryMaps(dirs[..|dirs|], ps, retrieved)) else map[]
    ensures var found := NonExistentItem(name);
      ChainLookup(name, dirs, ps, hasCacher, environ, answer, retrieved, cacheRaised) ==
      if useCacher && found.cacheable then
        if cacheRaised.Some? then Err(cacheRaised.value) else Ok(ChainResult(found, Some(itemsCache[found.name := found])))
      else Ok(ChainResult(found, None))
  {
    var sources := WithCacher(ps, hasCacher);
    assert dirs[..|dirs|] == dirs;
    assert ChainItem(name, dirs, sources, answer) == Ok(NonExistentItem(name));
    assert Searched(dirs, sources, answer) == dirs;
  }

  /** When directory `i` is the first to answer, `get_item` ends with its first answer. */
  lemma HitOutcome(
    name: string, dirs: seq<Directory>, ps: seq<ProviderKind>, hasCacher: bool, environ: Option<Directory>,
    answer: Answers, retrieved: Retrieved, cacheRaised: Option<XconError>,
    i: nat, found: DirectoryItem, useCacher: bool, itemsCache: map<string, DirectoryItem>)
    requires i < |dirs| && i == HitDirectory(dirs, WithCacher(ps, hasCacher), answer)
    requires FirstAnswer(WithCacher(ps, hasCacher), dirs[i], answer) == Some(Ok(found))
    requires useCacher == (hasCacher && environ.Some? && found.cacheable)
    requires useCacher ==> itemsCache == EarlierWins(DirectoryMaps(dirs[..i + 1], ps, retrieved))
    ensures ChainLookup(name, dirs, ps, hasCacher, environ, answer, retrieved, cacheRaised) ==
      if useCacher && found.cacheable then
        if cacheRaised.Some? then Err(cacheRaised.value) else Ok(ChainResult(found, Some(itemsCache[found.name := found])))
      else Ok(ChainResult(found, None))
  {
    var sources := WithCacher(ps, hasCacher);
    assert ChainItem(name, dirs, sources, answer) == Ok(found);
    assert Searched(dirs, sources, answer) == dirs[..i + 1];
  }

  /** The inner loop of `ProviderChain.get_item`: ask each source in turn until one answers. */
  method AskSources(order: seq<Source>, directory: Directory, answer: Answers)
    returns (item: Option<Result<DirectoryItem, XconError>>)
    ensures item == FirstAnswer(order, directory, answer)
  {
    item := None;
    var j := 0;
    while j < |order|
      invariant 0 <= j <= |order|
      invariant item.None?
      invariant FirstAnswer(order, directory, answer) == FirstAnswer(order[j..], directory, answer)
    {
      item := answer(order[j], directory);
      assert order[j..][0] == order[j] && order[j..][1..] == order[j + 1..];
      if item.Some? {
        break;
      }
      j := j + 1;
    }
  }

  lemma DirectoryMapsSnoc(dirs: seq<Directory>, i: nat, ps: seq<ProviderKind>, retrieved: Retrieved)
    requires i < |dirs|
    ensures EarlierWins(DirectoryMaps(dirs[..i + 1], ps, retrieved)) ==
      EarlierWins(AnsweredMaps(ps, dirs[i], retrieved)) + EarlierWins(DirectoryMaps(dirs[..i], ps, retrieved))
  {
    var longer := DirectoryMaps(dirs[..i + 1], ps, retrieved);
    assert longer[..i] == DirectoryMaps(dirs[..i], ps, retrieved);
    assert longer[i] == EarlierWins(AnsweredMaps(ps, dirs[i], retrieved));
  }

  /** Every directory before the hit has no answer, and the hit has one. */
  lemma {:induction false} HitDirectoryIsFirst(dirs: seq<Directory>, sources: seq<Source>, answer: Answers)
    ensures forall j :: 0 <= j < HitDirectory(dirs, sources, answer) ==> FirstAnswer(sources, dirs[j], answer).None?
    ensures HitDirectory(dirs, sources, answer) < |dirs| ==> FirstAnswer(sources, dirs[HitDirectory(dirs, sources, answer)], answer).Some?
  {
    if |dirs| > 0 && FirstAnswer(sources, dirs[0], answer).None? {
      HitDirectoryIsFirst(dirs[1..], sources, answer);
      forall j | 0 < j < HitDirectory(dirs, sources, answer)
        ensures FirstAnswer(sources, dirs[j], answer).None?
      {
        assert dirs[j] == dirs[1..][j - 1];
      }
    }
  }

  lemma HitDirectoryStep(dirs: seq<Directory>, sources: seq<Source>, answer: Answers, i: nat)
    requires i < |dirs| && i <= HitDirectory(dirs, sources, answer)
    ensures FirstAnswer(sources, dirs[i], answer).None? ==> i < HitDirectory(dirs, sources, answer)
    ensures FirstAnswer(sources, dirs[i], answer).Some? ==> i == HitDirectory(dirs, sources, answer)
  {
    HitDirectoryIsFirst(dirs, sources, answer);
  }

  /** All (directory, source) pairs in the order the chain asks them: directory by directory. */
  function SearchOrder(dirs: seq<Directory>, sources: seq<Source>): seq<(Directory, Source)>
  {
    if |dirs| == 0 then []
    else seq(|sources|, j requires 0 <= j < |sources| => (dirs[0], sources[j])) + SearchOrder(dirs[1..], sources)
  }

  /** The position of the first pair with an answer, `|order|` when there is none. */
  function FirstAnswered(order: seq<(Directory, Source)>, answer: Answers): (t: nat)
    ensures t <= |order|
    ensures forall u :: 0 <= u < t ==> answer(order[u].1, order[u].0).None?
    ensures t < |order| ==> answer(order[t].1, order[t].0).Some?
  {
    if |order| == 0 || answer(order[0].1, order[0].0).Some? then 0 else 1 + FirstAnswered(order[1..], answer)
  }

  lemma {:induction false} FirstAnsweredConcat(a: seq<(Directory, Source)>, b: seq<(Directory, Source)>, answer: Answers)
    ensures FirstAnswered(a + b, answer) ==
      if FirstAnswered(a, answer) < |a| then FirstAnswered(a, answer) else |a| + FirstAnswered(b, answer)
  {
    if |a| > 0 {
      assert (a + b)[0] == a[0];
      assert (a + b)[1..] == a[1..] + b;
      FirstAnsweredConcat(a[1..], b, answer);
    } else {
      assert a + b == b;
    }
  }

  lemma {:induction false} FirstAnsweredRow(d: Directory, sources: seq<Source>, answer: Answers)
    ensures var row := seq(|sources|, j requires 0 <= j < |sources| => (d, sources[j]));
      var t := FirstAnswered(row, answer);
      (t < |row| <==> FirstAnswer(sources, d, answer).Some?)
      && (t < |row| ==> FirstAnswer(sources, d, answer) == answer(sources[t], d))
  {
    var row := seq(|sources|, j requires 0 <= j < |sources| => (d, sources[j]));
    if |sources| > 0 {
      FirstAnsweredRow(d, sources[1..], answer);
      var rest := seq(|sources[1..]|, j requires 0 <= j < |sources[1..]| => (d, sources[1..][j]));
      assert row[1..] == rest;
    }
  }

  /**
   * The chain's outcome is decided by the first (directory, source) pair, in
   * directory-major order, that answers at all; every pair before it answered
   * nothing. If that pair raised, the chain raises the same exception; if it
   * gave an item, the chain returns that item unless the cacher raises. With
   * no answer at all the item is the non-existent item.
   */
  lemma {:induction false} LookupFollowsSearchOrder(
    name: string, dirs: seq<Directory>, ps: seq<ProviderKind>, hasCacher: bool, environ: Option<Directory>,
    answer: Answers, retrieved: Retrieved, cacheRaised: Option<XconError>)
    ensures var order := SearchOrder(dirs, WithCacher(ps, hasCacher));
      var t := FirstAnswered(order, answer);
      var first := if t < |order| then answer(order[t].1, order[t].0).value else Ok(NonExistentItem(name));
      var r := ChainLookup(name, dirs, ps, hasCacher, environ, answer, retrieved, cacheRaised);
      (first.Err? ==> r == Err(first.error))
      && (first.Ok? && r.Ok? ==> r.value.item == first.value)
      && (first.Ok? && r.Err? ==> cacheRaised == Some(r.error))
  {
    var sources := WithCacher(ps, hasCacher);
    SearchOrderFirst(dirs, sources, answer);
  }

  lemma {:induction false} SearchOrderFirst(dirs: seq<Directory>, sources: seq<Source>, answer: Answers)
    ensures var order := SearchOrder(dirs, sources);
      var t := FirstAnswered(order, answer);
      var k := HitDirectory(dirs, sources, answer);
      (t < |order| <==> k < |dirs|)
      && (t < |order| ==> FirstAnswer(sources, dirs[k], answer) == answer(order[t].1, order[t].0))
  {
    if |dirs| > 0 {
      var row := seq(|sources|, j requires 0 <= j < |sources| => (dirs[0], sources[j]));
      var rest := SearchOrder(dirs[1..], sources);
      FirstAnsweredConcat(row, rest, answer);
      FirstAnsweredRow(dirs[0], sources, answer);
      SearchOrderFirst(dirs[1..], sources, answer);
      var t := FirstAnswered(row + rest, answer);
      if FirstAnswered(row, answer) < |row| {
        assert (row + rest)[t] == row[t];
      } else if FirstAnswered(rest, answer) < |rest| {
        assert (row + rest)[t] == rest[t - |row|];
      }
    }
  }

  /**
   * The cacher is handed a batch only with a cacher and an environ and a
   * cacheable result; the batch holds the result, and any other name with the
   * value of the first searched directory that has it. When the searched
   * item is found, the chain raises only what the cacher raises on that batch.
   */
  lemma CachedBatch(
    name: string, dirs: seq<Directory>, ps: seq<ProviderKind>, hasCacher: bool, environ: Option<Directory>,
    answer: Answers, retrieved: Retrieved, cacheRaised: Option<XconError>)
    ensures var r := ChainLookup(name, dirs, ps, hasCacher, environ, answer, retrieved, cacheRaised);
      r.Ok? ==>
        (r.value.cached.Some? <==> hasCacher && environ.Some? && r.value.item.cacheable)
        && (r.value.cached.Some? ==> r.value.item.name in r.value.cached.value
                                     && r.value.cached.value[r.value.item.name] == r.value.item)
    ensures var found := ChainItem(name, dirs, WithCacher(ps, hasCacher), answer);
      var r := ChainLookup(name, dirs, ps, hasCacher, environ, answer, retrieved, cacheRaised);
      found.Ok? ==>
        (r.Err? <==> hasCacher && environ.Some? && found.value.cacheable && cacheRaised.Some?)
        && (r.Err? ==> cacheRaised == Some(r.error))
  {
  }

  /** Every other name in the batch has the value of the first searched directory whose retrieved map has it. */
  lemma CachedBatchEarlierWins(
    name: string, dirs: seq<Directory>, ps: seq<ProviderKind>, hasCacher: bool, environ: Option<Directory>,
    answer: Answers, retrieved: Retrieved, cacheRaised: Option<XconError>, key: string)
    requires var r := ChainLookup(name, dirs, ps, hasCacher, environ, answer, retrieved, cacheRaised);
      r.Ok? && r.value.cached.Some? && key in r.value.cached.value && key != r.value.item.name
    ensures var r := ChainLookup(name, dirs, ps, hasCacher, environ, answer, retrieved, cacheRaised);
      exists i :: 0 <= i <= HitDirectory(dirs, WithCacher(ps, hasCacher), answer)
        && FirstHolder(DirectoryMaps(dirs, ps, retrieved), key, i)
        && r.value.cached.value[key] == DirectoryMaps(dirs, ps, retrieved)[i][key]
  {
    var sources := WithCacher(ps, hasCacher);
    var k := HitDirectory(dirs, sources, answer);
    var n := if k < |dirs| then k + 1 else |dirs|;
    var all := DirectoryMaps(dirs, ps, retrieved);
    assert Searched(dirs, sources, answer) == dirs[..n];
    DirectoryMapsPrefix(dirs, n, ps, retrieved);
    EarlierWinsPrefix(all, n, key);
  }

  /** In the merge of the first `n` maps, a key has the value of the first map holding it. */
  lemma EarlierWinsPrefix(all: seq<map<string, DirectoryItem>>, n: nat, key: string)
    requires n <= |all| && key in EarlierWins(all[..n])
    ensures exists i :: 0 <= i < n && FirstHolder(all, key, i) && EarlierWins(all[..n])[key] == all[i][key]
  {
    var merged := EarlierWins(all[..n]);
    EarlierWinsLookup(all[..n], key);
    var i :| 0 <= i < n && key in all[..n][i] && merged[key] == all[..n][i][key]
             && forall j :: 0 <= j < i ==> key !in all[..n][j];
    assert all[..n][i] == all[i];
    forall j | 0 <= j < i ensures key !in all[j] {
      assert all[..n][j] == all[j];
    }
    assert FirstHolder(all, key, i);
  }

  lemma DirectoryMapsPrefix(dirs: seq<Directory>, n: nat, ps: seq<ProviderKind>, retrieved: Retrieved)
    requires n <= |dirs|
    ensures DirectoryMaps(dirs[..n], ps, retrieved) == DirectoryMaps(dirs, ps, retrieved)[..n]
  {
  }

  /** `ms[i]` is the first map holding `key`. */
  predicate FirstHolder(ms: seq<map<string, DirectoryItem>>, key: string, i: int)
  {
    0 <= i < |ms| && key in ms[i] && forall j :: 0 <= j < i ==> key !in ms[j]
  }

  // ---------------------------------------------------------------------
  // Errored directories
  // ---------------------------------------------------------------------

  /** The error bookkeeping every provider carries (informational only). */
  class ProviderErrors {
    var erroredDirectories: set<Directory>
    /** `AwsProvider.botocore_error_ignored_exception`. */
    var botocoreErrorIgnored: Option<AwsError>

    constructor ()
      ensures erroredDirectories == {} && botocoreErrorIgnored.None?
    {
      erroredDirectories := {};
      botocoreErrorIgnored := None;
    }

    method MarkErroredDirectory(d: Directory)
      modifies this
      ensures erroredDirectories == old(erroredDirectories) + {d}
      ensures botocoreErrorIgnored == old(botocoreErrorIgnored)
      ensures DirectoryHasError(d)
    {
      erroredDirectories := erroredDirectories + {d};
    }

    predicate DirectoryHasError(d: Directory)
      reads this
    {
      d in erroredDirectories
    }
  }

  // ---------------------------------------------------------------------
  // InternalLocalProviderCache
  // ---------------------------------------------------------------------

  type Listing = map<string, DirectoryItem>

  /** The cache object each provider keeps in the shared local cache. */
  datatype ProviderCache =
      /** `AwsProvider.local_cache`: a listing per fetched directory. */
    | DirectoryListings(listings: map<Directory, Listing>)
      /** The environmental provider's snapshot of `os.environ`. */
    | EnvironSnapshot(items: Listing)
      /** Secrets Manager: fetched values per directory, and the names available (once listed). */
    | SecretsCache(directories: map<Directory, Listing>, available: Option<map<Directory, Listing>>)
      /** The cacher: listings by (environ, directory paths, provider names), and rows per environ. */
    | CacherCache(
        cachedListings: map<(Directory, string, string), Listing>,
        environToItems: map<Directory, seq<DirectoryItem>>)

  /** What a cache constructor does when the provider has no entry yet. */
  datatype Constructor<C> =
    | NoConstructor
    | Returns(made: C)
    | SetsAndReturnsNone(made: C)   // calls `set_cache_for_provider` itself and returns `None`
    | ReturnsNone

  const DefaultExpireSeconds: int := 15 * 60

  /** `expire_time_delta`: 15 minutes unless a positive number of minutes is configured. */
  function ExpireTimeDelta(configuredMinutes: int): (seconds: int)
    ensures seconds > 0
    ensures configuredMinutes > 0 ==> seconds == configuredMinutes * 60
    ensures configuredMinutes <= 0 ==> seconds == DefaultExpireSeconds
  {
    if configuredMinutes > 0 then configuredMinutes * 60 else DefaultExpireSeconds
  }

  /** The abstract state of the local cache: the entries and when they were last reset. */
  datatype CacheState<C> = CacheState(entries: map<nat, C>, lastReset: int)

  /** `expire_cache_if_needed`: all entries go at once when the last reset is older than the delta. */
  function Expire<C>(s: CacheState<C>, delta: int, now: int): (r: CacheState<C>)
    ensures s.lastReset < now - delta ==> r == CacheState(map[], now)
    ensures s.lastReset >= now - delta ==> r == s
  {
    if s.lastReset < now - delta then CacheState(map[], now) else s
  }

  /** `get_cache_for_provider`: the new state and the cache object (or the error). */
  function GetCache<C>(s: CacheState<C>, delta: int, now: int, provider: nat, ctor: Constructor<C>)
    : (CacheState<C>, Result<Option<C>, XconError>)
  {
    var s := Expire(s, delta, now);
    if provider in s.entries then (s, Ok(Some(s.entries[provider])))
    else
      match ctor
      case NoConstructor => (s, Ok(None))
      case Returns(c) => (s.(entries := s.entries[provider := c]), Ok(Some(c)))
      case SetsAndReturnsNone(c) => (s.(entries := s.entries[provider := c]), Ok(Some(c)))
      case ReturnsNone => (s, Err(MissingProviderCache))
  }

  /** The same object comes back until the cache expires, and the constructor is then not used. */
  lemma SameObjectUntilReset<C>(s: CacheState<C>, delta: int, t1: int, t2: int, provider: nat,
                                ctor1: Constructor<C>, ctor2: Constructor<C>)
    requires GetCache(s, delta, t1, provider, ctor1).1.Ok? && GetCache(s, delta, t1, provider, ctor1).1.value.Some?
    requires GetCache(s, delta, t1, provider, ctor1).0.lastReset >= t2 - delta
    ensures var (s1, r1) := GetCache(s, delta, t1, provider, ctor1);
      GetCache(s1, delta, t2, provider, ctor2) == (s1, r1)
  {
  }

  /** An existing entry is returned as is: the constructor only runs for an absent entry. */
  lemma ConstructorOnlyWhenAbsent<C>(s: CacheState<C>, delta: int, now: int, provider: nat, ctor: Constructor<C>)
    requires provider in Expire(s, delta, now).entries
    ensures GetCache(s, delta, now, provider, ctor) ==
      (Expire(s, delta, now), Ok(Some(Expire(s, delta, now).entries[provider])))
  {
  }

  /** A constructor that returns `None` without storing anything is a `ValueError`. */
  lemma ConstructorMustProvide<C>(s: CacheState<C>, delta: int, now: int, provider: nat)
    requires provider !in Expire(s, delta, now).entries
    ensures GetCache(s, delta, now, provider, ReturnsNone).1 == Err(MissingProviderCache)
    ensures GetCache(s, delta, now, provider, ReturnsNone).0.entries == Expire(s, delta, now).entries
  {
  }

  /** `InternalLocalProviderCache`: one cache object per provider, all reset together. */
  /** Expiring twice at the same moment is expiring once. */
  lemma ExpireIdempotent<C>(s: CacheState<C>, delta: int, now: int)
    requires delta >= 0
    ensures Expire(Expire(s, delta, now), delta, now) == Expire(s, delta, now)
  {
  }

  class LocalProviderCache<C> {
    var entries: map<nat, C>
    var lastReset: int
    const expireTimeDelta: int

    predicate Valid()
      reads this
    {
      expireTimeDelta > 0
    }

    function State(): CacheState<C>
      reads this
    {
      CacheState(entries, lastReset)
    }

    constructor (now: int, configuredMinutes: int)
      ensures Valid()
      ensures State() == CacheState(map[], now)
      ensures expireTimeDelta == ExpireTimeDelta(configuredMinutes)
    {
      expireTimeDelta := ExpireTimeDelta(configuredMinutes);
      entries := map[];
      lastReset := now;
    }

    method ResetCache(now: int)
      modifies this
      ensures State() == CacheState(map[], now)
    {
      entries := map[];
      lastReset := now;
    }

    method ExpireCacheIfNeeded(now: int)
      modifies this
      ensures State() == Expire(old(State()), expireTimeDelta, now)
    {
      if lastReset < now - expireTimeDelta {
        ResetCache(now);
      }
    }

    method GetCacheForProvider(provider: nat, now: int, ctor: Constructor<C>) returns (r: Result<Option<C>, XconError>)
      requires Valid()
      modifies this
      ensures (State(), r) == GetCache(old(State()), expireTimeDelta, now, provider, ctor)
    {
      ExpireCacheIfNeeded(now);
      ghost var expired := State();
      var cache: Option<C> := if provider in entries then Some(entries[provider]) else None;
      if cache.None? && !ctor.NoConstructor? {
        if ctor.Returns? {
          cache := Some(ctor.made);
        } else if ctor.SetsAndReturnsNone? {
          SetCacheForProvider(provider, ctor.made, now);
          cache := if provider in entries then Some(entries[provider]) else None;
          assert State() == expired.(entries := expired.entries[provider := ctor.made]);
        }
        if cache.None? {
          return Err(MissingProviderCache);
        }
        entries := entries[provider := cache.value];
      }
      assert provider !in expired.entries && (ctor.Returns? || ctor.SetsAndReturnsNone?) ==>
        cache == Some(ctor.made) && State() == expired.(entries := expired.entries[provider := ctor.made]);
      r := Ok(cache);
    }

    method SetCacheForProvider(provider: nat, cache: C, now: int)
      modifies this
      ensures State() == var s := Expire(old(State()), expireTimeDelta, now); s.(entries := s.entries[provider := cache])
    {
      ExpireCacheIfNeeded(now);
      entries := entries[provider := cache];
    }
  }

  // ---------------------------------------------------------------------
  // AwsProvider.local_cache
  // ---------------------------------------------------------------------

  /** The listings an AWS provider holds in a cache state; none yet reads as no listings. */
  function ListingsOf(s: CacheState<ProviderCache>, id: nat): map<Directory, Listing>
  {
    if id in s.entries && s.entries[id].DirectoryListings? then s.entries[id].listings else map[]
  }

  /** The provider's entry, when there is one, is a map of directory listings. */
  predicate HoldsListings(s: CacheState<ProviderCache>, id: nat)
  {
    id in s.entries ==> s.entries[id].DirectoryListings?
  }

  /** The state with the provider's listings replaced. */
  function WithListings(s: CacheState<ProviderCache>, id: nat, listings: map<Directory, Listing>): (r: CacheState<ProviderCache>)
    ensures HoldsListings(r, id) && ListingsOf(r, id) == listings
    ensures r.lastReset == s.lastReset
    ensures forall other :: other != id ==> (other in r.entries <==> other in s.entries)
    ensures forall other :: other != id && other in s.entries ==> r.entries[other] == s.entries[other]
  {
    s.(entries := s.entries[id := DirectoryListings(listings)])
  }

  /**
   * `AwsProvider.local_cache`: the provider's map of directory listings in the
   * shared cache, created empty when the provider has none (or it expired).
   */
  method AwsLocalCache(cache: LocalProviderCache<ProviderCache>, id: nat, now: int)
    returns (listings: map<Directory, Listing>)
    requires cache.Valid() && HoldsListings(cache.State(), id)
    modifies cache
    ensures cache.Valid()
    ensures listings == ListingsOf(Expire(old(cache.State()), cache.expireTimeDelta, now), id)
    ensures cache.State() == WithListings(Expire(old(cache.State()), cache.expireTimeDelta, now), id, listings)
  {
    var r := cache.GetCacheForProvider(id, now, Returns(DirectoryListings(map[])));
    var expired := Expire(old(cache.State()), cache.expireTimeDelta, now);
    if id in expired.entries {
      assert r == Ok(Some(expired.entries[id]));
      assert cache.State() == expired;
      assert expired == WithListings(expired, id, expired.entries[id].listings);
    }
    listings := r.value.value.listings;
  }

  /**
   * Storing a listing for a directory (`self.local_cache[directory] = listing`)
   * at time `now`: the cache expires first if it is due, and the listing then
   * lands in the provider's map as it is after that expiry (an expired cache
   * keeps only this listing).
   */
  method AwsStoreListing(cache: LocalProviderCache<ProviderCache>, id: nat, now: int, d: Directory, listing: Listing)
    requires cache.Valid() && HoldsListings(cache.State(), id)
    modifies cache
    ensures cache.Valid()
    ensures var expired := Expire(old(cache.State()), cache.expireTimeDelta, now);
      cache.State() == WithListings(expired, id, ListingsOf(expired, id)[d := listing])
    ensures old(cache.lastReset) < now - cache.expireTimeDelta ==>
      cache.State() == CacheState(map[id := DirectoryListings(map[d := listing])], now)
  {
    var listings := AwsLocalCache(cache, id, now);
    cache.SetCacheForProvider(id, DirectoryListings(listings[d := listing]), now);
  }
}
