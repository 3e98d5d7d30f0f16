/**
 * `Config`: where a configuration value is looked for. A `Config` object
 * holds ordered sets of providers, directories and export services (each may
 * contain the `Default` sentinel), scalar settings that may be `Default`, and
 * listings of overrides and defaults. `Default` is resolved along the parent
 * chain, the other `Config` objects of the current context.
 */
module Configs {
  import opened Base
  import opened Text
  import opened Directories
  import opened Providers

  // ---------------------------------------------------------------------
  // The `Default` sentinel and ordered sets
  // ---------------------------------------------------------------------

  /** A value that may be the `Default` sentinel: "ask the parent chain". */
  datatype Entry<T> = DefaultEntry | Given(value: T)

  /** An ordered set: a sequence without repeats. */
  predicate NoDup<T(==)>(xs: seq<T>)
  {
    forall i, j :: 0 <= i < j < |xs| ==> xs[i] != xs[j]
  }

  /** `Default in values`. */
  predicate HasDefault<T(==)>(xs: seq<Entry<T>>)
  {
    exists i :: 0 <= i < |xs| && xs[i].DefaultEntry?
  }

  /** `{x: None for x in xs}`: the first occurrence of every value, in order. */
  function Dedup<T(==)>(xs: seq<T>): (r: seq<T>)
    ensures NoDup(r)
    ensures forall i :: 0 <= i < |r| ==> r[i] in xs
    ensures forall i :: 0 <= i < |xs| ==> xs[i] in r
    ensures |r| <= |xs|
  {
    if |xs| == 0 then []
    else
      var init := xs[..|xs| - 1];
      var d := Dedup(init);
      assert xs == init + [xs[|xs| - 1]];
      if xs[|xs| - 1] in d then d else d + [xs[|xs| - 1]]
  }

  /** Adding a value to an ordered set: nothing changes when it is already there, else it goes last. */
  lemma DedupSnoc<T>(xs: seq<T>, x: T)
    ensures Dedup(xs + [x]) == if x in Dedup(xs) then Dedup(xs) else Dedup(xs) + [x]
  {
    assert (xs + [x])[..|xs|] == xs;
  }

  lemma SnocAssoc<T>(a: seq<T>, b: seq<T>, x: T)
    ensures a + (b + [x]) == (a + b) + [x]
  {
  }

  /** A sequence without repeats is its own ordered set. */
  lemma {:induction false} DedupOfNoDup<T>(xs: seq<T>)
    requires NoDup(xs)
    ensures Dedup(xs) == xs
  {
    if |xs| > 0 {
      var init := xs[..|xs| - 1];
      assert NoDup(init);
      DedupOfNoDup(init);
      assert xs[|xs| - 1] !in init;
      assert init + [xs[|xs| - 1]] == xs;
    }
  }

  /** A prefix of `d` is still a prefix of `d` with or without one more value at the end. */
  lemma PrefixSnoc<T>(p: seq<T>, d: seq<T>, x: T, e: seq<T>)
    requires |p| <= |d| && d[..|p|] == p
    requires e == d || e == d + [x]
    ensures |p| <= |e| && e[..|p|] == p
  {
    if e != d {
      assert e[..|p|] == d[..|p|];
    }
  }

  /** What an ordered set already holds stays in front when more values are added. */
  lemma {:induction false} DedupPrefix<T>(a: seq<T>, b: seq<T>)
    ensures |Dedup(a)| <= |Dedup(a + b)| && Dedup(a + b)[..|Dedup(a)|] == Dedup(a)
    decreases |b|
  {
    if |b| == 0 {
      assert a + b == a;
    } else {
      var init := b[..|b| - 1];
      var x := b[|b| - 1];
      assert b == init + [x];
      SnocAssoc(a, init, x);
      DedupPrefix(a, init);
      DedupSnoc(a + init, x);
      PrefixSnoc(Dedup(a), Dedup(a + init), x, Dedup(a + b));
    }
  }

  /** The values of the non-`Default` entries, in order. */
  function Givens<T(==)>(xs: seq<Entry<T>>): (r: seq<T>)
    ensures |r| <= |xs|
  {
    if |xs| == 0 then []
    else Givens(xs[..|xs| - 1]) + (if xs[|xs| - 1].Given? then [xs[|xs| - 1].value] else [])
  }

  /** The entries with every `Default` replaced by the parent's values, in order. */
  function Expand<T(==)>(xs: seq<Entry<T>>, parent: seq<T>): seq<T>
  {
    if |xs| == 0 then []
    else Expand(xs[..|xs| - 1], parent) + (if xs[|xs| - 1].Given? then [xs[|xs| - 1].value] else parent)
  }

  /** A value is in the expansion iff it is given, or it is the parent's and a `Default` is present. */
  lemma {:induction false} ExpandMembers<T>(xs: seq<Entry<T>>, parent: seq<T>, x: T)
    ensures x in Expand(xs, parent) <==> Given(x) in xs || (HasDefault(xs) && x in parent)
  {
    if |xs| > 0 {
      var init := xs[..|xs| - 1];
      ExpandMembers(init, parent, x);
      assert xs == init + [xs[|xs| - 1]];
      if HasDefault(xs) && !HasDefault(init) {
        assert xs[|xs| - 1].DefaultEntry?;
      }
      if HasDefault(init) {
        var i :| 0 <= i < |init| && init[i].DefaultEntry?;
        assert xs[i].DefaultEntry?;
      }
    }
  }

  /** Without a `Default`, the expansion is the given values. */
  lemma {:induction false} ExpandWithoutDefault<T>(xs: seq<Entry<T>>, parent: seq<T>)
    requires !HasDefault(xs)
    ensures Expand(xs, parent) == Givens(xs)
  {
    if |xs| > 0 {
      var init := xs[..|xs| - 1];
      assert !HasDefault(init) by {
        forall i | 0 <= i < |init| ensures !init[i].DefaultEntry? {
          assert init[i] == xs[i];
        }
      }
      ExpandWithoutDefault(init, parent);
      assert xs[|xs| - 1].Given?;
    }
  }

  /** The given values of an ordered set of entries are themselves an ordered set. */
  lemma {:induction false} GivensNoDup<T>(xs: seq<Entry<T>>)
    requires NoDup(xs)
    ensures NoDup(Givens(xs))
    ensures forall x :: x in Givens(xs) <==> Given(x) in xs
  {
    if |xs| > 0 {
      var init := xs[..|xs| - 1];
      assert NoDup(init);
      GivensNoDup(init);
      assert xs == init + [xs[|xs| - 1]];
      if xs[|xs| - 1].Given? {
        assert xs[|xs| - 1] !in init;
      }
    }
  }

  /** Expanding a concatenation is concatenating the expansions. */
  lemma {:induction false} ExpandConcat<T>(a: seq<Entry<T>>, b: seq<Entry<T>>, parent: seq<T>)
    ensures Expand(a + b, parent) == Expand(a, parent) + Expand(b, parent)
    decreases |b|
  {
    if |b| == 0 {
      assert a + b == a;
    } else {
      var init := b[..|b| - 1];
      ExpandConcat(a, init, parent);
      assert (a + b)[..|a + b| - 1] == a + init;
      assert (a + b)[|a + b| - 1] == b[|b| - 1];
    }
  }

  // ---------------------------------------------------------------------
  // A snapshot of one `Config` object and the library settings
  // ---------------------------------------------------------------------

  /** What a `cacher` may be set to: `None`, `Default`, or a class (`DynamoCacher` or another one). */
  datatype CacherChoice = NoCacher | DefaultCacher | CacherClass(isDynamoCacher: bool)

  /** The state of one `Config` object that resolution reads. */
  datatype ConfigState = ConfigState(
    overrides: Listing,
    defaults: Listing,
    providers: seq<Entry<ProviderKind>>,
    directories: seq<Entry<Directory>>,
    exports: seq<Entry<string>>,
    cacher: CacherChoice,
    service: Entry<string>,
    environment: Entry<string>,
    useParent: bool)

  /** Every listing key is its item's name. */
  predicate ListingWf(m: Listing)
  {
    forall k :: k in m ==> m[k].name == k
  }

  /** Invariants a `Config` object keeps: ordered sets, well-formed directories and listings. */
  predicate StateWf(s: ConfigState)
  {
    NoDup(s.providers) && NoDup(s.directories) && NoDup(s.exports)
    && ListingWf(s.overrides) && ListingWf(s.defaults)
    && forall i :: 0 <= i < |s.directories| ==> s.directories[i].Given? ==> Wf(s.directories[i].value)
  }

  predicate StatesWf(states: seq<ConfigState>)
  {
    forall i :: 0 <= i < |states| ==> StateWf(states[i])
  }

  /** The library settings `Config` falls back on (`xcon_settings`). */
  datatype XconSettings = XconSettings(
    service: string,
    environment: string,
    directories: seq<Directory>,
    providers: seq<ProviderKind>,
    onlyEnvProvider: bool,
    disableDefaultCacher: bool)

  predicate SettingsWf(settings: XconSettings)
  {
    forall i :: 0 <= i < |settings.directories| ==> Wf(settings.directories[i])
  }

  // ---------------------------------------------------------------------
  // `_resolve_attr_values_with_cursor`
  // ---------------------------------------------------------------------

  /**
   * The ordered set an attribute resolves to along `states` (self, then its
   * parents): a `Default` stands for the parent's resolution, or for the
   * factory's values past the last parent; repeats are dropped, first
   * occurrences kept.
   */
  function Resolved<T(==)>(states: seq<ConfigState>, attr: ConfigState -> seq<Entry<T>>, root: seq<T>): (r: seq<T>)
    ensures NoDup(r)
    decreases |states|
  {
    if |states| == 0 then Dedup(root)
    else Dedup(Expand(attr(states[0]), Resolved(states[1..], attr, root)))
  }

  /** Without a `Default` in its own set, an object resolves to a copy of that set. */
  lemma WithoutDefaultIsOwn<T>(states: seq<ConfigState>, attr: ConfigState -> seq<Entry<T>>, root: seq<T>)
    requires |states| > 0 && NoDup(attr(states[0])) && !HasDefault(attr(states[0]))
    ensures Resolved(states, attr, root) == Givens(attr(states[0]))
  {
    ExpandWithoutDefault(attr(states[0]), Resolved(states[1..], attr, root));
    GivensNoDup(attr(states[0]));
    DedupOfNoDup(Givens(attr(states[0])));
  }

  /** An own set of only `Default` resolves to the parent's resolution (the factory's at the root). */
  lemma OnlyDefaultIsParent<T>(states: seq<ConfigState>, attr: ConfigState -> seq<Entry<T>>, root: seq<T>)
    requires |states| > 0 && |attr(states[0])| == 1 && attr(states[0])[0].DefaultEntry?
    ensures Resolved(states, attr, root) == Resolved(states[1..], attr, root)
  {
    var own := attr(states[0]);
    var parent := Resolved(states[1..], attr, root);
    assert own[..0] == [];
    assert Expand(own, parent) == parent;
    DedupOfNoDup(parent);
  }

  /** A value is resolved iff it is given on self, or it is resolved by the parent and self has a `Default`. */
  lemma ResolvedMembers<T>(states: seq<ConfigState>, attr: ConfigState -> seq<Entry<T>>, root: seq<T>, x: T)
    ensures |states| == 0 ==> (x in Resolved(states, attr, root) <==> x in root)
    ensures |states| > 0 ==> (x in Resolved(states, attr, root) <==>
      Given(x) in attr(states[0]) || (HasDefault(attr(states[0])) && x in Resolved(states[1..], attr, root)))
  {
    if |states| > 0 {
      ExpandMembers(attr(states[0]), Resolved(states[1..], attr, root), x);
    }
  }

  /** Every resolved value was given on some object of the chain or came from the factory. */
  lemma {:induction false} ResolvedFromChain<T>(states: seq<ConfigState>, attr: ConfigState -> seq<Entry<T>>,
                                               root: seq<T>, x: T)
    requires x in Resolved(states, attr, root)
    ensures x in root || exists i :: 0 <= i < |states| && Given(x) in attr(states[i])
    decreases |states|
  {
    ResolvedMembers(states, attr, root, x);
    if |states| > 0 && Given(x) !in attr(states[0]) {
      ResolvedFromChain(states[1..], attr, root, x);
      if !(x in root) {
        var i :| 0 <= i < |states[1..]| && Given(x) in attr(states[1..][i]);
        assert states[1..][i] == states[i + 1];
      }
    }
  }

  /** The values given on self before its first `Default` come first, in their own order. */
  lemma OwnValuesBeforeDefaultComeFirst<T>(states: seq<ConfigState>, attr: ConfigState -> seq<Entry<T>>,
                                           root: seq<T>, k: nat)
    requires |states| > 0 && NoDup(attr(states[0]))
    requires k <= |attr(states[0])| && !HasDefault(attr(states[0])[..k])
    ensures var r := Resolved(states, attr, root);
      |Givens(attr(states[0])[..k])| <= |r| && r[..|Givens(attr(states[0])[..k])|] == Givens(attr(states[0])[..k])
  {
    var own := attr(states[0]);
    var parent := Resolved(states[1..], attr, root);
    assert own == own[..k] + own[k..];
    ExpandConcat(own[..k], own[k..], parent);
    ExpandWithoutDefault(own[..k], parent);
    assert NoDup(own[..k]);
    GivensNoDup(own[..k]);
    DedupOfNoDup(Givens(own[..k]));
    DedupPrefix(Givens(own[..k]), Expand(own[k..], parent));
  }

  /**
   * `_resolve_attr_values_with_cursor`: a copy of the own set when it has no
   * `Default`; otherwise the parent's resolution (the factory's at the root),
   * returned as is when the own set is only `Default` and spliced in at
   * every `Default` otherwise.
   */
  method ResolveAttrValues<T(==)>(states: seq<ConfigState>, attr: ConfigState -> seq<Entry<T>>, root: seq<T>)
    returns (r: seq<T>)
    requires |states| > 0
    requires forall i :: 0 <= i < |states| ==> NoDup(attr(states[i]))
    ensures r == Resolved(states, attr, root)
    decreases |states|
  {
    var values := attr(states[0]);
    if !HasDefault(values) {
      WithoutDefaultIsOwn(states, attr, root);
      return Givens(values);
    }
    var parentValues: seq<T>;
    if |states| > 1 {
      parentValues := ResolveAttrValues(states[1..], attr, root);
    } else {
      parentValues := Dedup(root);
      assert states[1..] == [];
    }
    if |values| == 1 {
      OnlyDefaultIsParent(states, attr, root);
      return parentValues;
    }
    r := Splice(values, parentValues);
  }

  /** The loop of `_resolve_attr_values_with_cursor`: the parent's values at every `Default`, each value once. */
  method Splice<T(==)>(values: seq<Entry<T>>, parentValues: seq<T>) returns (r: seq<T>)
    ensures r == Dedup(Expand(values, parentValues))
  {
    r := [];
    var i := 0;
    while i < |values|
      invariant 0 <= i <= |values|
      invariant r == Dedup(Expand(values[..i], parentValues))
    {
      assert values[..i + 1][..i] == values[..i];
      if values[i].DefaultEntry? {
        r := Update(r, parentValues, Expand(values[..i], parentValues));
      } else {
        DedupSnoc(Expand(values[..i], parentValues), values[i].value);
        if values[i].value !in r {
          r := r + [values[i].value];
        }
      }
      i := i + 1;
    }
    assert values[..i] == values;
  }

  /** One more value for `dict.update`: it goes last unless it is already there. */
  lemma UpdateStep<T>(added: seq<T>, values: seq<T>, j: nat)
    requires j < |values|
    ensures var d := Dedup(added + values[..j]);
      Dedup(added + values[..j + 1]) == if values[j] in d then d else d + [values[j]]
  {
    assert values[..j + 1] == values[..j] + [values[j]];
    SnocAssoc(added, values[..j], values[j]);
    DedupSnoc(added + values[..j], values[j]);
  }

  /** `dict.update` on an ordered set: each new value goes last, values already there keep their place. */
  method Update<T(==)>(target: seq<T>, values: seq<T>, ghost added: seq<T>) returns (r: seq<T>)
    requires target == Dedup(added)
    ensures r == Dedup(added + values)
  {
    r := target;
    var j := 0;
    assert added + values[..0] == added;
    while j < |values|
      invariant 0 <= j <= |values|
      invariant r == Dedup(added + values[..j])
    {
      UpdateStep(added, values, j);
      if values[j] !in r {
        r := r + [values[j]];
      }
      j := j + 1;
    }
    assert values[..j] == values;
  }

  // ---------------------------------------------------------------------
  // `_resolve_attr_with_cursor`: service and environment
  // ---------------------------------------------------------------------

  function ServiceAttr(s: ConfigState): Entry<string> { s.service }
  function EnvironmentAttr(s: ConfigState): Entry<string> { s.environment }
  function ProvidersAttr(s: ConfigState): seq<Entry<ProviderKind>> { s.providers }
  function DirectoriesAttr(s: ConfigState): seq<Entry<Directory>> { s.directories }
  function ExportsAttr(s: ConfigState): seq<Entry<string>> { s.exports }
  function OverridesAttr(s: ConfigState): Listing { s.overrides }
  function DefaultsAttr(s: ConfigState): Listing { s.defaults }

  /** `_resolve_attr_with_cursor`: self's value unless `Default`, else the parent's, else the factory's. */
  function ResolveAttr<T>(states: seq<ConfigState>, attr: ConfigState -> Entry<T>, fallback: T): T
    requires |states| > 0
    decreases |states|
  {
    if attr(states[0]).Given? then attr(states[0]).value
    else if |states| == 1 then fallback
    else ResolveAttr(states[1..], attr, fallback)
  }

  /** The value is the first one set along the chain. */
  lemma {:induction false} ResolveAttrFirstGiven<T>(states: seq<ConfigState>, attr: ConfigState -> Entry<T>,
                                                   fallback: T, k: nat)
    requires k < |states| && attr(states[k]).Given?
    requires forall j :: 0 <= j < k ==> attr(states[j]).DefaultEntry?
    ensures ResolveAttr(states, attr, fallback) == attr(states[k]).value
    decreases k
  {
    if k > 0 {
      assert attr(states[0]).DefaultEntry?;
      forall j | 0 <= j < k - 1 ensures attr(states[1..][j]).DefaultEntry? {
        assert states[1..][j] == states[j + 1];
      }
      ResolveAttrFirstGiven(states[1..], attr, fallback, k - 1);
    }
  }

  /** When no object of the chain sets it, the factory's value is used. */
  lemma {:induction false} ResolveAttrAllDefault<T>(states: seq<ConfigState>, attr: ConfigState -> Entry<T>, fallback: T)
    requires |states| > 0
    requires forall j :: 0 <= j < |states| ==> attr(states[j]).DefaultEntry?
    ensures ResolveAttr(states, attr, fallback) == fallback
    decreases |states|
  {
    if |states| > 1 {
      forall j | 0 <= j < |states| - 1 ensures attr(states[1..][j]).DefaultEntry? {
        assert states[1..][j] == states[j + 1];
      }
      ResolveAttrAllDefault(states[1..], attr, fallback);
    }
  }

  /** `_service_with_cursor`: falls back to `xcon_settings.service or 'global'`. */
  function ServiceWith(states: seq<ConfigState>, settings: XconSettings): string
    requires |states| > 0
  {
    ResolveAttr(states, ServiceAttr, if settings.service != "" then settings.service else "global")
  }

  /** `_environment_with_cursor`: falls back to `xcon_settings.environment or 'all'`. */
  function EnvironmentWith(states: seq<ConfigState>, settings: XconSettings): string
    requires |states| > 0
  {
    ResolveAttr(states, EnvironmentAttr, if settings.environment != "" then settings.environment else "all")
  }

  // ---------------------------------------------------------------------
  // `_cacher_with_cursor`
  // ---------------------------------------------------------------------

  const NotDynamoCacherMessage: string :=
    "Trying to get the cacher, but the type the user wants to use is not a DynamoCacher type"

  /** What an explicit (non-`Default`) cacher choice resolves to: `true` is the `DynamoCacher` resource. */
  function Chosen(c: CacherChoice): Result<bool, XconError>
    requires !c.DefaultCacher?
  {
    if c.NoCacher? then Ok(false)
    else if c.isDynamoCacher then Ok(true)
    else Err(ConfigError(NotDynamoCacherMessage))
  }

  /**
   * `_cacher_with_cursor`, with `true` for the `DynamoCacher` resource and
   * `false` for `None`: `None` and env-only mode give no cacher, `Default`
   * asks the parent and, at the root, gives `DynamoCacher` unless default
   * caching is disabled; any other class is a `ConfigError`.
   */
  function CacherWith(states: seq<ConfigState>, settings: XconSettings): (r: Result<bool, XconError>)
    requires |states| > 0
    ensures settings.onlyEnvProvider ==> r == Ok(false)
    decreases |states|
  {
    var c := states[0].cacher;
    if c.NoCacher? then Ok(false)
    else if settings.onlyEnvProvider then Ok(false)
    else if c.DefaultCacher? && |states| > 1 then CacherWith(states[1..], settings)
    else if c.DefaultCacher? then Ok(!settings.disableDefaultCacher)
    else Chosen(c)
  }

  /** Outside env-only mode, the first explicit choice along the chain decides. */
  lemma {:induction false} CacherFirstChoice(states: seq<ConfigState>, settings: XconSettings, k: nat)
    requires !settings.onlyEnvProvider
    requires k < |states| && !states[k].cacher.DefaultCacher?
    requires forall j :: 0 <= j < k ==> states[j].cacher.DefaultCacher?
    ensures CacherWith(states, settings) == Chosen(states[k].cacher)
    decreases k
  {
    if k > 0 {
      assert states[0].cacher.DefaultCacher?;
      forall j | 0 <= j < k - 1 ensures states[1..][j].cacher.DefaultCacher? {
        assert states[1..][j] == states[j + 1];
      }
      CacherFirstChoice(states[1..], settings, k - 1);
    }
  }

  /** With `Default` all along the chain, the `DynamoCacher` is used unless default caching is disabled. */
  lemma {:induction false} CacherAllDefault(states: seq<ConfigState>, settings: XconSettings)
    requires !settings.onlyEnvProvider && |states| > 0
    requires forall j :: 0 <= j < |states| ==> states[j].cacher.DefaultCacher?
    ensures CacherWith(states, settings) == Ok(!settings.disableDefaultCacher)
    decreases |states|
  {
    if |states| > 1 {
      forall j | 0 <= j < |states| - 1 ensures states[1..][j].cacher.DefaultCacher? {
        assert states[1..][j] == states[j + 1];
      }
      CacherAllDefault(states[1..], settings);
    }
  }

  // ---------------------------------------------------------------------
  // `_resolve_providers_with_cursor`
  // ---------------------------------------------------------------------

  /** The factory for providers: `xcon_settings.providers or [EnvironmentalProvider]`. */
  function DefaultProviders(settings: XconSettings): seq<ProviderKind>
  {
    if |settings.providers| > 0 then settings.providers else [EnvironmentalProvider]
  }

  /** The providers of the chain: only the environmental provider in env-only mode. */
  function ProvidersWith(states: seq<ConfigState>, settings: XconSettings): seq<ProviderKind>
  {
    if settings.onlyEnvProvider then [EnvironmentalProvider]
    else Resolved(states, ProvidersAttr, DefaultProviders(settings))
  }

  /** `_resolve_providers_with_cursor`. */
  method ResolveProviders(states: seq<ConfigState>, settings: XconSettings) returns (ps: seq<ProviderKind>)
    requires |states| > 0 && StatesWf(states)
    ensures ps == ProvidersWith(states, settings)
  {
    if settings.onlyEnvProvider {
      return [EnvironmentalProvider];
    }
    ps := ResolveAttrValues(states, ProvidersAttr, DefaultProviders(settings));
  }

  // ---------------------------------------------------------------------
  // `_standard_directories` and `_resolve_directories_with_cursor`
  // ---------------------------------------------------------------------

  /** A `{name}` format field. */
  function FieldText(name: string): string
  {
    "{" + name + "}"
  }

  /** `/{service}/{environment}`. */
  const ServiceEnvFormat: string := "/" + (FieldText("service") + ("/" + FieldText("environment")))
  /** `/{service}`. */
  const ServiceFormat: string := "/" + FieldText("service")
  /** `/global/{environment}`. */
  const GlobalEnvFormat: string := "/global/" + FieldText("environment")

  /** The default `xcon_settings.directories`, as `Directory(path)` makes each of the four paths. */
  const StandardDirectoryFormats: seq<Directory> := [
    Directory(ServiceEnvFormat, true),
    Directory(ServiceFormat, true),
    Directory(GlobalEnvFormat, true),
    Directory("/global", false)
  ]

  /** The tokens of plain text `p`, a field, plain text `q` and a second field. */
  function TwoFields(p: string, n1: string, q: string, n2: string): seq<Token>
  {
    Lits(p) + ([Field(n1)] + (Lits(q) + [Field(n2)]))
  }

  /** The tokens of plain text `p` and a field. */
  function OneField(p: string, n: string): seq<Token>
  {
    Lits(p) + [Field(n)]
  }

  /** A lone `{name}` field. */
  lemma LoneField(name: string)
    requires '{' !in name && '}' !in name
    ensures ParseFormat(FieldText(name)) == Ok([Field(name)])
  {
    var f := FieldText(name);
    ParseField(name, "");
    assert "{" + name + "}" + "" == f;
    assert ParseFormat("") == Ok([]);
    assert [Field(name)] + [] == [Field(name)];
  }

  /** Plain text followed by one `{name}` field. */
  lemma PlainThenField(p: string, name: string)
    requires '{' !in p && '}' !in p && '{' !in name && '}' !in name
    ensures ParseFormat(p + (FieldText(name))) == Ok(OneField(p, name))
  {
    LoneField(name);
    ParseFormatAppend(p, FieldText(name));
  }

  /** Plain text, a field, plain text and a field. */
  lemma PlainFieldPlainField(p: string, n1: string, q: string, n2: string)
    requires '{' !in p && '}' !in p && '{' !in n1 && '}' !in n1
    requires '{' !in q && '}' !in q && '{' !in n2 && '}' !in n2
    ensures ParseFormat(p + (FieldText(n1) + (q + (FieldText(n2))))) == Ok(TwoFields(p, n1, q, n2))
  {
    var rest := q + (FieldText(n2));
    PlainThenField(q, n2);
    ParseField(n1, rest);
    assert "{" + n1 + "}" + rest == FieldText(n1) + rest;
    ParseFormatAppend(p, FieldText(n1) + rest);
  }

  /** Filling in `p{service}q{environment}`. */
  lemma SubstituteTwoFields(p: string, q: string, service: string, environment: string)
    ensures KnownFields(TwoFields(p, "service", q, "environment"))
    ensures Substitute(TwoFields(p, "service", q, "environment"), service, environment) == p + service + q + environment
  {
    var last := [Field("environment")];
    assert last[1..] == [];
    assert Substitute(last, service, environment) == environment + "";
    SubstituteLits(q, last, service, environment);
    var mid := [Field("service")] + (Lits(q) + last);
    assert mid[1..] == Lits(q) + last;
    assert Substitute(mid, service, environment) == service + (q + environment);
    SubstituteLits(p, mid, service, environment);
    assert p + (service + (q + environment)) == p + service + q + environment;
  }

  /** Filling in `p{name}`. */
  lemma SubstituteOneField(p: string, name: string, service: string, environment: string)
    requires name == "service" || name == "environment"
    ensures KnownFields(OneField(p, name))
    ensures Substitute(OneField(p, name), service, environment) == p + (if name == "service" then service else environment)
  {
    var last := [Field(name)];
    assert Substitute(last, service, environment) == if name == "service" then service else environment;
    SubstituteLits(p, last, service, environment);
  }

  lemma {:induction false} SubstituteLits(s: string, rest: seq<Token>, service: string, environment: string)
    requires KnownFields(rest)
    ensures KnownFields(Lits(s) + rest)
    ensures Substitute(Lits(s) + rest, service, environment) == s + Substitute(rest, service, environment)
  {
    if |s| > 0 {
      SubstituteLits(s[1..], rest, service, environment);
      assert (Lits(s) + rest)[1..] == Lits(s[1..]) + rest;
      assert s == [s[0]] + s[1..];
    } else {
      assert Lits(s) + rest == rest;
    }
  }

  /** A field in `TwoFields` and in `OneField` makes the path a format path. */
  lemma FieldsPresent(p: string, q: string, name: string)
    ensures FieldNames(TwoFields(p, "service", q, "environment")) != {}
    ensures FieldNames(OneField(p, name)) != {}
  {
    var t := TwoFields(p, "service", q, "environment");
    assert t[|Lits(p)|] == Field("service");
    assert "service" in FieldNames(t);
    var u := OneField(p, name);
    assert u[|Lits(p)|] == Field(name);
    assert name in FieldNames(u);
  }

  /**
   * The default `xcon_settings.directories`: the first three paths parse
   * into known format fields, which is why `Directory(path)` marks them as
   * formats, and `/global` is a plain path.
   */
  lemma StandardFormatsParse()
    ensures ParseFormat(ServiceEnvFormat) == Ok(TwoFields("/", "service", "/", "environment"))
    ensures ParseFormat(ServiceFormat) == Ok(OneField("/", "service"))
    ensures ParseFormat(GlobalEnvFormat) == Ok(OneField("/global/", "environment"))
    ensures KnownFields(TwoFields("/", "service", "/", "environment"))
      && FieldNames(TwoFields("/", "service", "/", "environment")) != {}
    ensures KnownFields(OneField("/", "service")) && FieldNames(OneField("/", "service")) != {}
    ensures KnownFields(OneField("/global/", "environment")) && FieldNames(OneField("/global/", "environment")) != {}
  {
    PlainFieldPlainField("/", "service", "/", "environment");
    PlainThenField("/", "service");
    PlainThenField("/global/", "environment");
    SubstituteTwoFields("/", "/", "", "");
    SubstituteOneField("/", "service", "", "");
    SubstituteOneField("/global/", "environment", "", "");
    FieldsPresent("/", "/", "service");
    FieldsPresent("/global/", "/", "environment");
  }

  /** Each default directory is well formed. */
  lemma StandardFormatsWf()
    ensures forall i :: 0 <= i < 4 ==> Wf(StandardDirectoryFormats[i])
  {
    StandardFormatsParse();
    var ds := StandardDirectoryFormats;
    assert Wf(ds[0]) && Wf(ds[1]) && Wf(ds[2]) && Wf(ds[3]);
  }

  /** `Directory('/global')` is the plain directory of the global service. */
  lemma GlobalFromPath()
    ensures FromPath("/global", None) == Ok(StandardDirectoryFormats[3])
  {
    var s := "global";
    assert '/' !in s && '{' !in s && '}' !in s;
    var p := "/" + s;
    assert p == "/global";
    FromServicePathRoundTrip(s);
  }

  /** A service or environment that fits in one path segment without format braces. */
  predicate PlainSegment(s: string)
  {
    s != "" && '/' !in s && '{' !in s && '}' !in s
  }

  /** With plain names, the four default directories resolve to `/s/e`, `/s`, `/global/e` and `/global`. */
  lemma StandardFormatsResolve(service: string, environment: string)
    requires PlainSegment(service) && PlainSegment(environment)
    ensures forall i :: 0 <= i < 4 ==> Wf(StandardDirectoryFormats[i])
    ensures Resolve(StandardDirectoryFormats[0], service, environment) == Directory("/" + service + "/" + environment, false)
    ensures Resolve(StandardDirectoryFormats[1], service, environment) == Directory("/" + service, false)
    ensures Resolve(StandardDirectoryFormats[2], service, environment) == Directory("/global/" + environment, false)
    ensures Resolve(StandardDirectoryFormats[3], service, environment) == Directory("/global", false)
  {
    StandardFormatsParse();
    StandardFormatsWf();
    ResolveServiceEnv(service, environment);
    ResolveService(service, environment);
    ResolveGlobalEnv(service, environment);
  }

  lemma ResolveServiceEnv(service: string, environment: string)
    requires PlainSegment(service) && PlainSegment(environment)
    requires Wf(StandardDirectoryFormats[0])
    requires ParseFormat(ServiceEnvFormat) == Ok(TwoFields("/", "service", "/", "environment"))
    ensures Resolve(StandardDirectoryFormats[0], service, environment) == Directory("/" + service + "/" + environment, false)
  {
    SubstituteTwoFields("/", "/", service, environment);
    var p := "/" + service + "/" + environment;
    assert ServiceEnvFormat[1] == '{';
    assert '{' !in p;
    ServiceEnvOfPath(service, environment);
  }

  lemma ResolveService(service: string, environment: string)
    requires PlainSegment(service) && PlainSegment(environment)
    requires Wf(StandardDirectoryFormats[1])
    requires ParseFormat(ServiceFormat) == Ok(OneField("/", "service"))
    ensures Resolve(StandardDirectoryFormats[1], service, environment) == Directory("/" + service, false)
  {
    SubstituteOneField("/", "service", service, environment);
    var p := "/" + service;
    assert ServiceFormat[1] == '{';
    assert '{' !in p;
    ServiceOfPath(service);
  }

  lemma ResolveGlobalEnv(service: string, environment: string)
    requires PlainSegment(service) && PlainSegment(environment)
    requires Wf(StandardDirectoryFormats[2])
    requires ParseFormat(GlobalEnvFormat) == Ok(OneField("/global/", "environment"))
    ensures Resolve(StandardDirectoryFormats[2], service, environment) == Directory("/global/" + environment, false)
  {
    SubstituteOneField("/global/", "environment", service, environment);
    GlobalLiteral();
    var p := "/global/" + environment;
    assert GlobalEnvFormat[8] == '{';
    CharNotInConcat('{', "/global/", environment);
    ServiceEnvOfPath("global", environment);
  }

  /** The facts about the literal `global` the standard formats rely on. */
  lemma GlobalLiteral()
    ensures "global" != "" && '/' !in "global"
    ensures '{' !in "/global/" && "/" + "global" + "/" == "/global/"
  {
  }

  lemma CharNotInConcat(c: char, a: string, b: string)
    requires c !in a && c !in b
    ensures c !in a + b
  {
  }

  /** Each directory resolved with the service and environment. */
  function ResolveEach(ds: seq<Directory>, service: string, environment: string): (r: seq<Directory>)
    requires forall i :: 0 <= i < |ds| ==> Wf(ds[i])
    ensures |r| == |ds|
    ensures forall i :: 0 <= i < |ds| ==> r[i] == Resolve(ds[i], service, environment) && Wf(r[i])
  {
    seq(|ds|, i requires 0 <= i < |ds| => Resolve(ds[i], service, environment))
  }

  /** `_standard_directories`: the settings' directories resolved, each once. */
  function StandardDirectories(settings: XconSettings, service: string, environment: string): (r: seq<Directory>)
    requires SettingsWf(settings)
    ensures forall i :: 0 <= i < |r| ==> Wf(r[i])
  {
    Dedup(ResolveEach(settings.directories, service, environment))
  }

  /** `Directory(service=x, env=environment, is_export=True)` for each export service, in order. */
  function ExportDirectories(exported: seq<string>, environment: string): (r: Result<seq<Directory>, XconError>)
    ensures r.Ok? ==> |r.value| == |exported|
    ensures r.Ok? ==> forall i :: 0 <= i < |exported| ==>
      NewDirectory(exported[i], environment, true, None) == Ok(r.value[i])
  {
    if |exported| == 0 then Ok([])
    else
      var front := exported[..|exported| - 1];
      var init := ExportDirectories(front, environment);
      if init.Err? then init
      else
        var d := NewDirectory(exported[|exported| - 1], environment, true, None);
        if d.Err? then Err(d.error)
        else
          ExportSnoc(exported, environment, init.value, d.value);
          Ok(init.value + [d.value])
  }

  /** One more export service: its directory goes last, the others keep their places. */
  lemma ExportSnoc(exported: seq<string>, environment: string, ds: seq<Directory>, d: Directory)
    requires |exported| > 0 && |ds| == |exported| - 1
    requires forall i :: 0 <= i < |ds| ==>
      NewDirectory(exported[..|exported| - 1][i], environment, true, None) == Ok(ds[i])
    requires NewDirectory(exported[|exported| - 1], environment, true, None) == Ok(d)
    ensures forall i :: 0 <= i < |exported| ==>
      NewDirectory(exported[i], environment, true, None) == Ok((ds + [d])[i])
  {
    forall i | 0 <= i < |exported|
      ensures NewDirectory(exported[i], environment, true, None) == Ok((ds + [d])[i])
    {
      if i < |ds| {
        assert exported[..|exported| - 1][i] == exported[i] && (ds + [d])[i] == ds[i];
      } else {
        assert (ds + [d])[i] == d;
      }
    }
  }

  /** A character of a prefix occurs in the whole. */
  lemma PrefixChars(a: string, b: string, i: nat)
    requires i < |a|
    ensures a <= b ==> a[i] in b
  {
    if a <= b {
      assert b[i] == a[i];
    }
  }

  /** For plain names, the export directory of service `x` is `/x/export/env`, a plain directory. */
  lemma ExportDirectoryPath(x: string, environment: string)
    requires PlainSegment(x) && PlainSegment(environment)
    ensures NewDirectory(x, environment, true, None) == Ok(Directory("/" + x + "/export/" + environment, false))
  {
    var p := "/" + x + "/export/" + environment;
    PrefixChars("export/", environment, 6);
    assert PathFromComponents(x, environment, true) == "/" + x + "/" + ("export/" + environment);
    assert "/" + x + "/" + ("export/" + environment) == p;
    assert '{' !in p && '}' !in p;
    PlainHasNoFields(p);
  }

  /** Once an export directory fails, the whole list fails with that error. */
  lemma {:induction false} ExportDirectoriesFailFirst(exported: seq<string>, n: nat, environment: string)
    requires n <= |exported| && ExportDirectories(exported[..n], environment).Err?
    ensures ExportDirectories(exported, environment) == ExportDirectories(exported[..n], environment)
    decreases |exported|
  {
    if n < |exported| {
      var init := exported[..|exported| - 1];
      assert init[..n] == exported[..n];
      ExportDirectoriesFailFirst(init, n, environment);
    } else {
      assert exported[..n] == exported;
    }
  }

  /** Every directory resolved from well-formed entries and factory values is well formed. */
  lemma ResolvedDirectoriesWf(states: seq<ConfigState>, root: seq<Directory>, d: Directory)
    requires StatesWf(states) && forall i :: 0 <= i < |root| ==> Wf(root[i])
    requires d in Resolved(states, DirectoriesAttr, root)
    ensures Wf(d)
  {
    ResolvedFromChain(states, DirectoriesAttr, root, d);
    if d !in root {
      var i :| 0 <= i < |states| && Given(d) in DirectoriesAttr(states[i]);
      assert StateWf(states[i]);
      var j :| 0 <= j < |states[i].directories| && states[i].directories[j] == Given(d);
    }
  }

  /** The resolved directories followed by the export directories, each once. */
  function WithExports(directories: seq<Directory>, exported: seq<string>, environment: string)
    : (r: Result<seq<Directory>, XconError>)
  {
    var exportDirs := ExportDirectories(exported, environment);
    if exportDirs.Err? then Err(exportDirs.error) else Ok(Dedup(directories + exportDirs.value))
  }

  /** One more export service that makes a directory: the export list and the ordered set both grow by it. */
  lemma AddExportStep(directories: seq<Directory>, exported: seq<string>, environment: string, i: nat,
                      added: seq<Directory>, d: Directory)
    requires i < |exported| && ExportDirectories(exported[..i], environment) == Ok(added)
    requires NewDirectory(exported[i], environment, true, None) == Ok(d)
    ensures ExportDirectories(exported[..i + 1], environment) == Ok(added + [d])
    ensures Dedup(directories + (added + [d])) ==
      if d in Dedup(directories + added) then Dedup(directories + added) else Dedup(directories + added) + [d]
  {
    assert exported[..i + 1][..i] == exported[..i];
    DedupSnoc(directories + added, d);
    SnocAssoc(directories, added, d);
  }

  /** An export service that makes no directory is the error of the whole export list. */
  lemma AddExportFails(directories: seq<Directory>, exported: seq<string>, environment: string, i: nat,
                       added: seq<Directory>)
    requires i < |exported| && ExportDirectories(exported[..i], environment) == Ok(added)
    requires NewDirectory(exported[i], environment, true, None).Err?
    ensures WithExports(directories, exported, environment) ==
      Err(NewDirectory(exported[i], environment, true, None).error)
  {
    assert exported[..i + 1][..i] == exported[..i];
    ExportDirectoriesFailFirst(exported, i + 1, environment);
  }

  /** The loop of `_resolve_directories_with_cursor` adding an export directory per export service. */
  method AddExports(directories: seq<Directory>, exported: seq<string>, environment: string)
    returns (r: Result<seq<Directory>, XconError>)
    requires NoDup(directories)
    ensures r == WithExports(directories, exported, environment)
  {
    var result := directories;
    ghost var added: seq<Directory> := [];
    DedupOfNoDup(directories);
    assert directories + added == directories;
    var i := 0;
    while i < |exported|
      invariant 0 <= i <= |exported|
      invariant ExportDirectories(exported[..i], environment) == Ok(added)
      invariant result == Dedup(directories + added)
    {
      var d := NewDirectory(exported[i], environment, true, None);
      if d.Err? {
        AddExportFails(directories, exported, environment, i, added);
        return Err(d.error);
      }
      AddExportStep(directories, exported, environment, i, added, d.value);
      if d.value !in result {
        result := result + [d.value];
      }
      added := added + [d.value];
      i := i + 1;
    }
    assert exported[..i] == exported;
    r := Ok(result);
  }

  /** Everything in the chain before resolution is well formed. */
  lemma WithExportsWf(states: seq<ConfigState>, root: seq<Directory>, exported: seq<string>, environment: string)
    requires StatesWf(states) && forall i :: 0 <= i < |root| ==> Wf(root[i])
    requires WithExports(Resolved(states, DirectoriesAttr, root), exported, environment).Ok?
    ensures var all := WithExports(Resolved(states, DirectoriesAttr, root), exported, environment).value;
      forall i :: 0 <= i < |all| ==> Wf(all[i])
  {
    var directories := Resolved(states, DirectoriesAttr, root);
    var exportDirs := ExportDirectories(exported, environment).value;
    var all := Dedup(directories + exportDirs);
    forall i | 0 <= i < |all| ensures Wf(all[i]) {
      if all[i] in directories {
        ResolvedDirectoriesWf(states, root, all[i]);
      } else {
        var j :| 0 <= j < |exportDirs| && exportDirs[j] == all[i];
        assert NewDirectory(exported[j], environment, true, None) == Ok(all[i]);
      }
    }
  }

  /**
   * The directory chain: the resolved directories (the standard ones at the
   * root), then one export directory per resolved export service, each once;
   * then every directory resolved with the service and environment, each once.
   */
  function DirectoriesWith(states: seq<ConfigState>, settings: XconSettings, service: string, environment: string)
    : (r: Result<seq<Directory>, XconError>)
    requires |states| > 0 && StatesWf(states) && SettingsWf(settings)
    ensures r.Ok? ==> NoDup(r.value)
  {
    var standard := StandardDirectories(settings, service, environment);
    var all := WithExports(Resolved(states, DirectoriesAttr, standard), Resolved(states, ExportsAttr, []), environment);
    if all.Err? then Err(all.error)
    else
      WithExportsWf(states, standard, Resolved(states, ExportsAttr, []), environment);
      Ok(Dedup(ResolveEach(all.value, service, environment)))
  }

  /** `_resolve_directories_with_cursor` with the service and environment already resolved. */
  method ResolveDirectories(states: seq<ConfigState>, settings: XconSettings, service: string, environment: string)
    returns (r: Result<seq<Directory>, XconError>)
    requires |states| > 0 && StatesWf(states) && SettingsWf(settings)
    ensures r == DirectoriesWith(states, settings, service, environment)
  {
    var standard := StandardDirectories(settings, service, environment);
    var directories := ResolveAttrValues(states, DirectoriesAttr, standard);
    var exported := ResolveAttrValues(states, ExportsAttr, []);
    var all := AddExports(directories, exported, environment);
    if all.Err? {
      return Err(all.error);
    }
    WithExportsWf(states, standard, exported, environment);
    r := Ok(Dedup(ResolveEach(all.value, service, environment)));
  }

  /** `_directory_chain_with_cursor` with the chain's service and environment. */
  function DirectoryChainWith(states: seq<ConfigState>, settings: XconSettings): (r: Result<DirectoryChain, XconError>)
    requires |states| > 0 && StatesWf(states) && SettingsWf(settings)
    ensures r.Ok? ==> NoDup(r.value.directories)
  {
    var dirs := DirectoriesWith(states, settings, ServiceWith(states, settings), EnvironmentWith(states, settings));
    if dirs.Ok? then Ok(DirectoryChain(dirs.value)) else Err(dirs.error)
  }

  method ResolveDirectoryChain(states: seq<ConfigState>, settings: XconSettings) returns (r: Result<DirectoryChain, XconError>)
    requires |states| > 0 && StatesWf(states) && SettingsWf(settings)
    ensures r == DirectoryChainWith(states, settings)
  {
    var service := ServiceWith(states, settings);
    var environment := EnvironmentWith(states, settings);
    var dirs := ResolveDirectories(states, settings, service, environment);
    if dirs.Err? {
      return Err(dirs.error);
    }
    r := Ok(DirectoryChain(dirs.value));
  }

  // ---------------------------------------------------------------------
  // Overrides, defaults and `_get_item`
  // ---------------------------------------------------------------------

  /** The item listed under `name` on the first object of the chain that lists it. */
  function FirstListed(states: seq<ConfigState>, listing: ConfigState -> Listing, name: string): Option<DirectoryItem>
    decreases |states|
  {
    if |states| == 0 then None
    else if Lookup(listing(states[0]), name).Some? then Lookup(listing(states[0]), name)
    else FirstListed(states[1..], listing, name)
  }

  /** The first object along the chain that lists the name decides; none lists it iff nothing is found. */
  lemma {:induction false} FirstListedIsFirst(states: seq<ConfigState>, listing: ConfigState -> Listing, name: string)
    ensures FirstListed(states, listing, name).None? <==>
      forall j :: 0 <= j < |states| ==> Lower(name) !in listing(states[j])
    ensures FirstListed(states, listing, name).Some? ==>
      exists k :: 0 <= k < |states| && Lower(name) in listing(states[k])
        && FirstListed(states, listing, name) == Some(listing(states[k])[Lower(name)])
        && forall j :: 0 <= j < k ==> Lower(name) !in listing(states[j])
    decreases |states|
  {
    if |states| > 0 && Lookup(listing(states[0]), name).None? {
      FirstListedIsFirst(states[1..], listing, name);
      if FirstListed(states, listing, name).Some? {
        var k :| 0 <= k < |states[1..]| && Lower(name) in listing(states[1..][k])
          && FirstListed(states[1..], listing, name) == Some(listing(states[1..][k])[Lower(name)])
          && forall j :: 0 <= j < k ==> Lower(name) !in listing(states[1..][j]);
        assert states[1..][k] == states[k + 1];
        forall j | 0 <= j < k + 1 ensures Lower(name) !in listing(states[j]) {
          if j > 0 { assert states[1..][j - 1] == states[j]; }
        }
      } else {
        forall j | 0 <= j < |states| ensures Lower(name) !in listing(states[j]) {
          if j > 0 { assert states[1..][j - 1] == states[j]; }
        }
      }
    }
  }

  /** `_get_default_item_with_cursor`: the default on self, else on the parents in order. */
  function DefaultItemWith(states: seq<ConfigState>, name: string): Option<DirectoryItem>
  {
    FirstListed(states, DefaultsAttr, name)
  }

  /** A provider result that is replaced by a default: no item, or a `None` value in the non-existent directory. */
  predicate NeedsDefault(item: Option<DirectoryItem>)
  {
    item.None? || (item.value.value.None? && item.value.directory.IsNonExistent())
  }

  /** What a lookup returns: the item, and the batch the provider chain handed to the cacher. */
  datatype Found = Found(item: Option<DirectoryItem>, cached: Option<Listing>)

  /** `Directory.from_components(service, environment)`, the cacher's environ directory. */
  function CacheDirectory(service: string, environment: string): Result<Option<Directory>, XconError>
  {
    var d := FromComponents(service, environment);
    if d.Err? then Err(d.error) else Ok(Some(d.value))
  }

  /**
   * The provider part of `_get_item`: the service and environment of the
   * chain, a cacher only for a service other than `global` and only when a
   * provider is cacheable, the resolved directories and providers, and the
   * provider chain's lookup with them.
   */
  function ProviderLookup(states: seq<ConfigState>, name: string, settings: XconSettings,
                          answer: Answers, retrieved: Retrieved, cacheRaised: Option<XconError>): Result<ChainResult, XconError>
    requires |states| > 0 && StatesWf(states) && SettingsWf(settings)
  {
    var service := ServiceWith(states, settings);
    var environment := EnvironmentWith(states, settings);
    var cacher := if service != "global" then CacherWith(states, settings) else Ok(false);
    if cacher.Err? then Err(cacher.error)
    else
      var dirs := DirectoriesWith(states, settings, service, environment);
      if dirs.Err? then Err(dirs.error)
      else
        var ps := ProvidersWith(states, settings);
        var useCacher := cacher.value && ProviderChain(ps).HaveAnyCachableProviders();
        var environ := if useCacher then CacheDirectory(service, environment) else Ok(None);
        if environ.Err? then Err(environ.error)
        else ChainLookup(name, dirs.value, ps, useCacher, environ.value, answer, retrieved, cacheRaised)
  }

  /**
   * `_get_item` on the chain `states` (self first): an override on self or
   * a parent wins; otherwise the providers are asked (unless skipped), and a
   * default from self or a parent replaces a missing result (unless skipped).
   */
  function ItemOf(states: seq<ConfigState>, name: string, skipProviders: bool, skipDefaults: bool,
                  settings: XconSettings, answer: Answers, retrieved: Retrieved, cacheRaised: Option<XconError>): Result<Found, XconError>
    requires |states| > 0 && StatesWf(states) && SettingsWf(settings)
  {
    var overridden := FirstListed(states, OverridesAttr, name);
    if overridden.Some? then Ok(Found(overridden, None))
    else if skipProviders then Ok(Found(if skipDefaults then None else DefaultItemWith(states, name), None))
    else
      var c := ProviderLookup(states, name, settings, answer, retrieved, cacheRaised);
      if c.Err? then Err(c.error)
      else if !skipDefaults && NeedsDefault(Some(c.value.item)) && DefaultItemWith(states, name).Some?
      then Ok(Found(DefaultItemWith(states, name), c.value.cached))
      else Ok(Found(Some(c.value.item), c.value.cached))
  }

  /** The provider part of `_get_item`. */
  method LookupInProviders(states: seq<ConfigState>, name: string, settings: XconSettings,
                           answer: Answers, retrieved: Retrieved, cacheRaised: Option<XconError>) returns (r: Result<ChainResult, XconError>)
    requires |states| > 0 && StatesWf(states) && SettingsWf(settings)
    ensures r == ProviderLookup(states, name, settings, answer, retrieved, cacheRaised)
  {
    var service := ServiceWith(states, settings);
    var environment := EnvironmentWith(states, settings);
    var cacher := false;
    if service != "global" {
      var c := CacherWith(states, settings);
      if c.Err? {
        return Err(c.error);
      }
      cacher := c.value;
    }
    var dirs := ResolveDirectories(states, settings, service, environment);
    if dirs.Err? {
      return Err(dirs.error);
    }
    var ps := ResolveProviders(states, settings);
    var useCacher := cacher && ProviderChain(ps).HaveAnyCachableProviders();
    var environ: Option<Directory> := None;
    if useCacher {
      var d := FromComponents(service, environment);
      if d.Err? {
        return Err(d.error);
      }
      environ := Some(d.value);
    }
    r := Providers.GetItem(name, dirs.value, ps, useCacher, environ, answer, retrieved, cacheRaised);
  }

  /**
   * `_get_item`: the override on self, else (asking the parent with
   * providers and defaults skipped) the first override on a parent; else the
   * providers' item, replaced by a default when it is missing.
   */
  method GetItemWith(states: seq<ConfigState>, name: string, skipProviders: bool, skipDefaults: bool,
                     settings: XconSettings, answer: Answers, retrieved: Retrieved, cacheRaised: Option<XconError>) returns (r: Result<Found, XconError>)
    requires |states| > 0 && StatesWf(states) && SettingsWf(settings)
    ensures r == ItemOf(states, name, skipProviders, skipDefaults, settings, answer, retrieved, cacheRaised)
    decreases |states|
  {
    var item := Lookup(states[0].overrides, name);
    if item.None? && |states| > 1 {
      var inherited := GetItemWith(states[1..], name, true, true, settings, answer, retrieved, cacheRaised);
      item := inherited.value.item;
    }
    assert item == FirstListed(states, OverridesAttr, name);
    if item.Some? {
      return Ok(Found(item, None));
    }
    var found := Found(None, None);
    if !skipProviders {
      var c := LookupInProviders(states, name, settings, answer, retrieved, cacheRaised);
      if c.Err? {
        return Err(c.error);
      }
      found := Found(Some(c.value.item), c.value.cached);
    }
    if skipDefaults {
      return Ok(found);
    }
    if NeedsDefault(found.item) {
      var defaultItem := DefaultItemWith(states, name);
      if defaultItem.Some? {
        found := found.(item := defaultItem);
      }
    }
    r := Ok(found);
  }

  /** `get`: the found item's value, or the caller's default when there is no item or its value is `None`. */
  function GetOf(states: seq<ConfigState>, name: string, default: Option<Value>, skipProviders: bool,
                 settings: XconSettings, answer: Answers, retrieved: Retrieved, cacheRaised: Option<XconError>): Result<Option<Value>, XconError>
    requires |states| > 0 && StatesWf(states) && SettingsWf(settings)
  {
    var f := ItemOf(states, Lower(name), skipProviders, false, settings, answer, retrieved, cacheRaised);
    if f.Err? then Err(f.error)
    else if f.value.item.Some? && f.value.item.value.value.Some? then Ok(f.value.item.value.value)
    else Ok(default)
  }

  /** An override on the first object of the chain that has one wins, whatever is skipped. */
  lemma OverrideWins(states: seq<ConfigState>, name: string, skipProviders: bool, skipDefaults: bool,
                     settings: XconSettings, answer: Answers, retrieved: Retrieved, cacheRaised: Option<XconError>, k: nat)
    requires |states| > 0 && StatesWf(states) && SettingsWf(settings)
    requires k < |states| && Lower(name) in states[k].overrides
    requires forall j :: 0 <= j < k ==> Lower(name) !in states[j].overrides
    ensures ItemOf(states, name, skipProviders, skipDefaults, settings, answer, retrieved, cacheRaised)
      == Ok(Found(Some(states[k].overrides[Lower(name)]), None))
  {
    FirstListedIsFirst(states, OverridesAttr, name);
    var k' :| 0 <= k' < |states| && Lower(name) in OverridesAttr(states[k'])
      && FirstListed(states, OverridesAttr, name) == Some(OverridesAttr(states[k'])[Lower(name)])
      && forall j :: 0 <= j < k' ==> Lower(name) !in OverridesAttr(states[j]);
    assert k' == k;
  }

  /** With providers skipped, only what is set directly on the chain can be found, and nothing is cached. */
  lemma SkippedProvidersFindOnlyChainValues(states: seq<ConfigState>, name: string, skipDefaults: bool,
                                            settings: XconSettings, answer: Answers, retrieved: Retrieved, cacheRaised: Option<XconError>)
    requires |states| > 0 && StatesWf(states) && SettingsWf(settings)
    ensures var r := ItemOf(states, name, true, skipDefaults, settings, answer, retrieved, cacheRaised);
      r.Ok? && r.value.cached.None?
      && (r.value.item.Some? <==>
            exists k :: 0 <= k < |states| &&
              (Lower(name) in states[k].overrides || (!skipDefaults && Lower(name) in states[k].defaults)))
  {
    FirstListedIsFirst(states, OverridesAttr, name);
    FirstListedIsFirst(states, DefaultsAttr, name);
    var r := ItemOf(states, name, true, skipDefaults, settings, answer, retrieved, cacheRaised);
    if r.value.item.Some? {
      if FirstListed(states, OverridesAttr, name).None? {
        var k :| 0 <= k < |states| && Lower(name) in DefaultsAttr(states[k]);
        assert !skipDefaults && Lower(name) in states[k].defaults;
      } else {
        var k :| 0 <= k < |states| && Lower(name) in OverridesAttr(states[k]);
        assert Lower(name) in states[k].overrides;
      }
    }
  }

  /** Without an override, a provider result that needs no default is what the lookup returns. */
  lemma ProviderResultKept(states: seq<ConfigState>, name: string, skipDefaults: bool,
                           settings: XconSettings, answer: Answers, retrieved: Retrieved, cacheRaised: Option<XconError>)
    requires |states| > 0 && StatesWf(states) && SettingsWf(settings)
    requires forall j :: 0 <= j < |states| ==> Lower(name) !in states[j].overrides
    requires ProviderLookup(states, name, settings, answer, retrieved, cacheRaised).Ok?
    requires !NeedsDefault(Some(ProviderLookup(states, name, settings, answer, retrieved, cacheRaised).value.item))
    ensures var c := ProviderLookup(states, name, settings, answer, retrieved, cacheRaised).value;
      ItemOf(states, name, false, skipDefaults, settings, answer, retrieved, cacheRaised) == Ok(Found(Some(c.item), c.cached))
  {
    FirstListedIsFirst(states, OverridesAttr, name);
  }

  /**
   * Without an override, a missing provider result is replaced by the
   * default on the first object of the chain that has one.
   */
  lemma DefaultReplacesMissing(states: seq<ConfigState>, name: string,
                               settings: XconSettings, answer: Answers, retrieved: Retrieved, cacheRaised: Option<XconError>, k: nat)
    requires |states| > 0 && StatesWf(states) && SettingsWf(settings)
    requires forall j :: 0 <= j < |states| ==> Lower(name) !in states[j].overrides
    requires ProviderLookup(states, name, settings, answer, retrieved, cacheRaised).Ok?
    requires NeedsDefault(Some(ProviderLookup(states, name, settings, answer, retrieved, cacheRaised).value.item))
    requires k < |states| && Lower(name) in states[k].defaults
    requires forall j :: 0 <= j < k ==> Lower(name) !in states[j].defaults
    ensures var c := ProviderLookup(states, name, settings, answer, retrieved, cacheRaised).value;
      ItemOf(states, name, false, false, settings, answer, retrieved, cacheRaised)
        == Ok(Found(Some(states[k].defaults[Lower(name)]), c.cached))
  {
    FirstListedIsFirst(states, OverridesAttr, name);
    FirstListedIsFirst(states, DefaultsAttr, name);
    var k' :| 0 <= k' < |states| && Lower(name) in DefaultsAttr(states[k'])
      && FirstListed(states, DefaultsAttr, name) == Some(DefaultsAttr(states[k'])[Lower(name)])
      && forall j :: 0 <= j < k' ==> Lower(name) !in DefaultsAttr(states[j]);
    assert k' == k;
  }

  /** Without an override or a default, a missing provider result is returned as it is. */
  lemma MissingWithoutDefault(states: seq<ConfigState>, name: string, skipDefaults: bool,
                              settings: XconSettings, answer: Answers, retrieved: Retrieved, cacheRaised: Option<XconError>)
    requires |states| > 0 && StatesWf(states) && SettingsWf(settings)
    requires forall j :: 0 <= j < |states| ==> Lower(name) !in states[j].overrides && Lower(name) !in states[j].defaults
    requires ProviderLookup(states, name, settings, answer, retrieved, cacheRaised).Ok?
    ensures var c := ProviderLookup(states, name, settings, answer, retrieved, cacheRaised).value;
      ItemOf(states, name, false, skipDefaults, settings, answer, retrieved, cacheRaised) == Ok(Found(Some(c.item), c.cached))
  {
    FirstListedIsFirst(states, OverridesAttr, name);
    FirstListedIsFirst(states, DefaultsAttr, name);
  }

  /**
   * The provider chain hands its batch to the cacher only for a service
   * other than `global`, outside env-only mode, with the `DynamoCacher`
   * resolved and at least one cacheable provider.
   */
  lemma CachedOnlyWithCacher(states: seq<ConfigState>, name: string,
                             settings: XconSettings, answer: Answers, retrieved: Retrieved, cacheRaised: Option<XconError>)
    requires |states| > 0 && StatesWf(states) && SettingsWf(settings)
    requires ProviderLookup(states, name, settings, answer, retrieved, cacheRaised).Ok?
    requires ProviderLookup(states, name, settings, answer, retrieved, cacheRaised).value.cached.Some?
    ensures ServiceWith(states, settings) != "global"
    ensures !settings.onlyEnvProvider
    ensures CacherWith(states, settings) == Ok(true)
    ensures ProviderChain(ProvidersWith(states, settings)).HaveAnyCachableProviders()
  {
  }

  /** `get` looks the name up in any case. */
  lemma GetIgnoresCase(states: seq<ConfigState>, name: string, default: Option<Value>, skipProviders: bool,
                       settings: XconSettings, answer: Answers, retrieved: Retrieved, cacheRaised: Option<XconError>)
    requires |states| > 0 && StatesWf(states) && SettingsWf(settings)
    ensures GetOf(states, name, default, skipProviders, settings, answer, retrieved, cacheRaised)
         == GetOf(states, Lower(name), default, skipProviders, settings, answer, retrieved, cacheRaised)
  {
    LowerIdempotent(name);
  }

  /** `get` returns the winning override's value, or the caller's default when that value is `None`. */
  lemma GetReturnsOverride(states: seq<ConfigState>, name: string, default: Option<Value>, skipProviders: bool,
                           settings: XconSettings, answer: Answers, retrieved: Retrieved, cacheRaised: Option<XconError>, k: nat)
    requires |states| > 0 && StatesWf(states) && SettingsWf(settings)
    requires k < |states| && Lower(name) in states[k].overrides
    requires forall j :: 0 <= j < k ==> Lower(name) !in states[j].overrides
    ensures var v := states[k].overrides[Lower(name)].value;
      GetOf(states, name, default, skipProviders, settings, answer, retrieved, cacheRaised) == Ok(if v.Some? then v else default)
  {
    LowerIdempotent(name);
    OverrideWins(states, Lower(name), skipProviders, false, settings, answer, retrieved, cacheRaised, k);
  }

  /** With nothing set on the chain and nothing found by the providers, `get` returns the caller's default. */
  lemma GetFallsBackToCallersDefault(states: seq<ConfigState>, name: string, default: Option<Value>,
                                     skipProviders: bool, settings: XconSettings, answer: Answers, retrieved: Retrieved, cacheRaised: Option<XconError>)
    requires |states| > 0 && StatesWf(states) && SettingsWf(settings)
    requires forall j :: 0 <= j < |states| ==>
      Lower(name) !in states[j].overrides && Lower(name) !in states[j].defaults
    requires !skipProviders ==>
      ProviderLookup(states, Lower(name), settings, answer, retrieved, cacheRaised).Ok?
      && NeedsDefault(Some(ProviderLookup(states, Lower(name), settings, answer, retrieved, cacheRaised).value.item))
    ensures GetOf(states, name, default, skipProviders, settings, answer, retrieved, cacheRaised) == Ok(default)
  {
    LowerIdempotent(name);
    if skipProviders {
      SkippedProvidersFindOnlyChainValues(states, Lower(name), false, settings, answer, retrieved, cacheRaised);
    } else {
      MissingWithoutDefault(states, Lower(name), false, settings, answer, retrieved, cacheRaised);
    }
  }

  /**
   * Without an override, whatever the provider part raises (a source's
   * `get_item`, the cacher's `cache_items`, or resolving the directories and
   * providers) leaves `get` too: no default replaces it.
   */
  lemma GetPropagatesProviderError(states: seq<ConfigState>, name: string, default: Option<Value>,
                                   settings: XconSettings, answer: Answers, retrieved: Retrieved, cacheRaised: Option<XconError>)
    requires |states| > 0 && StatesWf(states) && SettingsWf(settings)
    requires forall j :: 0 <= j < |states| ==> Lower(name) !in states[j].overrides
    requires ProviderLookup(states, Lower(name), settings, answer, retrieved, cacheRaised).Err?
    ensures ItemOf(states, Lower(name), false, false, settings, answer, retrieved, cacheRaised)
         == Err(ProviderLookup(states, Lower(name), settings, answer, retrieved, cacheRaised).error)
    ensures GetOf(states, name, default, false, settings, answer, retrieved, cacheRaised)
         == Err(ProviderLookup(states, Lower(name), settings, answer, retrieved, cacheRaised).error)
  {
    LowerIdempotent(name);
    FirstListedIsFirst(states, OverridesAttr, Lower(name));
  }

  // ---------------------------------------------------------------------
  // The parent chain
  // ---------------------------------------------------------------------

  /** The position of the first occurrence of `self`, `|nodes|` when it is absent. */
  function IndexOf(nodes: seq<Config>, self: Config): (k: nat)
    ensures k <= |nodes|
    ensures forall j :: 0 <= j < k ==> nodes[j] != self
    ensures k < |nodes| ==> nodes[k] == self
    ensures k == |nodes| <==> self !in nodes
  {
    if |nodes| == 0 then 0 else if nodes[0] == self then 0 else 1 + IndexOf(nodes[1..], self)
  }

  /** The nodes other than `self`, in order. */
  function Others(nodes: seq<Config>, self: Config): seq<Config>
  {
    if |nodes| == 0 then [] else (if nodes[0] == self then [] else [nodes[0]]) + Others(nodes[1..], self)
  }

  /** The nodes other than `self`, in order, up to and including the first that does not use its parent. */
  function Through(nodes: seq<Config>, self: Config): seq<Config>
  {
    if |nodes| == 0 then []
    else if nodes[0] == self then Through(nodes[1..], self)
    else if !nodes[0].useParent then [nodes[0]]
    else [nodes[0]] + Through(nodes[1..], self)
  }

  /**
   * `_parent_chain` given the context's `Config` objects, innermost first:
   * an object that uses its parent takes the other objects of the context;
   * one that does not takes only those before itself, and none when it is
   * not in the context; either way the chain ends at the first object that
   * does not use its parent.
   */
  function ParentChainOf(self: Config, context: seq<Config>): seq<Config>
  {
    if self.useParent then Through(context, self)
    else if self !in context then []
    else Through(context[..IndexOf(context, self)], self)
  }

  /**
   * The chain is the other nodes in order, cut after the first node that does
   * not use its parent: every node but the last uses its parent, and only such
   * a last node ends it early.
   */
  lemma {:induction false} ThroughShape(nodes: seq<Config>, self: Config)
    ensures var r := Through(nodes, self);
      |r| <= |Others(nodes, self)| && r == Others(nodes, self)[..|r|]
      && (forall i :: 0 <= i < |r| - 1 ==> r[i].useParent)
      && (|r| < |Others(nodes, self)| ==> |r| > 0 && !r[|r| - 1].useParent)
    ensures forall c :: c in Through(nodes, self) ==> c in nodes && c != self
  {
    if |nodes| > 0 {
      ThroughShape(nodes[1..], self);
      var r := Through(nodes, self);
      var rest := Through(nodes[1..], self);
      var others := Others(nodes[1..], self);
      if nodes[0] != self && nodes[0].useParent {
        assert r == [nodes[0]] + rest;
        assert Others(nodes, self) == [nodes[0]] + others;
        assert r == Others(nodes, self)[..|r|];
        forall i | 0 <= i < |r| - 1 ensures r[i].useParent {
          if i > 0 { assert r[i] == rest[i - 1]; }
        }
      } else if nodes[0] != self {
        assert Others(nodes, self) == [nodes[0]] + others;
      } else {
        assert Others(nodes, self) == others;
      }
    }
  }

  /** One step of the walk over `nodes[i..limit]`. */
  lemma ThroughStep(nodes: seq<Config>, i: nat, limit: nat, self: Config)
    requires i < limit <= |nodes|
    ensures Through(nodes[i..limit], self) ==
      if nodes[i] == self then Through(nodes[i + 1..limit], self)
      else if !nodes[i].useParent then [nodes[i]]
      else [nodes[i]] + Through(nodes[i + 1..limit], self)
  {
    assert nodes[i..limit][1..] == nodes[i + 1..limit];
  }

  lemma ConcatAssoc<T>(a: seq<T>, b: seq<T>, c: seq<T>)
    ensures (a + b) + c == a + (b + c)
  {
  }

  /** The parent chain never holds self, and holds only objects of the context. */
  lemma ParentChainMembers(self: Config, context: seq<Config>)
    ensures forall c :: c in ParentChainOf(self, context) ==> c in context && c != self
  {
    ThroughShape(context, self);
    ThroughShape(context[..IndexOf(context, self)], self);
  }

  /** An object that does not use its parent and is not in the context has an empty chain. */
  lemma IsolatedHasNoParents(self: Config, context: seq<Config>)
    requires !self.useParent && self !in context
    ensures ParentChainOf(self, context) == []
  {
  }

  /** When every other object uses its parent, an object that uses its parent chains all of them in order. */
  lemma ParentChainTakesAllUsers(self: Config, context: seq<Config>)
    requires self.useParent
    requires forall c :: c in context && c != self ==> c.useParent
    ensures ParentChainOf(self, context) == Others(context, self)
  {
    ThroughShape(context, self);
  }

  // ---------------------------------------------------------------------
  // Config objects
  // ---------------------------------------------------------------------

  const OverrideDirectory: Directory := Directory("/_override", false)
  const UserDefaultDirectory: Directory := Directory("/_default/user-set", false)

  /** The directory string of override items parses into the plain override directory. */
  lemma OverrideDirectoryParses()
    ensures FromPath("/_override", None) == Ok(OverrideDirectory)
  {
    var s := "_override";
    assert '/' !in s && '{' !in s && '}' !in s;
    var p := "/" + s;
    assert OverrideDirectory.path == p;
    FromServicePathRoundTrip(s);
    assert FromPath(p, None) == Ok(Directory(p, false));
  }

  /** The directory string of default items parses into the plain user-default directory. */
  lemma UserDefaultDirectoryParses()
    ensures FromPath("/_default/user-set", None) == Ok(UserDefaultDirectory)
  {
    var s := "_default";
    var e := "user-set";
    assert '/' !in s && '{' !in s && '}' !in s;
    assert e[0] != '/' && '{' !in e && '}' !in e;
    var p := "/" + s + "/" + e;
    assert '{' !in p && '}' !in p;
    assert UserDefaultDirectory.path == p;
    FromPathRoundTrip(s, e);
  }

  /** The item `set_override` stores. */
  function OverrideItem(name: string, value: Option<Value>): DirectoryItem
  {
    SimpleItem(Some(OverrideDirectory), name, value, "Config.set_override", false)
  }

  /** The item `set_default` stores. */
  function DefaultItem(name: string, value: Option<Value>): DirectoryItem
  {
    SimpleItem(Some(UserDefaultDirectory), name, value, "config.set_default", false)
  }

  /** `get_override`/`get_default` on a listing: the value set for the name, or `Default`. */
  function EntryOf(items: Listing, name: string): Entry<Option<Value>>
  {
    if Lower(name) in items then Given(items[Lower(name)].value) else DefaultEntry
  }

  /** The overrides after `set_override(name, value)`: `Default` removes the name. */
  function WithOverride(items: Listing, name: string, value: Entry<Option<Value>>): Listing
  {
    if value.DefaultEntry? then items - {Lower(name)} else items[Lower(name) := OverrideItem(name, value.value)]
  }

  /** The defaults after `set_default(name, value)`: `Default` removes the name. */
  function WithDefault(items: Listing, name: string, value: Entry<Option<Value>>): Listing
  {
    if value.DefaultEntry? then items - {Lower(name)} else items[Lower(name) := DefaultItem(name, value.value)]
  }

  /** Setting an override is seen by `get_override` for that name in any case, and for no other name. */
  lemma SetThenGetOverride(items: Listing, name: string, value: Entry<Option<Value>>, other: string)
    ensures EntryOf(WithOverride(items, name, value), other) ==
      if Lower(other) == Lower(name) then value else EntryOf(items, other)
  {
  }

  /** The same for defaults. */
  lemma SetThenGetDefault(items: Listing, name: string, value: Entry<Option<Value>>, other: string)
    ensures EntryOf(WithDefault(items, name, value), other) ==
      if Lower(other) == Lower(name) then value else EntryOf(items, other)
  {
  }

  function DefaultItems(defaults: seq<(string, Option<Value>)>): (r: seq<DirectoryItem>)
    ensures |r| == |defaults| && forall i :: 0 <= i < |defaults| ==> r[i] == DefaultItem(defaults[i].0, defaults[i].1)
  {
    seq(|defaults|, i requires 0 <= i < |defaults| => DefaultItem(defaults[i].0, defaults[i].1))
  }

  /** Converting the entries given to the `directories` setter: `Directory.from_path` on each non-`Default`. */
  function ConvertDirectories(value: seq<Entry<DirectoryOrPath>>): (r: Result<seq<Entry<Directory>>, XconError>)
    ensures r.Ok? ==> |r.value| == |value|
    ensures r.Ok? ==> forall i :: 0 <= i < |value| ==>
      (value[i].DefaultEntry? ==> r.value[i].DefaultEntry?)
      && (value[i].Given? ==> r.value[i].Given? && DirectoryFrom(value[i].value) == Ok(r.value[i].value))
  {
    if |value| == 0 then Ok([])
    else
      var init := ConvertDirectories(value[..|value| - 1]);
      if init.Err? then init
      else
        var x := value[|value| - 1];
        if x.DefaultEntry? then Ok(init.value + [DefaultEntry])
        else
          var d := DirectoryFrom(x.value);
          if d.Err? then Err(d.error) else Ok(init.value + [Given(d.value)])
  }

  /** Once a conversion fails, the setter fails with that error. */
  lemma {:induction false} ConvertDirectoriesFailFirst(value: seq<Entry<DirectoryOrPath>>, n: nat)
    requires n <= |value| && ConvertDirectories(value[..n]).Err?
    ensures ConvertDirectories(value) == ConvertDirectories(value[..n])
    decreases |value|
  {
    if n < |value| {
      var init := value[..|value| - 1];
      assert init[..n] == value[..n];
      ConvertDirectoriesFailFirst(init, n);
    } else {
      assert value[..n] == value;
    }
  }

  /** Converting one more entry: a default stays, a value is converted, a failure ends the setter. */
  lemma ConvertStep(value: seq<Entry<DirectoryOrPath>>, i: nat, converted: seq<Entry<Directory>>)
    requires i < |value| && ConvertDirectories(value[..i]) == Ok(converted)
    ensures value[i].DefaultEntry? ==> ConvertDirectories(value[..i + 1]) == Ok(converted + [DefaultEntry])
    ensures value[i].Given? && DirectoryFrom(value[i].value).Ok? ==>
      ConvertDirectories(value[..i + 1]) == Ok(converted + [Given(DirectoryFrom(value[i].value).value)])
    ensures value[i].Given? && DirectoryFrom(value[i].value).Err? ==>
      ConvertDirectories(value) == Err(DirectoryFrom(value[i].value).error)
  {
    assert value[..i + 1][..i] == value[..i];
    if value[i].Given? && DirectoryFrom(value[i].value).Err? {
      ConvertDirectoriesFailFirst(value, i + 1);
    }
  }

  /** The loop of the `directories` setter: converts each entry and keeps each once. */
  method ConvertEach(value: seq<Entry<DirectoryOrPath>>) returns (r: Result<seq<Entry<Directory>>, XconError>)
    ensures r.Ok? <==> ConvertDirectories(value).Ok?
    ensures r.Err? ==> r.error == ConvertDirectories(value).error
    ensures r.Ok? ==> r.value == Dedup(ConvertDirectories(value).value)
  {
    var dirs: seq<Entry<Directory>> := [];
    ghost var converted: seq<Entry<Directory>> := [];
    var i := 0;
    while i < |value|
      invariant 0 <= i <= |value|
      invariant ConvertDirectories(value[..i]) == Ok(converted)
      invariant dirs == Dedup(converted)
    {
      ConvertStep(value, i, converted);
      var x: Entry<Directory> := DefaultEntry;
      if value[i].Given? {
        var d := DirectoryFrom(value[i].value);
        if d.Err? {
          return Err(d.error);
        }
        x := Given(d.value);
      }
      DedupSnoc(converted, x);
      if x !in dirs {
        dirs := dirs + [x];
      }
      converted := converted + [x];
      i := i + 1;
    }
    assert value[..i] == value;
    r := Ok(dirs);
  }

  /** A directory given as a value is well formed, as its constructor leaves it. */
  predicate GivenDirectoriesWf(value: seq<Entry<DirectoryOrPath>>)
  {
    forall i :: 0 <= i < |value| ==> value[i].Given? && value[i].value.IsDirectory? ==> Wf(value[i].value.directory)
  }

  predicate EntriesWf(ds: seq<Entry<Directory>>)
  {
    forall i :: 0 <= i < |ds| ==> ds[i].Given? ==> Wf(ds[i].value)
  }

  /** Converted entries are well formed. */
  lemma ConvertedWf(value: seq<Entry<DirectoryOrPath>>)
    requires GivenDirectoriesWf(value) && ConvertDirectories(value).Ok?
    ensures EntriesWf(ConvertDirectories(value).value)
  {
    var r := ConvertDirectories(value).value;
    forall i | 0 <= i < |r| && r[i].Given? ensures Wf(r[i].value) {
      assert value[i].Given?;
    }
  }

  /** An ordered set of well-formed entries stays well formed. */
  lemma DedupEntriesWf(ds: seq<Entry<Directory>>)
    requires EntriesWf(ds)
    ensures EntriesWf(Dedup(ds))
  {
    var r := Dedup(ds);
    forall i | 0 <= i < |r| && r[i].Given? ensures Wf(r[i].value) {
      assert r[i] in ds;
      var j :| 0 <= j < |ds| && ds[j] == r[i];
    }
  }

  /** The chain's snapshots, in order. */
  function States(chain: seq<Config>): (r: seq<ConfigState>)
    reads set c | c in chain :: c
    reads set c | c in chain :: c.overrides
    reads set c | c in chain :: c.defaults
    ensures |r| == |chain| && forall i :: 0 <= i < |chain| ==> r[i] == chain[i].State()
    decreases |chain|
  {
    if |chain| == 0 then [] else [chain[0].State()] + States(chain[1..])
  }

  ghost predicate AllValid(chain: seq<Config>)
    reads chain
    reads set c | c in chain :: c.overrides
    reads set c | c in chain :: c.defaults
  {
    forall i :: 0 <= i < |chain| ==> chain[i].Valid()
  }

  /** A snapshot in front of others: the others move one place, and all are well formed if each part is. */
  lemma StatesCons(s: ConfigState, rest: seq<ConfigState>)
    ensures var r := [s] + rest;
      |r| == 1 + |rest| && r[0] == s && (forall i :: 0 <= i < |rest| ==> r[i + 1] == rest[i])
      && (StateWf(s) && StatesWf(rest) ==> StatesWf(r))
  {
    var r := [s] + rest;
    if StateWf(s) && StatesWf(rest) {
      forall i | 0 <= i < |r| ensures StateWf(r[i]) {
        if i > 0 {
          assert r[i] == rest[i - 1];
        }
      }
    }
  }

  /** The snapshots of objects taken from a valid context are well formed. */
  lemma ValidStates(chain: seq<Config>, context: seq<Config>)
    requires forall c :: c in chain ==> c in context
    ensures AllValid(context) ==> StatesWf(States(chain))
  {
    if AllValid(context) {
      forall i | 0 <= i < |chain| ensures StateWf(chain[i].State()) {
        assert chain[i] in context;
        var j :| 0 <= j < |context| && context[j] == chain[i];
        assert context[j].Valid();
      }
    }
  }

  /**
   * A `Config` object: ordered sets of providers, directories and export
   * services that may hold `Default`, scalar settings that may be `Default`,
   * a cacher choice, and listings of the overrides and defaults set on it.
   */
  class Config {
    const overrides: DirectoryListing
    const defaults: DirectoryListing
    var providers: seq<Entry<ProviderKind>>
    var directories: seq<Entry<Directory>>
    var exports: seq<Entry<string>>
    var cacher: CacherChoice
    var service: Entry<string>
    var environment: Entry<string>
    const useParent: bool

    ghost predicate Valid()
      reads this, overrides, defaults
    {
      overrides != defaults && overrides.Valid() && defaults.Valid() && StateWf(State())
    }

    function State(): ConfigState
      reads this, overrides, defaults
    {
      ConfigState(overrides.items, defaults.items, providers, directories, exports, cacher, service, environment, useParent)
    }

    /**
     * `Config(directories, providers, cacher, defaults, service, environment,
     * use_parent)`: the sets keep each entry once, the exports are `[Default]`,
     * there are no overrides and each given default is set in order.
     */
    constructor (directories: seq<Entry<Directory>>, providers: seq<Entry<ProviderKind>>, cacher: CacherChoice,
                 defaults: seq<(string, Option<Value>)>, service: Entry<string>, environment: Entry<string>,
                 useParent: bool)
      requires EntriesWf(directories)
      ensures Valid() && fresh(overrides) && fresh(this.defaults)
      ensures State() == ConfigState(map[], ListingOf(DefaultItems(defaults)), Dedup(providers), Dedup(directories),
                                     [DefaultEntry], cacher, service, environment, useParent)
    {
      overrides := new DirectoryListing(None, []);
      this.defaults := new DirectoryListing(None, DefaultItems(defaults));
      this.providers := Dedup(providers);
      this.directories := Dedup(directories);
      exports := [DefaultEntry];
      this.cacher := cacher;
      this.service := service;
      this.environment := environment;
      this.useParent := useParent;
      new;
      DedupEntriesWf(directories);
    }

    /** `set_override`: stores the value under the name, or with `Default` removes the name, on self only. */
    method SetOverride(name: string, value: Entry<Option<Value>>)
      requires Valid()
      modifies overrides
      ensures Valid()
      ensures overrides.items == WithOverride(old(overrides.items), name, value)
    {
      if value.DefaultEntry? {
        RemoveOverride(name);
        return;
      }
      overrides.AddItem(OverrideItem(name, value.value));
    }

    /** `remove_override`: removes the name from self's overrides. */
    method RemoveOverride(name: string)
      requires Valid()
      modifies overrides
      ensures Valid()
      ensures overrides.items == old(overrides.items) - {Lower(name)}
    {
      overrides.RemoveItemWithName(name);
    }

    /** `get_override`: the value set on self for the name, or `Default`. */
    function GetOverride(name: string): (r: Entry<Option<Value>>)
      requires Valid()
      reads this, overrides, defaults
      ensures r == EntryOf(overrides.items, name)
    {
      var item := overrides.GetItem(name);
      if item.Some? then Given(item.value.value) else DefaultEntry
    }

    /** `set_default`: stores the default under the name, or with `Default` removes the name, on self only. */
    method SetDefault(name: string, value: Entry<Option<Value>>)
      requires Valid()
      modifies defaults
      ensures Valid()
      ensures defaults.items == WithDefault(old(defaults.items), name, value)
    {
      if value.DefaultEntry? {
        RemoveDefault(name);
        return;
      }
      defaults.AddItem(DefaultItem(name, value.value));
    }

    /** `remove_default`: removes the name from self's defaults. */
    method RemoveDefault(name: string)
      requires Valid()
      modifies defaults
      ensures Valid()
      ensures defaults.items == old(defaults.items) - {Lower(name)}
    {
      defaults.RemoveItemWithName(name);
    }

    /** `get_default`: the default set on self for the name, or `Default`. */
    function GetDefault(name: string): (r: Entry<Option<Value>>)
      requires Valid()
      reads this, overrides, defaults
      ensures r == EntryOf(defaults.items, name)
    {
      var item := defaults.GetItem(name);
      if item.Some? then Given(item.value.value) else DefaultEntry
    }

    /** `add_provider`: appends the provider unless it is already there. */
    method AddProvider(provider: Entry<ProviderKind>)
      requires Valid()
      modifies this
      ensures Valid()
      ensures State() == old(State()).(providers :=
        if provider in old(providers) then old(providers) else old(providers) + [provider])
    {
      if provider in providers {
        return;
      }
      providers := providers + [provider];
    }

    /** `add_directory`: appends the directory unless it is already there, and returns self. */
    method AddDirectory(directory: Entry<Directory>) returns (self: Config)
      requires Valid() && (directory.Given? ==> Wf(directory.value))
      modifies this
      ensures Valid() && self == this
      ensures State() == old(State()).(directories :=
        if directory in old(directories) then old(directories) else old(directories) + [directory])
    {
      if directory in directories {
        return this;
      }
      directories := directories + [directory];
      return this;
    }

    /** `add_export`: appends the export service unless it is already there. */
    method AddExport(service: string)
      requires Valid()
      modifies this
      ensures Valid()
      ensures State() == old(State()).(exports :=
        if Given(service) in old(exports) then old(exports) else old(exports) + [Given(service)])
    {
      if Given(service) in exports {
        return;
      }
      exports := exports + [Given(service)];
    }

    /** `set_exports`: replaces the export services, each kept once. */
    method SetExports(services: seq<Entry<string>>)
      requires Valid()
      modifies this
      ensures Valid()
      ensures State() == old(State()).(exports := Dedup(services))
    {
      exports := Dedup(services);
    }

    /** The `providers` setter: replaces the providers, each kept once. */
    method SetProviders(value: seq<Entry<ProviderKind>>)
      requires Valid()
      modifies this
      ensures Valid()
      ensures State() == old(State()).(providers := Dedup(value))
    {
      providers := Dedup(value);
    }

    /**
     * The `directories` setter: each non-`Default` entry goes through
     * `Directory.from_path`, each is kept once; a failing conversion raises
     * and leaves the directories as they were.
     */
    method SetDirectories(value: seq<Entry<DirectoryOrPath>>) returns (r: Result<(), XconError>)
      requires Valid() && GivenDirectoriesWf(value)
      modifies this
      ensures Valid()
      ensures r.Ok? <==> ConvertDirectories(value).Ok?
      ensures r.Err? ==> r.error == ConvertDirectories(value).error && State() == old(State())
      ensures r.Ok? ==> State() == old(State()).(directories := Dedup(ConvertDirectories(value).value))
    {
      var converted := ConvertEach(value);
      if converted.Err? {
        return Err(converted.error);
      }
      ConvertedWf(value);
      DedupEntriesWf(ConvertDirectories(value).value);
      directories := converted.value;
      r := Ok(());
    }

    /** The `service` setter. */
    method SetService(value: Entry<string>)
      requires Valid()
      modifies this
      ensures Valid()
      ensures State() == old(State()).(service := value)
    {
      service := value;
    }

    /** The `environment` setter. */
    method SetEnvironment(value: Entry<string>)
      requires Valid()
      modifies this
      ensures Valid()
      ensures State() == old(State()).(environment := value)
    {
      environment := value;
    }

    /** The `cacher` setter: its check builds an error for a wrong value but never raises it. */
    method SetCacher(value: CacherChoice)
      requires Valid()
      modifies this
      ensures Valid()
      ensures State() == old(State()).(cacher := value)
    {
      cacher := value;
    }

    /** `_parent_chain`, walking the context's objects innermost first. */
    method ParentChain(context: seq<Config>) returns (chain: seq<Config>)
      ensures chain == ParentChainOf(this, context)
    {
      ghost var limit := if useParent then |context| else IndexOf(context, this);
      var foundSelf := false;
      var skipAddingMoreParents := false;
      chain := [];
      var i := 0;
      while i < |context|
        invariant 0 <= i <= limit <= |context|
        invariant foundSelf ==> useParent
        invariant skipAddingMoreParents ==> !useParent && chain == Through(context[..limit], this)
        invariant !skipAddingMoreParents ==> chain + Through(context[i..limit], this) == Through(context[..limit], this)
      {
        var c := context[i];
        if c == this {
          foundSelf := true;
          if !useParent {
            break;
          }
          ThroughStep(context, i, limit, this);
          i := i + 1;
          continue;
        }
        assert i < limit;
        if skipAddingMoreParents {
          i := i + 1;
          continue;
        }
        ghost var rest := Through(context[i + 1..limit], this);
        ThroughStep(context, i, limit, this);
        ConcatAssoc(chain, [c], rest);
        chain := chain + [c];
        if !c.useParent {
          skipAddingMoreParents := true;
          if useParent {
            break;
          }
          i := i + 1;
          continue;
        }
        i := i + 1;
      }
      assert context[..|context|] == context;
      if !useParent && !foundSelf {
        return [];
      }
    }

    /** The chain the lookups walk: self, then the parent chain's objects in order. */
    function ChainOf(context: seq<Config>): (r: seq<ConfigState>)
      reads this, overrides, defaults, context
      reads set c | c in context :: c.overrides
      reads set c | c in context :: c.defaults
      ensures |r| == 1 + |ParentChainOf(this, context)| && r[0] == State()
      ensures forall i :: 0 <= i < |ParentChainOf(this, context)| ==> r[i + 1] == ParentChainOf(this, context)[i].State()
      ensures Valid() && AllValid(context) ==> StatesWf(r)
    {
      var parents := ParentChainOf(this, context);
      ParentChainMembers(this, context);
      ValidStates(parents, context);
      StatesCons(State(), States(parents));
      [State()] + States(parents)
    }

    /** The snapshot of the chain that `ParentChain` returns. */
    method ChainStates(context: seq<Config>) returns (states: seq<ConfigState>)
      requires Valid() && AllValid(context)
      ensures states == ChainOf(context) && |states| > 0 && StatesWf(states)
    {
      var chain := ParentChain(context);
      ParentChainMembers(this, context);
      states := [State()] + States(chain);
    }

    /**
     * `get_item`: the name is lower-cased and `_get_item` runs on self and
     * the parent chain.
     */
    method GetItem(name: string, skipProviders: bool, context: seq<Config>, settings: XconSettings,
                   answer: Answers, retrieved: Retrieved, cacheRaised: Option<XconError>) returns (r: Result<Found, XconError>)
      requires Valid() && AllValid(context) && SettingsWf(settings)
      ensures r == ItemOf(ChainOf(context), Lower(name), skipProviders, false, settings, answer, retrieved, cacheRaised)
    {
      var states := ChainStates(context);
      r := GetItemWith(states, Lower(name), skipProviders, false, settings, answer, retrieved, cacheRaised);
    }

    /** `get`: the found item's value, or the caller's default when there is no item or its value is `None`. */
    method Get(name: string, default: Option<Value>, skipProviders: bool, context: seq<Config>, settings: XconSettings,
               answer: Answers, retrieved: Retrieved, cacheRaised: Option<XconError>) returns (r: Result<Option<Value>, XconError>)
      requires Valid() && AllValid(context) && SettingsWf(settings)
      ensures r == GetOf(ChainOf(context), name, default, skipProviders, settings, answer, retrieved, cacheRaised)
    {
      var found := GetItem(name, skipProviders, context, settings, answer, retrieved, cacheRaised);
      if found.Err? {
        return Err(found.error);
      }
      var item := found.value.item;
      if item.Some? && item.value.value.Some? {
        return Ok(item.value.value);
      }
      r := Ok(default);
    }

    /** `resolved_service`. */
    method ResolvedService(context: seq<Config>, settings: XconSettings) returns (service: string)
      requires Valid() && AllValid(context)
      ensures service == ServiceWith(ChainOf(context), settings)
    {
      var states := ChainStates(context);
      service := ServiceWith(states, settings);
    }

    /** `resolved_environment`. */
    method ResolvedEnvironment(context: seq<Config>, settings: XconSettings) returns (environment: string)
      requires Valid() && AllValid(context)
      ensures environment == EnvironmentWith(ChainOf(context), settings)
    {
      var states := ChainStates(context);
      environment := EnvironmentWith(states, settings);
    }

    /** `resolved_cacher`: `true` for the `DynamoCacher` resource, `false` for none. */
    method ResolvedCacher(context: seq<Config>, settings: XconSettings) returns (r: Result<bool, XconError>)
      requires Valid() && AllValid(context)
      ensures r == CacherWith(ChainOf(context), settings)
    {
      var states := ChainStates(context);
      r := CacherWith(states, settings);
    }

    /** `provider_chain`. */
    method ProviderChainOf(context: seq<Config>, settings: XconSettings) returns (chain: ProviderChain)
      requires Valid() && AllValid(context)
      ensures chain == ProviderChain(ProvidersWith(ChainOf(context), settings))
    {
      var states := ChainStates(context);
      var ps := ResolveProviders(states, settings);
      chain := ProviderChain(ps);
    }

    /** `directory_chain`, with the resolved service and environment. */
    method DirectoryChainOf(context: seq<Config>, settings: XconSettings) returns (r: Result<DirectoryChain, XconError>)
      requires Valid() && AllValid(context) && SettingsWf(settings)
      ensures r == DirectoryChainWith(ChainOf(context), settings)
    {
      var states := ChainStates(context);
      r := ResolveDirectoryChain(states, settings);
    }
  }
}
