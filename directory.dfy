/**
 * Directories (places to look for configuration values), chains of them,
 * the items found in them and case-insensitive listings of those items.
 */
module Directories {
  import opened Base
  import opened Text

  const NonExistentPath: string := "/_nonExistent"

  // ---------------------------------------------------------------------
  // Path format strings: literal text with `{service}`/`{environment}` fields
  // ---------------------------------------------------------------------

  /** One piece of a format string: a literal character or a `{name}` field. */
  datatype Token = Lit(c: char) | Field(name: string)

  /** The text after a `{`, read up to the closing `}`: the field name and what follows. */
  function ReadField(s: string): (r: Result<(string, string), XconError>)
    ensures r.Ok? ==> |r.value.1| < |s|
    ensures r.Ok? ==> '{' !in r.value.0 && '}' !in r.value.0
    decreases |s|
  {
    if |s| == 0 then Err(FormatError("expected '}' before end of string"))
    else if s[0] == '}' then Ok(("", s[1..]))
    else if s[0] == '{' then Err(FormatError("unexpected '{' in field name"))
    else
      match ReadField(s[1..])
      case Err(e) => Err(e)
      case Ok((name, rest)) => Ok(([s[0]] + name, rest))
  }

  /** `string.Formatter().parse`: `{{`/`}}` are escaped braces, a lone brace is an error. */
  function ParseFormat(s: string): Result<seq<Token>, XconError>
    decreases |s|
  {
    if |s| == 0 then Ok([])
    else if s[0] == '{' then
      if |s| >= 2 && s[1] == '{' then Prepend(Lit('{'), ParseFormat(s[2..]))
      else
        match ReadField(s[1..])
        case Err(e) => Err(e)
        case Ok((name, rest)) => Prepend(Field(name), ParseFormat(rest))
    else if s[0] == '}' then
      if |s| >= 2 && s[1] == '}' then Prepend(Lit('}'), ParseFormat(s[2..]))
      else Err(FormatError("Single '}' encountered in format string"))
    else Prepend(Lit(s[0]), ParseFormat(s[1..]))
  }

  function Prepend(t: Token, r: Result<seq<Token>, XconError>): Result<seq<Token>, XconError>
  {
    if r.Ok? then Ok([t] + r.value) else r
  }

  function FieldNames(tokens: seq<Token>): set<string>
  {
    set k | 0 <= k < |tokens| && tokens[k].Field? :: tokens[k].name
  }

  predicate KnownFields(tokens: seq<Token>)
  {
    forall k :: 0 <= k < |tokens| && tokens[k].Field? ==> tokens[k].name in {"service", "environment"}
  }

  /** `format_map({'service': service, 'environment': environment})` on parsed tokens. */
  function Substitute(tokens: seq<Token>, service: string, environment: string): string
    requires KnownFields(tokens)
  {
    if |tokens| == 0 then ""
    else
      var head := match tokens[0]
        case Lit(c) => [c]
        case Field(name) => if name == "service" then service else environment;
      head + Substitute(tokens[1..], service, environment)
  }

  /** A string without braces parses as literal text, with no fields. */
  lemma {:induction false} ParsePlain(s: string)
    requires '{' !in s && '}' !in s
    ensures ParseFormat(s) == Ok(Lits(s))
  {
    if |s| > 0 {
      ParsePlain(s[1..]);
      ParseLit(s[0], s[1..]);
      assert [s[0]] + s[1..] == s;
    }
  }

  /** The tokens of plain text. */
  function Lits(s: string): (r: seq<Token>)
    ensures |r| == |s| && forall k :: 0 <= k < |r| ==> r[k] == Lit(s[k])
  {
    if |s| == 0 then [] else [Lit(s[0])] + Lits(s[1..])
  }

  lemma PlainHasNoFields(s: string)
    requires '{' !in s && '}' !in s
    ensures ParseFormat(s).Ok? && FieldNames(ParseFormat(s).value) == {}
    ensures KnownFields(ParseFormat(s).value)
  {
    ParsePlain(s);
  }

  /** A `{name}` field in front of the rest of a format string. */
  lemma ParseField(name: string, rest: string)
    requires '{' !in name && '}' !in name
    ensures ParseFormat("{" + name + "}" + rest) == Prepend(Field(name), ParseFormat(rest))
  {
    var s := "{" + name + "}" + rest;
    assert s[1..] == name + "}" + rest;
    if name == "" {
      assert s[1] == '}';
    } else {
      assert s[1] == name[0];
    }
    ReadFieldOf(name, rest);
  }

  lemma {:induction false} ReadFieldOf(name: string, rest: string)
    requires '{' !in name && '}' !in name
    ensures ReadField(name + "}" + rest) == Ok((name, rest))
  {
    var s := name + "}" + rest;
    if |name| > 0 {
      assert s[1..] == name[1..] + "}" + rest;
      ReadFieldOf(name[1..], rest);
      assert [name[0]] + name[1..] == name;
    } else {
      assert s[1..] == rest;
    }
  }

  /** A literal character in front of the rest of a format string. */
  lemma ParseLit(c: char, rest: string)
    requires c != '{' && c != '}'
    ensures ParseFormat([c] + rest) == Prepend(Lit(c), ParseFormat(rest))
  {
    assert ([c] + rest)[1..] == rest;
  }

  // ---------------------------------------------------------------------
  // Directory
  // ---------------------------------------------------------------------

  /**
   * A directory: its identity is its path together with whether that path is
   * a format string (`{service}`/`{environment}` still to be filled in).
   */
  datatype Directory = Directory(path: string, isPathFormat: bool)
  {
    /** The service part of the path, `global` when there is none. */
    function Service(): string
    {
      var parsed := ServiceEnvFromPath(path).0;
      if parsed.Some? && parsed.value != "" then parsed.value else "global"
    }

    /** The environment part of the path (everything after the service). */
    function Env(): Option<string>
    {
      ServiceEnvFromPath(path).1
    }

    predicate IsNonExistent()
    {
      path == NonExistentPath
    }

    /** An explicit export directory, or one whose environment starts with `export`. */
    predicate IsExport()
    {
      var env := Env();
      env.Some? && ("export" <= env.value || "/export" <= env.value)
    }
  }

  /** `_service_env_from_path`: element 1 of the `/`-split is the service, the `/`-joined rest the environment. */
  function ServiceEnvFromPath(path: string): (r: (Option<string>, Option<string>))
  {
    var elements := Split(path, '/');
    (if |elements| > 1 then Some(elements[1]) else None,
     if |elements| > 2 then Some(Join(elements[2..], "/")) else None)
  }

  /** `_path_from_components`; an empty string stands for a missing (falsy) service or environment. */
  function PathFromComponents(service: string, environment: string, isExport: bool): (p: string)
    ensures |p| >= 2 && p[0] == '/'
  {
    var service := if service == "" then "global" else service;
    var environment := if |environment| > 0 && environment[0] == '/' then environment[1..] else environment;
    var environment :=
      if !isExport then environment
      else if environment == "" then "export"
      else if "export/" <= environment then environment
      else "export/" + environment;
    if environment != "" then "/" + service + "/" + environment else "/" + service
  }

  /** A missing service is the `global` service. */
  lemma PathWithoutService(environment: string, isExport: bool)
    ensures PathFromComponents("", environment, isExport) == PathFromComponents("global", environment, isExport)
  {
  }

  /** Without an environment the path is the service alone (`/s`); a missing service gives `/global`. */
  lemma PathWithoutEnvironment(service: string)
    ensures PathFromComponents(service, "", false) == "/" + (if service == "" then "global" else service)
    ensures PathFromComponents(service, "/", false) == PathFromComponents(service, "", false)
  {
  }

  /**
   * One leading `/` of the environment is dropped, and only one: `e` and
   * `/e` give the same path when `e` does not itself start with `/`, while
   * `//e` keeps a slash.
   */
  lemma PathDropsOneLeadingSlash(service: string, environment: string, isExport: bool)
    requires environment == "" || environment[0] != '/'
    ensures PathFromComponents(service, "/" + environment, isExport) == PathFromComponents(service, environment, isExport)
    ensures PathFromComponents(service, "//" + environment, false)
         == PathFromComponents(service, "", false) + "//" + environment
  {
    var svc := if service == "" then "global" else service;
    var slashed := "/" + environment;
    assert slashed[0] == '/' && slashed[1..] == environment;
    var twice := "//" + environment;
    assert twice[0] == '/' && twice[1..] == slashed;
    assert "/" + svc + "/" + slashed == ("/" + svc) + "//" + environment;
  }

  /** An export directory without an environment is `/s/export`. */
  lemma ExportWithoutEnvironment(service: string)
    ensures PathFromComponents(service, "", true) == PathFromComponents(service, "", false) + "/export"
    ensures PathFromComponents(service, "/", true) == PathFromComponents(service, "", true)
  {
  }

  /**
   * An export environment already starting with `export/` is kept as it is;
   * any other non-empty one gets `export/` in front.
   */
  lemma ExportEnvironmentPrefix(service: string, environment: string)
    requires environment == "" || environment[0] != '/'
    ensures "export/" <= environment ==>
      PathFromComponents(service, environment, true) == PathFromComponents(service, environment, false)
    ensures environment != "" && !("export/" <= environment) ==>
      PathFromComponents(service, environment, true) == PathFromComponents(service, "export/" + environment, false)
  {
  }

  /**
   * `Directory(service=..., env=..., is_export=..., is_path_format=...)`: the
   * path is built from the components; unless `is_path_format` is `False` the
   * path's format fields are checked and decide whether it is a format path.
   */
  function NewDirectory(service: string, environment: string, isExport: bool, isPathFormat: Option<bool>)
    : (r: Result<Directory, XconError>)
    ensures r.Ok? ==> r.value.path == PathFromComponents(service, environment, isExport)
    ensures isPathFormat == Some(false) ==> r.Ok? && !r.value.isPathFormat
    ensures r.Ok? && r.value.isPathFormat ==>
              ParseFormat(r.value.path).Ok? && KnownFields(ParseFormat(r.value.path).value)
  {
    var path := PathFromComponents(service, environment, isExport);
    if isPathFormat == Some(false) then Ok(Directory(path, false))
    else
      match ParseFormat(path)
      case Err(e) => Err(e)
      case Ok(tokens) =>
        if !KnownFields(tokens) then Err(ConfigError("Using unknown format keys for directory path"))
        else Ok(Directory(path, FieldNames(tokens) != {}))
  }

  /** `Directory(path=p, is_path_format=...)` and, with `None`, `Directory.from_path(p)`. */
  function FromPath(path: string, isPathFormat: Option<bool>): Result<Directory, XconError>
  {
    var (service, environment) := ServiceEnvFromPath(path);
    NewDirectory(service.GetOr(""), environment.GetOr(""), false, isPathFormat)
  }

  /** `Directory.from_components(service, environment)`. */
  function FromComponents(service: string, environment: string): Result<Directory, XconError>
  {
    FromPath(PathFromComponents(service, environment, false), None)
  }

  /** A directory as the constructor leaves it: a format path has parseable, known fields. */
  predicate Wf(d: Directory)
  {
    d.isPathFormat ==> ParseFormat(d.path).Ok? && KnownFields(ParseFormat(d.path).value)
  }

  /**
   * `Directory.resolve`: a non-format directory is returned as is; a format
   * directory has its fields filled in and becomes a non-format directory,
   * unless filling in changed nothing.
   */
  function Resolve(d: Directory, service: string, environment: string): (r: Directory)
    requires Wf(d)
    ensures !d.isPathFormat ==> r == d
    ensures r == d || !r.isPathFormat
    ensures Wf(r)
  {
    if !d.isPathFormat then d
    else
      var formatted := Substitute(ParseFormat(d.path).value, service, environment);
      if formatted == d.path then d
      else FromPath(formatted, Some(false)).value
  }

  const NonExistentDirectory: Directory := Directory(NonExistentPath, false)

  /** A path `/s/e` with a plain service and environment parses into `s` and `e`. */
  lemma ServiceEnvOfPath(s: string, e: string)
    requires s != "" && '/' !in s
    requires e != "" && e[0] != '/'
    ensures ServiceEnvFromPath("/" + s + "/" + e) == (Some(s), Some(e))
  {
    var p := "/" + s + "/" + e;
    assert p == [] + ['/'] + (s + ['/'] + e);
    SplitAround([], s + ['/'] + e, '/');
    SplitAround(s, e, '/');
    SplitNoSep(s, '/');
    var elements := Split(p, '/');
    assert elements == [""] + [s] + Split(e, '/');
    assert elements[2..] == Split(e, '/');
    JoinSplit(e, '/');
  }

  /** A path `/s` with a plain service parses into `s` and no environment. */
  lemma ServiceOfPath(s: string)
    requires '/' !in s
    ensures ServiceEnvFromPath("/" + s) == (Some(s), None)
  {
    var p := "/" + s;
    assert p == [] + ['/'] + s;
    SplitAround([], s, '/');
    SplitNoSep(s, '/');
  }

  /**
   * Parse/print round trip: `Directory(path="/s/e")` has service `s`,
   * environment `e` and the same path; without braces it is not a format path.
   */
  lemma FromPathRoundTrip(s: string, e: string)
    requires s != "" && '/' !in s
    requires e != "" && e[0] != '/'
    ensures var p := "/" + s + "/" + e;
      var r := FromPath(p, None);
      (r.Ok? ==> r.value.path == p && r.value.Service() == s && r.value.Env() == Some(e))
      && ('{' !in p && '}' !in p ==> r == Ok(Directory(p, false)))
  {
    var p := "/" + s + "/" + e;
    ServiceEnvOfPath(s, e);
    assert PathFromComponents(s, e, false) == p;
    if '{' !in p && '}' !in p {
      PlainHasNoFields(p);
    }
  }

  /** The same for a path `/s` without an environment. */
  lemma FromServicePathRoundTrip(s: string)
    requires s != "" && '/' !in s
    ensures var p := "/" + s;
      var r := FromPath(p, None);
      (r.Ok? ==> r.value.path == p && r.value.Service() == s && r.value.Env().None?)
      && ('{' !in p && '}' !in p ==> r == Ok(Directory(p, false)))
  {
    var p := "/" + s;
    ServiceOfPath(s);
    assert PathFromComponents(s, "", false) == p;
    if '{' !in p && '}' !in p {
      PlainHasNoFields(p);
    }
  }

  /** Only the path `/_nonExistent` is the non-existent directory, and parsing that path yields it. */
  lemma NonExistentFromPath()
    ensures FromPath(NonExistentPath, None) == Ok(NonExistentDirectory)
    ensures NonExistentDirectory.IsNonExistent()
  {
    var s := "_nonExistent";
    assert '/' !in s && '{' !in s && '}' !in s;
    var p := "/" + s;
    assert NonExistentPath == p;
    FromServicePathRoundTrip(s);
    assert FromPath(p, None) == Ok(Directory(p, false));
  }

  /** `DirectoryOrPath`: a directory, or a path still to be parsed. */
  datatype DirectoryOrPath = IsDirectory(directory: Directory) | IsPath(path: string)

  /** `Directory.from_path` on a directory or a path: a directory is returned as it is. */
  function DirectoryFrom(x: DirectoryOrPath): Result<Directory, XconError>
  {
    match x
    case IsDirectory(d) => Ok(d)
    case IsPath(p) => FromPath(p, None)
  }

  /** Components whose path has no braces make a plain directory. */
  lemma PlainNewDirectory(service: string, environment: string, isExport: bool)
    requires '{' !in PathFromComponents(service, environment, isExport)
    requires '}' !in PathFromComponents(service, environment, isExport)
    ensures NewDirectory(service, environment, isExport, None) ==
      Ok(Directory(PathFromComponents(service, environment, isExport), false))
  {
    PlainHasNoFields(PathFromComponents(service, environment, isExport));
  }

  /** A format directory and a non-format directory with the same path are different directories. */
  lemma IdentityIncludesFormatFlag(d: Directory)
    ensures d != d.(isPathFormat := !d.isPathFormat)
    ensures d.(isPathFormat := !d.isPathFormat).IsNonExistent() == d.IsNonExistent()
  {
  }

  /** An unknown placeholder makes construction fail with `ConfigError`. */
  lemma UnknownFieldRejected(s: string, name: string)
    requires s != "" && '/' !in s && '{' !in s && '}' !in s
    requires '{' !in name && '}' !in name && '/' !in name
    requires name != "service" && name != "environment"
    ensures FromPath("/" + s + "/{" + name + "}", None).Err?
    ensures FromPath("/" + s + "/{" + name + "}", None).error.ConfigError?
  {
    var e := "{" + name + "}";
    assert "/" + s + "/{" + name + "}" == "/" + s + "/" + e;
    ServiceEnvOfPath(s, e);
    var p := "/" + s + "/" + e;
    assert PathFromComponents(s, e, false) == p;
    UnknownFieldTokens(s, name);
  }

  /** The path `/s/{name}` parses into the literal `/s/` and the field `name`, which is not a known field. */
  lemma UnknownFieldTokens(s: string, name: string)
    requires '/' !in s && '{' !in s && '}' !in s
    requires '{' !in name && '}' !in name
    requires name != "service" && name != "environment"
    ensures var p := "/" + s + "/" + ("{" + name + "}");
      ParseFormat(p).Ok? && !KnownFields(ParseFormat(p).value)
  {
    var e := "{" + name + "}";
    var plain := "/" + s + "/";
    assert "/" + s + "/" + e == plain + e;
    ParseField(name, "");
    assert "{" + name + "}" + "" == e;
    assert ParseFormat("") == Ok([]);
    assert [Field(name)] + [] == [Field(name)];
    assert ParseFormat(e) == Ok([Field(name)]);
    ParseFormatAppend(plain, e);
    var tokens := ParseFormat(plain + e).value;
    assert tokens[|tokens| - 1] == Field(name);
  }

  /** Parsing plain text followed by more text puts the literal tokens in front. */
  lemma {:induction false} ParseFormatAppend(plain: string, rest: string)
    requires '{' !in plain && '}' !in plain
    ensures ParseFormat(plain + rest) ==
      Prepends(Lits(plain), ParseFormat(rest))
  {
    if |plain| > 0 {
      assert (plain + rest)[1..] == plain[1..] + rest;
      assert plain + rest == [plain[0]] + (plain[1..] + rest);
      ParseLit(plain[0], plain[1..] + rest);
      ParseFormatAppend(plain[1..], rest);
      var r := ParseFormat(rest);
      if r.Ok? {
        assert [Lit(plain[0])] + (Lits(plain[1..]) + r.value) == Lits(plain) + r.value;
      }
    } else {
      assert plain + rest == rest;
      var r := ParseFormat(rest);
      if r.Ok? {
        assert [] + r.value == r.value;
      }
    }
  }

  function Prepends(ts: seq<Token>, r: Result<seq<Token>, XconError>): Result<seq<Token>, XconError>
  {
    if r.Ok? then Ok(ts + r.value) else r
  }

  // ---------------------------------------------------------------------
  // DirectoryChain
  // ---------------------------------------------------------------------

  function Paths(directories: seq<Directory>): (r: seq<string>)
    ensures |r| == |directories|
    ensures forall i :: 0 <= i < |r| ==> r[i] == directories[i].path
  {
    seq(|directories|, i requires 0 <= i < |directories| => directories[i].path)
  }

  /** An immutable list of directories, identified by its `|`-joined paths. */
  datatype DirectoryChain = DirectoryChain(directories: seq<Directory>)
  {
    function ConcatenatedDirectoryPaths(): string
    {
      Join(Paths(directories), "|")
    }
  }

  /** `DirectoryChain.__post_init__`: collects the paths in order and joins them with `|`. */
  method ChainKey(directories: seq<Directory>) returns (key: string)
    ensures key == DirectoryChain(directories).ConcatenatedDirectoryPaths()
  {
    var names: seq<string> := [];
    var i := 0;
    while i < |directories|
      invariant 0 <= i <= |directories|
      invariant names == Paths(directories[..i])
    {
      names := names + [directories[i].path];
      i := i + 1;
    }
    assert directories[..i] == directories;
    key := Join(names, "|");
  }

  lemma {:induction false} JoinNonEmpty(parts: seq<string>, sep: string)
    requires |parts| >= 1 && parts[0] != ""
    ensures Join(parts, sep) != ""
  {
  }

  /**
   * Chain equality is equality of the keys; for paths without `|` that is the
   * same as the two chains listing the same paths in the same order.
   */
  lemma ChainKeyIdentifiesPaths(a: seq<Directory>, b: seq<Directory>)
    requires forall i :: 0 <= i < |a| ==> a[i].path != "" && '|' !in a[i].path
    requires forall i :: 0 <= i < |b| ==> b[i].path != "" && '|' !in b[i].path
    ensures DirectoryChain(a).ConcatenatedDirectoryPaths() == DirectoryChain(b).ConcatenatedDirectoryPaths()
            <==> Paths(a) == Paths(b)
  {
    var ka := DirectoryChain(a).ConcatenatedDirectoryPaths();
    var kb := DirectoryChain(b).ConcatenatedDirectoryPaths();
    if ka == kb {
      if |a| == 0 && |b| > 0 {
        JoinNonEmpty(Paths(b), "|");
      } else if |b| == 0 && |a| > 0 {
        JoinNonEmpty(Paths(a), "|");
      } else if |a| > 0 && |b| > 0 {
        SplitJoin(Paths(a), '|');
        SplitJoin(Paths(b), '|');
      }
    }
  }

  // ---------------------------------------------------------------------
  // DirectoryItem and its JSON form
  // ---------------------------------------------------------------------

  /** A configuration value: the JSON-compatible scalars `str` and `int`. */
  datatype Value = Text(text: string) | Number(number: int)

  /** A name/value pair found in a directory, with the metadata the cacher needs. */
  datatype DirectoryItem = DirectoryItem(
    directory: Directory,
    name: string,
    value: Option<Value>,
    originalName: string,
    source: Option<string>,
    ttl: Option<int>,            // expiry as epoch seconds
    cacheable: bool,
    cacheRangeKey: Option<string>,
    cacheConcatDirectoryPaths: Option<string>,
    cacheConcatProviderNames: Option<string>,
    cacheHashKey: Option<string>,
    fromCacher: bool)

  /** Python truthiness of an optional string: present and non-empty. */
  predicate Truthy(s: Option<string>)
  {
    s.Some? && s.value != ""
  }

  function RangeKey(name: string, concatDirectoryPaths: string, concatProviderNames: string): string
  {
    name + "|+|" + concatDirectoryPaths + "|+|" + concatProviderNames
  }

  /**
   * `DirectoryItem(...)` with `__post_init__`: a missing directory becomes the
   * non-existent directory, the name is lower-cased (the original is kept in
   * `originalName` unless one is given) and, when no range key is given but
   * both concatenated fields are, the range key is built from them.
   */
  function NewItem(
    directory: Option<Directory>, name: string, value: Option<Value>, originalName: Option<string>,
    source: Option<string>, ttl: Option<int>, cacheable: bool, cacheRangeKey: Option<string>,
    concatDirectoryPaths: Option<string>, concatProviderNames: Option<string>,
    cacheHashKey: Option<string>, fromCacher: bool): (r: DirectoryItem)
    ensures r.name == Lower(name) && Lower(r.name) == r.name
    ensures r.originalName == (if Truthy(originalName) then originalName.value else name)
    ensures directory.None? ==> r.directory.IsNonExistent()
    ensures directory.Some? ==> r.directory == directory.value
    ensures r.cacheRangeKey ==
      if !Truthy(cacheRangeKey) && Truthy(concatDirectoryPaths) && Truthy(concatProviderNames)
      then Some(RangeKey(Lower(name), concatDirectoryPaths.value, concatProviderNames.value))
      else cacheRangeKey
    ensures (r.value, r.source, r.ttl, r.cacheable, r.cacheHashKey, r.fromCacher)
         == (value, source, ttl, cacheable, cacheHashKey, fromCacher)
    ensures (r.cacheConcatDirectoryPaths, r.cacheConcatProviderNames) == (concatDirectoryPaths, concatProviderNames)
  {
    LowerIdempotent(name);
    var lowered := Lower(name);
    DirectoryItem(
      if directory.Some? then directory.value else NonExistentDirectory,
      lowered,
      value,
      if Truthy(originalName) then originalName.value else name,
      source,
      ttl,
      cacheable,
      if !Truthy(cacheRangeKey) && Truthy(concatDirectoryPaths) && Truthy(concatProviderNames)
      then Some(RangeKey(lowered, concatDirectoryPaths.value, concatProviderNames.value))
      else cacheRangeKey,
      concatDirectoryPaths,
      concatProviderNames,
      cacheHashKey,
      fromCacher)
  }

  /** The common short form `DirectoryItem(directory, name, value, source, cacheable=...)`. */
  function SimpleItem(directory: Option<Directory>, name: string, value: Option<Value>, source: string, cacheable: bool)
    : DirectoryItem
  {
    NewItem(directory, name, value, None, Some(source), None, cacheable, None, None, None, None, false)
  }

  /** The item a provider chain returns when nothing was found. */
  function NonExistentItem(name: string): (r: DirectoryItem)
    ensures r.value.None? && r.directory.IsNonExistent() && r.cacheable
    ensures r.name == Lower(name)
  {
    SimpleItem(None, name, None, NonExistentPath, true)
  }

  /** A JSON value as stored in the cache table. */
  datatype JsonField = JStr(s: string) | JInt(i: int) | JNull

  type JsonDict = map<string, JsonField>

  function OptionalText(s: Option<string>): JsonField
  {
    if s.Some? then JStr(s.value) else JNull
  }

  function ValueField(v: Value): JsonField
  {
    match v
    case Text(t) => JStr(t)
    case Number(n) => JInt(n)
  }

  /**
   * `DirectoryItem.json()`: needs both cache keys; always writes the keys,
   * names, directory and concatenated fields, and the value, ttl and source
   * only when they are there.
   */
  function ToJson(item: DirectoryItem, includeValue: bool): (r: Result<JsonDict, XconError>)
    ensures r.Ok? <==> Truthy(item.cacheRangeKey) && Truthy(item.cacheHashKey)
    ensures r.Ok? ==> ("value" in r.value <==> includeValue && item.value.Some?)
    ensures r.Ok? ==> ("ttl" in r.value <==> item.ttl.Some?)
    ensures r.Ok? ==> ("source" in r.value <==> Truthy(item.source))
  {
    if !Truthy(item.cacheRangeKey) || !Truthy(item.cacheHashKey) then
      Err(ConfigError("need to have cache_hash_key and cache_range_key set to create JSON from DirectoryItem"))
    else
      var base := map[
        "name_key" := JStr(item.cacheRangeKey.value),
        "app_key" := JStr(item.cacheHashKey.value),
        "real_name" := JStr(item.name),
        "original_name" := JStr(item.originalName),
        "real_directory" := JStr(item.directory.path),
        "cache_concat_provider_names" := OptionalText(item.cacheConcatProviderNames),
        "cache_concat_directory_paths" := OptionalText(item.cacheConcatDirectoryPaths)];
      var withValue := if includeValue && item.value.Some? then base["value" := ValueField(item.value.value)] else base;
      var withTtl := if item.ttl.Some? then withValue["ttl" := JInt(item.ttl.value)] else withValue;
      Ok(if Truthy(item.source) then withTtl["source" := JStr(item.source.value)] else withTtl)
  }

  predicate FieldTruthy(f: JsonField)
  {
    match f
    case JStr(s) => s != ""
    case JInt(i) => i != 0
    case JNull => false
  }

  /** `json.get(key)` for a text field: `None` when absent or null. */
  function GetText(json: JsonDict, key: string): Result<Option<string>, XconError>
  {
    if key !in json then Ok(None)
    else
      match json[key]
      case JStr(s) => Ok(Some(s))
      case JNull => Ok(None)
      case JInt(_) => Err(WrongType(key))
  }

  /** `json[key]` for a text field: a missing key is a `KeyError`. */
  function RequireText(json: JsonDict, key: string): Result<Option<string>, XconError>
  {
    if key !in json then Err(MissingKey(key)) else GetText(json, key)
  }

  function GetValue(json: JsonDict): Option<Value>
  {
    if "value" !in json then None
    else
      match json["value"]
      case JStr(s) => Some(Text(s))
      case JInt(n) => Some(Number(n))
      case JNull => None
  }

  function GetTtl(json: JsonDict): Result<Option<int>, XconError>
  {
    if "ttl" !in json || !FieldTruthy(json["ttl"]) then Ok(None)
    else if json["ttl"].JInt? then Ok(Some(json["ttl"].i))
    else Err(WrongType("ttl"))
  }

  function AppendSource(source: Option<string>, appendSource: string): Option<string>
  {
    if appendSource == "" then source
    else if source.None? then Some(appendSource)
    else Some(source.value + appendSource)
  }

  /**
   * `DirectoryItem.from_json`: prefers `real_name`/`real_directory` (taking the
   * range and hash keys with them) over `name`/`directory`, falls back to the
   * directory path for the hash key, drops a zero ttl and appends
   * `appendSource` to the source.
   */
  function FromJson(json: JsonDict, appendSource: string, fromCacher: bool): Result<DirectoryItem, XconError>
  {
    var nameAndKey :- NameAndRangeKey(json);
    var originalName :- GetText(json, "original_name");
    var dirAndKey :- DirectoryAndHashKey(json);
    var (name, rangeKey) := nameAndKey;
    var (directoryPath, hashKey) := dirAndKey;
    if name.None? then Err(WrongType("name"))
    else if directoryPath.None? then Err(WrongType("directory"))
    else
      var directory :- FromPath(directoryPath.value, None);
      var hashKey := if Truthy(hashKey) then hashKey else Some(directory.path);
      var ttl :- GetTtl(json);
      var source :- GetText(json, "source");
      var concatDirectoryPaths :- GetText(json, "cache_concat_directory_paths");
      var concatProviderNames :- GetText(json, "cache_concat_provider_names");
      Ok(NewItem(Some(directory), name.value, GetValue(json), originalName, AppendSource(source, appendSource),
                 ttl, true, rangeKey, concatDirectoryPaths, concatProviderNames, hashKey, fromCacher))
  }

  /** `real_name` with the range key `name_key` when it is set, otherwise `name` and no range key. */
  function NameAndRangeKey(json: JsonDict): Result<(Option<string>, Option<string>), XconError>
  {
    var realName :- GetText(json, "real_name");
    if Truthy(realName) then
      var key :- RequireText(json, "name_key");
      Ok((realName, key))
    else
      var name :- RequireText(json, "name");
      Ok((name, None))
  }

  /** `real_directory` with the hash key `app_key` when it is set, otherwise `directory` and no hash key. */
  function DirectoryAndHashKey(json: JsonDict): Result<(Option<string>, Option<string>), XconError>
  {
    var realDirectory :- GetText(json, "real_directory");
    if Truthy(realDirectory) then
      var key :- RequireText(json, "app_key");
      Ok((realDirectory, key))
    else
      var directory :- RequireText(json, "directory");
      Ok((directory, None))
  }

  /** A directory whose path parses back to itself. */
  predicate PathRoundTrips(d: Directory)
  {
    FromPath(d.path, None).Ok? && FromPath(d.path, None).value.path == d.path
  }

  /**
   * `from_json(json())` gives the item back with its name, original name,
   * directory path, value, ttl, source, both cache keys and concatenated fields;
   * only `cacheable` (not stored) and `fromCacher` take their defaults, and the
   * directory is the one parsed from its path.
   */
  lemma JsonRoundTrip(item: DirectoryItem)
    requires Truthy(item.cacheRangeKey) && Truthy(item.cacheHashKey)
    requires item.name != "" && Lower(item.name) == item.name
    requires item.originalName != ""
    requires item.ttl != Some(0)
    requires item.source != Some("")
    requires PathRoundTrips(item.directory)
    ensures ToJson(item, true).Ok?
    ensures FromJson(ToJson(item, true).value, "", false) ==
      Ok(item.(directory := FromPath(item.directory.path, None).value, cacheable := true, fromCacher := false))
  {
    var json := ToJson(item, true).value;
    JsonFieldsOf(item, json);
    var d := FromPath(item.directory.path, None).value;
    assert item.directory.path != "" by {
      assert |PathFromComponents(
        ServiceEnvFromPath(item.directory.path).0.GetOr(""),
        ServiceEnvFromPath(item.directory.path).1.GetOr(""), false)| >= 2;
    }
    assert NameAndRangeKey(json) == Ok((Some(item.name), item.cacheRangeKey));
    assert DirectoryAndHashKey(json) == Ok((Some(item.directory.path), item.cacheHashKey));
    var r := NewItem(Some(d), item.name, item.value, Some(item.originalName), AppendSource(item.source, ""),
                     item.ttl, true, item.cacheRangeKey, item.cacheConcatDirectoryPaths,
                     item.cacheConcatProviderNames, item.cacheHashKey, false);
    assert r == item.(directory := d, cacheable := true, fromCacher := false);
  }

  /** What `from_json` reads back from each field `json()` wrote. */
  lemma JsonFieldsOf(item: DirectoryItem, json: JsonDict)
    requires ToJson(item, true) == Ok(json)
    requires item.ttl != Some(0)
    requires item.source != Some("")
    ensures GetText(json, "real_name") == Ok(Some(item.name))
    ensures RequireText(json, "name_key") == Ok(item.cacheRangeKey)
    ensures GetText(json, "original_name") == Ok(Some(item.originalName))
    ensures GetText(json, "real_directory") == Ok(Some(item.directory.path))
    ensures RequireText(json, "app_key") == Ok(item.cacheHashKey)
    ensures GetValue(json) == item.value
    ensures GetTtl(json) == Ok(item.ttl)
    ensures GetText(json, "source") == Ok(item.source)
    ensures GetText(json, "cache_concat_directory_paths") == Ok(item.cacheConcatDirectoryPaths)
    ensures GetText(json, "cache_concat_provider_names") == Ok(item.cacheConcatProviderNames)
  {
    if item.value.Some? {
      match item.value.value
      case Text(_) =>
      case Number(_) =>
    }
  }

  // ---------------------------------------------------------------------
  // DirectoryListing
  // ---------------------------------------------------------------------

  /** Case-insensitive lookup in a name-to-item map. */
  function Lookup(items: map<string, DirectoryItem>, name: string): Option<DirectoryItem>
  {
    if Lower(name) in items then Some(items[Lower(name)]) else None
  }

  /** The map a listing holds after adding `xs` in order: a later same-name item replaces an earlier one. */
  function ListingOf(xs: seq<DirectoryItem>): (m: map<string, DirectoryItem>)
    ensures forall k :: k in m ==> m[k].name == k
  {
    if |xs| == 0 then map[] else ListingOf(xs[..|xs| - 1])[xs[|xs| - 1].name := xs[|xs| - 1]]
  }

  /** An item of `ListingOf(xs)` is the last one in `xs` with its name. */
  lemma {:induction false} ListingOfHoldsLast(xs: seq<DirectoryItem>, k: string)
    ensures k in ListingOf(xs) <==> exists i :: 0 <= i < |xs| && xs[i].name == k
    ensures k in ListingOf(xs) ==>
      exists i :: 0 <= i < |xs| && xs[i] == ListingOf(xs)[k]
               && forall j :: i < j < |xs| ==> xs[j].name != k
  {
    if |xs| > 0 {
      var init := xs[..|xs| - 1];
      ListingOfHoldsLast(init, k);
      if xs[|xs| - 1].name != k && k in ListingOf(xs) {
        var i :| 0 <= i < |init| && init[i] == ListingOf(init)[k]
                 && forall j :: i < j < |init| ==> init[j].name != k;
        assert xs[i] == ListingOf(xs)[k];
      }
      if k !in ListingOf(xs) {
        forall i | 0 <= i < |xs| ensures xs[i].name != k {
          if i < |init| { assert init[i] == xs[i]; }
        }
      }
    }
  }

  /** `not my_item or my_item.value != item.value`. */
  predicate NewOrChanged(items: map<string, DirectoryItem>, x: DirectoryItem)
  {
    x.name !in items || items[x.name].value != x.value
  }

  /** The items of `xs`, in order, whose name is absent from `items` or whose value differs. */
  function DifferentValueItems(items: map<string, DirectoryItem>, xs: seq<DirectoryItem>): (r: seq<DirectoryItem>)
    ensures forall y :: y in r ==> y in xs && NewOrChanged(items, y)
    ensures forall x :: x in xs && NewOrChanged(items, x) ==> x in r
    ensures |r| <= |xs|
  {
    if |xs| == 0 then []
    else
      var rest := DifferentValueItems(items, xs[1..]);
      if NewOrChanged(items, xs[0]) then [xs[0]] + rest else rest
  }

  /** A case-insensitive name-to-item map: the items of one directory. */
  class DirectoryListing {
    /** Informational only: the directory the listing belongs to. */
    var directory: Option<Directory>
    /** Items by their lower-case name. */
    var items: map<string, DirectoryItem>

    ghost predicate Valid()
      reads this
    {
      forall k :: k in items ==> items[k].name == k
    }

    /** `DirectoryListing(directory, items)`: adds the items in order. */
    constructor (directory: Option<Directory>, initial: seq<DirectoryItem>)
      ensures Valid()
      ensures this.directory == directory && items == ListingOf(initial)
    {
      this.directory := directory;
      items := map[];
      new;
      var i := 0;
      while i < |initial|
        invariant 0 <= i <= |initial|
        invariant this.directory == directory
        invariant items == ListingOf(initial[..i])
      {
        assert initial[..i + 1][..i] == initial[..i];
        items := items[initial[i].name := initial[i]];
        i := i + 1;
      }
      assert initial[..i] == initial;
    }

    /** Adds the item, replacing any item with the same name. */
    method AddItem(item: DirectoryItem)
      requires Valid()
      modifies this
      ensures Valid()
      ensures items == old(items)[item.name := item] && directory == old(directory)
    {
      items := items[item.name := item];
    }

    /** Removes the item with that name (in any case); nothing happens when there is none. */
    method RemoveItemWithName(name: string)
      requires Valid()
      modifies this
      ensures Valid()
      ensures items == old(items) - {Lower(name)} && directory == old(directory)
      ensures Lower(name) !in old(items) ==> items == old(items)
    {
      items := items - {Lower(name)};
    }

    /** Case-insensitive lookup. */
    function GetItem(name: string): (r: Option<DirectoryItem>)
      requires Valid()
      reads this
      ensures r.Some? <==> Lower(name) in items
      ensures r.Some? ==> r.value.name == Lower(name) && r.value == items[Lower(name)]
    {
      Lookup(items, name)
    }

    /** Read-only view of the items by lower-case name. */
    function ItemMapping(): map<string, DirectoryItem>
      reads this
    {
      items
    }

    /** The items of `xs` that are new to this listing or carry a different value. */
    method GetItemsWithDifferentValue(xs: seq<DirectoryItem>) returns (r: seq<DirectoryItem>)
      ensures r == DifferentValueItems(items, xs)
    {
      r := [];
      var i := |xs|;
      while i > 0
        invariant 0 <= i <= |xs|
        invariant r == DifferentValueItems(items, xs[i..])
      {
        i := i - 1;
        assert xs[i..][1..] == xs[i + 1..];
        if NewOrChanged(items, xs[i]) {
          r := [xs[i]] + r;
        }
      }
    }
  }

  /** After adding an item, a lookup by any case of its name finds it, and other names are unaffected. */
  lemma AddThenGet(items: map<string, DirectoryItem>, item: DirectoryItem, name: string)
    requires Lower(item.name) == item.name
    ensures Lookup(items[item.name := item], name) ==
      if Lower(name) == item.name then Some(item) else Lookup(items, name)
  {
  }

  /** Lookup ignores the case of the name asked for. */
  lemma LookupIgnoresCase(items: map<string, DirectoryItem>, name: string)
    ensures Lookup(items, Lower(name)) == Lookup(items, name)
  {
    LowerIdempotent(name);
  }
}
