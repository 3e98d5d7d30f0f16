/**
 * The change-event handler of the config manager: it finds the parameter
 * or secret path an SSM or Secrets Manager change event names and turns it
 * into the query for the cache table (lower-cased name, directory as is).
 */
module ChangeHandler {
  import opened Base
  import opened Text

  /** A JSON value of the event, as the Lambda runtime decodes it. */
  datatype Json =
    | Null
    | Bool(b: bool)
    | Int(i: int)
    | Str(s: string)
    | Array(items: seq<Json>)
    | Object(fields: map<string, Json>)

  /** Python truthiness of a decoded value. */
  predicate Truthy(v: Json)
  {
    match v
    case Null => false
    case Bool(b) => b
    case Int(i) => i != 0
    case Str(s) => s != ""
    case Array(items) => |items| > 0
    case Object(fields) => |fields| > 0
  }

  /** `dict.get(key)`: `None` when the key is absent. */
  function Get(fields: map<string, Json>, key: string): Json
  {
    if key in fields then fields[key] else Null
  }

  /**
   * `get_or_blank_dict(value, key)`: the dictionary under `key` when `value`
   * is a dictionary holding one, otherwise an empty dictionary.
   */
  function GetOrBlankDict(value: Json, key: string): (r: map<string, Json>)
    ensures r == if value.Object? && key in value.fields && value.fields[key].Object?
                 then value.fields[key].fields else map[]
  {
    if !Truthy(value) then map[]
    else if !value.Object? then map[]
    else
      var v := Get(value.fields, key);
      if !Truthy(v) then map[]
      else if !v.Object? then map[]
      else v.fields
  }

  /**
   * The places a change event may carry the path, in the order they are
   * tried: `detail.name`, `detail.responseElements.name`,
   * `detail.requestParameters.name`, `detail.requestParameters.secretId`.
   */
  function Candidates(event: Json): (r: seq<Json>)
    ensures |r| == 4
  {
    var detail := GetOrBlankDict(event, "detail");
    [ Get(detail, "name"),
      Get(GetOrBlankDict(Object(detail), "responseElements"), "name"),
      Get(GetOrBlankDict(Object(detail), "requestParameters"), "name"),
      Get(GetOrBlankDict(Object(detail), "requestParameters"), "secretId") ]
  }

  /** A found path must be text: anything else fails at `':' in path` or `path.split`. */
  function AsPath(v: Json): Result<string, XconError>
  {
    if v.Str? then Ok(v.s) else Err(WrongType("path"))
  }

  /** The path lookup of `ssm_or_secrets_change_event`, tried place by place. */
  function EventPath(event: Json): Result<string, XconError>
  {
    var detail := GetOrBlankDict(event, "detail");
    var path := Get(detail, "name");
    var path := if !Truthy(path) then Get(GetOrBlankDict(Object(detail), "responseElements"), "name") else path;
    var path := if !Truthy(path) then Get(GetOrBlankDict(Object(detail), "requestParameters"), "name") else path;
    var path := if !Truthy(path) then Get(GetOrBlankDict(Object(detail), "requestParameters"), "secretId") else path;
    if !Truthy(path) then Err(NoPathInEvent) else AsPath(path)
  }

  /** The path is the first truthy candidate; with none the event is rejected. */
  lemma EventPathIsFirstTruthy(event: Json)
    ensures var cs := Candidates(event);
      (EventPath(event) == Err(NoPathInEvent) <==> forall i :: 0 <= i < 4 ==> !Truthy(cs[i]))
      && forall k :: 0 <= k < 4 && Truthy(cs[k]) && (forall j :: 0 <= j < k ==> !Truthy(cs[j])) ==>
           EventPath(event) == AsPath(cs[k])
  {
    var cs := Candidates(event);
    var r := EventPath(event);
    var first := if Truthy(cs[0]) then cs[0] else if Truthy(cs[1]) then cs[1] else if Truthy(cs[2]) then cs[2] else cs[3];
    assert r == if Truthy(first) then AsPath(first) else Err(NoPathInEvent);
    forall k | 0 <= k < 4 && Truthy(cs[k]) && (forall j :: 0 <= j < k ==> !Truthy(cs[j]))
      ensures r == AsPath(cs[k])
    {
      assert first == cs[k];
    }
  }

  /**
   * A secret ARN (`arn:...:secret:/path-SUFFIX`) is cut to what follows
   * the last `:`, without its last `-`-separated part.
   */
  function StripArn(path: string): string
  {
    if ':' in path then InitSegments(LastSegment(path, ':'), '-') else path
  }

  /** The query the handler builds for the cache table. */
  datatype Query = Query(realName: string, realDirectory: seq<string>)

  /**
   * `ssm_or_secrets_change_event` up to its query: the path must have a
   * directory and a name; the name is lower-cased, the directory keeps its
   * case and is looked for next to `/_nonExistent`.
   */
  function ChangeQuery(event: Json): (r: Result<Query, XconError>)
    ensures r.Ok? ==> |r.value.realDirectory| == 2 && r.value.realDirectory[0] == "/_nonExistent"
    ensures r.Ok? ==> Lower(r.value.realName) == r.value.realName
  {
    var found := EventPath(event);
    if found.Err? then Err(found.error)
    else
      var path := StripArn(found.value);
      var components := Split(path, '/');
      if |components| <= 1 then Err(PathHasNoName(path))
      else
        LowerIdempotent(LastSegment(path, '/'));
        Ok(Query(Lower(LastSegment(path, '/')), ["/_nonExistent", InitSegments(path, '/')]))
  }

  /** An event naming `directory/name` in `detail.name`. */
  function ParameterEvent(path: string): Json
  {
    Object(map["detail" := Object(map["name" := Str(path)])])
  }

  /** An event naming a secret by its ARN in `detail.requestParameters.secretId`. */
  function SecretIdEvent(secretId: string): Json
  {
    Object(map["detail" := Object(map["requestParameters" := Object(map["secretId" := Str(secretId)])])])
  }

  /** A parameter path splits at its last `/` into the directory and the lower-cased name. */
  lemma ParameterPathQuery(directory: string, name: string)
    requires '/' !in name && ':' !in directory && ':' !in name
    ensures ChangeQuery(ParameterEvent(directory + "/" + name)) ==
      Ok(Query(Lower(name), ["/_nonExistent", directory]))
  {
    var path := directory + "/" + name;
    assert path[|directory|] == '/';
    assert Truthy(Str(path));
    assert EventPath(ParameterEvent(path)) == Ok(path);
    assert ':' !in path;
    SplitAtLast(directory, name, '/');
    SplitAround(directory, name, '/');
  }

  /**
   * A secret ARN yields the path between its last `:` and its last `-`:
   * `arn:...:secret:/d/n-SUFFIX` is the secret `n` in directory `/d`.
   */
  lemma SecretArnQuery(arn: string, directory: string, name: string, suffix: string)
    requires '/' !in name && '-' !in suffix
    requires ':' !in directory && ':' !in name && ':' !in suffix
    ensures ChangeQuery(SecretIdEvent(arn + ":" + directory + "/" + name + "-" + suffix)) ==
      Ok(Query(Lower(name), ["/_nonExistent", directory]))
  {
    var path := directory + "/" + name;
    var tail := path + "-" + suffix;
    var id := arn + ":" + tail;
    assert arn + ":" + directory + "/" + name + "-" + suffix == id;
    assert id == arn + [':'] + tail;
    assert id[|arn|] == ':';
    assert Truthy(Str(id));
    var event := SecretIdEvent(id);
    assert Candidates(event)[0] == Null && Candidates(event)[1] == Null && Candidates(event)[2] == Null;
    assert EventPath(event) == Ok(id);
    assert ':' !in tail;
    SplitAtLast(arn, tail, ':');
    assert tail == path + ['-'] + suffix;
    SplitAtLast(path, suffix, '-');
    assert StripArn(id) == path;
    SplitAtLast(directory, name, '/');
    SplitAround(directory, name, '/');
  }

  /** A path without any `/` has no directory and is rejected. */
  lemma PathWithoutDirectoryRejected(path: string)
    requires path != "" && '/' !in path && ':' !in path
    ensures ChangeQuery(ParameterEvent(path)) == Err(PathHasNoName(path))
  {
    assert Truthy(Str(path));
    assert EventPath(ParameterEvent(path)) == Ok(path);
    SplitNoSep(path, '/');
  }

  /** An event without a truthy path in any of the four places is rejected. */
  lemma EventWithoutPathRejected(event: Json)
    requires forall i :: 0 <= i < 4 ==> !Truthy(Candidates(event)[i])
    ensures ChangeQuery(event) == Err(NoPathInEvent)
  {
    EventPathIsFirstTruthy(event);
  }
}
