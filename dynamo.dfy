/**
 * The Dynamo provider, the Dynamo cacher and the small table abstraction
 * they share: queries filtered by expiry and read page by page, and puts that
 * go through a batch writer when there is more than one item.
 */
module Dynamo {
  import opened Base
  import opened Text
  import opened Directories
  import opened Providers
  import opened AwsErrors

  // ---------------------------------------------------------------------
  // _ConfigDynamoTable: queries
  // ---------------------------------------------------------------------

  /** `append_source` of the provider's table, and the one the cacher sets on its own. */
  const ProviderTableSource: string := "dynamo"
  const CacherTableSource: string := " - via cacher"

  /** One answer to a query request: a page of rows with the key to continue from, or an exception. */
  datatype Response = Page(rows: seq<JsonDict>, lastKey: Option<string>) | Failed(error: AwsError)

  /** The answers a query for one `app_key` gets, request after request. */
  type Responses = seq<Response>

  /** A table as seen by its queries: the answers for each `app_key`. */
  type Table = string -> Responses

  /** The query's filter expression: no `ttl` attribute, or a numeric `ttl` later than the expiry time. */
  predicate KeepRow(row: JsonDict, expireTime: int)
  {
    "ttl" !in row || (row["ttl"].JInt? && row["ttl"].i > expireTime)
  }

  /** The rows of a page the filter keeps, in order. */
  function Unexpired(rows: seq<JsonDict>, expireTime: int): (r: seq<JsonDict>)
    ensures forall x :: x in r ==> x in rows && KeepRow(x, expireTime)
    ensures forall x :: x in rows && KeepRow(x, expireTime) ==> x in r
  {
    if |rows| == 0 then []
    else
      var rest := Unexpired(rows[1..], expireTime);
      assert forall x :: x in rows[1..] ==> x in rows;
      if KeepRow(rows[0], expireTime) then [rows[0]] + rest else rest
  }

  /** What a query yields: the rows, and the exception that ended it, if any. */
  datatype Queried = Queried(rows: seq<JsonDict>, error: Option<AwsError>)

  /**
   * `_paginate_all_items_generator` over the query of `get_items_for_directory`:
   * pages are requested in order until one comes without a `LastEvaluatedKey`.
   */
  function Paginate(responses: Responses, expireTime: int): (q: Queried)
    ensures forall x :: x in q.rows ==> KeepRow(x, expireTime)
  {
    if |responses| == 0 then Queried([], None)
    else
      match responses[0]
      case Failed(e) => Queried([], Some(e))
      case Page(rows, key) =>
        var kept := Unexpired(rows, expireTime);
        if !Truthy(key) then Queried(kept, None)
        else
          var rest := Paginate(responses[1..], expireTime);
          Queried(kept + rest.rows, rest.error)
  }

  /** The pagination loop. */
  method QueryRows(responses: Responses, expireTime: int) returns (q: Queried)
    ensures q == Paginate(responses, expireTime)
  {
    var rows: seq<JsonDict> := [];
    var i := 0;
    while i < |responses|
      invariant 0 <= i <= |responses|
      invariant Paginate(responses, expireTime) ==
        Queried(rows + Paginate(responses[i..], expireTime).rows, Paginate(responses[i..], expireTime).error)
    {
      assert responses[i..][1..] == responses[i + 1..];
      match responses[i]
      case Failed(e) =>
        assert rows + [] == rows;
        return Queried(rows, Some(e));
      case Page(page, key) =>
        var kept := Unexpired(page, expireTime);
        if !Truthy(key) {
          return Queried(rows + kept, None);
        }
        rows := rows + kept;
        i := i + 1;
    }
    assert rows + [] == rows;
    q := Queried(rows, None);
  }

  /** `DirectoryItem.from_json` on each row in order; the first row that cannot be read raises. */
  function ParseRows(rows: seq<JsonDict>, appendSource: string, fromCacher: bool): (r: Result<seq<DirectoryItem>, XconError>)
    ensures r.Ok? ==> |r.value| == |rows|
  {
    if |rows| == 0 then Ok([])
    else
      match FromJson(rows[0], appendSource, fromCacher)
      case Err(e) => Err(e)
      case Ok(item) =>
        match ParseRows(rows[1..], appendSource, fromCacher)
        case Err(e) => Err(e)
        case Ok(items) => Ok([item] + items)
  }

  /**
   * On success there is one item per row, each read from its own row; on
   * failure the error is the one some row gives.
   */
  lemma {:induction false} ParseRowsMeaning(rows: seq<JsonDict>, appendSource: string, fromCacher: bool)
    ensures var r := ParseRows(rows, appendSource, fromCacher);
      r.Ok? ==> forall i :: 0 <= i < |rows| ==> FromJson(rows[i], appendSource, fromCacher) == Ok(r.value[i])
    ensures var r := ParseRows(rows, appendSource, fromCacher);
      r.Err? ==> exists i :: 0 <= i < |rows| && FromJson(rows[i], appendSource, fromCacher) == Err(r.error)
    decreases |rows|
  {
    if |rows| > 0 {
      var rest := ParseRows(rows[1..], appendSource, fromCacher);
      ParseRowsMeaning(rows[1..], appendSource, fromCacher);
      if FromJson(rows[0], appendSource, fromCacher).Ok? && rest.Err? {
        var i :| 0 <= i < |rows[1..]| && FromJson(rows[1..][i], appendSource, fromCacher) == Err(rest.error);
        assert rows[1..][i] == rows[i + 1];
      }
    }
  }

  /** An item read from a row has the row's ttl. */
  lemma FromJsonTtl(json: JsonDict, appendSource: string, fromCacher: bool)
    requires FromJson(json, appendSource, fromCacher).Ok?
    ensures GetTtl(json).Ok? && FromJson(json, appendSource, fromCacher).value.ttl == GetTtl(json).value
  {
  }

  /** Every item a query yields has no ttl or one later than the expiry time. */
  lemma QueriedItemsUnexpired(responses: Responses, expireTime: int, appendSource: string, fromCacher: bool)
    requires ParseRows(Paginate(responses, expireTime).rows, appendSource, fromCacher).Ok?
    ensures forall item :: item in ParseRows(Paginate(responses, expireTime).rows, appendSource, fromCacher).value ==>
      item.ttl.None? || item.ttl.value > expireTime
  {
    var rows := Paginate(responses, expireTime).rows;
    var items := ParseRows(rows, appendSource, fromCacher).value;
    ParseRowsMeaning(rows, appendSource, fromCacher);
    forall item | item in items ensures item.ttl.None? || item.ttl.value > expireTime {
      var i :| 0 <= i < |items| && items[i] == item;
      assert rows[i] in rows;
      FromJsonTtl(rows[i], appendSource, fromCacher);
    }
  }

  // ---------------------------------------------------------------------
  // _ConfigDynamoTable: puts and batch writers
  // ---------------------------------------------------------------------

  /** A put as the table sees it: straight to the table, or through the batch writer with that number. */
  datatype Write = Direct(row: JsonDict) | Batched(writer: nat, row: JsonDict)

  /** The writes of the given rows: through `writer` when there is one. */
  function WritesOf(rows: seq<JsonDict>, writer: Option<nat>): (ws: seq<Write>)
    ensures |ws| == |rows|
    ensures forall i :: 0 <= i < |rows| ==>
      ws[i] == if writer.Some? then Batched(writer.value, rows[i]) else Direct(rows[i])
  {
    seq(|rows|, i requires 0 <= i < |rows| => if writer.Some? then Batched(writer.value, rows[i]) else Direct(rows[i]))
  }

  /** `json()` of each item, in order. */
  function Rendered(items: seq<DirectoryItem>): (rs: seq<Result<JsonDict, XconError>>)
    ensures |rs| == |items|
  {
    seq(|items|, i requires 0 <= i < |items| => ToJson(items[i], true))
  }

  /** Each rendered result is the `json()` of the item at the same position. */
  lemma RenderedAt(items: seq<DirectoryItem>)
    ensures forall i :: 0 <= i < |items| ==> Rendered(items)[i] == ToJson(items[i], true)
  {
  }

  /** The rows up to the first refusal, and that refusal. */
  function OkPrefix(rs: seq<Result<JsonDict, XconError>>): (r: (seq<JsonDict>, Option<XconError>))
    ensures |r.0| <= |rs| && (r.1.None? ==> |r.0| == |rs|)
  {
    if |rs| == 0 then ([], None)
    else
      match rs[0]
      case Err(e) => ([], Some(e))
      case Ok(row) =>
        var rest := OkPrefix(rs[1..]);
        ([row] + rest.0, rest.1)
  }

  /** The rows are the results before the first refusal, and the refusal is the one right after them. */
  lemma {:induction false} OkPrefixMeaning(rs: seq<Result<JsonDict, XconError>>)
    ensures var r := OkPrefix(rs);
      (forall i :: 0 <= i < |r.0| ==> rs[i] == Ok(r.0[i]))
      && (r.1.Some? ==> |r.0| < |rs| && rs[|r.0|] == Err(r.1.value))
  {
    if |rs| > 0 && rs[0].Ok? {
      OkPrefixMeaning(rs[1..]);
      var r := OkPrefix(rs);
      var rest := OkPrefix(rs[1..]);
      assert r == ([rs[0].value] + rest.0, rest.1);
      forall i | 0 <= i < |r.0| ensures rs[i] == Ok(r.0[i]) {
        if i > 0 {
          assert r.0[i] == rest.0[i - 1] && rs[i] == rs[1..][i - 1];
        }
      }
      if r.1.Some? {
        assert rs[|r.0|] == rs[1..][|rest.0|];
      }
    }
  }

  /** The rows of the items up to the first one `json()` refuses, and that refusal. */
  function JsonRows(items: seq<DirectoryItem>): (r: (seq<JsonDict>, Option<XconError>))
  {
    OkPrefix(Rendered(items))
  }

  /** `_ConfigDynamoTable`: the active batch writer, if any, and the log of puts made. */
  class ConfigDynamoTable {
    var batchWriter: Option<nat>
    /** The number the next batch writer created gets. */
    var nextWriter: nat
    var writes: seq<Write>

    constructor ()
      ensures batchWriter.None? && nextWriter == 0 && writes == []
    {
      batchWriter := None;
      nextWriter := 0;
      writes := [];
    }

    /** `put_item`: through the active batch writer when there is one, else straight to the table. */
    method PutItem(item: DirectoryItem) returns (r: Result<(), XconError>)
      modifies this
      ensures batchWriter == old(batchWriter) && nextWriter == old(nextWriter)
      ensures r.Ok? <==> ToJson(item, true).Ok?
      ensures r.Err? ==> r.error == ToJson(item, true).error && writes == old(writes)
      ensures r.Ok? ==> writes == old(writes) + WritesOf([ToJson(item, true).value], batchWriter)
    {
      var row := ToJson(item, true);
      if row.Err? {
        return Err(row.error);
      }
      writes := writes + WritesOf([row.value], batchWriter);
      r := Ok(());
    }

    /** The loop of `put_items` inside its batch writer: puts in order, stopping at the first refusal. */
    method PutEach(items: seq<DirectoryItem>) returns (r: Result<(), XconError>)
      modifies this
      ensures batchWriter == old(batchWriter) && nextWriter == old(nextWriter)
      ensures writes == old(writes) + WritesOf(JsonRows(items).0, batchWriter)
      ensures r.Err? <==> JsonRows(items).1.Some?
      ensures r.Err? ==> r.error == JsonRows(items).1.value
    {
      var i := 0;
      while i < |items|
        invariant 0 <= i <= |items|
        invariant batchWriter == old(batchWriter) && nextWriter == old(nextWriter)
        invariant JsonRows(items[..i]).1.None?
        invariant writes == old(writes) + WritesOf(JsonRows(items[..i]).0, batchWriter)
      {
        var put := PutItem(items[i]);
        JsonRowsStep(items, i);
        if put.Err? {
          assert JsonRows(items) == (JsonRows(items[..i]).0, Some(put.error));
          return put;
        }
        PutEachStep(items, i, old(writes), batchWriter);
        i := i + 1;
      }
      assert items[..i] == items;
      r := Ok(());
    }

    /**
     * `put_items`: nothing for no items, a single put for one, and a batch
     * writer for more, which is the active one if the table has one already.
     */
    method PutItems(items: seq<DirectoryItem>) returns (r: Result<(), XconError>)
      modifies this
      ensures batchWriter == old(batchWriter)
      ensures r.Err? <==> JsonRows(items).1.Some?
      ensures r.Err? ==> r.error == JsonRows(items).1.value
      ensures |items| == 0 ==> writes == old(writes)
      ensures |items| == 1 ==> writes == old(writes) + WritesOf(JsonRows(items).0, old(batchWriter))
      ensures |items| > 1 ==>
        writes == old(writes) + WritesOf(JsonRows(items).0, if old(batchWriter).Some? then old(batchWriter) else Some(old(nextWriter)))
    {
      if |items| == 0 {
        return Ok(());
      }
      if |items| == 1 {
        r := PutSingle(items);
        return;
      }
      r := PutBatch(items);
    }

    /** `put_items` for one item: a single put, batched only if a writer is active. */
    method PutSingle(items: seq<DirectoryItem>) returns (r: Result<(), XconError>)
      requires |items| == 1
      modifies this
      ensures batchWriter == old(batchWriter)
      ensures r.Err? <==> JsonRows(items).1.Some?
      ensures r.Err? ==> r.error == JsonRows(items).1.value
      ensures writes == old(writes) + WritesOf(JsonRows(items).0, old(batchWriter))
    {
      JsonRowsSingle(items);
      r := PutItem(items[0]);
    }

    /** `put_items` for several items: all of them through the batch writer. */
    method PutBatch(items: seq<DirectoryItem>) returns (r: Result<(), XconError>)
      modifies this
      ensures batchWriter == old(batchWriter)
      ensures r.Err? <==> JsonRows(items).1.Some?
      ensures r.Err? ==> r.error == JsonRows(items).1.value
      ensures writes == old(writes) + WritesOf(JsonRows(items).0, if old(batchWriter).Some? then old(batchWriter) else Some(old(nextWriter)))
    {
      var batch := new BatchTable(this);
      var entered := batch.Enter();
      r := PutEach(items);
      batch.Exit();
    }
  }

  /** A single item gives its row, or its refusal and no row. */
  lemma JsonRowsSingle(items: seq<DirectoryItem>)
    requires |items| == 1
    ensures var row := ToJson(items[0], true);
      JsonRows(items) == if row.Err? then ([], Some(row.error)) else ([row.value], None)
  {
    OkPrefixSingle(Rendered(items));
  }

  lemma OkPrefixSingle(rs: seq<Result<JsonDict, XconError>>)
    requires |rs| == 1
    ensures OkPrefix(rs) == if rs[0].Err? then ([], Some(rs[0].error)) else ([rs[0].value], None)
  {
    assert OkPrefix(rs[1..]) == ([], None);
    if rs[0].Ok? {
      assert [rs[0].value] + [] == [rs[0].value];
    }
  }

  /** One more item in the loop of `put_items`: it either ends the rows with its refusal or adds its row. */
  lemma JsonRowsStep(items: seq<DirectoryItem>, i: nat)
    requires i < |items| && JsonRows(items[..i]).1.None?
    ensures ToJson(items[i], true).Err? ==>
      JsonRows(items) == (JsonRows(items[..i]).0, Some(ToJson(items[i], true).error))
    ensures ToJson(items[i], true).Ok? ==>
      JsonRows(items[..i + 1]) == (JsonRows(items[..i]).0 + [ToJson(items[i], true).value], None)
  {
    var rs := Rendered(items);
    assert Rendered(items[..i]) == rs[..i];
    assert Rendered(items[..i + 1]) == rs[..i + 1];
    OkPrefixStep(rs, i);
  }

  lemma OkPrefixStep(rs: seq<Result<JsonDict, XconError>>, i: nat)
    requires i < |rs| && OkPrefix(rs[..i]).1.None?
    ensures rs[i].Err? ==> OkPrefix(rs) == (OkPrefix(rs[..i]).0, Some(rs[i].error))
    ensures rs[i].Ok? ==> OkPrefix(rs[..i + 1]) == (OkPrefix(rs[..i]).0 + [rs[i].value], None)
  {
    if rs[i].Err? {
      OkPrefixStopsAt(rs, i);
    } else {
      OkPrefixExtends(rs, i);
    }
  }

  lemma OkPrefixStopsAt(rs: seq<Result<JsonDict, XconError>>, i: nat)
    requires i < |rs| && OkPrefix(rs[..i]).1.None? && rs[i].Err?
    ensures OkPrefix(rs) == (OkPrefix(rs[..i]).0, Some(rs[i].error))
  {
    var a, b := rs[..i], rs[i..];
    assert b[0] == rs[i];
    assert OkPrefix(b) == ([], Some(rs[i].error));
    OkPrefixConcat(a, b);
    assert a + b == rs;
    assert OkPrefix(a).0 + [] == OkPrefix(a).0;
  }

  lemma OkPrefixExtends(rs: seq<Result<JsonDict, XconError>>, i: nat)
    requires i < |rs| && OkPrefix(rs[..i]).1.None? && rs[i].Ok?
    ensures OkPrefix(rs[..i + 1]) == (OkPrefix(rs[..i]).0 + [rs[i].value], None)
  {
    var a, last := rs[..i], [rs[i]];
    OkPrefixSingle(last);
    OkPrefixConcat(a, last);
    assert a + last == rs[..i + 1];
  }

  /** Once the first results are all rows, the rows of more results continue theirs. */
  lemma {:induction false} OkPrefixConcat(a: seq<Result<JsonDict, XconError>>, b: seq<Result<JsonDict, XconError>>)
    requires OkPrefix(a).1.None?
    ensures OkPrefix(a + b) == (OkPrefix(a).0 + OkPrefix(b).0, OkPrefix(b).1)
  {
    if |a| == 0 {
      assert a + b == b;
      assert [] + OkPrefix(b).0 == OkPrefix(b).0;
    } else {
      var tail := a[1..];
      assert a == [a[0]] + tail;
      assert a + b == [a[0]] + (tail + b);
      OkPrefixCons(a[0], tail);
      OkPrefixCons(a[0], tail + b);
      OkPrefixConcat(tail, b);
      var row := a[0].value;
      assert ([row] + OkPrefix(tail).0) + OkPrefix(b).0 == [row] + (OkPrefix(tail).0 + OkPrefix(b).0);
    }
  }

  lemma OkPrefixCons(x: Result<JsonDict, XconError>, rest: seq<Result<JsonDict, XconError>>)
    ensures OkPrefix([x] + rest) ==
      if x.Err? then ([], Some(x.error)) else ([x.value] + OkPrefix(rest).0, OkPrefix(rest).1)
  {
    assert ([x] + rest)[1..] == rest;
  }

  /** The writes of one more accepted row extend the writes of the rows before it. */
  lemma PutEachStep(items: seq<DirectoryItem>, i: nat, before: seq<Write>, writer: Option<nat>)
    requires i < |items| && JsonRows(items[..i]).1.None? && ToJson(items[i], true).Ok?
    ensures JsonRows(items[..i + 1]).1.None?
    ensures before + WritesOf(JsonRows(items[..i]).0, writer) + WritesOf([ToJson(items[i], true).value], writer)
         == before + WritesOf(JsonRows(items[..i + 1]).0, writer)
  {
    var rows := JsonRows(items[..i]).0;
    var row := ToJson(items[i], true).value;
    JsonRowsStep(items, i);
    WritesOfConcat(rows, [row], writer);
  }

  lemma WritesOfConcat(a: seq<JsonDict>, b: seq<JsonDict>, writer: Option<nat>)
    ensures WritesOf(a + b, writer) == WritesOf(a, writer) + WritesOf(b, writer)
  {
    assert forall i :: 0 <= i < |a| ==> (a + b)[i] == a[i];
    assert forall i :: |a| <= i < |a| + |b| ==> (a + b)[i] == b[i - |a|];
  }

  /** `_BatchTable`: installs a batch writer on the table unless the table has one. */
  class BatchTable {
    const table: ConfigDynamoTable
    /** The writer this object installed, if it installed one. */
    var batchWriter: Option<nat>

    constructor (table: ConfigDynamoTable)
      ensures this.table == table && batchWriter.None?
    {
      this.table := table;
      batchWriter := None;
    }

    /**
     * `__enter__`: entering twice raises; with an active writer on the table
     * nothing happens; otherwise a new writer is made and installed.
     */
    method Enter() returns (r: Result<(), XconError>)
      modifies this, table
      ensures table.writes == old(table.writes)
      ensures old(batchWriter).Some? ==>
        r.Err? && r.error.ConfigError? && batchWriter == old(batchWriter)
        && table.batchWriter == old(table.batchWriter) && table.nextWriter == old(table.nextWriter)
      ensures old(batchWriter).None? && old(table.batchWriter).Some? ==>
        r.Ok? && batchWriter.None? && table.batchWriter == old(table.batchWriter) && table.nextWriter == old(table.nextWriter)
      ensures old(batchWriter).None? && old(table.batchWriter).None? ==>
        r.Ok? && batchWriter == Some(old(table.nextWriter)) && table.batchWriter == batchWriter
        && table.nextWriter == old(table.nextWriter) + 1
    {
      if batchWriter.Some? {
        return Err(ConfigError("Must not use `with` multiple times with same dynamo batch writer object."));
      }
      if table.batchWriter.Some? {
        return Ok(());
      }
      var writer := table.nextWriter;
      table.nextWriter := table.nextWriter + 1;
      table.batchWriter := Some(writer);
      batchWriter := Some(writer);
      r := Ok(());
    }

    /** `__exit__`: only the object that installed the writer removes it. */
    method Exit()
      modifies table
      ensures table.writes == old(table.writes) && table.nextWriter == old(table.nextWriter)
      ensures batchWriter.None? ==> table.batchWriter == old(table.batchWriter)
      ensures batchWriter.Some? ==> table.batchWriter.None?
    {
      if batchWriter.None? {
        return;
      }
      table.batchWriter := None;
    }
  }

  // ---------------------------------------------------------------------
  // DynamoProvider
  // ---------------------------------------------------------------------

  /**
   * Fetching a directory the provider does not hold: a remembered botocore
   * error is raised again without a query; otherwise the query's rows (not
   * expired at `now`) are read, and an exception that ends the query is
   * handled. The items, and the exceptions handed to `handle_aws_exception`.
   */
  function ProviderFetch(d: Directory, remembered: Option<AwsError>, table: Table, now: int)
    : (r: (Result<seq<DirectoryItem>, XconError>, Handled))
    ensures remembered.Some? ==> r.1 == [(remembered.value, d)]
    ensures |r.1| <= 1 && (r.1 != [] ==> r.1[0].1 == d)
    ensures r.1 != [] ==> (r.0.Ok? <==> !Classify(r.1[0].0).Reraised?)
    ensures r.1 != [] && r.0.Ok? ==> r.0.value == []
  {
    if remembered.Some? then
      var e := remembered.value;
      (if Classify(e).Reraised? then Err(Aws(e)) else Ok([]), [(e, d)])
    else
      var q := Paginate(table(d.path), now);
      match ParseRows(q.rows, ProviderTableSource, false)
      case Err(e) => (Err(e), [])
      case Ok(items) =>
        if q.error.None? then (Ok(items), [])
        else
          var e := q.error.value;
          (if Classify(e).Reraised? then Err(Aws(e)) else Ok([]), [(e, d)])
  }

  /**
   * `DynamoProvider.get_item` for a directory, on the provider's listings: a
   * held listing answers; otherwise what was fetched (nothing, after an
   * ignored error) is stored for good, unless an exception is raised.
   */
  function DynamoLookup(listings: map<Directory, Listing>, d: Directory, name: string,
                        remembered: Option<AwsError>, table: Table, now: int)
    : (r: (Result<Option<DirectoryItem>, XconError>, map<Directory, Listing>, Handled))
    ensures d in listings ==> r == (Ok(Lookup(listings[d], name)), listings, [])
    ensures r.0.Err? ==> r.1 == listings
    ensures r.0.Ok? ==> d in r.1 && r.0.value == Lookup(r.1[d], name)
    ensures forall other :: other != d ==> (other in r.1 <==> other in listings)
  {
    if d in listings then (Ok(Lookup(listings[d], name)), listings, [])
    else
      var (items, hs) := ProviderFetch(d, remembered, table, now);
      if items.Err? then (Err(items.error), listings, hs)
      else
        var listing := ListingOf(items.value);
        (Ok(Lookup(listing, name)), listings[d := listing], hs)
  }

  /** A directory is fetched at most once: later lookups in it, of any name, use the stored listing. */
  lemma DynamoFetchedOnce(listings: map<Directory, Listing>, d: Directory, name: string,
                          remembered: Option<AwsError>, table: Table, now: int,
                          name2: string, remembered2: Option<AwsError>, table2: Table, now2: int)
    requires DynamoLookup(listings, d, name, remembered, table, now).0.Ok?
    ensures var after := DynamoLookup(listings, d, name, remembered, table, now).1;
      DynamoLookup(after, d, name2, remembered2, table2, now2) == (Ok(Lookup(after[d], name2)), after, [])
  {
  }

  /**
   * Once a missing credential or region was remembered, a new directory is
   * not queried: it is marked errored by the same exception and stays empty.
   */
  lemma RememberedErrorShortCircuits(listings: map<Directory, Listing>, d: Directory, name: string,
                                     e: AwsError, table: Table, now: int)
    requires d !in listings && IgnoredClass(e)
    ensures DynamoLookup(listings, d, name, Some(e), table, now) == (Ok(None), listings[d := map[]], [(e, d)])
  {
  }

  /** `DynamoProvider`; the `global-all-config` table is passed in as `table`. */
  class DynamoProvider {
    /** The provider's key in the shared local cache. */
    const id: nat
    const errors: ProviderErrors

    constructor (id: nat)
      ensures this.id == id && fresh(errors)
      ensures errors.erroredDirectories == {} && errors.botocoreErrorIgnored.None?
    {
      this.id := id;
      errors := new ProviderErrors();
    }

    /** `get_item` once the directory is known. */
    method ItemForDirectory(name: string, d: Directory, cache: LocalProviderCache<ProviderCache>, now: int, table: Table)
      returns (r: Result<Option<DirectoryItem>, XconError>)
      requires cache.Valid() && HoldsListings(cache.State(), id)
      modifies cache, errors
      ensures cache.Valid() && HoldsListings(cache.State(), id)
      ensures var expired := Expire(old(cache.State()), cache.expireTimeDelta, now);
        var (res, after, hs) := DynamoLookup(ListingsOf(expired, id), d, name, old(errors.botocoreErrorIgnored), table, now);
        r == res && cache.State() == WithListings(expired, id, after)
        && errors.erroredDirectories == MarkedAfterAll(hs, old(errors.erroredDirectories))
        && errors.botocoreErrorIgnored == BotoCoreAfterAll(hs, old(errors.botocoreErrorIgnored))
    {
      ghost var expired := Expire(old(cache.State()), cache.expireTimeDelta, now);
      var listings := AwsLocalCache(cache, id, now);
      if d in listings {
        return Ok(Lookup(listings[d], name));
      }
      ghost var fetched := cache.State();
      ghost var after := DynamoLookup(listings, d, name, errors.botocoreErrorIgnored, table, now).1;
      r := FetchDirectory(name, d, cache, now, table);
      assert WithListings(fetched, id, after) == WithListings(expired, id, after);
    }

    /** The fetching half of `get_item`, for a directory not held yet. */
    method FetchDirectory(name: string, d: Directory, cache: LocalProviderCache<ProviderCache>, now: int, table: Table)
      returns (r: Result<Option<DirectoryItem>, XconError>)
      requires cache.Valid() && HoldsListings(cache.State(), id)
      requires cache.lastReset >= now - cache.expireTimeDelta
      requires id in cache.entries && d !in ListingsOf(cache.State(), id)
      modifies cache, errors
      ensures cache.Valid() && HoldsListings(cache.State(), id)
      ensures var (res, after, hs) := DynamoLookup(ListingsOf(old(cache.State()), id), d, name, old(errors.botocoreErrorIgnored), table, now);
        r == res && cache.State() == WithListings(old(cache.State()), id, after)
        && errors.erroredDirectories == MarkedAfterAll(hs, old(errors.erroredDirectories))
        && errors.botocoreErrorIgnored == BotoCoreAfterAll(hs, old(errors.botocoreErrorIgnored))
    {
      var items := Fetch(d, now, table);
      if items.Err? {
        assert cache.State() == WithListings(cache.State(), id, ListingsOf(cache.State(), id));
        return Err(items.error);
      }
      var listing := new DirectoryListing(Some(d), items.value);
      AwsStoreListing(cache, id, now, d, listing.items);
      r := Ok(listing.GetItem(name));
    }

    /** The `try` block of `get_item` and its `except`: the items to store, or the exception raised. */
    method Fetch(d: Directory, now: int, table: Table) returns (r: Result<seq<DirectoryItem>, XconError>)
      modifies errors
      ensures var (items, hs) := ProviderFetch(d, old(errors.botocoreErrorIgnored), table, now);
        r == items
        && errors.erroredDirectories == MarkedAfterAll(hs, old(errors.erroredDirectories))
        && errors.botocoreErrorIgnored == BotoCoreAfterAll(hs, old(errors.botocoreErrorIgnored))
    {
      var failure := errors.botocoreErrorIgnored;
      var items: seq<DirectoryItem> := [];
      if failure.None? {
        var q := QueryRows(table(d.path), now);
        var parsed := ParseRows(q.rows, ProviderTableSource, false);
        if parsed.Err? {
          return Err(parsed.error);
        }
        failure := q.error;
        if failure.None? {
          return Ok(parsed.value);
        }
      }
      HandledSingle(failure.value, d, errors.erroredDirectories, errors.botocoreErrorIgnored);
      var handled := HandleAwsException(failure.value, errors, d);
      if handled.Err? {
        return Err(handled.error);
      }
      r := Ok(items);
    }

    /** `get_item`: no directory, no lookup; otherwise the directory (or path) is looked in. */
    method GetItem(name: string, directory: Option<DirectoryOrPath>, cache: LocalProviderCache<ProviderCache>,
                   now: int, table: Table)
      returns (r: Result<Option<DirectoryItem>, XconError>)
      requires cache.Valid() && HoldsListings(cache.State(), id)
      modifies cache, errors
      ensures cache.Valid() && HoldsListings(cache.State(), id)
      ensures directory.None? ==> r == Ok(None) && cache.State() == old(cache.State())
      ensures directory.Some? && DirectoryFrom(directory.value).Err? ==>
        r == Err(DirectoryFrom(directory.value).error) && cache.State() == old(cache.State())
      ensures directory.Some? && DirectoryFrom(directory.value).Ok? ==>
        var d := DirectoryFrom(directory.value).value;
        var expired := Expire(old(cache.State()), cache.expireTimeDelta, now);
        var (res, after, hs) := DynamoLookup(ListingsOf(expired, id), d, name, old(errors.botocoreErrorIgnored), table, now);
        r == res && cache.State() == WithListings(expired, id, after)
        && errors.erroredDirectories == MarkedAfterAll(hs, old(errors.erroredDirectories))
        && errors.botocoreErrorIgnored == BotoCoreAfterAll(hs, old(errors.botocoreErrorIgnored))
    {
      if directory.None? {
        return Ok(None);
      }
      var parsed := DirectoryFrom(directory.value);
      if parsed.Err? {
        return Err(parsed.error);
      }
      r := ItemForDirectory(name, parsed.value, cache, now, table);
    }

    /** `retrieved_items_map`: the directory's listing, `None` when it has not been fetched. */
    method RetrievedItemsMap(directory: DirectoryOrPath, cache: LocalProviderCache<ProviderCache>, now: int)
      returns (r: Result<Option<Listing>, XconError>)
      requires cache.Valid() && HoldsListings(cache.State(), id)
      modifies cache
      ensures cache.Valid() && HoldsListings(cache.State(), id)
      ensures DirectoryFrom(directory).Err? ==>
        r == Err(DirectoryFrom(directory).error) && cache.State() == old(cache.State())
      ensures DirectoryFrom(directory).Ok? ==>
        var d := DirectoryFrom(directory).value;
        var expired := Expire(old(cache.State()), cache.expireTimeDelta, now);
        var listings := ListingsOf(expired, id);
        r == Ok(if d in listings then Some(listings[d]) else None)
        && cache.State() == WithListings(expired, id, listings)
    {
      var parsed := DirectoryFrom(directory);
      if parsed.Err? {
        return Err(parsed.error);
      }
      var listings := AwsLocalCache(cache, id, now);
      r := Ok(if parsed.value in listings then Some(listings[parsed.value]) else None);
    }
  }

  // ---------------------------------------------------------------------
  // DynamoCacher
  // ---------------------------------------------------------------------

  /** Twelve hours: the lifetime of what the cacher writes, unless an item brings its own ttl. */
  const CacheLifetime: int := 12 * 60 * 60
  /** The cacher's ttl is moved by up to this many seconds either way, at random. */
  const LifetimeJitter: int := 1500
  /** Reads of the cache table count items as expired up to two hours early, by a random amount. */
  const ReadJitter: int := 2 * 60 * 60
  /** A ttl read back from the table is adopted when it lies a minute to two days past the cacher's own. */
  const AdoptAfter: int := 60
  const AdoptWithin: int := 2 * 24 * 60 * 60

  /** A cached listing is kept per (environ, concatenated directory paths, concatenated provider names). */
  type ListingKey = (Directory, string, string)

  function CacherKey(environ: Directory, chain: DirectoryChain, providers: ProviderChain): (k: ListingKey)
    ensures k.0 == environ
  {
    (environ, chain.ConcatenatedDirectoryPaths(), providers.ConcatenatedProviderNames())
  }

  const EmptyCacherCache: ProviderCache := CacherCache(map[], map[])

  /** The cacher's `_LocalCache` in a cache state; none yet reads as an empty one. */
  function CacherCacheOf(s: CacheState<ProviderCache>, id: nat): (c: ProviderCache)
    ensures c.CacherCache?
  {
    if id in s.entries && s.entries[id].CacherCache? then s.entries[id] else EmptyCacherCache
  }

  predicate HoldsCacherCache(s: CacheState<ProviderCache>, id: nat)
  {
    id in s.entries ==> s.entries[id].CacherCache?
  }

  /** The state with the cacher's entry replaced. */
  function WithCacherCache(s: CacheState<ProviderCache>, id: nat, c: ProviderCache): (r: CacheState<ProviderCache>)
    requires c.CacherCache?
    ensures HoldsCacherCache(r, id) && CacherCacheOf(r, id) == c
    ensures r.lastReset == s.lastReset
    ensures forall other :: other != id ==> (other in r.entries <==> other in s.entries)
    ensures forall other :: other != id && other in s.entries ==> r.entries[other] == s.entries[other]
  {
    s.(entries := s.entries[id := c])
  }

  lemma WithCacherCacheTwice(s: CacheState<ProviderCache>, id: nat, c1: ProviderCache, c2: ProviderCache)
    requires c1.CacherCache? && c2.CacherCache?
    ensures WithCacherCache(WithCacherCache(s, id, c1), id, c2) == WithCacherCache(s, id, c2)
  {
  }

  /** `DynamoCacher.local_cache`: made empty when the cacher has none (or it expired). */
  method CacherLocalCache(cache: LocalProviderCache<ProviderCache>, id: nat, now: int) returns (c: ProviderCache)
    requires cache.Valid() && HoldsCacherCache(cache.State(), id)
    modifies cache
    ensures cache.Valid() && c.CacherCache?
    ensures c == CacherCacheOf(Expire(old(cache.State()), cache.expireTimeDelta, now), id)
    ensures cache.State() == WithCacherCache(Expire(old(cache.State()), cache.expireTimeDelta, now), id, c)
  {
    var r := cache.GetCacheForProvider(id, now, Returns(EmptyCacherCache));
    ghost var expired := Expire(old(cache.State()), cache.expireTimeDelta, now);
    if id in expired.entries {
      assert r == Ok(Some(expired.entries[id]));
      assert cache.State() == expired;
      assert expired == WithCacherCache(expired, id, expired.entries[id]);
    }
    c := r.value.value;
  }

  /** An update of the cacher's `_LocalCache` within the same moment, when the cache does not expire again. */
  method CacherStoreCache(cache: LocalProviderCache<ProviderCache>, id: nat, now: int, c: ProviderCache)
    requires cache.Valid() && c.CacherCache? && cache.lastReset >= now - cache.expireTimeDelta
    modifies cache
    ensures cache.Valid() && cache.State() == WithCacherCache(old(cache.State()), id, c)
  {
    cache.SetCacheForProvider(id, c, now);
  }

  /** A step of the cacher: what it returns or raises, its cache and ttl afterwards, and the exceptions it handled. */
  datatype CacherStep<T> = CacherStep(result: Result<T, XconError>, after: ProviderCache, ttl: int, handled: Handled)

  /**
   * The cacher's ttl after reading `items` for an environ: the first item's
   * ttl when it lies a minute to two days past the current one, so that the
   * cacher's writes expire together with what is already cached.
   */
  function AdoptedTtl(current: int, items: seq<DirectoryItem>): (t: int)
    ensures t != current <==>
      |items| > 0 && items[0].ttl.Some? && current + AdoptAfter <= items[0].ttl.value <= current + AdoptWithin
    ensures t != current ==> Some(t) == items[0].ttl
    ensures current <= t <= current + AdoptWithin
  {
    if |items| > 0 && items[0].ttl.Some? && current + AdoptAfter <= items[0].ttl.value <= current + AdoptWithin
    then items[0].ttl.value
    else current
  }

  /**
   * `_get_items_for_environ`: the rows of the environ, read from the cache
   * table once and kept. The read treats as expired what expires within
   * `jitter` seconds; an ignored exception keeps no rows for the environ.
   */
  function EnvironItems(c: ProviderCache, environ: Directory, table: Table, now: int, jitter: int, ttl: int)
    : (r: CacherStep<seq<DirectoryItem>>)
    requires c.CacherCache?
    ensures r.after.CacherCache? && r.after.cachedListings == c.cachedListings
    ensures environ in c.environToItems ==> r == CacherStep(Ok(c.environToItems[environ]), c, ttl, [])
    ensures r.result.Err? ==> r.after == c && r.ttl == ttl
    ensures r.result.Ok? ==> r.after.environToItems == c.environToItems[environ := r.result.value]
    ensures ttl <= r.ttl <= ttl + AdoptWithin
    ensures |r.handled| <= 1
    ensures r.handled != [] ==>
      r.handled[0].1 == environ && (r.result.Ok? <==> !Classify(r.handled[0].0).Reraised?)
      && (r.result.Ok? ==> r.result.value == [])
  {
    if environ in c.environToItems then CacherStep(Ok(c.environToItems[environ]), c, ttl, [])
    else
      var (items, hs) := EnvironRead(environ, table, now, jitter);
      if items.Err? then CacherStep(Err(items.error), c, ttl, hs)
      else CacherStep(items, c.(environToItems := c.environToItems[environ := items.value]), AdoptedTtl(ttl, items.value), hs)
  }

  /**
   * The `try` block of `_get_items_for_environ` and its `except`: the rows
   * read, or the exception raised, and the exceptions handled.
   */
  function EnvironRead(environ: Directory, table: Table, now: int, jitter: int)
    : (r: (Result<seq<DirectoryItem>, XconError>, Handled))
    ensures |r.1| <= 1
    ensures r.1 != [] ==>
      r.1[0].1 == environ && (r.0.Ok? <==> !Classify(r.1[0].0).Reraised?) && (r.0.Ok? ==> r.0.value == [])
  {
    var q := Paginate(table(environ.path), now + jitter);
    match ParseRows(q.rows, CacherTableSource, true)
    case Err(e) => (Err(e), [])
    case Ok(items) =>
      if q.error.None? then (Ok(items), [])
      else
        var e := q.error.value;
        (if Classify(e).Reraised? then Err(Aws(e)) else Ok([]), [(e, environ)])
  }

  /** The cases of `EnvironRead`: a parse error first, then the rows, then the handled query error. */
  lemma EnvironReadCases(environ: Directory, table: Table, now: int, jitter: int,
                         q: Queried, parsed: Result<seq<DirectoryItem>, XconError>)
    requires q == Paginate(table(environ.path), now + jitter)
    requires parsed == ParseRows(q.rows, CacherTableSource, true)
    ensures EnvironRead(environ, table, now, jitter) ==
      if parsed.Err? then (Err(parsed.error), [])
      else if q.error.None? then (parsed, [])
      else (if Classify(q.error.value).Reraised? then Err(Aws(q.error.value)) else Ok([]), [(q.error.value, environ)])
  {
  }

  /** The item was cached under these concatenated directory paths and provider names. */
  predicate CachedUnder(x: DirectoryItem, dirPaths: string, providerNames: string)
  {
    x.cacheConcatDirectoryPaths == Some(dirPaths) && x.cacheConcatProviderNames == Some(providerNames)
  }

  /** The items cached under these chains, in order. */
  function Matching(items: seq<DirectoryItem>, dirPaths: string, providerNames: string): (r: seq<DirectoryItem>)
    ensures forall x :: x in r <==> x in items && CachedUnder(x, dirPaths, providerNames)
  {
    if |items| == 0 then []
    else
      var init := items[..|items| - 1];
      var last := items[|items| - 1];
      assert items == init + [last];
      Matching(init, dirPaths, providerNames) + if CachedUnder(last, dirPaths, providerNames) then [last] else []
  }

  /**
   * `_get_listing`: the listing kept for the key; on the first call for a key
   * the listing is kept empty before the environ is read (and stays empty if
   * that raises), then filled with the environ's items cached under the
   * key's chains.
   */
  function CacherListing(c: ProviderCache, key: ListingKey, table: Table, now: int, jitter: int, ttl: int)
    : (r: CacherStep<Listing>)
    requires c.CacherCache?
    ensures r.after.CacherCache? && key in r.after.cachedListings
    ensures key in c.cachedListings ==> r == CacherStep(Ok(c.cachedListings[key]), c, ttl, [])
    ensures r.result.Ok? ==> r.after.cachedListings[key] == r.result.value
    ensures key !in c.cachedListings && r.result.Err? ==> r.after.cachedListings[key] == map[]
    ensures forall other :: other != key && other in c.cachedListings ==>
      other in r.after.cachedListings && r.after.cachedListings[other] == c.cachedListings[other]
    ensures forall other :: other != key && other in r.after.cachedListings ==> other in c.cachedListings
    ensures ttl <= r.ttl
  {
    if key in c.cachedListings then CacherStep(Ok(c.cachedListings[key]), c, ttl, [])
    else
      var c1 := c.(cachedListings := c.cachedListings[key := map[]]);
      var s := EnvironItems(c1, key.0, table, now, jitter, ttl);
      if s.result.Err? then CacherStep(Err(s.result.error), s.after, s.ttl, s.handled)
      else
        var listing := ListingOf(Matching(s.result.value, key.1, key.2));
        CacherStep(Ok(listing), s.after.(cachedListings := s.after.cachedListings[key := listing]), s.ttl, s.handled)
  }

  /** Every item of the listing was cached under these chains. */
  predicate ListingUnder(listing: Listing, dirPaths: string, providerNames: string)
  {
    forall n :: n in listing ==> CachedUnder(listing[n], dirPaths, providerNames)
  }

  /** The cacher's invariant: each kept listing holds only items cached under the chains of its key. */
  predicate CacherWf(c: ProviderCache)
  {
    c.CacherCache? && forall key :: key in c.cachedListings ==> ListingUnder(c.cachedListings[key], key.1, key.2)
  }

  /** The items of `ListingOf(xs)` come from `xs`. */
  lemma ListingOfMembers(xs: seq<DirectoryItem>)
    ensures forall k :: k in ListingOf(xs) ==> ListingOf(xs)[k] in xs
  {
    forall k | k in ListingOf(xs) ensures ListingOf(xs)[k] in xs {
      ListingOfHoldsLast(xs, k);
    }
  }

  /**
   * The cacher never answers with an item cached under other chains: reading a
   * listing keeps the invariant, and the listing read holds only items cached
   * under the key's directory paths and provider names.
   */
  lemma CacherListingUnderKey(c: ProviderCache, key: ListingKey, table: Table, now: int, jitter: int, ttl: int)
    requires CacherWf(c)
    ensures var r := CacherListing(c, key, table, now, jitter, ttl);
      CacherWf(r.after) && (r.result.Ok? ==> ListingUnder(r.result.value, key.1, key.2))
  {
    var r := CacherListing(c, key, table, now, jitter, ttl);
    if key !in c.cachedListings && r.result.Ok? {
      var c1 := c.(cachedListings := c.cachedListings[key := map[]]);
      var items := EnvironItems(c1, key.0, table, now, jitter, ttl).result.value;
      ListingOfMembers(Matching(items, key.1, key.2));
    }
  }

  /**
   * An environ is read from the table once: after a first listing for it, a
   * listing for other chains of the same environ is made from the kept rows,
   * whatever the table now holds.
   */
  lemma EnvironReadOnce(c: ProviderCache, key: ListingKey, table: Table, now: int, jitter: int, ttl: int,
                        key2: ListingKey, table2: Table, now2: int, jitter2: int, ttl2: int)
    requires c.CacherCache? && key !in c.cachedListings
    requires CacherListing(c, key, table, now, jitter, ttl).result.Ok?
    requires key2.0 == key.0
    ensures var after := CacherListing(c, key, table, now, jitter, ttl).after;
      key.0 in after.environToItems
      && (key2 !in after.cachedListings ==>
            CacherListing(after, key2, table2, now2, jitter2, ttl2).result
              == Ok(ListingOf(Matching(after.environToItems[key.0], key2.1, key2.2)))
            && CacherListing(after, key2, table2, now2, jitter2, ttl2).handled == [])
  {
  }

  /**
   * A listing whose environ raised on the first read stays empty: later
   * reads of the key return it without asking the table.
   */
  lemma FailedListingStaysEmpty(c: ProviderCache, key: ListingKey, table: Table, now: int, jitter: int, ttl: int,
                                table2: Table, now2: int, jitter2: int, ttl2: int)
    requires c.CacherCache? && key !in c.cachedListings
    requires CacherListing(c, key, table, now, jitter, ttl).result.Err?
    ensures var after := CacherListing(c, key, table, now, jitter, ttl).after;
      CacherListing(after, key, table2, now2, jitter2, ttl2) == CacherStep(Ok(map[]), after, ttl2, [])
  {
  }

  /** `_get_environ_to_use`: the environ named by the service and environment settings when both are set. */
  function EnvironToUse(passed: Option<Directory>, service: Option<string>, environment: Option<string>)
    : (r: Result<Option<Directory>, XconError>)
    ensures !(Truthy(service) && Truthy(environment)) ==> r == Ok(passed)
    ensures Truthy(service) && Truthy(environment) ==>
      var d := NewDirectory(service.value, environment.value, false, None);
      (r.Ok? <==> d.Ok?) && (r.Ok? ==> r.value == Some(d.value)) && (r.Err? ==> r.error == d.error)
    ensures passed.Some? && r.Ok? ==> r.value.Some?
  {
    if !Truthy(service) || !Truthy(environment) then Ok(passed)
    else
      match NewDirectory(service.value, environment.value, false, None)
      case Err(e) => Err(e)
      case Ok(d) => Ok(Some(d))
  }

  /** `get_item` looks nothing up without a directory (an empty path counts as none) or an environ. */
  predicate Skipped(directory: Option<DirectoryOrPath>, environ: Option<Directory>)
  {
    directory.None? || (directory.value.IsPath? && directory.value.path == "") || environ.None?
  }

  /** The text Python's f-string gives an optional source. */
  function SourceText(source: Option<string>): string
  {
    if source.None? then "None" else source.value
  }

  /** The item `cache_items` writes for `x`: keyed by the chains and the environ, with the item's ttl or the cacher's. */
  function CachedItem(x: DirectoryItem, ttl: int, dirPaths: string, providerNames: string, environPath: string)
    : (y: DirectoryItem)
    ensures y.name == Lower(x.name) && y.value == x.value && y.directory == x.directory
    ensures y.ttl == Some(if x.ttl.Some? then x.ttl.value else ttl)
    ensures y.cacheable && !y.fromCacher && CachedUnder(y, dirPaths, providerNames)
    ensures y.cacheHashKey == Some(environPath)
    ensures y.source == Some(SourceText(x.source) + " - " + x.directory.path)
  {
    NewItem(Some(x.directory), x.name, x.value, None, Some(SourceText(x.source) + " - " + x.directory.path),
            Some(if x.ttl.Some? then x.ttl.value else ttl), true, None,
            Some(dirPaths), Some(providerNames), Some(environPath), false)
  }

  /**
   * The loop of `cache_items`: each cacheable item that is new to the live
   * listing or has another value there is sent and added to the listing, so
   * later items are compared with it. What is sent, and the listing after.
   */
  function ToSend(listing: Listing, xs: seq<DirectoryItem>, ttl: int, dirPaths: string, providerNames: string,
                  environPath: string)
    : (r: (seq<DirectoryItem>, Listing))
    decreases |xs|
  {
    if |xs| == 0 then ([], listing)
    else if NewOrChanged(listing, xs[0]) && xs[0].cacheable then
      var y := CachedItem(xs[0], ttl, dirPaths, providerNames, environPath);
      var rest := ToSend(listing[y.name := y], xs[1..], ttl, dirPaths, providerNames, environPath);
      ([y] + rest.0, rest.1)
    else ToSend(listing, xs[1..], ttl, dirPaths, providerNames, environPath)
  }

  /** What is sent is the cached form of a cacheable input item. */
  lemma {:induction false} ToSendSends(listing: Listing, xs: seq<DirectoryItem>, ttl: int, dirPaths: string,
                                       providerNames: string, environPath: string)
    ensures forall y :: y in ToSend(listing, xs, ttl, dirPaths, providerNames, environPath).0 ==>
      exists x :: x in xs && x.cacheable && y == CachedItem(x, ttl, dirPaths, providerNames, environPath)
    decreases |xs|
  {
    if |xs| > 0 {
      var y0 := CachedItem(xs[0], ttl, dirPaths, providerNames, environPath);
      ToSendSends(listing[y0.name := y0], xs[1..], ttl, dirPaths, providerNames, environPath);
      ToSendSends(listing, xs[1..], ttl, dirPaths, providerNames, environPath);
      assert forall x :: x in xs[1..] ==> x in xs;
    }
  }

  /**
   * Nothing is sent (and the listing is left as it was) exactly when every
   * cacheable item is already in the listing with the same value.
   */
  lemma {:induction false} ToSendNothingIff(listing: Listing, xs: seq<DirectoryItem>, ttl: int, dirPaths: string,
                                            providerNames: string, environPath: string)
    ensures var r := ToSend(listing, xs, ttl, dirPaths, providerNames, environPath);
      (r.0 == [] <==> forall x :: x in xs && x.cacheable ==> !NewOrChanged(listing, x))
      && (r.0 == [] ==> r.1 == listing)
    decreases |xs|
  {
    if |xs| > 0 {
      ToSendNothingIff(listing, xs[1..], ttl, dirPaths, providerNames, environPath);
      assert forall x :: x in xs ==> x == xs[0] || x in xs[1..];
    }
  }

  /** The listing after the loop still holds only items cached under the chains. */
  lemma {:induction false} ToSendKeepsUnder(listing: Listing, xs: seq<DirectoryItem>, ttl: int, dirPaths: string,
                                            providerNames: string, environPath: string)
    requires ListingUnder(listing, dirPaths, providerNames)
    ensures ListingUnder(ToSend(listing, xs, ttl, dirPaths, providerNames, environPath).1, dirPaths, providerNames)
    decreases |xs|
  {
    if |xs| > 0 {
      var y0 := CachedItem(xs[0], ttl, dirPaths, providerNames, environPath);
      ToSendKeepsUnder(listing[y0.name := y0], xs[1..], ttl, dirPaths, providerNames, environPath);
      ToSendKeepsUnder(listing, xs[1..], ttl, dirPaths, providerNames, environPath);
    }
  }

  /** An item repeated in one call is sent once: the first copy is in the live listing when the second is compared. */
  lemma ToSendRepeatOnce(listing: Listing, x: DirectoryItem, ttl: int, dirPaths: string, providerNames: string,
                         environPath: string)
    requires Lower(x.name) == x.name
    ensures ToSend(listing, [x, x], ttl, dirPaths, providerNames, environPath).0 ==
      if NewOrChanged(listing, x) && x.cacheable then [CachedItem(x, ttl, dirPaths, providerNames, environPath)] else []
  {
    var y := CachedItem(x, ttl, dirPaths, providerNames, environPath);
    assert [x, x][1..] == [x];
    assert [x][1..] == [];
    if NewOrChanged(listing, x) && x.cacheable {
      var live := listing[y.name := y];
      assert !NewOrChanged(live, x);
      assert ToSend(live, [x], ttl, dirPaths, providerNames, environPath) == ToSend(live, [], ttl, dirPaths, providerNames, environPath);
      assert [y] + [] == [y];
    } else {
      assert ToSend(listing, [x], ttl, dirPaths, providerNames, environPath) == ToSend(listing, [], ttl, dirPaths, providerNames, environPath);
    }
  }

  /** The writes of `put_items` on a fresh table: one direct put, or puts through its first batch writer. */
  function FreshPutWrites(sent: seq<DirectoryItem>): seq<Write>
  {
    WritesOf(JsonRows(sent).0, if |sent| > 1 then Some(0) else None)
  }

  /**
   * The end of `cache_items`: nothing is written when nothing is to be sent
   * or the environ has had an error; otherwise the items are put, and an
   * exception from the put (`putError`) is handled for the environ.
   */
  function PutOutcome(sent: seq<DirectoryItem>, environ: Directory, hasError: bool, putError: Option<AwsError>)
    : (r: (Result<(), XconError>, seq<Write>, Handled))
    ensures sent == [] || hasError ==> r == (Ok(()), [], [])
    ensures JsonRows(sent).1.Some? && !hasError ==> r == (Err(JsonRows(sent).1.value), FreshPutWrites(sent), [])
    ensures sent != [] && !hasError && JsonRows(sent).1.None? ==>
      r.1 == FreshPutWrites(sent) && r.2 == (if putError.Some? then [(putError.value, environ)] else [])
      && (r.0.Ok? <==> putError.None? || !Classify(putError.value).Reraised?)
  {
    if sent == [] || hasError then (Ok(()), [], [])
    else
      var writes := FreshPutWrites(sent);
      var refused := JsonRows(sent).1;
      if refused.Some? then (Err(refused.value), writes, [])
      else if putError.None? then (Ok(()), writes, [])
      else
        var e := putError.value;
        (if Classify(e).Reraised? then Err(Aws(e)) else Ok(()), writes, [(e, environ)])
  }

  /**
   * Every item sent reaches the table as its own JSON row, in order: directly
   * for a single item, through one batch writer for more.
   */
  lemma PutWritesRows(sent: seq<DirectoryItem>, environ: Directory, putError: Option<AwsError>)
    requires sent != [] && JsonRows(sent).1.None?
    ensures var writes := PutOutcome(sent, environ, false, putError).1;
      |writes| == |sent|
      && (|sent| == 1 <==> writes[0].Direct?)
      && forall i :: 0 <= i < |sent| ==> ToJson(sent[i], true).Ok? && writes[i].row == ToJson(sent[i], true).value
  {
    var rs := Rendered(sent);
    var rows := JsonRows(sent).0;
    RenderedAt(sent);
    OkPrefixMeaning(rs);
    var writes := FreshPutWrites(sent);
    assert PutOutcome(sent, environ, false, putError).1 == writes;
    forall i | 0 <= i < |sent| ensures ToJson(sent[i], true) == Ok(rows[i]) && writes[i].row == rows[i] {
      assert rs[i] == Ok(rows[i]);
    }
  }

  /** `DynamoCacher`; the `global-all-configCache` table is passed in as `table`. */
  class DynamoCacher {
    /** The cacher's key in the shared local cache. */
    const id: nat
    const errors: ProviderErrors
    /** `_ttl`: the expiry given to items written without a ttl of their own. */
    var ttl: int

    /** Twelve hours from `now`, moved by `jitter` (what `random.randint(-1500, 1500)` gave). */
    constructor (id: nat, now: int, jitter: int)
      requires -LifetimeJitter <= jitter <= LifetimeJitter
      ensures this.id == id && fresh(errors)
      ensures errors.erroredDirectories == {} && errors.botocoreErrorIgnored.None?
      ensures now + CacheLifetime - LifetimeJitter <= ttl == now + CacheLifetime + jitter <= now + CacheLifetime + LifetimeJitter
    {
      this.id := id;
      errors := new ProviderErrors();
      ttl := now + CacheLifetime + jitter;
    }

    /** `retrieved_items_map`: the cacher never reports a listing of its own. */
    function RetrievedItemsMap(directory: DirectoryOrPath): (r: Listing)
      ensures r == map[]
    {
      map[]
    }

    /** `_get_items_for_environ`; `jitter` is what `random.randint(0, 7200)` gave. */
    method ItemsForEnviron(environ: Directory, cache: LocalProviderCache<ProviderCache>, now: int, table: Table, jitter: int)
      returns (r: Result<seq<DirectoryItem>, XconError>)
      requires cache.Valid() && HoldsCacherCache(cache.State(), id)
      requires 0 <= jitter <= ReadJitter
      modifies this, cache, errors
      ensures cache.Valid() && HoldsCacherCache(cache.State(), id)
      ensures var expired := Expire(old(cache.State()), cache.expireTimeDelta, now);
        var s := EnvironItems(CacherCacheOf(expired, id), environ, table, now, jitter, old(ttl));
        r == s.result && cache.State() == WithCacherCache(expired, id, s.after) && ttl == s.ttl
        && errors.erroredDirectories == MarkedAfterAll(s.handled, old(errors.erroredDirectories))
        && errors.botocoreErrorIgnored == BotoCoreAfterAll(s.handled, old(errors.botocoreErrorIgnored))
    {
      var c := CacherLocalCache(cache, id, now);
      if environ in c.environToItems {
        return Ok(c.environToItems[environ]);
      }
      r := ReadEnviron(environ, now, table, jitter);
      if r.Err? {
        return;
      }
      var items := r.value;
      CacherStoreCache(cache, id, now, c.(environToItems := c.environToItems[environ := items]));
      if |items| > 0 && items[0].ttl.Some? && ttl + AdoptAfter <= items[0].ttl.value <= ttl + AdoptWithin {
        ttl := items[0].ttl.value;
      }
    }

    /** The query of `_get_items_for_environ` and the handling of what it raises. */
    method ReadEnviron(environ: Directory, now: int, table: Table, jitter: int)
      returns (r: Result<seq<DirectoryItem>, XconError>)
      modifies errors
      ensures var (items, hs) := EnvironRead(environ, table, now, jitter);
        r == items
        && errors.erroredDirectories == MarkedAfterAll(hs, old(errors.erroredDirectories))
        && errors.botocoreErrorIgnored == BotoCoreAfterAll(hs, old(errors.botocoreErrorIgnored))
    {
      var q := QueryRows(table(environ.path), now + jitter);
      var parsed := ParseRows(q.rows, CacherTableSource, true);
      EnvironReadCases(environ, table, now, jitter, q, parsed);
      if parsed.Err? {
        return Err(parsed.error);
      }
      if q.error.None? {
        return parsed;
      }
      r := HandleQueryError(q.error.value, environ);
    }

    /** The `except` of `_get_items_for_environ`: an ignored exception leaves the environ without items. */
    method HandleQueryError(e: AwsError, environ: Directory) returns (r: Result<seq<DirectoryItem>, XconError>)
      modifies errors
      ensures r == if Classify(e).Reraised? then Err(Aws(e)) else Ok([])
      ensures errors.erroredDirectories == MarkedAfterAll([(e, environ)], old(errors.erroredDirectories))
      ensures errors.botocoreErrorIgnored == BotoCoreAfterAll([(e, environ)], old(errors.botocoreErrorIgnored))
    {
      HandledSingle(e, environ, errors.erroredDirectories, errors.botocoreErrorIgnored);
      var handled := HandleAwsException(e, errors, environ);
      if handled.Err? {
        return Err(handled.error);
      }
      r := Ok([]);
    }

    /** One more item of the environ: the listing takes it exactly when it is cached under the chains. */
    lemma MatchingStep(items: seq<DirectoryItem>, i: nat, dirPaths: string, providerNames: string)
      requires i < |items|
      ensures var m := ListingOf(Matching(items[..i], dirPaths, providerNames));
        ListingOf(Matching(items[..i + 1], dirPaths, providerNames)) ==
          if CachedUnder(items[i], dirPaths, providerNames) then m[items[i].name := items[i]] else m
    {
      var m := Matching(items[..i], dirPaths, providerNames);
      assert items[..i + 1][..i] == items[..i];
      if CachedUnder(items[i], dirPaths, providerNames) {
        assert (m + [items[i]])[..|m|] == m;
      } else {
        assert m + [] == m;
      }
    }

    /** The loop of `_get_listing` that adds the environ's items cached under the chains. */
    method AddMatching(items: seq<DirectoryItem>, dirPaths: string, providerNames: string) returns (listing: Listing)
      ensures listing == ListingOf(Matching(items, dirPaths, providerNames))
    {
      listing := map[];
      var i := 0;
      while i < |items|
        invariant 0 <= i <= |items|
        invariant listing == ListingOf(Matching(items[..i], dirPaths, providerNames))
      {
        MatchingStep(items, i, dirPaths, providerNames);
        if CachedUnder(items[i], dirPaths, providerNames) {
          listing := listing[items[i].name := items[i]];
        }
        i := i + 1;
      }
      assert items[..i] == items;
    }

    /** `_get_listing`. */
    method GetListing(chain: DirectoryChain, providers: ProviderChain, environ: Directory,
                      cache: LocalProviderCache<ProviderCache>, now: int, table: Table, jitter: int)
      returns (r: Result<Listing, XconError>)
      requires cache.Valid() && HoldsCacherCache(cache.State(), id)
      requires 0 <= jitter <= ReadJitter
      modifies this, cache, errors
      ensures cache.Valid() && HoldsCacherCache(cache.State(), id)
      ensures var expired := Expire(old(cache.State()), cache.expireTimeDelta, now);
        var s := CacherListing(CacherCacheOf(expired, id), CacherKey(environ, chain, providers), table, now, jitter, old(ttl));
        r == s.result && cache.State() == WithCacherCache(expired, id, s.after) && ttl == s.ttl
        && errors.erroredDirectories == MarkedAfterAll(s.handled, old(errors.erroredDirectories))
        && errors.botocoreErrorIgnored == BotoCoreAfterAll(s.handled, old(errors.botocoreErrorIgnored))
    {
      ghost var expired := Expire(old(cache.State()), cache.expireTimeDelta, now);
      var key := CacherKey(environ, chain, providers);
      var c := CacherLocalCache(cache, id, now);
      if key in c.cachedListings {
        return Ok(c.cachedListings[key]);
      }
      ghost var after := CacherListing(c, key, table, now, jitter, ttl).after;
      r := NewListing(key, cache, now, table, jitter);
      WithCacherCacheTwice(expired, id, c, after);
    }

    /** The part of `_get_listing` for a key without a listing yet. */
    method NewListing(key: ListingKey, cache: LocalProviderCache<ProviderCache>, now: int, table: Table, jitter: int)
      returns (r: Result<Listing, XconError>)
      requires cache.Valid() && HoldsCacherCache(cache.State(), id)
      requires 0 <= jitter <= ReadJitter
      requires cache.lastReset >= now - cache.expireTimeDelta
      requires key !in CacherCacheOf(cache.State(), id).cachedListings
      modifies this, cache, errors
      ensures cache.Valid() && HoldsCacherCache(cache.State(), id)
      ensures var s := CacherListing(CacherCacheOf(old(cache.State()), id), key, table, now, jitter, old(ttl));
        r == s.result && cache.State() == WithCacherCache(old(cache.State()), id, s.after) && ttl == s.ttl
        && errors.erroredDirectories == MarkedAfterAll(s.handled, old(errors.erroredDirectories))
        && errors.botocoreErrorIgnored == BotoCoreAfterAll(s.handled, old(errors.botocoreErrorIgnored))
    {
      ghost var s0 := cache.State();
      var c := CacherCacheOf(cache.State(), id);
      var c1 := c.(cachedListings := c.cachedListings[key := map[]]);
      ghost var e := EnvironItems(c1, key.0, table, now, jitter, ttl);
      CacherStoreCache(cache, id, now, c1);
      ghost var s1 := cache.State();
      assert Expire(s1, cache.expireTimeDelta, now) == s1;
      var items := ItemsForEnviron(key.0, cache, now, table, jitter);
      WithCacherCacheTwice(s0, id, c1, e.after);
      if items.Err? {
        return Err(items.error);
      }
      var listing := AddMatching(items.value, key.1, key.2);
      StoreListing(key, listing, cache, now);
      WithCacherCacheTwice(s0, id, e.after, e.after.(cachedListings := e.after.cachedListings[key := listing]));
      r := Ok(listing);
    }

    /**
     * `get_item`: the environ is chosen first; then, unless the lookup is
     * skipped, the item is looked up in the listing for the chains.
     */
    method GetItem(name: string, directory: Option<DirectoryOrPath>, chain: DirectoryChain, providers: ProviderChain,
                   environ: Option<Directory>, service: Option<string>, environment: Option<string>,
                   cache: LocalProviderCache<ProviderCache>, now: int, table: Table, jitter: int)
      returns (r: Result<Option<DirectoryItem>, XconError>)
      requires cache.Valid() && HoldsCacherCache(cache.State(), id)
      requires 0 <= jitter <= ReadJitter
      modifies this, cache, errors
      ensures cache.Valid() && HoldsCacherCache(cache.State(), id)
      ensures var env := EnvironToUse(environ, service, environment);
        env.Err? || Skipped(directory, env.value) ==>
          r == (if env.Err? then Err(env.error) else Ok(None))
          && cache.State() == old(cache.State()) && ttl == old(ttl)
          && errors.erroredDirectories == old(errors.erroredDirectories)
          && errors.botocoreErrorIgnored == old(errors.botocoreErrorIgnored)
      ensures var env := EnvironToUse(environ, service, environment);
        env.Ok? && !Skipped(directory, env.value) ==>
          var expired := Expire(old(cache.State()), cache.expireTimeDelta, now);
          var s := CacherListing(CacherCacheOf(expired, id), CacherKey(env.value.value, chain, providers),
                                 table, now, jitter, old(ttl));
          r == (if s.result.Err? then Err(s.result.error) else Ok(Lookup(s.result.value, name)))
          && cache.State() == WithCacherCache(expired, id, s.after) && ttl == s.ttl
          && errors.erroredDirectories == MarkedAfterAll(s.handled, old(errors.erroredDirectories))
          && errors.botocoreErrorIgnored == BotoCoreAfterAll(s.handled, old(errors.botocoreErrorIgnored))
    {
      var env := EnvironToUse(environ, service, environment);
      if env.Err? {
        return Err(env.error);
      }
      if Skipped(directory, env.value) {
        return Ok(None);
      }
      var listing := GetListing(chain, providers, env.value.value, cache, now, table, jitter);
      if listing.Err? {
        return Err(listing.error);
      }
      r := Ok(Lookup(listing.value, name));
    }

    /** The loop of `cache_items`, on the live listing. */
    method ItemsToSend(listing: Listing, xs: seq<DirectoryItem>, dirPaths: string, providerNames: string,
                       environPath: string)
      returns (sent: seq<DirectoryItem>, after: Listing)
      ensures (sent, after) == ToSend(listing, xs, ttl, dirPaths, providerNames, environPath)
    {
      sent := [];
      after := listing;
      var i := 0;
      assert xs[i..] == xs;
      assert [] + ToSend(listing, xs, ttl, dirPaths, providerNames, environPath).0
        == ToSend(listing, xs, ttl, dirPaths, providerNames, environPath).0;
      while i < |xs|
        invariant 0 <= i <= |xs|
        invariant ToSend(listing, xs, ttl, dirPaths, providerNames, environPath) ==
          (sent + ToSend(after, xs[i..], ttl, dirPaths, providerNames, environPath).0,
           ToSend(after, xs[i..], ttl, dirPaths, providerNames, environPath).1)
      {
        assert xs[i..][1..] == xs[i + 1..];
        var x := xs[i];
        if NewOrChanged(after, x) && x.cacheable {
          var y := CachedItem(x, ttl, dirPaths, providerNames, environPath);
          ghost var rest := ToSend(after[y.name := y], xs[i + 1..], ttl, dirPaths, providerNames, environPath);
          assert sent + ([y] + rest.0) == (sent + [y]) + rest.0;
          sent := sent + [y];
          after := after[y.name := y];
        }
        i := i + 1;
      }
      assert sent + [] == sent;
    }

    /** `listing.add_item` on a listing kept in the cache: the kept listing for the key is replaced. */
    method StoreListing(key: ListingKey, listing: Listing, cache: LocalProviderCache<ProviderCache>, now: int)
      requires cache.Valid() && HoldsCacherCache(cache.State(), id)
      requires cache.lastReset >= now - cache.expireTimeDelta
      modifies cache
      ensures cache.Valid()
      ensures var c := CacherCacheOf(old(cache.State()), id);
        cache.State() == WithCacherCache(old(cache.State()), id, c.(cachedListings := c.cachedListings[key := listing]))
    {
      var c := CacherLocalCache(cache, id, now);
      CacherStoreCache(cache, id, now, c.(cachedListings := c.cachedListings[key := listing]));
    }

    /** The end of `cache_items`, from `if not items_to_send`; `putError` is what the put raised, if anything. */
    method SendItems(sent: seq<DirectoryItem>, environ: Directory, putError: Option<AwsError>)
      returns (r: Result<(), XconError>, writes: seq<Write>)
      modifies errors
      ensures var (res, ws, hs) := PutOutcome(sent, environ, old(errors.DirectoryHasError(environ)), putError);
        r == res && writes == ws
        && errors.erroredDirectories == MarkedAfterAll(hs, old(errors.erroredDirectories))
        && errors.botocoreErrorIgnored == BotoCoreAfterAll(hs, old(errors.botocoreErrorIgnored))
    {
      ghost var outcome := PutOutcome(sent, environ, errors.DirectoryHasError(environ), putError);
      HandledNone(errors.erroredDirectories, errors.botocoreErrorIgnored);
      if sent == [] || errors.DirectoryHasError(environ) {
        assert outcome == (Ok(()), [], []);
        return Ok(()), [];
      }
      var putTable := new ConfigDynamoTable();
      var put := putTable.PutItems(sent);
      writes := putTable.writes;
      assert writes == FreshPutWrites(sent);
      if put.Err? {
        assert outcome == (put, writes, []);
        return put, writes;
      }
      if putError.None? {
        assert outcome == (Ok(()), writes, []);
        return Ok(()), writes;
      }
      var e := putError.value;
      assert outcome.1 == writes && outcome.2 == [(e, environ)];
      HandledSingle(e, environ, errors.erroredDirectories, errors.botocoreErrorIgnored);
      var handled := HandleAwsException(e, errors, environ);
      r := if handled.Ok? then Ok(()) else Err(handled.error);
    }

    /**
     * `cache_items`: the items new to the listing for the chains, or changed
     * there, are added to it and written to the table, unless the environ has
     * had an error.
     */
    method CacheItems(items: seq<DirectoryItem>, providers: ProviderChain, chain: DirectoryChain, environ: Directory,
                      service: Option<string>, environment: Option<string>,
                      cache: LocalProviderCache<ProviderCache>, now: int, table: Table, jitter: int,
                      putError: Option<AwsError>)
      returns (r: Result<(), XconError>, writes: seq<Write>)
      requires cache.Valid() && HoldsCacherCache(cache.State(), id)
      requires 0 <= jitter <= ReadJitter
      modifies this, cache, errors
      ensures cache.Valid() && HoldsCacherCache(cache.State(), id)
      ensures var env := EnvironToUse(Some(environ), service, environment);
        env.Err? ==>
          r == Err(env.error) && writes == [] && cache.State() == old(cache.State()) && ttl == old(ttl)
          && errors.erroredDirectories == old(errors.erroredDirectories)
          && errors.botocoreErrorIgnored == old(errors.botocoreErrorIgnored)
      ensures var env := EnvironToUse(Some(environ), service, environment);
        env.Ok? ==>
          var e := env.value.value;
          var key := CacherKey(e, chain, providers);
          var expired := Expire(old(cache.State()), cache.expireTimeDelta, now);
          var s := CacherListing(CacherCacheOf(expired, id), key, table, now, jitter, old(ttl));
          ttl == s.ttl
          && (s.result.Err? ==>
                r == Err(s.result.error) && writes == [] && cache.State() == WithCacherCache(expired, id, s.after)
                && errors.erroredDirectories == MarkedAfterAll(s.handled, old(errors.erroredDirectories))
                && errors.botocoreErrorIgnored == BotoCoreAfterAll(s.handled, old(errors.botocoreErrorIgnored)))
          && (s.result.Ok? ==>
                var (sent, after) := ToSend(s.result.value, items, s.ttl, key.1, key.2, e.path);
                var hasError := e in MarkedAfterAll(s.handled, old(errors.erroredDirectories));
                var (res, ws, hs) := PutOutcome(sent, e, hasError, putError);
                r == res && writes == ws
                && cache.State() == WithCacherCache(expired, id, s.after.(cachedListings := s.after.cachedListings[key := after]))
                && errors.erroredDirectories == MarkedAfterAll(s.handled + hs, old(errors.erroredDirectories))
                && errors.botocoreErrorIgnored == BotoCoreAfterAll(s.handled + hs, old(errors.botocoreErrorIgnored)))
    {
      var env := EnvironToUse(Some(environ), service, environment);
      if env.Err? {
        return Err(env.error), [];
      }
      var e := env.value.value;
      var key := CacherKey(e, chain, providers);
      ghost var erroredBefore := errors.erroredDirectories;
      ghost var priorBefore := errors.botocoreErrorIgnored;
      ghost var expired := Expire(old(cache.State()), cache.expireTimeDelta, now);
      ghost var s := CacherListing(CacherCacheOf(expired, id), key, table, now, jitter, ttl);
      var listing := GetListing(chain, providers, e, cache, now, table, jitter);
      if listing.Err? {
        return Err(listing.error), [];
      }
      var sent, after := ItemsToSend(listing.value, items, key.1, key.2, e.path);
      StoreListing(key, after, cache, now);
      WithCacherCacheTwice(expired, id, s.after, s.after.(cachedListings := s.after.cachedListings[key := after]));
      ghost var out := PutOutcome(sent, e, e in errors.erroredDirectories, putError);
      r, writes := SendItems(sent, e, putError);
      FoldsConcat(s.handled, out.2, erroredBefore, priorBefore);
    }
  }
}
