/**
 * What the streams of `tap_googleads/streams.py` do with result rows and
 * with their children: `CustomerHierarchyStream.get_records` drops manager
 * accounts, the campaign performance streams pass rows through, and the two
 * parent streams derive the context handed to their children.
 */
module Records {
  import opened Wrappers
  import opened Json
  import opened Streams

  /** Why a stream's row generator stopped early. */
  datatype StreamError =
    | RowLookupFailed(cause: LookupError)   // `row["customerClient"]["manager"]` raised
    | RequestFailed(message: string)        // `request_records` raised

  /**
   * What `request_records` produces: the rows it yielded and, when it raised
   * after them, the error.
   */
  datatype Fetched = Fetched(rows: seq<Json>, failure: Option<string>)

  /** What a consumer of a row generator observes: the rows it yielded, then the error it raised, if any. */
  datatype Outcome = Outcome(records: seq<Json>, failure: Option<StreamError>)

  function RequestFailure(f: Option<string>): Option<StreamError> {
    match f
    case None => None
    case Some(m) => Some(RequestFailed(m))
  }

  /** `post_process` applied to every fetched row, in order. */
  function PostProcessAll(rows: seq<Json>, postProcess: Json -> Json): seq<Json> {
    seq(|rows|, i requires 0 <= i < |rows| => postProcess(rows[i]))
  }

  /** `row["customerClient"]["manager"] == True`, or the lookup error it raises. */
  function IsManagerRow(row: Json): (r: Result<bool, LookupError>)
    ensures r.Ok? <==> row.JObject? && "customerClient" in row.fields
                       && row.fields["customerClient"].JObject? && "manager" in row.fields["customerClient"].fields
    ensures r.Ok? ==> (r.value <==> EqualsTrue(row.fields["customerClient"].fields["manager"]))
  {
    match Get(row, "customerClient")
    case Err(e) => Err(e)
    case Ok(client) =>
      match Get(client, "manager")
      case Err(e) => Err(e)
      case Ok(flag) => Ok(EqualsTrue(flag))
  }

  /**
   * The generator of `CustomerHierarchyStream.get_records` over
   * post-processed rows: yield each non-manager row, skip each manager row,
   * and stop at the first row whose flag cannot be looked up; when every
   * row passes, the failure is the one `request_records` raised, if any.
   */
  function HierarchyOutcome(rows: seq<Json>, requestFailure: Option<StreamError>): Outcome
  {
    if rows == [] then Outcome([], requestFailure)
    else
      match IsManagerRow(rows[0])
      case Err(e) => Outcome([], Some(RowLookupFailed(e)))
      case Ok(true) => HierarchyOutcome(rows[1..], requestFailure)
      case Ok(false) =>
        var rest := HierarchyOutcome(rows[1..], requestFailure);
        Outcome([rows[0]] + rest.records, rest.failure)
  }

  /**
   * `CustomerHierarchyStream.get_records`: a loop over the fetched rows that
   * post-processes each, skips manager accounts and yields the rest.
   */
  method GetHierarchyRecords(fetched: Fetched, postProcess: Json -> Json) returns (out: Outcome)
    ensures out == HierarchyOutcome(PostProcessAll(fetched.rows, postProcess), RequestFailure(fetched.failure))
  {
    ghost var all := PostProcessAll(fetched.rows, postProcess);
    var records: seq<Json> := [];
    var i := 0;
    while i < |fetched.rows|
      invariant 0 <= i <= |fetched.rows|
      invariant HierarchyOutcome(all, RequestFailure(fetched.failure))
             == Outcome(records + HierarchyOutcome(all[i..], RequestFailure(fetched.failure)).records,
                        HierarchyOutcome(all[i..], RequestFailure(fetched.failure)).failure)
    {
      var row := postProcess(fetched.rows[i]);
      assert all[i..][0] == row && all[i..][1..] == all[i + 1..];
      match IsManagerRow(row)
      case Err(e) =>
        return Outcome(records, Some(RowLookupFailed(e)));
      case Ok(isManager) =>
        if !isManager {
          records := records + [row];
        }
      i := i + 1;
    }
    assert all[i..] == [];
    out := Outcome(records, RequestFailure(fetched.failure));
  }

  /** Index of the first row whose manager flag cannot be looked up, or the row count. */
  function FirstBadRow(rows: seq<Json>): (k: nat)
    ensures k <= |rows|
    ensures forall i :: 0 <= i < k ==> IsManagerRow(rows[i]).Ok?
    ensures k < |rows| ==> IsManagerRow(rows[k]).Err?
  {
    if rows == [] || IsManagerRow(rows[0]).Err? then 0 else 1 + FirstBadRow(rows[1..])
  }

  /** The rows whose manager flag is present and not True, in their original order. */
  function NonManagerRows(rows: seq<Json>): seq<Json>
  {
    if rows == [] then []
    else if IsManagerRow(rows[0]) == Ok(false) then [rows[0]] + NonManagerRows(rows[1..])
    else NonManagerRows(rows[1..])
  }

  /**
   * The hierarchy stream yields exactly the non-manager rows before the
   * first row without a manager flag, in order; it fails there with that
   * row's lookup error, and otherwise with the request's failure, if any.
   */
  lemma {:induction false} HierarchyOutcomeSpec(rows: seq<Json>, requestFailure: Option<StreamError>)
    ensures var out := HierarchyOutcome(rows, requestFailure);
      var k := FirstBadRow(rows);
      out.records == NonManagerRows(rows[..k])
      && out.failure == (if k < |rows| then Some(RowLookupFailed(IsManagerRow(rows[k]).error)) else requestFailure)
  {
    if rows != [] {
      HierarchyOutcomeSpec(rows[1..], requestFailure);
      if IsManagerRow(rows[0]).Ok? {
        assert rows[..FirstBadRow(rows)][1..] == rows[1..][..FirstBadRow(rows[1..])];
      }
    }
  }

  /** Every row NonManagerRows keeps is one of its input rows, with a manager flag that is not True. */
  lemma {:induction false} NonManagerRowsSound(rows: seq<Json>)
    ensures |NonManagerRows(rows)| <= |rows|
    ensures forall r :: r in NonManagerRows(rows) ==> r in rows && IsManagerRow(r) == Ok(false)
  {
    if rows != [] {
      NonManagerRowsSound(rows[1..]);
    }
  }

  /** NonManagerRows keeps every row whose manager flag is present and not True. */
  lemma {:induction false} NonManagerRowsComplete(rows: seq<Json>)
    ensures forall r :: r in rows && IsManagerRow(r) == Ok(false) ==> r in NonManagerRows(rows)
  {
    if rows != [] {
      NonManagerRowsComplete(rows[1..]);
      assert forall r :: r in rows ==> r == rows[0] || r in rows[1..];
    }
  }

  /** Filtering rows page by page gives the same rows as filtering them all at once. */
  lemma {:induction false} NonManagerRowsAppend(a: seq<Json>, b: seq<Json>)
    ensures NonManagerRows(a + b) == NonManagerRows(a) + NonManagerRows(b)
  {
    if a != [] {
      NonManagerRowsAppend(a[1..], b);
      assert (a + b)[1..] == a[1..] + b;
    } else {
      assert a + b == b;
    }
  }

  /**
   * The hierarchy stream never yields more rows than it fetched, never
   * yields a manager row, and yields every non-manager row when no row
   * lacks its flag.
   */
  lemma HierarchyRecordsAreNonManagers(rows: seq<Json>, requestFailure: Option<StreamError>)
    ensures var out := HierarchyOutcome(rows, requestFailure);
      |out.records| <= |rows|
      && (forall r :: r in out.records ==> r in rows && IsManagerRow(r) == Ok(false))
      && (FirstBadRow(rows) == |rows| ==>
            out.failure == requestFailure
            && forall r :: r in rows && IsManagerRow(r) == Ok(false) ==> r in out.records)
  {
    var k := FirstBadRow(rows);
    HierarchyOutcomeSpec(rows, requestFailure);
    NonManagerRowsSound(rows[..k]);
    assert forall r :: r in rows[..k] ==> r in rows;
    if k == |rows| {
      assert rows[..k] == rows;
      NonManagerRowsComplete(rows);
    }
  }

  /**
   * `CampaignPerformance.get_records` and `CampaignHourlyPerformance.get_records`:
   * yield every fetched row unchanged (no post-processing) and re-raise the
   * request's error after logging it.
   */
  method PassThroughRecords(fetched: Fetched) returns (out: Outcome)
    ensures out.records == fetched.rows
    ensures out.failure == RequestFailure(fetched.failure)
  {
    var records: seq<Json> := [];
    var i := 0;
    while i < |fetched.rows|
      invariant 0 <= i <= |fetched.rows|
      invariant records == fetched.rows[..i]
    {
      records := records + [fetched.rows[i]];
      i := i + 1;
    }
    out := Outcome(records, RequestFailure(fetched.failure));
  }

  // ---------------------------------------------------------------------
  // Child contexts.

  /** A context value: a string, a list of strings, or None. */
  datatype ContextValue = Text(s: string) | TextList(items: seq<string>) | Null

  /** A context dictionary handed to child streams. */
  type Context = map<string, ContextValue>

  /** Why a child context could not be built. */
  datatype ContextError =
    | CustomerIdMissing   // TypeError: "customers/" + None

  /** `{"customer_id": config.get("customer_id")}`: the configured id, or None. */
  function ConfiguredCustomerContext(config: Config): Context {
    match config.customerId
    case None => map["customer_id" := Null]
    case Some(id) => map["customer_id" := Text(id)]
  }

  /**
   * `AccessibleCustomers.get_child_context`: one resource name built from
   * the configured customer id, whatever the record; Python raises
   * TypeError when no customer id is configured.
   */
  function AccessibleCustomersChildContext(config: Config, record: Json, context: Option<Context>)
    : (r: Result<Context, ContextError>)
    ensures r.Err? <==> config.customerId.None?
    ensures r.Err? ==> r.error == CustomerIdMissing
    ensures r.Ok? ==> r.value.Keys == {"resourceNames"}
                      && r.value["resourceNames"].TextList?
                      && |r.value["resourceNames"].items| == 1
                      && |r.value["resourceNames"].items[0]| >= 10
                      && r.value["resourceNames"].items[0][..10] == "customers/"
                      && r.value["resourceNames"].items[0][10..] == config.customerId.value
  {
    match config.customerId
    case None => Err(CustomerIdMissing)
    case Some(id) =>
      var name := "customers/" + id;
      assert name[..10] == "customers/" && name[10..] == id;
      Ok(map["resourceNames" := TextList([name])])
  }

  /**
   * `CustomerHierarchyStream.get_child_context`: the configured customer id
   * under `customer_id` (None when it is not configured), whatever the record.
   */
  function HierarchyChildContext(config: Config, record: Json, context: Option<Context>): (r: Context)
    ensures r.Keys == {"customer_id"}
    ensures config.customerId.None? ==> r["customer_id"] == Null
    ensures config.customerId.Some? ==> r["customer_id"] == Text(config.customerId.value)
  {
    ConfiguredCustomerContext(config)
  }

  /** The record and parent context play no part in either stream's child context. */
  lemma ChildContextsIgnoreRecord(config: Config, r1: Json, r2: Json, c1: Option<Context>, c2: Option<Context>)
    ensures HierarchyChildContext(config, r1, c1) == HierarchyChildContext(config, r2, c2)
    ensures AccessibleCustomersChildContext(config, r1, c1) == AccessibleCustomersChildContext(config, r2, c2)
  {
  }

  /** The contexts the hierarchy stream derives from its records, in order. */
  function HierarchyChildContexts(config: Config, records: seq<Json>, context: Option<Context>): (r: seq<Context>)
    ensures |r| == |records|
  {
    if records == [] then []
    else [HierarchyChildContext(config, records[0], context)] + HierarchyChildContexts(config, records[1..], context)
  }

  /**
   * However many non-manager rows the hierarchy yields, their contexts
   * collapse to one: none when it yields no row, otherwise the single
   * configured-customer context.
   */
  lemma {:induction false} HierarchyContextsCollapse(config: Config, records: seq<Json>, context: Option<Context>)
    ensures var cs := set c | c in HierarchyChildContexts(config, records, context);
      cs == if records == [] then {} else {ConfiguredCustomerContext(config)}
  {
    if records != [] {
      HierarchyContextsCollapse(config, records[1..], context);
      var cs := HierarchyChildContexts(config, records, context);
      assert cs == [HierarchyChildContext(config, records[0], context)]
                   + HierarchyChildContexts(config, records[1..], context);
    }
  }

  /**
   * A hierarchy page of a manager root and one client account (id 123)
   * yields exactly that client's row and one child context.
   */
  lemma ManagerRootExample(config: Config)
    ensures var root := JObject(map["customerClient" := JObject(map["level" := JInt(0), "manager" := JBool(true)])]);
      var client := JObject(map["customerClient" := JObject(map["level" := JInt(1), "manager" := JBool(false),
                                                                "id" := JStr("123")])]);
      var out := HierarchyOutcome([root, client], None);
      out == Outcome([client], None)
      && (set c | c in HierarchyChildContexts(config, out.records, None)) == {ConfiguredCustomerContext(config)}
  {
    var root := JObject(map["customerClient" := JObject(map["level" := JInt(0), "manager" := JBool(true)])]);
    var client := JObject(map["customerClient" := JObject(map["level" := JInt(1), "manager" := JBool(false),
                                                              "id" := JStr("123")])]);
    assert root.fields["customerClient"].fields["manager"] == JBool(true);
    assert IsManagerRow(root) == Ok(true);
    assert client.fields["customerClient"].fields["manager"] == JBool(false);
    assert IsManagerRow(client) == Ok(false);
    assert [root, client][1..] == [client];
    assert [client][1..] == [];
    assert HierarchyOutcome([client], None) == Outcome([client], None);
    HierarchyContextsCollapse(config, [client], None);
  }
}
