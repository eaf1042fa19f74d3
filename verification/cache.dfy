/** The content cache: paginated queries on the content table (by service, by service
    and region, by ARN), and the put and delete operations on the table keyed by ARN.
    The table's answers to queries, and the ClientErrors its calls raise, are inputs. */
module ContentCache {
  import opened Values
  import opened Text

  /** A table item, and a `LastEvaluatedKey` / `ExclusiveStartKey`. */
  type Item = Dict
  type StartKey = Dict

  const ServiceRegionIndex := "ServiceRegionIndex"

  /** The key condition of a query. */
  datatype KeyCondition =
    | ServiceIs(service: string)
    | ServiceAndRegionAre(service: string, region: string)
    | ArnIs(arn: string)

  /** A query: the index it runs on (none for the table's own key) and its key condition. */
  datatype Query = Query(index: Option<string>, condition: KeyCondition)

  /** One call to `query`, with the `ExclusiveStartKey` it passes, if any. */
  datatype Request = Request(query: Query, exclusiveStartKey: Option<StartKey>)

  /** The table's answer to one call: a page of items with its `LastEvaluatedKey`, or a ClientError. */
  datatype Response =
    | Page(items: seq<Item>, lastEvaluatedKey: Option<StartKey>)
    | Failed(message: string)

  /** What an entry point returns: a list of items, or `{"message": ...}`. */
  datatype Reply = Items(items: seq<Item>) | Message(text: string)

  /** A response after which no further request is made. */
  predicate Final(r: Response)
  {
    r.Failed? || r.lastEvaluatedKey.None?
  }

  function PageItems(r: Response): seq<Item>
  {
    if r.Page? then r.items else []
  }

  /** The items of the given responses, concatenated in fetch order. */
  function Flatten(responses: seq<Response>): seq<Item>
  {
    if responses == [] then []
    else Flatten(responses[..|responses| - 1]) + PageItems(responses[|responses| - 1])
  }

  /** Concatenating the pages of two runs of responses is concatenating their items. */
  lemma {:induction false} FlattenAppend(a: seq<Response>, b: seq<Response>)
    ensures Flatten(a + b) == Flatten(a) + Flatten(b)
    decreases |b|
  {
    if b == [] {
      assert a + b == a;
    } else {
      var last := b[|b| - 1];
      assert (a + b)[..|a + b| - 1] == a + b[..|b| - 1];
      FlattenAppend(a, b[..|b| - 1]);
    }
  }

  /** The flattened result is the items before page k, page k's items, and the items after it. */
  lemma FlattenAround(responses: seq<Response>, k: nat)
    requires k < |responses|
    ensures Flatten(responses) == Flatten(responses[..k]) + PageItems(responses[k]) + Flatten(responses[k + 1..])
  {
    var upTo, after := responses[..k + 1], responses[k + 1..];
    calc {
      Flatten(responses);
      { assert responses == upTo + after; }
      Flatten(upTo + after);
      { FlattenAppend(upTo, after); }
      Flatten(upTo) + Flatten(after);
      { assert upTo[..k] == responses[..k]; }
      Flatten(responses[..k]) + PageItems(responses[k]) + Flatten(after);
    }
  }

  /** Fetching one more page appends its items. */
  lemma FlattenStep(responses: seq<Response>, i: nat)
    requires i < |responses|
    ensures Flatten(responses[..i + 1]) == Flatten(responses[..i]) + PageItems(responses[i])
  {
    assert responses[..i + 1][..i] == responses[..i];
  }

  /** The items of the first `n` responses, gathered one page at a time: the
      flattened items of the pages fetched. */
  function Collected(responses: seq<Response>, n: nat): (r: seq<Item>)
    requires n <= |responses|
    ensures r == Flatten(responses[..n])
  {
    if n == 0 then
      assert responses[..0] == [];
      []
    else
      FlattenStep(responses, n - 1);
      Collected(responses, n - 1) + PageItems(responses[n - 1])
  }

  /** `requests` are the first calls of a paginated query: all carry the query, the
      first has no start key, each later one passes the `LastEvaluatedKey` of the page
      before it, and every answer but the latest asked for another page. */
  ghost predicate CallsSoFar(query: Query, answers: seq<Response>, requests: seq<Request>)
  {
    1 <= |requests| <= |answers| &&
    (forall j :: 0 <= j < |requests| ==> requests[j].query == query) &&
    requests[0].exclusiveStartKey.None? &&
    (forall j :: 0 < j < |requests| ==>
       answers[j - 1].Page? && requests[j].exclusiveStartKey == answers[j - 1].lastEvaluatedKey) &&
    (forall j :: 0 <= j < |requests| - 1 ==> !Final(answers[j]))
  }

  /** A page with a `LastEvaluatedKey` leads to one more call, starting from that key. */
  lemma CallsExtend(query: Query, answers: seq<Response>, requests: seq<Request>, next: Request)
    requires CallsSoFar(query, answers, requests) && |requests| < |answers|
    requires !Final(answers[|requests| - 1])
    requires next == Request(query, answers[|requests| - 1].lastEvaluatedKey)
    ensures CallsSoFar(query, answers, requests + [next])
  {
    var more := requests + [next];
    assert forall j :: 0 <= j < |requests| ==> more[j] == requests[j];
    assert forall j :: 0 <= j < |more| ==> more[j].query == query;
    forall j | 0 < j < |more|
      ensures answers[j - 1].Page? && more[j].exclusiveStartKey == answers[j - 1].lastEvaluatedKey
    {
      if j < |requests| {
        assert more[j] == requests[j];
      }
    }
    assert more[0] == requests[0];
    assert forall j :: 0 <= j < |more| - 1 ==> !Final(answers[j]);
  }

  /** The result of a paginated query run against the table's answers: `requests` are
      the calls made and `reply` what is returned. Paging stops exactly at the first
      answer without a `LastEvaluatedKey`; the reply is every page's items in fetch
      order, or the message of the ClientError. */
  ghost predicate PagedResult(query: Query, answers: seq<Response>, reply: Reply, requests: seq<Request>)
  {
    CallsSoFar(query, answers, requests) &&
    Final(answers[|requests| - 1]) &&
    (answers[|requests| - 1].Failed? ==> reply == Message(answers[|requests| - 1].message)) &&
    (answers[|requests| - 1].Page? ==> reply == Items(Collected(answers, |requests|)))
  }

  /** The calls made and the reply are determined by the query and the table's answers:
      two runs against the same answers make the same calls and return the same reply. */
  lemma PagedResultUnique(query: Query, answers: seq<Response>,
                          reply1: Reply, requests1: seq<Request>, reply2: Reply, requests2: seq<Request>)
    requires PagedResult(query, answers, reply1, requests1)
    requires PagedResult(query, answers, reply2, requests2)
    ensures requests1 == requests2 && reply1 == reply2
  {
  }

  /** Appending the next page's items extends the gathered items by one page. */
  lemma CollectedNext(answers: seq<Response>, n: nat, items: seq<Item>)
    requires n < |answers| && answers[n].Page? && items == Collected(answers, n)
    ensures items + answers[n].items == Collected(answers, n + 1)
  {
  }

  /** The query-and-page loop shared by the three query entry points. `answers[i]` is
      the table's answer to the i-th call; the table eventually stops paging or fails. */
  method Paginate(query: Query, answers: seq<Response>) returns (reply: Reply, requests: seq<Request>)
    requires exists n :: 0 <= n < |answers| && Final(answers[n])
    ensures PagedResult(query, answers, reply, requests)
  {
    ghost var last :| 0 <= last < |answers| && Final(answers[last]);
    var i := 0;
    requests := [Request(query, None)];
    if answers[0].Failed? {
      return Message(answers[0].message), requests;
    }
    var items := answers[0].items;
    while answers[i].lastEvaluatedKey.Some?
      invariant 0 <= i <= last && answers[i].Page?
      invariant |requests| == i + 1 && CallsSoFar(query, answers, requests)
      invariant items == Collected(answers, |requests|)
      decreases last - i
    {
      var next := Request(query, answers[i].lastEvaluatedKey);
      CallsExtend(query, answers, requests, next);
      requests := requests + [next];
      i := i + 1;
      if answers[i].Failed? {
        return Message(answers[i].message), requests;
      }
      CollectedNext(answers, i, items);
      items := items + answers[i].items;
    }
    reply := Items(items);
  }

  /** `cached_by_service`: the items of one service, from the service-and-region index. */
  method CachedByService(service: string, answers: seq<Response>) returns (reply: Reply, requests: seq<Request>)
    requires exists n :: 0 <= n < |answers| && Final(answers[n])
    ensures PagedResult(Query(Some(ServiceRegionIndex), ServiceIs(service)), answers, reply, requests)
  {
    reply, requests := Paginate(Query(Some(ServiceRegionIndex), ServiceIs(service)), answers);
  }

  /** `cached_by_service_region`: both path arguments are URL-decoded before the query. */
  method CachedByServiceRegion(service: string, region: string, answers: seq<Response>)
    returns (reply: Reply, requests: seq<Request>)
    requires exists n :: 0 <= n < |answers| && Final(answers[n])
    ensures PagedResult(Query(Some(ServiceRegionIndex), ServiceAndRegionAre(Unquote(service), Unquote(region))),
                        answers, reply, requests)
  {
    var s := Unquote(service);
    var r := Unquote(region);
    reply, requests := Paginate(Query(Some(ServiceRegionIndex), ServiceAndRegionAre(s, r)), answers);
  }

  /** `cached_by_arn`: the ARN is URL-decoded and queried on the table's own key. */
  method CachedByArn(arn: string, answers: seq<Response>) returns (reply: Reply, requests: seq<Request>)
    requires exists n :: 0 <= n < |answers| && Final(answers[n])
    ensures PagedResult(Query(None, ArnIs(Unquote(arn))), answers, reply, requests)
  {
    var a := Unquote(arn);
    reply, requests := Paginate(Query(None, ArnIs(a)), answers);
  }

  // ================================================================ put and delete

  /** `int(entry["expires"])` and `int(entry["updated"])` succeed. */
  predicate Coercible(e: Item)
  {
    "expires" in e && "updated" in e && IntOf(e["expires"]).Some? && IntOf(e["updated"]).Some?
  }

  /** The entry carries its table key, a string `arn`. */
  predicate Keyed(e: Item)
  {
    "arn" in e && e["arn"].Str?
  }

  function ArnOf(e: Item): string
    requires Keyed(e)
  {
    e["arn"].s
  }

  /** The numeric-type workaround: `expires` and `updated` made integers, every other
      field as sent. */
  function Coerce(e: Item): (r: Item)
    requires Coercible(e)
    ensures r.Keys == e.Keys
    ensures r["expires"] == Num(IntOf(e["expires"]).value) && r["updated"] == Num(IntOf(e["updated"]).value)
    ensures forall k :: k in e && k != "expires" && k != "updated" ==> r[k] == e[k]
  {
    e["expires" := Num(IntOf(e["expires"]).value)]["updated" := Num(IntOf(e["updated"]).value)]
  }

  /** The table after the coerced entries are put one after another, in list order. */
  function Saved(rows: map<string, Item>, entries: seq<Item>): (r: map<string, Item>)
    requires forall i :: 0 <= i < |entries| ==> Coercible(entries[i]) && Keyed(entries[i])
    ensures forall k :: k in rows ==> k in r
    ensures forall i :: 0 <= i < |entries| ==> ArnOf(entries[i]) in r
  {
    if entries == [] then rows
    else
      var last := entries[|entries| - 1];
      Saved(rows, entries[..|entries| - 1])[ArnOf(last) := Coerce(last)]
  }

  /** The position of the last entry keyed `k`, or -1 when there is none. */
  function LastWithKey(entries: seq<Item>, k: string): (i: int)
    requires forall j :: 0 <= j < |entries| ==> Keyed(entries[j])
    ensures -1 <= i < |entries|
    ensures i >= 0 ==> ArnOf(entries[i]) == k
    ensures forall j :: i < j < |entries| ==> ArnOf(entries[j]) != k
  {
    if entries == [] then -1
    else if ArnOf(entries[|entries| - 1]) == k then |entries| - 1
    else LastWithKey(entries[..|entries| - 1], k)
  }

  /** Later entries win: a key holds the coerced last entry written under it, and any
      key no entry names keeps its old row (or stays absent). */
  lemma {:induction false} SavedLookup(rows: map<string, Item>, entries: seq<Item>, k: string)
    requires forall i :: 0 <= i < |entries| ==> Coercible(entries[i]) && Keyed(entries[i])
    ensures LastWithKey(entries, k) >= 0 ==>
      k in Saved(rows, entries) && Saved(rows, entries)[k] == Coerce(entries[LastWithKey(entries, k)])
    ensures LastWithKey(entries, k) < 0 ==>
      (k in Saved(rows, entries) <==> k in rows) && (k in rows ==> Saved(rows, entries)[k] == rows[k])
  {
    if entries != [] {
      var front := entries[..|entries| - 1];
      SavedLookup(rows, front, k);
      if ArnOf(entries[|entries| - 1]) != k {
        assert LastWithKey(entries, k) == LastWithKey(front, k);
        if LastWithKey(front, k) >= 0 {
          assert front[LastWithKey(front, k)] == entries[LastWithKey(front, k)];
        }
      }
    }
  }

  /** Every row the put writes has integer `expires` and `updated`. */
  lemma SavedRowsAreNumeric(rows: map<string, Item>, entries: seq<Item>, k: string)
    requires forall i :: 0 <= i < |entries| ==> Coercible(entries[i]) && Keyed(entries[i])
    requires LastWithKey(entries, k) >= 0
    ensures k in Saved(rows, entries)
    ensures var row := Saved(rows, entries)[k];
      "expires" in row && row["expires"].Num? && "updated" in row && row["updated"].Num?
  {
  }

  /** A ClientError raised by the put of entry `at`. */
  datatype PutFailure = PutFailure(at: nat, message: string)

  /** How many entries are written before the run stops. */
  function Written(count: nat, failure: Option<PutFailure>): nat
  {
    if failure.Some? && failure.value.at < count then failure.value.at else count
  }

  /** The content table, keyed by ARN. */
  class ContentTable {
    var rows: map<string, Item>

    /** Every row is stored under its own `arn`. */
    ghost predicate Valid()
      reads this
    {
      forall k :: k in rows ==> "arn" in rows[k] && rows[k]["arn"] == Str(k)
    }

    constructor (initial: map<string, Item>)
      requires forall k :: k in initial ==> "arn" in initial[k] && initial[k]["arn"] == Str(k)
      ensures Valid() && rows == initial
    {
      rows := initial;
    }

    /** `put_cached_data`: each entry in list order is coerced and put under its ARN.
        A ClientError on one put stops the run: the entries before it stay written and
        its message is returned. A put the table rejects (e.g. an entry without its key)
        is such a failure. */
    method PutCachedData(entries: seq<Item>, failure: Option<PutFailure>) returns (reply: Reply)
      requires Valid()
      requires forall i :: 0 <= i < |entries| && (failure.None? || i <= failure.value.at) ==> Coercible(entries[i])
      requires forall i :: 0 <= i < Written(|entries|, failure) ==> Keyed(entries[i])
      modifies this
      ensures Valid()
      ensures rows == Saved(old(rows), entries[..Written(|entries|, failure)])
      ensures reply == if Written(|entries|, failure) < |entries| then Message(failure.value.message)
                       else Message("saved")
    {
      var i := 0;
      while i < |entries|
        invariant 0 <= i <= Written(|entries|, failure)
        invariant Valid()
        invariant rows == Saved(old(rows), entries[..i])
      {
        var entry := entries[i];
        entry := entry["expires" := Num(IntOf(entry["expires"]).value)];
        entry := entry["updated" := Num(IntOf(entry["updated"]).value)];
        if failure.Some? && failure.value.at == i {
          return Message(failure.value.message);
        }
        assert entry == Coerce(entries[i]);
        assert entries[..i + 1][..i] == entries[..i];
        rows := rows[ArnOf(entry) := entry];
        i := i + 1;
      }
      reply := Message("saved");
    }

    /** `delete_cached_data`: the row keyed by the URL-decoded ARN is removed and no other
        row changes; a ClientError leaves the table as it was and returns its message. */
    method DeleteCachedData(arn: string, failure: Option<string>) returns (reply: Reply)
      requires Valid()
      modifies this
      ensures Valid()
      ensures failure.None? ==> rows == old(rows) - {Unquote(arn)} && reply == Message("deleted")
      ensures failure.None? ==>
        Unquote(arn) !in rows && (forall k :: k in old(rows) && k != Unquote(arn) ==> k in rows && rows[k] == old(rows)[k])
      ensures failure.Some? ==> rows == old(rows) && reply == Message(failure.value)
    {
      var key := Unquote(arn);
      if failure.Some? {
        return Message(failure.value);
      }
      rows := rows - {key};
      reply := Message("deleted");
    }
  }
}
