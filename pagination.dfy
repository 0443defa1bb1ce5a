/**
 * The `get_E_iterator` generators: page k is requested with
 * `get_E_list(limit=BATCH_SIZE, offset=k*BATCH_SIZE)`, its items are yielded
 * in order, and the loop stops on the first empty page only.
 *
 * A list call is an oracle `fetch` from the call's arguments to its outcome:
 * the decoded page, or the exception `_request` raised.
 */
module Pagination {
  import opened Wrappers
  import opened Json
  import opened Transport
  import opened Resources

  /** The list call for page `k`: a GET of `E/` for 250 records from offset 250*k. */
  function PageCall(e: Entity, k: nat): (r: Call)
    ensures r.verb == "get" && r.resource == e.plural + "/" && r.data == NoData && r.headers.None?
    ensures r.params == Some(map["size" := Int(250), "from" := Int(250 * k)])
  {
    ListCall(e, BATCH_SIZE, k * BATCH_SIZE)
  }

  /**
   * The list call the client really makes: `_request` followed by decoding
   * the reply with `decodePage`, which stands for `response.json()`.
   */
  function ListFetch(c: Client, send: HttpRequest -> Response, decodePage: string -> seq<Value>)
    : (f: Call -> Outcome<seq<Value>>)
    ensures forall call :: f(call).Raised? <==> !send(Prepare(c, call)).ok
    ensures forall call :: f(call).Raised? ==> f(call).error == CheckForErrors(send(Prepare(c, call))).value
    ensures forall call :: f(call).Returned? ==> f(call).value == decodePage(send(Prepare(c, call)).text)
  {
    var f := (call: Call) =>
      match Respond(c, send, call)
      case Raised(err) => Raised(err)
      case Returned(resp) => Returned(decodePage(resp.text));
    assert forall call :: f(call) == match Respond(c, send, call)
      case Raised(err) => Raised(err)
      case Returned(resp) => Returned(decodePage(resp.text));
    f
  }

  /** A list call ends the iteration when it raises or returns an empty page. */
  predicate Ends(o: Outcome<seq<Value>>) {
    o.Raised? || o.value == []
  }

  /** The items a list call yields: its page, or nothing when it raised. */
  function ItemsOf(o: Outcome<seq<Value>>): seq<Value> {
    if o.Returned? then o.value else []
  }

  /** The exception a list call raised, if any. */
  function ErrorOf(o: Outcome<seq<Value>>): Option<ClientError> {
    if o.Raised? then Some(o.error) else None
  }

  /** The items of pages 0 to n-1, concatenated in page order. */
  function Collected(e: Entity, fetch: Call -> Outcome<seq<Value>>, n: nat): seq<Value>
    decreases n
  {
    if n == 0 then [] else Collected(e, fetch, n - 1) + ItemsOf(fetch(PageCall(e, n - 1)))
  }

  /** `for item in page: yield item`: the page's items follow those already yielded, in order. */
  method YieldPage(yielded: seq<Value>, page: seq<Value>) returns (items: seq<Value>)
    ensures |items| == |yielded| + |page|
    ensures items[..|yielded|] == yielded && items[|yielded|..] == page
  {
    items := yielded;
    for i := 0 to |page|
      invariant items == yielded + page[..i]
    {
      items := items + [page[i]];
    }
    assert page[..|page|] == page;
  }

  /** The list calls for pages 0 to n-1, in order. */
  function PageCalls(e: Entity, n: nat): (calls: seq<Call>)
    ensures |calls| == n && forall k :: 0 <= k < n ==> calls[k] == PageCall(e, k)
  {
    if n == 0 then [] else PageCalls(e, n - 1) + [PageCall(e, n - 1)]
  }

  /** None of pages 0 to n-1 ends the iteration. */
  predicate NoneEnds(e: Entity, fetch: Call -> Outcome<seq<Value>>, n: nat)
    decreases n
  {
    n == 0 || (NoneEnds(e, fetch, n - 1) && !Ends(fetch(PageCall(e, n - 1))))
  }

  lemma {:induction false} NoneEndsAll(e: Entity, fetch: Call -> Outcome<seq<Value>>, n: nat)
    requires NoneEnds(e, fetch, n)
    ensures forall k :: 0 <= k < n ==> !Ends(fetch(PageCall(e, k)))
    decreases n
  {
    if n > 0 {
      NoneEndsAll(e, fetch, n - 1);
    }
  }

  /**
   * Runs the iterator to its end. `bound` is a page known to end it (an empty
   * page or an exception); without one the source loops for ever. Only the
   * contract and the termination argument read `bound`. It returns
   * the items yielded, the list calls made, and the exception that ended the
   * iteration, if one did.
   */
  method Iterate(e: Entity, fetch: Call -> Outcome<seq<Value>>, bound: nat)
    returns (items: seq<Value>, calls: seq<Call>, failure: Option<ClientError>)
    requires Ends(fetch(PageCall(e, bound)))
    ensures 1 <= |calls| <= bound + 1
    ensures forall k :: 0 <= k < |calls| ==> calls[k] == PageCall(e, k)
    ensures forall k :: 0 <= k < |calls| - 1 ==> !Ends(fetch(PageCall(e, k)))
    ensures Ends(fetch(PageCall(e, |calls| - 1)))
    ensures items == Collected(e, fetch, |calls| - 1)
    ensures failure == ErrorOf(fetch(PageCall(e, |calls| - 1)))
  {
    items, calls, failure := [], [], None;
    var page: nat := 0;
    while true
      invariant page <= bound
      invariant calls == PageCalls(e, page)
      invariant NoneEnds(e, fetch, page)
      invariant items == Collected(e, fetch, page)
      decreases bound - page
    {
      var call := PageCall(e, page);
      calls := calls + [call];
      var result := fetch(call);
      if result.Returned? {
        items := YieldPage(items, result.value);
      }
      assert result == fetch(PageCall(e, page));
      if Ends(result) {
        failure := ErrorOf(result);
        break;
      }
      assert items == Collected(e, fetch, page + 1);
      page := page + 1;
    }
    assert calls == PageCalls(e, page + 1) && |calls| - 1 == page;
    NoneEndsAll(e, fetch, page);
    assert Ends(fetch(PageCall(e, page))) && failure == ErrorOf(fetch(PageCall(e, page)));
  }

  /** The offset of page k is k * BATCH_SIZE, and every page asks for BATCH_SIZE items. */
  lemma PageCallOffsets(c: Client, e: Entity, k: nat)
    ensures Prepare(c, PageCall(e, k)).params == Some(map["size" := Int(250), "from" := Int(250 * k)])
    ensures Prepare(c, PageCall(e, k)).url == Url(c.endpoint, e.plural + "/")
  {
  }

  /** Earlier pages come first: page k's items sit right after those of pages 0 to k-1. */
  lemma {:induction false} CollectedOrder(e: Entity, fetch: Call -> Outcome<seq<Value>>, k: nat, n: nat)
    requires k < n
    ensures var before := Collected(e, fetch, k);
      var page := ItemsOf(fetch(PageCall(e, k)));
      && |before| + |page| <= |Collected(e, fetch, n)|
      && Collected(e, fetch, n)[..|before|] == before
      && Collected(e, fetch, n)[|before|..|before| + |page|] == page
    decreases n - k
  {
    var before := Collected(e, fetch, k);
    var page := ItemsOf(fetch(PageCall(e, k)));
    if n == k + 1 {
      assert Collected(e, fetch, n) == before + page;
    } else {
      CollectedOrder(e, fetch, k, n - 1);
      var prefix := Collected(e, fetch, n - 1);
      assert Collected(e, fetch, n) == prefix + ItemsOf(fetch(PageCall(e, n - 1)));
      assert Collected(e, fetch, n)[..|prefix|] == prefix;
    }
  }

  /**
   * A full page, then a short page of three, then an empty page: the iterator
   * makes three list calls, at offsets 0, 250 and 500, and yields 253 items.
   */
  method ThreePages(e: Entity, full: seq<Value>, short: seq<Value>)
    returns (items: seq<Value>, calls: seq<Call>)
    requires |full| == BATCH_SIZE && |short| == 3
    ensures |calls| == 3
    ensures forall k :: 0 <= k < 3 ==> calls[k].params == Some(map["size" := Int(250), "from" := Int(250 * k)])
    ensures items == full + short && |items| == 253
  {
    var fetch := (c: Call) =>
      if c == PageCall(e, 0) then Returned(full)
      else if c == PageCall(e, 1) then Returned(short)
      else Returned([]);
    assert PageCall(e, 1).params.value["from"] == Int(250);
    assert PageCall(e, 2).params.value["from"] == Int(500);
    var failure;
    items, calls, failure := Iterate(e, fetch, 2);
    assert !Ends(fetch(PageCall(e, 0))) && !Ends(fetch(PageCall(e, 1)));
    assert |calls| == 3;
  }
}
