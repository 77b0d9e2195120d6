/** Reading subscribed pulses from the OTX feed, page by page, following the
    `next` link the server supplies (`get_pulse_generator`, `send_otx_get`). */
module Feed {
  import opened Collections
  import opened Text

  /** One observable in a pulse: its feed type name and its value. */
  datatype IndicatorRecord = IndicatorRecord(indicatorType: string, value: string)

  /** A pulse as the feed returns it, already parsed. */
  datatype Pulse = Pulse(
    id: string,
    name: string,
    description: string,
    created: string,
    references: seq<string>,
    tags: seq<string>,
    indicators: seq<IndicatorRecord>)

  /** A parsed page: `results` is None when the key is absent; `next` is
      None when the key is absent or null. */
  datatype Page = Page(results: Option<seq<Pulse>>, next: Option<string>)

  /** The server's answer to one GET. */
  datatype Response = Response(status: int, page: Page)

  /** `send_otx_get`: the body of a 200 response, nothing otherwise. */
  function SendOtxGet(r: Response): Option<Page>
  {
    if r.status == 200 then Some(r.page) else None
  }

  /** The answer to the k-th GET of a run. The feed is given as the finite
      list of answers; a GET past its end is answered as unavailable. */
  function Fetch(feed: seq<Response>, k: nat): Response
  {
    if k < |feed| then feed[k] else Response(0, Page(None, None))
  }

  /** The `next` key is present and truthy (neither null nor empty). */
  predicate HasNext(page: Page)
  {
    page.next.Some? && page.next.value != ""
  }

  /** The pulses of a page; none when it has no `results`. */
  function PageResults(page: Page): seq<Pulse>
  {
    if page.results.Some? then page.results.value else []
  }

  /** The first request: `{otx_url}/pulses/subscribed?`, the optional
      `modified_since=...&`, then `limit=10&page=1`. */
  function FirstUrl(otxUrl: string, modifiedSince: Option<string>): string
  {
    otxUrl + "/pulses/subscribed?"
      + (if modifiedSince.Some? then "modified_since=" + modifiedSince.value + "&" else "")
      + "limit=10&page=1"
  }

  /** The pulses yielded from the k-th answer on, given that it was fetched. */
  function YieldedFrom(feed: seq<Response>, k: nat): seq<Pulse>
    decreases |feed| - k
  {
    if k < |feed| && feed[k].status == 200 then
      PageResults(feed[k].page) + (if HasNext(feed[k].page) then YieldedFrom(feed, k + 1) else [])
    else []
  }

  /** Every pulse a run over `feed` yields, in order. */
  function Yielded(feed: seq<Response>): seq<Pulse>
  {
    YieldedFrom(feed, 0)
  }

  /** The `next` links followed from the k-th answer on. */
  function FollowedFrom(feed: seq<Response>, k: nat): seq<string>
    decreases |feed| - k
  {
    if k < |feed| && feed[k].status == 200 && HasNext(feed[k].page) then
      [feed[k].page.next.value] + FollowedFrom(feed, k + 1)
    else []
  }

  /** Every URL a run requests, in order. */
  function RequestedUrls(otxUrl: string, modifiedSince: Option<string>, feed: seq<Response>): seq<string>
  {
    [FirstUrl(otxUrl, modifiedSince)] + FollowedFrom(feed, 0)
  }

  /** Builds the first request's URL by appending the query arguments one by
      one and joining them with '&'. */
  method FirstRequest(otxUrl: string, modifiedSince: Option<string>) returns (url: string)
    ensures url == FirstUrl(otxUrl, modifiedSince)
  {
    var args: seq<string> := [];
    if modifiedSince.Some? {
      args := args + ["modified_since=" + modifiedSince.value];
    }
    args := args + ["limit=10"];
    args := args + ["page=1"];
    var requestArgs := "?" + Join(args, '&');
    assert Join(["limit=10", "page=1"], '&') == "limit=10&page=1";
    if modifiedSince.Some? {
      assert args[1..] == ["limit=10", "page=1"];
    }
    url := otxUrl + "/pulses/subscribed" + requestArgs;
  }

  /** One turn of the generator's loop, on the k-th answer: its results,
      then whatever its `next` link leads to. */
  lemma GeneratorStep(feed: seq<Response>, k: nat, pulses: seq<Pulse>, requested: seq<string>)
    requires k < |feed| && feed[k].status == 200
    ensures pulses + YieldedFrom(feed, k)
      == (pulses + PageResults(feed[k].page)) + (if HasNext(feed[k].page) then YieldedFrom(feed, k + 1) else [])
    ensures HasNext(feed[k].page) ==>
      requested + FollowedFrom(feed, k) == (requested + [feed[k].page.next.value]) + FollowedFrom(feed, k + 1)
    ensures !HasNext(feed[k].page) ==> FollowedFrom(feed, k) == []
  {
  }

  /** The generator, run to completion: the pulses it yields and the URLs it
      requests. */
  method PulseGenerator(otxUrl: string, modifiedSince: Option<string>, feed: seq<Response>)
    returns (pulses: seq<Pulse>, requested: seq<string>)
    ensures pulses == Yielded(feed)
    ensures requested == RequestedUrls(otxUrl, modifiedSince, feed)
  {
    ghost var all, allUrls := Yielded(feed), RequestedUrls(otxUrl, modifiedSince, feed);
    var url := FirstRequest(otxUrl, modifiedSince);
    requested := [url];
    var responseData := SendOtxGet(Fetch(feed, 0));
    var fetched := 1;
    pulses := [];
    while responseData.Some?
      invariant 1 <= fetched <= |feed| + 1
      invariant responseData.Some? ==> fetched - 1 < |feed| && feed[fetched - 1].status == 200
      invariant responseData.Some? ==> responseData.value == feed[fetched - 1].page
      invariant responseData.Some? ==> pulses + YieldedFrom(feed, fetched - 1) == all
      invariant responseData.Some? ==> requested + FollowedFrom(feed, fetched - 1) == allUrls
      invariant responseData.None? ==> pulses == all && requested == allUrls
      decreases (if responseData.Some? then 1 else 0) + |feed| + 1 - fetched
    {
      var page := responseData.value;
      GeneratorStep(feed, fetched - 1, pulses, requested);
      ghost var before := pulses;
      if page.results.Some? {
        var results := page.results.value;
        for i := 0 to |results|
          invariant pulses == before + results[..i]
        {
          pulses := pulses + [results[i]];
        }
        assert results[..|results|] == results;
      }
      assert pulses == before + PageResults(page);
      responseData := None;
      if page.next.Some? {
        if page.next.value != "" {
          requested := requested + [page.next.value];
          responseData := SendOtxGet(Fetch(feed, fetched));
          fetched := fetched + 1;
        }
      }
    }
  }

  /** Once the chain ends at the k-th answer (a non-200 status, or a page
      without a truthy `next`), whatever the server would have answered
      afterwards is never requested and changes nothing. */
  lemma ChainEndsAt(feed: seq<Response>, k: nat, rest: seq<Response>)
    requires k < |feed|
    requires feed[k].status != 200 || !HasNext(feed[k].page)
    ensures Yielded(feed[..k + 1] + rest) == Yielded(feed[..k + 1])
    ensures FollowedFrom(feed[..k + 1] + rest, 0) == FollowedFrom(feed[..k + 1], 0)
  {
    ChainEndsAtFrom(feed[..k + 1], k, rest, 0);
  }

  lemma {:induction false} ChainEndsAtFrom(prefix: seq<Response>, k: nat, rest: seq<Response>, j: nat)
    requires k + 1 == |prefix| && j <= k
    requires prefix[k].status != 200 || !HasNext(prefix[k].page)
    ensures YieldedFrom(prefix + rest, j) == YieldedFrom(prefix, j)
    ensures FollowedFrom(prefix + rest, j) == FollowedFrom(prefix, j)
    decreases k - j
  {
    assert (prefix + rest)[j] == prefix[j];
    if j < k {
      ChainEndsAtFrom(prefix, k, rest, j + 1);
    }
  }

  /** The concatenated results of answers `k` to `m - 1`. */
  function ResultsBetween(feed: seq<Response>, k: nat, m: nat): seq<Pulse>
    requires k <= m <= |feed|
    decreases m - k
  {
    if k == m then [] else PageResults(feed[k].page) + ResultsBetween(feed, k + 1, m)
  }

  /** While every answer before `m` is a 200 page with a `next` link, the
      run yields the results of those pages in page order, then whatever
      follows from answer `m`. */
  lemma {:induction false} YieldedInPageOrder(feed: seq<Response>, m: nat)
    requires m <= |feed|
    requires forall j :: 0 <= j < m ==> feed[j].status == 200 && HasNext(feed[j].page)
    ensures Yielded(feed) == ResultsBetween(feed, 0, m) + YieldedFrom(feed, m)
  {
    YieldedInPageOrderFrom(feed, 0, m);
  }

  lemma {:induction false} YieldedInPageOrderFrom(feed: seq<Response>, k: nat, m: nat)
    requires k <= m <= |feed|
    requires forall j :: k <= j < m ==> feed[j].status == 200 && HasNext(feed[j].page)
    ensures YieldedFrom(feed, k) == ResultsBetween(feed, k, m) + YieldedFrom(feed, m)
    decreases m - k
  {
    if k < m {
      YieldedInPageOrderFrom(feed, k + 1, m);
    }
  }

  /** Three pages of 10, 10 and 4 pulses, `next` set on the first two and
      null on the last, yield the 24 pulses in page order. */
  lemma ThreePages(a: seq<Pulse>, b: seq<Pulse>, c: seq<Pulse>, u1: string, u2: string)
    requires |a| == 10 && |b| == 10 && |c| == 4 && u1 != "" && u2 != ""
    ensures
      var feed := [Response(200, Page(Some(a), Some(u1))),
                   Response(200, Page(Some(b), Some(u2))),
                   Response(200, Page(Some(c), None))];
      Yielded(feed) == a + b + c && |Yielded(feed)| == 24
  {
    var feed := [Response(200, Page(Some(a), Some(u1))),
                 Response(200, Page(Some(b), Some(u2))),
                 Response(200, Page(Some(c), None))];
    assert YieldedFrom(feed, 2) == c;
    assert YieldedFrom(feed, 1) == b + c;
  }
}
