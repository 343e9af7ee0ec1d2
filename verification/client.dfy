/** The upstream client: URL construction, the single GET with its status
    check, and the pagination loop shared by the four collection calls.

    The remote side is a script of replies: the k-th element answers the
    k-th request of a call. A request beyond the end of the script gets no
    reply, which the client sees as a transport failure. */
module Client {
  import opened Base
  import opened Json
  import Text

  datatype Collection = Subjects | Assignments | Reviews | ReviewStatistics

  function Endpoint(c: Collection): string {
    match c
    case Subjects => "subjects"
    case Assignments => "assignments"
    case Reviews => "reviews"
    case ReviewStatistics => "review_statistics"
  }

  /** Query parameters of one request: `Query(None)` is the empty dict the
      first request carries without a filter, `NoParams` is `params=None`. */
  datatype Params = NoParams | Query(updatedAfter: Option<Timestamp>)

  datatype Request = Request(url: string, params: Params)

  datatype Reply = Reply(status: int, body: Json) | NoReply

  /** One decoded page: its records and the path of the next request
      (empty when there is none). */
  datatype Page = Page(items: seq<Json>, nextPath: string)

  /** What a collection call issued and what it returned or raised. */
  datatype Fetch = Fetch(requests: seq<Request>, result: Result<seq<Json>, Fault>)

  /** `f"{base_url}/{endpoint.lstrip('/')}"`. */
  function RequestUrl(base: string, endpoint: string): string {
    base + "/" + Text.LStrip(endpoint, '/')
  }

  /** The request URL is the base, one slash, and the endpoint without its
      leading slashes. */
  lemma RequestUrlShape(base: string, endpoint: string)
    ensures var url := RequestUrl(base, endpoint);
      && Text.StartsWith(url, base + "/")
      && (|url| == |base| + 1 || url[|base| + 1] != '/')
      && (exists n :: 0 <= n <= |endpoint| && url[|base| + 1..] == endpoint[n..]
            && forall i :: 0 <= i < n ==> endpoint[i] == '/')
  {
    var url := RequestUrl(base, endpoint);
    var rest := Text.LStrip(endpoint, '/');
    assert url[..|base| + 1] == base + "/";
    assert url[|base| + 1..] == rest;
    var n := |endpoint| - |rest|;
    assert url[|base| + 1..] == endpoint[n..];
  }

  /** `next_url.replace(base_url + "/", "")`. */
  function NextPath(base: string, nextUrl: string): string {
    Text.ReplaceAll(nextUrl, base + "/", "")
  }

  /** A next-page URL under the base is turned back into the URL it names. */
  lemma NextUrlRoundTrip(base: string, path: string)
    requires path != "" && path[0] != '/'
    requires !Text.Contains(path, base + "/")
    ensures NextPath(base, base + "/" + path) == path
    ensures RequestUrl(base, NextPath(base, base + "/" + path)) == base + "/" + path
  {
    Text.ReplaceLeading(path, base + "/", "");
    Text.ReplaceWithoutOccurrence(path, base + "/", "");
    assert base + "/" + path == (base + "/") + path;
  }

  /** `_get`: a reply outside 200-299 raises, as `raise_for_status` does. */
  function Receive(url: string, reply: Reply): (r: Result<Json, Fault>)
    ensures r.Ok? <==> reply.Reply? && 200 <= reply.status < 300
    ensures r.Ok? ==> r.value == reply.body
  {
    match reply
    case NoReply => Err(NoResponse(url))
    case Reply(status, body) =>
      if 200 <= status < 300 then Ok(body) else Err(HttpStatus(status, url))
  }

  /** What `list.extend(v)` appends: an array's elements, or a string's
      characters, each a one-character string. Other values raise. */
  function Extension(v: Json): (r: Option<seq<Json>>)
    ensures r.Some? <==> v.JArr? || v.JStr?
    ensures v.JArr? ==> r == Some(v.items)
    ensures v.JStr? ==> r.Some? && |r.value| == |v.s|
                        && forall i :: 0 <= i < |v.s| ==> r.value[i] == JStr([v.s[i]])
  {
    match v
    case JArr(items) => Some(items)
    case JStr(s) => Some(seq(|s|, i requires 0 <= i < |s| => JStr([s[i]])))
    case _ => None
  }

  /** `data["data"]` extended onto the list, then `data["pages"]["next_url"]`,
      with the next URL turned into the next request's path. A falsy next
      URL ends the loop. */
  function DecodePage(base: string, body: Json): Result<Page, Fault> {
    if !body.JObj? then Err(TypeMismatch("data"))
    else
      var data :- Field(body.fields, "data");
      match Extension(data)
      case None => Err(TypeMismatch("data"))
      case Some(items) =>
        var pages :- Field(body.fields, "pages");
        if !pages.JObj? then Err(TypeMismatch("pages"))
        else
          var next :- Field(pages.fields, "next_url");
          if !Truthy(next) then Ok(Page(items, ""))
          else if next.JStr? then Ok(Page(items, NextPath(base, next.s)))
          else Err(TypeMismatch("next_url"))
  }

  /** A page decodes exactly when its data can be extended onto a list and
      it has a pages object with a next URL that is falsy or text; the page
      holds what the extension appends and the path the next URL names. */
  lemma DecodedPage(base: string, body: Json)
    ensures DecodePage(base, body).Ok? <==>
      && body.JObj? && "data" in body.fields && Extension(body.fields["data"]).Some?
      && "pages" in body.fields && body.fields["pages"].JObj?
      && "next_url" in body.fields["pages"].fields
      && (Truthy(body.fields["pages"].fields["next_url"]) ==> body.fields["pages"].fields["next_url"].JStr?)
    ensures DecodePage(base, body).Ok? ==> DecodePage(base, body).value.items == Extension(body.fields["data"]).value
    ensures DecodePage(base, body).Ok? ==> var next := body.fields["pages"].fields["next_url"];
      DecodePage(base, body).value.nextPath == if Truthy(next) then NextPath(base, next.s) else ""
  {
  }

  /** The page a reply carries, when it is a success that decodes. */
  function PageOf(base: string, reply: Reply): Option<Page> {
    if reply.Reply? && 200 <= reply.status < 300 then
      match DecodePage(base, reply.body)
      case Ok(p) => Some(p)
      case Err(_) => None
    else None
  }

  /** One request and everything that follows it: the loop body of the
      collection calls, unrolled. `path` is the loop variable `url`. */
  function Follow(base: string, replies: seq<Reply>, k: nat, path: string, params: Params): (f: Fetch)
    requires path != ""
    ensures 1 <= |f.requests| && f.requests[0] == Request(RequestUrl(base, path), params)
    ensures k <= |replies| ==> k + |f.requests| <= |replies| + 1
    decreases |replies| - k
  {
    var req := Request(RequestUrl(base, path), params);
    if k >= |replies| then Fetch([req], Err(NoResponse(req.url)))
    else
      match Receive(req.url, replies[k])
      case Err(fault) => Fetch([req], Err(fault))
      case Ok(body) =>
        match DecodePage(base, body)
        case Err(fault) => Fetch([req], Err(fault))
        case Ok(page) =>
          if page.nextPath == "" then Fetch([req], Ok(page.items))
          else Prepend([req], page.items, Follow(base, replies, k + 1, page.nextPath, NoParams))
  }

  /** Requests already issued and records already collected, put in front of
      the rest of a run. An error discards the records. */
  function Prepend(requests: seq<Request>, items: seq<Json>, rest: Fetch): Fetch {
    Fetch(requests + rest.requests,
          if rest.result.Ok? then Ok(items + rest.result.value) else rest.result)
  }

  lemma PrependNothing(f: Fetch)
    ensures Prepend([], [], f) == f
  {
    assert [] + f.requests == f.requests;
    if f.result.Ok? {
      assert [] + f.result.value == f.result.value;
    }
  }

  lemma PrependTwice(r1: seq<Request>, i1: seq<Json>, r2: seq<Request>, i2: seq<Json>, f: Fetch)
    ensures Prepend(r1, i1, Prepend(r2, i2, f)) == Prepend(r1 + r2, i1 + i2, f)
  {
    assert r1 + (r2 + f.requests) == (r1 + r2) + f.requests;
    if f.result.Ok? {
      assert i1 + (i2 + f.result.value) == (i1 + i2) + f.result.value;
    }
  }

  /** `get_subjects`, `get_assignments`, `get_reviews`, `get_review_statistics`. */
  function FetchCollection(base: string, c: Collection, updatedAfter: Option<Timestamp>,
                           replies: seq<Reply>): Fetch
  {
    Follow(base, replies, 0, Endpoint(c), Query(updatedAfter))
  }

  /** The collection call as the source writes it: a loop that follows the
      next URL until it is empty. */
  method GetCollection(base: string, c: Collection, updatedAfter: Option<Timestamp>,
                       replies: seq<Reply>) returns (requests: seq<Request>, result: Result<seq<Json>, Fault>)
    ensures Fetch(requests, result) == FetchCollection(base, c, updatedAfter, replies)
  {
    var params := Query(updatedAfter);
    var collected: seq<Json> := [];
    var url := Endpoint(c);
    var k: nat := 0;
    requests := [];
    PrependNothing(Follow(base, replies, k, url, params));
    while url != ""
      invariant url != "" ==>
        Prepend(requests, collected, Follow(base, replies, k, url, params))
          == FetchCollection(base, c, updatedAfter, replies)
      invariant url == "" ==> Fetch(requests, Ok(collected)) == FetchCollection(base, c, updatedAfter, replies)
      decreases |replies| - k, url != ""
    {
      ghost var issued, gathered := requests, collected;
      var req := Request(RequestUrl(base, url), params);
      requests := requests + [req];
      if k >= |replies| {
        result := Err(NoResponse(req.url));
        return;
      }
      var body := Receive(req.url, replies[k]);
      if body.Err? {
        result := Err(body.error);
        return;
      }
      var page := DecodePage(base, body.value);
      if page.Err? {
        result := Err(page.error);
        return;
      }
      if page.value.nextPath != "" {
        PrependTwice(issued, gathered, [req], page.value.items,
                     Follow(base, replies, k + 1, page.value.nextPath, NoParams));
      }
      collected := collected + page.value.items;
      url := page.value.nextPath;
      params := NoParams;
      k := k + 1;
    }
    result := Ok(collected);
  }

  // ---------------------------------------------------------------- properties

  /** The filter goes with the first request only; every later request is
      sent without parameters. */
  lemma {:induction false} OnlyFirstRequestFiltered(base: string, replies: seq<Reply>, k: nat,
                                                     path: string, params: Params)
    requires path != ""
    ensures var f := Follow(base, replies, k, path, params);
      f.requests[0].params == params
      && forall i :: 1 <= i < |f.requests| ==> f.requests[i].params == NoParams
    decreases |replies| - k
  {
    if k < |replies| {
      var url := RequestUrl(base, path);
      var body := Receive(url, replies[k]);
      if body.Ok? {
        var page := DecodePage(base, body.value);
        if page.Ok? && page.value.nextPath != "" {
          OnlyFirstRequestFiltered(base, replies, k + 1, page.value.nextPath, NoParams);
        }
      }
    }
  }

  /** The records of a run of pages, in page order. */
  function Flatten(pages: seq<Page>): seq<Json> {
    if pages == [] then [] else pages[0].items + Flatten(pages[1..])
  }

  /** `pages` are the pages the replies from position k on carry, each but the
      last linking to a further page and the last linking nowhere. */
  predicate Chain(base: string, replies: seq<Reply>, k: nat, pages: seq<Page>) {
    && pages != []
    && k + |pages| <= |replies|
    && (forall i :: 0 <= i < |pages| ==> PageOf(base, replies[k + i]) == Some(pages[i]))
    && (forall i :: 0 <= i < |pages| - 1 ==> pages[i].nextPath != "")
    && pages[|pages| - 1].nextPath == ""
  }

  /** One step of the loop on a reply that carries a page. */
  lemma FollowPage(base: string, replies: seq<Reply>, k: nat, path: string, params: Params, page: Page)
    requires path != "" && k < |replies|
    requires PageOf(base, replies[k]) == Some(page)
    ensures var req := Request(RequestUrl(base, path), params);
      Follow(base, replies, k, path, params)
        == if page.nextPath == "" then Fetch([req], Ok(page.items))
           else Prepend([req], page.items, Follow(base, replies, k + 1, page.nextPath, NoParams))
  {
    var url := RequestUrl(base, path);
    assert Receive(url, replies[k]) == Ok(replies[k].body);
    assert DecodePage(base, replies[k].body) == Ok(page);
  }

  /** The rest of a chain is a chain. */
  lemma ChainTail(base: string, replies: seq<Reply>, k: nat, pages: seq<Page>)
    requires Chain(base, replies, k, pages) && |pages| > 1
    ensures Chain(base, replies, k + 1, pages[1..])
  {
    var rest := pages[1..];
    forall i | 0 <= i < |rest|
      ensures PageOf(base, replies[k + 1 + i]) == Some(rest[i])
    {
      assert PageOf(base, replies[k + (i + 1)]) == Some(pages[i + 1]);
    }
  }

  /** Pagination is complete: served a chain of pages, the call makes one
      request per page and returns every page's records concatenated in page
      order. */
  lemma {:induction false} ChainCollected(base: string, replies: seq<Reply>, k: nat, path: string,
                                          params: Params, pages: seq<Page>)
    requires path != ""
    requires Chain(base, replies, k, pages)
    ensures var f := Follow(base, replies, k, path, params);
      f.result == Ok(Flatten(pages)) && |f.requests| == |pages|
    decreases |pages|
  {
    FollowPage(base, replies, k, path, params, pages[0]);
    if |pages| > 1 {
      ChainTail(base, replies, k, pages);
      ChainCollected(base, replies, k + 1, pages[0].nextPath, NoParams, pages[1..]);
      assert Flatten(pages) == pages[0].items + Flatten(pages[1..]);
    } else {
      assert Flatten(pages) == pages[0].items + Flatten([]);
      assert pages[0].items + [] == pages[0].items;
    }
  }

  /** Each request after the first goes to the path the previous page's next
      URL names. */
  predicate FollowsNextUrls(base: string, requests: seq<Request>, pages: seq<Page>) {
    && |requests| == |pages|
    && forall i :: 0 <= i < |pages| - 1 ==> requests[i + 1].url == RequestUrl(base, pages[i].nextPath)
  }

  /** Putting the request for the first page in front of the requests for the
      rest of a chain keeps each request on the previous page's next URL. */
  lemma FollowsNextUrlsCons(base: string, first: Request, tail: seq<Request>, pages: seq<Page>)
    requires |pages| > 1 && FollowsNextUrls(base, tail, pages[1..])
    requires tail[0].url == RequestUrl(base, pages[0].nextPath)
    ensures FollowsNextUrls(base, [first] + tail, pages)
  {
    var all := [first] + tail;
    var rest := pages[1..];
    assert |all| == |pages|;
    forall i | 0 <= i < |pages| - 1
      ensures all[i + 1].url == RequestUrl(base, pages[i].nextPath)
    {
      if i == 0 {
        assert all[1] == tail[0];
      } else {
        assert all[i + 1] == tail[i];
        assert rest[i - 1] == pages[i];
        assert tail[(i - 1) + 1].url == RequestUrl(base, rest[i - 1].nextPath);
      }
    }
  }

  lemma {:induction false} ChainFollowsNextUrls(base: string, replies: seq<Reply>, k: nat, path: string,
                                                params: Params, pages: seq<Page>)
    requires path != ""
    requires Chain(base, replies, k, pages)
    ensures FollowsNextUrls(base, Follow(base, replies, k, path, params).requests, pages)
    decreases |pages|
  {
    ChainCollected(base, replies, k, path, params, pages);
    FollowPage(base, replies, k, path, params, pages[0]);
    if |pages| > 1 {
      ChainTail(base, replies, k, pages);
      ChainFollowsNextUrls(base, replies, k + 1, pages[0].nextPath, NoParams, pages[1..]);
      FollowsNextUrlsCons(base, Request(RequestUrl(base, path), params),
                          Follow(base, replies, k + 1, pages[0].nextPath, NoParams).requests, pages);
    }
  }

  /** A request whose reply carries no page (a failed status, an undecodable
      body, or no reply at all) ends the loop with an error. */
  lemma NoPageRaises(base: string, replies: seq<Reply>, k: nat, path: string, params: Params)
    requires path != ""
    requires k == |replies| || (k < |replies| && PageOf(base, replies[k]).None?)
    ensures var f := Follow(base, replies, k, path, params);
      f.result.Err? && |f.requests| == 1
  {
    if k < |replies| && Receive(RequestUrl(base, path), replies[k]).Ok? {
      assert DecodePage(base, replies[k].body).Err?;
    }
  }

  /** The rest of a run of linked pages is a run of linked pages. */
  lemma LinkedTail(base: string, replies: seq<Reply>, k: nat, pages: seq<Page>)
    requires pages != [] && k + |pages| <= |replies|
    requires forall i :: 0 <= i < |pages| ==> PageOf(base, replies[k + i]) == Some(pages[i])
    ensures forall i :: 0 <= i < |pages| - 1 ==> PageOf(base, replies[k + 1 + i]) == Some(pages[1..][i])
  {
    forall i | 0 <= i < |pages| - 1
      ensures PageOf(base, replies[k + 1 + i]) == Some(pages[1..][i])
    {
      assert PageOf(base, replies[k + (i + 1)]) == Some(pages[i + 1]);
    }
  }

  /** No partial result: if the replies break off (a failed status, an
      undecodable body or no reply) after a run of linked pages, the call
      raises, having sent one request per page plus the failing one. */
  lemma {:induction false} BrokenChainRaises(base: string, replies: seq<Reply>, k: nat, path: string,
                                             params: Params, pages: seq<Page>)
    requires path != ""
    requires k + |pages| <= |replies|
    requires forall i :: 0 <= i < |pages| ==> PageOf(base, replies[k + i]) == Some(pages[i])
    requires forall i :: 0 <= i < |pages| ==> pages[i].nextPath != ""
    requires k + |pages| == |replies| || PageOf(base, replies[k + |pages|]).None?
    ensures var f := Follow(base, replies, k, path, params);
      f.result.Err? && |f.requests| == |pages| + 1
    decreases |pages|
  {
    if pages == [] {
      NoPageRaises(base, replies, k, path, params);
    } else {
      FollowPage(base, replies, k, path, params, pages[0]);
      LinkedTail(base, replies, k, pages);
      BrokenChainRaises(base, replies, k + 1, pages[0].nextPath, NoParams, pages[1..]);
    }
  }
}
