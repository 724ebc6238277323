/**
 * The REST link-header paginator (`wrapped_gitlab_paginator` in
 * app/github_v3.py and github_v3.py, `get_paginated_data` in app.py).
 *
 * The upstream is a function from a request to its response; the
 * paginator also returns the requests it issued, in order.  `fuel` is the
 * interpreter's recursion limit: an upstream that keeps sending `next`
 * links ends in a RecursionError.
 */
module Paging {
  import opened Json

  /** One GET: the URL, the `per_page` query parameter and the `accept` header, if any. */
  datatype Request = Request(url: string, perPage: Option<int>, accept: Option<string>)

  /** One response: the status, the decoded body and `response.links` (relation name to URL). */
  datatype Response = Response(status: int, body: Json, links: map<string, string>)

  /** A result together with the requests issued to obtain it. */
  datatype Fetched<+T> = Fetched(result: Result<T>, sent: seq<Request>)

  /** The page size every paginated request asks for. */
  const PerPage: int := 100

  /** The statuses `raise_for_status` raises on: client errors 4xx and server errors 5xx. */
  predicate IsHttpError(status: int) {
    400 <= status < 600
  }

  function PageRequest(url: string, accept: Option<string>): Request {
    Request(url, Some(PerPage), accept)
  }

  /**
   * Fetch `link`, abort on an error status, and, when the response has a
   * `next` link, fetch the rest first and put this page's records in front
   * of it.  A page whose body is not a JSON array cannot be concatenated.
   * The first request is for `link`; the recursion limit is hit only by a
   * chain of `fuel` requests.
   */
  function Paginate(fetch: Request -> Response, link: string, accept: Option<string>, fuel: nat)
    : (p: Fetched<seq<Json>>)
    ensures |p.sent| <= fuel
    ensures fuel > 0 ==> |p.sent| >= 1 && p.sent[0] == PageRequest(link, accept)
    ensures p.result == Failure(RecursionLimit) ==> |p.sent| == fuel
    decreases fuel
  {
    if fuel == 0 then Fetched(Failure(RecursionLimit), [])
    else
      var req := PageRequest(link, accept);
      var resp := fetch(req);
      if IsHttpError(resp.status) then Fetched(Failure(HttpError(resp.status)), [req])
      else if "next" in resp.links then
        var rest := Paginate(fetch, resp.links["next"], accept, fuel - 1);
        if rest.result.Failure? then Fetched(rest.result, [req] + rest.sent)
        else if resp.body.Array? then Fetched(Success(resp.body.items + rest.result.value), [req] + rest.sent)
        else Fetched(Failure(SchemaMismatch), [req] + rest.sent)
      else if resp.body.Array? then Fetched(Success(resp.body.items), [req])
      else Fetched(Failure(SchemaMismatch), [req])
  }

  /** Every request asks for 100 records and carries the caller's header, as the forwarded `kwargs` do. */
  lemma {:induction false} PaginateHeaders(fetch: Request -> Response, link: string, accept: Option<string>, fuel: nat)
    ensures forall i :: 0 <= i < |Paginate(fetch, link, accept, fuel).sent| ==>
      Paginate(fetch, link, accept, fuel).sent[i].perPage == Some(PerPage)
      && Paginate(fetch, link, accept, fuel).sent[i].accept == accept
    decreases fuel
  {
    if fuel > 0 {
      var resp := fetch(PageRequest(link, accept));
      if !IsHttpError(resp.status) && "next" in resp.links {
        var rest := Paginate(fetch, resp.links["next"], accept, fuel - 1);
        PaginateHeaders(fetch, resp.links["next"], accept, fuel - 1);
        var sent := [PageRequest(link, accept)] + rest.sent;
        assert Paginate(fetch, link, accept, fuel).sent == sent;
        assert forall i :: 1 <= i < |sent| ==> sent[i] == rest.sent[i - 1];
      }
    }
  }

  // ---------------------------------------------------------------------
  // Reference description: a chain of pages linked by `next`
  // ---------------------------------------------------------------------

  /** `sent` starts at `link` and each request follows the `next` link of the previous response. */
  ghost predicate FollowsNextLinks(fetch: Request -> Response, link: string, accept: Option<string>, sent: seq<Request>) {
    && |sent| > 0
    && sent[0] == PageRequest(link, accept)
    && forall i :: 0 <= i < |sent| - 1 ==>
         && "next" in fetch(sent[i]).links
         && sent[i + 1] == PageRequest(fetch(sent[i]).links["next"], accept)
  }

  /** A page that succeeded and holds a list of records. */
  predicate PageOk(r: Response) {
    !IsHttpError(r.status) && r.body.Array?
  }

  /** The records of the pages answering `sent`, in request order. */
  function Records(fetch: Request -> Response, sent: seq<Request>): seq<Json>
    decreases |sent|
  {
    if sent == [] then []
    else (if fetch(sent[0]).body.Array? then fetch(sent[0]).body.items else []) + Records(fetch, sent[1..])
  }

  lemma FollowsNextLinksTail(fetch: Request -> Response, link: string, accept: Option<string>, sent: seq<Request>)
    requires FollowsNextLinks(fetch, link, accept, sent) && |sent| > 1
    ensures FollowsNextLinks(fetch, fetch(sent[0]).links["next"], accept, sent[1..])
  {
    forall i | 0 <= i < |sent[1..]| - 1
      ensures "next" in fetch(sent[1..][i]).links
      ensures sent[1..][i + 1] == PageRequest(fetch(sent[1..][i]).links["next"], accept)
    {
      assert sent[1..][i] == sent[i + 1];
    }
  }

  /**
   * What a run of the paginator did: it followed `next` links from `link`,
   * at most `fuel` times; on success every page succeeded, the last page
   * had no `next` link and the result is all pages' records in request
   * order; an HTTP error is the status of the last page fetched.
   */
  lemma PaginateShape(fetch: Request -> Response, link: string, accept: Option<string>, fuel: nat)
    ensures var p := Paginate(fetch, link, accept, fuel);
      && |p.sent| <= fuel
      && (fuel > 0 ==> FollowsNextLinks(fetch, link, accept, p.sent))
      && (p.result.Success? ==>
            && (forall i :: 0 <= i < |p.sent| ==> PageOk(fetch(p.sent[i])))
            && "next" !in fetch(p.sent[|p.sent| - 1]).links
            && p.result.value == Records(fetch, p.sent))
      && (p.result.Failure? && p.result.error.HttpError? ==>
            p.result.error.status == fetch(p.sent[|p.sent| - 1]).status
            && IsHttpError(p.result.error.status))
  {
    PaginateFollowsLinks(fetch, link, accept, fuel);
    PaginateSuccess(fetch, link, accept, fuel);
    PaginateHttpError(fetch, link, accept, fuel);
  }

  lemma {:induction false} PaginateFollowsLinks(fetch: Request -> Response, link: string, accept: Option<string>, fuel: nat)
    ensures var p := Paginate(fetch, link, accept, fuel);
      && |p.sent| <= fuel
      && (fuel > 0 ==> FollowsNextLinks(fetch, link, accept, p.sent))
    decreases fuel
  {
    if fuel > 0 {
      var req := PageRequest(link, accept);
      var resp := fetch(req);
      if !IsHttpError(resp.status) && "next" in resp.links {
        var next := resp.links["next"];
        var rest := Paginate(fetch, next, accept, fuel - 1);
        PaginateFollowsLinks(fetch, next, accept, fuel - 1);
        var sent := [req] + rest.sent;
        assert Paginate(fetch, link, accept, fuel).sent == sent;
        if fuel - 1 > 0 {
          forall i | 0 <= i < |sent| - 1
            ensures "next" in fetch(sent[i]).links
            ensures sent[i + 1] == PageRequest(fetch(sent[i]).links["next"], accept)
          {
            if i > 0 {
              assert sent[i] == rest.sent[i - 1];
            }
          }
        } else {
          assert sent == [req];
        }
      }
    }
  }

  lemma {:induction false} PaginateSuccess(fetch: Request -> Response, link: string, accept: Option<string>, fuel: nat)
    ensures var p := Paginate(fetch, link, accept, fuel);
      p.result.Success? ==>
        && |p.sent| > 0
        && (forall i :: 0 <= i < |p.sent| ==> PageOk(fetch(p.sent[i])))
        && "next" !in fetch(p.sent[|p.sent| - 1]).links
        && p.result.value == Records(fetch, p.sent)
    decreases fuel
  {
    if fuel > 0 {
      var req := PageRequest(link, accept);
      var resp := fetch(req);
      if !IsHttpError(resp.status) && "next" in resp.links {
        var next := resp.links["next"];
        var rest := Paginate(fetch, next, accept, fuel - 1);
        PaginateSuccess(fetch, next, accept, fuel - 1);
        if rest.result.Success? && resp.body.Array? {
          var sent := [req] + rest.sent;
          assert Paginate(fetch, link, accept, fuel) == Fetched(Success(resp.body.items + rest.result.value), sent);
          assert sent[1..] == rest.sent;
          assert sent[|sent| - 1] == rest.sent[|rest.sent| - 1];
          forall i | 0 <= i < |sent| ensures PageOk(fetch(sent[i])) {
            if i > 0 {
              assert sent[i] == rest.sent[i - 1];
            }
          }
        }
      }
    }
  }

  lemma {:induction false} PaginateHttpError(fetch: Request -> Response, link: string, accept: Option<string>, fuel: nat)
    ensures var p := Paginate(fetch, link, accept, fuel);
      p.result.Failure? && p.result.error.HttpError? ==>
        && |p.sent| > 0
        && p.result.error.status == fetch(p.sent[|p.sent| - 1]).status
        && IsHttpError(p.result.error.status)
    decreases fuel
  {
    if fuel > 0 {
      var req := PageRequest(link, accept);
      var resp := fetch(req);
      if !IsHttpError(resp.status) && "next" in resp.links {
        var next := resp.links["next"];
        var rest := Paginate(fetch, next, accept, fuel - 1);
        PaginateHttpError(fetch, next, accept, fuel - 1);
        if rest.result.Failure? && rest.result.error.HttpError? {
          var sent := [req] + rest.sent;
          assert Paginate(fetch, link, accept, fuel) == Fetched(rest.result, sent);
          assert sent[|sent| - 1] == rest.sent[|rest.sent| - 1];
        }
      }
    }
  }

  /** Conversely: over a chain of good pages that ends without a `next` link, the paginator returns every record. */
  lemma {:induction false} PaginateCollects(fetch: Request -> Response, link: string, accept: Option<string>,
                                            fuel: nat, pages: seq<Request>)
    requires FollowsNextLinks(fetch, link, accept, pages) && |pages| <= fuel
    requires forall i :: 0 <= i < |pages| ==> PageOk(fetch(pages[i]))
    requires "next" !in fetch(pages[|pages| - 1]).links
    ensures Paginate(fetch, link, accept, fuel) == Fetched(Success(Records(fetch, pages)), pages)
    decreases |pages|
  {
    var resp := fetch(pages[0]);
    assert pages[0] == PageRequest(link, accept);
    assert PageOk(resp);
    if |pages| > 1 {
      var next := resp.links["next"];
      FollowsNextLinksTail(fetch, link, accept, pages);
      forall i | 0 <= i < |pages[1..]| ensures PageOk(fetch(pages[1..][i])) {
        assert pages[1..][i] == pages[i + 1];
      }
      PaginateCollects(fetch, next, accept, fuel - 1, pages[1..]);
      var rest := Paginate(fetch, next, accept, fuel - 1);
      assert rest == Fetched(Success(Records(fetch, pages[1..])), pages[1..]);
      assert Paginate(fetch, link, accept, fuel)
          == Fetched(Success(resp.body.items + rest.result.value), [pages[0]] + rest.sent);
      assert Records(fetch, pages) == resp.body.items + Records(fetch, pages[1..]);
      assert pages == [pages[0]] + pages[1..];
    } else {
      assert "next" !in resp.links;
      assert pages == [PageRequest(link, accept)];
      assert Records(fetch, pages) == resp.body.items + Records(fetch, []);
      assert resp.body.items + [] == resp.body.items;
      assert Paginate(fetch, link, accept, fuel) == Fetched(Success(resp.body.items), [PageRequest(link, accept)]);
    }
  }

  /**
   * A page with an error status anywhere in the chain aborts the whole
   * fetch with that status: no records are returned and no later page is requested.
   */
  lemma {:induction false} PaginateAborts(fetch: Request -> Response, link: string, accept: Option<string>,
                                          fuel: nat, pages: seq<Request>)
    requires FollowsNextLinks(fetch, link, accept, pages) && |pages| <= fuel
    requires forall i :: 0 <= i < |pages| - 1 ==> !IsHttpError(fetch(pages[i]).status)
    requires IsHttpError(fetch(pages[|pages| - 1]).status)
    ensures Paginate(fetch, link, accept, fuel) == Fetched(Failure(HttpError(fetch(pages[|pages| - 1]).status)), pages)
    decreases |pages|
  {
    if |pages| > 1 {
      var next := fetch(pages[0]).links["next"];
      FollowsNextLinksTail(fetch, link, accept, pages);
      forall i | 0 <= i < |pages[1..]| - 1 ensures !IsHttpError(fetch(pages[1..][i]).status) {
        assert pages[1..][i] == pages[i + 1];
      }
      PaginateAborts(fetch, next, accept, fuel - 1, pages[1..]);
      assert pages == [pages[0]] + pages[1..];
    }
  }

  // ---------------------------------------------------------------------
  // Worked example: pages of 100, 100 and 37 records
  // ---------------------------------------------------------------------

  function Page(n: nat, next: Option<string>): Response {
    Response(200, Array(seq(n, i => Int(i))), if next.Some? then map["next" := next.value] else map[])
  }

  function ThreePageSite(req: Request): Response {
    if req.url == "page1" then Page(100, Some("page2"))
    else if req.url == "page2" then Page(100, Some("page3"))
    else Page(37, None)
  }

  /** Three pages of 100, 100 and 37 records come back as 237 records, first page first. */
  lemma ThreePagesConcatenate()
    ensures var p := Paginate(ThreePageSite, "page1", None, 3);
      && p.sent == [PageRequest("page1", None), PageRequest("page2", None), PageRequest("page3", None)]
      && p.result.Success?
      && |p.result.value| == 237
      && p.result.value == Page(100, None).body.items + Page(100, None).body.items + Page(37, None).body.items
  {
    var pages := [PageRequest("page1", None), PageRequest("page2", None), PageRequest("page3", None)];
    assert ThreePageSite(pages[0]).links == map["next" := "page2"];
    assert ThreePageSite(pages[1]).links == map["next" := "page3"];
    assert "next" !in ThreePageSite(pages[2]).links;
    PaginateCollects(ThreePageSite, "page1", None, 3, pages);
    assert Records(ThreePageSite, pages[2..]) == Page(37, None).body.items;
    assert Records(ThreePageSite, pages[1..]) == Page(100, None).body.items + Page(37, None).body.items;
  }
}
