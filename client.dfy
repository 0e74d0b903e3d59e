/**
 * The REST client (src/client.rs): how each call is turned into a GET request (URL and query pairs)
 * and how the transport's answer is turned into a value or one error string.
 *
 * The transport is not modelled. Each call receives the `Response` the transport produced; the
 * methods return the `Request` they handed to it next to their result, so what is sent can be
 * stated together with what is returned.
 */
module Client {
  import opened Wrappers
  import opened Models
  import Decimal

  const BaseUrl: string := "https://rankpath.io/api"

  datatype QueryPair = QueryPair(key: string, value: string)

  /** A GET request as handed to the transport: its URL and its query pairs in the order attached. */
  datatype Request = Request(url: string, query: seq<QueryPair>) {

    /** reqwest's `RequestBuilder::query` with one pair: appended after the pairs already there. */
    function WithQuery(p: QueryPair): Request {
      Request(url, query + [p])
    }
  }

  /**
   * What the transport produced for one request. `body` is the body decoded as the expected envelope
   * (or the text of reqwest's decode error when that fails); `errorBody` is the same body decoded as an `ErrorResponse`
   * (None when that fails). Which of the two the client looks at depends on `success`.
   */
  datatype Response<T> =
    | SendFailed(reason: string)
    | Received(success: bool, statusText: string, body: Result<T, string>, errorBody: Option<ErrorResponse>)

  // ---------------------------------------------------------------- paths

  /** The five resources the client reads. */
  datatype Endpoint =
    | Projects
    | ProjectById(id: string)
    | CrawlHistory(id: string)
    | LatestCrawl(id: string)
    | Issues(id: string)

  function PathOf(e: Endpoint): string {
    match e
    case Projects => "/projects"
    case ProjectById(id) => "/projects/" + id
    case CrawlHistory(id) => "/projects/" + id + "/crawls"
    case LatestCrawl(id) => "/projects/" + id + "/crawls/latest"
    case Issues(id) => "/projects/" + id + "/issues"
  }

  /**
   * A project id that a URL parser leaves as one path segment: no `/` or `\\`, no `?` or `#` (which
   * would start the query or the fragment), no `%` escape, and not the dot segments `.` and `..`.
   */
  predicate PlainId(e: Endpoint) {
    e.Projects? ||
      ('/' !in e.id && '\\' !in e.id && '?' !in e.id && '#' !in e.id && '%' !in e.id &&
       e.id != "." && e.id != "..")
  }

  /** The position of the first `x` in `s`, or `|s|` when there is none. */
  function IndexOf<T(==)>(s: seq<T>, x: T): (k: nat)
    ensures k <= |s| && x !in s[..k]
    ensures k < |s| ==> s[k] == x
  {
    if s == [] then 0
    else if s[0] == x then 0
    else
      var k := 1 + IndexOf(s[1..], x);
      assert s[..k] == [s[0]] + s[1..][..k - 1];
      k
  }

  /** Splits a joined path string back into the resource it names, if any. */
  function Route(path: string): Option<Endpoint> {
    if path == "/projects" then Some(Projects)
    else if |path| < 10 || path[..10] != "/projects/" then None
    else
      var rest := path[10..];
      var k := IndexOf(rest, '/');
      var id, tail := rest[..k], rest[k..];
      if tail == "" then Some(ProjectById(id))
      else if tail == "/crawls" then Some(CrawlHistory(id))
      else if tail == "/crawls/latest" then Some(LatestCrawl(id))
      else if tail == "/issues" then Some(Issues(id))
      else None
  }

  /** In `a + b`, where `a` has no `x` and `b` is empty or starts with `x`, the first `x` is at `|a|`. */
  lemma {:induction false} IndexOfAfter(a: string, b: string, x: char)
    requires x !in a
    requires b == [] || b[0] == x
    ensures IndexOf(a + b, x) == |a|
  {
    if a != [] {
      assert (a + b)[1..] == a[1..] + b;
      IndexOfAfter(a[1..], b, x);
    } else {
      assert a + b == b;
    }
  }

  /** `Route` takes a path built from an id without `/` apart into that id and the rest of the path. */
  lemma RouteSplits(id: string, tail: string)
    requires '/' !in id
    requires tail == [] || tail[0] == '/'
    ensures var path := "/projects/" + id + tail;
      && path != "/projects" && |path| >= 10 && path[..10] == "/projects/"
      && path[10..] == id + tail
      && IndexOf(path[10..], '/') == |id|
  {
    var path := "/projects/" + id + tail;
    assert |path| == 10 + |id| + |tail|;
    assert path[..10] == "/projects/";
    assert path[10..] == id + tail;
    IndexOfAfter(id, tail, '/');
  }

  /** Every path the client builds from a plain id routes back to the resource it names. */
  lemma RouteOfPath(e: Endpoint)
    requires PlainId(e)
    ensures Route(PathOf(e)) == Some(e)
  {
    if !e.Projects? {
      var tail := match e
        case ProjectById(_) => ""
        case CrawlHistory(_) => "/crawls"
        case LatestCrawl(_) => "/crawls/latest"
        case Issues(_) => "/issues";
      assert PathOf(e) == "/projects/" + e.id + tail;
      RouteSplits(e.id, tail);
      var rest := PathOf(e)[10..];
      assert rest[..|e.id|] == e.id && rest[|e.id|..] == tail;
    }
  }

  /** Ids are not escaped: an id holding `/` can name another resource. */
  lemma IdIsNotEscaped()
    ensures PathOf(ProjectById("p/crawls/latest")) == PathOf(LatestCrawl("p"))
    ensures PathOf(ProjectById("p/issues")) == PathOf(Issues("p"))
  {
    assert PathOf(LatestCrawl("p")) == "/projects/p/crawls/latest";
    assert PathOf(Issues("p")) == "/projects/p/issues";
  }

  // ---------------------------------------------------------------- queries

  /** An optional filter: it contributes the pair `(key, value)` only when the value is present. */
  datatype Filter = Filter(key: string, value: Option<string>)

  /** The pairs of the present filters, in filter order. */
  function Present(filters: seq<Filter>): seq<QueryPair> {
    if filters == [] then []
    else
      var f := filters[0];
      (if f.value.Some? then [QueryPair(f.key, f.value.value)] else []) + Present(filters[1..])
  }

  /** The value of the first pair with `key`. */
  function Lookup(query: seq<QueryPair>, key: string): Option<string> {
    if query == [] then None
    else if query[0].key == key then Some(query[0].value)
    else Lookup(query[1..], key)
  }

  predicate DistinctKeys(filters: seq<Filter>) {
    forall i, j :: 0 <= i < j < |filters| ==> filters[i].key != filters[j].key
  }

  /** With distinct keys, the query built from the filters reads back every filter's value. */
  lemma {:induction false} LookupPresent(filters: seq<Filter>, i: nat)
    requires DistinctKeys(filters)
    requires i < |filters|
    ensures Lookup(Present(filters), filters[i].key) == filters[i].value
  {
    var f := filters[0];
    var head := if f.value.Some? then [QueryPair(f.key, f.value.value)] else [];
    assert Present(filters) == head + Present(filters[1..]);
    if i == 0 {
      if f.value.None? {
        forall j | 0 <= j < |filters[1..]| ensures filters[1..][j].key != f.key {
          assert filters[1..][j] == filters[j + 1];
        }
        LookupAbsent(filters[1..], f.key);
        assert Present(filters) == Present(filters[1..]);
      } else {
        assert (head + Present(filters[1..]))[0] == QueryPair(f.key, f.value.value);
      }
    } else {
      var key := filters[i].key;
      assert f.key != key;
      LookupSkip(head, Present(filters[1..]), key);
      assert DistinctKeys(filters[1..]) by {
        forall a, b | 0 <= a < b < |filters[1..]|
          ensures filters[1..][a].key != filters[1..][b].key
        {
          assert filters[1..][a] == filters[a + 1] && filters[1..][b] == filters[b + 1];
        }
      }
      LookupPresent(filters[1..], i - 1);
      assert filters[1..][i - 1] == filters[i];
    }
  }

  /** A key that no filter has does not occur in the query. */
  lemma {:induction false} LookupAbsent(filters: seq<Filter>, key: string)
    requires forall i :: 0 <= i < |filters| ==> filters[i].key != key
    ensures Lookup(Present(filters), key) == None
  {
    if filters != [] {
      var f := filters[0];
      var head := if f.value.Some? then [QueryPair(f.key, f.value.value)] else [];
      assert Present(filters) == head + Present(filters[1..]);
      forall j | 0 <= j < |filters[1..]| ensures filters[1..][j].key != key {
        assert filters[1..][j] == filters[j + 1];
      }
      LookupAbsent(filters[1..], key);
      LookupSkip(head, Present(filters[1..]), key);
    }
  }

  /** Pairs with other keys in front of a query do not change what it reads back. */
  lemma {:induction false} LookupSkip(head: seq<QueryPair>, rest: seq<QueryPair>, key: string)
    requires forall p :: p in head ==> p.key != key
    ensures Lookup(head + rest, key) == Lookup(rest, key)
  {
    if head != [] {
      assert (head + rest)[1..] == head[1..] + rest;
      LookupSkip(head[1..], rest, key);
    } else {
      assert head + rest == rest;
    }
  }

  /** Every pair in the query comes from a present filter with that key and that value. */
  lemma {:induction false} PresentFromFilters(filters: seq<Filter>)
    ensures forall p :: p in Present(filters) ==> Filter(p.key, Some(p.value)) in filters
  {
    if filters != [] {
      PresentFromFilters(filters[1..]);
    }
  }

  /** `Option<u32>::map(|n| n.to_string())`. */
  function DecimalOf(n: Option<u32>): Option<string> {
    match n
    case Some(v) => Some(Decimal.Show(v as int))
    case None => None
  }

  /** The query of `get_crawl_history`: `limit`, then `offset`, each only when given. */
  function CrawlHistoryQuery(limit: Option<u32>, offset: Option<u32>): seq<QueryPair> {
    Present([Filter("limit", DecimalOf(limit)), Filter("offset", DecimalOf(offset))])
  }

  /** The query of `get_issues`: `severity`, then `status`, each only when given and as given. */
  function IssuesQuery(severity: Option<string>, status: Option<string>): seq<QueryPair> {
    Present([Filter("severity", severity), Filter("status", status)])
  }

  lemma PresentPair(a: Filter, b: Filter)
    ensures Present([a, b]) ==
      (if a.value.Some? then [QueryPair(a.key, a.value.value)] else []) +
      (if b.value.Some? then [QueryPair(b.key, b.value.value)] else [])
  {
    assert [a, b][1..] == [b];
    assert [b][1..] == [];
    assert Present([b]) == (if b.value.Some? then [QueryPair(b.key, b.value.value)] else []) + Present([]);
  }

  /** Reading `limit` and `offset` back out of a query with a decimal reader. */
  function ReadCrawlHistoryQuery(query: seq<QueryPair>): (Option<u32>, Option<u32>) {
    var limit := Lookup(query, "limit");
    var offset := Lookup(query, "offset");
    (if limit.Some? then Decimal.ReadU32(limit.value) else None,
     if offset.Some? then Decimal.ReadU32(offset.value) else None)
  }

  /**
   * The crawl-history query holds a `limit` pair exactly when a limit is given and an `offset` pair
   * exactly when an offset is given, no other key, limit before offset, and the server reads back
   * the very numbers that were given.
   */
  lemma CrawlHistoryQueryFaithful(limit: Option<u32>, offset: Option<u32>)
    ensures Lookup(CrawlHistoryQuery(limit, offset), "limit") == DecimalOf(limit)
    ensures Lookup(CrawlHistoryQuery(limit, offset), "offset") == DecimalOf(offset)
    ensures forall p :: p in CrawlHistoryQuery(limit, offset) ==> p.key == "limit" || p.key == "offset"
    ensures |CrawlHistoryQuery(limit, offset)| == (if limit.Some? then 1 else 0) + (if offset.Some? then 1 else 0)
    ensures limit.Some? && offset.Some? ==>
      CrawlHistoryQuery(limit, offset)[0].key == "limit" && CrawlHistoryQuery(limit, offset)[1].key == "offset"
    ensures ReadCrawlHistoryQuery(CrawlHistoryQuery(limit, offset)) == (limit, offset)
  {
    var filters := [Filter("limit", DecimalOf(limit)), Filter("offset", DecimalOf(offset))];
    PresentPair(filters[0], filters[1]);
    LookupPresent(filters, 0);
    LookupPresent(filters, 1);
    PresentFromFilters(filters);
    if limit.Some? { Decimal.ReadShow(limit.value); }
    if offset.Some? { Decimal.ReadShow(offset.value); }
  }

  /**
   * The issues query holds a `severity` pair exactly when a severity is given and a `status` pair
   * exactly when a status is given, both verbatim (no check against the known values), no other
   * key, severity before status.
   */
  lemma IssuesQueryFaithful(severity: Option<string>, status: Option<string>)
    ensures Lookup(IssuesQuery(severity, status), "severity") == severity
    ensures Lookup(IssuesQuery(severity, status), "status") == status
    ensures forall p :: p in IssuesQuery(severity, status) ==> p.key == "severity" || p.key == "status"
    ensures |IssuesQuery(severity, status)| == (if severity.Some? then 1 else 0) + (if status.Some? then 1 else 0)
    ensures severity.Some? && status.Some? ==>
      IssuesQuery(severity, status)[0].key == "severity" && IssuesQuery(severity, status)[1].key == "status"
  {
    var filters := [Filter("severity", severity), Filter("status", status)];
    PresentPair(filters[0], filters[1]);
    LookupPresent(filters, 0);
    LookupPresent(filters, 1);
    PresentFromFilters(filters);
  }

  lemma QueryExamples()
    ensures CrawlHistoryQuery(None, None) == []
    ensures CrawlHistoryQuery(Some(5), Some(10)) == [QueryPair("limit", "5"), QueryPair("offset", "10")]
    ensures IssuesQuery(None, Some("open")) == [QueryPair("status", "open")]
    ensures IssuesQuery(None, None) == []
  {
    PresentPair(Filter("limit", None), Filter("offset", None));
    PresentPair(Filter("limit", Some("5")), Filter("offset", Some("10")));
    Decimal.ShowExamples();
    PresentPair(Filter("severity", None), Filter("status", Some("open")));
    PresentPair(Filter("severity", None), Filter("status", None));
  }

  // ---------------------------------------------------------------- calls and requests

  /** A call of one of the client's public methods, with its arguments. */
  datatype Call =
    | ListProjectsCall
    | GetProjectCall(projectId: string)
    | CrawlHistoryCall(projectId: string, limit: Option<u32>, offset: Option<u32>)
    | LatestCrawlCall(projectId: string)
    | IssuesCall(projectId: string, severity: Option<string>, status: Option<string>)

  function EndpointOf(c: Call): Endpoint {
    match c
    case ListProjectsCall => Projects
    case GetProjectCall(id) => ProjectById(id)
    case CrawlHistoryCall(id, _, _) => CrawlHistory(id)
    case LatestCrawlCall(id) => LatestCrawl(id)
    case IssuesCall(id, _, _) => Issues(id)
  }

  function QueryOf(c: Call): seq<QueryPair> {
    match c
    case CrawlHistoryCall(_, limit, offset) => CrawlHistoryQuery(limit, offset)
    case IssuesCall(_, severity, status) => IssuesQuery(severity, status)
    case _ => []
  }

  /** The request a call sends. */
  function RequestOf(c: Call): Request {
    Request(BaseUrl + PathOf(EndpointOf(c)), QueryOf(c))
  }

  /** Only the crawl-history and issues calls carry a query; the other three send none. */
  lemma QueryOnlyWithFilters(c: Call)
    ensures RequestOf(c).query != [] ==> c.CrawlHistoryCall? || c.IssuesCall?
    ensures c.CrawlHistoryCall? && c.limit.None? && c.offset.None? ==> RequestOf(c).query == []
  {
    if c.CrawlHistoryCall? {
      CrawlHistoryQueryFaithful(c.limit, c.offset);
    }
  }

  /** The URL of every call is the base URL followed by a path that routes back to the call's resource. */
  lemma UrlOfCall(c: Call)
    requires PlainId(EndpointOf(c))
    ensures |RequestOf(c).url| >= |BaseUrl| && RequestOf(c).url[..|BaseUrl|] == BaseUrl
    ensures Route(RequestOf(c).url[|BaseUrl|..]) == Some(EndpointOf(c))
  {
    var url := RequestOf(c).url;
    assert url[|BaseUrl|..] == PathOf(EndpointOf(c));
    RouteOfPath(EndpointOf(c));
  }

  // ---------------------------------------------------------------- results

  /** `format!("{}: {}", err.error, err.message.unwrap_or_default())`. */
  function ErrorText(e: ErrorResponse): string {
    e.error + ": " + e.message.GetOr("")
  }

  /** Splitting an error text at its first `:` followed by a space, as a reader of the message would. */
  function SplitErrorText(s: string): Option<(string, string)> {
    var k := IndexOf(s, ':');
    if k + 2 <= |s| && s[k..k + 2] == ": " then Some((s[..k], s[k + 2..])) else None
  }

  /** The error text can be split back into the error code and the message (empty when absent). */
  lemma SplitErrorTextOf(e: ErrorResponse)
    requires ':' !in e.error
    ensures SplitErrorText(ErrorText(e)) == Some((e.error, e.message.GetOr("")))
  {
    var s := ErrorText(e);
    IndexOfAfter(e.error, ": " + e.message.GetOr(""), ':');
    var k := |e.error|;
    assert s == e.error + ": " + e.message.GetOr("");
    assert s[k] == ':' && s[k + 1] == ' ';
    assert s[k..k + 2] == ": ";
    assert s[..k] == e.error;
    assert s[k + 2..] == e.message.GetOr("");
  }


  /** A missing message and an empty one read the same. */
  lemma MissingMessageIsEmpty(error: string)
    ensures ErrorText(ErrorResponse(error, None)) == ErrorText(ErrorResponse(error, Some("")))
    ensures ErrorText(ErrorResponse(error, None)) == error + ": "
  {
  }

  /** The success/error branch of `get`: what one response becomes. */
  function Outcome<T>(resp: Response<T>): Result<T, string> {
    match resp
    case SendFailed(reason) => Err(reason)
    case Received(success, statusText, body, errorBody) =>
      if success then body
      else Err(ErrorText(if errorBody.Some? then errorBody.value else ErrorResponse(statusText, None)))
  }

  /**
   * A success response yields its decoded body (or the decode error's text); a failed one with a structured
   * body yields `"<error>: <message or empty>"`; a failed one without yields the status text followed
   * by the separator; a transport failure yields its message.
   */
  lemma OutcomeCases<T>(resp: Response<T>)
    ensures resp.SendFailed? ==> Outcome(resp) == Err(resp.reason)
    ensures resp.Received? && resp.success ==> Outcome(resp) == resp.body
    ensures resp.Received? && !resp.success && resp.errorBody.Some? ==>
      Outcome(resp) == Err(resp.errorBody.value.error + ": " + resp.errorBody.value.message.GetOr(""))
    ensures resp.Received? && !resp.success && resp.errorBody.None? ==>
      Outcome(resp) == Err(resp.statusText + ": ")
  {
    if resp.Received? && !resp.success && resp.errorBody.None? {
      MissingMessageIsEmpty(resp.statusText);
    }
  }

  /** A failed response is never turned into a value. */
  lemma FailureIsError<T>(resp: Response<T>)
    requires resp.SendFailed? || !resp.success
    ensures Outcome(resp).Err?
  {
  }

  /** `let resp = ...?; Ok(resp.data)`: the envelope's `data`, or the error unchanged. */
  function Unwrap<D>(r: Result<Envelope<D>, string>): (u: Result<D, string>)
    ensures u.Ok? <==> r.Ok?
    ensures u.Ok? ==> u.value == r.value.data
    ensures u.Err? ==> u.error == r.error
  {
    match r
    case Ok(envelope) => Ok(envelope.data)
    case Err(e) => Err(e)
  }

  // ---------------------------------------------------------------- the client's methods

  /**
   * `get`: joins the base URL and the path, attaches every query pair once and in order, and turns
   * the response into a result.
   */
  method Get<T>(path: string, query: seq<QueryPair>, resp: Response<T>) returns (sent: Request, r: Result<T, string>)
    ensures sent.url == BaseUrl + path
    ensures sent.query == query
    ensures r == Outcome(resp)
  {
    sent := Request(BaseUrl + path, []);
    for i := 0 to |query|
      invariant sent.url == BaseUrl + path
      invariant sent.query == query[..i]
    {
      sent := sent.WithQuery(query[i]);
    }
    if resp.SendFailed? {
      return sent, Err(resp.reason);
    }
    if resp.success {
      r := resp.body;
    } else {
      var err := if resp.errorBody.Some? then resp.errorBody.value else ErrorResponse(resp.statusText, None);
      r := Err(ErrorText(err));
    }
  }


  method ListProjects(resp: Response<Envelope<seq<Project>>>) returns (sent: Request, r: Result<seq<Project>, string>)
    ensures sent == RequestOf(ListProjectsCall)
    ensures r == Unwrap(Outcome(resp))
  {
    var envelope;
    sent, envelope := Get("/projects", [], resp);
    r := Unwrap(envelope);
  }

  method GetProject(projectId: string, resp: Response<Envelope<Project>>) returns (sent: Request, r: Result<Project, string>)
    ensures sent == RequestOf(GetProjectCall(projectId))
    ensures r == Unwrap(Outcome(resp))
  {
    var path := "/projects/" + projectId;
    var envelope;
    sent, envelope := Get(path, [], resp);
    r := Unwrap(envelope);
  }

  method GetCrawlHistory(projectId: string, limit: Option<u32>, offset: Option<u32>, resp: Response<Envelope<CrawlHistoryData>>)
    returns (sent: Request, r: Result<CrawlHistoryData, string>)
    ensures sent == RequestOf(CrawlHistoryCall(projectId, limit, offset))
    ensures r == Unwrap(Outcome(resp))
  {
    var path := "/projects/" + projectId + "/crawls";
    var query := [];
    if limit.Some? {
      query := query + [QueryPair("limit", Decimal.Show(limit.value as int))];
    }
    if offset.Some? {
      query := query + [QueryPair("offset", Decimal.Show(offset.value as int))];
    }
    PresentPair(Filter("limit", DecimalOf(limit)), Filter("offset", DecimalOf(offset)));
    var envelope;
    sent, envelope := Get(path, query, resp);
    r := Unwrap(envelope);
  }

  method GetLatestCrawl(projectId: string, resp: Response<Envelope<CrawlResult>>) returns (sent: Request, r: Result<CrawlResult, string>)
    ensures sent == RequestOf(LatestCrawlCall(projectId))
    ensures r == Unwrap(Outcome(resp))
  {
    var path := "/projects/" + projectId + "/crawls/latest";
    var envelope;
    sent, envelope := Get(path, [], resp);
    r := Unwrap(envelope);
  }

  method GetIssues(projectId: string, severity: Option<string>, status: Option<string>, resp: Response<Envelope<IssuesData>>)
    returns (sent: Request, r: Result<IssuesData, string>)
    ensures sent == RequestOf(IssuesCall(projectId, severity, status))
    ensures r == Unwrap(Outcome(resp))
  {
    var path := "/projects/" + projectId + "/issues";
    var query := [];
    if severity.Some? {
      query := query + [QueryPair("severity", severity.value)];
    }
    if status.Some? {
      query := query + [QueryPair("status", status.value)];
    }
    PresentPair(Filter("severity", severity), Filter("status", status));
    var envelope;
    sent, envelope := Get(path, query, resp);
    r := Unwrap(envelope);
  }
}
