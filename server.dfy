/**
 * The tool layer (src/main.rs): five tools, each of which forwards its input to one client call and
 * turns the client's result into a tool result. JSON pretty-printing (`serde_json::to_string_pretty`)
 * is a parameter `render` of each tool.
 */
module Server {
  import opened Wrappers
  import opened Models
  import Client

  datatype Content = Text(text: string)

  /** The protocol's tool result: content blocks and the error flag. */
  datatype CallToolResult = CallToolResult(content: seq<Content>, isError: Option<bool>)

  /** A protocol-level failure; the tools below never produce one. */
  datatype McpError = McpError(message: string)

  /** `CallToolResult::success`. */
  function Success(content: seq<Content>): CallToolResult {
    CallToolResult(content, Some(false))
  }

  /** `api_error`: the client's error message as the one text block, flagged as an error. */
  function ApiError(e: string): CallToolResult {
    CallToolResult([Text(e)], Some(true))
  }

  /** `to_string_pretty(&x).unwrap_or_else(|e| e.to_string())`. */
  function RenderText<D>(value: D, render: D -> Result<string, string>): string {
    match render(value)
    case Ok(text) => text
    case Err(message) => message
  }

  /**
   * What every tool promises about its output given the client's result: it is `Ok`, it holds
   * exactly one text block, it is flagged as an error exactly when the client failed, and the text is
   * the client's error message or the rendering of the value.
   */
  predicate Reports<D>(out: Result<CallToolResult, McpError>, r: Result<D, string>, render: D -> Result<string, string>) {
    && out.Ok?
    && |out.value.content| == 1
    && (out.value.isError == Some(true) <==> r.Err?)
    && (r.Err? ==> out.value.content[0].text == r.error)
    && (r.Ok? ==> out.value.isError == Some(false) && out.value.content[0].text == RenderText(r.value, render))
  }

  /** The `match` each tool body performs on the client's result. */
  function Respond<D>(r: Result<D, string>, render: D -> Result<string, string>): (out: Result<CallToolResult, McpError>)
    ensures Reports(out, r, render)
  {
    match r
    case Ok(value) => Ok(Success([Text(RenderText(value, render))]))
    case Err(e) => Ok(ApiError(e))
  }

  /** The text of a tool result's single block. */
  function TextOf(result: CallToolResult): string
    requires |result.content| == 1
  {
    result.content[0].text
  }

  /** The error flag tells the host apart a failure from a success, and the error text comes back intact. */
  lemma ApiErrorDistinct(e: string, content: seq<Content>)
    ensures ApiError(e) != Success(content)
    ensures TextOf(ApiError(e)) == e && ApiError(e).isError == Some(true)
  {
  }

  /** When rendering fails the tool still succeeds, unflagged, and shows the renderer's message. */
  lemma RenderFailureIsNotFlagged<D>(value: D, render: D -> Result<string, string>)
    requires render(value).Err?
    ensures Respond(Ok(value), render) == Ok(CallToolResult([Text(render(value).error)], Some(false)))
  {
  }

  // ---------------------------------------------------------------- the tools

  datatype GetProjectInput = GetProjectInput(projectId: string)

  datatype GetCrawlHistoryInput = GetCrawlHistoryInput(projectId: string, limit: Option<u32>, offset: Option<u32>)

  datatype GetLatestCrawlInput = GetLatestCrawlInput(projectId: string)

  datatype GetIssuesInput = GetIssuesInput(projectId: string, severity: Option<string>, status: Option<string>)

  /** One tool invocation: the request the client sent and the tool's output. */
  datatype Invocation = Invocation(sent: Client.Request, output: Result<CallToolResult, McpError>)

  function ListProjects(resp: Client.Response<Envelope<seq<Project>>>, render: seq<Project> -> Result<string, string>)
    : (inv: Invocation)
    ensures inv.sent == Client.Request(Client.BaseUrl + "/projects", [])
    ensures Reports(inv.output, Client.Unwrap(Client.Outcome(resp)), render)
  {
    Invocation(Client.RequestOf(Client.ListProjectsCall), Respond(Client.Unwrap(Client.Outcome(resp)), render))
  }

  function GetProject(input: GetProjectInput, resp: Client.Response<Envelope<Project>>, render: Project -> Result<string, string>)
    : (inv: Invocation)
    ensures inv.sent == Client.Request(Client.BaseUrl + "/projects/" + input.projectId, [])
    ensures Reports(inv.output, Client.Unwrap(Client.Outcome(resp)), render)
  {
    Invocation(Client.RequestOf(Client.GetProjectCall(input.projectId)), Respond(Client.Unwrap(Client.Outcome(resp)), render))
  }

  /** The request carries the input's project id, limit and offset unchanged: the server reads them back. */
  function GetCrawlHistory(input: GetCrawlHistoryInput, resp: Client.Response<Envelope<CrawlHistoryData>>,
                           render: CrawlHistoryData -> Result<string, string>)
    : (inv: Invocation)
    ensures inv.sent == Client.RequestOf(Client.CrawlHistoryCall(input.projectId, input.limit, input.offset))
    ensures inv.sent.url == Client.BaseUrl + "/projects/" + input.projectId + "/crawls"
    ensures Client.ReadCrawlHistoryQuery(inv.sent.query) == (input.limit, input.offset)
    ensures forall p :: p in inv.sent.query ==> p.key == "limit" || p.key == "offset"
    ensures Reports(inv.output, Client.Unwrap(Client.Outcome(resp)), render)
  {
    Client.CrawlHistoryQueryFaithful(input.limit, input.offset);
    Invocation(Client.RequestOf(Client.CrawlHistoryCall(input.projectId, input.limit, input.offset)),
               Respond(Client.Unwrap(Client.Outcome(resp)), render))
  }

  function GetLatestCrawl(input: GetLatestCrawlInput, resp: Client.Response<Envelope<CrawlResult>>,
                          render: CrawlResult -> Result<string, string>)
    : (inv: Invocation)
    ensures inv.sent == Client.Request(Client.BaseUrl + "/projects/" + input.projectId + "/crawls/latest", [])
    ensures Reports(inv.output, Client.Unwrap(Client.Outcome(resp)), render)
  {
    Invocation(Client.RequestOf(Client.LatestCrawlCall(input.projectId)), Respond(Client.Unwrap(Client.Outcome(resp)), render))
  }

  /** The request carries the input's severity and status verbatim, `None` staying absent. */
  function GetIssues(input: GetIssuesInput, resp: Client.Response<Envelope<IssuesData>>,
                     render: IssuesData -> Result<string, string>)
    : (inv: Invocation)
    ensures inv.sent == Client.RequestOf(Client.IssuesCall(input.projectId, input.severity, input.status))
    ensures inv.sent.url == Client.BaseUrl + "/projects/" + input.projectId + "/issues"
    ensures Client.Lookup(inv.sent.query, "severity") == input.severity
    ensures Client.Lookup(inv.sent.query, "status") == input.status
    ensures forall p :: p in inv.sent.query ==> p.key == "severity" || p.key == "status"
    ensures Reports(inv.output, Client.Unwrap(Client.Outcome(resp)), render)
  {
    Client.IssuesQueryFaithful(input.severity, input.status);
    Invocation(Client.RequestOf(Client.IssuesCall(input.projectId, input.severity, input.status)),
               Respond(Client.Unwrap(Client.Outcome(resp)), render))
  }

  // ---------------------------------------------------------------- end to end

  /** For any tool: a failed response with a structured body is shown as `"<error>: <message>"`, flagged. */
  lemma StructuredErrorShown<D>(statusText: string, body: Result<Envelope<D>, string>, e: ErrorResponse,
                                render: D -> Result<string, string>)
    ensures Respond(Client.Unwrap(Client.Outcome(Client.Received(false, statusText, body, Some(e)))), render)
         == Ok(CallToolResult([Text(e.error + ": " + e.message.GetOr(""))], Some(true)))
  {
    Client.OutcomeCases(Client.Received(false, statusText, body, Some(e)));
  }

  /** For any tool: a failed response without a readable body is shown as the status text and the separator, flagged. */
  lemma UnstructuredErrorShown<D>(statusText: string, body: Result<Envelope<D>, string>,
                                  render: D -> Result<string, string>)
    ensures Respond(Client.Unwrap(Client.Outcome(Client.Received(false, statusText, body, None))), render)
         == Ok(CallToolResult([Text(statusText + ": ")], Some(true)))
  {
    Client.OutcomeCases(Client.Received(false, statusText, body, None));
  }

  /** For any tool: a success response is shown as the rendering of the envelope's data, unflagged. */
  lemma SuccessShown<D>(statusText: string, data: D, errorBody: Option<ErrorResponse>,
                        render: D -> Result<string, string>)
    ensures Respond(Client.Unwrap(Client.Outcome(Client.Received(true, statusText, Ok(Envelope(data)), errorBody))), render)
         == Ok(CallToolResult([Text(RenderText(data, render))], Some(false)))
  {
  }

  /** The five tools on `{"error":"not_found","message":"no such project"}` all show `not_found: no such project`. */
  lemma NotFoundShownByEveryTool(
    statusText: string, id: string,
    rp: Client.Response<Envelope<seq<Project>>>, fp: seq<Project> -> Result<string, string>,
    rq: Client.Response<Envelope<Project>>, fq: Project -> Result<string, string>,
    rh: Client.Response<Envelope<CrawlHistoryData>>, fh: CrawlHistoryData -> Result<string, string>,
    rl: Client.Response<Envelope<CrawlResult>>, fl: CrawlResult -> Result<string, string>,
    ri: Client.Response<Envelope<IssuesData>>, fi: IssuesData -> Result<string, string>,
    limit: Option<u32>, offset: Option<u32>, severity: Option<string>, status: Option<string>)
    requires rp.Received? && !rp.success && rp.errorBody == Some(ErrorResponse("not_found", Some("no such project")))
    requires rq.Received? && !rq.success && rq.errorBody == Some(ErrorResponse("not_found", Some("no such project")))
    requires rh.Received? && !rh.success && rh.errorBody == Some(ErrorResponse("not_found", Some("no such project")))
    requires rl.Received? && !rl.success && rl.errorBody == Some(ErrorResponse("not_found", Some("no such project")))
    requires ri.Received? && !ri.success && ri.errorBody == Some(ErrorResponse("not_found", Some("no such project")))
    ensures ListProjects(rp, fp).output == Ok(CallToolResult([Text("not_found: no such project")], Some(true)))
    ensures GetProject(GetProjectInput(id), rq, fq).output == Ok(CallToolResult([Text("not_found: no such project")], Some(true)))
    ensures GetCrawlHistory(GetCrawlHistoryInput(id, limit, offset), rh, fh).output
         == Ok(CallToolResult([Text("not_found: no such project")], Some(true)))
    ensures GetLatestCrawl(GetLatestCrawlInput(id), rl, fl).output
         == Ok(CallToolResult([Text("not_found: no such project")], Some(true)))
    ensures GetIssues(GetIssuesInput(id, severity, status), ri, fi).output
         == Ok(CallToolResult([Text("not_found: no such project")], Some(true)))
  {
    assert Client.ErrorText(ErrorResponse("not_found", Some("no such project"))) == "not_found: no such project";
    StructuredErrorShown(rp.statusText, rp.body, rp.errorBody.value, fp);
    StructuredErrorShown(rq.statusText, rq.body, rq.errorBody.value, fq);
    StructuredErrorShown(rh.statusText, rh.body, rh.errorBody.value, fh);
    StructuredErrorShown(rl.statusText, rl.body, rl.errorBody.value, fl);
    StructuredErrorShown(ri.statusText, ri.body, ri.errorBody.value, fi);
  }

  /** A failing client never makes a tool fail: every response, for every tool, gives an `Ok` output. */
  lemma ToolsNeverFail(
    id: string,
    rp: Client.Response<Envelope<seq<Project>>>, fp: seq<Project> -> Result<string, string>,
    rq: Client.Response<Envelope<Project>>, fq: Project -> Result<string, string>,
    rh: Client.Response<Envelope<CrawlHistoryData>>, fh: CrawlHistoryData -> Result<string, string>,
    rl: Client.Response<Envelope<CrawlResult>>, fl: CrawlResult -> Result<string, string>,
    ri: Client.Response<Envelope<IssuesData>>, fi: IssuesData -> Result<string, string>,
    limit: Option<u32>, offset: Option<u32>, severity: Option<string>, status: Option<string>)
    ensures ListProjects(rp, fp).output.Ok?
    ensures GetProject(GetProjectInput(id), rq, fq).output.Ok?
    ensures GetCrawlHistory(GetCrawlHistoryInput(id, limit, offset), rh, fh).output.Ok?
    ensures GetLatestCrawl(GetLatestCrawlInput(id), rl, fl).output.Ok?
    ensures GetIssues(GetIssuesInput(id, severity, status), ri, fi).output.Ok?
  {
  }
}
