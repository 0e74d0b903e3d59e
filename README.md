# RankPath tool server: request construction and result mapping

This project models the bookkeeping inside the RankPath tool server, a thin adapter between a
tool-calling protocol host and the RankPath SEO REST service. It has two layers:

- **The REST client** (`src/client.rs`, module `Client` in `client.dfy`). Each public method builds
  a GET request described by a URL and an ordered list of query pairs. Optional filters add a pair
  only when they are present. `get` attaches the pairs one by one in a loop. It then turns the
  transport's answer into a value or into one error string `"<error>: <message or empty>"`,
  falling back to the HTTP status text when the error body cannot be read. Each method finally
  unwraps the `{ data: ... }` envelope.
- **The tool layer** (`src/main.rs`, module `Server` in `server.dfy`). Five tools pass their inputs
  unchanged to the matching client call. Each turns the client's result into a tool result that
  is always `Ok` and holds exactly one text block. A client error becomes an error-flagged result
  holding the error message. A value becomes an unflagged result holding its pretty-printed JSON,
  or the printer's error message if printing fails.

Supporting modules: `Wrappers` (Option, Result), `Models` (the records of `src/models.rs`, with
`u32` as a newtype) and `Decimal` (`u32::to_string` and a decimal reader that reads it back).

The transport is an input. A `Client.Response<T>` is either a send failure with its message, or
a received response with four parts:
- a success flag;
- the status text;
- the body decoded as the expected envelope, or the decoder's message;
- the same body decoded as an `ErrorResponse`, or nothing.

The client methods in the model return the `Request` they hand to the transport as well as their
result, so a contract can state what is sent. JSON pretty-printing is a function parameter
`render: D -> Result<string, string>` of every tool. The client methods are imperative, as the
source builds its query with `push` and attaches pairs in a `for` loop. The tool functions are
pure and use the specification functions `Client.RequestOf`, `Client.Outcome` and `Client.Unwrap`,
which the client methods are proved to agree with.

## Model

| member | source | states |
|---|---|---|
| Decimal.Show | src/client.rs:64-69 | the decimal text of a number is non-empty, all digits, and has no leading zero unless it is "0" |
| Decimal.ParseShow | src/client.rs:64-69 | reading the decimal text back gives the same number |
| Decimal.ShowInjective | src/client.rs:64-69 | distinct limits or offsets are sent as distinct texts |
| Decimal.ReadShow | src/client.rs:64-69 | every u32 sent as text is read back by a decimal reader as the same u32 |
| Decimal.ShowExamples | src/client.rs:65 | 0, 5 and 10 are sent as "0", "5" and "10" |
| Client.Get | src/client.rs:18-43 | the URL is BASE_URL followed by the path; every query pair is attached exactly once and in list order; the result is the outcome of the response |
| Client.Unwrap | src/client.rs:46-96 | success exactly when `get` succeeded; on success the envelope's data field unchanged; on failure the same error string |
| Client.ListProjects | src/client.rs:45-48 | sends GET BASE_URL/projects with an empty query; returns the unwrapped outcome |
| Client.GetProject | src/client.rs:50-54 | sends GET BASE_URL/projects/{id} with an empty query; returns the unwrapped outcome |
| Client.GetCrawlHistory | src/client.rs:56-72 | sends GET BASE_URL/projects/{id}/crawls with the crawl-history query built by the conditional pushes; returns the unwrapped outcome |
| Client.GetLatestCrawl | src/client.rs:74-78 | sends GET BASE_URL/projects/{id}/crawls/latest with an empty query; returns the unwrapped outcome |
| Client.GetIssues | src/client.rs:80-96 | sends GET BASE_URL/projects/{id}/issues with the issues query built by the conditional pushes; returns the unwrapped outcome |
| Client.RouteOfPath | src/client.rs:46-86 | each of the five joined path strings, built from a plain id (no `/`, `\`, `?`, `#` or `%`, not `.` or `..`), splits back into the resource and id it names |
| Client.IdIsNotEscaped | src/client.rs:51 | an id is interpolated raw: project id "p/crawls/latest" produces the latest-crawl path of project "p" |
| Client.UrlOfCall | src/client.rs:23 | for a plain id, the request URL string starts with BASE_URL and the rest splits back into the call's resource |
| Client.QueryOnlyWithFilters | src/client.rs:46-76 | list_projects, get_project and get_latest_crawl always send an empty query; crawl history without limit or offset does too |
| Client.LookupPresent | src/client.rs:63-69 | with distinct keys, the query built from optional filters reads back each filter's value, absent ones as absent |
| Client.LookupAbsent | src/client.rs:63-69 | a key that no filter has never appears in the query |
| Client.PresentFromFilters | src/client.rs:63-69 | every query pair comes from a present filter with that key and that value |
| Client.CrawlHistoryQueryFaithful | src/client.rs:63-69 | a limit pair exactly when limit is given, an offset pair exactly when offset is given, their values the decimal texts, no other key, limit before offset, and a decimal reader reads back exactly (limit, offset) |
| Client.IssuesQueryFaithful | src/client.rs:87-93 | a severity pair exactly when severity is given, a status pair exactly when status is given, both verbatim with no check of their values, no other key, severity before status |
| Client.QueryExamples | src/client.rs:63-93 | no limit and no offset give an empty query; limit 5 and offset 10 give [("limit","5"),("offset","10")]; only status "open" gives [("status","open")] |
| Client.OutcomeCases | src/client.rs:28-42 | success gives the decoded body; failure with a structured body gives "error: message" with an absent message as empty; failure with an unreadable body gives the status text followed by ": "; a send failure gives its message |
| Client.FailureIsError | src/client.rs:30-42 | a failed or unsent response is never turned into a value |
| Client.MissingMessageIsEmpty | src/client.rs:37-41 | an absent message reads like an empty one, so the text keeps its trailing separator |
| Client.SplitErrorTextOf | src/client.rs:41 | the error text splits back into the error code and the message when the code has no colon |
| Server.Respond | src/main.rs:71-78 | the output is Ok with one text block; flagged as an error exactly when the client failed; the text is the error message or the rendered value |
| Server.ApiErrorDistinct | src/main.rs:154-159 | api_error gives one text block equal to the message with is_error Some(true), never equal to a success result |
| Server.RenderFailureIsNotFlagged | src/main.rs:74 | when rendering fails the tool still returns an unflagged success whose text is the rendering error |
| Server.ListProjects | src/main.rs:70-79 | sends GET BASE_URL/projects with no query; output reports the client's result |
| Server.GetProject | src/main.rs:82-93 | sends GET for the input's project id with no query; output reports the client's result |
| Server.GetCrawlHistory | src/main.rs:96-111 | sends the request of the client's crawl-history call on the input's project id, limit and offset unchanged: its query reads back as that limit and offset, with no other key; output reports the client's result |
| Server.GetLatestCrawl | src/main.rs:116-127 | sends GET for the input's project id's latest crawl with no query; output reports the client's result |
| Server.GetIssues | src/main.rs:132-151 | sends the request of the client's issues call on the input's project id, severity and status unchanged: its query holds the input's severity and status verbatim, absent ones absent, no other key; output reports the client's result |
| Server.StructuredErrorShown | src/client.rs:33-41 | for any tool, a failed response with body {error, message} is shown as the flagged text "error: message" |
| Server.UnstructuredErrorShown | src/client.rs:37-41 | for any tool, a failed response with an unreadable body is shown as the flagged text "status text: " |
| Server.SuccessShown | src/main.rs:72-75 | for any tool, a success response is shown as the unflagged rendering of the envelope's data |
| Server.NotFoundShownByEveryTool | src/main.rs:70-151 | all five tools show {"error":"not_found","message":"no such project"} as the flagged text "not_found: no such project" |
| Server.ToolsNeverFail | src/main.rs:70-151 | no tool returns a protocol error for any response |

## Left out

- HTTP transport: the reqwest send, TLS, connection pooling and the bearer-auth header are not modelled. A response is an input value.
- Percent-encoding of query values is not modelled. A query is a sequence of string pairs.
- reqwest's parsing of the joined URL string is not modelled: `?`, `#`, `\`, `%` and dot segments in an id would change where the request goes. `Client.Route`, `Client.RouteOfPath` and `Client.UrlOfCall` are statements about the joined string, for plain ids only.
- The mapping from a status code to "success" and to its display text is not modelled. Both are fields of the response.
- JSON decoding and pretty-printing by serde are library code. The model treats decoding as given results inside the response and pretty-printing as the `render` parameter. The serde rename attributes and the JSON round-trip of records are therefore not modelled.
- The optional-field fidelity of decoded records rests on serde. `Models` only mirrors the record shapes.
- Error kinds are not kept apart. A transport error, a decoding error and an API error all become one string, as in the source.
- `CallToolResult::success` is library code. The model takes it to set `is_error` to `Some(false)`.
- The protocol plumbing is not modelled: the server handler's `get_info`, `call_tool` and `list_tools`, the tool macros and the input schemas. A protocol-level failure, such as a missing input field, happens before any tool runs and is outside the model.
- The entry point is not modelled: reading `RANKPATH_API_KEY`, the panic when it is missing, and the stdio transport.
- async/await and the shared `Arc` client only serve concurrency. The calls are modelled as sequential.
- Idempotence needs no lemma. Every tool is a function of its input, its response and its renderer, so repeating a call gives the same output.
- The service's documented ranges (limit 1–100, a non-empty project id) are not checked by the code. The model does not check them either: any u32 and any string are forwarded.
