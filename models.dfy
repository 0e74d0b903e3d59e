/**
 * The records the upstream service returns (src/models.rs). They are plain values: serde builds
 * them from JSON and nothing in the adapter changes them, so they carry no logic of their own.
 */
module Models {
  import opened Wrappers

  /** Rust's `u32`. */
  newtype u32 = x: int | 0 <= x < 0x1_0000_0000

  /** `serde_json::Value`, the free-form `details` of an issue; a number is kept abstractly as its text. */
  datatype Json =
    | JNull
    | JBool(b: bool)
    | JNumber(literal: string)
    | JString(s: string)
    | JArray(items: seq<Json>)
    | JObject(members: seq<(string, Json)>)

  datatype Project = Project(id: string, name: string, url: string, createdAt: string)

  datatype IssueCounts = IssueCounts(critical: u32, warning: u32, info: u32)

  datatype CrawlSummary = CrawlSummary(
    id: string,
    status: string,
    crawledAt: string,
    score: Option<u32>,
    issueCounts: Option<IssueCounts>,
    httpStatus: Option<u32>,
    responseTimeMs: Option<u32>)

  datatype OpenGraph = OpenGraph(title: Option<string>, description: Option<string>, image: Option<string>)

  datatype SeoData = SeoData(
    title: Option<string>,
    metaDescription: Option<string>,
    h1Tags: Option<seq<string>>,
    canonicalUrl: Option<string>,
    language: Option<string>,
    robotsMeta: Option<string>,
    openGraph: Option<OpenGraph>)

  datatype ContentMetrics = ContentMetrics(
    wordCount: Option<u32>,
    listCount: Option<u32>,
    imageCount: u32,
    linkCount: u32,
    internalLinkCount: u32,
    externalLinkCount: u32)

  datatype Image = Image(src: string, alt: string, hasAlt: bool)

  datatype Link = Link(href: string, text: string, isInternal: bool)

  datatype GeoAnalysis = GeoAnalysis(
    citationScore: Option<u32>,
    citableFactsCount: Option<u32>,
    questionsAnswered: Option<seq<string>>,
    strengths: Option<seq<string>>,
    weaknesses: Option<seq<string>>,
    recommendations: Option<seq<string>>,
    authorityTopics: Option<seq<string>>,
    analyzedAt: Option<string>)

  datatype CrawlResult = CrawlResult(
    id: string,
    projectId: string,
    status: string,
    errorMessage: Option<string>,
    crawledAt: string,
    score: Option<u32>,
    issueCounts: Option<IssueCounts>,
    httpStatus: Option<u32>,
    responseTimeMs: Option<u32>,
    seoData: Option<SeoData>,
    contentMetrics: Option<ContentMetrics>,
    images: Option<seq<Image>>,
    links: Option<seq<Link>>,
    geoAnalysis: Option<GeoAnalysis>)

  datatype Issue = Issue(
    id: string,
    issueType: string,
    severity: string,
    message: string,
    details: Option<Json>,
    status: string,
    createdAt: string,
    updatedAt: string)

  datatype IssuesSummary = IssuesSummary(
    critical: u32, warning: u32, info: u32, open: u32, acknowledged: u32, ignored: u32)

  datatype CrawlHistoryData = CrawlHistoryData(crawls: seq<CrawlSummary>, total: u32, limit: u32, offset: u32)

  datatype IssuesData = IssuesData(issues: seq<Issue>, total: u32, summary: IssuesSummary)

  /** The `{ "data": ... }` wrapper of every successful response (ProjectListResponse, ProjectResponse, ...). */
  datatype Envelope<D> = Envelope(data: D)

  /** The body of a failed response: `{ "error": ..., "message"?: ... }`. */
  datatype ErrorResponse = ErrorResponse(error: string, message: Option<string>)
}
