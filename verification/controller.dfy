/**
  The admission and dispatch decision of the crawl endpoint.

  A request passes four gates in a fixed order (authentication, credits, a
  URL being present, the blocklist), each of which may answer on its own.
  An admitted request is then either fetched synchronously (a single URL in
  "single_urls" mode) or handed to the job queue. Every collaborator the
  endpoint awaits is an input here, as the value it returned or the message
  of what it threw; the result is the one response the endpoint sends, the
  path it took and the calls it made, in order.
 */
module Controller {
  import opened Json

  /** A collaborator's settled value: what it returned, or the message of what it threw. */
  datatype Reply<T> = Returned(value: T) | Threw(message: string)

  /** The rate-limit class the endpoint authenticates under. */
  datatype RateLimiterMode = Crawl

  datatype AuthResult = AuthResult(success: bool, teamId: string, error: string, status: int)

  datatype CreditCheck = CreditCheck(success: bool, message: string)

  datatype JobHandle = JobHandle(id: Json)

  /** What each collaborator does when (and if) the endpoint consults it. */
  datatype Collaborators = Collaborators(
    auth: Reply<AuthResult>,
    credits: Reply<CreditCheck>,
    blocklist: Reply<bool>,
    documents: Reply<Json>,
    submission: Reply<JobHandle>)

  /** The options the synchronous data provider is configured with. */
  datatype ProviderOptions = ProviderOptions(mode: string, urls: seq<Json>, crawlerOptions: Json, pageOptions: Json)

  /** The job handed to the queue. */
  datatype JobDescriptor = JobDescriptor(
    url: Json,
    mode: Json,
    crawlerOptions: Json,
    teamId: string,
    pageOptions: Json,
    origin: Json,
    timeout: Json)

  /** A call to a collaborator, with the arguments the endpoint passes. */
  datatype Call =
    | Authenticate(limiter: RateLimiterMode)
    | CheckCredits(team: string, credits: int)
    | CheckBlocklist(target: Json)
    | GetDocuments(options: ProviderOptions, deadline: Property)
    | AddJob(job: JobDescriptor)

  /**
    Which way the request went: refused by a gate, aborted by an exception
    before any dispatch, fetched synchronously, or submitted as a job.
   */
  datatype Path = Rejected | Aborted | SyncFetch(options: ProviderOptions) | JobSubmission(job: JobDescriptor)

  datatype Response = Response(status: int, body: Json)

  datatype Outcome = Outcome(response: Response, path: Path, calls: seq<Call>)

  const CreditCost := 1
  const SyncMode := "single_urls"
  const DefaultMode := "crawl"
  const DefaultOrigin := "api"
  const TimeoutPerLimitUnit := 20000
  const MissingUrlMessage := "Url is required"
  const InsufficientCreditsMessage := "Insufficient credits"
  const BlockedMessage := "Firecrawl currently does not support social media scraping due to policy restrictions. We're actively working on building support for it."
  const NotAFunctionMessage := "url.includes is not a function"
  const DefaultPageOptions := JObj(map["onlyMainContent" := JBool(false)])
  const SyncCrawlerOptions := JObj(map["returnOnlyUrls" := JBool(true)])

  function ErrorBody(message: string): (body: Json)
    ensures WellFormedBody(body) && "error" in body.fields && body.fields["error"] == JStr(message)
  {
    JObj(map["error" := JStr(message)])
  }

  function DocumentsBody(docs: Json): (body: Json)
    ensures WellFormedBody(body) && "documents" in body.fields && body.fields["documents"] == docs
  {
    JObj(map["success" := JBool(true), "documents" := docs])
  }

  function JobBody(id: Json): (body: Json)
    ensures WellFormedBody(body) && "jobId" in body.fields && body.fields["jobId"] == id
  {
    JObj(map["jobId" := id])
  }

  /** A 500 response carrying the message of a caught exception. */
  function ServerError(message: string): Response {
    Response(500, ErrorBody(message))
  }

  /**
    `url.includes(",")`: a substring test on a string, an element test on an
    array, and a TypeError on any other value, which has no `includes`.
   */
  function IncludesComma(url: Json): (r: Reply<bool>)
    ensures url.JStr? ==> r == Returned(',' in url.s)
    ensures url.JArr? ==> r == Returned(JStr(",") in url.items)
    ensures r.Threw? <==> !(url.JStr? || url.JArr?)
  {
    match url
    case JStr(s) => Returned(',' in s)
    case JArr(xs) => Returned(JStr(",") in xs)
    case _ => Threw(NotAFunctionMessage)
  }

  /** The order in which the endpoint may consult its collaborators. */
  function Stage(c: Call): nat {
    match c
    case Authenticate(_) => 0
    case CheckCredits(_, _) => 1
    case CheckBlocklist(_) => 2
    case GetDocuments(_, _) => 3
    case AddJob(_) => 3
  }

  /**
    Calls happen strictly in stage order, each stage at most once: the gates
    in sequence, then at most one dispatch, never both a fetch and a job.
   */
  predicate InStageOrder(calls: seq<Call>) {
    forall i :: 0 <= i < |calls| ==> Stage(calls[i]) == i
  }

  predicate IsDispatch(c: Call) {
    c.GetDocuments? || c.AddJob?
  }

  /** The three body shapes the endpoint sends. */
  predicate WellFormedBody(body: Json) {
    && body.JObj?
    && var fields := body.fields;
       || (fields.Keys == {"error"} && fields["error"].JStr?)
       || (fields.Keys == {"success", "documents"} && fields["success"] == JBool(true))
       || fields.Keys == {"jobId"}
  }

  /**
    The job descriptor built for an admitted request, given the already
    defaulted `mode`: every other field is the body's value when one other
    than `null` was supplied, and its default otherwise.
   */
  function Job(body: map<string, Json>, limit: nat, teamId: string, url: Json, mode: Json): (job: JobDescriptor)
    ensures job.url == url && job.teamId == teamId
    ensures job.mode == (if mode != JNull then mode else JStr("crawl"))
    ensures job.crawlerOptions == (if Supplied(body, "crawlerOptions") then Spread(body["crawlerOptions"]) else JObj(map[]))
    ensures job.pageOptions == (if Supplied(body, "pageOptions") then body["pageOptions"] else JObj(map["onlyMainContent" := JBool(false)]))
    ensures job.origin == (if Supplied(body, "origin") then body["origin"] else JStr("api"))
    ensures job.timeout == (if Supplied(body, "timeout") then body["timeout"] else JNum(limit * 20000))
  {
    var crawlerOptions := Coalesce(Get(body, "crawlerOptions"), JObj(map[]));
    var pageOptions := Coalesce(Get(body, "pageOptions"), DefaultPageOptions);
    JobDescriptor(
      url,
      Coalesce(Defined(mode), JStr(DefaultMode)),
      Spread(crawlerOptions),
      teamId,
      pageOptions,
      Coalesce(Get(body, "origin"), JStr(DefaultOrigin)),
      Coalesce(Get(body, "timeout"), JNum(limit * TimeoutPerLimitUnit)))
  }

  /** Submits `job` and answers with its id, or with a 500 if submission threw. */
  function SubmitJob(env: Collaborators, job: JobDescriptor, calls: seq<Call>): (r: Outcome)
    ensures r.calls == calls + [AddJob(job)] && r.path == JobSubmission(job)
    ensures WellFormedBody(r.response.body)
    ensures env.submission.Returned? ==> r.response == Response(200, JobBody(env.submission.value.id))
    ensures env.submission.Threw? ==> r.response == ServerError(env.submission.message)
  {
    var calls' := calls + [AddJob(job)];
    match env.submission
    case Returned(handle) => Outcome(Response(200, JobBody(handle.id)), JobSubmission(job), calls')
    case Threw(m) => Outcome(ServerError(m), JobSubmission(job), calls')
  }

  /** Fetches the single URL synchronously and answers with the documents, or a 500. */
  function FetchDocuments(env: Collaborators, options: ProviderOptions, deadline: Property, calls: seq<Call>): (r: Outcome)
    ensures r.calls == calls + [GetDocuments(options, deadline)] && r.path == SyncFetch(options)
    ensures WellFormedBody(r.response.body)
    ensures env.documents.Returned? ==> r.response == Response(200, DocumentsBody(env.documents.value))
    ensures env.documents.Threw? ==> r.response == ServerError(env.documents.message)
  {
    var calls' := calls + [GetDocuments(options, deadline)];
    match env.documents
    case Returned(docs) => Outcome(Response(200, DocumentsBody(docs)), SyncFetch(options), calls')
    case Threw(m) => Outcome(ServerError(m), SyncFetch(options), calls')
  }

  /** Routing and dispatch of a request that passed every gate. */
  function Dispatch(body: map<string, Json>, limit: nat, env: Collaborators, teamId: string, url: Json, calls: seq<Call>): (r: Outcome)
    ensures WellFormedBody(r.response.body) && r.response.status in {200, 500}
    ensures r.path.Aborted? ==> r.calls == calls && r.response.status == 500
    ensures r.path.SyncFetch? ==> r.calls == calls + [GetDocuments(r.path.options, Get(body, "timeout"))]
    ensures r.path.JobSubmission? ==> r.calls == calls + [AddJob(r.path.job)]
    ensures !r.path.Rejected?
  {
    var mode := Coalesce(Get(body, "mode"), JStr(DefaultMode));
    var pageOptions := Coalesce(Get(body, "pageOptions"), DefaultPageOptions);
    var job := Job(body, limit, teamId, url, mode);
    if mode != JStr(SyncMode) then
      SubmitJob(env, job, calls)
    else
      match IncludesComma(url)
      case Threw(m) => Outcome(ServerError(m), Aborted, calls)
      case Returned(true) => SubmitJob(env, job, calls)
      case Returned(false) =>
        var options := ProviderOptions(SyncMode, [url], SyncCrawlerOptions, pageOptions);
        FetchDocuments(env, options, Get(body, "timeout"), calls)
  }

  /**
    The whole endpoint: `body` is the parsed request body, `limit` the
    multiplier of the default job timeout, `env` the collaborators' replies.
   */
  function CrawlController(body: map<string, Json>, limit: nat, env: Collaborators): (r: Outcome)
    ensures |r.calls| >= 1 && InStageOrder(r.calls)
    ensures r.calls[0] == Authenticate(Crawl)
    ensures r.path.SyncFetch? || r.path.JobSubmission? <==> IsDispatch(r.calls[|r.calls| - 1])
    ensures r.path.SyncFetch? ==> r.calls[|r.calls| - 1] == GetDocuments(r.path.options, Get(body, "timeout"))
    ensures r.path.JobSubmission? ==> r.calls[|r.calls| - 1] == AddJob(r.path.job)
    ensures WellFormedBody(r.response.body)
    ensures r.path == Rejected ==>
      || r.response.status in {400, 402, 403}
      || (env.auth.Returned? && r.response.status == env.auth.value.status && r.calls == [Authenticate(Crawl)])
    ensures r.path != Rejected ==> r.response.status in {200, 500}
    ensures r.path.Aborted? ==> r.response.status == 500 && !IsDispatch(r.calls[|r.calls| - 1])
    ensures r.response.status == 200 && !r.path.Rejected? ==> r.path.SyncFetch? || r.path.JobSubmission?
  {
    var calls := [Authenticate(Crawl)];
    match env.auth
    case Threw(m) => Outcome(ServerError(m), Aborted, calls)
    case Returned(auth) =>
      if !auth.success then
        Outcome(Response(auth.status, ErrorBody(auth.error)), Rejected, calls)
      else
        var calls := calls + [CheckCredits(auth.teamId, CreditCost)];
        match env.credits
        case Threw(m) => Outcome(ServerError(m), Aborted, calls)
        case Returned(credits) =>
          if !credits.success then
            Outcome(Response(402, ErrorBody(InsufficientCreditsMessage)), Rejected, calls)
          else
            var url := Get(body, "url");
            if !Truthy(url) then
              Outcome(Response(400, ErrorBody(MissingUrlMessage)), Rejected, calls)
            else
              var calls := calls + [CheckBlocklist(url.value)];
              match env.blocklist
              case Threw(m) => Outcome(ServerError(m), Aborted, calls)
              case Returned(blocked) =>
                if blocked then
                  Outcome(Response(403, ErrorBody(BlockedMessage)), Rejected, calls)
                else
                  Dispatch(body, limit, env, auth.teamId, url.value, calls)
  }
}
