/**
  What the crawl endpoint promises, branch by branch: which gate answers,
  with which status and message, which collaborators are left alone, how a
  request is routed, and how the job descriptor is defaulted.
 */
module Properties {
  import opened Json
  import opened Controller

  predicate AuthPasses(env: Collaborators) {
    env.auth.Returned? && env.auth.value.success
  }

  predicate AuthFails(env: Collaborators) {
    env.auth.Returned? && !env.auth.value.success
  }

  predicate CreditsPass(env: Collaborators) {
    env.credits.Returned? && env.credits.value.success
  }

  predicate CreditsFail(env: Collaborators) {
    env.credits.Returned? && !env.credits.value.success
  }

  /** Every gate let the request through. */
  predicate Admitted(body: map<string, Json>, env: Collaborators) {
    && AuthPasses(env)
    && CreditsPass(env)
    && Truthy(Get(body, "url"))
    && env.blocklist == Returned(false)
  }

  /** `req.body.mode ?? "crawl"`. */
  function EffectiveMode(body: map<string, Json>): Json {
    Coalesce(Get(body, "mode"), JStr(DefaultMode))
  }

  // ---------------------------------------------------------------------
  // The gates, in order

  /** A refused authentication answers with the collaborator's own status and error. */
  lemma AuthFailureResponds(body: map<string, Json>, limit: nat, env: Collaborators)
    requires AuthFails(env)
    ensures var r := CrawlController(body, limit, env);
      && r.response == Response(env.auth.value.status, ErrorBody(env.auth.value.error))
      && r.path == Rejected
      && r.calls == [Authenticate(Crawl)]
  {
  }

  /**
    Once authentication refuses or throws, nothing else matters: neither the
    body, the limit nor any later collaborator changes the outcome.
   */
  lemma AuthFailureShortCircuits(
    body: map<string, Json>, body': map<string, Json>, limit: nat, limit': nat, env: Collaborators, env': Collaborators)
    requires env.auth == env'.auth
    requires !AuthPasses(env)
    ensures CrawlController(body, limit, env) == CrawlController(body', limit', env')
  {
  }

  /** Insufficient credits give 402 with a fixed message, whatever the credit check said. */
  lemma InsufficientCreditsResponds(body: map<string, Json>, limit: nat, env: Collaborators)
    requires AuthPasses(env) && CreditsFail(env)
    ensures var r := CrawlController(body, limit, env);
      && r.response == Response(402, ErrorBody("Insufficient credits"))
      && r.path == Rejected
      && r.calls == [Authenticate(Crawl), CheckCredits(env.auth.value.teamId, 1)]
  {
  }

  /**
    The credit check's message is ignored, and once it refuses (or throws)
    neither the body nor the blocklist, fetch or queue is consulted.
   */
  lemma InsufficientCreditsShortCircuits(
    body: map<string, Json>, body': map<string, Json>, limit: nat, limit': nat, env: Collaborators, env': Collaborators)
    requires env.auth == env'.auth && AuthPasses(env)
    requires (CreditsFail(env) && CreditsFail(env')) || (env.credits.Threw? && env.credits == env'.credits)
    ensures CrawlController(body, limit, env) == CrawlController(body', limit', env')
  {
  }

  /** Without a truthy `url` the answer is 400, before the blocklist is asked. */
  lemma MissingUrlResponds(body: map<string, Json>, limit: nat, env: Collaborators)
    requires AuthPasses(env) && CreditsPass(env)
    requires !Truthy(Get(body, "url"))
    ensures var r := CrawlController(body, limit, env);
      && r.response == Response(400, ErrorBody("Url is required"))
      && r.path == Rejected
      && r.calls == [Authenticate(Crawl), CheckCredits(env.auth.value.teamId, 1)]
  {
  }

  /** An absent `url`, a `null` one and an empty string are all missing. */
  lemma AbsentOrEmptyUrlIsMissing(body: map<string, Json>)
    requires "url" !in body || body["url"] == JNull || body["url"] == JStr("")
    ensures !Truthy(Get(body, "url"))
  {
  }

  /** A missing URL leaves the blocklist, the fetch and the queue unconsulted. */
  lemma MissingUrlShortCircuits(
    body: map<string, Json>, body': map<string, Json>, limit: nat, limit': nat, env: Collaborators, env': Collaborators)
    requires env.auth == env'.auth && env.credits == env'.credits
    requires AuthPasses(env) && CreditsPass(env)
    requires !Truthy(Get(body, "url")) && !Truthy(Get(body', "url"))
    ensures CrawlController(body, limit, env) == CrawlController(body', limit', env')
  {
  }

  /** A blocked URL gets 403 with the policy message, and nothing is fetched or queued. */
  lemma BlockedUrlResponds(body: map<string, Json>, limit: nat, env: Collaborators)
    requires AuthPasses(env) && CreditsPass(env) && Truthy(Get(body, "url"))
    requires env.blocklist == Returned(true)
    ensures var r := CrawlController(body, limit, env);
      && r.response == Response(403, ErrorBody(BlockedMessage))
      && r.path == Rejected
      && r.calls == [Authenticate(Crawl), CheckCredits(env.auth.value.teamId, 1), CheckBlocklist(body["url"])]
      && forall i :: 0 <= i < |r.calls| ==> !IsDispatch(r.calls[i])
  {
  }

  /** What the fetch or the queue would do plays no part once the URL is blocked. */
  lemma BlockedUrlShortCircuits(body: map<string, Json>, limit: nat, env: Collaborators, env': Collaborators)
    requires env.auth == env'.auth && env.credits == env'.credits && env.blocklist == env'.blocklist
    requires env.blocklist == Returned(true)
    ensures CrawlController(body, limit, env) == CrawlController(body, limit, env')
  {
  }

  /** A collaborator that throws before dispatch lands in the outer handler: 500 with its message. */
  lemma GateExceptionResponds(body: map<string, Json>, limit: nat, env: Collaborators, m: string)
    requires
      || env.auth == Threw(m)
      || (AuthPasses(env) && env.credits == Threw(m))
      || (AuthPasses(env) && CreditsPass(env) && Truthy(Get(body, "url")) && env.blocklist == Threw(m))
    ensures var r := CrawlController(body, limit, env);
      && r.response == Response(500, ErrorBody(m))
      && r.path == Aborted
      && forall i :: 0 <= i < |r.calls| ==> !IsDispatch(r.calls[i])
  {
  }

  // ---------------------------------------------------------------------
  // Routing

  /**
    An admitted request is fetched synchronously exactly when its effective
    mode is "single_urls" and `url.includes(",")` is false; when it is not
    fetched and `includes` did not throw, exactly one job is submitted.
   */
  lemma RoutingRule(body: map<string, Json>, limit: nat, env: Collaborators)
    requires Admitted(body, env)
    ensures var r := CrawlController(body, limit, env);
      && (r.path.SyncFetch? <==>
            EffectiveMode(body) == JStr("single_urls") && IncludesComma(body["url"]) == Returned(false))
      && (r.path.JobSubmission? <==>
            EffectiveMode(body) != JStr("single_urls") || IncludesComma(body["url"]) == Returned(true))
      && (r.path.Aborted? <==>
            EffectiveMode(body) == JStr("single_urls") && IncludesComma(body["url"]).Threw?)
  {
  }

  /** The same rule for the usual case of a string URL. */
  lemma StringUrlRouting(body: map<string, Json>, limit: nat, env: Collaborators, url: string)
    requires Admitted(body, env) && body["url"] == JStr(url)
    ensures var r := CrawlController(body, limit, env);
      && (r.path.SyncFetch? <==> EffectiveMode(body) == JStr("single_urls") && ',' !in url)
      && (!r.path.SyncFetch? ==> r.path.JobSubmission? && r.calls[|r.calls| - 1] == AddJob(r.path.job))
      && |r.calls| == 4
  {
  }

  /** A comma-separated URL in "single_urls" mode is queued, and the job keeps that mode. */
  lemma CommaUrlKeepsSingleUrlsMode(body: map<string, Json>, limit: nat, env: Collaborators, url: string)
    requires Admitted(body, env) && body["url"] == JStr(url) && ',' in url
    requires Get(body, "mode") == Defined(JStr("single_urls"))
    ensures var r := CrawlController(body, limit, env);
      r.path.JobSubmission? && r.path.job.mode == JStr("single_urls")
  {
  }

  /** A URL that is neither a string nor an array has no `includes`: "single_urls" mode aborts with a 500. */
  lemma NonStringUrlInSingleMode(body: map<string, Json>, limit: nat, env: Collaborators)
    requires Admitted(body, env) && !body["url"].JStr? && !body["url"].JArr?
    requires EffectiveMode(body) == JStr("single_urls")
    ensures var r := CrawlController(body, limit, env);
      && r.response == Response(500, ErrorBody("url.includes is not a function"))
      && r.path == Aborted
  {
  }

  // ---------------------------------------------------------------------
  // The job descriptor

  /**
    Each field of a queued job is the body's value when one other than
    `null` was supplied, and the default otherwise; the URL and team are
    copied unchanged.
   */
  lemma JobDescriptorDefaults(body: map<string, Json>, limit: nat, env: Collaborators)
    requires Admitted(body, env)
    requires CrawlController(body, limit, env).path.JobSubmission?
    ensures var job := CrawlController(body, limit, env).path.job;
      && job.url == body["url"]
      && job.teamId == env.auth.value.teamId
      && job.mode == (if Supplied(body, "mode") then body["mode"] else JStr("crawl"))
      && job.pageOptions == (if Supplied(body, "pageOptions") then body["pageOptions"] else JObj(map["onlyMainContent" := JBool(false)]))
      && job.origin == (if Supplied(body, "origin") then body["origin"] else JStr("api"))
      && job.timeout == (if Supplied(body, "timeout") then body["timeout"] else JNum(limit * 20000))
      && job.crawlerOptions == (if Supplied(body, "crawlerOptions") then Spread(body["crawlerOptions"]) else JObj(map[]))
  {
  }

  /** Crawler options given as an object reach the job with the same contents. */
  lemma JobCrawlerOptionsCopied(body: map<string, Json>, limit: nat, env: Collaborators)
    requires Admitted(body, env)
    requires CrawlController(body, limit, env).path.JobSubmission?
    requires "crawlerOptions" in body && body["crawlerOptions"].JObj?
    ensures CrawlController(body, limit, env).path.job.crawlerOptions == body["crawlerOptions"]
  {
  }

  /**
    `??` replaces only `null` and `undefined`: falsy values the caller
    supplies, such as a zero timeout or an empty origin, reach the job.
   */
  lemma FalsyValuesPassThrough(body: map<string, Json>, limit: nat, env: Collaborators)
    requires Admitted(body, env)
    requires CrawlController(body, limit, env).path.JobSubmission?
    ensures var job := CrawlController(body, limit, env).path.job;
      && (Get(body, "timeout") == Defined(JNum(0)) ==> job.timeout == JNum(0))
      && (Get(body, "origin") == Defined(JStr("")) ==> job.origin == JStr(""))
      && (Get(body, "mode") == Defined(JStr("")) ==> job.mode == JStr(""))
      && (Get(body, "pageOptions") == Defined(JBool(false)) ==> job.pageOptions == JBool(false))
  {
  }

  /** The second `?? "crawl"` applied to the mode never changes it. */
  lemma ModeDefaultIsIdempotent(p: Property)
    ensures Coalesce(Defined(Coalesce(p, JStr("crawl"))), JStr("crawl")) == Coalesce(p, JStr("crawl"))
  {
  }

  // ---------------------------------------------------------------------
  // Dispatch and responses

  /**
    The synchronous provider fetches exactly the one URL, lists URLs only,
    uses the caller's page options (defaulted), and is raced against the
    body's own `timeout`, which is not defaulted on this path.
   */
  lemma SyncProviderOptions(body: map<string, Json>, limit: nat, env: Collaborators)
    requires CrawlController(body, limit, env).path.SyncFetch?
    ensures var r := CrawlController(body, limit, env);
      && Admitted(body, env)
      && r.path.options.mode == "single_urls"
      && r.path.options.urls == [body["url"]]
      && r.path.options.crawlerOptions == JObj(map["returnOnlyUrls" := JBool(true)])
      && r.path.options.pageOptions == (if Supplied(body, "pageOptions") then body["pageOptions"] else JObj(map["onlyMainContent" := JBool(false)]))
      && r.calls == [Authenticate(Crawl), CheckCredits(env.auth.value.teamId, 1), CheckBlocklist(body["url"]),
                     GetDocuments(r.path.options, Get(body, "timeout"))]
  {
  }

  /** Fetched documents give 200 with `{success: true, documents}`; a failed or timed-out fetch gives 500. */
  lemma SyncResponses(body: map<string, Json>, limit: nat, env: Collaborators)
    requires CrawlController(body, limit, env).path.SyncFetch?
    ensures var r := CrawlController(body, limit, env);
      && (env.documents.Returned? ==>
            r.response == Response(200, JObj(map["success" := JBool(true), "documents" := env.documents.value])))
      && (env.documents.Threw? ==> r.response == Response(500, JObj(map["error" := JStr(env.documents.message)])))
  {
  }

  /**
    The default timeout `limit * 20000` reaches only the job path. A request
    without `timeout` that is fetched synchronously races its fetch against
    an undefined delay, while the same request queued as a job carries the
    default.
   */
  lemma SyncDeadlineIsNotDefaulted(body: map<string, Json>, limit: nat, env: Collaborators)
    requires Admitted(body, env) && !Supplied(body, "timeout")
    ensures var r := CrawlController(body, limit, env);
      && (r.path.SyncFetch? ==> r.calls[3].deadline == Get(body, "timeout") && Nullish(r.calls[3].deadline))
      && (r.path.JobSubmission? ==> r.path.job.timeout == JNum(limit * 20000))
  {
  }

  /** A submitted job gives 200 with its id; a failed submission gives 500 with the message. */
  lemma JobResponses(body: map<string, Json>, limit: nat, env: Collaborators)
    requires CrawlController(body, limit, env).path.JobSubmission?
    ensures var r := CrawlController(body, limit, env);
      && Admitted(body, env)
      && (env.submission.Returned? ==> r.response == Response(200, JObj(map["jobId" := env.submission.value.id])))
      && (env.submission.Threw? ==> r.response == Response(500, JObj(map["error" := JStr(env.submission.message)])))
      && |r.calls| == 4
  {
  }

  /** Only admitted requests reach a dispatch, and a dispatch is the last call made. */
  lemma DispatchRequiresAdmission(body: map<string, Json>, limit: nat, env: Collaborators)
    ensures var r := CrawlController(body, limit, env);
      (r.path.SyncFetch? || r.path.JobSubmission?) <==> (Admitted(body, env) && !r.path.Aborted?)
  {
  }

  // ---------------------------------------------------------------------
  // Worked requests

  /** Collaborators that admit the request, fetch one document and queue job "job-123". */
  const Team: Collaborators :=
    Collaborators(
      Returned(AuthResult(true, "team-1", "", 200)),
      Returned(CreditCheck(true, "")),
      Returned(false),
      Returned(JArr([JObj(map["text" := JStr("hi")])])),
      Returned(JobHandle(JStr("job-123"))))

  /**
    One URL in "single_urls" mode, with a five-second timeout, is fetched and
    its documents returned inline.
   */
  lemma SingleUrlIsFetched()
    ensures var body := map["url" := JStr("http://a.test"), "mode" := JStr("single_urls"), "timeout" := JNum(5000)];
      var r := CrawlController(body, 10, Team);
      && r.path.SyncFetch?
      && r.calls[3] == GetDocuments(r.path.options, Defined(JNum(5000)))
      && r.response == Response(200, DocumentsBody(JArr([JObj(map["text" := JStr("hi")])])))
  {
  }

  /** Two comma-separated URLs in "single_urls" mode are queued instead. */
  lemma CommaSeparatedUrlsAreQueued()
    ensures var body := map["url" := JStr("http://a.test,http://b.test"), "mode" := JStr("single_urls")];
      var r := CrawlController(body, 10, Team);
      && r.path.JobSubmission?
      && r.response == Response(200, JobBody(JStr("job-123")))
  {
  }

  /** A crawl of one URL is queued with every default filled in and the job id returned. */
  lemma CrawlModeIsQueued()
    ensures var body := map["url" := JStr("http://a.test"), "mode" := JStr("crawl")];
      var r := CrawlController(body, 10, Team);
      && r.path == JobSubmission(JobDescriptor(
           JStr("http://a.test"), JStr("crawl"), JObj(map[]), "team-1",
           JObj(map["onlyMainContent" := JBool(false)]), JStr("api"), JNum(200000)))
      && r.response == Response(200, JobBody(JStr("job-123")))
  {
  }
}
