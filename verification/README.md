# Crawl endpoint: admission and dispatch

This project models the crawl endpoint of the Firecrawl API (`crawlController`).
A request passes four gates in a fixed order, and each gate can answer on its own:

1. authentication under the `Crawl` rate-limit class;
2. a credit check for one credit;
3. a truthy `url` in the body;
4. the URL blocklist.

An admitted request then takes one of two routes:

- In `"single_urls"` mode, with a URL that contains no comma, the URL is fetched synchronously and the documents are returned inline.
- Otherwise a job descriptor is built, with its defaults filled in, and submitted to the queue. The endpoint answers with the job id.

The endpoint is one pure, total function, `Controller.CrawlController(body, limit, env)`:

- `body` is the parsed JSON request body, a `map<string, Json>`.
- `limit` is the multiplier of the default job timeout.
- `env` holds what each collaborator does when it is consulted. Each one either returns a value or throws with a message. The collaborators are authentication, the credit check, the blocklist, the document fetch (a timeout is a throw with "Timeout exceeded") and job submission.

The result is an `Outcome` with three parts:

- the single response sent (status and JSON body);
- the path taken: `Rejected` by a gate, `Aborted` by an exception before dispatch, `SyncFetch` with the provider options, or `JobSubmission` with the job descriptor;
- the calls made to collaborators, with their arguments and in order.

Modules:
- `Decimal` (decimal.dfy): canonical decimal spelling of indices, with a parse round trip and injectivity.
- `Json` (json.dfy): JSON values, and the JavaScript truthiness, `??` and object spread the endpoint relies on.
- `Controller` (controller.dfy): the endpoint and its global guarantees.
- `Properties` (properties.dfy): one lemma per branch, the short-circuit (independence) lemmas, the routing rule, the job defaults, and worked requests.

### Notes on the code
- `mode` is defaulted with `??`, so only `null` and `undefined` are replaced, and a falsy mode such as `""` is kept and queued.
- The default timeout `limit * 20000` (line 29) is applied only on the job path (line 92).
  - The synchronous path passes the body's raw `timeout` to both timers (lines 73-74).
  - When the body has no `timeout`, that delay is `undefined`. Node turns an `undefined`, NaN or sub-1 delay into 1 ms.
  - So such a request answers 500 "Timeout exceeded" unless the fetch settles within about a millisecond.
  - The model records the raw value in the `GetDocuments` call (`Properties.SyncDeadlineIsNotDefaulted`). The race itself is an input: the `documents` reply.
- The fetch-and-timer race and the outer race (lines 72-75) have the same deadline and the same error. In the model both are the single `documents` reply.

## Model

| member | source | states |
|---|---|---|
| Controller.CrawlController | apps/api/src/controllers/crawl.ts:27-100 | One response per request. Collaborators are called strictly in the order auth, credits, blocklist, then at most one dispatch, which is the last call. Rejections carry 400/402/403 or the auth collaborator's own status, with only the auth call made in that last case. Every other outcome is 200 or 500. Every body is `{error}`, `{success: true, documents}` or `{jobId}` |
| Controller.Dispatch | apps/api/src/controllers/crawl.ts:55-93 | An admitted request gets 200 or 500 and is never rejected. An abort adds no call. A fetch or a job adds exactly one call, carrying the body's raw timeout or the job descriptor |
| Controller.SubmitJob | apps/api/src/controllers/crawl.ts:85-95 | Submission records one `AddJob` call. A returned handle gives 200 `{jobId: id}`; a throw gives 500 `{error: message}` |
| Controller.FetchDocuments | apps/api/src/controllers/crawl.ts:61-83 | The fetch records one `GetDocuments` call. Documents give 200 `{success: true, documents}`; a throw, timeout included, gives 500 `{error: message}` |
| Controller.IncludesComma | apps/api/src/controllers/crawl.ts:60 | `url.includes(",")` is a character test on a string and an element test on an array. It throws exactly when the URL is neither |
| Json.Get | apps/api/src/controllers/crawl.ts:46 | Reading a body field gives `undefined` exactly when the key is absent, and the stored value otherwise |
| Json.Spread | apps/api/src/controllers/crawl.ts:88 | `{...x}` is always an object. An object keeps its contents. An array or string becomes an object keyed exactly by its decimal indices. Other primitives give `{}` |
| Json.SpreadEmptyObject | apps/api/src/controllers/crawl.ts:56-88 | Spreading the `{}` default of `crawlerOptions` gives `{}` |
| Json.Truthy | apps/api/src/controllers/crawl.ts:47 | `!url` truthiness: every nullish value is falsy, while `""`, `0` and `false` are falsy without being nullish |
| Json.Coalesce | apps/api/src/controllers/crawl.ts:55-92 | `??`: a supplied non-null value wins even when falsy; `null`/`undefined` give the fallback; the result is never `null` when the fallback is not |
| Controller.Job | apps/api/src/controllers/crawl.ts:85-93 | The job copies `url` and `team_id`. Mode is the given mode unless `null` ("crawl"). `crawlerOptions` is the spread of the supplied value or `{}`. pageOptions, origin and timeout are the supplied non-null value or `{onlyMainContent: false}`, "api", `limit*20000` |
| Decimal.Show | apps/api/src/controllers/crawl.ts:88 | Index keys are non-empty, all digits, and have no leading zero except for 0 |
| Decimal.ParseShow | apps/api/src/controllers/crawl.ts:88 | Reading an index key back gives the index |
| Decimal.ShowInjective | apps/api/src/controllers/crawl.ts:88 | Distinct indices give distinct keys, so a spread copy loses no element |
| Properties.AuthFailureResponds | apps/api/src/controllers/crawl.ts:31-38 | Refused auth answers with the collaborator's status and `{error}`, after the auth call only |
| Properties.AuthFailureShortCircuits | apps/api/src/controllers/crawl.ts:31-38 | After a refused or throwing auth, the body, the limit and every later collaborator leave the outcome unchanged |
| Properties.InsufficientCreditsResponds | apps/api/src/controllers/crawl.ts:40-44 | Failed credits give 402 "Insufficient credits", after auth and one credit check for the team at cost 1 |
| Properties.InsufficientCreditsShortCircuits | apps/api/src/controllers/crawl.ts:40-44 | The credit message is ignored. Neither the body nor any later collaborator affects the outcome |
| Properties.MissingUrlResponds | apps/api/src/controllers/crawl.ts:46-49 | A falsy `url` gives 400 "Url is required", and the blocklist is not consulted |
| Properties.AbsentOrEmptyUrlIsMissing | apps/api/src/controllers/crawl.ts:47 | An absent, `null` or empty-string `url` is falsy |
| Properties.MissingUrlShortCircuits | apps/api/src/controllers/crawl.ts:46-49 | With a falsy URL, the blocklist, the fetch, the queue and the rest of the body do not matter |
| Properties.BlockedUrlResponds | apps/api/src/controllers/crawl.ts:51-53 | A blocked URL gives 403 with the policy message, and no dispatch call is made |
| Properties.BlockedUrlShortCircuits | apps/api/src/controllers/crawl.ts:51-53 | With a blocked URL, the fetch and queue replies do not matter |
| Properties.GateExceptionResponds | apps/api/src/controllers/crawl.ts:96-98 | A throw from auth, credits or the blocklist gives 500 `{error: message}`, with no dispatch |
| Properties.RoutingRule | apps/api/src/controllers/crawl.ts:55-60 | An admitted request is fetched iff the effective mode is "single_urls" and `includes(",")` is false. It is queued iff the mode differs or `includes` is true. It aborts iff `includes` throws in that mode |
| Properties.StringUrlRouting | apps/api/src/controllers/crawl.ts:60 | For a string URL: fetched iff mode "single_urls" and no comma; otherwise exactly one job is submitted, as the fourth and last call |
| Properties.CommaUrlKeepsSingleUrlsMode | apps/api/src/controllers/crawl.ts:60-87 | "single_urls" with a comma is queued, and the job keeps mode "single_urls" |
| Properties.NonStringUrlInSingleMode | apps/api/src/controllers/crawl.ts:60 | In "single_urls" mode a URL that is neither a string nor an array aborts with 500 "url.includes is not a function" |
| Properties.JobDescriptorDefaults | apps/api/src/controllers/crawl.ts:29-93 | Each job field takes the supplied non-null body value, or else its default: "crawl", `{}`, `{onlyMainContent: false}`, "api", or `limit*20000`. The URL and team id are copied |
| Properties.JobCrawlerOptionsCopied | apps/api/src/controllers/crawl.ts:88 | Object crawler options reach the job with the same contents |
| Properties.FalsyValuesPassThrough | apps/api/src/controllers/crawl.ts:55-92 | A supplied timeout 0, origin "", mode "" or pageOptions `false` reaches the job unchanged |
| Properties.ModeDefaultIsIdempotent | apps/api/src/controllers/crawl.ts:55-87 | The second `?? "crawl"` never changes the mode |
| Properties.SyncProviderOptions | apps/api/src/controllers/crawl.ts:60-75 | A fetch happens only when admitted. The provider gets mode "single_urls", urls `[url]`, `{returnOnlyUrls: true}` and the defaulted pageOptions. It races against the raw body timeout, as the fourth and last call |
| Properties.SyncDeadlineIsNotDefaulted | apps/api/src/controllers/crawl.ts:29-92 | With no `timeout` in the body, a synchronous fetch is raced against the undefined raw value, while a queued job gets `limit*20000` |
| Properties.SyncResponses | apps/api/src/controllers/crawl.ts:76-83 | Documents give 200 `{success: true, documents}`. Any throw from the fetch, "Timeout exceeded" included, gives 500 `{error: message}` |
| Properties.JobResponses | apps/api/src/controllers/crawl.ts:85-95 | A job is submitted only when admitted. A handle gives 200 `{jobId}`; a failed submission gives 500 `{error}` |
| Properties.DispatchRequiresAdmission | apps/api/src/controllers/crawl.ts:36-60 | A dispatch happens iff every gate passed and `includes` did not throw |
| Properties.SingleUrlIsFetched | apps/api/src/controllers/crawl.ts:60-79 | Worked request: one URL in "single_urls" mode with timeout 5000 is fetched against that deadline and returns its documents inline |
| Properties.CommaSeparatedUrlsAreQueued | apps/api/src/controllers/crawl.ts:60-95 | Worked request: two comma-separated URLs in "single_urls" mode are queued |
| Properties.CrawlModeIsQueued | apps/api/src/controllers/crawl.ts:85-95 | Worked request: a crawl is queued with every default filled in and answers `{jobId: "job-123"}` |

## Left out
- The timeout race: `getDocumentsWithTimeout` and the outer `Promise.race` with `setTimeout`, lines 10-25 and 72-75. These are timers and concurrency. Their result is the `documents` reply, and a timeout is `Threw("Timeout exceeded")`. So the model does not derive that a missing `timeout` almost always ends in that reply.
- `authenticateUser`, `checkTeamCredits`, `isUrlBlocked`, `WebScraperDataProvider` and `addWebScraperJob` are not part of this model. They do network, database and queue work. Their results are the inputs in `Collaborators`.
- `billTeam` is imported but never called.
- The Express `req`/`res` plumbing and the `console.error` logging are I/O only. `res.status(...)` and `res.json(...)` become the `Response` value.
- `this.limit` at line 29 becomes the explicit `limit: nat` parameter. How `this` is bound, and a throw from reading it, are not modelled. `limit * 20000` is exact integer arithmetic, not floating point.
- JSON numbers are integers. NaN, fractions and floating-point rounding are not modelled.
- String spread uses Dafny characters (Unicode scalar values), not UTF-16 code units.
- The contents of `crawlerOptions` and `pageOptions` are opaque JSON values. They are only defaulted, passed on, or copied by spread.
- `res.status` with an invalid status code, and JSON serialisation of `undefined` fields, are not modelled. The auth error and the thrown messages are strings.
