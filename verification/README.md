# smockin mock server core, in Dafny

This project models the request-serving core of smockin, an HTTP mock server. It has three parts.

- **Request interception pipeline** (`MockedRestServerEngineUtils`, module `EngineUtils`).
  - An inbound request is first offered to an upstream backend as a single-attempt passthrough. Its headers are forwarded without `Content-Length` and `Host`.
  - A reply other than 404 is relayed: its status is set on the response and its body is returned. Otherwise the matching mock is looked up.
  - An SSE mock registers the caller under the owner's path.
  - Any other mock is pruned in place of its suspended response variants and rules. It is then resolved by the service for its type. Without an outcome it falls back to `getDefault`: 404 for an HTTP proxy mock, otherwise its first variant. Then comes inbound-parameter enrichment, then the optional latency.
  - Any failure past the passthrough becomes a 500.
- **Upstream passthrough client** (`HttpClientServiceImpl`, module `HttpClient`).
  - It validates the call descriptor and answers 404 while the mock server is down.
  - It rewrites the URL onto the redirect base with the slash-collapsing regex `(?<!(http:|https:))//{2,}`, then sends the request for its verb.
  - The rewrite is proved equal to a run-by-run description. A maximal run of three or more slashes becomes one. A run of two stays. Right after "http:" or "https:", the lookbehind only blocks a match at the run's first slash, so a run of four or more there becomes "//".
  - Unless asked for a single attempt, it retries a 404 against `http://localhost:<port>` + the caller's path. Transport failures read as 404.
- **Server engine** (`MockedRestServerEngine`, module `Engine`).
  - It holds the two-field server state and the start and shutdown transitions: configure, publish the index page, bind one route per mock, listen.
  - It also has its own, smaller resolve-and-default handler.

Supporting modules:
- `Common` holds the shared values: verbs, mock types, roles, response variants and failures. It also holds the pieces of `String.equalsIgnoreCase`, `Character.isWhitespace` and `StringUtils.isBlank`/`defaultIfBlank` the core relies on.
- `Web` holds the inbound request and the mutable response.
- `Mocks` holds the mock entity and the suspend-pruning specification.

Foreign collaborators are inputs:
- the network is an answer function with a log of what was sent (`HttpClient.Upstream`);
- the mock store is a lookup function with a log of queries (`EngineUtils.RestfulMockDao`);
- the resolver services and the parameter-match service are functions in `EngineUtils.Collaborators`;
- the server-state snapshot the client reads is a parameter;
- whether the embedded server comes up, and whether the shutdown wait is interrupted, are boolean parameters.

Each method that changes state is proved against a specification function: `HandleCallSpec`, `ProcessRequestSpec`, `LoadMockedResponseSpec`, `Unsuspended`/`Pruned`, `KeptHeaders`, `IndexHtml`, `BindEndpoints`. The lemmas state what those functions promise.

## Model

| member | source | states |
|---|---|---|
| Common.DefaultIfBlank | src/main/java/com/smockin/mockserver/engine/MockedRestServerEngineUtils.java:228 | A blank (null or whitespace-only) body becomes the default; any other body is returned unchanged. |
| Common.IntToString | src/main/java/com/smockin/admin/service/HttpClientServiceImpl.java:63 | The port is rendered as a non-empty decimal string, starting with '-' exactly when negative. |
| Common.IntToStringValue | src/main/java/com/smockin/admin/service/HttpClientServiceImpl.java:63 | A non-negative port renders as digits denoting it; a negative one as '-' followed by the digits of its magnitude. |
| Common.NatToStringValue | src/main/java/com/smockin/admin/service/HttpClientServiceImpl.java:63 | The digits rendered denote the number: DecimalValue(NatToString(n)) == n. |
| Common.IsBlank | src/main/java/com/smockin/admin/service/HttpClientServiceImpl.java:159 | null and "" are blank; a string whose first character is not whitespace is not. |
| Common.BlankJoin | src/main/java/com/smockin/mockserver/engine/MockedRestServerEngineUtils.java:228 | A string is blank exactly when both of its parts are blank. |
| Common.NatToString | src/main/java/com/smockin/admin/service/HttpClientServiceImpl.java:63 | A non-negative port is rendered as a non-empty string of decimal digits, with no leading zero unless it is "0". |
| Web.Response.constructor | src/main/java/com/smockin/mockserver/engine/MockedRestServerEngineUtils.java:96-98 | A fresh response starts at status 200 with no content type, headers or body. |
| Mocks.RestfulMock.constructor | src/main/java/com/smockin/mockserver/engine/MockedRestServerEngineUtils.java:127-145 | A mock entity holds exactly the stored mock's values. |
| Mocks.Unsuspended | src/main/java/com/smockin/mockserver/engine/MockedRestServerEngineUtils.java:242-265 | Pruning never lengthens a list. |
| Mocks.UnsuspendedSnoc | src/main/java/com/smockin/mockserver/engine/MockedRestServerEngineUtils.java:247-253 | Pruning a list one element longer keeps the new element exactly when it is not flagged. |
| Mocks.UnsuspendedAppend | src/main/java/com/smockin/mockserver/engine/MockedRestServerEngineUtils.java:242-265 | Pruning distributes over concatenation, so the relative order is kept. |
| Mocks.UnsuspendedHasNoSuspended | src/main/java/com/smockin/mockserver/engine/MockedRestServerEngineUtils.java:250-252 | No flagged element is left after pruning. |
| Mocks.UnsuspendedCounts | src/main/java/com/smockin/mockserver/engine/MockedRestServerEngineUtils.java:242-265 | Each flagged element occurs 0 times afterwards; each unflagged one occurs as often as before. |
| Mocks.UnsuspendedKeepsInPlace | src/main/java/com/smockin/mockserver/engine/MockedRestServerEngineUtils.java:242-265 | An unflagged element stays between the survivors before it and the survivors after it. |
| Mocks.UnsuspendedIdentity | src/main/java/com/smockin/mockserver/engine/MockedRestServerEngineUtils.java:242-265 | A list with nothing flagged is left as it is. |
| Mocks.UnsuspendedIdempotent | src/main/java/com/smockin/mockserver/engine/MockedRestServerEngineUtils.java:242-265 | A second pruning pass changes nothing. |
| Mocks.PrunedIsFinal | src/main/java/com/smockin/mockserver/engine/MockedRestServerEngineUtils.java:242-265 | Pruning a mock is idempotent, and afterwards neither list holds a suspended entry. |
| HttpClient.CallDescriptor.constructor | src/main/java/com/smockin/mockserver/engine/MockedRestServerEngineUtils.java:103-109 | The descriptor carries the given URL, verb, headers and body. |
| HttpClient.Upstream.constructor | src/main/java/com/smockin/admin/service/HttpClientServiceImpl.java:109-147 | The network starts with nothing sent. |
| HttpClient.Upstream.Execute | src/main/java/com/smockin/admin/service/HttpClientServiceImpl.java:109-147 | Sending one request logs exactly that request and returns the network's answer to it. |
| HttpClient.ValidateRequest | src/main/java/com/smockin/admin/service/HttpClientServiceImpl.java:157-167 | The call may proceed iff the URL is not blank and the verb is present; a blank URL is reported as "url is required" before the verb is checked. |
| HttpClient.RequestBody | src/main/java/com/smockin/admin/service/HttpClientServiceImpl.java:109-147 | GET and DELETE requests go out without a body; POST, PUT and PATCH carry the descriptor's body. |
| HttpClient.RequestHeaders | src/main/java/com/smockin/admin/service/HttpClientServiceImpl.java:169-177 | A null header map adds no headers; otherwise exactly the given headers are added. |
| HttpClient.SlashRun | src/main/java/com/smockin/admin/service/HttpClientServiceImpl.java:58 | The count is the maximal run of '/' starting at a position. |
| HttpClient.CollapseFrom | src/main/java/com/smockin/admin/service/HttpClientServiceImpl.java:58 | The regex replacement never lengthens the URL. |
| HttpClient.WithoutSlashesAppend | src/main/java/com/smockin/admin/service/HttpClientServiceImpl.java:58 | Removing slashes distributes over concatenation. |
| HttpClient.WithoutSlashesSkipsRun | src/main/java/com/smockin/admin/service/HttpClientServiceImpl.java:58 | Skipping a run of slashes loses no other character. |
| HttpClient.CollapseKeepsOtherCharacters | src/main/java/com/smockin/admin/service/HttpClientServiceImpl.java:58 | The rewrite only removes slashes: every other character survives, in order. |
| HttpClient.ShortRun | src/main/java/com/smockin/admin/service/HttpClientServiceImpl.java:58 | Where three slashes do not start, the run there is shorter than three. |
| HttpClient.CollapseCopies | src/main/java/com/smockin/admin/service/HttpClientServiceImpl.java:58 | A stretch with no three consecutive slashes is copied unchanged. |
| HttpClient.CollapseWithoutTripleSlash | src/main/java/com/smockin/admin/service/HttpClientServiceImpl.java:58 | A URL with no three consecutive slashes is unchanged: `//{2,}` needs three slashes, so "//" stays. |
| HttpClient.SlashRunExact | src/main/java/com/smockin/admin/service/HttpClientServiceImpl.java:58 | The run count is exactly the length of a maximal slash run. |
| HttpClient.CollapseRunToOne | src/main/java/com/smockin/admin/service/HttpClientServiceImpl.java:58 | One step of the scan: at a maximal run of three or more slashes that does not follow "http:" or "https:", the run becomes a single '/'. |
| HttpClient.NoMatchInBase | src/main/java/com/smockin/admin/service/HttpClientServiceImpl.java:58 | No match starts inside "http://" + host. |
| HttpClient.BaseIsNoScheme | src/main/java/com/smockin/admin/service/HttpClientServiceImpl.java:58 | Right after "http://" + host, the lookbehind does not block a match. |
| HttpClient.NoMatchInPath | src/main/java/com/smockin/admin/service/HttpClientServiceImpl.java:58 | A path with no three consecutive slashes has no match start, after any prefix. |
| HttpClient.CopiedPrefix | src/main/java/com/smockin/admin/service/HttpClientServiceImpl.java:58 | A prefix with no three consecutive slashes comes out of the rewrite unchanged, ahead of the rest of the scan. |
| HttpClient.CopiedSuffix | src/main/java/com/smockin/admin/service/HttpClientServiceImpl.java:58 | A suffix with no three consecutive slashes comes out of the rewrite unchanged. |
| HttpClient.CollapseSingleRun | src/main/java/com/smockin/admin/service/HttpClientServiceImpl.java:58 | A base followed by one over-long slash run and a clean path collapses to base + "/" + path. |
| HttpClient.SchemeSeparatorSurvives | src/main/java/com/smockin/admin/service/HttpClientServiceImpl.java:58 | "http://host" + "///path" becomes "http://host/path": the run after the host collapses and the scheme's "//" is kept. |
| HttpClient.RunImage | src/main/java/com/smockin/admin/service/HttpClientServiceImpl.java:58 | What a maximal slash run becomes: only slashes, never empty for a non-empty run, and never longer than the run. |
| HttpClient.RunKeptIffShort | src/main/java/com/smockin/admin/service/HttpClientServiceImpl.java:58 | A run stays exactly as it is iff it is shorter than three, or exactly three right after a scheme; every other run is shortened. |
| HttpClient.CollapseIsRunByRun | src/main/java/com/smockin/admin/service/HttpClientServiceImpl.java:58 | For every URL, the regex scan equals the run-by-run description: every non-slash character is kept and each maximal slash run is replaced by its image. |
| HttpClient.RunByRunCopies | src/main/java/com/smockin/admin/service/HttpClientServiceImpl.java:58 | A stretch without '/' is kept unchanged by the run-by-run description. |
| HttpClient.TwoRunsCollapse | src/main/java/com/smockin/admin/service/HttpClientServiceImpl.java:58 | "http://h///a///b" becomes "http://h/a/b": both over-long runs collapse and the scheme separator stays. |
| HttpClient.HandleCall | src/main/java/com/smockin/admin/service/HttpClientServiceImpl.java:42-102 | The result, the descriptor's final URL and the requests sent are those of the handleCall specification. |
| HttpClient.HandleCallWithFallback | src/main/java/com/smockin/admin/service/HttpClientServiceImpl.java:104-107 | The one-argument overload behaves exactly as handleCall with justRedirect = false. |
| HttpClient.InvalidCallIsRefused | src/main/java/com/smockin/admin/service/HttpClientServiceImpl.java:47 | An invalid descriptor raises the validation message; nothing is sent and the URL is untouched. |
| HttpClient.StoppedServerAnswersNotFound | src/main/java/com/smockin/admin/service/HttpClientServiceImpl.java:51-56 | With the server not running (or its state unreadable) the answer is 404; nothing is sent and the URL is not rewritten. |
| HttpClient.UnsupportedMethodIsRefused | src/main/java/com/smockin/admin/service/HttpClientServiceImpl.java:95-97 | An unsupported verb raises "Invalid / Unsupported method: " + verb, after the URL was rewritten, and sends nothing. |
| HttpClient.SingleAttemptSendsOnce | src/main/java/com/smockin/admin/service/HttpClientServiceImpl.java:59-94 | In single-attempt mode exactly one request is sent, to the rewritten URL, and its reply (a 404 included) is the answer. |
| HttpClient.NotFoundIsRetriedLocally | src/main/java/com/smockin/admin/service/HttpClientServiceImpl.java:62-65 | With retry enabled, a first 404 leads to a second request to "http://localhost:" + port + the original path, and that reply is the answer. |
| HttpClient.FoundIsNotRetried | src/main/java/com/smockin/admin/service/HttpClientServiceImpl.java:59-94 | A first reply other than 404 is returned without a retry. |
| HttpClient.TransportFailureIsNotFound | src/main/java/com/smockin/admin/service/HttpClientServiceImpl.java:99-101 | An IOException on the first request yields 404 after that one request, with or without the retry enabled, and the URL stays rewritten. |
| HttpClient.AtMostOneRetry | src/main/java/com/smockin/admin/service/HttpClientServiceImpl.java:59-94 | At most two requests are sent, and at most one in single-attempt mode. |
| EngineUtils.GetHeadersInfo | src/main/java/com/smockin/mockserver/engine/MockedRestServerEngineUtils.java:79-94 | The map the header loop builds is the filtered header map. |
| EngineUtils.Excluded | src/main/java/com/smockin/mockserver/engine/MockedRestServerEngineUtils.java:89 | A header name is excluded exactly when, case-folded, it reads "content-length" or "host". |
| EngineUtils.FoldedMatches | src/main/java/com/smockin/mockserver/engine/MockedRestServerEngineUtils.java:89 | equalsIgnoreCase against a target is equality of the case-folded name with the folded target. |
| EngineUtils.KeptHeadersNames | src/main/java/com/smockin/mockserver/engine/MockedRestServerEngineUtils.java:89-90 | A name is in the map iff some inbound header has it and it is neither Content-Length nor Host, ignoring case. |
| EngineUtils.KeptHeadersValues | src/main/java/com/smockin/mockserver/engine/MockedRestServerEngineUtils.java:85-90 | With distinct names, every kept header maps to its own value. |
| EngineUtils.ExcludedIgnoresCase | src/main/java/com/smockin/mockserver/engine/MockedRestServerEngineUtils.java:89 | "host", "HOST" and "content-length" are dropped; "Hosts" and "Accept" are not. |
| EngineUtils.RemoveFlagged | src/main/java/com/smockin/mockserver/engine/MockedRestServerEngineUtils.java:245-253 | The iterator pass with in-place removal leaves exactly the unflagged elements, in order. |
| EngineUtils.RemoveSuspendedResponses | src/main/java/com/smockin/mockserver/engine/MockedRestServerEngineUtils.java:242-265 | Afterwards the mock is its pruned value: both lists without suspended entries, everything else unchanged. |
| EngineUtils.ResolverFor | src/main/java/com/smockin/mockserver/engine/MockedRestServerEngineUtils.java:178-195 | The ordering counter serves exactly SEQ and the types without a case of their own. |
| EngineUtils.GetDefault | src/main/java/com/smockin/mockserver/engine/MockedRestServerEngineUtils.java:231-240 | A proxy mock falls back to 404. Any other mock falls back to its first variant's status, type, body and headers, and fails when it has none. |
| EngineUtils.LatencyWindow | src/main/java/com/smockin/mockserver/engine/MockedRestServerEngineUtils.java:284-285 | The window bounds are positive. Each equals the configured bound where that is positive; otherwise the minimum is 1000 and the maximum 5000. |
| EngineUtils.HandleLatency | src/main/java/com/smockin/mockserver/engine/MockedRestServerEngineUtils.java:278-293 | It fails, with RandomUtils' message, iff latency is on and max + 1 < min; a pause is only drawn with latency on, over the latency window. |
| EngineUtils.ApplyOutcome | src/main/java/com/smockin/mockserver/engine/MockedRestServerEngineUtils.java:204-211 | The outcome's status and content type are set, its headers are added after the existing ones in order, and the body is untouched. |
| EngineUtils.LatencyOnlyWhenEnabled | src/main/java/com/smockin/mockserver/engine/MockedRestServerEngineUtils.java:278-288 | There is no pause iff latency is off; a pause uses the window, and its draw range is non-empty; with both bounds unset the window is [1000, 5000]. |
| EngineUtils.ProcessRequest | src/main/java/com/smockin/mockserver/engine/MockedRestServerEngineUtils.java:173-229 | The response, the reply or exception, and the latency effect are those of the processRequest specification. |
| EngineUtils.BuildUserPath | src/main/java/com/smockin/mockserver/engine/MockedRestServerEngineUtils.java:295-302 | A mock owned by anyone but SYS_ADMIN lives at "/" + ctxPath + path; a SYS_ADMIN's at its own path. |
| EngineUtils.ProcessSSERequest | src/main/java/com/smockin/mockserver/engine/MockedRestServerEngineUtils.java:267-276 | The caller is registered under the user path with the mock's heartbeat and push-id setting, and the reply is "". |
| EngineUtils.FailAtBoundary | src/main/java/com/smockin/mockserver/engine/MockedRestServerEngineUtils.java:162-166 | Status 500; the body is the message for IllegalArgumentException, else the fixed "Oops, looks like…" text. |
| EngineUtils.RestfulMockDao.constructor | src/main/java/com/smockin/mockserver/engine/MockedRestServerEngineUtils.java:127-145 | The store starts with no lookups made. |
| EngineUtils.RestfulMockDao.FindActive | src/main/java/com/smockin/mockserver/engine/MockedRestServerEngineUtils.java:127-145 | One logged lookup, which fails, finds nothing, or yields a fresh entity holding the stored mock. |
| EngineUtils.Passthrough | src/main/java/com/smockin/mockserver/engine/MockedRestServerEngineUtils.java:103-118 | The filtered headers, path, verb and body go to the client in single-attempt mode; what is sent is exactly that call's requests; a response (404 included) is kept, and a failure is swallowed as no response. |
| EngineUtils.ServeMock | src/main/java/com/smockin/mockserver/engine/MockedRestServerEngineUtils.java:154-169 | A found mock is served as the specification says: an SSE mock is registered; any other mock is pruned and processed, and a failure gives 500 and "Oops". |
| EngineUtils.LoadMockedResponse | src/main/java/com/smockin/mockserver/engine/MockedRestServerEngineUtils.java:96-171 | The requests sent, response, reply, effect, mock state and lookups are those of the passthrough and loadMockedResponse specifications; the store is queried iff the upstream reply is not relayed. |
| EngineUtils.UpstreamAnswerIsRelayed | src/main/java/com/smockin/mockserver/engine/MockedRestServerEngineUtils.java:120-123 | A non-404 upstream reply sets only the status and returns the upstream body; nothing is looked up or changed. |
| EngineUtils.PassthroughIsSingleAttempt | src/main/java/com/smockin/mockserver/engine/MockedRestServerEngineUtils.java:103-118 | The passthrough sends at most one request. An unknown verb sends none, and its ValidationException is swallowed, so the lookup follows. |
| EngineUtils.NoMockNoReply | src/main/java/com/smockin/mockserver/engine/MockedRestServerEngineUtils.java:147-150 | With no relayed reply and no mock, the result is Optional.empty() and the response is untouched. |
| EngineUtils.SseMockOnlyRegisters | src/main/java/com/smockin/mockserver/engine/MockedRestServerEngineUtils.java:154-156 | An SSE mock is registered under its user path and answers ""; no pruning and no processing. |
| EngineUtils.ServedMockIsPruned | src/main/java/com/smockin/mockserver/engine/MockedRestServerEngineUtils.java:158-160 | Any other mock is left pruned, with no suspended variant or rule. |
| EngineUtils.LookupFailureIsServerError | src/main/java/com/smockin/mockserver/engine/MockedRestServerEngineUtils.java:162-169 | A failed lookup gives status 500 and "Oops"; the body is the message only for IllegalArgumentException. |
| EngineUtils.ProcessingFailureIsServerError | src/main/java/com/smockin/mockserver/engine/MockedRestServerEngineUtils.java:162-169 | A failure while processing gives status 500 and "Oops", with the same body rule, over what processing had already set. |
| EngineUtils.DefaultOutcomeIsApplied | src/main/java/com/smockin/mockserver/engine/MockedRestServerEngineUtils.java:197-211 | With no resolver outcome, the default's status, content type and headers are applied: 404 for a proxy mock, else the first variant's. |
| EngineUtils.DefaultActsAsResolved | src/main/java/com/smockin/mockserver/engine/MockedRestServerEngineUtils.java:197-200 | With no resolver outcome, processing is exactly what it would be had the resolver returned getDefault's outcome (enrichment, latency and failures included). |
| EngineUtils.NoVariantLeftFails | src/main/java/com/smockin/mockserver/engine/MockedRestServerEngineUtils.java:197-200 | No resolver outcome and no variant: processing throws and the response is untouched. |
| EngineUtils.ParamMatchFailureIsServerError | src/main/java/com/smockin/mockserver/engine/MockedRestServerEngineUtils.java:215-222 | A parameter-match failure sets 500 over the applied outcome, returns its message ("" if blank), and skips the latency. |
| EngineUtils.EnrichedBodyIsReturned | src/main/java/com/smockin/mockserver/engine/MockedRestServerEngineUtils.java:215-228 | An enriched body is returned, "" when blank, with a pause iff latency is on. A window that cannot be drawn from fails with RandomUtils' message. |
| Engine.RenderIndex | src/main/java/com/smockin/mockserver/engine/MockedRestServerEngine.java:121-130 | The StringBuilder loop builds the index html. |
| Engine.IndexEntriesAppend | src/main/java/com/smockin/mockserver/engine/MockedRestServerEngine.java:125-130 | The index of two lists is their two indexes, one after the other. |
| Engine.IndexListsEveryMock | src/main/java/com/smockin/mockserver/engine/MockedRestServerEngine.java:121-130 | The page is the heading and a break, then, for each mock in list order, "verb path<br /><br />". |
| Engine.EmptyIndex | src/main/java/com/smockin/mockserver/engine/MockedRestServerEngine.java:121-122 | With no mocks the page is exactly the heading and one break. |
| Engine.BindEndpoints | src/main/java/com/smockin/mockserver/engine/MockedRestServerEngine.java:143-197 | No more routes than mocks are bound. |
| Engine.BindEndpointsStopsAtFirstUnsupported | src/main/java/com/smockin/mockserver/engine/MockedRestServerEngine.java:143-197 | Each bound route is (verb, path) of its own mock. Binding fails iff some mock's verb is not GET/POST/PUT/DELETE/PATCH; it then stops at the first such mock and names its verb. |
| Engine.MockedRestServerEngine.constructor | src/main/java/com/smockin/mockserver/engine/MockedRestServerEngine.java:42 | The server state starts as not running on port 0. |
| Engine.MockedRestServerEngine.GetCurrentState | src/main/java/com/smockin/mockserver/engine/MockedRestServerEngine.java:57-61 | Returns the current (running, port). |
| Engine.MockedRestServerEngine.InitServerConfig | src/main/java/com/smockin/mockserver/engine/MockedRestServerEngine.java:107-115 | The server is configured with the given port and thread pool. |
| Engine.MockedRestServerEngine.BuildIndex | src/main/java/com/smockin/mockserver/engine/MockedRestServerEngine.java:117-137 | GET "/" is bound to the index html, served as text/html. |
| Engine.MockedRestServerEngine.BuildEndpoints | src/main/java/com/smockin/mockserver/engine/MockedRestServerEngine.java:139-199 | The routes of the binding are appended; the exception is raised iff the binding fails, and the routes bound before it stay bound. |
| Engine.MockedRestServerEngine.InitServer | src/main/java/com/smockin/mockserver/engine/MockedRestServerEngine.java:86-105 | Once the listener is up the state is (running, port); a failure leaves the state unchanged. |
| Engine.MockedRestServerEngine.Start | src/main/java/com/smockin/mockserver/engine/MockedRestServerEngine.java:44-55 | Config, index, endpoints, then server. If endpoint binding fails, the server is never started and the state is unchanged. |
| Engine.MockedRestServerEngine.Shutdown | src/main/java/com/smockin/mockserver/engine/MockedRestServerEngine.java:63-84 | The routes are dropped. The state becomes not running with the port unchanged, unless the wait is interrupted (then an exception, state unchanged). |
| Engine.EngineResolverFor | src/main/java/com/smockin/mockserver/engine/MockedRestServerEngine.java:205-213 | RULE mocks go to the rule engine; every other type goes to the sequence service. |
| Engine.GetDefault | src/main/java/com/smockin/mockserver/engine/MockedRestServerEngine.java:231-234 | The first variant's status, type, body and headers, whatever the type; it fails iff there is no variant. |
| Engine.GetDefaultsAgreeButForProxies | src/main/java/com/smockin/mockserver/engine/MockedRestServerEngine.java:231-234 | The engine's and the pipeline's getDefault agree on every non-proxy mock; for a proxy mock the pipeline's answers 404. |
| Engine.ProcessRequest | src/main/java/com/smockin/mockserver/engine/MockedRestServerEngine.java:201-229 | The response and the reply or exception are those of the engine's processRequest specification. |
| Engine.EngineReplyIsOutcomeBody | src/main/java/com/smockin/mockserver/engine/MockedRestServerEngine.java:220-228 | The outcome's status, type and headers are applied and the body is left alone. The reply is the outcome body, with a null body read as "" and a blank one kept. |
| Engine.EngineDefaultActsAsResolved | src/main/java/com/smockin/mockserver/engine/MockedRestServerEngine.java:215-218 | With no resolver outcome, the route answers exactly as if the resolver had returned getDefault's outcome. |
| Engine.EngineDefaultIsFirstVariant | src/main/java/com/smockin/mockserver/engine/MockedRestServerEngine.java:215-228 | With no resolver outcome and a variant, the first variant's status, type and headers are applied and its body is returned, a null body as "". |
| Engine.EngineNoVariantFails | src/main/java/com/smockin/mockserver/engine/MockedRestServerEngine.java:215-218 | No outcome and no variant: the handler throws and the response is untouched. |

## Left out

- Embedded-server calls (`Spark.port`, `threadPool`, `init`, `awaitInitialization`, `stop`, `get`/`post`/… registration) are modelled as fields of the engine: a configuration, a route list and the state. Whether the listener comes up is a parameter. Route lookup by (verb, path) at request time is the framework's and is not modelled.
- `Thread.sleep`, the 3-second shutdown wait and the `RandomUtils.nextLong` draw: only the latency window and the draw's range check are modelled. An interrupted sleep is logged by the source and not modelled.
- HTTP I/O (`executeRequest`, `Request.Get/Post/...`, `HttpClientUtils.handleRequestData`, response header and body extraction) is an answer function over the outgoing request. The request keeps only verb, URL, headers and body (GET and DELETE carry no body).
- The resolver services (rule engine, ordering counter, proxy, JavaScript, stateful), `InboundParamMatchService` and `ServerSideEventService` are inputs. Sequence-cursor rotation and rule matching are not part of this model.
- The mock store, JPA lazy loading, `detach` and `@Transactional` are left out. A lookup is a function of (verb, path, multi-user mode) that yields a fresh entity.
- `synchronized (monitor)` and per-request threading: transitions are sequential. `getCurrentState` returns the state's value, not the shared mutable object.
- Logging, `debug*` helpers, `System.out.println` and `printStackTrace`.
- The `ResponseEntity`/`HttpStatus.resolve` wrapping when relaying an upstream reply is read as returning the upstream body.
- `RestMethodEnum.findByName` is an input. An unknown verb name is `None`.
- `File.separator` in `buildUserPath` is taken to be "/".
- Common.FoldCase covers ASCII letters and U+017F only. That suffices for comparing against "Host" and "Content-Length", but it is not a general `equalsIgnoreCase`.
- EngineUtils.HandleLatency: `long` arithmetic is unbounded here, so the overflow of `max + 1` at `Long.MAX_VALUE` is not modelled.
- EngineUtils.ApplyOutcome: outcome headers are a list applied in order. The source's map iteration order is unspecified.
- Runtime exceptions other than the modelled ones are not modelled (for example a null `createdBy`, a null outcome header map, or a failing SSE registration beyond the caught `IOException`).
- HttpClient.NotFound: the content type, headers and body of `new HttpClientResponseDTO(404)` are not part of this model; they are taken to be none, none and "". The pipeline never relays a 404, so only the status matters there. The 404 default of `getDefault` for an HTTP proxy mock is likewise taken to carry no type, body or headers.
- HttpClient.HandleCall: an unreadable server state (the engine service throwing `MockServerException`) is the `None` snapshot and answers 404 like a stopped server.
