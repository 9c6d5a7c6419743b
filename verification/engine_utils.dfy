/** The request interception pipeline (MockedRestServerEngineUtils): each
    inbound request is first offered to the upstream backend in
    single-attempt mode; only when that yields nothing or a 404 is the local
    mock looked up, pruned of its suspended variants, resolved by the
    resolver for its type and post-processed. Any failure past the
    passthrough becomes a 500. The resolvers, the parameter enrichment and
    the mock store are inputs. */
module EngineUtils {
  import opened Common
  import opened Web
  import opened Mocks
  import HttpClient

  // ---------------------------------------------------------------------
  // getHeadersInfo
  // ---------------------------------------------------------------------

  /** The two inbound headers never forwarded upstream: a name is dropped
      exactly when, case-folded, it reads "content-length" or "host". */
  predicate Excluded(name: string)
    ensures Excluded(name) <==> Folded(name) == "content-length" || Folded(name) == "host"
  {
    FoldedMatches(name, "Content-Length", "content-length");
    FoldedMatches(name, "Host", "host");
    EqualsIgnoreCase(name, "Content-Length") || EqualsIgnoreCase(name, "Host")
  }

  /** A name with every character case-folded. */
  function Folded(s: string): string
  {
    seq(|s|, k requires 0 <= k < |s| => FoldCase(s[k]))
  }

  /** Comparing ignoring case against a target is comparing the folded name
      with the folded target. */
  lemma FoldedMatches(name: string, target: string, lower: string)
    requires |target| == |lower| && forall k :: 0 <= k < |target| ==> FoldCase(target[k]) == lower[k]
    ensures EqualsIgnoreCase(name, target) <==> Folded(name) == lower
  {
    if Folded(name) == lower {
      assert forall k :: 0 <= k < |name| ==> FoldCase(name[k]) == Folded(name)[k];
    }
  }

  /** The header map the passthrough request carries: every inbound header
      but the excluded ones, a later name overwriting an earlier one. */
  function KeptHeaders(headers: seq<Header>): map<string, string>
  {
    if headers == [] then map[]
    else
      var kept := KeptHeaders(headers[..|headers| - 1]);
      var h := headers[|headers| - 1];
      if Excluded(h.name) then kept else kept[h.name := h.value]
  }

  /** getHeadersInfo: walk the header names in order, filling a map. */
  method GetHeadersInfo(headers: seq<Header>) returns (m: map<string, string>)
    ensures m == KeptHeaders(headers)
  {
    m := map[];
    var i := 0;
    while i < |headers|
      invariant 0 <= i <= |headers|
      invariant m == KeptHeaders(headers[..i])
    {
      var key := headers[i].name;
      var value := headers[i].value;
      if !(EqualsIgnoreCase(key, "Content-Length") || EqualsIgnoreCase(key, "Host")) {
        m := m[key := value];
      }
      assert headers[..i + 1][..i] == headers[..i];
      i := i + 1;
    }
    assert headers[..|headers|] == headers;
  }

  /** Exactly the names of non-excluded inbound headers are kept. */
  lemma {:induction false} KeptHeadersNames(headers: seq<Header>)
    ensures forall name :: name in KeptHeaders(headers)
              <==> !Excluded(name) && exists i :: 0 <= i < |headers| && headers[i].name == name
  {
    if headers != [] {
      var init := headers[..|headers| - 1];
      KeptHeadersNames(init);
      forall name
        ensures name in KeptHeaders(headers)
                <==> !Excluded(name) && exists i :: 0 <= i < |headers| && headers[i].name == name
      {
        if exists i :: 0 <= i < |init| && init[i].name == name {
          var i :| 0 <= i < |init| && init[i].name == name;
          assert headers[i].name == name;
        }
        if exists i :: 0 <= i < |headers| && headers[i].name == name {
          var i :| 0 <= i < |headers| && headers[i].name == name;
          if i < |init| {
            assert init[i].name == name;
          }
        }
      }
    }
  }

  /** Servlet containers enumerate each header name once. */
  predicate DistinctNames(headers: seq<Header>)
  {
    forall i, j :: 0 <= i < j < |headers| ==> headers[i].name != headers[j].name
  }

  /** With distinct names, every kept header keeps its own value. */
  lemma {:induction false} KeptHeadersValues(headers: seq<Header>)
    requires DistinctNames(headers)
    ensures forall i :: 0 <= i < |headers| && !Excluded(headers[i].name)
              ==> headers[i].name in KeptHeaders(headers)
                  && KeptHeaders(headers)[headers[i].name] == headers[i].value
  {
    if headers != [] {
      var init := headers[..|headers| - 1];
      assert DistinctNames(init);
      KeptHeadersValues(init);
      forall i | 0 <= i < |headers| && !Excluded(headers[i].name)
        ensures headers[i].name in KeptHeaders(headers)
                && KeptHeaders(headers)[headers[i].name] == headers[i].value
      {
        if i < |init| {
          assert init[i] == headers[i];
          assert headers[i].name != headers[|headers| - 1].name;
        }
      }
    }
  }

  /** "Host" and "Content-Length" are dropped whatever their case. */
  lemma ExcludedIgnoresCase()
    ensures Excluded("host") && Excluded("HOST") && Excluded("content-length")
    ensures !Excluded("Hosts") && !Excluded("Accept")
  {
    assert FoldCase('h') == 'h' && FoldCase('H') == 'h';
    assert "Hosts"[..4] == "Host";
  }

  // ---------------------------------------------------------------------
  // removeSuspendedResponses
  // ---------------------------------------------------------------------

  /** One iterator pass over a list: each flagged element is removed where
      it stands, the cursor staying put; an unflagged one is stepped over. */
  method RemoveFlagged<T>(s: seq<T>, suspended: T -> bool) returns (r: seq<T>)
    ensures r == Unsuspended(s, suspended)
  {
    r := s;
    ghost var seen := 0;
    var i := 0;
    while i < |r|
      invariant seen <= |s| && i <= |r|
      invariant r[..i] == Unsuspended(s[..seen], suspended)
      invariant r[i..] == s[seen..]
      decreases |r| - i
    {
      assert s[seen] == r[i];
      UnsuspendedSnoc(s, seen, suspended);
      if suspended(r[i]) {
        r := r[..i] + r[i + 1..];
      } else {
        i := i + 1;
      }
      seen := seen + 1;
    }
    assert s[..seen] == s;
  }

  /** removeSuspendedResponses: one removal pass over the response
      variants, then one over the rules. */
  method RemoveSuspendedResponses(mock: RestfulMock)
    modifies mock`definitions, mock`rules
    ensures mock.View() == Pruned(old(mock.View()))
  {
    mock.definitions := RemoveFlagged(mock.definitions, SuspendedOrder);
    mock.rules := RemoveFlagged(mock.rules, SuspendedRule);
  }

  // ---------------------------------------------------------------------
  // Resolver dispatch, default response, latency
  // ---------------------------------------------------------------------

  /** The services a mock's outcome can come from. */
  datatype Resolver =
    | RuleEngine
    | HttpProxyService
    | JavaScriptResponseHandler
    | StatefulService
    | MockOrderingCounterService

  /** The type switch of processRequest: SEQ and every type without a case
      of its own fall through to the ordering counter. */
  function ResolverFor(t: MockType): (r: Resolver)
    ensures r == MockOrderingCounterService <==> t == SEQ || t == PROXY_SSE
  {
    match t
    case RULE => RuleEngine
    case PROXY_HTTP => HttpProxyService
    case CUSTOM_JS => JavaScriptResponseHandler
    case STATEFUL => StatefulService
    case SEQ => MockOrderingCounterService
    case PROXY_SSE => MockOrderingCounterService
  }

  function OutcomeOf(d: DefinitionOrder): ResponseOutcome
  {
    ResponseOutcome(d.status, d.contentType, d.body, d.headers)
  }

  /** getDefault: a proxy mock falls back to 404, any other mock to its first
      response variant; `definitions.get(0)` on an empty list throws
      IndexOutOfBoundsException. */
  function GetDefault(m: MockView): (r: Result<ResponseOutcome, Failure>)
    ensures r.Err? <==> m.mockType != PROXY_HTTP && m.definitions == []
    ensures r.Ok? && m.mockType != PROXY_HTTP ==> r.value == OutcomeOf(m.definitions[0])
    ensures m.mockType == PROXY_HTTP ==> r == Ok(ResponseOutcome(404, None, None, []))
  {
    if m.mockType == PROXY_HTTP then Ok(ResponseOutcome(404, None, None, []))
    else if m.definitions == [] then Err(OtherFailure)
    else Ok(OutcomeOf(m.definitions[0]))
  }

  /** A closed range of milliseconds. */
  datatype Window = Window(minMillis: int, maxMillis: int)

  /** The configured latency bounds, a non-positive bound replaced by its
      default (1000 and 5000 ms). */
  function LatencyWindow(m: MockView): (w: Window)
    ensures w.minMillis > 0 && w.maxMillis > 0
    ensures m.latencyMinMillis > 0 ==> w.minMillis == m.latencyMinMillis
    ensures m.latencyMaxMillis > 0 ==> w.maxMillis == m.latencyMaxMillis
    ensures m.latencyMinMillis <= 0 ==> w.minMillis == 1000
    ensures m.latencyMaxMillis <= 0 ==> w.maxMillis == 5000
  {
    Window(if m.latencyMinMillis > 0 then m.latencyMinMillis else 1000,
           if m.latencyMaxMillis > 0 then m.latencyMaxMillis else 5000)
  }

  /** The message of the IllegalArgumentException RandomUtils.nextLong
      raises when its exclusive end lies below its start. */
  const RangeMessage := "Start value must be smaller or equal to end value."

  /** handleLatency: Ok(None) when latency is off, Ok(Some(w)) when the
      thread sleeps `RandomUtils.nextLong(w.min, w.max + 1)` ms, and the
      exception that call raises when `w.max + 1 < w.min`. */
  function HandleLatency(m: MockView): (r: Result<Option<Window>, Failure>)
    ensures r.Err? <==> m.randomiseLatency && LatencyWindow(m).maxMillis + 1 < LatencyWindow(m).minMillis
    ensures r.Err? ==> r.error == IllegalArgument(Some(RangeMessage))
    ensures r.Ok? && r.value.Some? ==> m.randomiseLatency && r.value.value == LatencyWindow(m)
  {
    if !m.randomiseLatency then Ok(None)
    else
      var w := LatencyWindow(m);
      if w.maxMillis + 1 < w.minMillis then Err(IllegalArgument(Some(RangeMessage)))
      else Ok(Some(w))
  }

  /** A pause only ever happens for a mock with latency switched on, over a
      window of positive bounds whose draw range is not empty. */
  lemma LatencyOnlyWhenEnabled(m: MockView)
    ensures HandleLatency(m) == Ok(None) <==> !m.randomiseLatency
    ensures HandleLatency(m).Ok? && HandleLatency(m).value.Some? ==>
              var w := HandleLatency(m).value.value;
              w == LatencyWindow(m) && 0 < w.minMillis <= w.maxMillis + 1
    ensures m.randomiseLatency && m.latencyMinMillis <= 0 && m.latencyMaxMillis <= 0 ==>
              HandleLatency(m) == Ok(Some(Window(1000, 5000)))
  {
  }

  // ---------------------------------------------------------------------
  // processRequest
  // ---------------------------------------------------------------------

  /** What parameter enrichment can do with the body: substitute into it,
      fail with InboundParamMatchException, or raise anything else. */
  datatype Enrichment =
    | Enriched(body: Option<string>)
    | ParamMatchFailed(message: Option<string>)
    | EnrichmentFailed(failure: Failure)

  /** The collaborators of processRequest for the request being served: the
      resolver services (given the resolver and the mock they are handed)
      and InboundParamMatchService (given the mock path, the body, the
      owner's context path and the owner's id). */
  datatype Collaborators = Collaborators(
    resolve: (Resolver, MockView) -> Result<Option<ResponseOutcome>, Failure>,
    enrich: (string, Option<string>, string, int) -> Enrichment)

  /** Side effects of serving a request besides the response. */
  datatype Effect =
    | NoEffect
    | Slept(window: Window)
    | SseRegistered(path: string, heartBeatMillis: int, pushIdOnConnect: bool)

  /** The outcome's status, content type and headers on the response. */
  function ApplyOutcome(st: ResponseState, o: ResponseOutcome): (r: ResponseState)
    ensures r.status == o.status && r.contentType == o.contentType && r.body == st.body
    ensures |r.headers| == |st.headers| + |o.headers|
    ensures r.headers[..|st.headers|] == st.headers && r.headers[|st.headers|..] == o.headers
  {
    st.(status := o.status, contentType := o.contentType, headers := st.headers + o.headers)
  }

  /** What processRequest leaves behind: the response, the body it returns
      or the exception it throws, and whether it slept. */
  datatype Processed = Processed(response: ResponseState, reply: Result<string, Failure>, effect: Effect)

  function ProcessRequestSpec(st: ResponseState, m: MockView, c: Collaborators): Processed
  {
    var resolved := c.resolve(ResolverFor(m.mockType), m);
    if resolved.Err? then Processed(st, Err(resolved.error), NoEffect)
    else
      var outcome := if resolved.value.Some? then Ok(resolved.value.value) else GetDefault(m);
      if outcome.Err? then Processed(st, Err(outcome.error), NoEffect)
      else
        var o := outcome.value;
        var applied := ApplyOutcome(st, o);
        match c.enrich(m.path, o.body, m.createdBy.ctxPath, m.createdBy.id)
        case EnrichmentFailed(f) => Processed(applied, Err(f), NoEffect)
        case ParamMatchFailed(message) =>
          Processed(applied.(status := 500), Ok(DefaultIfBlank(message, "")), NoEffect)
        case Enriched(body) =>
          var latency := HandleLatency(m);
          if latency.Err? then Processed(applied, Err(latency.error), NoEffect)
          else Processed(applied, Ok(DefaultIfBlank(body, "")),
                         if latency.value.Some? then Slept(latency.value.value) else NoEffect)
  }

  /** processRequest on the mock as it is now. */
  method ProcessRequest(mock: RestfulMock, res: Response, c: Collaborators)
    returns (reply: Result<string, Failure>, effect: Effect)
    modifies res
    ensures var p := ProcessRequestSpec(old(res.State()), mock.View(), c);
            res.State() == p.response && reply == p.reply && effect == p.effect
  {
    var m := mock.View();
    var resolved := c.resolve(ResolverFor(mock.mockType), m);
    if resolved.Err? {
      return Err(resolved.error), NoEffect;
    }
    var outcome: ResponseOutcome;
    if resolved.value.Some? {
      outcome := resolved.value.value;
    } else {
      var fallback := GetDefault(m);
      if fallback.Err? {
        return Err(fallback.error), NoEffect;
      }
      outcome := fallback.value;
    }
    res.status := outcome.status;
    res.contentType := outcome.contentType;
    var k := 0;
    while k < |outcome.headers|
      invariant 0 <= k <= |outcome.headers|
      invariant res.State() == old(res.State()).(status := outcome.status,
                  contentType := outcome.contentType,
                  headers := old(res.headers) + outcome.headers[..k])
    {
      res.headers := res.headers + [outcome.headers[k]];
      assert outcome.headers[..k + 1] == outcome.headers[..k] + [outcome.headers[k]];
      k := k + 1;
    }
    assert outcome.headers[..k] == outcome.headers;
    var response: Option<string>;
    effect := NoEffect;
    match c.enrich(mock.path, outcome.body, mock.createdBy.ctxPath, mock.createdBy.id) {
    case EnrichmentFailed(f) =>
      return Err(f), NoEffect;
    case ParamMatchFailed(message) =>
      res.status := 500;
      response := message;
    case Enriched(body) =>
      response := body;
      var latency := HandleLatency(m);
      if latency.Err? {
        return Err(latency.error), NoEffect;
      }
      if latency.value.Some? {
        effect := Slept(latency.value.value);
      }
    }
    reply := Ok(DefaultIfBlank(response, ""));
  }

  // ---------------------------------------------------------------------
  // processSSERequest and buildUserPath
  // ---------------------------------------------------------------------

  /** buildUserPath: a mock owned by anyone but the system administrator
      lives under "/" + the owner's context path. */
  function BuildUserPath(m: MockView): (path: string)
    ensures m.createdBy.role != SYS_ADMIN ==> path == "/" + m.createdBy.ctxPath + m.path
    ensures m.createdBy.role == SYS_ADMIN ==> path == m.path
  {
    if m.createdBy.role != SYS_ADMIN then "/" + m.createdBy.ctxPath + m.path else m.path
  }

  /** processSSERequest: register the caller as a subscriber of the mock's
      user path and answer with an empty body (a failed registration is
      logged and answered the same way). */
  method ProcessSSERequest(mock: RestfulMock) returns (reply: string, effect: Effect)
    ensures reply == ""
    ensures effect.SseRegistered? && effect.path == BuildUserPath(mock.View())
    ensures effect.heartBeatMillis == mock.sseHeartBeatMillis
    ensures effect.pushIdOnConnect == mock.proxyPushIdOnConnect
  {
    effect := SseRegistered(BuildUserPath(mock.View()), mock.sseHeartBeatMillis, mock.proxyPushIdOnConnect);
    reply := "";
  }

  // ---------------------------------------------------------------------
  // loadMockedResponse
  // ---------------------------------------------------------------------

  /** The body shown for a failure at the pipeline boundary that is not an
      IllegalArgumentException. */
  const GenericFailureMessage := "Oops, looks like something went wrong with this mock!"

  /** The response after the outer catch: status 500, and a body that only
      an IllegalArgumentException fills with its own message. */
  function FailureResponse(st: ResponseState, f: Failure): ResponseState
  {
    st.(status := 500, body := if f.IllegalArgument? then f.message else Some(GenericFailureMessage))
  }

  /** The outer catch of loadMockedResponse. */
  method FailAtBoundary(res: Response, f: Failure)
    modifies res
    ensures res.State() == FailureResponse(old(res.State()), f)
  {
    res.status := 500;
    res.body := if f.IllegalArgument? then f.message else Some(GenericFailureMessage);
  }

  /** One lookup of the mock store. */
  datatype Query = Query(httpMethod: Option<Method>, path: string, multiUser: bool)

  /** RestfulMockDAO's active-mock lookups (single- and multi-user): the
      stored mock matching each query, and the log of the queries made.
      Each lookup materialises a new entity object. */
  class RestfulMockDao {
    const find: Query -> Result<Option<MockView>, Failure>
    var queries: seq<Query>

    constructor (find: Query -> Result<Option<MockView>, Failure>)
      ensures this.find == find && queries == []
    {
      this.find := find;
      queries := [];
    }

    method FindActive(q: Query) returns (r: Result<Option<RestfulMock>, Failure>)
      modifies this`queries
      ensures queries == old(queries) + [q]
      ensures r.Err? <==> find(q).Err?
      ensures r.Err? ==> r.error == find(q).error
      ensures r.Ok? ==> (r.value.None? <==> find(q).value.None?)
      ensures r.Ok? && r.value.Some? ==> fresh(r.value.value) && r.value.value.View() == find(q).value.value
    {
      queries := queries + [q];
      var found := find(q);
      if found.Err? {
        r := Err(found.error);
      } else if found.value.None? {
        r := Ok(None);
      } else {
        var mock := new RestfulMock(found.value.value);
        r := Ok(Some(mock));
      }
    }
  }

  function QueryFor(request: InboundRequest, isMultiUserMode: bool): Query
  {
    Query(request.httpMethod, request.path, isMultiUserMode)
  }

  /** The passthrough attempt loadMockedResponse makes: the request's path,
      verb, filtered headers and body, in single-attempt mode. */
  function PassthroughRun(request: InboundRequest, state: Option<ServerState>, redirectUrl: string,
                          answer: HttpClient.Outbound -> Result<HttpClient.ClientResponse, HttpClient.TransportError>)
    : HttpClient.CallRun
  {
    HttpClient.HandleCallSpec(Some(request.path), request.httpMethod, Some(KeptHeaders(request.headers)),
                              request.body, true, state, redirectUrl, answer)
  }

  /** The passthrough's result as loadMockedResponse holds it: a thrown
      ValidationException leaves it null. */
  function PassthroughOf(r: Result<HttpClient.ClientResponse, string>): Option<HttpClient.ClientResponse>
  {
    if r.Ok? then Some(r.value) else None
  }

  /** The upstream answered with something other than 404. */
  predicate Relayed(passthrough: Option<HttpClient.ClientResponse>)
  {
    passthrough.Some? && passthrough.value.status != 404
  }

  function MockOf(found: Result<Option<MockView>, Failure>): Option<MockView>
  {
    if found.Ok? && found.value.Some? then Some(found.value.value) else None
  }

  /** What loadMockedResponse leaves behind: the response, its return value
      (None for Optional.empty()), its side effect, and the looked-up mock
      afterwards. */
  datatype Served = Served(response: ResponseState, reply: Option<string>, effect: Effect, mock: Option<MockView>)

  /** Serving a mock the lookup found: an SSE mock registers the caller;
      any other is pruned and processed, a failure becoming a 500 and
      "Oops". */
  function ServeSpec(st: ResponseState, m: MockView, c: Collaborators): Served
  {
    if m.mockType == PROXY_SSE then
      Served(st, Some(""), SseRegistered(BuildUserPath(m), m.sseHeartBeatMillis, m.proxyPushIdOnConnect), Some(m))
    else
      var pruned := Pruned(m);
      var p := ProcessRequestSpec(st, pruned, c);
      if p.reply.Ok? then Served(p.response, Some(p.reply.value), p.effect, Some(pruned))
      else Served(FailureResponse(p.response, p.reply.error), Some("Oops"), p.effect, Some(pruned))
  }

  /** loadMockedResponse, given the response before the call, the
      passthrough result and what the mock lookup would return. */
  function LoadMockedResponseSpec(st: ResponseState, passthrough: Option<HttpClient.ClientResponse>,
                                  found: Result<Option<MockView>, Failure>, c: Collaborators): Served
  {
    if Relayed(passthrough) then
      Served(st.(status := passthrough.value.status), Some(passthrough.value.body), NoEffect, None)
    else if found.Err? then
      Served(FailureResponse(st, found.error), Some("Oops"), NoEffect, None)
    else if found.value.None? then
      Served(st, None, NoEffect, None)
    else
      ServeSpec(st, found.value.value, c)
  }

  /** The passthrough attempt of loadMockedResponse: the request's path,
      verb, filtered headers and body go out in single-attempt mode; a
      ValidationException leaves the result null. */
  method Passthrough(request: InboundRequest, state: Option<ServerState>, redirectUrl: string,
                     upstream: HttpClient.Upstream)
    returns (pass: Option<HttpClient.ClientResponse>)
    modifies upstream`sent
    ensures var run := PassthroughRun(request, state, redirectUrl, upstream.answer);
            upstream.sent == old(upstream.sent) + run.calls && pass == PassthroughOf(run.result)
  {
    var headers := GetHeadersInfo(request.headers);
    var http := new HttpClient.CallDescriptor(Some(request.path), request.httpMethod, Some(headers), request.body);
    var call := HttpClient.HandleCall(http, true, state, redirectUrl, upstream);
    pass := PassthroughOf(call);
  }

  /** The part of loadMockedResponse that serves a found mock, with the
      outer catch. */
  method ServeMock(mock: RestfulMock, res: Response, c: Collaborators) returns (reply: string, effect: Effect)
    modifies res, mock`definitions, mock`rules
    ensures var s := ServeSpec(old(res.State()), old(mock.View()), c);
            res.State() == s.response && Some(reply) == s.reply && effect == s.effect && Some(mock.View()) == s.mock
  {
    if mock.mockType == PROXY_SSE {
      reply, effect := ProcessSSERequest(mock);
      return;
    }
    RemoveSuspendedResponses(mock);
    var processed;
    processed, effect := ProcessRequest(mock, res, c);
    if processed.Err? {
      FailAtBoundary(res, processed.error);
      return "Oops", effect;
    }
    reply := processed.value;
  }

  /** loadMockedResponse(request, response, isMultiUserMode), with the
      server state snapshot, the redirect base and the network the
      passthrough client uses, the mock store, and the collaborators of
      processRequest. */
  method LoadMockedResponse(request: InboundRequest, res: Response, isMultiUserMode: bool,
                            state: Option<ServerState>, redirectUrl: string, upstream: HttpClient.Upstream,
                            dao: RestfulMockDao, c: Collaborators)
    returns (reply: Option<string>, effect: Effect, ghost served: Option<MockView>)
    modifies res, upstream`sent, dao`queries
    ensures var run := PassthroughRun(request, state, redirectUrl, upstream.answer);
            upstream.sent == old(upstream.sent) + run.calls
    ensures var pass := PassthroughOf(PassthroughRun(request, state, redirectUrl, upstream.answer).result);
            var q := QueryFor(request, isMultiUserMode);
            var s := LoadMockedResponseSpec(old(res.State()), pass, dao.find(q), c);
            && res.State() == s.response && reply == s.reply && effect == s.effect && served == s.mock
            && dao.queries == old(dao.queries) + (if Relayed(pass) then [] else [q])
  {
    var responseDto := Passthrough(request, state, redirectUrl, upstream);
    if responseDto.Some? && responseDto.value.status != 404 {
      res.status := responseDto.value.status;
      assert dao.queries == old(dao.queries) + [];
      return Some(responseDto.value.body), NoEffect, None;
    }
    var found := dao.FindActive(QueryFor(request, isMultiUserMode));
    if found.Err? {
      FailAtBoundary(res, found.error);
      return Some("Oops"), NoEffect, None;
    }
    if found.value.None? {
      return None, NoEffect, None;
    }
    var mock := found.value.value;
    var body;
    body, effect := ServeMock(mock, res, c);
    return Some(body), effect, Some(mock.View());
  }

  // ---------------------------------------------------------------------
  // What the pipeline promises
  // ---------------------------------------------------------------------

  /** An upstream answer other than 404 is relayed: its status is set, its
      body returned, and nothing else happens (no lookup, no pruning, no
      upstream content type or headers copied). */
  lemma UpstreamAnswerIsRelayed(st: ResponseState, pass: Option<HttpClient.ClientResponse>,
                                found: Result<Option<MockView>, Failure>, c: Collaborators)
    requires pass.Some? && pass.value.status != 404
    ensures var s := LoadMockedResponseSpec(st, pass, found, c);
            s.reply == Some(pass.value.body) && s.response == st.(status := pass.value.status)
            && s.effect == NoEffect && s.mock.None?
  {
  }

  /** The pipeline's passthrough sends at most one request, and none when
      the verb is unknown: then the ValidationException is swallowed and
      the lookup goes ahead. */
  lemma PassthroughIsSingleAttempt(request: InboundRequest, state: Option<ServerState>, redirectUrl: string,
                                   answer: HttpClient.Outbound -> Result<HttpClient.ClientResponse, HttpClient.TransportError>)
    ensures |PassthroughRun(request, state, redirectUrl, answer).calls| <= 1
    ensures request.httpMethod.None? ==>
              PassthroughRun(request, state, redirectUrl, answer).calls == []
              && !Relayed(PassthroughOf(PassthroughRun(request, state, redirectUrl, answer).result))
  {
    HttpClient.AtMostOneRetry(Some(request.path), request.httpMethod, Some(KeptHeaders(request.headers)),
                              request.body, true, state, redirectUrl, answer);
  }

  /** No upstream answer and no mock: Optional.empty(), response untouched. */
  lemma NoMockNoReply(st: ResponseState, pass: Option<HttpClient.ClientResponse>, c: Collaborators)
    requires !Relayed(pass)
    ensures LoadMockedResponseSpec(st, pass, Ok(None), c) == Served(st, None, NoEffect, None)
  {
  }

  /** An SSE mock registers the caller under the owner's path and answers
      "": no pruning, no resolver, no post-processing. */
  lemma SseMockOnlyRegisters(st: ResponseState, pass: Option<HttpClient.ClientResponse>,
                             m: MockView, c: Collaborators)
    requires !Relayed(pass) && m.mockType == PROXY_SSE
    ensures var s := LoadMockedResponseSpec(st, pass, Ok(Some(m)), c);
            s.reply == Some("") && s.response == st && s.mock == Some(m)
            && s.effect == SseRegistered(BuildUserPath(m), m.sseHeartBeatMillis, m.proxyPushIdOnConnect)
  {
  }

  /** Any other mock is served from its pruned lists: afterwards it holds no
      suspended variant or rule. */
  lemma ServedMockIsPruned(st: ResponseState, pass: Option<HttpClient.ClientResponse>,
                           m: MockView, c: Collaborators)
    requires !Relayed(pass) && m.mockType != PROXY_SSE
    ensures var s := LoadMockedResponseSpec(st, pass, Ok(Some(m)), c);
            s.mock == Some(Pruned(m))
            && (forall i :: 0 <= i < |s.mock.value.definitions| ==> !s.mock.value.definitions[i].suspend)
            && (forall i :: 0 <= i < |s.mock.value.rules| ==> !s.mock.value.rules[i].suspend)
  {
    PrunedIsFinal(m);
  }

  /** A failing lookup answers 500 and returns "Oops"; only an
      IllegalArgumentException shows its own message as the body. */
  lemma LookupFailureIsServerError(st: ResponseState, pass: Option<HttpClient.ClientResponse>,
                                   f: Failure, c: Collaborators)
    requires !Relayed(pass)
    ensures var s := LoadMockedResponseSpec(st, pass, Err(f), c);
            s.reply == Some("Oops") && s.response.status == 500 && s.mock.None?
            && s.response.body == (if f.IllegalArgument? then f.message else Some(GenericFailureMessage))
            && s.response.headers == st.headers && s.response.contentType == st.contentType
  {
  }

  /** A failure while processing a mock also answers 500 and "Oops", over
      whatever status, type and headers the outcome had already set. */
  lemma ProcessingFailureIsServerError(st: ResponseState, pass: Option<HttpClient.ClientResponse>,
                                       m: MockView, c: Collaborators)
    requires !Relayed(pass) && m.mockType != PROXY_SSE
    requires ProcessRequestSpec(st, Pruned(m), c).reply.Err?
    ensures var f := ProcessRequestSpec(st, Pruned(m), c).reply.error;
            var s := LoadMockedResponseSpec(st, pass, Ok(Some(m)), c);
            s.reply == Some("Oops") && s.response.status == 500 && s.effect == NoEffect
            && s.response.body == (if f.IllegalArgument? then f.message else Some(GenericFailureMessage))
  {
  }

  /** A resolver without an answer falls back to the mock's first remaining
      variant (or to 404 for a proxy mock), whose status, type and headers
      the response takes. */
  lemma DefaultOutcomeIsApplied(st: ResponseState, m: MockView, c: Collaborators)
    requires c.resolve(ResolverFor(m.mockType), m) == Ok(None)
    requires m.mockType == PROXY_HTTP || m.definitions != []
    requires c.enrich(m.path, GetDefault(m).value.body, m.createdBy.ctxPath, m.createdBy.id).Enriched?
    requires !m.randomiseLatency
    ensures var p := ProcessRequestSpec(st, m, c);
            p.reply.Ok? && p.effect == NoEffect
            && (m.mockType == PROXY_HTTP ==> p.response == st.(status := 404, contentType := None))
            && (m.mockType != PROXY_HTTP ==>
                  p.response == st.(status := m.definitions[0].status,
                                    contentType := m.definitions[0].contentType,
                                    headers := st.headers + m.definitions[0].headers))
  {
    assert st.headers + [] == st.headers;
  }

  /** The collaborators with the resolver replaced by one that answers `o`
      for every mock. */
  function Answering(c: Collaborators, o: ResponseOutcome): Collaborators
  {
    c.(resolve := (r: Resolver, v: MockView) => Ok(Some(o)))
  }

  /** A null resolver outcome is replaced by getDefault's: from there on the
      request is processed (outcome applied, enrichment, latency, failures)
      exactly as if the resolver had answered with the default. */
  lemma DefaultActsAsResolved(st: ResponseState, m: MockView, c: Collaborators, d: ResponseOutcome)
    requires c.resolve(ResolverFor(m.mockType), m) == Ok(None) && GetDefault(m) == Ok(d)
    ensures ProcessRequestSpec(st, m, c) == ProcessRequestSpec(st, m, Answering(c, d))
  {
  }

  /** A non-proxy mock with no variant left and no resolver answer fails
      (the first-variant lookup throws), and so ends as a 500. */
  lemma NoVariantLeftFails(st: ResponseState, m: MockView, c: Collaborators)
    requires c.resolve(ResolverFor(m.mockType), m) == Ok(None)
    requires m.mockType != PROXY_HTTP && m.definitions == []
    ensures ProcessRequestSpec(st, m, c) == Processed(st, Err(OtherFailure), NoEffect)
  {
  }

  /** InboundParamMatchException turns the reply into its message (or ""
      when blank) under status 500, and skips the latency. */
  lemma ParamMatchFailureIsServerError(st: ResponseState, m: MockView, c: Collaborators, o: ResponseOutcome,
                                       message: Option<string>)
    requires c.resolve(ResolverFor(m.mockType), m) == Ok(Some(o))
    requires c.enrich(m.path, o.body, m.createdBy.ctxPath, m.createdBy.id) == ParamMatchFailed(message)
    ensures var p := ProcessRequestSpec(st, m, c);
            p.response.status == 500 && p.effect == NoEffect
            && p.response.headers == st.headers + o.headers
            && p.reply == Ok(if IsBlank(message) then "" else message.value)
  {
  }

  /** A successful reply is never blank-null: a blank enriched body becomes
      "", any other body is returned as it is, and a latency window that
      cannot be drawn from fails the request instead. */
  lemma EnrichedBodyIsReturned(st: ResponseState, m: MockView, c: Collaborators, o: ResponseOutcome,
                               body: Option<string>)
    requires c.resolve(ResolverFor(m.mockType), m) == Ok(Some(o))
    requires c.enrich(m.path, o.body, m.createdBy.ctxPath, m.createdBy.id) == Enriched(body)
    ensures var p := ProcessRequestSpec(st, m, c);
            && (HandleLatency(m).Ok? ==> p.reply == Ok(DefaultIfBlank(body, ""))
                                         && p.response == ApplyOutcome(st, o)
                                         && (p.effect.Slept? <==> m.randomiseLatency))
            && (HandleLatency(m).Err? ==> p.reply == Err(IllegalArgument(Some(RangeMessage))))
  {
    LatencyOnlyWhenEnabled(m);
  }
}
