/** The REST mock server engine (MockedRestServerEngine): it configures the
    embedded HTTP server, publishes an index page at "/", binds one route
    per mock, starts listening and records the server state. The embedded
    server's port, thread pool and route table are modelled as fields of
    the engine. */
module Engine {
  import opened Common
  import opened Web
  import opened Mocks
  import EngineUtils

  /** MockedServerConfigDTO: the port and the thread pool. */
  datatype ServerConfig = ServerConfig(port: int, maxThreads: int, minThreads: int, timeOutMillis: int)

  /** What a bound route answers with: the fixed index page, or the
      processing of one mock. */
  datatype Handler = IndexPage(contentType: string, html: string) | MockEndpoint(mock: RestfulMock)

  datatype Route = Route(httpMethod: Method, path: string, handler: Handler)

  /** MockServerException, by cause. */
  datatype ServerError = UnsupportedMethod(message: string) | ListenerFailed | StopInterrupted

  // ---------------------------------------------------------------------
  // buildIndex
  // ---------------------------------------------------------------------

  const IndexHeading := "<h2>Smockin REST Service Index</h2>"
  const IndexBreak := "<br /><br />"

  /** One line of the index: verb, a space, path, a break. */
  function IndexEntry(m: RestfulMock): string
  {
    m.httpMethod.Name() + " " + m.path + IndexBreak
  }

  /** The index lines of `mocks`, in list order. */
  function IndexEntries(mocks: seq<RestfulMock>): string
  {
    if mocks == [] then "" else IndexEntries(mocks[..|mocks| - 1]) + IndexEntry(mocks[|mocks| - 1])
  }

  /** The html of the index page. */
  function IndexHtml(mocks: seq<RestfulMock>): string
  {
    IndexHeading + IndexBreak + IndexEntries(mocks)
  }

  /** The StringBuilder loop of buildIndex. */
  method RenderIndex(mocks: seq<RestfulMock>) returns (html: string)
    ensures html == IndexHtml(mocks)
  {
    html := IndexHeading;
    html := html + IndexBreak;
    var i := 0;
    while i < |mocks|
      invariant 0 <= i <= |mocks|
      invariant html == IndexHeading + IndexBreak + IndexEntries(mocks[..i])
    {
      ghost var before := html;
      html := html + mocks[i].httpMethod.Name();
      html := html + " ";
      html := html + mocks[i].path;
      html := html + IndexBreak;
      AppendLine(before, mocks[i].httpMethod.Name(), " ", mocks[i].path, IndexBreak);
      AppendAssoc(IndexHeading + IndexBreak, IndexEntries(mocks[..i]), IndexEntry(mocks[i]));
      assert mocks[..i + 1][..i] == mocks[..i];
      i := i + 1;
    }
    assert mocks[..i] == mocks;
  }

  /** Four appends to a builder append their concatenation. */
  lemma AppendLine(h: string, a: string, b: string, c: string, d: string)
    ensures h + a + b + c + d == h + (a + b + c + d)
  {
    AppendAssoc(h, a, b);
    AppendAssoc(h, a + b, c);
    AppendAssoc(h, a + b + c, d);
  }

  /** The index of two lists one after the other is their two indexes one
      after the other. */
  lemma {:induction false} IndexEntriesAppend(a: seq<RestfulMock>, b: seq<RestfulMock>)
    ensures IndexEntries(a + b) == IndexEntries(a) + IndexEntries(b)
    decreases |b|
  {
    if b == [] {
      assert a + b == a;
    } else {
      var b' := b[..|b| - 1];
      var last := b[|b| - 1];
      assert (a + b)[..|a + b| - 1] == a + b';
      assert (a + b)[|a + b| - 1] == last;
      IndexEntriesAppend(a, b');
      AppendAssoc(IndexEntries(a), IndexEntries(b'), IndexEntry(last));
    }
  }

  /** Every mock has its own line in the page, between the lines of the
      mocks before it and those of the mocks after it. */
  lemma IndexListsEveryMock(mocks: seq<RestfulMock>, k: nat)
    requires k < |mocks|
    ensures IndexHtml(mocks)
         == IndexHeading + IndexBreak + IndexEntries(mocks[..k]) + IndexEntry(mocks[k]) + IndexEntries(mocks[k + 1..])
  {
    assert mocks == mocks[..k] + [mocks[k]] + mocks[k + 1..];
    IndexEntriesAppend(mocks[..k] + [mocks[k]], mocks[k + 1..]);
    IndexEntriesAppend(mocks[..k], [mocks[k]]);
    assert [mocks[k]][..0] == [];
  }

  /** With no mocks the page is the heading and one break. */
  lemma EmptyIndex()
    ensures IndexHtml([]) == "<h2>Smockin REST Service Index</h2><br /><br />"
  {
  }

  // ---------------------------------------------------------------------
  // buildEndpoints
  // ---------------------------------------------------------------------

  /** The route a mock is bound to: its own verb and path. */
  function EndpointRoute(m: RestfulMock): Route
  {
    Route(m.httpMethod, m.path, MockEndpoint(m))
  }

  function UnsupportedMessage(m: Method): string
  {
    "Unsupported mock definition method type : " + m.Name()
  }

  /** The routes buildEndpoints binds, and the exception that stops it. */
  datatype Binding = Binding(routes: seq<Route>, failure: Option<string>)

  /** Bind mocks in list order until one has a verb without a route kind. */
  function BindEndpoints(mocks: seq<RestfulMock>): (b: Binding)
    ensures |b.routes| <= |mocks|
  {
    if mocks == [] then Binding([], None)
    else if !mocks[0].httpMethod.Routable() then Binding([], Some(UnsupportedMessage(mocks[0].httpMethod)))
    else
      var rest := BindEndpoints(mocks[1..]);
      Binding([EndpointRoute(mocks[0])] + rest.routes, rest.failure)
  }

  /** Each bound route is its mock's own; binding stops exactly at the first
      mock whose verb is unsupported, naming that verb, and binds everything
      when there is none. */
  lemma {:induction false} BindEndpointsStopsAtFirstUnsupported(mocks: seq<RestfulMock>)
    ensures var b := BindEndpoints(mocks);
            && (forall k :: 0 <= k < |b.routes| ==> b.routes[k] == EndpointRoute(mocks[k]))
            && (forall k :: 0 <= k < |b.routes| ==> mocks[k].httpMethod.Routable())
            && (b.failure.None? <==> forall k :: 0 <= k < |mocks| ==> mocks[k].httpMethod.Routable())
            && (b.failure.None? ==> |b.routes| == |mocks|)
            && (b.failure.Some? ==>
                  |b.routes| < |mocks| && b.failure.value == UnsupportedMessage(mocks[|b.routes|].httpMethod))
  {
    if mocks != [] && mocks[0].httpMethod.Routable() {
      var rest := mocks[1..];
      BindEndpointsStopsAtFirstUnsupported(rest);
      var b := BindEndpoints(mocks);
      forall k | 0 <= k < |b.routes|
        ensures b.routes[k] == EndpointRoute(mocks[k]) && mocks[k].httpMethod.Routable()
      {
        if k > 0 {
          assert mocks[k] == rest[k - 1];
        }
      }
      if forall k :: 0 <= k < |rest| ==> rest[k].httpMethod.Routable() {
        forall k | 0 <= k < |mocks|
          ensures mocks[k].httpMethod.Routable()
        {
          if k > 0 {
            assert mocks[k] == rest[k - 1];
          }
        }
      } else {
        var k :| 0 <= k < |rest| && !rest[k].httpMethod.Routable();
        assert !mocks[k + 1].httpMethod.Routable();
      }
    }
  }

  // ---------------------------------------------------------------------
  // The engine
  // ---------------------------------------------------------------------

  /** MockedRestServerEngine, with the embedded server's settings. */
  class MockedRestServerEngine {
    var running: bool
    var port: int
    var config: Option<ServerConfig>
    var routes: seq<Route>

    /** The initial server state: not running, port 0. */
    constructor ()
      ensures State() == ServerState(false, 0)
      ensures config == None && routes == []
    {
      running := false;
      port := 0;
      config := None;
      routes := [];
    }

    function State(): ServerState
      reads this
    {
      ServerState(running, port)
    }

    /** getCurrentState. */
    method GetCurrentState() returns (s: ServerState)
      ensures s == State()
    {
      s := ServerState(running, port);
    }

    /** initServerConfig: the port and thread pool the server will use. */
    method InitServerConfig(c: ServerConfig)
      modifies this`config
      ensures config == Some(c)
    {
      config := Some(c);
    }

    /** buildIndex: bind GET "/" to the rendered index, served as text/html. */
    method BuildIndex(mocks: seq<RestfulMock>)
      modifies this`routes
      ensures routes == old(routes) + [Route(GET, "/", IndexPage("text/html", IndexHtml(mocks)))]
    {
      var html := RenderIndex(mocks);
      routes := routes + [Route(GET, "/", IndexPage("text/html", html))];
    }

    /** buildEndpoints: one route per mock, in list order, throwing at the
        first mock whose verb has no route kind (the routes bound before it
        stay bound). */
    method BuildEndpoints(mocks: seq<RestfulMock>) returns (error: Option<ServerError>)
      modifies this`routes
      ensures routes == old(routes) + BindEndpoints(mocks).routes
      ensures error.None? <==> BindEndpoints(mocks).failure.None?
      ensures error.Some? ==> error.value == UnsupportedMethod(BindEndpoints(mocks).failure.value)
    {
      var i := 0;
      while i < |mocks|
        invariant 0 <= i <= |mocks|
        invariant forall k :: 0 <= k < i ==> mocks[k].httpMethod.Routable()
        invariant routes + BindEndpoints(mocks[i..]).routes == old(routes) + BindEndpoints(mocks).routes
        invariant BindEndpoints(mocks[i..]).failure == BindEndpoints(mocks).failure
      {
        var mock := mocks[i];
        assert mocks[i..][1..] == mocks[i + 1..];
        if !mock.httpMethod.Routable() {
          return Some(UnsupportedMethod(UnsupportedMessage(mock.httpMethod)));
        }
        routes := routes + [EndpointRoute(mock)];
        i := i + 1;
      }
      error := None;
    }

    /** initServer: start listening; once the listener is up the state is
        running on `p`. A failure leaves the state as it was. */
    method InitServer(p: int, listenerReady: bool) returns (error: Option<ServerError>)
      modifies this`running, this`port
      ensures listenerReady ==> error.None? && State() == ServerState(true, p)
      ensures !listenerReady ==> error == Some(ListenerFailed) && State() == old(State())
    {
      if !listenerReady {
        return Some(ListenerFailed);
      }
      running := true;
      port := p;
      error := None;
    }

    /** start: configure, publish the index, bind the mocks, listen. */
    method Start(c: ServerConfig, mocks: seq<RestfulMock>, listenerReady: bool) returns (error: Option<ServerError>)
      modifies this`config, this`routes, this`running, this`port
      ensures config == Some(c)
      ensures routes == old(routes) + [Route(GET, "/", IndexPage("text/html", IndexHtml(mocks)))]
                        + BindEndpoints(mocks).routes
      ensures BindEndpoints(mocks).failure.Some? ==>
                error == Some(UnsupportedMethod(BindEndpoints(mocks).failure.value)) && State() == old(State())
      ensures BindEndpoints(mocks).failure.None? && listenerReady ==>
                error.None? && State() == ServerState(true, c.port)
      ensures BindEndpoints(mocks).failure.None? && !listenerReady ==>
                error == Some(ListenerFailed) && State() == old(State())
    {
      InitServerConfig(c);
      BuildIndex(mocks);
      error := BuildEndpoints(mocks);
      if error.Some? {
        return;
      }
      error := InitServer(c.port, listenerReady);
    }

    /** shutdown: stop the server (its routes go with it), then, unless the
        wait after stopping is interrupted, mark the state not running. The
        port is left as it was. */
    method Shutdown(interrupted: bool) returns (error: Option<ServerError>)
      modifies this`running, this`routes
      ensures routes == []
      ensures !interrupted ==> error.None? && State() == ServerState(false, old(port))
      ensures interrupted ==> error == Some(StopInterrupted) && State() == old(State())
    {
      routes := [];
      if interrupted {
        return Some(StopInterrupted);
      }
      running := false;
      error := None;
    }
  }

  // ---------------------------------------------------------------------
  // processRequest and getDefault of the engine
  // ---------------------------------------------------------------------

  /** The two services the engine's own processRequest draws on. */
  datatype EngineResolver = RuleEngine | NextInSequence

  /** RULE mocks go to the rule engine, every other type to the sequence. */
  function EngineResolverFor(t: MockType): (r: EngineResolver)
    ensures r == RuleEngine <==> t == RULE
  {
    if t == RULE then RuleEngine else NextInSequence
  }

  /** getDefault of the engine: the first response variant, whatever the
      mock type; an empty list throws. */
  function GetDefault(m: MockView): (r: Result<ResponseOutcome, Failure>)
    ensures r.Err? <==> m.definitions == []
    ensures r.Ok? ==> r.value == EngineUtils.OutcomeOf(m.definitions[0])
  {
    if m.definitions == [] then Err(OtherFailure) else Ok(EngineUtils.OutcomeOf(m.definitions[0]))
  }

  /** The two getDefault variants agree on every mock but a proxy one, for
      which the pipeline's answers 404 whatever its variants. */
  lemma GetDefaultsAgreeButForProxies(m: MockView)
    ensures m.mockType != PROXY_HTTP ==> GetDefault(m) == EngineUtils.GetDefault(m)
    ensures m.mockType == PROXY_HTTP ==> EngineUtils.GetDefault(m) == Ok(ResponseOutcome(404, None, None, []))
  {
  }

  /** What the engine's processRequest leaves: the response, and the body it
      returns or the exception it throws to the server. */
  datatype EngineProcessed = EngineProcessed(response: ResponseState, reply: Result<string, Failure>)

  function ProcessRequestSpec(st: ResponseState, m: MockView,
                              resolve: (EngineResolver, MockView) -> Result<Option<ResponseOutcome>, Failure>)
    : EngineProcessed
  {
    var resolved := resolve(EngineResolverFor(m.mockType), m);
    if resolved.Err? then EngineProcessed(st, Err(resolved.error))
    else
      var outcome := if resolved.value.Some? then Ok(resolved.value.value) else GetDefault(m);
      if outcome.Err? then EngineProcessed(st, Err(outcome.error))
      else
        var o := outcome.value;
        EngineProcessed(EngineUtils.ApplyOutcome(st, o), Ok(if o.body.Some? then o.body.value else ""))
  }

  /** processRequest of the engine, the handler of every mock route. */
  method ProcessRequest(mock: RestfulMock, res: Response,
                        resolve: (EngineResolver, MockView) -> Result<Option<ResponseOutcome>, Failure>)
    returns (reply: Result<string, Failure>)
    modifies res
    ensures var p := ProcessRequestSpec(old(res.State()), mock.View(), resolve);
            res.State() == p.response && reply == p.reply
  {
    var m := mock.View();
    var resolved := resolve(EngineResolverFor(mock.mockType), m);
    if resolved.Err? {
      return Err(resolved.error);
    }
    var outcome: ResponseOutcome;
    if resolved.value.Some? {
      outcome := resolved.value.value;
    } else {
      var fallback := GetDefault(m);
      if fallback.Err? {
        return Err(fallback.error);
      }
      outcome := fallback.value;
    }
    res.status := outcome.status;
    res.contentType := outcome.contentType;
    for k := 0 to |outcome.headers|
      invariant res.State() == old(res.State()).(status := outcome.status,
                  contentType := outcome.contentType,
                  headers := old(res.headers) + outcome.headers[..k])
    {
      res.headers := res.headers + [outcome.headers[k]];
      assert outcome.headers[..k + 1] == outcome.headers[..k] + [outcome.headers[k]];
    }
    assert outcome.headers[..|outcome.headers|] == outcome.headers;
    reply := Ok(if outcome.body.Some? then outcome.body.value else "");
  }

  /** A route answer carries the outcome's body, a null body read as "";
      unlike the pipeline, a blank body is kept as it is. */
  lemma EngineReplyIsOutcomeBody(st: ResponseState, m: MockView,
                                 resolve: (EngineResolver, MockView) -> Result<Option<ResponseOutcome>, Failure>,
                                 o: ResponseOutcome)
    requires resolve(EngineResolverFor(m.mockType), m) == Ok(Some(o))
    ensures var p := ProcessRequestSpec(st, m, resolve);
            p.response.status == o.status && p.response.contentType == o.contentType
            && p.response.headers == st.headers + o.headers && p.response.body == st.body
            && (o.body.None? ==> p.reply == Ok(""))
            && (o.body.Some? ==> p.reply == Ok(o.body.value))
  {
  }

  /** The resolver of the engine replaced by one that answers `o` for every
      mock. */
  function AnsweringWith(o: ResponseOutcome): (EngineResolver, MockView) -> Result<Option<ResponseOutcome>, Failure>
  {
    (r: EngineResolver, v: MockView) => Ok(Some(o))
  }

  /** A null resolver outcome is replaced by getDefault's, and the route
      then answers exactly as if the resolver had returned it. */
  lemma EngineDefaultActsAsResolved(st: ResponseState, m: MockView,
                                    resolve: (EngineResolver, MockView) -> Result<Option<ResponseOutcome>, Failure>,
                                    d: ResponseOutcome)
    requires resolve(EngineResolverFor(m.mockType), m) == Ok(None) && GetDefault(m) == Ok(d)
    ensures ProcessRequestSpec(st, m, resolve) == ProcessRequestSpec(st, m, AnsweringWith(d))
  {
  }

  /** No resolver answer: the first variant's status, type and headers are
      applied, whatever the mock type, and its body is the answer, a null
      body read as "". */
  lemma {:induction false} EngineDefaultIsFirstVariant(st: ResponseState, m: MockView,
                                    resolve: (EngineResolver, MockView) -> Result<Option<ResponseOutcome>, Failure>)
    requires resolve(EngineResolverFor(m.mockType), m) == Ok(None) && m.definitions != []
    ensures var d := m.definitions[0];
            var p := ProcessRequestSpec(st, m, resolve);
            p.response.status == d.status && p.response.contentType == d.contentType
            && p.response.headers == st.headers + d.headers && p.response.body == st.body
            && p.reply == Ok(if d.body.Some? then d.body.value else "")
  {
    var d := EngineUtils.OutcomeOf(m.definitions[0]);
    EngineDefaultActsAsResolved(st, m, resolve, d);
    EngineReplyIsOutcomeBody(st, m, AnsweringWith(d), d);
  }

  /** No resolver answer and no variant: the route throws and the response
      is left as it was. */
  lemma EngineNoVariantFails(st: ResponseState, m: MockView,
                             resolve: (EngineResolver, MockView) -> Result<Option<ResponseOutcome>, Failure>)
    requires resolve(EngineResolverFor(m.mockType), m) == Ok(None) && m.definitions == []
    ensures ProcessRequestSpec(st, m, resolve) == EngineProcessed(st, Err(OtherFailure))
  {
  }
}
