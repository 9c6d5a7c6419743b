/** The two Spark objects the pipeline touches: the inbound request, reduced
    to the values the pipeline reads, and the outbound response, whose
    status, content type, headers and body are set step by step. */
module Web {
  import opened Common

  /** A Spark `Request` as the pipeline sees it. `httpMethod` is already the
      result of `RestMethodEnum.findByName(requestMethod())` (None for a
      verb the enum does not know); `headers` lists the servlet header names
      in enumeration order, each with `getHeader(name)`. */
  datatype InboundRequest = InboundRequest(
    httpMethod: Option<Method>,
    path: string,
    headers: seq<Header>,
    body: Option<string>)

  /** The observable state of a Spark `Response`. */
  datatype ResponseState = ResponseState(
    status: int,
    contentType: Option<string>,
    headers: seq<Header>,
    body: Option<string>)

  /** A Spark `Response`: `status(..)`, `type(..)` and `body(..)` overwrite
      a field, `header(..)` adds one more header. */
  class Response {
    var status: int
    var contentType: Option<string>
    var headers: seq<Header>
    var body: Option<string>

    constructor ()
      ensures State() == ResponseState(200, None, [], None)
    {
      status := 200;
      contentType := None;
      headers := [];
      body := None;
    }

    function State(): ResponseState
      reads this
    {
      ResponseState(status, contentType, headers, body)
    }
  }
}
