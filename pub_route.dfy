/**
 * The decision `routePubRequest` makes about a `POST /pub/:channel/:eventName`
 * body before anything is broadcast: parse it when the request declares
 * JSON, forward it verbatim otherwise, and publish only a truthy result.
 */
module PubRoute {
  import opened JsonValues

  /**
   * What handling one publish request amounts to: the statuses passed to
   * `response.send`, in order, and the object handed to `publish`, if any.
   */
  datatype PubReply = PubReply(statuses: seq<int>, publish: Option<Payload>)

  const MalformedStatus := 500
  const OkStatus := 200

  /**
   * A declared-JSON body that fails to parse is answered 500 (and then 200,
   * as the handler falls through) and is never published. Otherwise the
   * reply is 200 and the object is published exactly when it is truthy: the
   * parsed document when JSON is declared, the body text itself when not.
   */
  function RoutePub(isJson: bool, body: string, parse: Parser): (r: PubReply)
    ensures isJson && parse(body).None? ==> r.statuses == [MalformedStatus, OkStatus] && r.publish.None?
    ensures !(isJson && parse(body).None?) ==> r.statuses == [OkStatus]
    ensures r.publish.Some? ==> PayloadTruthy(r.publish.value)
    ensures isJson && parse(body).Some? ==>
      (r.publish.Some? <==> JsonTruthy(parse(body).value)) && (r.publish.Some? ==> r.publish.value == Parsed(parse(body).value))
    ensures !isJson ==> (r.publish.Some? <==> body != "") && (r.publish.Some? ==> r.publish.value == Raw(body))
  {
    var (statuses, obj) :=
      if isJson then
        match parse(body)
        case None => ([MalformedStatus], None)
        case Some(v) => ([], Some(Parsed(v)))
      else ([], Some(Raw(body)));
    var published := if obj.Some? && PayloadTruthy(obj.value) then obj else None;
    PubReply(statuses + [OkStatus], published)
  }
}
