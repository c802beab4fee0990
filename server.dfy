/** The request handler given to `createServer` in main.js: which status, headers and body
    a request gets. The server, the socket writes and the logging are not modelled. */
module Server {
  import opened Wrappers
  import opened HouseData

  datatype Response = Response(status: nat, headers: map<string, string>, body: string)

  const MethodNotAllowed := Response(405, map["Content-Type" := "text/plain"], "Method Not Allowed")
  const InternalServerError := Response(500, map["Content-Type" := "text/plain"], "Internal Server Error")

  /** The response to a request with method `verb` and query parameters `q`. `loaded` is
      the array the input file parses to, or `None` when reading or parsing the file
      throws or its top level is not an array (`filter` and `map` then throw); `build` is
      the XML builder. */
  function Handle(verb: string, q: Query, loaded: Option<seq<Entry>>, build: Payload -> string): (r: Response)
    ensures verb != "GET" ==> r == MethodNotAllowed
    ensures verb == "GET" ==> (r.status == 200 <==> loaded.Some? && !Fails(q, loaded.value))
    ensures verb == "GET" && r.status != 200 ==> r == InternalServerError
    ensures r.status == 200 ==>
      && loaded.Some? && ProcessHouseData(q, loaded.value).Some?
      && r.headers == map["Content-Type" := "application/xml", "Access-Control-Allow-Origin" := "*"]
      && r.body == build(ProcessHouseData(q, loaded.value).value)
  {
    if verb != "GET" then MethodNotAllowed
    else if loaded.None? then InternalServerError
    else
      ProcessHouseDataSpec(q, loaded.value);
      match ProcessHouseData(q, loaded.value)
      case None => InternalServerError
      case Some(payload) =>
        Response(200, map["Content-Type" := "application/xml", "Access-Control-Allow-Origin" := "*"], build(payload))
  }
}
