/**
  The request/response exchange the middlewares work on. A handler's
  visible actions are recorded in order as effects: writing a response
  (`res.status(code).json(body)`) or handing on with `next()` or
  `next(error)`.
 */
module Http {
  import opened Common
  import JwtService

  datatype Reply = Reply(status: int, body: Json)

  datatype Effect = Responded(reply: Reply) | NextCalled(error: Option<Exception>)

  /** The body `{ message }`. */
  function MessageBody(message: string): Json {
    JObject(map["message" := JString(message)])
  }

  /** One request in flight: its Authorization header, the identity a gate
      attaches to it, the three parts a validator may replace, and what has
      been done with it so far. */
  class Exchange {
    const authorization: Option<string>
    var user: Option<JwtService.Payload>
    var body: Json
    var params: Json
    var query: Json
    var effects: seq<Effect>

    constructor (authorization: Option<string>, body: Json, params: Json, query: Json)
      ensures this.authorization == authorization && this.user == None
      ensures this.body == body && this.params == params && this.query == query
      ensures this.effects == []
    {
      this.authorization := authorization;
      this.user := None;
      this.body := body;
      this.params := params;
      this.query := query;
      this.effects := [];
    }
  }
}
