/**
 * The part of the HTTP response object the handlers use: `set`, `status` and
 * `send`. The object records what the handler did to it.
 */
module Http {
  import opened JsValues
  import opened Gateway

  /** What `send` is given: nothing, a text, a gateway error object or a token response. */
  datatype Body =
    | NoContent
    | Text(text: string)
    | ErrorObject(error: GatewayError)
    | TokenObject(token: TokenResponse)

  class Response {
    var headers: map<string, string>
    var status: Option<int>
    var body: Option<Body>
    var sendCount: nat

    /** A response nothing has been done to yet. */
    constructor ()
      ensures headers == map[] && status == None && body == None && sendCount == 0
    {
      headers := map[];
      status := None;
      body := None;
      sendCount := 0;
    }

    /** `res.set(name, value)`; headers can no longer be set once the response is sent. */
    method Set(name: string, value: string)
      requires sendCount == 0
      modifies this
      ensures headers == old(headers)[name := value]
      ensures status == old(status) && body == old(body) && sendCount == old(sendCount)
    {
      headers := headers[name := value];
    }

    /** `res.status(code)` */
    method Status(code: int)
      modifies this
      ensures status == Some(code)
      ensures headers == old(headers) && body == old(body) && sendCount == old(sendCount)
    {
      status := Some(code);
    }

    /** `res.send(b)` */
    method Send(b: Body)
      modifies this
      ensures body == Some(b) && sendCount == old(sendCount) + 1
      ensures headers == old(headers) && status == old(status)
    {
      body := Some(b);
      sendCount := sendCount + 1;
    }
  }
}
