/**
 * The part of an Express `Response` that the login and registration code
 * touches: the status code, the headers set with `res.set`, the body sent with
 * `res.json` or `res.send`, and whether anything has been sent yet.
 */
module Http {

  /** A response body. `Json` is a serialised object: absent (or deleted) properties are not keys. */
  datatype Body = NoBody | Text(text: string) | Json(fields: map<string, string>)

  /** A snapshot of a response's observable state. */
  datatype Reply = Reply(status: int, headers: map<string, string>, body: Body, sent: bool)

  class Response {
    var status: int
    var headers: map<string, string>
    var body: Body
    var sent: bool

    /** A fresh Express response: status 200, no headers, nothing sent. */
    constructor ()
      ensures View() == Reply(200, map[], NoBody, false)
    {
      status, headers, body, sent := 200, map[], NoBody, false;
    }

    function View(): (r: Reply)
      reads this
    {
      Reply(status, headers, body, sent)
    }

    /** `res.status(code)`: sets the status and sends nothing. */
    method Status(code: int)
      modifies this
      ensures View() == old(View()).(status := code)
    {
      status := code;
    }

    /** `res.set(name, value)`: sets one header. */
    method Set(name: string, value: string)
      modifies this
      ensures View() == old(View()).(headers := old(headers)[name := value])
    {
      headers := headers[name := value];
    }

    /** `res.json(object)`: sends the object serialised as JSON. */
    method SendJson(fields: map<string, string>)
      modifies this
      ensures View() == old(View()).(body := Json(fields), sent := true)
    {
      body, sent := Json(fields), true;
    }

    /** `res.send(text)`: sends a text body. */
    method SendText(text: string)
      modifies this
      ensures View() == old(View()).(body := Text(text), sent := true)
    {
      body, sent := Text(text), true;
    }
  }
}
