/**
 * The two servlet objects the request handler touches: the response, whose
 * status, content type and writer it sets, and the server's own request
 * record, which it marks handled.
 */
module Http {
  /** `HttpServletResponse.SC_OK` and `HttpServletResponse.SC_NOT_FOUND`. */
  const OK: int := 200
  const NOT_FOUND: int := 404

  const TextHtml: string := "text/html"
  const ApplicationJavascript: string := "application/javascript"

  /**
   * A servlet response. `body` is everything printed to its writer so far;
   * an empty `contentType` stands for "not set". A fresh response has the
   * servlet default status 200.
   */
  class Response {
    var status: int
    var contentType: string
    var body: string

    constructor ()
      ensures status == OK && contentType == "" && body == ""
    {
      status, contentType, body := OK, "", "";
    }

    method SetStatus(code: int)
      modifies this
      ensures status == code
      ensures contentType == old(contentType) && body == old(body)
    {
      status := code;
    }

    method SetContentType(mime: string)
      modifies this
      ensures contentType == mime
      ensures status == old(status) && body == old(body)
    {
      contentType := mime;
    }

    /** `getWriter().print(text)`: appends to what was printed before. */
    method Print(text: string)
      modifies this
      ensures body == old(body) + text
      ensures status == old(status) && contentType == old(contentType)
    {
      body := body + text;
    }
  }

  /** The server's base request; only its "handled" flag is used here. */
  class Request {
    var handled: bool

    constructor ()
      ensures !handled
    {
      handled := false;
    }

    method SetHandled(b: bool)
      modifies this
      ensures handled == b
    {
      handled := b;
    }
  }
}
