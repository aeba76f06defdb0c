/** backend/src/middleware/notFoundHandler.ts: the response for a request no route matched. */
module NotFound {
  import opened Wrappers
  import opened Http
  import opened Strings

  const NOT_FOUND_PREFIX: string := "Không tìm thấy endpoint "

  /** The fixed prefix, then the request method, one space and the request path. */
  function NotFoundMessage(httpMethod: string, path: string): string {
    NOT_FOUND_PREFIX + httpMethod + " " + path
  }

  /** `notFoundHandler(req, res)`: a 404 whose body depends on the method and path alone. */
  function NotFoundResponse(httpMethod: string, path: string, timestamp: string): (r: HttpResponse)
    ensures r.status == 404
    ensures IsErrorEnvelope(r.body) && r.body.timestamp == timestamp
    ensures r.body.error.value.code == "NOT_FOUND"
    ensures r.body.error.value.details.None?
    ensures r.body.error.value.message == NotFoundMessage(httpMethod, path)
  {
    FailureResponse(404, "NOT_FOUND", NotFoundMessage(httpMethod, path), timestamp)
  }

  /** Reads a method and a path back out of a not-found message: the method ends at the first space. */
  function ParseNotFoundMessage(message: string): Option<(string, string)> {
    if |message| >= |NOT_FOUND_PREFIX| && message[..|NOT_FOUND_PREFIX|] == NOT_FOUND_PREFIX then
      var fields := Split(message[|NOT_FOUND_PREFIX|..], ' ');
      if |fields| >= 2 then Some((fields[0], Join(fields[1..], ' '))) else None
    else None
  }

  /** An HTTP method has no space in it, so the message determines the method and the path. */
  lemma {:induction false} NotFoundMessageRoundTrip(httpMethod: string, path: string)
    requires ' ' !in httpMethod
    ensures ParseNotFoundMessage(NotFoundMessage(httpMethod, path)) == Some((httpMethod, path))
  {
    var message := NotFoundMessage(httpMethod, path);
    var rest := message[|NOT_FOUND_PREFIX|..];
    assert rest == httpMethod + [' '] + path;
    SplitAfterField(httpMethod, ' ', path);
    var fields := Split(rest, ' ');
    assert fields[1..] == Split(path, ' ');
    JoinSplit(path, ' ');
  }

  /** Conversely, every message the parser accepts is the message of what it parses to. */
  lemma {:induction false} ParsedNotFoundMessage(message: string)
    requires ParseNotFoundMessage(message).Some?
    ensures var (httpMethod, path) := ParseNotFoundMessage(message).value;
      ' ' !in httpMethod && message == NotFoundMessage(httpMethod, path)
  {
    var rest := message[|NOT_FOUND_PREFIX|..];
    var fields := Split(rest, ' ');
    JoinSplit(rest, ' ');
    assert Join(fields, ' ') == fields[0] + [' '] + Join(fields[1..], ' ');
    assert message == message[..|NOT_FOUND_PREFIX|] + rest;
  }

  /** Two requests whose methods have no space get the same 404 body only when method and path agree. */
  lemma NotFoundInjective(m1: string, p1: string, m2: string, p2: string, timestamp: string)
    requires ' ' !in m1 && ' ' !in m2
    requires NotFoundResponse(m1, p1, timestamp) == NotFoundResponse(m2, p2, timestamp)
    ensures m1 == m2 && p1 == p2
  {
    NotFoundMessageRoundTrip(m1, p1);
    NotFoundMessageRoundTrip(m2, p2);
  }
}
