/**
 * CrmClientApp/Services/CrmService.cs: GetClientDataAsync fetches a token,
 * builds a GET request carrying it in a configurable header, sends it and
 * returns the body of a successful response.  The token source and the HTTP
 * client are abstract outcomes passed in; the calls the method makes to them
 * are recorded so that their number and order can be stated.
 */
module CrmService {
  import opened Wrappers
  import opened Exceptions
  import Decimal

  /** The ExternalApi:Token:HeaderName and ExternalApi:Token:HeaderFormat settings; None when absent. */
  datatype HeaderConfig = HeaderConfig(headerName: Option<string>, headerFormat: Option<string>)

  const DefaultHeaderName := "Authorization"
  const DefaultHeaderFormat := "Bearer {0}"
  const ClientDataPathPrefix := "/api/GetClientData?id="

  function HeaderName(cfg: HeaderConfig): (name: string)
    ensures cfg.headerName.None? ==> name == DefaultHeaderName
    ensures cfg.headerName.Some? ==> name == cfg.headerName.value
  {
    cfg.headerName.GetOr(DefaultHeaderName)
  }

  function HeaderFormat(cfg: HeaderConfig): (format: string)
    ensures cfg.headerFormat.None? ==> format == DefaultHeaderFormat
    ensures cfg.headerFormat.Some? ==> format == cfg.headerFormat.value
  {
    cfg.headerFormat.GetOr(DefaultHeaderFormat)
  }

  /** Text in which composite formatting sees no format item or escape. */
  predicate NoBraces(s: string) {
    '{' !in s && '}' !in s
  }

  /**
   * string.Format(format, token), for the one placeholder "{0}": each
   * occurrence is replaced by the token, and a format without braces is
   * used unchanged.
   */
  function FormatWithToken(format: string, token: string): (r: string)
    ensures NoBraces(format) ==> r == format
    decreases |format|
  {
    if |format| == 0 then ""
    else if |format| >= 3 && format[..3] == "{0}" then
      assert format[0] == '{';
      token + FormatWithToken(format[3..], token)
    else
      var rest := FormatWithToken(format[1..], token);
      assert NoBraces(format) ==> NoBraces(format[1..]) by {
        assert forall c | c in format[1..] :: c in format;
      }
      [format[0]] + rest
  }

  /**
   * A header format with one "{0}" and no other braces yields its literal
   * text with the token in the placeholder's place.
   */
  lemma {:induction false} FormatSubstitutes(prefix: string, suffix: string, token: string)
    requires NoBraces(prefix) && NoBraces(suffix)
    ensures FormatWithToken(prefix + "{0}" + suffix, token) == prefix + token + suffix
    decreases |prefix|
  {
    var f := prefix + "{0}" + suffix;
    if |prefix| == 0 {
      assert f == "{0}" + suffix;
      PlaceholderThenLiteral(suffix, token);
    } else {
      var c, tail := prefix[0], prefix[1..];
      assert c in prefix;
      assert f == [c] + (tail + "{0}" + suffix);
      FormatKeepsLiteral(c, tail + "{0}" + suffix, token);
      NoBracesTail(prefix);
      FormatSubstitutes(tail, suffix, token);
      assert prefix == [c] + tail;
      Regroup([c], tail, token, suffix);
    }
  }

  /** A leading "{0}" becomes the token; the brace-free rest is kept. */
  lemma PlaceholderThenLiteral(suffix: string, token: string)
    requires NoBraces(suffix)
    ensures FormatWithToken("{0}" + suffix, token) == token + suffix
  {
    var f := "{0}" + suffix;
    assert f[..3] == "{0}" && f[3..] == suffix;
  }

  /** A first character other than '{' is copied and the rest formatted. */
  lemma FormatKeepsLiteral(c: char, rest: string, token: string)
    requires c != '{'
    ensures FormatWithToken([c] + rest, token) == [c] + FormatWithToken(rest, token)
  {
    var f := [c] + rest;
    assert f[0] == c && f[1..] == rest;
  }

  lemma Regroup(a: string, b: string, c: string, d: string)
    ensures a + (b + c + d) == a + b + c + d
  {
  }

  lemma NoBracesTail(s: string)
    requires |s| > 0 && NoBraces(s)
    ensures NoBraces(s[1..])
  {
    assert forall c | c in s[1..] :: c in s;
  }

  /** The default format gives "Bearer " followed by the token. */
  lemma DefaultHeaderValue(token: string)
    ensures FormatWithToken(DefaultHeaderFormat, token) == "Bearer " + token
  {
    var prefix, suffix := "Bearer ", "";
    assert DefaultHeaderFormat == prefix + "{0}" + suffix;
    FormatSubstitutes(prefix, suffix, token);
  }

  /** A custom format "Token {0}" gives "Token " followed by the token. */
  lemma CustomHeaderValue(token: string)
    ensures FormatWithToken("Token {0}", token) == "Token " + token
  {
    var prefix, suffix := "Token ", "";
    assert "Token {0}" == prefix + "{0}" + suffix;
    FormatSubstitutes(prefix, suffix, token);
  }

  /** The relative request path; the client id is appended as it is, without escaping. */
  function RequestPath(clientId: string): (path: string)
    ensures |path| == |ClientDataPathPrefix| + |clientId|
    ensures path[..|ClientDataPathPrefix|] == ClientDataPathPrefix
    ensures path[|ClientDataPathPrefix|..] == clientId
  {
    ClientDataPathPrefix + clientId
  }

  predicate OccursAt(s: string, t: string, i: int) {
    0 <= i <= |s| - |t| && s[i..i + |t|] == t
  }

  predicate ContainsText(s: string, t: string) {
    exists i | 0 <= i <= |s| :: OccursAt(s, t, i)
  }

  /**
   * The path built for client "12345" is "/api/GetClientData?id=12345"; it
   * does not contain the "/api/v1/ClientData/12345" that the unit test of
   * the endpoint expects.
   */
  lemma PathForTestClient()
    ensures RequestPath("12345") == "/api/GetClientData?id=12345"
    ensures !ContainsText(RequestPath("12345"), "/api/v1/ClientData/12345")
  {
    var s, t := RequestPath("12345"), "/api/v1/ClientData/12345";
    assert s == "/api/GetClientData?id=12345";
    forall i | 0 <= i <= |s| - |t|
      ensures !OccursAt(s, t, i)
    {
      assert s[i..i + |t|][5] == s[i + 5];
      assert s[i + 5] != t[5];
    }
  }

  /** An HTTP request as it is handed to the client. */
  datatype Request = Request(verb: string, path: string, headers: seq<(string, string)>)

  /** HttpRequestMessage: its HTTP method (verb) and URI are fixed, its header collection grows in place. */
  class RequestMessage {
    const verb: string
    const path: string
    var headers: seq<(string, string)>

    constructor (verb: string, path: string)
      ensures this.verb == verb && this.path == path && headers == []
    {
      this.verb := verb;
      this.path := path;
      headers := [];
    }

    method AddHeader(name: string, value: string)
      modifies this
      ensures headers == old(headers) + [(name, value)]
    {
      headers := headers + [(name, value)];
    }

    /** The request as it stands, for handing to the client. */
    function Snapshot(): Request
      reads this
    {
      Request(verb, path, headers)
    }
  }

  /** What sending a request produced: a response, or an exception thrown by the client. */
  datatype Exchange = Responded(status: int, body: string) | Failed(error: Exception)

  /** A call GetClientData makes to one of its collaborators. */
  datatype Call = TokenRequested | DataRequested(request: Request)

  /** The range EnsureSuccessStatusCode accepts. */
  predicate IsSuccessStatus(status: int) {
    200 <= status <= 299
  }

  /** The HttpRequestException EnsureSuccessStatusCode throws, with the reason phrase left out. */
  function StatusError(status: int): (e: Exception)
    ensures e.HttpRequestException?
  {
    HttpRequestException("Response status code does not indicate success: " + Decimal.IntToString(status) + ".")
  }

  /** The GET request for a client id: one header, named from the configuration and carrying the token. */
  function ClientDataRequest(cfg: HeaderConfig, clientId: string, token: string): Request {
    Request("GET", RequestPath(clientId), [(HeaderName(cfg), FormatWithToken(HeaderFormat(cfg), token))])
  }

  /** The result GetClientData is specified to return. */
  function ClientDataOutcome(cfg: HeaderConfig, clientId: string, token: Result<string, Exception>,
                             send: Request -> Exchange): Result<string, Exception>
  {
    match token
    case Err(e) => Err(e)
    case Ok(t) =>
      match send(ClientDataRequest(cfg, clientId, t))
      case Failed(e) => Err(e)
      case Responded(status, body) => if IsSuccessStatus(status) then Ok(body) else Err(StatusError(status))
  }

  /**
   * GetClientDataAsync.  `token` is what the token source yields and `send`
   * what the HTTP client answers to a request; `calls` lists the calls made.
   * The token is asked for exactly once, first; a token failure is passed on
   * and no request is sent; otherwise exactly one request is sent, and a
   * response outside 200-299 becomes an HttpRequestException while a success
   * returns the body verbatim.
   */
  method GetClientData(cfg: HeaderConfig, clientId: string, token: Result<string, Exception>, send: Request -> Exchange)
    returns (r: Result<string, Exception>, calls: seq<Call>)
    ensures |calls| == (if token.Ok? then 2 else 1) && calls[0] == TokenRequested
    ensures token.Err? ==> r == Err(token.error)
    ensures token.Ok? ==> calls[1] == DataRequested(ClientDataRequest(cfg, clientId, token.value))
    ensures token.Ok? ==>
              match send(calls[1].request)
              case Failed(e) => r == Err(e)
              case Responded(status, body) =>
                (IsSuccessStatus(status) ==> r == Ok(body)) &&
                (!IsSuccessStatus(status) ==> r.Err? && r.error.HttpRequestException?)
    ensures r == ClientDataOutcome(cfg, clientId, token, send)
  {
    calls := [TokenRequested];
    if token.Err? {
      r := Err(token.error);
      return;
    }
    var tokenValue := token.value;
    var headerName := HeaderName(cfg);
    var headerFormat := HeaderFormat(cfg);
    var request := new RequestMessage("GET", RequestPath(clientId));
    request.AddHeader(headerName, FormatWithToken(headerFormat, tokenValue));
    var sent := request.Snapshot();
    calls := calls + [DataRequested(sent)];
    var response := send(sent);
    match response {
      case Failed(e) =>
        r := Err(e);
      case Responded(status, body) =>
        if !IsSuccessStatus(status) {
          r := Err(StatusError(status));
        } else {
          r := Ok(body);
        }
    }
  }
}
