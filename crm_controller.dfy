/**
 * CrmClientApp/Controllers/CrmController.cs: the relay endpoint
 * GET api/Crm/GetClientData?id=...  It rejects a missing or blank id before
 * calling the service, and maps the service's outcome to a status and a
 * JSON body.  The service is a parameter; the ids it is called with are
 * recorded.
 */
module CrmController {
  import opened Wrappers
  import opened Exceptions
  import CrmService

  /** The anonymous objects serialised as the response body. */
  datatype Body =
    | DataBody(data: string)
    | ErrorBody(error: string)
    | ErrorWithMessage(error: string, message: string)

  datatype ActionResult = ActionResult(statusCode: int, value: Body)

  /** The endpoint's result together with the ids the service was called with. */
  datatype Handled = Handled(result: ActionResult, serviceCalls: seq<string>)

  const ClientIdRequired := "Client ID is required"
  const UnableToConnect := "Unable to connect to CRM server"
  const RetrievalFailed := "An error occurred while retrieving client data"

  /** Char.IsWhiteSpace: U+0009-U+000D, U+0085 and the Unicode space, line and paragraph separators. */
  predicate IsWhiteSpace(c: char) {
    var n := c as int;
    (0x09 <= n <= 0x0D) || n == 0x20 || n == 0x85 || n == 0xA0 || n == 0x1680
    || (0x2000 <= n <= 0x200A) || n == 0x2028 || n == 0x2029 || n == 0x202F || n == 0x205F || n == 0x3000
  }

  /**
   * string.IsNullOrWhiteSpace: true for null, for the empty string and for
   * text of white space only; one character that is not white space makes
   * it false.
   */
  function IsNullOrWhiteSpace(id: Option<string>): (blank: bool)
    ensures id.None? ==> blank
    ensures id.Some? && |id.value| == 0 ==> blank
    ensures id.Some? && (exists i | 0 <= i < |id.value| :: !IsWhiteSpace(id.value[i])) ==> !blank
    ensures id.Some? && (forall i | 0 <= i < |id.value| :: IsWhiteSpace(id.value[i])) ==> blank
  {
    id.None? || forall i | 0 <= i < |id.value| :: IsWhiteSpace(id.value[i])
  }

  /**
   * GetClientData.  Every input gets exactly one of the statuses 400, 200,
   * 503 and 500: 400 for a null or blank id, without calling the service;
   * otherwise the service is called once with the id, its data is returned
   * unchanged with 200, an HttpRequestException gives 503 and any other
   * exception 500, both with the exception's message.
   */
  function GetClientData(id: Option<string>, service: string -> Result<string, Exception>): (h: Handled)
    ensures h.result.statusCode == 400 <==> IsNullOrWhiteSpace(id)
    ensures h.result.statusCode == 200 <==> !IsNullOrWhiteSpace(id) && service(id.value).Ok?
    ensures h.result.statusCode == 503 <==>
              !IsNullOrWhiteSpace(id) && service(id.value).Err? && service(id.value).error.HttpRequestException?
    ensures h.result.statusCode == 500 <==>
              !IsNullOrWhiteSpace(id) && service(id.value).Err? && !service(id.value).error.HttpRequestException?
    ensures IsNullOrWhiteSpace(id) ==> h.serviceCalls == [] && h.result.value == ErrorBody(ClientIdRequired)
    ensures !IsNullOrWhiteSpace(id) ==> h.serviceCalls == [id.value]
    ensures h.result.statusCode == 200 ==> h.result.value == DataBody(service(id.value).value)
    ensures h.result.statusCode == 503 ==> h.result.value == ErrorWithMessage(UnableToConnect, service(id.value).error.Message())
    ensures h.result.statusCode == 500 ==> h.result.value == ErrorWithMessage(RetrievalFailed, service(id.value).error.Message())
  {
    if IsNullOrWhiteSpace(id) then
      Handled(ActionResult(400, ErrorBody(ClientIdRequired)), [])
    else
      var clientId := id.value;
      var result :=
        match service(clientId)
        case Ok(clientData) => ActionResult(200, DataBody(clientData))
        case Err(HttpRequestException(message)) => ActionResult(503, ErrorWithMessage(UnableToConnect, message))
        case Err(ex) => ActionResult(500, ErrorWithMessage(RetrievalFailed, ex.Message()));
      Handled(result, [clientId])
  }

  /** An id of spaces only gets 400 "Client ID is required", and the service is not called. */
  lemma WhiteSpaceIdRejected(service: string -> Result<string, Exception>)
    ensures GetClientData(Some("   "), service) == Handled(ActionResult(400, ErrorBody(ClientIdRequired)), [])
  {
    var id := "   ";
    assert forall i | 0 <= i < |id| :: IsWhiteSpace(id[i]);
  }

  /**
   * The endpoint over the CRM service model: a valid id yields 200 with the
   * CRM body exactly when a token was obtained and the CRM answered 2xx; a
   * non-2xx answer yields 503; a token failure yields 503 or 500 according
   * to its category.
   */
  lemma RelayOverService(id: string, cfg: CrmService.HeaderConfig, token: Result<string, Exception>,
                         send: CrmService.Request -> CrmService.Exchange)
    requires !IsNullOrWhiteSpace(Some(id))
    ensures var h := GetClientData(Some(id), (i: string) => CrmService.ClientDataOutcome(cfg, i, token, send));
            && (token.Err? ==> h.result.statusCode == (if token.error.HttpRequestException? then 503 else 500))
            && (token.Ok? ==>
                  var answer := send(CrmService.ClientDataRequest(cfg, id, token.value));
                  && (h.result.statusCode == 200 <==> answer.Responded? && CrmService.IsSuccessStatus(answer.status))
                  && (h.result.statusCode == 200 ==> h.result.value == DataBody(answer.body))
                  && (answer.Responded? && !CrmService.IsSuccessStatus(answer.status) ==> h.result.statusCode == 503))
  {
    var service := (i: string) => CrmService.ClientDataOutcome(cfg, i, token, send);
    var h := GetClientData(Some(id), service);
    if token.Ok? {
      var answer := send(CrmService.ClientDataRequest(cfg, id, token.value));
      if answer.Responded? && !CrmService.IsSuccessStatus(answer.status) {
        assert service(id) == Err(CrmService.StatusError(answer.status));
      }
    }
  }
}
