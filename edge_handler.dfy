/**
 * The serverless variant of the mail endpoint: it accepts only POST,
 * checks the same fields and address as the local proxy, and then always
 * answers that it is not configured to send.
 */
module EdgeHandler {
  import opened Wrappers
  import EmailFormat
  import Relay

  /** The request body: parsed into the proxy's fields, or JSON that failed to parse with the error's message. */
  datatype Parsed = Parsed(body: Relay.Body) | Malformed(message: string)

  datatype Response = Response(status: nat, success: Option<bool>, error: string)

  const MethodNotAllowed: string := "Method not allowed"
  const NotConfigured: string :=
    "Este endpoint no está configurado para edge functions. Usa /server/index.js para desarrollo local o "
    + "configura un servicio de email compatible con serverless."

  /** `handler`: the method first, then the body's parse, fields and address; a valid request gets 501. */
  function Handler(verb: string, request: Parsed): (r: Response)
    ensures r.status in {400, 405, 500, 501}
    ensures r.status == 405 <==> verb != "POST"
    ensures r.status == 500 <==> verb == "POST" && request.Malformed?
    ensures r.status == 400 <==>
              verb == "POST" && request.Parsed?
              && (!Relay.HasRequiredFields(request.body) || !EmailFormat.MatchesEmail(request.body.to.value))
    ensures r.status == 501 ==> r.success == Some(false) && r.error == NotConfigured
  {
    if verb != "POST" then Response(405, None, MethodNotAllowed)
    else match request
      case Malformed(message) =>
        Response(500, Some(false), if message != "" then message else Relay.InternalError)
      case Parsed(b) =>
        if !Relay.HasRequiredFields(b) then Response(400, None, Relay.MissingFields)
        else if !EmailFormat.MatchesEmail(b.to.value) then Response(400, None, Relay.InvalidEmail)
        else Response(501, Some(false), NotConfigured)
  }

  /**
   * On a POST with a parsed body the serverless handler refuses exactly what
   * the local proxy refuses with 400, and never sends: where the proxy
   * would hand the message to the transport, it answers 501.
   */
  lemma AgreesWithRelay(b: Relay.Body, transport: Relay.Transport, crash: string)
    ensures var edge := Handler("POST", Parsed(b));
            var relay := Relay.SendEmail(Some(b), transport, crash);
            (edge.status == 400 <==> relay.status == 400)
            && (edge.status == 400 ==> Some(edge.error) == relay.error)
            && (edge.status == 501 <==> relay.status != 400)
  {
  }
}
