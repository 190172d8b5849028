/**
 * The e-mail test panel: a test address, a guard against sending to an
 * empty one, the result line after a send, and the hint appended to a
 * failure, chosen from the error message.
 */
module EmailTestPanel {
  import opened Wrappers
  import opened Js
  import Text
  import GmailEmail

  const EmptyAddressMessage: string := "Por favor ingresa un correo electrónico"
  const DemoSuccessMessage: string := "Email de prueba simulado exitosamente. Revisa la consola del navegador."
  const SentHead: string := "Email enviado exitosamente a "

  datatype Hint = NetworkHint | UnauthorizedHint | ForbiddenHint | NotFoundHint | NoHint

  /** The first matching rule picks the hint; a message matching none gets none. */
  function HintOf(message: string): (h: Hint)
    ensures h == NetworkHint <==>
              Text.Contains(message, "Failed to fetch") || Text.Contains(message, "NetworkError")
    ensures h == UnauthorizedHint <==>
              h != NetworkHint && (Text.Contains(message, "401") || Text.Contains(message, "Unauthorized"))
    ensures h == ForbiddenHint <==>
              h != NetworkHint && h != UnauthorizedHint
              && (Text.Contains(message, "403") || Text.Contains(message, "Forbidden"))
    ensures h == NotFoundHint <==>
              h != NetworkHint && h != UnauthorizedHint && h != ForbiddenHint
              && (Text.Contains(message, "404") || Text.Contains(message, "Not Found"))
  {
    if Text.Contains(message, "Failed to fetch") || Text.Contains(message, "NetworkError") then NetworkHint
    else if Text.Contains(message, "401") || Text.Contains(message, "Unauthorized") then UnauthorizedHint
    else if Text.Contains(message, "403") || Text.Contains(message, "Forbidden") then ForbiddenHint
    else if Text.Contains(message, "404") || Text.Contains(message, "Not Found") then NotFoundHint
    else NoHint
  }

  const Tip: string := "\n\n\U{1F4A1} Sugerencia: "

  function HintText(h: Hint): string {
    match h
    case NetworkHint =>
      Tip + "Este error suele indicar problemas de CORS o credenciales inválidas. "
      + "Para desarrollo, cambia API_MODE a \"DEMO\" en /services/config.ts"
    case UnauthorizedHint => Tip + "Verifica las credenciales de Microsoft en /services/microsoft-email.ts"
    case ForbiddenHint => Tip + "Verifica los permisos de API en Azure AD (Mail.Send debe estar otorgado)"
    case NotFoundHint =>
      Tip + "El usuario remitente no existe. Verifica senderEmail en /services/microsoft-email.ts"
    case NoHint => ""
  }

  /** The failure line: the error message after "Error: ", then the hint. */
  function FailureMessage(message: string): (m: string)
    ensures |m| >= 7 + |message| && m[..7] == "Error: " && m[7..7 + |message|] == message
    ensures HintOf(message) == NoHint ==> m == "Error: " + message
  {
    var m := "Error: " + message + HintText(HintOf(message));
    assert m[7..7 + |message|] == message;
    m
  }

  /** A proxy refusal with status 401 gets the credentials hint, unless its text already reads as a network failure. */
  lemma UnauthorizedStatusHint(errorText: Option<string>)
    ensures var h := HintOf(GmailEmail.ProxyErrorMessage(401, errorText));
            h == NetworkHint || h == UnauthorizedHint
  {
    GmailEmail.ProxyErrorNamesStatus(401, errorText);
    assert DecimalString(401) == "401";
  }

  datatype TestResult = TestResult(success: bool, message: string)

  /** The success line: fixed in demo mode, naming the address otherwise. */
  function SuccessMessage(demo: bool, address: string): (m: string)
    requires address != ""
    ensures demo ==> m == DemoSuccessMessage
    ensures !demo ==> |m| > |SentHead| && m[..|SentHead|] == SentHead && m[|SentHead|..] == address
  {
    if demo then DemoSuccessMessage else SentHead + address
  }

  /** The result line after a send to a non-empty address. */
  function ResultFor(demo: bool, address: string, outcome: GmailEmail.SendResult): (r: TestResult)
    requires address != ""
    ensures r.success <==> outcome.Sent?
    ensures outcome.Sent? ==> r.message == SuccessMessage(demo, address)
    ensures outcome.Thrown? ==> r.message == FailureMessage(outcome.message)
  {
    match outcome
    case Sent => TestResult(true, SuccessMessage(demo, address))
    case Thrown(message) => TestResult(false, FailureMessage(message))
  }

  class Panel {
    var testEmail: string
    var isSending: bool
    var result: Option<TestResult>

    constructor ()
      ensures testEmail == "" && !isSending && result == None
    {
      testEmail := "";
      isSending := false;
      result := None;
    }

    /** The send button: disabled while sending or while the address is empty. */
    predicate SendEnabled()
      reads this
    {
      !isSending && testEmail != ""
    }

    method SetTestEmail(address: string)
      modifies this
      ensures testEmail == address && isSending == old(isSending) && result == old(result)
    {
      testEmail := address;
    }

    /**
     * `handleSendTestEmail` up to its `await`: an empty address gives the
     * failure line and no send; otherwise sending starts with the old line cleared.
     */
    method StartSend() returns (attempted: bool)
      requires !isSending
      modifies this
      ensures attempted <==> testEmail != ""
      ensures attempted <==> old(SendEnabled())
      ensures attempted ==> !SendEnabled()
      ensures !attempted ==> result == Some(TestResult(false, EmptyAddressMessage)) && !isSending
      ensures attempted ==> result == None && isSending
      ensures testEmail == old(testEmail)
    {
      if testEmail == "" {
        result := Some(TestResult(false, EmptyAddressMessage));
        return false;
      }
      isSending := true;
      result := None;
      attempted := true;
    }

    /** After the `await`: the result line is set, and sending ends whatever happened. */
    method FinishSend(demo: bool, outcome: GmailEmail.SendResult)
      requires isSending && testEmail != ""
      modifies this
      ensures !isSending && testEmail == old(testEmail)
      ensures result == Some(ResultFor(demo, testEmail, outcome))
    {
      result := Some(ResultFor(demo, testEmail, outcome));
      isSending := false;
    }

    /** One press of the button through the mail service: it ends not sending, successful exactly when sent. */
    method Send(demo: bool, reply: GmailEmail.ProxyReply)
      requires !isSending
      modifies this
      ensures !isSending && testEmail == old(testEmail)
      ensures result.Some?
      ensures result.value.success <==> testEmail != "" && (demo || (reply.Answered? && reply.ok))
    {
      var attempted := StartSend();
      if attempted {
        FinishSend(demo, GmailEmail.SendContractEmail(demo, reply));
      }
    }
  }
}
