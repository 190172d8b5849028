/**
 * The local mail proxy's `/api/send-email` endpoint: required fields, the
 * address check, and the status for each outcome of the mail transport,
 * plus the mapping of the request's attachments to the transport's. The
 * transport's result is a parameter; base64 decoding of the content is not
 * modelled (the content is passed as it arrives).
 */
module Relay {
  import opened Wrappers
  import EmailFormat
  import GmailEmail

  /** A request body; a field the JSON lacks is `None`. */
  datatype Body = Body(to: Option<string>, subject: Option<string>, htmlContent: Option<string>,
                       attachments: Option<seq<GmailEmail.Attachment>>)

  /** The transport's answer: delivered with an id, refused with an error, or an exception thrown before sending. */
  datatype Transport = Delivered(messageId: string) | Refused(error: string) | Crashed(message: string)

  datatype Response = Response(status: nat, success: bool, messageId: Option<string>, error: Option<string>)

  const MissingFields: string := "Missing required fields: to, subject, htmlContent"
  const InvalidEmail: string := "Invalid email format"
  const InternalError: string := "Error interno del servidor"

  /** A truthy text field. */
  predicate Given(field: Option<string>) {
    field.Some? && field.value != ""
  }

  predicate HasRequiredFields(b: Body) {
    Given(b.to) && Given(b.subject) && Given(b.htmlContent)
  }

  /** One attachment as the mail transport takes it. */
  datatype MailAttachment = MailAttachment(filename: string, content: string, contentType: string)

  datatype MailOptions = MailOptions(to: string, subject: string, html: string, attachments: seq<MailAttachment>)

  /** `attachments?.map(...) || []`. */
  function MailAttachments(attachments: Option<seq<GmailEmail.Attachment>>): (r: seq<MailAttachment>)
    ensures attachments.None? ==> r == []
    ensures attachments.Some? ==> |r| == |attachments.value|
    ensures attachments.Some? ==> forall i :: 0 <= i < |r| ==>
              r[i] == MailAttachment(attachments.value[i].name, attachments.value[i].contentBytes,
                                     attachments.value[i].contentType)
  {
    match attachments
    case None => []
    case Some(atts) =>
      seq(|atts|, i requires 0 <= i < |atts| =>
        MailAttachment(atts[i].name, atts[i].contentBytes, atts[i].contentType))
  }

  /** The message handed to the transport for a validated body. */
  function MailOptionsFor(b: Body): MailOptions
    requires HasRequiredFields(b)
  {
    MailOptions(b.to.value, b.subject.value, b.htmlContent.value, MailAttachments(b.attachments))
  }

  /**
   * The endpoint. A body that cannot be destructured (`None`) throws before
   * any check, like an exception in the transport, and gets 500 with the
   * exception's message, or the generic text when that is empty.
   */
  function SendEmail(body: Option<Body>, transport: Transport, crash: string): (r: Response)
    ensures r.status in {200, 400, 500}
    ensures r.success <==> r.status == 200
    ensures r.status == 400 <==>
              body.Some? && (!HasRequiredFields(body.value) || !EmailFormat.MatchesEmail(body.value.to.value))
    ensures r.status == 400 ==>
              r.error == Some(if HasRequiredFields(body.value) then InvalidEmail else MissingFields)
    ensures r.status == 200 <==>
              body.Some? && HasRequiredFields(body.value) && EmailFormat.MatchesEmail(body.value.to.value)
              && transport.Delivered?
    ensures r.status == 200 ==> r.messageId == Some(transport.messageId)
    ensures transport.Refused? && r.status == 500 && body.Some? ==> r.error == Some(transport.error)
  {
    match body
    case None => Response(500, false, None, Some(if crash != "" then crash else InternalError))
    case Some(b) =>
      if !HasRequiredFields(b) then Response(400, false, None, Some(MissingFields))
      else if !EmailFormat.MatchesEmail(b.to.value) then Response(400, false, None, Some(InvalidEmail))
      else match transport
        case Delivered(id) => Response(200, true, Some(id), None)
        case Refused(error) => Response(500, false, None, Some(error))
        case Crashed(message) =>
          Response(500, false, None, Some(if message != "" then message else InternalError))
  }

  /** The body the front end posts for a message. */
  function BodyOf(m: GmailEmail.EmailMessage): Body {
    Body(Some(m.to), Some(m.subject), Some(m.htmlContent), Some(m.attachments))
  }

  /**
   * End to end: the contract e-mail for a well-formed client address and a
   * non-empty body reaches the transport with its recipient, subject and
   * every prepared attachment under its file name, and the front end's
   * sender resolves exactly when the transport delivers.
   */
  lemma ContractEmailThroughRelay(data: GmailEmail.ContractEmailData, html: string, transport: Transport, crash: string)
    requires EmailFormat.MatchesEmail(data.clientEmail) && html != ""
    ensures var m := GmailEmail.ContractMessage(data, html);
            var b := BodyOf(m);
            HasRequiredFields(b)
            && MailOptionsFor(b).to == data.clientEmail
            && |MailOptionsFor(b).attachments| == |GmailEmail.Attachments(data.attachments)|
            && (forall i :: 0 <= i < |MailOptionsFor(b).attachments| ==>
                  MailOptionsFor(b).attachments[i].filename == GmailEmail.Attachments(data.attachments)[i].name)
    ensures var r := SendEmail(Some(BodyOf(GmailEmail.ContractMessage(data, html))), transport, crash);
            GmailEmail.SendEmail(GmailEmail.Answered(r.success, r.status, r.error)).Sent? <==> transport.Delivered?
  {
    var m := GmailEmail.ContractMessage(data, html);
    EmailFormat.MatchesEmailIffShaped(data.clientEmail);
  }
}
