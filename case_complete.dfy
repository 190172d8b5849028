/**
 * Step 8 of the wizard: the completed case. It shows a case number and a
 * duration, assembles the contract e-mail from the case record (with its
 * defaults for what the record lacks) and sends it once on arrival, with a
 * resend button; a failure is explained by a hint chosen from the error
 * message. The random draws, the activation date and the demo PDFs are
 * parameters.
 */
module CaseCompleteStep {
  import opened Wrappers
  import opened Js
  import opened Records
  import Text
  import GmailEmail
  import ServiceSelectionStep
  import ContractGenerationStep

  const CasePrefix: string := "CASO-"

  /** The case number for the draw `k = floor(random * 10000)`: the prefix and four digits reading `k`. */
  function CaseNumber(k: nat): (s: string)
    requires k < 10000
    ensures |s| == 9 && s[..5] == CasePrefix
    ensures AllDecimal(s[5..]) && DecimalValue(s[5..]) == k
  {
    var digits := Padded(k, 4);
    assert (CasePrefix + digits)[5..] == digits;
    CasePrefix + digits
  }

  /** The duration shown for the draw `k = floor(random * 5)`: from 10 to 14 minutes, within the 15-minute goal. */
  function CompletionTime(k: nat): (minutes: nat)
    requires k < 5
    ensures 10 <= minutes <= 14 && minutes - 10 == k
  {
    k + 10
  }

  /** Different draws show different case numbers. */
  lemma CaseNumberInjective(a: nat, b: nat)
    requires a < 10000 && b < 10000
    ensures CaseNumber(a) == CaseNumber(b) <==> a == b
  {
  }

  // ---------------------------------------------------------------------------
  // The e-mail data
  // ---------------------------------------------------------------------------

  /** A record value as a template literal prints it; an absent key prints `undefined`. */
  function Interpolated(data: Record, key: string): (s: string)
    ensures key !in data ==> s == "undefined"
    ensures key in data && data[key].Text? ==> s == data[key].s
  {
    if key !in data then "undefined"
    else match data[key]
      case Text(s) => s
      case Null => "null"
      case Flag(b) => if b then "true" else "false"
      case Number(n) => if n >= 0 then DecimalString(n) else "-" + DecimalString(-n)
      case _ => "[object Object]"
  }

  /** `${data.firstName} ${data.lastName}`. */
  function ClientName(data: Record): string {
    Interpolated(data, "firstName") + " " + Interpolated(data, "lastName")
  }

  const NoContract: string := "N/A"
  const DefaultServiceName: string := "Servicio Telco"
  const DefaultFeatures: seq<string> :=
    ["Servicio de alta calidad", "Soporte técnico 24/7", "Instalación incluida"]
  const MonthlyPaymentDate: string := "5"

  /** `data.contract?.contractNumber || 'N/A'`. */
  function ContractNumberOr(data: Record): (s: string)
    ensures s != ""
    ensures s != NoContract ==>
              "contract" in data && data["contract"].ContractDoc? && s == data["contract"].contract.contractNumber
  {
    if "contract" in data && data["contract"].ContractDoc? && data["contract"].contract.contractNumber != ""
    then data["contract"].contract.contractNumber else NoContract
  }

  /** `data.servicePrice || 0`. */
  function PriceOr(data: Record): int {
    if "servicePrice" in data && data["servicePrice"].Number? then data["servicePrice"].n else 0
  }

  /** `data.serviceDetails?.features || [...]`: an item's list is kept even when empty, since an array is truthy. */
  function FeaturesOr(data: Record): seq<string> {
    if "serviceDetails" in data && data["serviceDetails"].Item? then data["serviceDetails"].item.features
    else DefaultFeatures
  }

  /** What `generateDemoPDF` returns for each of the four kinds of document. */
  datatype DemoPdfs = DemoPdfs(contract: string, terms: string, identity: string, address: string)

  /** The demo documents are base64 text of a non-empty template, so never empty. */
  predicate Generated(pdfs: DemoPdfs) {
    pdfs.contract != "" && pdfs.terms != "" && pdfs.identity != "" && pdfs.address != ""
  }

  /**
   * A document attachment: the payload after the first comma of the stored
   * data URL when there is one (`None` when the URL has no comma, which is
   * `undefined` in the source), the demo PDF otherwise.
   */
  function PhotoSource(data: Record, key: string, demo: string): (o: Option<string>)
    ensures !(key in data && data[key].Text? && data[key].s != "") ==> o == Some(demo)
    ensures key in data && data[key].Text? && data[key].s != "" ==> o == Text.SecondField(data[key].s, ',')
  {
    if key in data && data[key].Text? && data[key].s != "" then Text.SecondField(data[key].s, ',')
    else Some(demo)
  }

  /** The `emailData` that `sendEmail` builds from the case record. */
  function EmailData(data: Record, activationDate: string, pdfs: DemoPdfs): (e: GmailEmail.ContractEmailData)
    ensures e.clientName == ClientName(data)
    ensures e.contractNumber == ContractNumberOr(data)
    ensures e.serviceName == TextOr(data, "serviceName", DefaultServiceName)
    ensures e.servicePrice == PriceOr(data) && e.serviceFeatures == FeaturesOr(data)
    ensures e.activationDate == activationDate && e.monthlyPaymentDate == MonthlyPaymentDate
    ensures e.attachments.contract == Some(pdfs.contract)
    ensures e.attachments.termsAndConditions == Some(pdfs.terms)
    ensures e.attachments.identityDocument == PhotoSource(data, "documentPhoto", pdfs.identity)
    ensures e.attachments.proofOfAddress == PhotoSource(data, "addressProof", pdfs.address)
  {
    GmailEmail.ContractEmailData(
      ClientName(data), TextOr(data, "email", ""), TextOr(data, "documentNumber", ""),
      ContractNumberOr(data), TextOr(data, "serviceName", DefaultServiceName), PriceOr(data),
      FeaturesOr(data), activationDate, MonthlyPaymentDate,
      GmailEmail.AttachmentSources(
        Some(pdfs.contract), Some(pdfs.terms),
        PhotoSource(data, "documentPhoto", pdfs.identity),
        PhotoSource(data, "addressProof", pdfs.address)))
  }

  /** An empty record still gives a complete e-mail: every default, and all four demo documents attached. */
  lemma EmptyRecordDefaults(activationDate: string, pdfs: DemoPdfs)
    requires Generated(pdfs)
    ensures var e := EmailData(map[], activationDate, pdfs);
            e.clientName == "undefined undefined"
            && e.contractNumber == NoContract && e.serviceName == DefaultServiceName
            && e.servicePrice == 0 && e.serviceFeatures == DefaultFeatures && |e.serviceFeatures| == 3
            && GmailEmail.Names(GmailEmail.Attachments(e.attachments)) == GmailEmail.FileNames
  {
    var e := EmailData(map[], activationDate, pdfs);
    GmailEmail.AttachmentsUnrolled(e.attachments);
  }

  /**
   * The choices of the earlier steps reach the e-mail: after the service
   * selection and the generated contract are merged into the record, the
   * e-mail names that contract and that item, its price and its features.
   */
  lemma WizardChoicesReachEmail(data: Record, selected: string, k: nat, generatedAt: string,
                                hashTail: string, activationDate: string, pdfs: DemoPdfs)
    requires k < 10000 && ServiceSelectionStep.ContinuePayload(selected).Some?
    ensures var c := ContractGenerationStep.NewContract(k, generatedAt, hashTail);
            var d := Merge(Merge(data, ServiceSelectionStep.ContinuePayload(selected).value),
                           ContractGenerationStep.ContinuePayload(Some(c)));
            var item := ServiceSelectionStep.Find(ServiceSelectionStep.Catalog(), selected).value;
            var e := EmailData(d, activationDate, pdfs);
            e.contractNumber == c.contractNumber && e.serviceName == item.name
            && e.servicePrice == item.price && e.serviceFeatures == item.features
  {
    var c := ContractGenerationStep.NewContract(k, generatedAt, hashTail);
    var chosen := ServiceSelectionStep.ContinuePayload(selected).value;
    var d := Merge(Merge(data, chosen), ContractGenerationStep.ContinuePayload(Some(c)));
    var item := ServiceSelectionStep.Find(ServiceSelectionStep.Catalog(), selected).value;
    assert d["contract"] == ContractDoc(c);
    assert d["serviceName"] == Text(item.name);
    assert d["servicePrice"] == Number(item.price);
    assert d["serviceDetails"] == Item(item);
    CatalogNamed(item);
  }

  /** Every catalogue item has a non-empty name, so `serviceName ||` keeps it. */
  lemma CatalogNamed(item: CatalogItem)
    requires item in ServiceSelectionStep.Catalog()
    ensures item.name != ""
  {
  }

  /** A photo stored as a data URL `header,payload` is attached as its payload; one without a comma is left out. */
  lemma PhotoAttachment(data: Record, header: string, payload: string, pdfs: DemoPdfs, activationDate: string)
    requires ',' !in header && ',' !in payload
    ensures var e := EmailData(data["documentPhoto" := Text(header + [','] + payload)], activationDate, pdfs);
            e.attachments.identityDocument == Some(payload)
    ensures header != "" ==>
              var e := EmailData(data["documentPhoto" := Text(header)], activationDate, pdfs);
              !GmailEmail.Present(e.attachments.identityDocument)
  {
    Text.SecondFieldOfDataUrl(header, payload);
  }

  // ---------------------------------------------------------------------------
  // The outcome of a send
  // ---------------------------------------------------------------------------

  const GenericFailure: string := "No se pudo enviar el correo de confirmación"
  const ConnectionHint: string := "Error de conexión. Para desarrollo, usa modo DEMO en /services/config.ts"
  const CredentialsHint: string :=
    "Credenciales inválidas. Verifica la configuración del servicio de email."

  predicate NetworkFailure(message: string) {
    Text.Contains(message, "Failed to fetch") || Text.Contains(message, "NetworkError")
  }

  /** The description of the failure toast, chosen from the error message. */
  function FailureDescription(message: string): (d: string)
    ensures d == ConnectionHint <==> NetworkFailure(message)
    ensures d == CredentialsHint <==>
              !NetworkFailure(message) && Text.Contains(message, "Invalid credentials")
    ensures d == GenericFailure <==>
              !NetworkFailure(message) && !Text.Contains(message, "Invalid credentials")
  {
    if NetworkFailure(message) then ConnectionHint
    else if Text.Contains(message, "Invalid credentials") then CredentialsHint
    else GenericFailure
  }

  /** A proxy that cannot be reached gives the connection hint, whatever the mode's proxy said before. */
  lemma UnreachableProxyHint()
    ensures var r := GmailEmail.SendContractEmail(false, GmailEmail.Unreachable("Failed to fetch"));
            r.Thrown? && FailureDescription(r.message) == ConnectionHint
  {
    assert Text.OccursAt("Failed to fetch", "Failed to fetch", 0);
    Text.ContainsIffWindow("Failed to fetch", "Failed to fetch");
  }

  /** A refusal reported by the proxy as invalid credentials never gets the generic description. */
  lemma RefusedCredentialsHint(status: nat)
    ensures var m := GmailEmail.ProxyErrorMessage(status, Some("Invalid credentials"));
            Text.Contains(m, "Invalid credentials") && FailureDescription(m) != GenericFailure
  {
    var m := GmailEmail.ProxyErrorMessage(status, Some("Invalid credentials"));
    var sub := "Invalid credentials";
    assert Text.OccursAt(m, sub, |m| - |sub|);
    Text.ContainsIffWindow(m, sub);
  }

  datatype Toast = SuccessToast(title: string, description: string) | ErrorToast(title: string, description: string)

  /** The toast shown after an attempt. */
  function ToastFor(data: Record, outcome: GmailEmail.SendResult): (t: Toast)
    ensures t.SuccessToast? <==> outcome.Sent?
    ensures outcome.Thrown? ==> t.description == FailureDescription(outcome.message)
    ensures outcome.Sent? ==> t.description == "Contrato enviado a " + Interpolated(data, "email")
  {
    match outcome
    case Sent => SuccessToast("Correo enviado exitosamente", "Contrato enviado a " + Interpolated(data, "email"))
    case Thrown(message) => ErrorToast("Error al enviar correo", FailureDescription(message))
  }

  // ---------------------------------------------------------------------------
  // The step
  // ---------------------------------------------------------------------------

  /**
   * The case number and the duration the source shows on a render that
   * draws `caseDraw` and `timeDraw`: the number's four digits read back as
   * the case draw, and the duration is 10 to 14 minutes.
   */
  function ShownAsWritten(caseDraw: nat, timeDraw: nat): (shown: (string, nat))
    requires caseDraw < 10000 && timeDraw < 5
    ensures |shown.0| == 9 && shown.0[..5] == CasePrefix
    ensures AllDecimal(shown.0[5..]) && DecimalValue(shown.0[5..]) == caseDraw
    ensures 10 <= shown.1 <= 14 && shown.1 - 10 == timeDraw
  {
    (CaseNumber(caseDraw), CompletionTime(timeDraw))
  }

  /** Two renders show the same number and duration exactly when both draws repeat. */
  lemma RendersAgreeIff(c: nat, t: nat, c': nat, t': nat)
    requires c < 10000 && t < 5 && c' < 10000 && t' < 5
    ensures ShownAsWritten(c, t) == ShownAsWritten(c', t') <==> c == c' && t == t'
  {
  }

  /** A draw whose decimal text has four digits is shown without padding. */
  lemma FourDigitNumber(k: nat)
    requires k < 10000 && |DecimalString(k)| == 4
    ensures CaseNumber(k) == CasePrefix + DecimalString(k)
  {
    assert Padded(k, 4) == PadZeros(DecimalString(k), 4);
  }

  /** The decimal texts of the two draws the finding uses. */
  lemma DrawTexts()
    ensures DecimalString(1234) == "1234" && DecimalString(5678) == "5678"
  {
    assert DecimalString(1) == "1";
    assert DecimalString(12) == "12";
    assert DecimalString(123) == "123";
    assert DecimalString(5) == "5";
    assert DecimalString(56) == "56";
    assert DecimalString(567) == "567";
  }

  /**
   * The source draws both numbers in the component body, so every render
   * draws again: the render that `setIsSendingEmail(true)` causes can show
   * another case number than the first one.
   */
  lemma ReRenderRedraws()
    ensures ShownAsWritten(1234, 0).0 == "CASO-1234"
    ensures ShownAsWritten(5678, 0).0 == "CASO-5678"
    ensures ShownAsWritten(1234, 0) != ShownAsWritten(5678, 0)
  {
    DrawTexts();
    FourDigitNumber(1234);
    FourDigitNumber(5678);
  }

  class CaseComplete {
    /** The case record passed in by the wizard. */
    const data: Record
    /** Drawn once, when the step is mounted. */
    const caseNumber: string
    const completionTime: nat
    var emailSent: bool
    var isSendingEmail: bool
    var lastToast: Option<Toast>

    /** The step as mounted: the draws are made once and kept; nothing is sent yet. */
    constructor (data: Record, caseDraw: nat, timeDraw: nat)
      requires caseDraw < 10000 && timeDraw < 5
      ensures this.data == data
      ensures caseNumber == CaseNumber(caseDraw) && completionTime == CompletionTime(timeDraw)
      ensures !emailSent && !isSendingEmail && lastToast == None
    {
      this.data := data;
      caseNumber := CaseNumber(caseDraw);
      completionTime := CompletionTime(timeDraw);
      emailSent := false;
      isSendingEmail := false;
      lastToast := None;
    }

    /** What every render shows as the case number and the duration. */
    function Shown(): (string, nat)
      reads this
    {
      (caseNumber, completionTime)
    }

    /** The resend button is disabled while a send is under way. */
    predicate ResendEnabled()
      reads this
    {
      !isSendingEmail
    }

    /** `sendEmail` up to its `await`: the spinner shows and the e-mail data is assembled. */
    method StartSendEmail(activationDate: string, pdfs: DemoPdfs) returns (emailData: GmailEmail.ContractEmailData)
      requires ResendEnabled()
      modifies this
      ensures isSendingEmail && !ResendEnabled()
      ensures emailSent == old(emailSent) && lastToast == old(lastToast)
      ensures emailData == EmailData(data, activationDate, pdfs)
    {
      isSendingEmail := true;
      emailData := EmailData(data, activationDate, pdfs);
    }

    /**
     * `sendEmail` after its `await`: a sent e-mail is recorded (a failed
     * resend does not undo an earlier success), a toast reports the attempt,
     * and the spinner stops whatever happened.
     */
    method FinishSendEmail(outcome: GmailEmail.SendResult)
      requires isSendingEmail
      modifies this
      ensures !isSendingEmail && ResendEnabled()
      ensures emailSent == (old(emailSent) || outcome.Sent?)
      ensures lastToast == Some(ToastFor(data, outcome))
    {
      if outcome.Sent? {
        emailSent := true;
      }
      lastToast := Some(ToastFor(data, outcome));
      isSendingEmail := false;
    }

    /**
     * One whole send through the mail service: sent exactly when the mode
     * is demo or the proxy answers ok; the case number and duration on show
     * do not change.
     */
    method SendEmail(activationDate: string, pdfs: DemoPdfs, demo: bool, reply: GmailEmail.ProxyReply)
      returns (emailData: GmailEmail.ContractEmailData)
      requires ResendEnabled()
      modifies this
      ensures ResendEnabled() && Shown() == old(Shown())
      ensures emailData == EmailData(data, activationDate, pdfs)
      ensures emailSent <==> old(emailSent) || demo || (reply.Answered? && reply.ok)
      ensures lastToast.Some? && (lastToast.value.SuccessToast? <==> demo || (reply.Answered? && reply.ok))
    {
      emailData := StartSendEmail(activationDate, pdfs);
      FinishSendEmail(GmailEmail.SendContractEmail(demo, reply));
    }
  }
}
