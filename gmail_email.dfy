/**
 * The mail service of the front end: the attachment list of the contract
 * e-mail, the message and subject it sends through the mail proxy, and how
 * a failure of the proxy reaches each caller. The proxy's reply is a
 * parameter; the HTML body of the message is a parameter too.
 */
module GmailEmail {
  import opened Wrappers
  import opened Js
  import Text
  import Seqs

  datatype Attachment = Attachment(name: string, contentType: string, contentBytes: string)

  datatype EmailMessage = EmailMessage(
    to: string, subject: string, htmlContent: string, attachments: seq<Attachment>)

  /** The four base64 documents the contract e-mail may carry. */
  datatype AttachmentSources = AttachmentSources(
    contract: Option<string>,
    termsAndConditions: Option<string>,
    identityDocument: Option<string>,
    proofOfAddress: Option<string>)

  datatype ContractEmailData = ContractEmailData(
    clientName: string,
    clientEmail: string,
    documentNumber: string,
    contractNumber: string,
    serviceName: string,
    servicePrice: int,
    serviceFeatures: seq<string>,
    activationDate: string,
    monthlyPaymentDate: string,
    attachments: AttachmentSources)

  const PdfType: string := "application/pdf"

  /** The file name of each attachment, in the order they are added. */
  const FileNames: seq<string> :=
    ["Contrato_Firmado.pdf", "Terminos_y_Condiciones.pdf", "Documento_Identidad.pdf",
     "Comprobante_Domicilio.pdf"]

  // ---------------------------------------------------------------------------
  // Attachments
  // ---------------------------------------------------------------------------

  /** A source is truthy: present and not the empty string. */
  predicate Present(source: Option<string>) {
    source.Some? && source.value != ""
  }

  /** A candidate attachment: its file name and its source. */
  datatype Candidate = Candidate(name: string, source: Option<string>)

  function Candidates(a: AttachmentSources): (cs: seq<Candidate>)
    ensures |cs| == 4 && forall i :: 0 <= i < 4 ==> cs[i].name == FileNames[i]
  {
    [Candidate(FileNames[0], a.contract), Candidate(FileNames[1], a.termsAndConditions),
     Candidate(FileNames[2], a.identityDocument), Candidate(FileNames[3], a.proofOfAddress)]
  }

  function IsPresent(c: Candidate): bool {
    Present(c.source)
  }

  function ToAttachment(c: Candidate): Attachment {
    Attachment(c.name, PdfType, c.source.GetOr(""))
  }

  function ToAttachments(cs: seq<Candidate>): (r: seq<Attachment>)
    ensures |r| == |cs| && forall k :: 0 <= k < |cs| ==> r[k] == ToAttachment(cs[k])
  {
    seq(|cs|, k requires 0 <= k < |cs| => ToAttachment(cs[k]))
  }

  /** The attachment list: the truthy sources, in the fixed order, as PDF attachments. */
  function Attachments(a: AttachmentSources): seq<Attachment> {
    ToAttachments(Seqs.Filter(Candidates(a), IsPresent))
  }

  function Names(r: seq<Attachment>): (names: seq<string>)
    ensures |names| == |r| && forall k :: 0 <= k < |r| ==> names[k] == r[k].name
  {
    seq(|r|, k requires 0 <= k < |r| => r[k].name)
  }

  /** The names of filtered candidates are the filtered names. */
  lemma {:induction false} NamesOfFiltered(cs: seq<Candidate>)
    ensures Seqs.SubsequenceOf(Names(ToAttachments(Seqs.Filter(cs, IsPresent))),
                               seq(|cs|, i requires 0 <= i < |cs| => cs[i].name))
  {
    var kept := Seqs.Filter(cs, IsPresent);
    var all := seq(|cs|, i requires 0 <= i < |cs| => cs[i].name);
    if cs != [] {
      NamesOfFiltered(cs[1..]);
      var rest := seq(|cs[1..]|, i requires 0 <= i < |cs[1..]| => cs[1..][i].name);
      assert all[1..] == rest;
      var tail := Names(ToAttachments(Seqs.Filter(cs[1..], IsPresent)));
      if IsPresent(cs[0]) {
        assert kept == [cs[0]] + Seqs.Filter(cs[1..], IsPresent);
        assert Names(ToAttachments(kept))[1..] == tail;
      } else {
        assert kept == Seqs.Filter(cs[1..], IsPresent);
        SubsequenceSkip(Names(ToAttachments(kept)), all);
      }
    } else {
      assert Names(ToAttachments(kept)) == [];
    }
  }

  /** A subsequence of the tail is a subsequence of the whole. */
  lemma SubsequenceSkip(a: seq<string>, b: seq<string>)
    requires b != [] && Seqs.SubsequenceOf(a, b[1..])
    ensures Seqs.SubsequenceOf(a, b)
  {
  }

  /**
   * At most four attachments, all PDFs, named in the fixed order; the one for
   * each source is there exactly when the source is truthy, and then carries
   * it verbatim.
   */
  lemma AttachmentsShape(a: AttachmentSources)
    ensures |Attachments(a)| <= 4
    ensures forall k :: 0 <= k < |Attachments(a)| ==> Attachments(a)[k].contentType == PdfType
    ensures Seqs.SubsequenceOf(Names(Attachments(a)), FileNames)
    ensures forall i :: 0 <= i < 4 ==>
              (Present(Candidates(a)[i].source) <==>
                 Attachment(FileNames[i], PdfType, Candidates(a)[i].source.GetOr("")) in Attachments(a))
  {
    var cs := Candidates(a);
    var kept := Seqs.Filter(cs, IsPresent);
    Seqs.FilterLength(cs, IsPresent);
    NamesOfFiltered(cs);
    assert seq(|cs|, i requires 0 <= i < |cs| => cs[i].name) == FileNames;
    forall i | 0 <= i < 4
      ensures Present(cs[i].source) <==>
                Attachment(FileNames[i], PdfType, cs[i].source.GetOr("")) in Attachments(a)
    {
      var att := Attachment(FileNames[i], PdfType, cs[i].source.GetOr(""));
      Seqs.FilterMembership(cs, IsPresent, cs[i]);
      if Present(cs[i].source) {
        var k :| 0 <= k < |kept| && kept[k] == cs[i];
        assert Attachments(a)[k] == att;
      }
      if att in Attachments(a) {
        var k :| 0 <= k < |kept| && ToAttachment(kept[k]) == att;
        Seqs.FilterMembership(cs, IsPresent, kept[k]);
        var j :| 0 <= j < |cs| && cs[j] == kept[k];
        assert FileNames[j] == FileNames[i];
      }
    }
  }

  /** The attachment a candidate contributes: itself when truthy, nothing otherwise. */
  function Contribution(c: Candidate): seq<Attachment> {
    if IsPresent(c) then [ToAttachment(c)] else []
  }

  /** Filtering and converting a non-empty list: the head's contribution, then the rest. */
  lemma ContributionCons(cs: seq<Candidate>)
    requires cs != []
    ensures ToAttachments(Seqs.Filter(cs, IsPresent))
            == Contribution(cs[0]) + ToAttachments(Seqs.Filter(cs[1..], IsPresent))
  {
    var rest := Seqs.Filter(cs[1..], IsPresent);
    if IsPresent(cs[0]) {
      assert Seqs.Filter(cs, IsPresent) == [cs[0]] + rest;
      assert ToAttachments([cs[0]] + rest) == [ToAttachment(cs[0])] + ToAttachments(rest);
    }
  }

  /** The list is the four contributions, one after the other. */
  lemma AttachmentsUnrolled(a: AttachmentSources)
    ensures var cs := Candidates(a);
            Attachments(a) == Contribution(cs[0]) + Contribution(cs[1]) + Contribution(cs[2])
                              + Contribution(cs[3])
  {
    var cs := Candidates(a);
    var c1, c2, c3 := [cs[1], cs[2], cs[3]], [cs[2], cs[3]], [cs[3]];
    assert cs[1..] == c1 && c1[1..] == c2 && c2[1..] == c3 && c3[1..] == [];
    ContributionCons(cs);
    ContributionCons(c1);
    ContributionCons(c2);
    ContributionCons(c3);
    assert ToAttachments(Seqs.Filter([], IsPresent)) == [];
  }

  /** An empty-string source is left out like an absent one. */
  lemma EmptySourceOmitted(contract: Option<string>, terms: Option<string>, identity: Option<string>)
    ensures Attachments(AttachmentSources(contract, terms, identity, Some("")))
            == Attachments(AttachmentSources(contract, terms, identity, None))
  {
    AttachmentsUnrolled(AttachmentSources(contract, terms, identity, Some("")));
    AttachmentsUnrolled(AttachmentSources(contract, terms, identity, None));
  }

  /** `prepareAttachments`: one `push` per truthy source, in the fixed order. */
  method PrepareAttachments(a: AttachmentSources) returns (prepared: seq<Attachment>)
    ensures prepared == Attachments(a)
  {
    var cs := Candidates(a);
    prepared := [];
    if Present(a.contract) {
      prepared := prepared + [Attachment("Contrato_Firmado.pdf", PdfType, a.contract.value)];
    }
    if Present(a.termsAndConditions) {
      prepared := prepared + [Attachment("Terminos_y_Condiciones.pdf", PdfType, a.termsAndConditions.value)];
    }
    if Present(a.identityDocument) {
      prepared := prepared + [Attachment("Documento_Identidad.pdf", PdfType, a.identityDocument.value)];
    }
    if Present(a.proofOfAddress) {
      prepared := prepared + [Attachment("Comprobante_Domicilio.pdf", PdfType, a.proofOfAddress.value)];
    }
    AttachmentsUnrolled(a);
  }

  // ---------------------------------------------------------------------------
  // Messages
  // ---------------------------------------------------------------------------

  const SubjectHead: string := "Confirmación de Contrato "
  const SubjectTail: string := " - Telecomunicaciones Konrad Lorenz"

  /** The subject of the contract e-mail. */
  function Subject(contractNumber: string): (s: string)
    ensures |s| == |SubjectHead| + |contractNumber| + |SubjectTail|
    ensures s[..|SubjectHead|] == SubjectHead && s[|s| - |SubjectTail|..] == SubjectTail
  {
    SubjectHead + contractNumber + SubjectTail
  }

  /** The contract number read back out of a subject, if it has the shape. */
  function ContractNumberOf(subject: string): Option<string> {
    if |subject| >= |SubjectHead| + |SubjectTail|
       && subject[..|SubjectHead|] == SubjectHead
       && subject[|subject| - |SubjectTail|..] == SubjectTail
    then Some(subject[|SubjectHead|..|subject| - |SubjectTail|])
    else None
  }

  /** The subject names its contract: reading it back gives the number. */
  lemma SubjectRoundTrip(contractNumber: string)
    ensures ContractNumberOf(Subject(contractNumber)) == Some(contractNumber)
  {
    var s := Subject(contractNumber);
    assert s[|SubjectHead|..|s| - |SubjectTail|] == contractNumber;
  }

  /** The production message: to the client, with the contract subject and the prepared attachments. */
  function ContractMessage(data: ContractEmailData, htmlContent: string): (m: EmailMessage)
    ensures m.to == data.clientEmail
    ensures ContractNumberOf(m.subject) == Some(data.contractNumber)
    ensures m.attachments == Attachments(data.attachments)
  {
    SubjectRoundTrip(data.contractNumber);
    EmailMessage(data.clientEmail, Subject(data.contractNumber), htmlContent, Attachments(data.attachments))
  }

  const InternalTeam: string := "equipo@konrad.edu.co"
  const NoticeHead: string := "Nuevo Caso Creado: "

  /**
   * The notification to the internal team about a new case: its subject
   * carries the case id after a fixed head, it has no attachments, and it
   * can never be mistaken for a contract e-mail.
   */
  function InternalMessage(caseId: string, htmlContent: string): (m: EmailMessage)
    ensures m.to == InternalTeam && m.htmlContent == htmlContent && m.attachments == []
    ensures |m.subject| == |NoticeHead| + |caseId|
    ensures m.subject[..|NoticeHead|] == NoticeHead && m.subject[|NoticeHead|..] == caseId
    ensures ContractNumberOf(m.subject) == None
  {
    var subject := NoticeHead + caseId;
    assert subject[0] == 'N' && SubjectHead[0] == 'C';
    assert |subject| >= |SubjectHead| ==> subject[..|SubjectHead|][0] == 'N';
    EmailMessage(InternalTeam, subject, htmlContent, [])
  }

  // ---------------------------------------------------------------------------
  // Sending through the proxy
  // ---------------------------------------------------------------------------

  /** The proxy's answer to one POST, or a fetch that failed with the given message. */
  datatype ProxyReply =
    | Answered(ok: bool, status: nat, errorText: Option<string>)
    | Unreachable(message: string)

  /** A send that resolves to `true`, or one that throws an error with this message. */
  datatype SendResult = Sent | Thrown(message: string)

  const ErrorHead: string := "Error enviando email ("

  /** The message of the error thrown on a non-ok answer. */
  function ProxyErrorMessage(status: nat, errorText: Option<string>): string {
    ErrorHead + DecimalString(status) + "): "
    + (if Present(errorText) then errorText.value else "Error desconocido")
  }

  /** The error message carries the HTTP status, readable right after the opening parenthesis. */
  lemma ProxyErrorNamesStatus(status: nat, errorText: Option<string>)
    ensures var m := ProxyErrorMessage(status, errorText);
            var d := DecimalString(status);
            |m| >= |ErrorHead| + |d| && m[|ErrorHead|..|ErrorHead| + |d|] == d
            && AllDecimal(d) && DecimalValue(d) == status
            && Text.Contains(m, d)
  {
    var m := ProxyErrorMessage(status, errorText);
    var d := DecimalString(status);
    DecimalRoundTrip(status);
    assert m[|ErrorHead|..|ErrorHead| + |d|] == d;
    assert Text.OccursAt(m, d, |ErrorHead|);
    Text.ContainsIffWindow(m, d);
  }

  /** `sendEmailWithGmail`: `true` on an ok answer; otherwise it throws. */
  function SendEmail(reply: ProxyReply): (r: SendResult)
    ensures r.Sent? <==> reply.Answered? && reply.ok
  {
    match reply
    case Answered(ok, status, errorText) =>
      if ok then Sent else Thrown(ProxyErrorMessage(status, errorText))
    case Unreachable(message) => Thrown(message)
  }

  /** `sendContractEmail`: demo mode resolves at once; otherwise the proxy's outcome, rethrown on failure. */
  function SendContractEmail(demo: bool, reply: ProxyReply): (r: SendResult)
    ensures demo ==> r.Sent?
    ensures !demo ==> r == SendEmail(reply)
  {
    if demo then Sent else SendEmail(reply)
  }

  /** `sendInternalNotification`: demo mode resolves `true`; a failure is swallowed as `false`. */
  function SendInternalNotification(demo: bool, reply: ProxyReply): (sent: bool)
    ensures sent <==> demo || SendEmail(reply).Sent?
  {
    if demo then true else match SendEmail(reply) case Sent => true case Thrown(_) => false
  }

  /**
   * The two senders fail on the same replies, but differently: the contract
   * e-mail never resolves to `false` (it throws, with the proxy's status in
   * the message), while the notification never throws.
   */
  lemma FailurePropagation(demo: bool, reply: ProxyReply)
    ensures !SendInternalNotification(demo, reply) <==> SendContractEmail(demo, reply).Thrown?
    ensures reply.Answered? && !reply.ok && !demo ==>
              SendContractEmail(demo, reply) == Thrown(ProxyErrorMessage(reply.status, reply.errorText))
  {
  }
}
