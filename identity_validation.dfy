/**
 * Step 1 of the wizard: the identity form (document type and number, the
 * document photo and the face photo), the gate of the validate button, and
 * what the step passes on when the registry confirms the identity.
 */
module IdentityValidationStep {
  import opened Wrappers
  import opened Records
  import Api

  datatype Form = Form(
    documentType: string,
    documentNumber: string,
    documentPhoto: Option<string>,
    facePhoto: Option<string>)

  datatype PhotoKind = DocumentPhoto | FacePhoto

  /** The form as the step opens it: from the case record, with 'CC', '' and no photos as defaults. */
  function InitialForm(data: Record): Form {
    Form(TextOr(data, "documentType", "CC"),
         TextOr(data, "documentNumber", ""),
         TextOrNull(data, "documentPhoto"),
         TextOrNull(data, "facePhoto"))
  }

  /** On an empty record the form is 'CC', an empty number and no photos. */
  lemma InitialFormDefaults()
    ensures InitialForm(map[]) == Form("CC", "", None, None)
  {
  }

  /** A photo slot holds a photo (a non-empty data URL). */
  predicate PhotoPresent(photo: Option<string>) {
    photo.Some? && photo.value != ""
  }

  /** `canValidate`: at least six characters of document number and both photos; no digit check here. */
  predicate CanValidate(f: Form) {
    |f.documentNumber| >= 6 && PhotoPresent(f.documentPhoto) && PhotoPresent(f.facePhoto)
  }

  /** The form with one photo slot replaced. */
  function WithPhoto(f: Form, kind: PhotoKind, photo: Option<string>): (g: Form)
    ensures g.documentType == f.documentType && g.documentNumber == f.documentNumber
    ensures kind == DocumentPhoto ==> g.documentPhoto == photo && g.facePhoto == f.facePhoto
    ensures kind == FacePhoto ==> g.facePhoto == photo && g.documentPhoto == f.documentPhoto
  {
    match kind
    case DocumentPhoto => f.(documentPhoto := photo)
    case FacePhoto => f.(facePhoto := photo)
  }

  /** Removing either photo closes the gate, whatever else the form holds. */
  lemma RemovePhotoBlocksValidation(f: Form, kind: PhotoKind)
    ensures !CanValidate(WithPhoto(f, kind, None))
  {
  }

  /** The request sent to the registry adapter; an empty photo slot is sent as `undefined`. */
  function Request(f: Form): (r: Api.IdentityRequest)
    ensures r.documentNumber == f.documentNumber && r.documentType == f.documentType
    ensures r.documentPhoto.Some? <==> PhotoPresent(f.documentPhoto)
    ensures r.facePhoto.Some? <==> PhotoPresent(f.facePhoto)
  {
    Api.IdentityRequest(f.documentType, f.documentNumber,
      if PhotoPresent(f.documentPhoto) then f.documentPhoto else None,
      if PhotoPresent(f.facePhoto) then f.facePhoto else None)
  }

  /** The four form fields as record entries. */
  function FormRecord(f: Form): Record {
    map["documentType" := Text(f.documentType),
        "documentNumber" := Text(f.documentNumber),
        "documentPhoto" := OptionalText(f.documentPhoto),
        "facePhoto" := OptionalText(f.facePhoto)]
  }

  /** The form, enriched with the person's names, birth date and gender when the response carries them, and the response itself. */
  function EnrichedData(f: Form, response: Api.IdentityResponse): Record {
    var withPerson :=
      match response.data
      case None => FormRecord(f)
      case Some(p) =>
        FormRecord(f)["firstName" := Text(p.firstName)]["lastName" := Text(p.lastName)]
                     ["birthDate" := Text(p.birthDate)]["gender" := Text(p.gender)];
    withPerson["identityValidation" := IdentityResult(response)]
  }

  /** What the step passes to `onNext` after an attempt: only a successful and valid response advances. */
  function Advance(f: Form, outcome: Option<Api.IdentityResponse>): (next: Option<Record>)
    ensures next.Some? <==> outcome.Some? && outcome.value.success && outcome.value.valid
  {
    match outcome
    case Some(r) => if r.success && r.valid then Some(EnrichedData(f, r)) else None
    case None => None
  }

  /** A form the step can have produced: a type is always set and a photo slot is empty or holds a photo. */
  predicate Normalized(f: Form) {
    f.documentType != ""
    && (f.documentPhoto.None? || f.documentPhoto.value != "")
    && (f.facePhoto.None? || f.facePhoto.value != "")
  }

  /** The payload carries the form, the person's data when the response has it, and the response. */
  lemma EnrichedDataContents(f: Form, r: Api.IdentityResponse)
    ensures var e := EnrichedData(f, r);
            e["identityValidation"] == IdentityResult(r)
            && e["documentNumber"] == Text(f.documentNumber)
            && (r.data.Some? ==> e["firstName"] == Text(r.data.value.firstName)
                                 && e["lastName"] == Text(r.data.value.lastName)
                                 && e["birthDate"] == Text(r.data.value.birthDate)
                                 && e["gender"] == Text(r.data.value.gender))
            && (r.data.None? ==> "firstName" !in e && "gender" !in e)
  {
  }

  /** After the payload is merged into the record, re-opening the step shows the same form. */
  lemma EnrichedDataRoundTrip(data: Record, f: Form, r: Api.IdentityResponse)
    requires Normalized(f) && f.documentNumber != ""
    ensures InitialForm(Merge(data, EnrichedData(f, r))) == f
  {
    var e := EnrichedData(f, r);
    var m := Merge(data, e);
    assert m["documentType"] == Text(f.documentType);
    assert m["documentNumber"] == Text(f.documentNumber);
    assert m["documentPhoto"] == OptionalText(f.documentPhoto);
    assert m["facePhoto"] == OptionalText(f.facePhoto);
  }

  /** The response installed when the adapter call itself throws. */
  function ConnectionFailure(timestamp: string): (r: Api.IdentityResponse)
    ensures !r.success && !r.valid && r.data.None?
  {
    Api.IdentityResponse(false, false, "Error de conexión con el servicio de validación",
                         None, "Sistema", 0, timestamp)
  }

  /** A held result that confirms the identity. */
  predicate Confirmed(result: Option<Api.IdentityResponse>) {
    result.Some? && result.value.success && result.value.valid
  }

  class IdentityValidation {
    var form: Form
    var isValidating: bool
    var validationResult: Option<Api.IdentityResponse>

    constructor (data: Record)
      ensures form == InitialForm(data) && !isValidating && validationResult == None
    {
      form := InitialForm(data);
      isValidating := false;
      validationResult := None;
    }

    /** The validate button is disabled without a complete form, while validating, and once the identity is confirmed. */
    predicate ValidateDisabled()
      reads this
    {
      !CanValidate(form) || isValidating || Confirmed(validationResult)
    }

    /** Typing the document number changes only that field. */
    method SetDocumentNumber(documentNumber: string)
      modifies this
      ensures form == old(form).(documentNumber := documentNumber)
      ensures isValidating == old(isValidating) && validationResult == old(validationResult)
    {
      form := form.(documentNumber := documentNumber);
    }

    /** A captured or uploaded photo fills its slot and changes nothing else. */
    method SetPhoto(kind: PhotoKind, photo: string)
      modifies this
      ensures form == WithPhoto(old(form), kind, Some(photo))
      ensures isValidating == old(isValidating) && validationResult == old(validationResult)
    {
      form := WithPhoto(form, kind, Some(photo));
    }

    /** Removing a photo empties its slot and changes nothing else. */
    method RemovePhoto(kind: PhotoKind)
      modifies this
      ensures form == WithPhoto(old(form), kind, None)
      ensures isValidating == old(isValidating) && validationResult == old(validationResult)
    {
      form := WithPhoto(form, kind, None);
    }

    /**
     * `handleValidate` up to its `await`: the enabled button clears the
     * previous result and sends the form's request.
     */
    method StartValidate() returns (request: Api.IdentityRequest)
      requires !ValidateDisabled()
      modifies this
      ensures form == old(form) && isValidating && validationResult == None
      ensures request == Request(form)
      ensures ValidateDisabled()
    {
      isValidating := true;
      validationResult := None;
      request := Request(form);
    }

    /**
     * `handleValidate` after its `await`: installs the adapter's response
     * (or the connection failure when the call throws, `outcome == None`)
     * and hands the enriched data on only after a confirmed identity, which
     * also keeps the button disabled.
     */
    method FinishValidate(outcome: Option<Api.IdentityResponse>, timestamp: string)
      returns (next: Option<Record>)
      requires isValidating
      modifies this
      ensures form == old(form) && !isValidating
      ensures validationResult == Some(outcome.GetOr(ConnectionFailure(timestamp)))
      ensures next == Advance(form, outcome)
      ensures next.Some? <==> Confirmed(validationResult)
      ensures next.Some? ==> ValidateDisabled()
    {
      match outcome {
        case Some(response) =>
          validationResult := Some(response);
          isValidating := false;
          next := Advance(form, outcome);
        case None =>
          isValidating := false;
          validationResult := Some(ConnectionFailure(timestamp));
          next := None;
      }
    }
  }
}
