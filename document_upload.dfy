/**
 * Step 3 of the wizard: the document checklist, the acceptance rules for an
 * uploaded file, camera capture, removal, the consent gate and the payload
 * the step submits.
 */
module DocumentUploadStep {
  import opened Wrappers
  import opened Js
  import opened Records
  import Seqs

  /** One entry of the checklist; the file fields are empty until a file is loaded or captured. */
  datatype Document = Document(
    id: string,
    name: string,
    required: bool,
    uploaded: bool,
    file: Option<string>,
    fileName: Option<string>,
    fileSize: Option<string>)

  /** The file picked in a file input: its name, size in bytes and MIME type. */
  datatype SelectedFile = SelectedFile(name: string, size: nat, mimeType: string)

  /** The largest accepted file: 5 MiB. */
  const MaxFileSize: nat := 5 * 1024 * 1024

  const ValidTypes: seq<string> := ["image/jpeg", "image/png", "image/jpg", "application/pdf"]

  // ---------------------------------------------------------------------------
  // The checklist
  // ---------------------------------------------------------------------------

  /** `data.docs?.[id] || false`: whether the case record marks the document as received. */
  predicate Flagged(data: Record, id: string) {
    "docs" in data && data["docs"].Fields? && id in data["docs"].fields
    && Truthy(data["docs"].fields[id])
  }

  function Fresh(id: string, name: string, required: bool, uploaded: bool): Document {
    Document(id, name, required, uploaded, None, None, None)
  }

  /** The four documents, each starting from the case record's flag. */
  function InitialDocuments(data: Record): seq<Document> {
    [Fresh("cedula", "Cédula de Ciudadanía (Frente y Reverso)", true, Flagged(data, "cedula")),
     Fresh("comprobante", "Comprobante de Domicilio", true, Flagged(data, "comprobante")),
     Fresh("rut", "RUT (Registro Único Tributario)", false, Flagged(data, "rut")),
     Fresh("referencias", "Referencias Personales", false, Flagged(data, "referencias"))]
  }

  /** `data.consentGiven || false`. */
  predicate InitialConsent(data: Record) {
    "consentGiven" in data && Truthy(data["consentGiven"])
  }

  /** Two lists describe the same checklist: the same documents, in the same order, with the same requirement. */
  predicate SameChecklist(a: seq<Document>, b: seq<Document>) {
    |a| == |b|
    && forall i :: 0 <= i < |a| ==>
         a[i].id == b[i].id && a[i].name == b[i].name && a[i].required == b[i].required
  }

  /** The ids of a list are pairwise distinct. */
  predicate DistinctIds(docs: seq<Document>) {
    forall i, j :: 0 <= i < j < |docs| ==> docs[i].id != docs[j].id
  }

  /**
   * Whatever the record holds, the checklist has four documents with distinct
   * ids, the identity card and the proof of address required and the tax
   * registration and references optional, none with a file yet.
   */
  lemma ChecklistShape(data: Record)
    ensures var docs := InitialDocuments(data);
            |docs| == 4 && DistinctIds(docs)
            && docs[0].id == "cedula" && docs[0].required
            && docs[1].id == "comprobante" && docs[1].required
            && docs[2].id == "rut" && !docs[2].required
            && docs[3].id == "referencias" && !docs[3].required
            && (forall i :: 0 <= i < 4 ==> docs[i].uploaded == Flagged(data, docs[i].id)
                                           && docs[i].file.None?)
            && SameChecklist(docs, InitialDocuments(map[]))
  {
  }

  // ---------------------------------------------------------------------------
  // File acceptance and the size text
  // ---------------------------------------------------------------------------

  datatype FileCheck = TooLarge | BadType | Accepted

  /** The size check comes first, then the MIME type check. */
  function CheckFile(file: SelectedFile): (c: FileCheck)
    ensures c == TooLarge <==> file.size > MaxFileSize
    ensures c == BadType <==> file.size <= MaxFileSize && file.mimeType !in ValidTypes
    ensures c == Accepted <==> file.size <= MaxFileSize && file.mimeType in ValidTypes
  {
    if file.size > MaxFileSize then TooLarge
    else if file.mimeType !in ValidTypes then BadType
    else Accepted
  }

  /** Exactly 5 MiB is accepted; one byte more is refused, whatever the type. */
  lemma SizeLimitBoundary(name: string, mimeType: string)
    ensures CheckFile(SelectedFile(name, 5242880, "application/pdf")) == Accepted
    ensures CheckFile(SelectedFile(name, 5242881, mimeType)) == TooLarge
  {
  }

  datatype SizeUnit = B | KB | MB

  /** The unit `formatFileSize` picks. */
  function UnitOf(bytes: nat): (u: SizeUnit)
    ensures u == B <==> bytes < 1024
    ensures u == KB <==> 1024 <= bytes < 1048576
    ensures u == MB <==> 1048576 <= bytes
  {
    if bytes < 1024 then B else if bytes < 1024 * 1024 then KB else MB
  }

  function Scale(u: SizeUnit): nat {
    match u
    case B => 1
    case KB => 1024
    case MB => 1048576
  }

  function Suffix(u: SizeUnit): string {
    match u
    case B => " B"
    case KB => " KB"
    case MB => " MB"
  }

  /**
   * The number of tenths `toFixed(1)` prints for `bytes / scale`: the quotient
   * is exact in binary floating point, and ties round up.
   */
  function Tenths(bytes: nat, scale: nat): (n: nat)
    requires scale > 0
    ensures n * scale <= 10 * bytes + scale / 2 < n * scale + scale
  {
    (10 * bytes + scale / 2) / scale
  }

  /** `toFixed(1)` of a value given in tenths. */
  function FixedOne(tenths: nat): string {
    DecimalString(tenths / 10) + "." + [DigitChar(tenths % 10)]
  }

  /** `formatFileSize(bytes)`: whole bytes below 1 KiB, else KiB or MiB with one decimal. */
  function FormatFileSize(bytes: nat): (s: string)
    ensures var suffix := Suffix(UnitOf(bytes));
            |s| > |suffix| && s[|s| - |suffix|..] == suffix
  {
    match UnitOf(bytes)
    case B => DecimalString(bytes) + " B"
    case KB => FixedOne(Tenths(bytes, 1024)) + " KB"
    case MB => FixedOne(Tenths(bytes, 1048576)) + " MB"
  }

  /** The digits of a one-decimal rendering, read without the point, give back the tenths. */
  lemma FixedOneValue(tenths: nat)
    ensures var s := FixedOne(tenths);
            |s| >= 3 && s[|s| - 2] == '.' && AllDecimal(s[..|s| - 2] + [s[|s| - 1]])
            && DecimalValue(s[..|s| - 2] + [s[|s| - 1]]) == tenths
  {
    var s := FixedOne(tenths);
    var whole := DecimalString(tenths / 10);
    DecimalRoundTrip(tenths / 10);
    assert s[..|s| - 2] == whole;
    assert s[..|s| - 2] + [s[|s| - 1]] == whole + [DigitChar(tenths % 10)];
    DecimalConcat(whole, [DigitChar(tenths % 10)]);
    assert DecimalValue([DigitChar(tenths % 10)]) == tenths % 10 by {
      var d := [DigitChar(tenths % 10)];
      assert d[..0] == [];
      assert RadixValue(d, 10) == RadixValue(d[..0], 10) * 10 + DigitValue(d[0], 10);
    }
  }

  /**
   * Reading the number back: below 1 KiB it is the byte count itself; above,
   * it is the size in the chosen unit to the nearest tenth.
   */
  lemma FormatFileSizeReadsBack(bytes: nat)
    ensures var s := FormatFileSize(bytes);
            var u := UnitOf(bytes);
            var number := s[..|s| - |Suffix(u)|];
            (u == B ==> AllDecimal(number) && DecimalValue(number) == bytes)
            && (u != B ==> exists tenths: nat ::
                             number == FixedOne(tenths)
                             && 2 * (10 * bytes) <= 2 * tenths * Scale(u) + Scale(u)
                             && 2 * tenths * Scale(u) <= 2 * (10 * bytes) + Scale(u))
  {
    var s := FormatFileSize(bytes);
    var u := UnitOf(bytes);
    match u
    case B =>
      DecimalRoundTrip(bytes);
      assert s[..|s| - |Suffix(u)|] == DecimalString(bytes);
    case KB =>
      var t := Tenths(bytes, 1024);
      assert s[..|s| - |Suffix(u)|] == FixedOne(t);
    case MB =>
      var t := Tenths(bytes, 1048576);
      assert s[..|s| - |Suffix(u)|] == FixedOne(t);
  }

  // ---------------------------------------------------------------------------
  // Updates of the checklist
  // ---------------------------------------------------------------------------

  /** `documents.map(doc => doc.id === id ? change(doc) : doc)`. */
  function MapWhere(docs: seq<Document>, id: string, change: Document -> Document): (r: seq<Document>)
    ensures |r| == |docs|
    ensures forall i :: 0 <= i < |docs| ==> r[i] == if docs[i].id == id then change(docs[i]) else docs[i]
  {
    seq(|docs|, i requires 0 <= i < |docs| => if docs[i].id == id then change(docs[i]) else docs[i])
  }

  /** A loaded file: marked received with the reader's result, the file's name and its formatted size. */
  function Loaded(d: Document, result: Option<string>, file: SelectedFile): Document {
    d.(uploaded := true, file := result, fileName := Some(file.name),
       fileSize := Some(FormatFileSize(file.size)))
  }

  /** A camera capture: marked received with the photo, named after the document, about 500 KB. */
  function Captured(d: Document, photo: string): Document {
    d.(uploaded := true, file := Some(photo), fileName := Some(d.name + "_captura.jpg"),
       fileSize := Some("~500 KB"))
  }

  /** A removed document: not received and without file fields. */
  function Cleared(d: Document): Document {
    d.(uploaded := false, file := None, fileName := None, fileSize := None)
  }

  /**
   * `handleFileUpload` as written: after the size and type checks, the
   * document is updated in `onloadend`, which runs after a failed read as
   * well as after a successful one; the reader's result is then `null`.
   */
  function UploadAsWritten(docs: seq<Document>, docId: string, file: Option<SelectedFile>,
                           readResult: Option<string>): seq<Document>
  {
    if file.None? || CheckFile(file.value) != Accepted then docs
    else MapWhere(docs, docId, d => Loaded(d, readResult, file.value))
  }

  /** On the initial checklist, a failed read of an accepted file marks the identity card received with no file. */
  lemma FailedReadMarksUploaded()
    ensures var docs := UploadAsWritten(InitialDocuments(map[]), "cedula",
                                        Some(SelectedFile("cedula.jpg", 1000, "image/jpeg")), None);
            docs[0].uploaded && docs[0].file.None? && !InitialDocuments(map[])[0].uploaded
  {
  }

  /**
   * `handleFileUpload` with the update made only after a successful read:
   * a rejected file or a failed read leaves the checklist as it was; an
   * accepted and read file is attached to the target document only.
   */
  function Upload(docs: seq<Document>, docId: string, file: Option<SelectedFile>,
                  readResult: Option<string>): (r: seq<Document>)
    ensures SameChecklist(r, docs)
    ensures file.None? || CheckFile(file.value) != Accepted || readResult.None? ==> r == docs
    ensures file.Some? && CheckFile(file.value) == Accepted && readResult.Some? ==>
              forall i :: 0 <= i < |docs| ==>
                if docs[i].id == docId then
                  r[i].uploaded && r[i].file == readResult && r[i].fileName == Some(file.value.name)
                  && r[i].fileSize == Some(FormatFileSize(file.value.size))
                else r[i] == docs[i]
  {
    if file.None? || CheckFile(file.value) != Accepted || readResult.None? then docs
    else MapWhere(docs, docId, d => Loaded(d, readResult, file.value))
  }

  /** The two agree whenever the read succeeds, and the corrected one never marks a document without a file. */
  lemma UploadCorrection(docs: seq<Document>, docId: string, file: Option<SelectedFile>,
                         readResult: Option<string>)
    ensures readResult.Some? ==> Upload(docs, docId, file, readResult)
                                 == UploadAsWritten(docs, docId, file, readResult)
    ensures readResult.None? ==> Upload(docs, docId, file, readResult) == docs
    ensures forall i :: 0 <= i < |docs| && docs[i].file.Some? ==>
              Upload(docs, docId, file, readResult)[i].file.Some?
  {
  }

  /** `capturePhoto` on the document the camera was opened for. */
  function Capture(docs: seq<Document>, docId: string, photo: string): (r: seq<Document>)
    ensures SameChecklist(r, docs)
    ensures forall i :: 0 <= i < |docs| ==>
              if docs[i].id == docId then
                r[i].uploaded && r[i].file == Some(photo)
                && r[i].fileName == Some(docs[i].name + "_captura.jpg")
                && r[i].fileSize == Some("~500 KB")
              else r[i] == docs[i]
  {
    MapWhere(docs, docId, d => Captured(d, photo))
  }

  /** `removeDocument`: the target is no longer received and loses its file fields. */
  function Remove(docs: seq<Document>, docId: string): (r: seq<Document>)
    ensures SameChecklist(r, docs)
    ensures forall i :: 0 <= i < |docs| ==>
              if docs[i].id == docId then
                !r[i].uploaded && r[i].file.None? && r[i].fileName.None? && r[i].fileSize.None?
              else r[i] == docs[i]
  {
    MapWhere(docs, docId, Cleared)
  }

  /** Removing twice is removing once. */
  lemma RemoveIdempotent(docs: seq<Document>, docId: string)
    ensures Remove(Remove(docs, docId), docId) == Remove(docs, docId)
  {
  }

  /** Removing a document undoes any upload or capture of it. */
  lemma RemoveUndoesAttach(docs: seq<Document>, docId: string, file: Option<SelectedFile>,
                           readResult: Option<string>, photo: string)
    ensures Remove(Upload(docs, docId, file, readResult), docId) == Remove(docs, docId)
    ensures Remove(Capture(docs, docId, photo), docId) == Remove(docs, docId)
  {
  }

  // ---------------------------------------------------------------------------
  // The gate and the payload
  // ---------------------------------------------------------------------------

  function IsRequired(d: Document): bool {
    d.required
  }

  predicate AllUploaded(docs: seq<Document>) {
    forall i :: 0 <= i < |docs| ==> docs[i].uploaded
  }

  /** `canContinue`: every required document is received and consent is given. */
  predicate CanContinue(docs: seq<Document>, consentGiven: bool) {
    AllUploaded(Seqs.Filter(docs, IsRequired)) && consentGiven
  }

  /** The gate, stated on the list itself: consent, and every required entry received. */
  lemma CanContinueIff(docs: seq<Document>, consentGiven: bool)
    ensures CanContinue(docs, consentGiven) <==>
              consentGiven && forall i :: 0 <= i < |docs| && docs[i].required ==> docs[i].uploaded
  {
    var kept := Seqs.Filter(docs, IsRequired);
    if AllUploaded(kept) {
      forall i | 0 <= i < |docs| && docs[i].required
        ensures docs[i].uploaded
      {
        Seqs.FilterMembership(docs, IsRequired, docs[i]);
        var j :| 0 <= j < |kept| && kept[j] == docs[i];
      }
    }
    if forall i :: 0 <= i < |docs| && docs[i].required ==> docs[i].uploaded {
      forall j | 0 <= j < |kept|
        ensures kept[j].uploaded
      {
        Seqs.FilterMembership(docs, IsRequired, kept[j]);
      }
    }
  }

  /** What happens to optional documents never changes the gate. */
  lemma OptionalDocumentsIrrelevant(docs: seq<Document>, docId: string, consentGiven: bool,
                                    file: Option<SelectedFile>, readResult: Option<string>)
    requires forall i :: 0 <= i < |docs| && docs[i].id == docId ==> !docs[i].required
    ensures CanContinue(Remove(docs, docId), consentGiven) == CanContinue(docs, consentGiven)
    ensures CanContinue(Upload(docs, docId, file, readResult), consentGiven)
            == CanContinue(docs, consentGiven)
  {
    CanContinueIff(docs, consentGiven);
    CanContinueIff(Remove(docs, docId), consentGiven);
    CanContinueIff(Upload(docs, docId, file, readResult), consentGiven);
  }

  /** The `reduce` of `handleSubmit`: each id mapped to its flag, a later entry overwriting an earlier one. */
  function DocsFields(docs: seq<Document>): map<string, Value> {
    if docs == [] then map[]
    else DocsFields(docs[..|docs| - 1])[docs[|docs| - 1].id := Flag(docs[|docs| - 1].uploaded)]
  }

  /** Some entry of the list has the id `k`. */
  predicate HasId(docs: seq<Document>, k: string) {
    exists i :: 0 <= i < |docs| && docs[i].id == k
  }

  /** No entry after position `i` has the id of entry `i`. */
  predicate LastOfId(docs: seq<Document>, i: int)
    requires 0 <= i < |docs|
  {
    forall j :: i < j < |docs| ==> docs[j].id != docs[i].id
  }

  /** The reduce holds exactly the ids of the list. */
  lemma {:induction false} DocsFieldsKeys(docs: seq<Document>, k: string)
    ensures k in DocsFields(docs) <==> HasId(docs, k)
  {
    if docs != [] {
      var init := docs[..|docs| - 1];
      DocsFieldsKeys(init, k);
      if HasId(init, k) {
        var i :| 0 <= i < |init| && init[i].id == k;
        assert docs[i].id == k;
      }
      if HasId(docs, k) && k != docs[|docs| - 1].id {
        var i :| 0 <= i < |docs| && docs[i].id == k;
        assert init[i].id == k;
      }
    }
  }

  /** Each id holds the flag of its last entry. */
  lemma {:induction false} DocsFieldsLastWins(docs: seq<Document>, i: int)
    requires 0 <= i < |docs| && LastOfId(docs, i)
    ensures docs[i].id in DocsFields(docs) && DocsFields(docs)[docs[i].id] == Flag(docs[i].uploaded)
  {
    if i < |docs| - 1 {
      var init := docs[..|docs| - 1];
      assert LastOfId(init, i) by {
        forall j | i < j < |init|
          ensures init[j].id != init[i].id
        {
          assert docs[j].id != docs[i].id;
        }
      }
      DocsFieldsLastWins(init, i);
      assert docs[|docs| - 1].id != docs[i].id;
    }
  }

  /** `handleSubmit`'s payload: the received flags under `docs`, and the consent. */
  function SubmitPayload(docs: seq<Document>, consentGiven: bool): Record {
    map["docs" := Fields(DocsFields(docs)), "consentGiven" := Flag(consentGiven)]
  }

  /** Coming back to the step after submitting shows the same received flags and the same consent. */
  lemma SubmitRoundTrip(data: Record, docs: seq<Document>, consentGiven: bool)
    requires SameChecklist(docs, InitialDocuments(map[]))
    ensures var m := Merge(data, SubmitPayload(docs, consentGiven));
            SameChecklist(InitialDocuments(m), docs)
            && (forall i :: 0 <= i < |docs| ==> InitialDocuments(m)[i].uploaded == docs[i].uploaded)
            && InitialConsent(m) == consentGiven
  {
    var m := Merge(data, SubmitPayload(docs, consentGiven));
    ChecklistShape(map[]);
    assert m["docs"] == Fields(DocsFields(docs));
    assert m["consentGiven"] == Flag(consentGiven);
    forall i | 0 <= i < |docs|
      ensures Flagged(m, docs[i].id) == docs[i].uploaded
    {
      DocsFieldsLastWins(docs, i);
    }
  }

  // ---------------------------------------------------------------------------
  // The step's state
  // ---------------------------------------------------------------------------

  class DocumentUpload {
    var documents: seq<Document>
    var consentGiven: bool
    /** The document the camera was opened for, if any. */
    var currentDocId: Option<string>
    /** The camera dialog with its live video is shown. */
    var showCamera: bool

    /** The list is always the four-document checklist. */
    predicate Valid()
      reads this
    {
      SameChecklist(documents, InitialDocuments(map[]))
    }

    constructor (data: Record)
      ensures Valid()
      ensures documents == InitialDocuments(data) && consentGiven == InitialConsent(data)
      ensures currentDocId == None && !showCamera
    {
      documents := InitialDocuments(data);
      consentGiven := InitialConsent(data);
      currentDocId := None;
      showCamera := false;
      ChecklistShape(data);
    }

    /** Continue is enabled exactly when the gate holds. */
    predicate ContinueEnabled()
      reads this
    {
      CanContinue(documents, consentGiven)
    }

    /**
     * `startCamera`: the target is remembered in every case; the dialog opens
     * only when the browser grants a camera.
     */
    method StartCamera(docId: string, cameraGranted: bool)
      modifies this
      ensures currentDocId == Some(docId)
      ensures showCamera == (old(showCamera) || cameraGranted)
      ensures documents == old(documents) && consentGiven == old(consentGiven)
    {
      currentDocId := Some(docId);
      if cameraGranted {
        showCamera := true;
      }
    }

    /** `stopCamera`: the dialog closes and the target is forgotten. */
    method StopCamera()
      modifies this
      ensures currentDocId == None && !showCamera
      ensures documents == old(documents) && consentGiven == old(consentGiven)
    {
      showCamera := false;
      currentDocId := None;
    }

    /** `capturePhoto`: with the video shown and a target, the photo is attached to it and the camera stops. */
    method CapturePhoto(photo: string)
      requires Valid()
      modifies this
      ensures Valid()
      ensures old(showCamera) && old(currentDocId).Some? ==>
                documents == Capture(old(documents), old(currentDocId).value, photo)
                && currentDocId == None && !showCamera
      ensures !(old(showCamera) && old(currentDocId).Some?) ==>
                documents == old(documents) && currentDocId == old(currentDocId)
                && showCamera == old(showCamera)
      ensures consentGiven == old(consentGiven)
    {
      if showCamera && currentDocId.Some? {
        documents := Capture(documents, currentDocId.value, photo);
        StopCamera();
      }
    }

    /** `handleFileUpload`, with the file picked (if any) and the reader's result (`None` for a failed read). */
    method HandleFileUpload(docId: string, file: Option<SelectedFile>, readResult: Option<string>)
      requires Valid()
      modifies this
      ensures Valid()
      ensures documents == Upload(old(documents), docId, file, readResult)
      ensures consentGiven == old(consentGiven) && currentDocId == old(currentDocId)
      ensures showCamera == old(showCamera)
    {
      documents := Upload(documents, docId, file, readResult);
    }

    method RemoveDocument(docId: string)
      requires Valid()
      modifies this
      ensures Valid()
      ensures documents == Remove(old(documents), docId)
      ensures consentGiven == old(consentGiven) && currentDocId == old(currentDocId)
      ensures showCamera == old(showCamera)
    {
      documents := Remove(documents, docId);
    }

    /** The consent checkbox. */
    method SetConsent(given: bool)
      modifies this
      ensures consentGiven == given
      ensures documents == old(documents) && currentDocId == old(currentDocId)
      ensures showCamera == old(showCamera)
    {
      consentGiven := given;
    }

    method HandleSubmit() returns (payload: Record)
      ensures payload == SubmitPayload(documents, consentGiven)
    {
      payload := SubmitPayload(documents, consentGiven);
    }
  }
}
