# Telecom sales workflow — a Dafny model

This project models the core of a telecom sales back office. It is a React
application in which a sales advisor walks a new client through an
eight-step wizard:

1. identity validation against the national registry;
2. enrolment;
3. document reception;
4. a credit check with two bureaus;
5. service selection;
6. e-contract generation;
7. OTP signature;
8. case closing, which e-mails the contract.

Each step reads the shared case record and extends it through `onNext`. The
model also covers:

- the session hook that persists the login in browser storage;
- the route guard and route table;
- the login screen;
- the case list and audit log filters;
- the e-mail test panel;
- the front-end mail service;
- the two server-side mail relays (the Express proxy and the edge function).

How the model is built:

- Pure logic becomes datatypes, functions and lemmas.
- A component whose handlers update state becomes a class with those
  fields. Each handler becomes a method whose `ensures` ties the new state
  to a specification function, and the lemmas state the properties of
  those functions.
- Asynchronous handlers are split at their `await` into a start method and
  a finish method, so the intermediate states (sending, signing,
  generating, validating) are visible. One handler is kept whole: the
  document step's `startCamera` is a single method, with the browser's
  answer as the `cameraGranted` parameter. The identity step's camera
  handlers are left out (see below).
- Anything that comes from outside becomes a parameter: random draws, the
  clock, the browser's camera and file reader, replies of the network and
  of the mail transport, and the demo PDFs.
- The `API_MODE` switch becomes a `demo: bool` parameter.

JavaScript semantics are written out where they matter:

- the truncating `%`, and `parseInt` on a prefix, with `NaN`;
- `padStart` and `toFixed(1)`;
- truthiness, `||` defaults and `${undefined}` interpolation;
- `includes`, `toLowerCase`, `split(',')[1]`;
- the e-mail regular expression of the relays.

## Model

| member | source | states |
|---|---|---|
| Api.BiometricScore | src/services/api.ts:99-102 | a match scores 85..99, a mismatch 40..69 |
| Api.SeedOfValidNumber | src/services/api.ts:403 | for a number that passes the format check, the seed `parseInt(substring(0, 6))` is the six leading digits read as a decimal, below 1000000 |
| Api.ValidateIdentity | src/services/api.ts:96-150 | demo validation: a malformed number fails with no data; a well-formed one is valid exactly when the biometric draw matches, and then carries the requested document number |
| Api.MockPersonFields | src/services/api.ts:397-414 | the mock person's first name, city and blood type come from their lists, the gender is M exactly for an even seed, and the two last names are distinct entries |
| Api.DistinctLastNames | src/services/api.ts:399 | the seven last names are pairwise distinct |
| Api.GeneratedDateParses | src/services/api.ts:408-409 | a date built as century, two-digit year, padded month and padded day parses back to those numbers |
| Api.MockDatesAreCalendarDates | src/services/api.ts:408-409 | the mock birth and expedition dates are real calendar dates (years 1970-1999 and 2010-2024, months 1-12, days 1-28) |
| Api.Classify | src/services/api.ts:431-446 | excellent exactly from 750, good exactly in 700..749, fair exactly in 650..699, poor exactly in 580..649 and very poor below 580 (and for `NaN`); approved exactly from 650, manual review exactly in 580..649, rejected below 580 (and for `NaN`), and the decision follows from the rating |
| Api.ClassifyMonotone | src/services/api.ts:431-446 | a higher score never gets a lower rating |
| Api.ProductionUsesSameTable | src/services/api.ts:281-296 | the production branch classifies the rounded bureau average with the same table as the mock |
| Api.MockScore | src/services/api.ts:417-426 | the mock score is `NaN` exactly for a `NaN` seed, lies in 500..750 for a non-negative seed and in 301..500 for a negative one |
| Api.NegativeSeedScore | src/services/api.ts:417-424 | a negative seed with truncating `%` gives a score below the intended 450 floor (-99999 gives 351) |
| Api.MockCreditBureaus | src/services/api.ts:448-468 | the mock report has two bureau scores, each from 10 below to 9 above the consolidated score, and approval exactly from 650 |
| Api.MockCreditOfNaN | src/services/api.ts:416-446 | a non-numeric seed yields a `NaN` score, rated very poor and rejected |
| Api.ValidateCredit | src/services/api.ts:218-354 | succeeds exactly when a document number is given; without one, the failure result (score 0, rejected); on success, approval exactly from 650 and two bureau reports |
| Api.LabelsDistinguish | src/services/api.ts:494-512 | different ratings, and different decisions, get different Spanish labels |
| Records.Merge | src/components/NewCase.tsx:33-34 | `{ ...base, ...partial }`: the union of keys, where the partial record's values win and other keys keep their values |
| Records.TextOr | src/components/steps/Enrollment.tsx:17-27 | a text field read with a fallback default: the stored text exactly when it is non-empty text, the fallback otherwise |
| Records.TextOrNull | src/components/steps/IdentityValidation.tsx:23-24 | a text field read with a `null` default: present exactly for non-empty text, and then that text |
| Records.OptionalTextRoundTrip | src/components/steps/IdentityValidation.tsx:20-25 | an optional text stored as `null` or as itself reads back as the same option |
| Wizard.StepTable | src/components/NewCase.tsx:15-24 | eight steps numbered 1..8 in order; the closing step is the last and only the last |
| Wizard.NextStep | src/components/NewCase.tsx:33-37 | one step forward, with a ceiling at the last step |
| Wizard.BackStep | src/components/NewCase.tsx:40-44 | one step back, with a floor at the first step |
| Wizard.BackUndoesNext | src/components/NewCase.tsx:33-44 | going back after going forward returns to the starting step, on every step before the last |
| Wizard.Indicators | src/components/NewCase.tsx:73-90 | one indicator per step of the table |
| Wizard.IndicatorCounts | src/components/NewCase.tsx:73-90 | on any step, exactly one indicator is current, the steps before it are completed and the rest are pending |
| Wizard.NewCase.constructor | src/components/NewCase.tsx:27-28 | the wizard starts at step 1 with an empty record |
| Wizard.NewCase.HandleNext | src/components/NewCase.tsx:33-37 | merges the step's data into the record and advances by the next-step rule |
| Wizard.NewCase.HandleBack | src/components/NewCase.tsx:40-44 | steps back by the back rule and keeps the record |
| Wizard.NewCase.HandleReset | src/components/NewCase.tsx:46-49 | back to step 1 with an empty record |
| IdentityValidationStep.InitialFormDefaults | src/components/steps/IdentityValidation.tsx:20-25 | on an empty record the form is 'CC', an empty number and no photos |
| IdentityValidationStep.WithPhoto | src/components/steps/IdentityValidation.tsx:77-81 | replaces one photo slot and keeps the other fields |
| IdentityValidationStep.RemovePhotoBlocksValidation | src/components/steps/IdentityValidation.tsx:103-109 | after removing either photo the validate gate is closed |
| IdentityValidationStep.Request | src/components/steps/IdentityValidation.tsx:118-123 | the request carries the type and number, and each photo exactly when its slot holds one |
| IdentityValidationStep.Advance | src/components/steps/IdentityValidation.tsx:129-143 | the step advances exactly after a successful and valid response |
| IdentityValidationStep.EnrichedDataContents | src/components/steps/IdentityValidation.tsx:132-141 | the payload holds the form, the person's names, birth date and gender when the response has data, and the response |
| IdentityValidationStep.EnrichedDataRoundTrip | src/components/steps/IdentityValidation.tsx:20-25 | after the payload is merged into the record, re-opening the step shows the same form |
| IdentityValidationStep.ConnectionFailure | src/components/steps/IdentityValidation.tsx:145-156 | a thrown call installs an unsuccessful, invalid result without data |
| IdentityValidationStep.IdentityValidation.constructor | src/components/steps/IdentityValidation.tsx:20-27 | the form comes from the record, with no result and not validating |
| IdentityValidationStep.IdentityValidation.SetDocumentNumber | src/components/steps/IdentityValidation.tsx:178 | only the document number changes |
| IdentityValidationStep.IdentityValidation.SetPhoto | src/components/steps/IdentityValidation.tsx:77-81 | the photo fills its slot and nothing else changes |
| IdentityValidationStep.IdentityValidation.RemovePhoto | src/components/steps/IdentityValidation.tsx:103-109 | the slot empties and nothing else changes |
| IdentityValidationStep.IdentityValidation.StartValidate | src/components/steps/IdentityValidation.tsx:111-123 | from the enabled button (line 348), the previous result is cleared, validation starts, the form's request is sent and the button is disabled |
| IdentityValidationStep.IdentityValidation.FinishValidate | src/components/steps/IdentityValidation.tsx:125-156 | installs the response, or the connection failure; it hands data on exactly when the installed result confirms the identity, and then the button stays disabled |
| EnrollmentStep.KeysDistinct | src/components/steps/Enrollment.tsx:17-27 | the nine fields travel under nine distinct keys |
| EnrollmentStep.With | src/components/steps/Enrollment.tsx:49-138 | an input's change sets its field and leaves every other field alone |
| EnrollmentStep.InitialForm | src/components/steps/Enrollment.tsx:17-27 | each field is the record's text under its key, or '' |
| EnrollmentStep.IsValidIffRequiredFilled | src/components/steps/Enrollment.tsx:33 | the gate holds exactly when first name, last name, e-mail, phone and address are all non-empty |
| EnrollmentStep.OptionalFieldsIrrelevant | src/components/steps/Enrollment.tsx:33 | birth date, gender, city and department never change the gate |
| EnrollmentStep.FormRecord | src/components/steps/Enrollment.tsx:29-31 | the payload holds every field as text under its key |
| EnrollmentStep.FormRecordKeys | src/components/steps/Enrollment.tsx:29-31 | the payload has no other keys |
| EnrollmentStep.SubmitRoundTrip | src/components/steps/Enrollment.tsx:17-31 | going back after submitting shows the submitted form again |
| EnrollmentStep.IdentityPrefillsEnrollment | src/components/steps/IdentityValidation.tsx:132-141 | after a confirmed identity the enrolment form opens with the registry's names, birth date and gender |
| EnrollmentStep.Enrollment.constructor | src/components/steps/Enrollment.tsx:17-27 | the form comes from the record |
| EnrollmentStep.Enrollment.SetField | src/components/steps/Enrollment.tsx:49-138 | the form after the change is `With` of the old form |
| EnrollmentStep.Enrollment.HandleSubmit | src/components/steps/Enrollment.tsx:29-31 | the payload is the form's record |
| DocumentUploadStep.ChecklistShape | src/components/steps/DocumentUpload.tsx:32-37 | four documents with distinct ids: identity card and proof of address required, the other two optional, none with a file |
| DocumentUploadStep.CheckFile | src/components/steps/DocumentUpload.tsx:152-166 | too large exactly above 5 MiB; otherwise a bad type exactly outside the four accepted MIME types |
| DocumentUploadStep.SizeLimitBoundary | src/components/steps/DocumentUpload.tsx:152 | exactly 5 MiB is accepted and one byte more is refused |
| DocumentUploadStep.UnitOf | src/components/steps/DocumentUpload.tsx:194-198 | bytes below 1 KiB, KiB below 1 MiB, MiB above |
| DocumentUploadStep.Tenths | src/components/steps/DocumentUpload.tsx:196-197 | `toFixed(1)` rounds to the nearest tenth, ties upwards |
| DocumentUploadStep.FormatFileSize | src/components/steps/DocumentUpload.tsx:194-198 | the text ends with the unit's suffix |
| DocumentUploadStep.FormatFileSizeReadsBack | src/components/steps/DocumentUpload.tsx:194-198 | the number read back is the byte count below 1 KiB, and otherwise the size in the unit to the nearest tenth |
| DocumentUploadStep.MapWhere | src/components/steps/DocumentUpload.tsx:170-180 | the `map`: same length, the change applied exactly to entries with the id |
| DocumentUploadStep.UploadAsWritten | src/components/steps/DocumentUpload.tsx:169-187 | the upload as written, which updates the document in `onloadend` whether or not the read succeeded |
| DocumentUploadStep.FailedReadMarksUploaded | src/components/steps/DocumentUpload.tsx:169-187 | as written, a failed read marks the identity card received with no file |
| DocumentUploadStep.Upload | src/components/steps/DocumentUpload.tsx:148-192 | a missing, refused or unread file leaves the checklist unchanged; an accepted and read file is attached to the target only |
| DocumentUploadStep.UploadCorrection | src/components/steps/DocumentUpload.tsx:169-187 | the corrected upload agrees with the one as written on every successful read, and never marks a document received without a file |
| DocumentUploadStep.Capture | src/components/steps/DocumentUpload.tsx:127-137 | the photo is attached to the target document only |
| DocumentUploadStep.Remove | src/components/steps/DocumentUpload.tsx:200-205 | the target loses its file and its received flag; the others are unchanged |
| DocumentUploadStep.RemoveIdempotent | src/components/steps/DocumentUpload.tsx:200-205 | removing twice is removing once |
| DocumentUploadStep.RemoveUndoesAttach | src/components/steps/DocumentUpload.tsx:127-205 | removing undoes an upload or a capture of the same document |
| DocumentUploadStep.CanContinueIff | src/components/steps/DocumentUpload.tsx:218-219 | continue is allowed exactly with consent and every required document received |
| DocumentUploadStep.OptionalDocumentsIrrelevant | src/components/steps/DocumentUpload.tsx:218-219 | uploading or removing an optional document never changes the gate |
| DocumentUploadStep.DocsFieldsKeys | src/components/steps/DocumentUpload.tsx:210-213 | the reduce holds exactly the ids of the list |
| DocumentUploadStep.DocsFieldsLastWins | src/components/steps/DocumentUpload.tsx:210-213 | each id holds the flag of its last entry |
| DocumentUploadStep.SubmitRoundTrip | src/components/steps/DocumentUpload.tsx:32-38 | coming back after submitting shows the same received flags and the same consent |
| DocumentUploadStep.DocumentUpload.constructor | src/components/steps/DocumentUpload.tsx:32-38 | the checklist and consent come from the record; no camera |
| DocumentUploadStep.DocumentUpload.StartCamera | src/components/steps/DocumentUpload.tsx:49-98 | the target is remembered; the dialog opens exactly when the camera is granted |
| DocumentUploadStep.DocumentUpload.StopCamera | src/components/steps/DocumentUpload.tsx:100-109 | the dialog closes and the target is forgotten |
| DocumentUploadStep.DocumentUpload.CapturePhoto | src/components/steps/DocumentUpload.tsx:111-146 | with the video shown and a target, the photo is attached to the target and the camera stops |
| DocumentUploadStep.DocumentUpload.HandleFileUpload | src/components/steps/DocumentUpload.tsx:148-192 | the checklist becomes the corrected upload of the old one |
| DocumentUploadStep.DocumentUpload.RemoveDocument | src/components/steps/DocumentUpload.tsx:200-205 | the checklist becomes `Remove` of the old one |
| DocumentUploadStep.DocumentUpload.SetConsent | src/components/steps/DocumentUpload.tsx:354 | only the consent changes |
| DocumentUploadStep.DocumentUpload.HandleSubmit | src/components/steps/DocumentUpload.tsx:209-216 | the payload holds the received flags and the consent |
| CreditValidationStep.InitialResult | src/components/steps/CreditValidation.tsx:20 | a credit result held in the record, if there is one |
| CreditValidationStep.NextProgress | src/components/steps/CreditValidation.tsx:27-33 | ten more per tick, held at 100 |
| CreditValidationStep.TicksBounded | src/components/steps/CreditValidation.tsx:24-37 | from any reachable value, ticks stay multiples of ten up to 100 and reach 100 |
| CreditValidationStep.TicksFromZero | src/components/steps/CreditValidation.tsx:24-37 | from 0 the bar shows min(10k, 100) after k ticks |
| CreditValidationStep.Advance | src/components/steps/CreditValidation.tsx:58-62 | advances exactly after a successful approval, passing the result on |
| CreditValidationStep.RequestedNumber | src/components/steps/CreditValidation.tsx:48 | the record's document number when it holds one as text, otherwise nothing |
| CreditValidationStep.DemoAdvance | src/services/api.ts:218-236 | in demo mode the check of the record's document number advances exactly when the record holds one and the mock score is at least 650 |
| CreditValidationStep.FailureNeverAdvances | src/components/steps/CreditValidation.tsx:63-84 | the failure result never advances |
| CreditValidationStep.ResultAlert | src/components/steps/CreditValidation.tsx:87-129 | no alert without a result; otherwise the decision alone picks the alert |
| CreditValidationStep.ExactlyOneButton | src/components/steps/CreditValidation.tsx:287-316 | exactly one action button is shown, and never the validate button once there is a result |
| CreditValidationStep.CreditValidation.constructor | src/components/steps/CreditValidation.tsx:19-21 | not validating, the record's result, progress 0 |
| CreditValidationStep.CreditValidation.Tick | src/components/steps/CreditValidation.tsx:26-34 | one interval callback: the next progress while validating |
| CreditValidationStep.CreditValidation.RunInterval | src/components/steps/CreditValidation.tsx:24-37 | k callbacks give the k-tick progress |
| CreditValidationStep.CreditValidation.StartValidate | src/components/steps/CreditValidation.tsx:39-51 | from the enabled validate button (shown without a result, disabled while validating, lines 287-297), validation starts with the bar at 0 and the record's document number is sent |
| CreditValidationStep.CreditValidation.FinishValidate | src/components/steps/CreditValidation.tsx:53-84 | installs the response or the failure result, advances by `Advance`, shows the approval alert whenever it advances, and the validate button is gone |
| CreditValidationStep.CreditValidation.HandleValidate | src/components/steps/CreditValidation.tsx:24-85 | a whole click: the request for the record's document number, the bar at min(10k, 100) after k ticks, then the installed result and `Advance` |
| ServiceSelectionStep.Find | src/components/steps/ServiceSelection.tsx:167 | `find`: nothing exactly when no item has the id; otherwise an item of the list with that id |
| ServiceSelectionStep.CatalogShape | src/components/steps/ServiceSelection.tsx:42-152 | three services and four combos with seven distinct ids |
| ServiceSelectionStep.FindsEachItem | src/components/steps/ServiceSelection.tsx:167 | looking up an item's id finds that item |
| ServiceSelectionStep.ServicePrices | src/components/steps/ServiceSelection.tsx:42-83 | telephony 45000, internet 80000, TV 55000 |
| ServiceSelectionStep.CombosAreConsistent | src/components/steps/ServiceSelection.tsx:85-152 | combos consist of catalogue services and always save money; the three smaller ones list the sum of their services as the original price, and the premium combo lists more |
| ServiceSelectionStep.SavingsPositive | src/components/steps/ServiceSelection.tsx:268 | every combo shows a positive saving |
| ServiceSelectionStep.SelectedTotal | src/components/steps/ServiceSelection.tsx:179-182 | the selected item's price, or 0 |
| ServiceSelectionStep.ContinuePayload | src/components/steps/ServiceSelection.tsx:166-177 | a payload exactly when the selection names a catalogue item |
| ServiceSelectionStep.ContinueCarriesItem | src/components/steps/ServiceSelection.tsx:170-175 | the payload carries the item's id, name and price and the item itself |
| ServiceSelectionStep.ContinueRoundTrip | src/components/steps/ServiceSelection.tsx:40 | coming back after continuing shows the same choice |
| ServiceSelectionStep.EmptySelectionEmitsNothing | src/components/steps/ServiceSelection.tsx:369-372 | the empty selection passes nothing on and totals 0 |
| ServiceSelectionStep.ServiceSelection.constructor | src/components/steps/ServiceSelection.tsx:40 | the choice comes from the record |
| ServiceSelectionStep.ServiceSelection.HandleSelect | src/components/steps/ServiceSelection.tsx:162-164 | the new choice replaces the old one |
| ServiceSelectionStep.ServiceSelection.HandleContinue | src/components/steps/ServiceSelection.tsx:166-177 | passes on the payload for the current choice |
| ContractGenerationStep.ContractNumber | src/components/steps/ContractGeneration.tsx:25 | 'CONT-2025-' and four digits that read back as the draw |
| ContractGenerationStep.ContractNumberInjective | src/components/steps/ContractGeneration.tsx:25 | different draws give different numbers |
| ContractGenerationStep.NewContract | src/components/steps/ContractGeneration.tsx:24-30 | the template, the PDF path, the number of the draw, the clock, and 'sha256:' followed by the random tail |
| ContractGenerationStep.InitialContract | src/components/steps/ContractGeneration.tsx:16 | the contract held in the record, if there is one |
| ContractGenerationStep.ContractKept | src/components/steps/ContractGeneration.tsx:16-38 | after continuing and coming back, the same contract is shown, so it is not generated again |
| ContractGenerationStep.ContractGeneration.constructor | src/components/steps/ContractGeneration.tsx:15-16 | not generating, the record's contract |
| ContractGenerationStep.ContractGeneration.StartGenerate | src/components/steps/ContractGeneration.tsx:18-19 | from the enabled generate button (shown while there is no contract, disabled while generating, lines 184-197), generation starts, disabling the button, and the contract is untouched |
| ContractGenerationStep.ContractGeneration.FinishGenerate | src/components/steps/ContractGeneration.tsx:24-33 | after the delay the contract built from the draw, the clock and the hash tail is set, generation ends, and continue is shown instead of generate |
| ContractGenerationStep.ContractGeneration.HandleContinue | src/components/steps/ContractGeneration.tsx:36-38 | the payload carries the contract whenever continue is shown |
| DigitalSignatureStep.Capped | src/components/steps/DigitalSignature.tsx:123-125 | the input keeps a prefix of at most six characters, and all of a short value |
| DigitalSignatureStep.ViewOf | src/components/steps/DigitalSignature.tsx:79-107 | the request view before the code is sent, the OTP form after it, the signed view once signed |
| DigitalSignatureStep.SignatureCarriesAcceptedCode | src/components/steps/DigitalSignature.tsx:30-45 | the signature passed on carries the accepted code, and that code enables the sign button |
| DigitalSignatureStep.DigitalSignature.constructor | src/components/steps/DigitalSignature.tsx:17-21 | nothing sent, typed or signed |
| DigitalSignatureStep.DigitalSignature.StartSendOtp | src/components/steps/DigitalSignature.tsx:23-25 | sending starts and nothing else changes |
| DigitalSignatureStep.DigitalSignature.FinishSendOtp | src/components/steps/DigitalSignature.tsx:26-27 | the code is sent and the OTP form is shown |
| DigitalSignatureStep.DigitalSignature.SetOtp | src/components/steps/DigitalSignature.tsx:123-126 | the input holds the capped value |
| DigitalSignatureStep.DigitalSignature.StartSign | src/components/steps/DigitalSignature.tsx:30-37 | accepted exactly for '123456'; a wrong code changes nothing; signing locks the sign and back buttons |
| DigitalSignatureStep.DigitalSignature.FinishSign | src/components/steps/DigitalSignature.tsx:38-45 | signed, the signed view, back disabled, and the signature payload passed on |
| GmailEmail.Candidates | src/services/gmail-email.ts:516-554 | four candidates named in the fixed order |
| GmailEmail.AttachmentsShape | src/services/gmail-email.ts:516-554 | at most four PDF attachments in the fixed order; each source's attachment is there exactly when the source is truthy, and then carries it verbatim |
| GmailEmail.EmptySourceOmitted | src/services/gmail-email.ts:521-553 | an empty-string source is left out like an absent one |
| GmailEmail.PrepareAttachments | src/services/gmail-email.ts:516-554 | the pushes build exactly the attachment list |
| GmailEmail.Subject | src/services/gmail-email.ts:496 | the fixed head, the contract number and the fixed tail |
| GmailEmail.SubjectRoundTrip | src/services/gmail-email.ts:496 | the contract number reads back out of the subject |
| GmailEmail.ContractMessage | src/services/gmail-email.ts:492-499 | sent to the client, the subject names the contract, and the attachments are the prepared list |
| GmailEmail.ProxyErrorNamesStatus | src/services/gmail-email.ts:93-104 | the thrown message carries the proxy's HTTP status |
| GmailEmail.SendEmail | src/services/gmail-email.ts:66-119 | resolves exactly on an ok answer, throws otherwise |
| GmailEmail.SendContractEmail | src/services/gmail-email.ts:463-511 | demo mode always resolves; otherwise the proxy's outcome, rethrown |
| GmailEmail.InternalMessage | src/services/gmail-email.ts:569-580 | the notification goes to the internal team with the case id right after the subject head, no attachments, and a subject no contract e-mail can have |
| GmailEmail.SendInternalNotification | src/services/gmail-email.ts:559-590 | true exactly in demo mode or on an ok answer; it never throws |
| GmailEmail.FailurePropagation | src/services/gmail-email.ts:463-590 | the notification returns false exactly when the contract e-mail throws, and a refusal's status reaches the contract e-mail's error |
| CaseCompleteStep.CaseNumber | src/components/steps/CaseComplete.tsx:16 | 'CASO-' and four digits that read back as the draw |
| CaseCompleteStep.CompletionTime | src/components/steps/CaseComplete.tsx:17 | 10 to 14 minutes, ten plus the draw |
| CaseCompleteStep.FourDigitNumber | src/components/steps/CaseComplete.tsx:16 | a draw of four digits is shown after the prefix without padding |
| CaseCompleteStep.CaseNumberInjective | src/components/steps/CaseComplete.tsx:16 | different draws give different case numbers |
| CaseCompleteStep.Interpolated | src/components/steps/CaseComplete.tsx:34 | a template field shows 'undefined' for an absent key and the text for a text value |
| CaseCompleteStep.ContractNumberOr | src/components/steps/CaseComplete.tsx:37 | never empty; anything but 'N/A' is the stored contract's number |
| CaseCompleteStep.PhotoSource | src/components/steps/CaseComplete.tsx:54-55 | a stored photo gives the part after its first comma; otherwise the demo PDF |
| CaseCompleteStep.EmailData | src/components/steps/CaseComplete.tsx:33-57 | every field of the e-mail data with its default: client name, contract number, service name, price, features, activation date, payment day '5' and the four attachments |
| CaseCompleteStep.EmptyRecordDefaults | src/components/steps/CaseComplete.tsx:33-57 | on an empty record: 'undefined undefined', 'N/A', 'Servicio Telco', price 0, the three default features and all four attachments |
| CaseCompleteStep.WizardChoicesReachEmail | src/components/steps/CaseComplete.tsx:37-44 | the contract and the service chosen earlier in the wizard reach the e-mail |
| CaseCompleteStep.PhotoAttachment | src/components/steps/CaseComplete.tsx:54 | a data-URL photo is attached as its base64 payload |
| CaseCompleteStep.FailureDescription | src/components/steps/CaseComplete.tsx:75-83 | the connection hint exactly for network errors, the credentials hint exactly for 'Invalid credentials' without a network error, the generic text otherwise |
| CaseCompleteStep.UnreachableProxyHint | src/components/steps/CaseComplete.tsx:79-80 | an unreachable proxy gets the connection hint |
| CaseCompleteStep.RefusedCredentialsHint | src/components/steps/CaseComplete.tsx:81-82 | a refusal reading 'Invalid credentials' gets a hint other than the generic text |
| CaseCompleteStep.ToastFor | src/components/steps/CaseComplete.tsx:62-86 | a success toast exactly when sent, naming the address; otherwise the failure description |
| CaseCompleteStep.ShownAsWritten | src/components/steps/CaseComplete.tsx:16-17 | as written, a render shows 'CASO-' and four digits that read back as that render's case draw, and a duration of 10 to 14 minutes that gives back its time draw |
| CaseCompleteStep.RendersAgreeIff | src/components/steps/CaseComplete.tsx:16-17 | two renders show the same number and duration exactly when both of their draws are equal |
| CaseCompleteStep.ReRenderRedraws | src/components/steps/CaseComplete.tsx:16-17 | two renders with different draws show different case numbers |
| CaseCompleteStep.CaseComplete.constructor | src/components/steps/CaseComplete.tsx:15-19 | the case number and the duration drawn once; nothing sent |
| CaseCompleteStep.CaseComplete.StartSendEmail | src/components/steps/CaseComplete.tsx:28-57 | sending starts and the e-mail data is built from the record |
| CaseCompleteStep.CaseComplete.FinishSendEmail | src/components/steps/CaseComplete.tsx:60-89 | sent once it succeeds, the toast for the outcome, sending ends |
| CaseCompleteStep.CaseComplete.SendEmail | src/components/steps/CaseComplete.tsx:28-90 | the shown number and duration do not change; sent and a success toast exactly in demo mode or on an ok answer |
| Auth.InitialState | src/hooks/useAuth.ts:24-45 | a missing or unparsable entry gives the logged-out state; otherwise the stored type and data, authenticated exactly with data |
| Auth.Persist | src/hooks/useAuth.ts:47-57 | a state with data is stored under the key; any other removes the key; other keys are untouched |
| Auth.ReloadRestores | src/hooks/useAuth.ts:24-57 | a reload restores any consistent state |
| Auth.LoginLogoutRoundTrip | src/hooks/useAuth.ts:59-74 | login and logout survive a reload, and a logout after a login leaves no session |
| Auth.StartIsStable | src/hooks/useAuth.ts:24-57 | starting twice restores the same user data, and the second write-back changes nothing |
| Auth.AuthStore.constructor | src/hooks/useAuth.ts:24-57 | the state read from storage and written back |
| Auth.AuthStore.Login | src/hooks/useAuth.ts:59-65 | the logged-in state, stored under the key |
| Auth.AuthStore.Logout | src/hooks/useAuth.ts:67-74 | the logged-out state, the key removed, other keys untouched |
| Routing.Guard | src/components/ProtectedRoute.tsx:12-36 | the unauthenticated are redirected; a wrong user type goes to its home; the page renders exactly for an authenticated user of the required type |
| Routing.MismatchLeavesRoute | src/components/ProtectedRoute.tsx:23-33 | an advisor refused a client page goes to the dashboard, and a client refused an advisor page goes to the client view |
| Routing.Protected | src/App.tsx:48-120 | a protected route shows its page exactly to an authenticated user of its type |
| Routing.Route | src/App.tsx:26-123 | the route table: the root pattern shows the home page, `/login` shows the form to visitors and sends a client to `/client` and anyone else signed in to `/dashboard`, and every path matching no pattern falls to the catch-all redirect to `/` |
| Routing.NavigationTargetsAreKeys | src/App.tsx:37-40 | every path the application navigates to matches its own pattern |
| Routing.RouteIgnoresCase | src/App.tsx:26-123 | a path routes as its lower-cased form does: patterns match whatever the letter case |
| Routing.RouteIgnoresTrailingSlash | src/App.tsx:26-123 | a path with a trailing slash routes as the path without it |
| Routing.RedirectTargets | src/App.tsx:26-123 | the router only redirects to `/`, `/login`, `/client` or `/dashboard` |
| Routing.TargetSettles | src/App.tsx:26-123 | from each redirect target a typed or unauthenticated session settles within two more steps on a page it may see |
| Routing.RouteAccess | src/App.tsx:26-123 | advisor pages only for advisors, the client page only for clients, the login page only for visitors, and the home page for everyone |
| Routing.ClientNeverOpensWizard | src/App.tsx:78-91 | a client never renders the new-case wizard, by any path |
| Routing.SessionsSettle | src/App.tsx:26-123 | every path settles within three redirects on a page the session may see |
| Routing.UntypedSessionLoops | src/App.tsx:32-61 | an authenticated session without a user type redirects between the login page and the dashboard forever |
| Routing.AdvisorLoginLandsOnDashboard | src/App.tsx:32-45 | after an advisor login, also after a reload, the login page leads to the dashboard |
| LoginScreen.AdvisorAccount | src/components/Login.tsx:42-55 | an account exactly for the two demo e-mails with 'demo123', with that e-mail and the account's name and id |
| LoginScreen.ClientAccount | src/components/Login.tsx:72-82 | an account exactly for six or more characters, with the contract given or 'CASO-001' |
| LoginScreen.AdvisorAccountsDistinct | src/components/Login.tsx:42-55 | the two accounts differ, and a wrong password or an unknown e-mail opens none |
| LoginScreen.Login.constructor | src/components/Login.tsx:19-28 | empty fields, no error, not loading |
| LoginScreen.Login.SetEmail | src/components/Login.tsx:179 | only the e-mail field changes |
| LoginScreen.Login.SetPassword | src/components/Login.tsx:191 | only the password field changes |
| LoginScreen.Login.SetDocumentNumber | src/components/Login.tsx:226 | only the document field changes |
| LoginScreen.Login.SetContractNumber | src/components/Login.tsx:240 | only the contract field changes |
| LoginScreen.Login.StartAttempt | src/components/Login.tsx:35-36 | the error is cleared and loading starts |
| LoginScreen.Login.FinishAdvisorLogin | src/components/Login.tsx:42-60 | an advisor session exactly for an accepted pair; the advisor error otherwise |
| LoginScreen.Login.FinishClientLogin | src/components/Login.tsx:72-84 | a client session exactly for a document number of six or more characters; the client error otherwise |
| LoginScreen.Login.AdvisorLogin | src/components/Login.tsx:33-61 | ends not loading, with no error exactly when a session opened |
| LoginScreen.Login.ClientLogin | src/components/Login.tsx:63-85 | ends not loading, with no error exactly when a session opened |
| CasesList.FilteredCasesSpec | src/components/CasesList.tsx:36-42 | the filtered list is a subsequence of the mock cases and keeps exactly the cases matching the search and the status |
| CasesList.EmptySearchShowsAll | src/components/CasesList.tsx:36-42 | an empty search over all statuses shows all eight cases |
| CasesList.SearchIgnoresCaseOfName | src/components/CasesList.tsx:37-39 | the search ignores letter case in the id and the client name |
| CasesList.StatusBadge | src/components/CasesList.tsx:44-53 | the destructive badge exactly for rejected cases |
| CasesList.BadgeLabelsDistinct | src/components/CasesList.tsx:44-53 | each status has its own caption |
| AuditLog.FilteredLogSpec | src/components/AuditLog.tsx:39-43 | the filtered log is a subsequence of the mock log and keeps exactly the matching entries |
| AuditLog.EmptySearchShowsAll | src/components/AuditLog.tsx:39-43 | an empty search shows all fourteen entries |
| AuditLog.DetailsNeverSearched | src/components/AuditLog.tsx:39-43 | the details column never affects the search |
| AuditLog.SearchIgnoresCase | src/components/AuditLog.tsx:39-43 | the search ignores letter case |
| AuditLog.CountsSpec | src/components/AuditLog.tsx:95-134 | the shown count never exceeds the total of 14, and equals it for an empty search |
| AuditLog.BadgesDistinct | src/components/AuditLog.tsx:45-53 | each status has its own caption and its own colour |
| EmailTestPanel.HintOf | src/components/EmailTestPanel.tsx:72-91 | the first matching rule picks the hint: network, then 401, then 403, then 404 |
| EmailTestPanel.FailureMessage | src/components/EmailTestPanel.tsx:67-91 | 'Error: ', the message, then the hint text |
| EmailTestPanel.UnauthorizedStatusHint | src/components/EmailTestPanel.tsx:78-80 | a proxy refusal with status 401 gets the credentials hint, unless its text reads as a network failure |
| EmailTestPanel.SuccessMessage | src/components/EmailTestPanel.tsx:59-66 | the demo text, or the sent text naming the address |
| EmailTestPanel.ResultFor | src/components/EmailTestPanel.tsx:59-91 | successful exactly when sent, with the success or failure message |
| EmailTestPanel.Panel.constructor | src/components/EmailTestPanel.tsx:13-15 | an empty address, not sending, no result |
| EmailTestPanel.Panel.SetTestEmail | src/components/EmailTestPanel.tsx:160 | only the address changes |
| EmailTestPanel.Panel.StartSend | src/components/EmailTestPanel.tsx:19-29 | an empty address gives the error and no send; otherwise sending starts with the result cleared; it sends exactly when the button (line 169) was enabled, and disables it |
| EmailTestPanel.Panel.FinishSend | src/components/EmailTestPanel.tsx:59-94 | the result for the outcome, sending ends |
| EmailTestPanel.Panel.Send | src/components/EmailTestPanel.tsx:19-94 | a press ends with a result, successful exactly for a non-empty address in demo mode or on an ok answer |
| EmailFormat.MatchesEmailIffShaped | src/server/index.js:125 | the regular expression accepts exactly the texts of the form local@domain.tld, with no whitespace or '@' in any part |
| EmailFormat.AcceptsAddress | src/server/index.js:125 | 'a@b.co' is accepted |
| EmailFormat.RefusesMalformed | src/server/index.js:125 | no dot, an empty local part, two '@' and a space are each refused |
| Relay.MailAttachments | src/server/index.js:62-66 | one mail attachment per given attachment, with its name, content and type; none when absent |
| Relay.SendEmail | src/server/index.js:112-164 | 400 exactly for missing fields or a malformed address; 200 exactly when the transport delivers, with its message id; 500 otherwise, with the transport's error |
| Relay.ContractEmailThroughRelay | src/server/index.js:112-164 | a contract e-mail to a well-formed address passes the checks, and succeeds exactly when the transport delivers |
| EdgeHandler.Handler | src/api/send-email.ts:39-110 | 405 exactly for other verbs, 500 for a malformed body, 400 exactly for missing fields or a malformed address, and 501 otherwise |
| EdgeHandler.AgreesWithRelay | src/api/send-email.ts:56-76 | the edge function refuses with 400 exactly the requests the Express relay refuses with 400 |

## Left out

- Timers: the delays of `setTimeout` and the 200 ms interval are not modelled. A delayed callback runs as the second half of its handler, and the interval runs as a number of ticks.
- Camera, `FileReader`, canvas and `useCameraSupport.ts`: the camera grant, the captured photo and the reader's result are parameters.
- The camera handlers of the identity step (`startCamera`, `stopCamera`, `capturePhoto` in `IdentityValidation.tsx`) are not modelled: a photo enters that form through `SetPhoto`, whether captured or uploaded.
- Network: the production `fetch` paths of `api.ts` are not modelled, nor are their JSON mapping, `Promise.all` and `syncWithCRM`. Only the classification table of the production credit branch is kept (`ProductionClassify`).
- Mail: nodemailer, the Express server set-up and the Gmail transport are reduced to a transport outcome. Base64 decoding with `Buffer.from` is not modelled.
- HTML e-mail templates, `getEmailPreview`, `handlePreviewEmail` and `generateDemoPDF` are not modelled: the HTML body and the demo PDFs are parameters.
- `Intl.NumberFormat` currency text, `toLocaleDateString` and `toISOString` are not modelled: dates and timestamps are parameters.
- `services/config.ts`: the mode is the `demo` parameter, and credentials are not modelled.
- JSON text in `localStorage` is abstracted to the two stored fields, or to an entry that does not parse.
- The browser's own form checks on the login screen (`required` fields, the `type="email"` format) are not modelled: they can stop a submit before the handler runs, whereas the model's handlers always run and refuse such input with the error text.
- React rendering, toast display, `console` logging and the `from` location state of the login redirect are not modelled.
- Stale closures are not modelled: each handler reads the state current when it runs.
- Presentation-only views are not modelled: `HomePage`, `ClientView`, `Dashboard`, `AppLayout`, `ApiModeIndicator`, and the static texts of `documents.ts`.
- CaseCompleteStep.CaseComplete.FinishSendEmail: the resolved-`false` branch of the contract send is not modelled. The sender either resolves `true` or throws, so that branch is unreachable.
- CaseCompleteStep.EmailData: an absent e-mail or document number is carried as the empty string rather than `undefined`. Only the client name is interpolated with JavaScript's `undefined` text.
- CaseCompleteStep.EmailData: a stored price that is not a number is treated as absent (price 0). A truthy photo value that is not text, whose `split` would throw, is treated as absent too.
- DigitalSignatureStep.Capped: `maxLength` is modelled as keeping the first six characters. Browsers block typing past the limit and truncate a paste; for text entry the result is the same.
- CaseCompleteStep.CaseComplete.SendEmail, DigitalSignatureStep.DigitalSignature.StartSign, LoginScreen.Login.AdvisorLogin, ContractGenerationStep.ContractGeneration.StartGenerate, CreditValidationStep.CreditValidation.StartValidate and IdentityValidationStep.IdentityValidation.StartValidate: their `requires` name what the hidden or disabled buttons already guarantee (not sending, an enabled button). They do not model a second press while a request is under way.
- DocumentUploadStep.DocumentUpload.HandleFileUpload: models the intended upload (`Upload`): a failed read leaves the checklist unchanged. The source marks the document uploaded with a `null` file; that behaviour is modelled separately as `UploadAsWritten` (see Findings).
- Text.LowerChar: folds only A-Z and U+00C0..U+00DE (without U+00D7) to lower case, not the full Unicode mapping of `toLowerCase`. Text.ToLower, CasesList.MatchesSearch, AuditLog.MatchesSearch and Routing.RouteKey inherit this: a search or path with other upper-case letters (Greek, Cyrillic, U+0100 and beyond) is compared without folding them.
- LoginScreen.ClientAccount, IdentityValidationStep.CanValidate, DigitalSignatureStep.Capped and DigitalSignatureStep.SignEnabled: a string's length is its number of code points. JavaScript counts UTF-16 units, so a character outside the Basic Multilingual Plane counts once here and twice in the source; document numbers and codes are digits, where the two agree.
- Routing.Route: the router's matching is modelled as ignoring letter case and any number of trailing slashes. Percent-decoding of the path, route ranking and the `replace` flag of the redirects are not modelled.

## Findings

| source | as written | input that shows it | evidently intended | confidence | as-written member | corrected member |
|---|---|---|---|---|---|---|
| src/components/steps/DocumentUpload.tsx:169-187 | the document is updated in `onloadend`, which also fires after a failed read, so the document is marked received with a `null` file | an accepted 1000-byte JPEG `cedula.jpg` for `cedula` whose read fails | mark the document received only after a successful read | not executed | DocumentUploadStep.FailedReadMarksUploaded | DocumentUploadStep.UploadCorrection |
| src/components/steps/CaseComplete.tsx:16-17 | the case number and the duration are drawn in the component body, so every re-render draws them again; the send's own state changes re-render, and the number shown changes after the e-mail is sent | draws 1234 at mount and 5678 at the re-render show 'CASO-1234' and then 'CASO-5678' | draw once per case (state or a memo) and keep the number while the step is shown | not executed | CaseCompleteStep.ReRenderRedraws | CaseCompleteStep.CaseComplete.SendEmail |
