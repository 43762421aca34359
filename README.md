# myconsent-front: a Dafny model of the consent-form workflow

This project models the core of the myconsent-front web app. Users pick a
document type (a release, a consent form, an NDA or one of their own
templates). They fill in a multi-step form with a list of participants,
review and edit it, sign it on an agreement screen, and export it as a PDF.
A second page drafts contracts in a conversation with a realtime AI assistant
and saves the draft as a PDF. A dashboard keeps the user's own templates in
the browser's key-value store, and a context provider keeps the signed-in
user there.

One Dafny module stands for each core source file. Four helper modules hold
what several files share:

- `Common`: ASCII case mapping, JavaScript trimming, `split` and digits.
- `JsObject`: a JavaScript object as an ordered list of entries, with a
  spread-assign `Put`.
- `Values`: party records, the `Participant` heap object, JavaScript values
  and the form-data cell `FormState`.
- `FieldLabel`: the camelCase field-label rule.

The modules take the source's form:

- Code that changes state becomes a class whose methods say exactly what
  they change. Examples are the session controller, the step index, the
  participant editor, the signing screens, the review buffer, the PDF
  cursor, the chat, the templates page and the auth provider.
- Pure rules are functions.
- Loops in the source are methods with loop invariants, each proved equal
  to a function. Examples are the best-draft search, the AI-PDF line loop,
  the output-text extraction and the agreement paragraphs.

Participant records are `Participant` objects, because the source changes
them in place through shared references and that aliasing can be observed.
Display and PDF code reads a frozen snapshot of the form data (`Freeze`).
Several things become parameters:

- the translation function `t`, `JSON.parse`/`JSON.stringify`, the clock (a
  date string, or `Date.now()` as a number);
- the `FileReader` result (a data URL string);
- jsPDF's `splitTextToSize` (a function from text to lines) and the page
  height (an integer).

## Model

| member | source | states |
|---|---|---|
| FormCreator.SeedParties | src/pages/FormCreator.jsx:62-104 | A catalog type whose first step has participant defaults is seeded with exactly those defaults. A `custom_` type, an unknown type or a catalog type without defaults gets the blank Releasor and Releasee pair. |
| FormCreator.CatalogDefaultsOf | src/pages/FormCreator.jsx:84-88 | Only catalog types have first-step participant defaults. |
| FormCreator.CatalogTypesAreNotCustom | src/pages/FormCreator.jsx:66 | No catalog key starts with `custom_`, so the custom branch never takes a catalog type. |
| FormCreator.CatalogDefaultsByType | src/pages/FormCreator.jsx:84-88 | Gives the defaults the controller finds for each of the three catalog types: Releasor/Releasee, Party A/Party B, and Disclosing/Receiving Party. |
| FormCreator.ContentReleaseIsNotCustom | src/pages/FormCreator.jsx:66 | `content-release` takes the catalog branch. |
| FormCreator.SeedsByType | src/pages/FormCreator.jsx:62-104 | Every selection seeds exactly two blank participants; the roles per type are derived from the catalog. |
| FormCreator.FreshParticipants | src/pages/FormCreator.jsx:62-104 | Builds one new participant object per record, in order, each holding that record. |
| FormCreator.SeedObjects | src/pages/FormCreator.jsx:62-104 | New participant objects holding exactly the seed records for the type. |
| FormCreator.CatalogDefaults.constructor | src/config/form-steps.js:8-11 | The catalog's three default lists, which are objects shared across sessions, as new objects holding the defaults. |
| FormCreator.FindTemplate | src/pages/FormCreator.jsx:67 | Returns the first template with the given id, and `None` iff none has it. |
| FormCreator.FirstWithIdTail | src/pages/FormCreator.jsx:67 | Past a head with another id, the first match in the list is the first match in its tail. |
| FormCreator.BuilderType | src/pages/FormCreator.jsx:207-210 | Always a catalog key: the selected type when it is one, otherwise `general-consent`. |
| FormCreator.GetAgreementForType | src/pages/FormCreator.jsx:196-204 | For a `custom_` type the result is null iff there is no custom content (or it is empty), and otherwise the title with the raw content. For other types it is the language's agreement, else the English one, else nothing. |
| FormCreator.SaveTitle | src/pages/FormCreator.jsx:159-164 | A `custom_` document is titled with the selected title, or `Custom Agreement`, and is never untitled. Other documents get the translated title. |
| FormCreator.DashSpaces | src/pages/FormCreator.jsx:181 | The result has no whitespace and is no longer than the input; text with no whitespace is unchanged. |
| FormCreator.DashSpacesKeepsHead | src/pages/FormCreator.jsx:181 | A head without whitespace is copied unchanged. |
| FormCreator.TrimStartRun | src/pages/FormCreator.jsx:181 | A whole whitespace run is consumed up to the next other character. |
| FormCreator.DashSpacesRun | src/pages/FormCreator.jsx:181 | Each whole whitespace run becomes exactly one `-` and the text around it is kept: `a + w + b` gives `a + "-" + DashSpaces(b)`. |
| FormCreator.FileName | src/pages/FormCreator.jsx:181 | The file name ends in `.pdf` and has no whitespace; a title with no whitespace becomes `title.pdf`. |
| FormCreator.FileNameRun | src/pages/FormCreator.jsx:181 | In the file name each whitespace run of the title is one `-`, followed by `.pdf`. |
| FormCreator.ReachableSteps | src/pages/FormCreator.jsx:109-280 | Every run of offered actions keeps the flow invariant: never on `signature`, and the version is at least 1, 2 and 3 on agreement, donation and export. |
| FormCreator.SignatureScreenUnreachable | src/pages/FormCreator.jsx:109-265 | From the welcome screen no sequence of handlers reaches the `signature` step. On export the version counter is at least 3. |
| FormCreator.Session.constructor | src/pages/FormCreator.jsx:28-38 | The initial session: `welcome`, empty type and title, no custom content, empty form data and signatures, version 0. |
| FormCreator.Session.LoadTemplates | src/pages/FormCreator.jsx:40-48 | With a user, the templates are the stored list (or none). Without one they are empty. The screen, the chosen type and title, the form data and the counter are unchanged. |
| FormCreator.Session.ChooseType | src/pages/FormCreator.jsx:59-77 | Records the type and title. A `custom_` type takes its content from the loaded templates, else from the store, else keeps the old content. |
| FormCreator.Session.Begin | src/pages/FormCreator.jsx:106-109 | The form data is exactly the seeded participants; signatures are cleared, the version resets and the step becomes `builder`. |
| FormCreator.Session.HandleFormTypeSelect | src/pages/FormCreator.jsx:58-110 | Corrected selection: new participant objects, one per seed record, holding the seed; signatures `{}`, version 0, step `builder`. The loaded templates are unchanged. |
| FormCreator.Session.HandleFormTypeSelectShared | src/pages/FormCreator.jsx:58-110 | Selection as written: a catalog type puts the catalog's own default objects into the form data. The loaded templates are unchanged. |
| FormCreator.Session.HandleFormComplete | src/pages/FormCreator.jsx:113-118 | Stores the builder's data and moves to review without bumping the version. Selected title, custom content and loaded templates are unchanged. |
| FormCreator.Session.HandleStepCommit | src/pages/FormCreator.jsx:213-216 | Stores the data and bumps the version by exactly one. Selected title, custom content and loaded templates are unchanged. |
| FormCreator.Session.HandleReviewEdit | src/pages/FormCreator.jsx:247 | The review screen's saved buffer replaces the form data. |
| FormCreator.Session.HandleReviewComplete | src/pages/FormCreator.jsx:120-124 | Review goes to agreement and bumps the version by one. Selected title, custom content, loaded templates and form data are unchanged. |
| FormCreator.Session.HandleAgreementComplete | src/pages/FormCreator.jsx:126-131 | Stores the agreement payload verbatim, goes to donation and bumps the version. Selected title, custom content, loaded templates and form data are unchanged. |
| FormCreator.Session.HandleSignatureComplete | src/pages/FormCreator.jsx:139-144 | Stores the payload wrapped as `{participant}`, goes to donation and bumps the version. Selected title, custom content, loaded templates and form data are unchanged. |
| FormCreator.Session.HandleDonationComplete | src/pages/FormCreator.jsx:133-137 | Donation goes to export and bumps the version. Selected title, custom content, loaded templates and form data are unchanged. |
| FormCreator.Session.HandleBack | src/pages/FormCreator.jsx:246-265 | Back goes from review to builder, and from agreement or signature to review; the version is unchanged. Selected title, custom content, loaded templates and form data are unchanged. |
| FormCreator.Session.HandleStartOver | src/pages/FormCreator.jsx:146-154 | Restores the initial session: `welcome`, empty type and title, no content, empty data and signatures, version 0. |
| FormCreator.Session.SaveDocument | src/pages/FormCreator.jsx:156-194 | No request without a user. Otherwise the upload carries the type, the save title and the file name made from the title. |
| FormCreator.TypeFirstName | src/components/form-fields/ParticipantsField.jsx:30-34 | Typing a first name writes it into the first participant object itself. |
| FormCreator.DefaultsLeakAcrossSessions | src/pages/FormCreator.jsx:84-88 | Under the as-written selection, a name typed in one session shows up in the next session of the same type. |
| FormCreator.FreshSeedsStayBlank | src/pages/FormCreator.jsx:58-110 | Under the corrected selection, the next session starts blank. |
| FormBuilder.IndexStaysOnAStep | src/components/FormBuilder.jsx:11-32 | For non-empty steps, the index stays within `[0, n-1]` under any sequence of Next and Previous. |
| FormBuilder.BackAndForth | src/components/FormBuilder.jsx:18-32 | Next then Previous returns to the same step. |
| FormBuilder.Stepper.constructor | src/components/FormBuilder.jsx:9-16 | Starts on step 0 of the type's steps, holding the initial data; only catalog types are accepted. |
| FormBuilder.Stepper.HandleNext | src/components/FormBuilder.jsx:16-24 | On the last step it completes with the local data and keeps the index. Otherwise it moves one step forward. The data is never changed. |
| FormBuilder.Stepper.HandlePrevious | src/components/FormBuilder.jsx:26-32 | It backs out iff on step 0, keeping the index. Otherwise it moves one step back. The data is never changed. |
| FormSteps.StepsFor | src/components/FormBuilder.jsx:14 | A catalog type's steps, and `[]` for any other type. |
| FormSteps.FindParticipantsField | src/pages/FormCreator.jsx:86 | Returns the first field of kind `participants`, and `None` iff there is none. |
| FormSteps.FirstParticipantsTail | src/pages/FormCreator.jsx:86 | Past a head of another kind, the first `participants` field is the first one in the tail. |
| FormSteps.RolesShape | src/config/form-steps.js:1-17 | A descriptor built from two to ten default roles, each among its options, is well formed. It has min 2, max 10 and blank defaults with those roles. |
| FormSteps.DescriptorsWellFormed | src/config/form-steps.js:1-53 | All three descriptors have min 2 and max 10, two defaults whose roles are role options, and non-empty options. Gives the exact default pairs. |
| FormSteps.CatalogShape | src/config/form-steps.js:56-139 | The catalog has exactly the three types, with 4, 3 and 4 steps. Each first step holds that type's participants descriptor, and field ids are unique within every step. |
| FormSteps.CatalogSeedsWellFormed | src/config/form-steps.js:58-115 | Every catalog type's first step has a well-formed participants field. |
| ParticipantsField.DefaultRole | src/components/form-fields/ParticipantsField.jsx:37 | The first role option's value, or `Participant` when it is missing or empty; never empty. |
| ParticipantsField.Without | src/components/form-fields/ParticipantsField.jsx:51 | Removes exactly entry `index` and keeps the rest in order; an index out of range removes nothing. |
| ParticipantsField.ParticipantsEditor.constructor | src/components/form-fields/ParticipantsField.jsx:22-24 | Starts with the first participant active. |
| ParticipantsField.ParticipantsEditor.HandleInputChange | src/components/form-fields/ParticipantsField.jsx:26-28 | Sets only the given key of the form data. |
| ParticipantsField.ParticipantsEditor.HandleParticipantChange | src/components/form-fields/ParticipantsField.jsx:30-34 | Changes only the named field of participant `index`, inside that shared object. The list keeps the same objects. |
| ParticipantsField.ParticipantsEditor.AddParticipant | src/components/form-fields/ParticipantsField.jsx:36-47 | Appends exactly one new blank participant with the default role and makes it active. There is no max check. |
| ParticipantsField.ParticipantsEditor.RemoveParticipant | src/components/form-fields/ParticipantsField.jsx:49-54 | Does nothing at or below `min`. Otherwise it removes exactly entry `index` and the active index becomes `max(0, index-1)`. |
| ParticipantsField.OfferedActionsKeepBounds | src/components/form-fields/ParticipantsField.jsx:74-93 | Through the add and remove buttons the editor shows, the length stays within `[min, max]` and the active index names a participant. |
| RenderField.WidgetFor | src/components/form-fields/renderField.jsx:25-36 | `participants`, `checkbox`, `textarea` and `file` get their own widgets, each iff it is that type; every other type gets the default field. |
| RenderField.FieldValue | src/components/form-fields/renderField.jsx:9 | The value stored under the field's id, or undefined when the key is absent. |
| RenderField.FileValue | src/components/form-fields/renderField.jsx:13-23 | The value is null iff no file was picked; otherwise it is the record of name, type and data URL. |
| RenderField.HandleInputChange | src/components/form-fields/renderField.jsx:10-12 | Sets only `fieldId` in the form data. |
| RenderField.HandleFileChange | src/components/form-fields/renderField.jsx:13-23 | Stores the file value under `fieldId` and nothing else. |
| RenderField.ChangeShowsInField | src/components/form-fields/renderField.jsx:9-12 | After a change the field renders the new value, every other field renders what it did, and keys stay unique. |
| AgreementScreen.Signers | src/components/AgreementScreen.jsx:31-33 | The signers are exactly the participants with a first name or a name, and there are no more of them than participants. |
| AgreementScreen.SignersAppend | src/components/AgreementScreen.jsx:31-33 | The signer filter keeps the original order. |
| AgreementScreen.Pair | src/components/AgreementScreen.jsx:74-78 | Each signer is extended with its own slot's signature, in order. |
| AgreementScreen.AgreementSigning.constructor | src/components/AgreementScreen.jsx:31-39 | One empty slot per signer, no active signer, today's date. |
| AgreementScreen.AgreementSigning.Open | src/components/AgreementScreen.jsx:163-166 | Makes signer `i` active and keeps the slots. |
| AgreementScreen.AgreementSigning.ClosePad | src/components/AgreementScreen.jsx:108 | Clears the active signer and keeps the slots. |
| AgreementScreen.AgreementSigning.SetDate | src/components/AgreementScreen.jsx:38 | Changes only the date. |
| AgreementScreen.AgreementSigning.SaveSignature | src/components/AgreementScreen.jsx:53-62 | Does nothing with no active signer. A non-empty pad writes only the active slot, an empty pad writes none, and the active signer is always cleared. |
| AgreementScreen.AgreementSigning.Complete | src/components/AgreementScreen.jsx:64-83 | Refused iff the button at line 192 is disabled, that is iff some slot is empty. On success, every signer is paired with their slot in order, with the date. Zero signers give an empty list. |
| AgreementScreen.AgreementParagraphs | src/components/AgreementScreen.jsx:205-215 | The paragraphs are the longest prefix of translations that are not empty. |
| SignatureScreen.SingleSigning.constructor | src/components/SignatureScreen.jsx:14-15 | Nothing drawn, today's date. |
| SignatureScreen.SingleSigning.OnBegin | src/components/SignatureScreen.jsx:68 | A stroke has begun. |
| SignatureScreen.SingleSigning.OnEnd | src/components/SignatureScreen.jsx:69 | At a stroke's end there is a signature iff the pad is not empty. |
| SignatureScreen.SingleSigning.SetDate | src/components/SignatureScreen.jsx:82 | Changes only the date. |
| SignatureScreen.SingleSigning.Complete | src/components/SignatureScreen.jsx:17-40 | An empty pad is refused first, then an empty date. Completion succeeds iff both are present, with exactly the signature and the date. |
| SignatureScreen.ButtonTracksPad | src/components/SignatureScreen.jsx:15-104 | Between strokes the button is enabled iff the pad is non-empty. |
| ReviewScreen.ReviewLabel | src/components/ReviewScreen.jsx:77-88 | A non-empty type translation wins. Without one, a non-empty common translation wins. Otherwise, a missing or empty translation at either level gives the camelCase fallback. |
| ReviewScreen.ListedEntries | src/components/ReviewScreen.jsx:231-233 | Exactly the entries whose value is not null, undefined or an empty array; never more entries than the data has. |
| ReviewScreen.ListedEntriesAppend | src/components/ReviewScreen.jsx:231-233 | The listing keeps the order of the entries: filtering two runs of entries concatenates their listings. |
| ReviewScreen.Cards | src/components/ReviewScreen.jsx:11-25 | One card per participant, titled with the role or the group title and its position. |
| ReviewScreen.ParticipantGroup | src/components/ReviewScreen.jsx:11-13 | An empty list renders nothing; a non-empty one renders the title over one card per participant. |
| ReviewScreen.RenderValue | src/components/ReviewScreen.jsx:90-110 | Participant lists render as groups, the releasee as a card and a photo as an image. Booleans render as `✓ Yes`/`✗ No`, other falsy values as `Not specified`. Every other truthy value renders as its string. |
| ReviewScreen.ListedEntriesRenderSomething | src/components/ReviewScreen.jsx:90-110 | Every listed entry renders something, and an empty text renders `Not specified`. |
| ReviewScreen.EditorFor | src/components/ReviewScreen.jsx:137-180 | Each editor is chosen iff its condition holds: `participants` gets the participant editors, `idPhoto` the photo input, a boolean value the checkbox, a key naming terms, clauses, purpose or description the text area, and anything else the text input. |
| ReviewScreen.ReviewBuffer.constructor | src/components/ReviewScreen.jsx:30-31 | The buffer starts as the form data, not editing. |
| ReviewScreen.ReviewBuffer.HandleEdit | src/components/ReviewScreen.jsx:34-36 | Enters editing and keeps the buffer. |
| ReviewScreen.ReviewBuffer.HandleSaveEdit | src/components/ReviewScreen.jsx:38-41 | Hands the buffer back and leaves editing. |
| ReviewScreen.ReviewBuffer.HandleCancelEdit | src/components/ReviewScreen.jsx:43-46 | Resets the buffer to the form data and leaves editing. |
| ReviewScreen.ReviewBuffer.HandleInputChange | src/components/ReviewScreen.jsx:48-53 | Changes only the given key of the buffer. |
| ReviewScreen.ReviewBuffer.HandleFileChange | src/components/ReviewScreen.jsx:61-75 | Stores the file value under the key in the buffer, the same value the builder stores. |
| ReviewScreen.ReviewBuffer.HandleParticipantChangeInPlace | src/components/ReviewScreen.jsx:55-59 | As written: the participant object shared with the form data is changed in place. The list is put back under its key. Every participant that is a different object keeps its record. |
| ReviewScreen.ReviewBuffer.HandleParticipantChange | src/components/ReviewScreen.jsx:55-59 | Corrected: the edited participant is a copy; the form data's objects are untouched. |
| ReviewScreen.CopyWith | src/components/ReviewScreen.jsx:56-57 | Corrected: the copied array holds a fresh object with the changed record at the index and the same objects elsewhere, so only that one record differs. |
| ReviewScreen.ViewsUpdate | src/components/ReviewScreen.jsx:56-57 | Putting another object at one index of the array changes that index's record and no other. |
| ReviewScreen.CancelKeepsParticipantEdit | src/components/ReviewScreen.jsx:43-59 | As written, a participant edit survives Cancel. |
| ReviewScreen.CancelDropsParticipantEdit | src/components/ReviewScreen.jsx:43-59 | Corrected, Cancel drops the participant edit. |
| FieldLabel.SpaceCapitalsInserts | src/lib/pdfGenerator.js:90 | One space is inserted per capital; removing the spaces gives back a key that had none. |
| FieldLabel.CapitalsFollowSpaces | src/lib/pdfGenerator.js:90 | Every capital in the spaced text follows a space. |
| FieldLabel.SpaceCapitalsSuffix | src/lib/pdfGenerator.js:90-92 | A key ending in `Id` is spaced into one ending in ` Id`. |
| FieldLabel.TrailingIdBecomesID | src/lib/pdfGenerator.js:88-93 | A key ending in `Id` gets a label ending in `ID`. |
| FieldLabel.LabelShape | src/lib/pdfGenerator.js:88-93 | The label is as long as the key plus one per capital, and a lower-case first letter is capitalised; its contents are stated by `SpaceCapitalsInserts`. |
| JsObject.Keys | src/lib/pdfGenerator.js:141 | The object's keys, in insertion order. |
| JsObject.Lookup | src/components/form-fields/renderField.jsx:9 | `None` iff the key is absent; otherwise the value stored under it. |
| JsObject.Put | src/components/form-fields/renderField.jsx:10-12 | An existing key keeps its place and a new one is appended; other entries are unchanged. |
| JsObject.PutLookupSame | src/components/form-fields/renderField.jsx:10-12 | Reading a key just written gives the written value. |
| JsObject.PutLookupOther | src/components/form-fields/renderField.jsx:10-12 | Writing one key leaves every other key's value unchanged. |
| JsObject.PutKeepsUnique | src/components/form-fields/renderField.jsx:10-12 | Writes keep the keys unique. |
| Values.WithField | src/components/form-fields/ParticipantsField.jsx:32 | Changes the named field and no other. |
| Values.Participant.constructor | src/components/form-fields/ParticipantsField.jsx:38-43 | A new object holding the record. |
| Values.Participant.Set | src/components/form-fields/ParticipantsField.jsx:32 | Writes one field of the object in place. |
| Values.Sanitize | src/lib/pdfGenerator.js:83-86 | Null and undefined become `''`, strings stay, booleans become `true`/`false`, and objects become `[object Object]`. |
| Values.Views | src/components/form-fields/ParticipantsField.jsx:23 | The records the participant objects hold, in order. |
| Values.Footprint | src/components/form-fields/ParticipantsField.jsx:30-34 | Covers every participant object the form data refers to. |
| Values.Freeze | src/lib/pdfGenerator.js:141 | A snapshot with the same keys in the same order. |
| Values.Repeat | src/lib/pdfGenerator.js:148 | No copies give `''` and one copy gives the text. |
| Values.FormState.constructor | src/components/FormBuilder.jsx:12 | Holds the initial data. |
| Values.FormState.Update | src/components/form-fields/renderField.jsx:10-12 | Sets only the given key. |
| Values.FormState.Replace | src/pages/FormCreator.jsx:106-114 | Replaces the data. |
| PdfGenerator.MakeRoom | src/lib/pdfGenerator.js:113-118 | Adds at most one page, and only when needed. The cursor is unchanged iff the block fits. A new page puts the cursor at the top margin. A block no taller than the page then fits. |
| PdfGenerator.FallbackTitle | src/lib/pdfGenerator.js:121 | An unknown type is titled `Completed Form`. |
| PdfGenerator.TitleText | src/lib/pdfGenerator.js:121-122 | A non-empty translation wins; no or an empty translation gives the fallback; never empty. |
| PdfGenerator.SummaryValue | src/lib/pdfGenerator.js:147 | Booleans print `Yes`/`No`, empty values `N/A`, and other text as it is. |
| PdfGenerator.Unskipped | src/lib/pdfGenerator.js:142 | No skipped key (`idPhoto`, `releasors`, `releasee`, `participants`) remains. |
| PdfGenerator.SummaryIgnoresSkippedKeys | src/lib/pdfGenerator.js:141-151 | The summary of the data is the summary of its unskipped entries. |
| PdfGenerator.PartyName | src/lib/pdfGenerator.js:161-162 | A non-empty `name` is used, else first and last name joined by a space. A source that is not blank once trimmed gives its trimmed text, and a blank one gives `N/A`. |
| PdfGenerator.PartyEmail | src/lib/pdfGenerator.js:164 | The email, or `N/A` when blank. |
| PdfGenerator.ImageFormat | src/lib/pdfGenerator.js:179-185 | Fails (and the placeholder is drawn) when the part before the first `;` has no `/`. |
| PdfGenerator.SplitOnFirst | src/lib/pdfGenerator.js:179 | Splitting `a + sep + b` with `sep` not in `a` gives `a` and then the pieces of `b`. |
| PdfGenerator.ImageFormatOfDataUrl | src/lib/pdfGenerator.js:179 | `kind/subtype;rest` yields the upper-cased subtype, e.g. `data:image/png;…` gives `PNG`. |
| PdfGenerator.AgreementText | src/lib/pdfGenerator.js:201 | A catalog type with a non-empty text gets that text; an unknown type or an empty text gets `No agreement text available.`; never empty. |
| PdfGenerator.FieldsOf | src/lib/pdfGenerator.js:240-247 | What the generator reads from stored signatures. The releasor, releasee and per-party fields are always empty, because the flow never writes them. The participant is present iff the signature screen signed, and the date comes only from the agreement. |
| PdfGenerator.PartySources | src/lib/pdfGenerator.js:242-245 | Only non-empty sources taken from the list, never more than the list holds. |
| PdfGenerator.PartySourcesCaptions | src/lib/pdfGenerator.js:242-245 | Every non-empty signature `i` is drawn under `Party #i+1 Signature:`, and every drawn image is a signature of the list under its own number. |
| PdfGenerator.PartySourcesSnoc | src/lib/pdfGenerator.js:242-245 | Adding one signature at the end keeps the captions of the earlier ones and adds its own when it is present. |
| PdfGenerator.PartySourcesAllPresent | src/lib/pdfGenerator.js:242-245 | With every signature present, the images are all of them, in list order, numbered from 1. |
| PdfGenerator.SignatureSources | src/lib/pdfGenerator.js:240-247 | Only non-empty sources are drawn; a releasor signature comes first and a participant signature last. |
| PdfGenerator.SignatureSourcesInOrder | src/lib/pdfGenerator.js:240-247 | With every source present: releasor, releasee, `Party #1` to `Party #n`, then the participant, and nothing else. |
| PdfGenerator.StoredSignatureImages | src/lib/pdfGenerator.js:240-247 | An agreement payload yields no signature image, because `signatures.signatures` is never read. A single signature yields exactly the participant's. |
| PdfGenerator.DrawOk | src/lib/pdfGenerator.js:126-237 | Drawing at a cursor inside the margins stays inside them. |
| PdfGenerator.MakeRoomOk | src/lib/pdfGenerator.js:113-118 | After making room for a block of at most 60, the cursor is inside the margins and the block fits. |
| PdfGenerator.SummaryRowOk | src/lib/pdfGenerator.js:143-150 | A summary row starts inside the margins. |
| PdfGenerator.SummaryOk | src/lib/pdfGenerator.js:141-151 | The whole summary keeps every start inside the margins. |
| PdfGenerator.PartyBlockOk | src/lib/pdfGenerator.js:153-166 | A party block stays inside the margins. |
| PdfGenerator.PartiesOk | src/lib/pdfGenerator.js:168-170 | A list of party blocks stays inside the margins. |
| PdfGenerator.PhotoOk | src/lib/pdfGenerator.js:172-187 | The ID photo stays inside the margins. |
| PdfGenerator.AgreementLineOk | src/lib/pdfGenerator.js:204-208 | One agreement line stays inside the margins. |
| PdfGenerator.AgreementLinesOk | src/lib/pdfGenerator.js:204-208 | All agreement lines stay inside the margins. |
| PdfGenerator.AgreementSectionOk | src/lib/pdfGenerator.js:189-208 | The agreement section stays inside the margins. |
| PdfGenerator.SignatureBlockOk | src/lib/pdfGenerator.js:224-238 | One signature stays inside the margins. |
| PdfGenerator.SignatureBlocksOk | src/lib/pdfGenerator.js:240-247 | All signatures stay inside the margins. |
| PdfGenerator.SignatureSectionOk | src/lib/pdfGenerator.js:210-247 | The signature section stays inside the margins. |
| PdfGenerator.LayoutStaysInMargins | src/lib/pdfGenerator.js:95-247 | On a page tall enough for the tallest block, every text and image of the document starts between the margins. |
| PdfGenerator.PdfDocument.constructor | src/lib/pdfGenerator.js:102-109 | One empty page with the cursor at the top margin. |
| PdfGenerator.PdfDocument.CheckAndAddPage | src/lib/pdfGenerator.js:113-118 | The cursor moves as `MakeRoom` says. |
| PdfGenerator.PdfDocument.Write | src/lib/pdfGenerator.js:126-149 | Appends a text at the cursor. |
| PdfGenerator.PdfDocument.Draw | src/lib/pdfGenerator.js:180 | Appends an image at the cursor. |
| PdfGenerator.PdfDocument.Advance | src/lib/pdfGenerator.js:127-150 | Moves the cursor down. |
| PdfGenerator.RenderPartyInfo | src/lib/pdfGenerator.js:153-166 | Writes exactly one party block. |
| PdfGenerator.PartiesStep | src/lib/pdfGenerator.js:168-170 | One more party extends the party list's layout by one block. |
| PdfGenerator.RenderParties | src/lib/pdfGenerator.js:168-170 | Writes the party blocks numbered from 1, in order. |
| PdfGenerator.WriteSummary | src/lib/pdfGenerator.js:141-151 | The summary loop writes exactly the summary layout. |
| PdfGenerator.WritePhoto | src/lib/pdfGenerator.js:172-187 | Writes the ID photo, or the placeholder, only when a data URL is present. |
| PdfGenerator.WriteAgreement | src/lib/pdfGenerator.js:189-208 | Writes the heading and then every agreement line. |
| PdfGenerator.WriteAgreementLine | src/lib/pdfGenerator.js:204-208 | One agreement line, preceded by a page break when fewer than 4 units are left above the bottom margin. |
| PdfGenerator.AddSignature | src/lib/pdfGenerator.js:224-238 | Writes one labelled signature image. |
| PdfGenerator.WriteSignatures | src/lib/pdfGenerator.js:210-247 | Writes the signed-on date and then the signatures in the fixed order. |
| PdfGenerator.GeneratePdf | src/lib/pdfGenerator.js:95-247 | The document written is the layout, which stays inside the margins (see above). |
| FormPreview.Cards | src/components/FormPreview.jsx:14-20 | One card per participant, titled with the role or `Releasor`/`Participant` and the position. |
| FormPreview.RenderValue | src/components/FormPreview.jsx:13-48 | Classifies the value, each case iff its condition holds. Participant lists give cards and the releasee a card. A photo with a data URL gives an image, and a boolean gives ✓/✗. Falsy values give `Not specified` and everything else its string. |
| FormPreview.Details | src/components/FormPreview.jsx:94-103 | One row per entry, in order, with the label rule and the rendered value. |
| FormPreview.RenderSignatures | src/components/FormPreview.jsx:50-77 | Present iff the signatures come from the agreement screen. There is one tile per signer, falling back to `Participant i+1`, and the date. |
| FormPreview.Title | src/components/FormPreview.jsx:82 | The translation when present, otherwise the form type. |
| FormPreview.RenderPreview | src/components/FormPreview.jsx:79-120 | The title, the details, the non-empty agreement paragraphs and the signature list. |
| CreateWithAI.GreetingName | src/pages/CreateWithAI.jsx:127 | A present e-mail with a non-empty part before the first `@` gives that part, which is a prefix of the address without `@`; otherwise `there`. Never empty. |
| CreateWithAI.MentionsAt | src/pages/CreateWithAI.jsx:68 | A keyword found at a position makes the text match. |
| CreateWithAI.Assistants | src/pages/CreateWithAI.jsx:61 | Exactly the assistant messages. |
| CreateWithAI.AssistantsAppend | src/pages/CreateWithAI.jsx:61 | The filter keeps the order. |
| CreateWithAI.LastLooking | src/pages/CreateWithAI.jsx:64-74 | The last reply that mentions a contract keyword: a result is a match with no match after it, and any such last match is the result. None iff no reply matches. |
| CreateWithAI.LastLookingLast | src/pages/CreateWithAI.jsx:64-74 | A matching final reply is the last match. |
| CreateWithAI.LastLookingInit | src/pages/CreateWithAI.jsx:64-74 | When the final reply does not match, the last match and the no-match case are those of the earlier replies. |
| CreateWithAI.BestDraft | src/pages/CreateWithAI.jsx:60-78 | None iff there is no assistant message. If some assistant message matches the keyword pattern, the result is the last one that does. If none matches, the result is the last assistant message. |
| CreateWithAI.LastLookingPrefix | src/pages/CreateWithAI.jsx:65-74 | The backward search's step: one more reply either answers or defers to the earlier ones. |
| CreateWithAI.FindBestAssistantDraft | src/pages/CreateWithAI.jsx:60-78 | The loop returns the last keyword-matching assistant message, else the last assistant message, else none. |
| CreateWithAI.GreetingLooksLikeContract | src/pages/CreateWithAI.jsx:68-130 | The greeting itself matches the contract keywords. |
| CreateWithAI.GreetingIsTheDraft | src/pages/CreateWithAI.jsx:646-656 | As written, when no later reply matches, the greeting is picked as the draft. |
| CreateWithAI.ConversationDraft | src/pages/CreateWithAI.jsx:646-656 | Corrected: none iff no assistant message follows the greeting; otherwise one that does. |
| CreateWithAI.DetectDocType | src/pages/CreateWithAI.jsx:81-94 | The result is the name of the first rule, in the fixed order, that matches the lower-cased text, and null iff no rule matches. |
| CreateWithAI.DocRules | src/pages/CreateWithAI.jsx:83-92 | The nine rules of the table, one test per index. |
| CreateWithAI.StandardMeansNda | src/pages/CreateWithAI.jsx:83 | Any text containing `standard` is detected as a Non-Disclosure Agreement. |
| CreateWithAI.NonBlank | src/pages/CreateWithAI.jsx:98 | The lines are trimmed and non-empty, and there are no more of them than pieces. |
| CreateWithAI.Kept | src/pages/CreateWithAI.jsx:98 | One piece gives at most its trimmed text, and nothing when that is empty. |
| CreateWithAI.NonBlankAppend | src/pages/CreateWithAI.jsx:98 | The pieces keep their order: two runs of pieces give their lines concatenated. |
| CreateWithAI.NonBlankOne | src/pages/CreateWithAI.jsx:98 | One piece gives its trimmed text, or nothing when that is empty. |
| CreateWithAI.FirstTitleLine | src/pages/CreateWithAI.jsx:102-104 | The first line that mentions a title keyword; none iff no line does. |
| CreateWithAI.FirstTitleTail | src/pages/CreateWithAI.jsx:102-104 | When the first line does not match, the first match is found in the rest. |
| CreateWithAI.TitleLine | src/pages/CreateWithAI.jsx:105 | The first title-keyword line, else the first line. |
| CreateWithAI.DropHashes | src/pages/CreateWithAI.jsx:105 | A suffix of the line, the part dropped is all `#`, and no leading `#` remains. |
| CreateWithAI.DeriveTitle | src/pages/CreateWithAI.jsx:97-107 | Never empty. With no non-blank lines it is `AI Legal Document`. Otherwise it is the first keyword line, else the first non-blank line, cleaned of its heading marker, with `AI Legal Document` if that leaves nothing. Any other title neither starts nor ends with whitespace. |
| CreateWithAI.ChooseTitle | src/pages/CreateWithAI.jsx:664-666 | The detected type if any, else the derived title; never empty, so the literal fallback is unreachable. |
| CreateWithAI.Dashes | src/pages/CreateWithAI.jsx:114 | Letters and digits stay and everything else becomes `-`. |
| CreateWithAI.Squeeze | src/pages/CreateWithAI.jsx:114 | No two dashes in a row remain, the first character stays, and a text without `-` is unchanged. |
| CreateWithAI.SqueezeRun | src/pages/CreateWithAI.jsx:114 | Each whole run of `-` becomes exactly one `-`. |
| CreateWithAI.SqueezeKeepsHead | src/pages/CreateWithAI.jsx:114 | A prefix without double dashes that does not end in `-` passes through unchanged. |
| CreateWithAI.SqueezeLeadingRun | src/pages/CreateWithAI.jsx:114 | A leading run of `-` becomes one `-`. |
| CreateWithAI.DropLeadingDashes | src/pages/CreateWithAI.jsx:115 | A suffix of the text, the part dropped is all `-`, and no leading `-` remains. |
| CreateWithAI.DropTrailingDashes | src/pages/CreateWithAI.jsx:115 | A prefix of the text, the part dropped is all `-`, and no trailing `-` remains. |
| CreateWithAI.SliceKeepsSlug | src/pages/CreateWithAI.jsx:116 | Cutting a slug keeps it a slug. |
| CreateWithAI.Slugify | src/pages/CreateWithAI.jsx:110-118 | Only `[a-z0-9-]`, at most 80 characters, no leading `-`, no double dash, never empty; the first `min(80, length)` characters of the slug, or `ai-legal-document` when the slug is empty. |
| CreateWithAI.Cut | src/pages/CreateWithAI.jsx:116 | A prefix of the slug of exactly `n` characters when it is longer, the whole slug otherwise; still a slug. |
| CreateWithAI.FallbackSlug | src/pages/CreateWithAI.jsx:116 | The fallback `ai-legal-document` is itself a slug. |
| CreateWithAI.Squeezed | src/pages/CreateWithAI.jsx:113-114 | After lower-casing and replacing each run of other characters by `-`: only slug characters and no double dash. |
| CreateWithAI.Slug | src/pages/CreateWithAI.jsx:113-115 | The lower-cased, dashed and squeezed text without the runs of `-` at its ends: a slice framed by `-` only, with slug characters, no double dash and neither end a dash. |
| CreateWithAI.SlugJoins | src/pages/CreateWithAI.jsx:113-115 | Two slugs with any run of non-alphanumeric characters between them give the two slugs joined by one `-`. |
| CreateWithAI.TrimmedDashes | src/pages/CreateWithAI.jsx:115 | Dropping the `-`s at the front and then at the back leaves a slice with only `-` around it. |
| CreateWithAI.DashesKeepsSlug | src/pages/CreateWithAI.jsx:114 | A slug has nothing to replace. |
| CreateWithAI.SqueezeKeeps | src/pages/CreateWithAI.jsx:114 | A text without double dashes has nothing to squeeze. |
| CreateWithAI.SlugifyKeepsSlugs | src/pages/CreateWithAI.jsx:110-118 | Slugifying a slug gives it back. |
| CreateWithAI.ExtractText | src/pages/CreateWithAI.jsx:397-414 | The loop gathers the text of every output's text parts, in order. |
| CreateWithAI.Flush | src/pages/CreateWithAI.jsx:375-383 | A non-blank buffer becomes exactly one assistant message with the trimmed text, a blank one none; the buffer is cleared and generation ends. |
| CreateWithAI.TidyAppend | src/pages/CreateWithAI.jsx:375-383 | Appending a trimmed, non-empty message keeps the messages tidy. |
| CreateWithAI.TrimTwice | src/pages/CreateWithAI.jsx:376 | Trimming is idempotent. |
| Common.TrimTrimmed | src/pages/CreateWithAI.jsx:544 | A string whose ends are not white space is its own trimmed form. |
| Common.NatToStringValue | src/lib/pdfGenerator.js:170 | The rendered digits denote the number itself. |
| Common.NatToStringInjective | src/components/dashboard/MyTemplates.jsx:82 | Distinct numbers render differently, so distinct clock readings give distinct `custom_` ids. |
| Common.TrimEmptyIffBlank | src/pages/CreateWithAI.jsx:533 | `trim()` yields the empty string exactly when every character is white space, so `!input.trim()` tests for a blank input. |
| CreateWithAI.DoneAppends | src/pages/CreateWithAI.jsx:375-450 | A completion appends the trimmed buffer as one tidy assistant message when it is not blank, and nothing otherwise. |
| CreateWithAI.TranscriptAppends | src/pages/CreateWithAI.jsx:455-461 | A transcript appends its trimmed text as one tidy user message when it is not blank, and nothing otherwise. |
| CreateWithAI.StepAppends | src/pages/CreateWithAI.jsx:385-480 | Every event only ever appends trimmed, non-empty messages: a completion appends its flushed buffer and a transcript its text. Errors and other events change no message. |
| CreateWithAI.ReplayAppends | src/pages/CreateWithAI.jsx:385-480 | Over any event stream the earlier messages are kept and only tidy ones are added. |
| CreateWithAI.DeltasFillBuffer | src/pages/CreateWithAI.jsx:397-444 | Delta events only extend the buffer with their text, in order, and add no message. |
| CreateWithAI.GenerateAiPdf | src/pages/CreateWithAI.jsx:600-634 | The line loop places exactly the lines the cursor function places, on as many pages. |
| CreateWithAI.PlacedInBand | src/pages/CreateWithAI.jsx:617-631 | Every line is placed between 15 and `pageHeight - 20`, 5 below the previous one or at 15 on a new page, starting at 30. |
| CreateWithAI.Conversation.constructor | src/pages/CreateWithAI.jsx:123-148 | Just the greeting, empty buffer and input, no session. |
| CreateWithAI.Conversation.OnEvent | src/pages/CreateWithAI.jsx:385-480 | The chat moves as the event reducer says; the session is unchanged. |
| CreateWithAI.Conversation.OnResponseDelta | src/pages/CreateWithAI.jsx:397-418 | A response delta is reduced as above. |
| CreateWithAI.Conversation.OnOutputTextDelta | src/pages/CreateWithAI.jsx:419-444 | A text delta is reduced as above. |
| CreateWithAI.Conversation.Append | src/pages/CreateWithAI.jsx:544-548 | Appends one message. |
| CreateWithAI.Conversation.OnDone | src/pages/CreateWithAI.jsx:445-450 | A completion flushes the buffer. |
| CreateWithAI.Conversation.OnTranscript | src/pages/CreateWithAI.jsx:455-461 | A non-blank transcript is appended as a user message. |
| CreateWithAI.Conversation.OnChannelCreated | src/pages/CreateWithAI.jsx:261 | The session has a data channel. |
| CreateWithAI.Conversation.OnChannelOpenChanged | src/pages/CreateWithAI.jsx:486-501 | The session is active iff the channel is open. |
| CreateWithAI.Conversation.StopSession | src/pages/CreateWithAI.jsx:331-368 | The session ends, and the buffer is dropped without becoming a message. |
| CreateWithAI.Conversation.SetInput | src/pages/CreateWithAI.jsx:131 | Changes only the input. |
| CreateWithAI.SendDecision | src/pages/CreateWithAI.jsx:533-544 | Ignored iff the input is blank or a send is pending; not connected iff it is neither and there is no open session; otherwise the trimmed text is sent, and it is tidy. |
| CreateWithAI.Conversation.HandleSendMessage | src/pages/CreateWithAI.jsx:531-562 | Acts on the outcome `SendDecision` gives for the old input: a send appends the trimmed text as a user message and clears the input, and nothing else changes. |
| CreateWithAI.Conversation.HandleGenerateContract | src/pages/CreateWithAI.jsx:573-595 | Sent iff a session is open, and then generation starts. |
| CreateWithAI.Conversation.HandleSaveAsPdf | src/pages/CreateWithAI.jsx:636-700 | As written. Not signed in means a login is required. Otherwise the draft is searched among all messages; a blank draft is refused, and any other is uploaded as the AI document under the slugified title. The greeting makes "no draft" impossible. |
| CreateWithAI.Conversation.HandleSaveAsPdfAfterGreeting | src/pages/CreateWithAI.jsx:636-700 | Corrected: no reply after the greeting means no draft. Otherwise the AI document is uploaded under the slugified title, and an empty draft cannot occur. |
| CreateWithAI.Conversation.HandleDownloadPdfOnly | src/pages/CreateWithAI.jsx:702-728 | As written: nothing to download iff there is no assistant message at all, which the greeting rules out. Otherwise the download is the slugified title and the same document `handleSaveAsPdf` uploads: the title, the placed lines and the page count. |
| CreateWithAI.Conversation.HandleDownloadPdfOnlyAfterGreeting | src/pages/CreateWithAI.jsx:702-728 | Corrected: nothing to download iff no reply follows the greeting. Otherwise the download is the slugified title and the same document the corrected save uploads, page count included. |
| MyTemplates.TemplatesKey | src/components/dashboard/MyTemplates.jsx:61-68 | The key is `userTemplates_` followed by the user's id. |
| MyTemplates.ReplaceById | src/components/dashboard/MyTemplates.jsx:78-79 | Same length; entries with the id are replaced and all others are unchanged. |
| MyTemplates.WithoutId | src/components/dashboard/MyTemplates.jsx:93 | Exactly the entries without the id remain. |
| MyTemplates.WithoutIdAppend | src/components/dashboard/MyTemplates.jsx:93 | The filter keeps the order. |
| MyTemplates.WithoutAbsentId | src/components/dashboard/MyTemplates.jsx:93 | Deleting an id nobody has changes nothing. |
| MyTemplates.CreateThenDelete | src/components/dashboard/MyTemplates.jsx:81-96 | Deleting a template just created with a fresh id restores the list. |
| MyTemplates.ReplaceTwice | src/components/dashboard/MyTemplates.jsx:78-79 | Saving the same edit twice equals saving it once. |
| MyTemplates.TemplatesPage.constructor | src/components/dashboard/MyTemplates.jsx:55-57 | No templates, modal closed, no current template. |
| MyTemplates.TemplatesPage.Load | src/components/dashboard/MyTemplates.jsx:59-64 | With a user the page shows the stored list, or none. |
| MyTemplates.TemplatesPage.SaveTemplates | src/components/dashboard/MyTemplates.jsx:66-69 | The list shown and the list stored under the user's key change together. |
| MyTemplates.TemplatesPage.OpenModalForNew | src/components/dashboard/MyTemplates.jsx:117-120 | Opens the modal on `{id: null, name: '', content: ''}`. |
| MyTemplates.TemplatesPage.OpenModalForEdit | src/components/dashboard/MyTemplates.jsx:122-125 | Opens the modal on the template. |
| MyTemplates.TemplatesPage.EditName | src/components/dashboard/MyTemplates.jsx:224 | Changes only the current template's name. |
| MyTemplates.TemplatesPage.EditContent | src/components/dashboard/MyTemplates.jsx:233 | Changes only the current template's content. |
| MyTemplates.TemplatesPage.UploadFile | src/components/dashboard/MyTemplates.jsx:99-111 | A plain-text file's text becomes the content; any other file changes nothing. |
| MyTemplates.TemplatesPage.CloseModal | src/components/dashboard/MyTemplates.jsx:210-247 | Closes the modal and changes nothing else. |
| MyTemplates.TemplatesPage.SaveTemplate | src/components/dashboard/MyTemplates.jsx:71-89 | Saves iff there is a name and a content. With an id the template replaces the entries that have it; without one it is appended as `custom_<now>`. The store mirrors the list, and the modal closes and clears. |
| MyTemplates.TemplatesPage.DeleteTemplate | src/components/dashboard/MyTemplates.jsx:91-97 | After confirmation, exactly the entries with the id are gone, in order, and the store mirrors the list. |
| Dashboard.IsTabActive | src/pages/Dashboard.jsx:21-26 | The documents tab is active iff the path is `/dashboard` or `/dashboard/`; any other tab iff the path starts with the tab's path. |
| Dashboard.AtMostOneActive | src/pages/Dashboard.jsx:10-26 | No path highlights two tabs. |
| Dashboard.OwnPathHighlightsOwnTab | src/pages/Dashboard.jsx:10-26 | A tab's own path highlights that tab and no other. |
| Dashboard.TemplatesPageHighlight | src/pages/Dashboard.jsx:11-26 | Under `/dashboard/templates` only the templates tab is active, not the documents tab. |
| AuthContext.LogoutKeys | src/contexts/AuthContext.jsx:35-43 | Always `user` and `access_token`; the per-user saved-documents and custom-templates keys only with a user. |
| AuthContext.LogoutStore | src/contexts/AuthContext.jsx:35-43 | Exactly the other keys remain, with their values. |
| AuthContext.TemplatesSurviveLogout | src/contexts/AuthContext.jsx:38-42 | The templates page's key survives logout with its value. |
| AuthContext.Restore | src/contexts/AuthContext.jsx:10-23 | No stored text leaves things as they are. A parsable text sets the user. An unparsable one removes `user` and `access_token`. |
| AuthContext.RestoreAfterLogin | src/contexts/AuthContext.jsx:10-33 | The user restored after a reload is the one `login` stored. |
| AuthContext.Auth.constructor | src/contexts/AuthContext.jsx:7-8 | No user, loading. |
| AuthContext.Auth.Init | src/contexts/AuthContext.jsx:10-23 | Restores from the store, and loading ends so the children render. |
| AuthContext.Auth.Login | src/contexts/AuthContext.jsx:25-33 | Stores and sets the user only when given, and the token only when non-empty. A key it does not set keeps its presence and value, so nothing else in the store changes. |
| AuthContext.Auth.Logout | src/contexts/AuthContext.jsx:35-44 | Removes the logout keys and signs out; afterwards nobody is authenticated. |

## Left out

- Case mapping is ASCII only: JavaScript's Unicode `toLowerCase`/`toUpperCase` is not modelled, so non-ASCII letters keep their case. Whitespace (`trim`, `\s`) is JavaScript's full set, in `Common.IsSpace`.
- JavaScript objects: keys keep insertion order. Integer-like keys, which JavaScript orders first, and prototype keys are not modelled; no field id is integer-like.
- Form data whose `participants` is not an array is read as no participants. A `releasee` that is not a record does not render as a card.
- `FileReader` and other asynchronous callbacks are not modelled. Their delivered results (the data URL, the file's text) are parameters. Reads racing each other are not modelled.
- Reading a missing user's id throws in the source (`user.id` with no user). The model makes those paths preconditions instead: the custom-template lookup in `FormCreator.Session.ChooseType` and the writes in `MyTemplates.TemplatesPage`.
- MyTemplates.TemplatesPage.SaveTemplate: ids come from the clock (`now`); two saves in the same millisecond would collide, and that is not excluded.
- jsPDF internals are not modelled: fonts, font sizes, rules (lines), `splitTextToSize` metrics (a parameter), the real `addImage` failure modes (only the bad-format failure is modelled) and `output`/`save`. The PDF's dated download file name is left out for the same reason.
- PdfGenerator.LayoutStaysInMargins: only the first line of a long summary value is kept inside the margins. Later lines of a value that wraps many times can run past the bottom, as in the source.
- The WebRTC session is not modelled, because it is network, media and listener lifetimes: `startSession`, the SDP exchange, the voice assistant component and its snapshot gating. CreateWithAI.Conversation.StopSession models only the state reset at the end of `stopSession` (CreateWithAI.jsx:363-367).
- Sending text over the data channel is an effect that is not modelled; `HandleSendMessage` and `HandleGenerateContract` say only when a send happens.
- Toasts, console logging and error descriptions beyond the stored error text are not modelled.
- The translation function, `new Date()`, `Date.now()` and `JSON.parse`/`JSON.stringify` are parameters.
- FormBuilder's floating-point progress percentage is presentation.
- The agreement text is injected as HTML through `dangerouslySetInnerHTML` and translated paragraphs; only their order and the stop at the first missing one are modelled (`AgreementScreen.AgreementParagraphs`).
- AgreementScreen.AgreementSigning.constructor: the signers are fixed when the screen mounts (the source memoises them and sizes the slot array once); later changes to the form data are not followed.
- The missing-form-type guard of the agreement screen (AgreementScreen.jsx:41-49) is only the predicate `AgreementScreen.GoesBack`. The controller always passes the selected type, and rendering is not modelled.
- `handleUseTemplate` on the templates page and the controller's location-state effect (FormCreator.jsx:50-56) are navigation, which is not modelled. The effect calls the same selection handler that `FormCreator.Session.HandleFormTypeSelect` models.
- `handleSaveDocument`'s upload is a REST call and is not modelled. So are the payload it serialises and the PDF it attaches; `FormCreator.Session.SaveDocument` returns the request's type, title and file name.
- The screens' own `formType` props (review, agreement, export) are not traced through rendering.
- The builder does not accept `onStepCommit` or `onChange`, so no per-step version bump happens at run time. `FormCreator.Session.HandleStepCommit` models the handler itself, not a call from the builder.
- The review screen's `onEdit` callback is the controller's `setFormData`, modelled as `FormCreator.Session.HandleReviewEdit`.
- AccountSettings.jsx is not modelled, because it calls `changeEmail`/`changePassword`, which the auth context never provides. Routes, the static screens and the field widgets are presentation.
- The donation and export screens are only the steps they occupy in the flow.

## Findings

| source | as written | input that shows it | evidently intended | confidence | as-written member | corrected member |
|---|---|---|---|---|---|---|
| src/pages/FormCreator.jsx:84-88 | The form data is seeded with the catalog's own `defaultParticipants` objects, and the participant editor writes into them in place (ParticipantsField.jsx:32). | Select `content-release`, type `Bob` as the first name, start over, and select `content-release` again: the first participant is already `Bob`. | Each session starts from blank copies of the defaults. | not executed | FormCreator.Session.HandleFormTypeSelectShared, FormCreator.DefaultsLeakAcrossSessions | FormCreator.Session.HandleFormTypeSelect, FormCreator.FreshSeedsStayBlank |
| src/components/ReviewScreen.jsx:43-59 | A participant edit copies the array but writes into the participant object shared with the controller's form data. | Edit, change the first participant's first name to `Bob`, press Cancel: the review still shows `Bob`. | Cancel discards every unsaved edit, participant fields included. | not executed | ReviewScreen.ReviewBuffer.HandleParticipantChangeInPlace, ReviewScreen.CancelKeepsParticipantEdit | ReviewScreen.ReviewBuffer.HandleParticipantChange, ReviewScreen.CancelDropsParticipantEdit |
| src/pages/CreateWithAI.jsx:646-656 | The draft is picked from all the messages, including the assistant's opening greeting. The greeting mentions the "Generate Contract" button and "the full agreement", so it matches the keyword pattern (lines 60-78, 123-130). | Open the page and press Save as PDF before the assistant has said anything: the greeting is saved as the contract, and the "no draft" message can never appear. | The greeting is not a draft; with no reply after it the user is told there is no draft. | not executed | CreateWithAI.GreetingIsTheDraft, CreateWithAI.Conversation.HandleSaveAsPdf, CreateWithAI.Conversation.HandleDownloadPdfOnly | CreateWithAI.ConversationDraft, CreateWithAI.Conversation.HandleSaveAsPdfAfterGreeting, CreateWithAI.Conversation.HandleDownloadPdfOnlyAfterGreeting |

Two behaviours of the code that the model keeps as written:

- "Start over" is reachable only from the builder's Back on its first step (src/pages/FormCreator.jsx:234) and from the export screen (src/pages/FormCreator.jsx:276).
- A custom document, a catalog type without default participants, and an unknown type are seeded with a blank Releasor and Releasee pair (src/pages/FormCreator.jsx:62-64, 78-83, 89-95 and 97-104).
