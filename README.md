# Document upload and chat demo — a Dafny model

This project models the logic of a browser demo in which a user picks a
processing mode (OCR or Vision), uploads a file, receives a mocked analysis
and chats about it. Four pieces are modelled:

- **Document service** (`document_service.dfy`, module `DocumentService`):
  the preview chosen for a file (`getFilePreview`), the document record
  built by `processDocument` around the fixed mock result
  (`processMockDocument`), and the keyword-routed chat responder
  `generateDocumentResponse`. These are pure functions.
- **Upload panel** (`upload_area.dfy`, class `UploadAreaComponent.UploadArea`):
  the fields `selectedFile`, `preview`, `isUploading`, `uploadProgress` and
  `isDragging`, updated in place by the handlers. The 100 ms progress
  interval, the settling of a `getFilePreview` call, the settling of the
  `processDocument` promise and the 500 ms reset timeout are explicit
  events (`Tick`, `PreviewSettled`, `Complete`, `ResetAfterSuccess`);
  fields `intervalActive`, `pendingPreviews`, `inFlight` and
  `resetPending` record which of them are pending.
- **Page controller** (`index_page.dfy`, class `IndexPage.Index`): the
  current `document`, the transcript `messages` and `showPreview`, with the
  upload, send, reply, new-chat and close-preview handlers. Which column
  shows the chat is a pure function of that state.
- **Chat box** (`chat.dfy`, class `ChatComponent.Chat`): the `input` field,
  the non-blank submit guard, the send button's `disabled` condition and
  the suggestion buttons.

`types.dfy` holds the records, `strings.dfy` the ASCII string primitives
(`toLowerCase`, `includes`, `startsWith`, `trim`, decimal rendering) and
`wrappers.dfy` `Option` and `Result`.

Modelling choices:

- `ProcessingResult.text`, `entities` and `summary` are declared optional
  (src/lib/types.ts:17-19) but the responder reads them without a check and
  every producer sets all three; the model makes them required.
- The record the service builds names its date field `uploadDate`
  (src/lib/document-service.ts:149) while the declared interface says
  `uploadedAt` (src/lib/types.ts:11); the model follows the service.
- Values from the browser and from `Math.random` are parameters: the
  outcome of the `FileReader` data-URL read (`None` for an error,
  `Some(data)` for a load; an empty result is rejected like an error), the
  random id, the object URL, the clock (`now`, milliseconds), and the
  random choice among canned replies (`pick`).
- Confidences are `real`. `Math.round(c * 100)` is `Percent`, the nearest
  integer with halves rounded up, computed exactly on reals.
- Chat message roles are `User` and `Ai`, as in the code.

Notes on what the code does:

- A rejected preview inside `processDocument` is rethrown
  (src/lib/document-service.ts:155-158), so `ProcessDocument` returns `Err`;
  it is not turned into a zero-confidence result.
- The processing mode is ignored: the feature argument is only logged
  (src/lib/document-service.ts:131); the branch depends on the
  VITE_USE_REAL_GOOGLE_VISION flag (src/lib/document-service.ts:137-139),
  and only the mock branch is modelled, so OCR and Vision give the same result.
- The responder's keyword groups are summary/summarize, then
  entities/people/names, then content/text, and the fallback reply gives the
  name, text length, entity count and summary
  (src/lib/document-service.ts:178-197).
- The page never calls the responder: replies are drawn from five fixed
  strings (src/pages/Index.tsx:48-58).
- "New chat" empties the transcript; it does not restore a greeting
  (src/pages/Index.tsx:67-69).

## Model

| member | source | states |
|---|---|---|
| `Strings.Lower` | src/lib/document-service.ts:176 | the lower-cased query has the same length and maps each ASCII capital to its small letter, leaving other characters alone |
| `Strings.ContainsIff` | src/lib/document-service.ts:178 | the substring test used for `includes` holds exactly when the pattern occurs at some position |
| `Strings.TrimEmptyIffBlank` | src/components/Chat.tsx:27 | `trim()` gives the empty string exactly when the input is all white space |
| `Strings.NatToStringRoundTrip` | src/lib/document-service.ts:197 | the decimal rendering of a count reads back as that count |
| `DocumentService.FilePreview` | src/lib/document-service.ts:99-126 | non-image types resolve to the placeholder; an image resolves to the data URL exactly when the read yields a non-empty result, otherwise the promise rejects |
| `DocumentService.PdfPreviewLikeOtherFiles` | src/lib/document-service.ts:114-120 | a PDF gets the same placeholder as any other non-image type, whatever the read gives |
| `DocumentService.MockResult` | src/lib/document-service.ts:74-96 | the mock result's overall confidence and every entity confidence lie in [0, 1]; text and summary are non-empty; four entities |
| `DocumentService.ProcessDocument` | src/lib/document-service.ts:129-159 | the call fails exactly when the preview rejects, with that error; on success the record is processed, copies name, type and size, carries the preview and holds the mock result |
| `DocumentService.ProcessDocumentIgnoresFeature` | src/lib/document-service.ts:129-139 | OCR and Vision give the same outcome |
| `DocumentService.ProcessedDocumentIsReady` | src/lib/document-service.ts:142-152 | every record `processDocument` returns is ready for questions and has all confidences in [0, 1] |
| `DocumentService.RouteQuery` | src/lib/document-service.ts:176-194 | the first keyword group the lower-cased query mentions, in the order summary, entities, content, decides the template; each route holds exactly when its group matches and no earlier one does |
| `DocumentService.Percent` | src/lib/document-service.ts:188 | the percentage is the integer nearest to confidence times 100, halves up, and lies in [0, 100] for a confidence in [0, 1] |
| `DocumentService.EntityLines` | src/lib/document-service.ts:187-189 | one line per entity, the i-th line formatting the i-th entity |
| `DocumentService.JoinLinesLayout` | src/lib/document-service.ts:187-189 | in the joined text every line occurs whole at its start offset, a line feed follows each line but the last, and offsets grow with the index |
| `DocumentService.GenerateDocumentResponse` | src/lib/document-service.ts:162-198 | without a processed document that has a result the reply is the fixed apology whatever the query; a lower-cased query containing "summary" or "summarize" gets exactly the summary, even if it also has entity or content keywords |
| `DocumentService.ResponseIgnoresCase` | src/lib/document-service.ts:176 | queries that differ only in letter case get the same reply |
| `DocumentService.EntityReplyShape` | src/lib/document-service.ts:182-189 | on the entity route an empty list gives the fixed "didn't detect" string, otherwise the header followed by the joined entity lines |
| `DocumentService.EntityReplyLines` | src/lib/document-service.ts:187-189 | a non-empty entity reply starts with the header and holds each entity's line at its offset, in list order |
| `DocumentService.ContentReply` | src/lib/document-service.ts:192-194 | the content reply is the fixed prefix followed by the full text, and is reached only when no summary or entity keyword matched |
| `DocumentService.DefaultReplyMentions` | src/lib/document-service.ts:197 | the fallback reply contains the document name, the text length, the entity count and the summary |
| `UploadAreaComponent.NextProgress` | src/components/UploadArea.tsx:63-69 | a progress of 95 or more is kept, anything lower grows by 5 |
| `UploadAreaComponent.TicksClimbToCap` | src/components/UploadArea.tsx:62-70 | from a multiple of 5 up to 95, n ticks give the start plus 5n, capped at 95 |
| `UploadAreaComponent.TicksFromZeroBounded` | src/components/UploadArea.tsx:62-70 | starting from 0, ticks alone never take the progress beyond 95 |
| `UploadAreaComponent.UploadArea.constructor` | src/components/UploadArea.tsx:13-18 | the panel starts not dragging, not uploading, at progress 0, with no file and no preview |
| `UploadAreaComponent.UploadArea.DragOver` | src/components/UploadArea.tsx:20-23 | dragging starts |
| `UploadAreaComponent.UploadArea.DragLeave` | src/components/UploadArea.tsx:25-28 | dragging ends |
| `UploadAreaComponent.UploadArea.HandleFile` | src/components/UploadArea.tsx:45-49 | the file is recorded at once and its preview call becomes outstanding; the preview itself waits for the call to settle |
| `UploadAreaComponent.UploadArea.PreviewSettled` | src/components/UploadArea.tsx:49-53 | an outstanding preview call settles, in any order: a resolved preview is stored whatever file is selected by then, a rejection leaves the preview as it was |
| `UploadAreaComponent.UploadArea.HandleDrop` | src/components/UploadArea.tsx:30-37 | dragging ends; with at least one file only the first is handled, with none the selection and the outstanding previews are unchanged |
| `UploadAreaComponent.UploadArea.HandleFileSelect` | src/components/UploadArea.tsx:39-43 | with at least one file only the first is handled, with none nothing changes |
| `UploadAreaComponent.UploadArea.ProcessFile` | src/components/UploadArea.tsx:56-70 | without a selected file no state changes; otherwise the upload starts, the interval runs and the selected file goes to processing |
| `UploadAreaComponent.UploadArea.Tick` | src/components/UploadArea.tsx:62-70 | one interval firing applies the progress step and clears the interval once progress reached 95 |
| `UploadAreaComponent.UploadArea.Complete` | src/components/UploadArea.tsx:72-90 | on success the page receives the processed record and progress becomes 100 with the reset pending; on failure the upload ends at progress 0 with the selected file kept; the interval is cleared either way |
| `UploadAreaComponent.UploadArea.ResetAfterSuccess` | src/components/UploadArea.tsx:78-84 | the reset ends the upload, puts progress to 0 and clears the file and its preview |
| `UploadAreaComponent.UploadArea.CancelUpload` | src/components/UploadArea.tsx:93-96 | only the selected file and the preview are cleared |
| `UploadAreaComponent.LatePreviewScenario` | src/components/UploadArea.tsx:45-54 | a preview landing after a cancel leaves a preview with no file; one landing after a later PDF drop shows the image's preview beside the PDF |
| `UploadAreaComponent.SuccessfulUploadScenario` | src/components/UploadArea.tsx:56-91 | a select-process-tick-complete run hands the page exactly the record `processDocument` builds and shows at most 95 before the result; afterwards no file and no preview remain selected |
| `ChatComponent.SendDisabled` | src/components/Chat.tsx:104 | the send button is disabled exactly when the input is all white space |
| `ChatComponent.Chat.constructor` | src/components/Chat.tsx:13 | the input starts empty |
| `ChatComponent.Chat.ChangeInput` | src/components/Chat.tsx:97 | typing replaces the input |
| `ChatComponent.Chat.HandleSubmit` | src/components/Chat.tsx:25-31 | a send happens exactly when the button is enabled; it sends the raw untrimmed input and empties the field; a rejected submit leaves the input unchanged |
| `ChatComponent.Chat.ClickSuggestion` | src/components/Chat.tsx:51-71 | with an empty transcript a suggestion button sends its fixed text, which passes the guard, without touching the input |
| `IndexPage.GreetingNamesDocument` | src/pages/Index.tsx:19-26 | the greeting is an assistant message containing the document's name |
| `IndexPage.ChatPanelCount` | src/pages/Index.tsx:101-125 | no chat panel without a document, exactly one with a document |
| `IndexPage.ChatPanelPlacement` | src/pages/Index.tsx:101-125 | the middle column shows the chat exactly when there is a document and the preview is closed; the right column exactly when there is a document and the preview is shown |
| `IndexPage.Index.constructor` | src/pages/Index.tsx:11-14 | the active feature starts as OCR, with no document, an empty transcript, the preview closed and no chat panel |
| `IndexPage.Index.SelectFeature` | src/pages/Index.tsx:84-87 | the toggle sets the active feature |
| `IndexPage.Index.HandleUploadComplete` | src/pages/Index.tsx:17-33 | the uploaded record replaces the document wholesale, the transcript becomes the single greeting naming it, the preview is shown, and exactly one chat panel is on screen |
| `IndexPage.Index.HandleSendMessage` | src/pages/Index.tsx:35-45 | the user message is appended at the end, earlier messages are unchanged, and one reply becomes pending |
| `IndexPage.Index.DeliverAiReply` | src/pages/Index.tsx:47-64 | the reply appended after is an assistant message whose content is one of the five fixed strings |
| `IndexPage.Index.HandleNewChat` | src/pages/Index.tsx:67-69 | the transcript becomes empty; document and preview flag are unchanged |
| `IndexPage.Index.ClosePreview` | src/pages/Index.tsx:71-73 | only `showPreview` changes, to false; the number of chat panels stays the same (the chat moves to the middle column) |
| `IndexPage.Index.SubmitFromChat` | src/components/Chat.tsx:25-31 | through the chat, a non-blank input is appended as typed and the field cleared; a blank one changes neither transcript nor input; exactly one reply becomes pending on a send and none on a blank submit |
| `IndexPage.ChatSubmitScenario` | src/components/Chat.tsx:25-31 | typing then submitting after an upload: a non-blank input yields greeting, the typed message and a canned reply with the field cleared; a blank input leaves only the greeting, no pending reply and the input as typed |
| `IndexPage.ChatSessionScenario` | src/pages/Index.tsx:17-69 | upload, send and reply leave greeting, user message and a canned reply in that order; a new chat then empties the transcript and keeps the document |

## Left out

- The Google Vision client and the live processing path (src/lib/document-service.ts:12-71): a foreign library reached over the network and switched by an environment variable; only the mock path is modelled.
- Delays and timers (`delay`, `setTimeout`, `setInterval`): they become explicit events; their durations are not modelled.
- Browser facilities: the `FileReader` read, `URL.createObjectURL`, `new Date()`/`Date.now()`, `Math.random` and `scrollIntoView` are parameters or omitted.
- `DocumentService.Percent`: computed exactly on reals; the floating-point rounding of `confidence * 100` is not modelled.
- `Strings.Lower`, `Strings.TrimEmptyIffBlank`: ASCII only; Unicode case mapping and non-ASCII white space are not modelled, and string length counts characters rather than UTF-16 units.
- Overlapping `processFile` calls and the race between their results: `UploadArea.ProcessFile` requires that no upload is running, as the "Process Document" button is only shown then.
- `IndexPage.Index.HandleSendMessage` requires a document, as the chat that calls it is only shown with one.
- The effect on `document` fires when the reference changes; every upload yields a new record, so the model runs it on every upload and does not model re-setting the same object.
- The chat box is remounted when it moves between columns, which empties its input; that remount is not modelled.
- Rendering and styling: the preview panel, feature toggle, processing options, header, animation constants and environment typings.
