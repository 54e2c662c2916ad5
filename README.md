# A verified model of the document, theme and tooling logic of vue3ai

The repository is a collection of front-end demos (React and Vue) with a small agent back end.
This project models, in Dafny, the parts of it that hold real sequential logic, and proves what
those parts promise:

- **the document content cache** (`utils/documentCache.ts`): a map from document id to content
  plus a time stamp, with a read-time time-to-live check and first-inserted eviction;
- **the document preview pipeline** (both `DocumentPreview.tsx` components): the
  visibility, error and no-content gates, the normalisation of a declared type, the dispatch
  to a preview kind, the base64-to-bytes conversion of PDF strings (forgiving-base64 decoding
  as `atob` performs it, per section 4 of RFC 4648), the buffer copy, and hydration from the
  cache;
- **the PDF page-render coordinator** (`PDFPreview.tsx` and its copy inside
  `components/DocumentPreview.tsx`): the rendering flag, the single pending-page slot, the
  render task, `cleanup`, the page-change effect, load-error classification and navigation,
  with every `await` an explicit event;
- **the CSV splitter** (`CSVPreview.tsx`) and **the upload handler** (`pages/Documents.tsx`);
- **the two image viewers** (`ImagePreview.tsx`, `ModalImagePreview.tsx`): zoom clamping,
  rotation with JavaScript's `%`, dragging, the wheel and the key maps;
- **the theme registry and editor** (`ThemeContext.tsx`, `CustomThemeEditor.tsx`);
- **the Vue theme and i18n composables** (`useTheme.ts`, `useI18n.ts`), with both
  translation tables;
- **the users and organisations pages** (`Users.tsx`, `Organizations.tsx`): delete by
  filter, replace by id, append;
- **three string utilities**: the SQL guard and row formatter of the database tool
  (`dbTool.ts`), the utility-class CSS generator (`tailwind-engine.js`) and the emoji
  shortcode plugin (`vite-plugin-emoji.ts`).

Code that changes state step by step is modelled imperatively: `DocumentCache`, `PdfViewer`,
the two viewers, `ThemeProvider`, `ThemeStore`, `I18n` and `DocumentsPage` are classes whose
fields are the source's fields or refs, and each of their methods is specified by a pure step
function on a state datatype (`ensures State() == Step(old(State()), ...)`); the properties are
proved as lemmas about those step functions. The loops of `base64ToArrayBuffer`,
`generateStyles` and the emoji `transform` are methods with loop invariants, proved against a
reference function. Pure code (filters, maps, decision chains) is modelled as functions.

Time (`Date.now()`), `window.confirm`, storage reads, the media-query state (which
`getCurrentTheme` combines with the root element's `dark` class, a field of the theme store),
the file reader's result and the database's answer are inputs.
Shared modules: `Wrappers` (an `Option` type and two facts about sequences), `JsString` (the string built-ins used:
`includes`, `startsWith`, `toLowerCase`, `trim`, `split`, `join`, `||`), `Base64` (`atob` and,
as its inverse, `btoa`), `DocumentModel` (the `Document` record and its content type) and
`RecordList` (the filter and map by id that both list pages use).

Where the code and its description or tests disagree, the model follows the code (the one
defect found, in the utility-class engine, is modelled both as written and corrected; see
Findings):

- a file name without a `'.'` gives the whole name as the document type (`split('.').pop()`);
- `base64ToArrayBuffer` keeps the piece between the first and the second comma
  (`split(',')[1]`), not everything after the first comma;
- the en-US table names Chinese `Chinese`, although a test expects `中文` for it
  (`apps/frontend/sse/src/test/themeLanguage.test.ts` line 32);
- the document preview test expects the "unsupported" message for a document without
  content, whereas the no-content check comes before any type check.

## Model

| member | source | states |
|---|---|---|
| ContentCache.Without | apps/frontend/react/src/utils/documentCache.ts:22 | the key order after a delete: every occurrence of the key gone, all other keys kept in order |
| ContentCache.DocumentCache.constructor | apps/frontend/react/src/utils/documentCache.ts:7-10 | a new cache is empty and keeps the given limits, by default 100 entries and 1,800,000 ms |
| ContentCache.DocumentCache.Get | apps/frontend/react/src/utils/documentCache.ts:13-27 | `get` returns exactly what `Lookup` says (content only while the age is below the time-to-live) and leaves the state `AfterGet` gives (an expired entry deleted) |
| ContentCache.DocumentCache.Set | apps/frontend/react/src/utils/documentCache.ts:30-44 | `set` leaves the state `AfterSet` gives: the eviction of the first key when full (skipped for the key `""`), then `Map.set` (position kept for a present key, appended otherwise) |
| ContentCache.DocumentCache.Remove | apps/frontend/react/src/utils/documentCache.ts:47-49 | `remove` deletes that key from the map and the order |
| ContentCache.DocumentCache.Clear | apps/frontend/react/src/utils/documentCache.ts:52-54 | `clear` empties map and order and keeps the limits |
| ContentCache.DocumentCache.Size | apps/frontend/react/src/utils/documentCache.ts:57-59 | `size` is the number of entries, which equals the length of the key order |
| ContentCache.OrderLengthIsSize | apps/frontend/react/src/utils/documentCache.ts:57-59 | under the well-formedness invariant the key order has as many keys as the map |
| ContentCache.WfPreserved | apps/frontend/react/src/utils/documentCache.ts:13-54 | every operation keeps each key listed exactly once in the key order |
| ContentCache.ExpiredAtTtl | apps/frontend/react/src/utils/documentCache.ts:18 | an entry whose age equals the time-to-live is already expired |
| ContentCache.ExpiredGetDeletesOnlyThatKey | apps/frontend/react/src/utils/documentCache.ts:17-26 | an expired `get` returns nothing, deletes that key and keeps every other entry and their order |
| ContentCache.GetOfLiveOrMissingChangesNothing | apps/frontend/react/src/utils/documentCache.ts:13-27 | a `get` of a live or a missing entry leaves the cache unchanged |
| ContentCache.SetThenGet | apps/frontend/react/src/utils/documentCache.ts:40-43 | `set(k, c)` followed by `get(k)` at the same instant returns `c` when the time-to-live is positive |
| ContentCache.SetEvictsOldest | apps/frontend/react/src/utils/documentCache.ts:32-37 | on a full cache `set` first removes the earliest-inserted key, even when `k` is already present |
| ContentCache.EmptyOldestKeyOverfills | apps/frontend/react/src/utils/documentCache.ts:33-36 | when the oldest key is `""` the eviction is skipped and the cache grows past its limit |
| ContentCache.SetKeepsSizeBound | apps/frontend/react/src/utils/documentCache.ts:30-44 | without the key `""`, `set` never takes a cache at or below its limit above it |
| ContentCache.OverwriteKeepsPosition | apps/frontend/react/src/utils/documentCache.ts:40-43 | overwriting a present key updates content and time stamp but keeps its place in the eviction order |
| ContentCache.OverwriteOldestMovesToEnd | apps/frontend/react/src/utils/documentCache.ts:32-43 | overwriting the oldest key of a full cache evicts it first, so it moves to the end of the order |
| ContentCache.RemoveDeletesOnlyThatKey | apps/frontend/react/src/utils/documentCache.ts:47-49 | `remove` deletes only the given key |
| ContentCache.FillKeepsInsertionOrder | apps/frontend/react/src/utils/documentCache.ts:30-44 | filling an empty cache with up to `maxSize` distinct ids keeps all of them, in insertion order |
| ContentCache.OneTooManyEvictsFirst | apps/frontend/react/src/utils/documentCache.ts:32-43 | inserting `maxSize + 1` distinct non-empty ids into an empty cache evicts exactly the first |
| DocumentModel.Document.constructor | apps/frontend/react/src/components/previews/types.ts:2-10 | a document record holds the given id, name, type, size, date, content and preview URL |
| Base64.StripWhitespace | apps/frontend/react/src/components/DocumentPreview.tsx:79 | the first step of forgiving-base64 decoding: a character occurs in the result exactly when it occurs in the input and is not ASCII whitespace, and the result is no longer than the input |
| Base64.StripWhitespaceConcat | apps/frontend/react/src/components/DocumentPreview.tsx:79 | stripping works piece by piece and keeps the order: the stripped form of `a + b` is that of `a` followed by that of `b` |
| Base64.StripWhitespaceChar | apps/frontend/react/src/components/DocumentPreview.tsx:79 | a single character is dropped when it is ASCII whitespace and kept otherwise; with `StripWhitespaceConcat` this fixes the result for every input |
| Base64.StripWhitespaceCounts | apps/frontend/react/src/components/DocumentPreview.tsx:79 | each character that is not whitespace is kept as many times as it occurs in the input; whitespace never remains |
| Base64.DecodeGroups | apps/frontend/react/src/components/DocumentPreview.tsx:79 | each full group of four characters decodes to three octets, a final group of two or three to one or two |
| Base64.EncodeGroups | apps/frontend/react/src/components/DocumentPreview.tsx:79 | the unpadded base64 text of some octets uses only the alphabet and has the expected length |
| Base64.Atob | apps/frontend/react/src/components/DocumentPreview.tsx:79 | `atob` yields a binary string (every character code below 256) or throws |
| Base64.Btoa | apps/frontend/react/src/components/DocumentPreview.tsx:79 | the encoding `atob` inverts is padded to a multiple of four characters |
| Base64.AtobBtoa | apps/frontend/react/src/components/DocumentPreview.tsx:79 | decoding the base64 text of any octets gives back exactly those octets |
| Base64.DecodeEncode | apps/frontend/react/src/components/DocumentPreview.tsx:79 | decoding the unpadded groups of any octets gives back the octets |
| Base64.StripWhitespaceIdempotent | apps/frontend/react/src/components/DocumentPreview.tsx:79 | whitespace anywhere in the input does not change what `atob` returns |
| Base64.ForeignCharFails | apps/frontend/react/src/components/DocumentPreview.tsx:79 | a character outside the alphabet that is neither whitespace nor `=` makes `atob` throw |
| Base64.LengthOneModFourFails | apps/frontend/react/src/components/DocumentPreview.tsx:79 | a length of 1 modulo 4 after whitespace and padding are removed makes `atob` throw |
| Base64.AtobLength | apps/frontend/react/src/components/DocumentPreview.tsx:79-80 | the decoded length is three quarters of the unpadded length, rounded down |
| Base64.PdfHeaderText | apps/frontend/react/src/components/DocumentPreview.tsx:163 | `JVBERi0x`, the start of the base64 text of a PDF file, decodes to `%PDF-1`, the start of the PDF header |
| JsString.IncludesIffOccurs | apps/frontend/react/src/components/DocumentPreview.tsx:123 | `includes` holds exactly when the pattern occurs at some index |
| JsString.ToLower | apps/frontend/react/src/components/DocumentPreview.tsx:120 | `toLowerCase` keeps the length and lower-cases each ASCII letter in place |
| JsString.ToLowerIdempotent | apps/frontend/react/src/components/DocumentPreview.tsx:120 | lower-casing twice is lower-casing once |
| JsString.Trim | apps/frontend/react/src/components/previews/CSVPreview.tsx:22 | `trim` gives an infix of the input with only whitespace before and after it, which neither starts nor ends with whitespace; a trimmed string is left alone |
| JsString.TrimUnique | apps/frontend/react/src/components/previews/CSVPreview.tsx:22 | any infix with only whitespace around it that neither starts nor ends with whitespace is the result of `trim`: the result is exactly the input with its leading and trailing whitespace removed |
| JsString.Split | apps/frontend/react/src/components/previews/CSVPreview.tsx:19 | `split` on one character gives one more piece than there are separators, and no piece holds the separator |
| JsString.JoinSplit | apps/frontend/react/src/components/previews/CSVPreview.tsx:19-22 | joining the pieces of a split with the separator gives back the string |
| JsString.SplitJoin | apps/frontend/react/src/components/previews/CSVPreview.tsx:19-22 | splitting a join of separator-free parts gives back the parts |
| JsString.FirstMatch | apps/frontend/react/src/components/DocumentPreview.tsx:122-143 | the index of the first table row whose substring occurs, with no earlier row occurring |
| PreviewDispatch.NormalizeTypeIsChain | apps/frontend/react/src/components/previews/DocumentPreview.tsx:100-123 | the table-driven normalisation is the source's chain of `includes` tests: each MIME substring, in the listed order, is tried only when no earlier one occurs in the lower-cased type, and a type matching none is left lower-cased |
| PreviewDispatch.NormalizeTypeCaseInsensitive | apps/frontend/react/src/components/DocumentPreview.tsx:120 | the normalisation depends on the type only through `type.toLowerCase()` |
| PreviewDispatch.NormalizeTypeIdempotent | apps/frontend/react/src/components/DocumentPreview.tsx:119-143 | normalising a normalised type changes nothing |
| PreviewDispatch.PdfPayload | apps/frontend/react/src/components/DocumentPreview.tsx:75-77 | when the string contains the data-URL prefix the payload holds no comma (it is a piece of the split on `,`); otherwise it is the whole string |
| PreviewDispatch.PdfPayloadOfDataUrl | apps/frontend/react/src/components/DocumentPreview.tsx:75-77 | the prefix of a data URL is taken off its comma-free payload |
| PreviewDispatch.BytesOf | apps/frontend/react/src/components/DocumentPreview.tsx:80-83 | byte i of the buffer is the character code i of the binary string, and the lengths agree |
| PreviewDispatch.DecodeDataUrlOfBtoa | apps/frontend/react/src/components/DocumentPreview.tsx:73-85 | a data URL built from the base64 text of some octets converts to exactly those octets |
| PreviewDispatch.Base64ToArrayBuffer | apps/frontend/react/src/components/DocumentPreview.tsx:73-85 | the loop fills a fresh buffer with exactly the decoded octets, and fails exactly when `atob` throws |
| PreviewDispatch.CopyArrayBuffer | apps/frontend/react/src/components/DocumentPreview.tsx:88-90 | `buffer.slice(0)` is a fresh buffer with the same contents |
| PreviewDispatch.GatesComeFirst | apps/frontend/react/src/components/DocumentPreview.tsx:97-117 | not visible gives loading, then an error gives the error view, then missing or `null` content gives no content; in those cases the type is never consulted and the error state is unchanged |
| PreviewDispatch.ImageViewIff | apps/frontend/react/src/components/DocumentPreview.tsx:146-148 | the image view is chosen exactly for an image type with a truthy preview URL, and shows that URL |
| PreviewDispatch.PdfViewIff | apps/frontend/react/src/components/DocumentPreview.tsx:151-172 | a PDF is shown exactly from a byte buffer (passed on as an equal copy) or from a string with the data-URL prefix or the `JVBERi0` header that decodes |
| PreviewDispatch.PdfDecodeFailureShowsErrorNext | apps/frontend/react/src/components/previews/DocumentPreview.tsx:136-151 | a PDF string that fails to decode records `Failed to process PDF data: ` and the message, falls through to the fallback, and the next render shows that error |
| PreviewDispatch.OtherPdfStringUnsupported | apps/frontend/react/src/components/previews/DocumentPreview.tsx:131-181 | a PDF string with neither the prefix nor the header gets the unsupported fallback |
| PreviewDispatch.TextKindsNeedString | apps/frontend/react/src/components/DocumentPreview.tsx:174-187 | txt, csv and md are shown only for string content; any other content falls back |
| PreviewDispatch.OfficeNeedsBytes | apps/frontend/react/src/components/previews/DocumentPreview.tsx:169-181 | Office types are shown only for a byte buffer; string content gets the unsupported fallback |
| PreviewDispatch.UnknownTypeUnsupported | apps/frontend/react/src/components/previews/DocumentPreview.tsx:125-181 | a normalised type in none of the lists gets the unsupported fallback whatever the content |
| PreviewDispatch.ErrorChangesOnlyOnPdfFailure | apps/frontend/react/src/components/previews/DocumentPreview.tsx:136-151 | rendering changes the error state only when a PDF string fails to decode |
| PreviewDispatch.Hydrate | apps/frontend/react/src/components/DocumentPreview.tsx:43-49 | any cached value other than `undefined`, `null` included, replaces the document's content, and the cache does what `get` does |
| PdfRender.MessageOf | apps/frontend/react/src/components/previews/PDFPreview.tsx:164 | the message of a failure, or `Unknown error` when it has none; never empty |
| PdfRender.CancelTask | apps/frontend/react/src/components/previews/PDFPreview.tsx:74-81 | cancelling clears the render task and changes nothing but the chains' phases |
| PdfRender.Navigate | apps/frontend/react/src/components/previews/PDFPreview.tsx:210-214 | `navigatePage(n)` sets the page to n exactly when 1 <= n <= the page count (0 when unknown) and changes nothing else |
| PdfRender.PdfViewer.constructor | apps/frontend/react/src/components/DocumentPreview.tsx:36-476 | a viewer starts on page 1 with no document, no error, no render task and nothing pending, records its cache key (`'pdf-document'` or the document id), and starts with the `loading` flag it is given: `false` for the stand-alone preview, the enclosing preview's shared flag for the inline one |
| PdfRender.PdfViewer.CancelRenderTask | apps/frontend/react/src/components/previews/PDFPreview.tsx:74-81 | the refs after the cancel, as `CancelTask` gives them |
| PdfRender.PdfViewer.CompleteChain | apps/frontend/react/src/components/previews/PDFPreview.tsx:152-154 | a finished chain is marked done, and one started by `loadPDF` ends the loading state |
| PdfRender.PdfViewer.RenderPage | apps/frontend/react/src/components/previews/PDFPreview.tsx:61-85 | `renderPage` up to its first `await`: queue while rendering, otherwise set the flag, clear the pending slot, cancel the task and ask for the page |
| PdfRender.PdfViewer.FinishDrawing | apps/frontend/react/src/components/previews/PDFPreview.tsx:112-120 | after a draw the flag is cleared and a pending page, if any, is taken and rendered next |
| PdfRender.PdfViewer.CleanupRefs | apps/frontend/react/src/components/previews/PDFPreview.tsx:33-50 | `cleanup` as the step function `Cleanup` gives it |
| PdfRender.PdfViewer.LoadPdf | apps/frontend/react/src/components/previews/PDFPreview.tsx:131-147 | `loadPDF` sets loading, clears the error, cleans up, writes the original data to the cache under the viewer's key and waits for the document |
| PdfRender.PdfViewer.OnDocumentLoaded | apps/frontend/react/src/components/previews/PDFPreview.tsx:147-152 | the loaded document records its page count and its chain renders the captured page |
| PdfRender.PdfViewer.OnPageChange | apps/frontend/react/src/components/previews/PDFPreview.tsx:196-207 | the page-change effect renders the current page only when a document is loaded and nothing is loading |
| PdfRender.PdfViewer.OnPageLoaded | apps/frontend/react/src/components/previews/PDFPreview.tsx:84-110 | a page arrives: it is stored and drawn when a canvas is ready, otherwise the draw is skipped |
| PdfRender.PdfViewer.OnDrawDone | apps/frontend/react/src/components/previews/PDFPreview.tsx:105-120 | a finished draw records the page drawn, clears the task and goes on with the pending page |
| PdfRender.PdfViewer.OnRejected | apps/frontend/react/src/components/previews/PDFPreview.tsx:121-128 | a rejected `await` ends its chain, clears the flags and sets the error message the catching code chooses |
| PdfRender.PdfViewer.OnUnmount | apps/frontend/react/src/components/previews/PDFPreview.tsx:52-58 | unmounting cleans up and forgets the document |
| PdfRender.PdfViewer.NavigatePage | apps/frontend/react/src/components/DocumentPreview.tsx:656-660 | the inline copy's navigation, as `Navigate` gives it |
| PdfRender.RequestWhileRenderingOnlyQueues | apps/frontend/react/src/components/previews/PDFPreview.tsx:64-67 | a request while rendering only fills the pending slot; nothing else changes |
| PdfRender.LastRequestWins | apps/frontend/react/src/components/previews/PDFPreview.tsx:64-67 | of several requests made while rendering, the last one is kept |
| PdfRender.StartRenderCancelsCurrentDraw | apps/frontend/react/src/components/previews/PDFPreview.tsx:70-81 | starting a render sets the flag, clears the pending slot and cancels and clears the current render task |
| PdfRender.FailureClearsFlags | apps/frontend/react/src/components/previews/PDFPreview.tsx:121-128 | a failure inside `renderPage` leaves no rendering flag and no pending page |
| PdfRender.CancellationSetsNoError | apps/frontend/react/src/components/previews/PDFPreview.tsx:157-161 | a `RenderingCancelledException` never sets an error message, in either catcher |
| PdfRender.OtherFailuresAreReported | apps/frontend/react/src/components/previews/PDFPreview.tsx:163-177 | any other failure is reported: classified for `loadPDF`, as `Failed to render page: ` and the message for the page effect |
| PdfRender.CleanupClearsRefs | apps/frontend/react/src/components/previews/PDFPreview.tsx:33-50 | `cleanup` leaves render task, page, rendering flag and pending slot all cleared |
| PdfRender.NavigateBounds | apps/frontend/react/src/components/previews/PDFPreview.tsx:210-214 | navigation moves only to a page in 1..page count, always does so for such a page, and never moves before a document is loaded |
| PdfRender.LoadErrorIsFirstMatch | apps/frontend/react/src/components/previews/PDFPreview.tsx:164-177 | the load-error message is decided by the first of `worker`, `Invalid PDF`, `detached`, `canvas` the message contains, else `Failed to load PDF: ` and the message |
| PdfRender.MissingMessageIsUnknown | apps/frontend/react/src/components/previews/PDFPreview.tsx:164-176 | a failure without a message is reported as `Failed to load PDF: Unknown error` |
| PdfRender.FirstRequestStarts | apps/frontend/react/src/components/previews/PDFPreview.tsx:196-198 | the page effect with nothing being drawn starts a chain waiting for the current page |
| PdfRender.RequestWhileDrawing | apps/frontend/react/src/components/previews/PDFPreview.tsx:64-67 | navigating while a page is drawn only queues the new page; the drawing chain and the drawn pages are untouched |
| PdfRender.DrawCycle | apps/frontend/react/src/components/previews/PDFPreview.tsx:104-120 | a chain gets its page, draws it, and goes on with the pending page, if any |
| PdfRender.CoalescedRequests | apps/frontend/react/src/components/previews/PDFPreview.tsx:113-120 | requests for pages 2, 3, 4 and 5 made while page 1 is drawn draw only pages 1 and 5 |
| PdfRender.CleanupDoesNotStopPendingPage | apps/frontend/react/src/components/previews/PDFPreview.tsx:35-42 | `cleanup` does not stop a render still waiting for its page: the page is drawn afterwards |
| CsvPreview.TrimAll | apps/frontend/react/src/components/previews/CSVPreview.tsx:22 | every cell is trimmed, one cell per piece |
| CsvPreview.ParseRow | apps/frontend/react/src/components/previews/CSVPreview.tsx:22 | a row has one cell more than its line has commas, each trimmed and comma-free |
| CsvPreview.ParseCsv | apps/frontend/react/src/components/previews/CSVPreview.tsx:19-23 | one row per newline-separated segment (a trailing empty one included), each row has at least one cell and every cell is trimmed |
| CsvPreview.RowsAreLines | apps/frontend/react/src/components/previews/CSVPreview.tsx:19-22 | row i is the parse of line i, and no cell holds a newline |
| CsvPreview.LineRoundTrip | apps/frontend/react/src/components/previews/CSVPreview.tsx:20-23 | a line whose cells carry no surrounding whitespace is recovered by joining its row with `,` |
| CsvPreview.ContentRoundTrip | apps/frontend/react/src/components/previews/CSVPreview.tsx:19-23 | such content is recovered by joining the rows with `,` and the lines with a newline |
| CsvPreview.JoinRows | apps/frontend/react/src/components/previews/CSVPreview.tsx:19-23 | one joined line per row |
| CsvPreview.NoCarriageReturnAtCellEdges | apps/frontend/react/src/components/previews/CSVPreview.tsx:22 | a Windows line end leaves no `\r` at either end of a cell |
| CsvPreview.TrailingNewlineGivesEmptyRow | apps/frontend/react/src/components/previews/CSVPreview.tsx:19 | a trailing newline produces a last row of one empty cell |
| CsvPreview.ParseAndCache | apps/frontend/react/src/components/previews/CSVPreview.tsx:16-27 | the table is the parse of the content, and the raw content is cached under the key (`csv-document`, or the document id in the inline copy) |
| DocumentsPage.PieceAt | apps/frontend/react/src/pages/Documents.tsx:41 | `split(sep)[i]` exists exactly when there are at least i separators, and holds no separator |
| DocumentsPage.LastPiece | apps/frontend/react/src/pages/Documents.tsx:41 | `split('.').pop()` holds no separator |
| DocumentsPage.DerivedType | apps/frontend/react/src/pages/Documents.tsx:41 | the derived type is never empty when the fallback is not, and is the fallback or a piece without `/` or without `.` |
| DocumentsPage.DocumentType | apps/frontend/react/src/pages/Documents.tsx:56 | a new document's type is never empty (`unknown` at worst) |
| DocumentsPage.PreviewUrlFor | apps/frontend/react/src/pages/Documents.tsx:63-65 | an image type gets the reader's data URL as its preview URL; other types get none |
| DocumentsPage.DocumentsPage.constructor | apps/frontend/react/src/pages/Documents.tsx:21-26 | the page starts with the four sample documents, without content |
| DocumentsPage.DocumentsPage.HandleFileUpload | apps/frontend/react/src/pages/Documents.tsx:30-78 | no file does nothing; a file over 5 MiB is appended at once with `null` content and is not read; any other file is read in the mode `ReadModeOf` gives |
| DocumentsPage.DocumentsPage.OnReaderLoad | apps/frontend/react/src/pages/Documents.tsx:52-68 | the reader's callback appends one new document with the text read and, for an image type, the same text as preview URL; existing entries are unchanged |
| DocumentsPage.SubtypeWins | apps/frontend/react/src/pages/Documents.tsx:41 | a MIME type `a/b` with a non-empty subtype gives `b` |
| DocumentsPage.TextPlainGivesPlain | apps/frontend/react/src/pages/Documents.tsx:56 | `text/plain` gives `plain` |
| DocumentsPage.ExtensionWhenNoSubtype | apps/frontend/react/src/pages/Documents.tsx:41 | without a MIME subtype a name `stem.ext` gives `ext` |
| DocumentsPage.NameWithoutDotIsType | apps/frontend/react/src/pages/Documents.tsx:41 | without a MIME subtype a name with no `.` is taken whole as the type |
| DocumentsPage.FallbackWhenNothingElse | apps/frontend/react/src/pages/Documents.tsx:41 | with neither a MIME subtype nor a name the fallback is used |
| DocumentsPage.FallbacksAgree | apps/frontend/react/src/pages/Documents.tsx:71 | the read-mode derivation and the document type agree except where the fallbacks differ |
| DocumentsPage.ReadModeFollowsDocumentType | apps/frontend/react/src/pages/Documents.tsx:71-77 | a file is read as a data URL exactly when its document type is an image type or `pdf` |
| DocumentsPage.LimitIsExclusive | apps/frontend/react/src/pages/Documents.tsx:36 | the limit is 5,242,880 bytes and a file of exactly that size is still read |
| ImageViewer.JsRem360 | apps/frontend/react/src/components/previews/ImagePreview.tsx:48-55 | JavaScript's `% 360`: the remainder lies strictly inside (-360, 360), takes the sign of the dividend and differs from it by a multiple of 360 |
| ImageViewer.ZoomInView | apps/frontend/react/src/components/previews/ImagePreview.tsx:38-40 | `zoomIn` adds 0.2 when that stays at most 3, gives exactly 3 otherwise, and changes nothing else |
| ImageViewer.ZoomOutView | apps/frontend/react/src/components/previews/ImagePreview.tsx:43-45 | `zoomOut` subtracts 0.2 when that stays at least 0.5, gives exactly 0.5 otherwise, and changes nothing else |
| ImageViewer.RotateLeftView | apps/frontend/react/src/components/previews/ImagePreview.tsx:48-50 | `rotateLeft` subtracts 90 modulo 360, staying inside (-360, 360) |
| ImageViewer.RotateRightView | apps/frontend/react/src/components/previews/ImagePreview.tsx:53-55 | `rotateRight` adds 90 modulo 360, staying inside (-360, 360) |
| ImageViewer.Reset | apps/frontend/react/src/components/previews/ImagePreview.tsx:31-35 | `resetView` sets zoom 1, rotation 0 and offset (0, 0) and keeps the drag state |
| ImageViewer.MouseDown | apps/frontend/react/src/components/previews/ImagePreview.tsx:58-64 | a press starts a drag anchored so that cursor minus anchor is the current offset |
| ImageViewer.MouseMove | apps/frontend/react/src/components/previews/ImagePreview.tsx:67-74 | a move sets the offset to cursor minus anchor only while dragging |
| ImageViewer.MouseUp | apps/frontend/react/src/components/previews/ImagePreview.tsx:77-79 | a release ends the drag and changes nothing else |
| ImageViewer.Wheel | apps/frontend/react/src/components/previews/ImagePreview.tsx:82-89 | `deltaY < 0` zooms in; any other wheel turn zooms out |
| ImageViewer.InlineKeyAction | apps/frontend/react/src/components/previews/ImagePreview.tsx:93-117 | the inline viewer's keys act only while the controls are shown, and never close anything |
| ImageViewer.ModalKeyAction | apps/frontend/react/src/components/previews/ModalImagePreview.tsx:84-113 | the modal closes exactly on Escape |
| ImageViewer.InlineImageViewer.constructor | apps/frontend/react/src/components/previews/ImagePreview.tsx:11-18 | the viewer starts at zoom 1, rotation 0, offset (0, 0), not dragging, controls hidden, modal closed; the copy of this viewer in `components/DocumentPreview.tsx` (lines 206-212) does the same |
| ImageViewer.InlineImageViewer.ZoomIn | apps/frontend/react/src/components/previews/ImagePreview.tsx:38-40 | the state `ZoomInView` gives; the copy of this viewer in `components/DocumentPreview.tsx` (lines 232-234) does the same |
| ImageViewer.InlineImageViewer.ZoomOut | apps/frontend/react/src/components/previews/ImagePreview.tsx:43-45 | the state `ZoomOutView` gives; the copy of this viewer in `components/DocumentPreview.tsx` (lines 237-239) does the same |
| ImageViewer.InlineImageViewer.RotateLeft | apps/frontend/react/src/components/previews/ImagePreview.tsx:48-50 | the state `RotateLeftView` gives; the copy of this viewer in `components/DocumentPreview.tsx` (lines 242-244) does the same |
| ImageViewer.InlineImageViewer.RotateRight | apps/frontend/react/src/components/previews/ImagePreview.tsx:53-55 | the state `RotateRightView` gives; the copy of this viewer in `components/DocumentPreview.tsx` (lines 247-249) does the same |
| ImageViewer.InlineImageViewer.ResetView | apps/frontend/react/src/components/previews/ImagePreview.tsx:31-35 | the state `Reset` gives; the copy of this viewer in `components/DocumentPreview.tsx` (lines 225-229) does the same |
| ImageViewer.InlineImageViewer.HandleMouseDown | apps/frontend/react/src/components/previews/ImagePreview.tsx:58-64 | the state `MouseDown` gives; the copy of this viewer in `components/DocumentPreview.tsx` (lines 252-258) does the same |
| ImageViewer.InlineImageViewer.HandleMouseMove | apps/frontend/react/src/components/previews/ImagePreview.tsx:67-74 | the state `MouseMove` gives; the copy of this viewer in `components/DocumentPreview.tsx` (lines 261-268) does the same |
| ImageViewer.InlineImageViewer.HandleMouseUp | apps/frontend/react/src/components/previews/ImagePreview.tsx:77-79 | the state `MouseUp` gives; the copy of this viewer in `components/DocumentPreview.tsx` (lines 271-273) does the same |
| ImageViewer.InlineImageViewer.HandleWheel | apps/frontend/react/src/components/previews/ImagePreview.tsx:82-89 | the state `Wheel` gives; the copy of this viewer in `components/DocumentPreview.tsx` (lines 276-283) does the same |
| ImageViewer.InlineImageViewer.HandleKeyDown | apps/frontend/react/src/components/previews/ImagePreview.tsx:93-117 | the key's action, applied only while the controls are shown; the copy of this viewer in `components/DocumentPreview.tsx` (lines 286-316) does the same |
| ImageViewer.InlineImageViewer.HandleMouseEnter | apps/frontend/react/src/components/previews/ImagePreview.tsx:130 | entering shows the controls and changes nothing else; the copy of this viewer in `components/DocumentPreview.tsx` (lines 323) does the same |
| ImageViewer.InlineImageViewer.HandleMouseLeave | apps/frontend/react/src/components/previews/ImagePreview.tsx:131 | leaving hides the controls and changes nothing else; the copy of this viewer in `components/DocumentPreview.tsx` (lines 324) does the same |
| ImageViewer.InlineImageViewer.HandleClick | apps/frontend/react/src/components/previews/ImagePreview.tsx:132 | a click opens the modal and changes nothing else; the copy in `components/DocumentPreview.tsx` has no modal and no click handler |
| ImageViewer.ModalImageViewer.constructor | apps/frontend/react/src/components/previews/ModalImagePreview.tsx:11-16 | the modal starts at zoom 1, rotation 0, offset (0, 0), not dragging |
| ImageViewer.ModalImageViewer.ApplyAction | apps/frontend/react/src/components/previews/ModalImagePreview.tsx:20-45 | each button applies its view operation |
| ImageViewer.ModalImageViewer.HandleMouseDown | apps/frontend/react/src/components/previews/ModalImagePreview.tsx:48-55 | only the left button (number 0) starts a drag; any other button changes nothing |
| ImageViewer.ModalImageViewer.HandleMouseMove | apps/frontend/react/src/components/previews/ModalImagePreview.tsx:58-65 | the state `MouseMove` gives |
| ImageViewer.ModalImageViewer.HandleMouseUp | apps/frontend/react/src/components/previews/ModalImagePreview.tsx:68-70 | the state `MouseUp` gives |
| ImageViewer.ModalImageViewer.HandleWheel | apps/frontend/react/src/components/previews/ModalImagePreview.tsx:73-80 | the state `Wheel` gives |
| ImageViewer.ModalImageViewer.HandleKeyDown | apps/frontend/react/src/components/previews/ModalImagePreview.tsx:84-113 | Escape asks to close and leaves the view alone; every other key acts as the modal key map says |
| ImageViewer.ModalImageViewer.HandleClick | apps/frontend/react/src/components/previews/ModalImagePreview.tsx:122-127 | a click closes exactly when its target is the overlay element itself |
| ImageViewer.ApplyKeepsRanges | apps/frontend/react/src/components/previews/ImagePreview.tsx:38-55 | every button and key keeps zoom in [0.5, 3] and rotation a multiple of 90 inside (-360, 360) |
| ImageViewer.RotationStaysRightAngle | apps/frontend/react/src/components/previews/ImagePreview.tsx:48-55 | the JavaScript remainder by 360 of a multiple of 90 is a multiple of 90 |
| ImageViewer.CursorKeepsRanges | apps/frontend/react/src/components/previews/ImagePreview.tsx:58-89 | drags and wheel turns keep the same ranges |
| ImageViewer.RotateRightThenLeft | apps/frontend/react/src/components/previews/ImagePreview.tsx:48-55 | `rotateRight` then `rotateLeft` restores the rotation modulo 360 and nothing else changes |
| ImageViewer.RotateRightThenLeftNotExact | apps/frontend/react/src/components/previews/ImagePreview.tsx:48-55 | only modulo 360: 270 turns right to 0 and back left to -90 |
| ImageViewer.HiddenControlsIgnoreKeys | apps/frontend/react/src/components/previews/ImagePreview.tsx:94 | with the controls hidden every key leaves the inline view unchanged |
| ImageViewer.ResetKeys | apps/frontend/react/src/components/previews/ModalImagePreview.tsx:100-103 | `r` and `R` both reset the modal view; only `r` resets the inline one |
| ImageViewer.KeyMapsAgree | apps/frontend/react/src/components/previews/ModalImagePreview.tsx:91-112 | apart from Escape and `R` the two viewers map keys alike |
| ImageViewer.EscapeOnlyCloses | apps/frontend/react/src/components/previews/ModalImagePreview.tsx:86-89 | Escape closes and performs no other action |
| ImageViewer.DragMovesByCursorTravel | apps/frontend/react/src/components/previews/ImagePreview.tsx:58-74 | a press then a move shifts the image by the cursor's travel |
| ImageViewer.ReleasedCursorMovesNothing | apps/frontend/react/src/components/previews/ImagePreview.tsx:67-79 | after a release a move changes nothing |
| ImageViewer.ResetRestoresInitial | apps/frontend/react/src/components/previews/ImagePreview.tsx:31-35 | the initial view is in range, and a reset brings any view back to it apart from the drag state |
| ThemeContext.FindIndex | apps/frontend/react/src/contexts/ThemeContext.tsx:120 | `findIndex`: -1 or an index holding the name, with no earlier index holding it |
| ThemeContext.Find | apps/frontend/react/src/contexts/ThemeContext.tsx:112 | `find`: nothing exactly when no theme has the name, otherwise the theme at `findIndex` |
| ThemeContext.Select | apps/frontend/react/src/contexts/ThemeContext.tsx:111-116 | `setTheme` selects the first theme of that name; an unknown name leaves the current theme; the list is unchanged |
| ThemeContext.Upsert | apps/frontend/react/src/contexts/ThemeContext.tsx:119-127 | an existing name is replaced at its index, keeping the length; a new name is appended |
| ThemeContext.Create | apps/frontend/react/src/contexts/ThemeContext.tsx:118-129 | after `createCustomTheme` the current theme is the given one and the list is the upsert |
| ThemeContext.Restore | apps/frontend/react/src/contexts/ThemeContext.tsx:74-80 | a saved, non-empty name is adopted only if a theme has it; otherwise nothing changes |
| ThemeContext.DecimalString | apps/frontend/react/src/contexts/ThemeContext.tsx:101 | the decimal text of a number is never empty |
| ThemeContext.ThemeVariables | apps/frontend/react/src/contexts/ThemeContext.tsx:96-101 | `applyTheme` sets exactly the six variables, from the palette and typography, the font size with a `px` suffix |
| ThemeContext.ThemeProvider.constructor | apps/frontend/react/src/contexts/ThemeContext.tsx:69-70 | the provider starts with light, dark and high-contrast, and light current |
| ThemeContext.ThemeProvider.ApplyTheme | apps/frontend/react/src/contexts/ThemeContext.tsx:93-109 | the six variables are written, and the `dark` class is present exactly when the theme's name is `dark` |
| ThemeContext.ThemeProvider.MountEffect | apps/frontend/react/src/contexts/ThemeContext.tsx:72-84 | the mount effect restores the saved theme and applies the theme current before the restore |
| ThemeContext.ThemeProvider.CurrentThemeEffect | apps/frontend/react/src/contexts/ThemeContext.tsx:86-91 | the current theme is applied and its name saved |
| ThemeContext.ThemeProvider.SetTheme | apps/frontend/react/src/contexts/ThemeContext.tsx:111-116 | the state `Select` gives; nothing is applied or saved |
| ThemeContext.ThemeProvider.CreateCustomTheme | apps/frontend/react/src/contexts/ThemeContext.tsx:118-129 | the state `Create` gives; nothing is applied or saved |
| ThemeContext.InitialRegistryWellFormed | apps/frontend/react/src/contexts/ThemeContext.tsx:69-70 | the built-in themes have distinct names and light is current |
| ThemeContext.UpsertExistingReplacesInPlace | apps/frontend/react/src/contexts/ThemeContext.tsx:120-125 | an existing name is replaced at the same index; the length and all other entries are unchanged |
| ThemeContext.UpsertNewAppends | apps/frontend/react/src/contexts/ThemeContext.tsx:126 | a new name is appended at the end and the other entries are unchanged |
| ThemeContext.UpsertKeepsNamesUnique | apps/frontend/react/src/contexts/ThemeContext.tsx:118-129 | names stay unique if they were, and the theme is then found under its name |
| ThemeContext.CreateThenSelect | apps/frontend/react/src/contexts/ThemeContext.tsx:118-129 | after a create, selecting by the theme's name selects it |
| ThemeContext.UnknownNameKeepsCurrent | apps/frontend/react/src/contexts/ThemeContext.tsx:111-116 | an unknown name never changes the selection |
| ThemeContext.RestoreBuiltIns | apps/frontend/react/src/contexts/ThemeContext.tsx:72-80 | on the initial list exactly the three built-in names are restored; anything else keeps light |
| ThemeContext.FontSizeVariable | apps/frontend/react/src/contexts/ThemeContext.tsx:101 | font size 16 is written `16px`, 18 is written `18px` |
| ThemeContext.DecimalStringReadsBack | apps/frontend/react/src/contexts/ThemeContext.tsx:101 | the decimal text of a natural number is all digits and reads back as the number |
| ThemeEditor.InitialEditor | apps/frontend/react/src/components/CustomThemeEditor.tsx:17-23 | without a theme the fields take the fixed defaults; with one, the name is the theme's name and each colour, the font family and the font size take the theme's value when it is truthy and otherwise `#1976d2`, `#dc004e`, `#ffffff`, `#000000`, `Roboto, sans-serif` and 16 |
| ThemeEditor.EditThenSubmitRenames | apps/frontend/react/src/components/CustomThemeEditor.tsx:17-48 | opening the editor on a theme whose fields are all set and submitting under a valid new name creates that same theme under the trimmed new name |
| ThemeEditor.HandleSubmit | apps/frontend/react/src/components/CustomThemeEditor.tsx:27-50 | a theme is created exactly when the name is valid, named by the trimmed input |
| ThemeEditor.NameValidIff | apps/frontend/react/src/components/CustomThemeEditor.tsx:25 | a name is valid exactly when its trimmed form is non-empty and equals no theme's name |
| ThemeEditor.SubmitCopiesFields | apps/frontend/react/src/components/CustomThemeEditor.tsx:34-46 | the created theme carries the editor's colours, font family and font size |
| ThemeEditor.NameExistsIff | apps/frontend/react/src/components/CustomThemeEditor.tsx:72-76 | the message shows exactly for a non-blank trimmed name that a theme already has |
| ThemeEditor.SubmitAlwaysAppends | apps/frontend/react/src/components/CustomThemeEditor.tsx:48 | a submitted theme always has a new name, so `createCustomTheme` appends it and makes it current |
| ThemeEditor.EditingRequiresRename | apps/frontend/react/src/components/CustomThemeEditor.tsx:17-32 | a theme being edited cannot be saved under its own name |
| ThemeEditor.NamesAreCaseSensitive | apps/frontend/react/src/components/CustomThemeEditor.tsx:25 | the comparison is case-sensitive: `Dark` is available next to `dark` |
| ThemeEditor.PaddedNameIsTaken | apps/frontend/react/src/components/CustomThemeEditor.tsx:25 | surrounding spaces do not make a taken name available, and the message shows |
| ThemeEditor.BlankNameHasNoMessage | apps/frontend/react/src/components/CustomThemeEditor.tsx:72 | a blank name is invalid but shows no message |
| VueI18n.Lookup | apps/frontend/sse/src/i18n/en-US.ts:1-104 | reading a table: found exactly for its keys, and the text found is one that the table defines for the key |
| VueI18n.Translations | apps/frontend/sse/src/composables/useI18n.ts:17 | a table exists for exactly `en-US` and `zh-CN` |
| VueI18n.T | apps/frontend/sse/src/composables/useI18n.ts:15-26 | `t` returns the key itself or an English text, or a text of the current table; a non-empty key gives a non-empty result |
| VueI18n.InitialLanguage | apps/frontend/sse/src/composables/useI18n.ts:32-37 | a stored `en-US` or `zh-CN` is adopted; anything else keeps the current language |
| VueI18n.I18n.constructor | apps/frontend/sse/src/composables/useI18n.ts:5 | the language starts as `zh-CN` |
| VueI18n.I18n.SetLanguage | apps/frontend/sse/src/composables/useI18n.ts:8-12 | any string is accepted as the language and saved |
| VueI18n.I18n.InitLanguage | apps/frontend/sse/src/composables/useI18n.ts:32-37 | the language becomes what `InitialLanguage` says; storage is untouched |
| VueI18n.I18n.Translate | apps/frontend/sse/src/composables/useI18n.ts:15-26 | `t` with the current language, as `T` gives it |
| VueI18n.LookupConcat | apps/frontend/sse/src/i18n/en-US.ts:1-104 | a key defined in a later part of a table is read there; otherwise the earlier part decides |
| VueI18n.SameKeyOrder | apps/frontend/sse/src/test/themeLanguage.test.ts:12-21 | both tables define the same keys in the same order, so `Object.keys` agree |
| VueI18n.SameKeys | apps/frontend/sse/src/test/themeLanguage.test.ts:12-21 | the tables have as many entries, and each translates exactly the keys the other does |
| VueI18n.NoEmptyEntries | apps/frontend/sse/src/i18n/zh-CN.ts:1-104 | no text in either table is empty |
| VueI18n.CurrentLanguageFirst | apps/frontend/sse/src/composables/useI18n.ts:19-21 | the current language's entry is returned when it is non-empty |
| VueI18n.FallbackOrder | apps/frontend/sse/src/composables/useI18n.ts:24-25 | otherwise the English entry when non-empty, otherwise the key itself |
| VueI18n.UnknownLanguageIsEnglish | apps/frontend/sse/src/composables/useI18n.ts:8-25 | a language without a table reads English and then the key |
| VueI18n.SupportedLanguageLookup | apps/frontend/sse/src/composables/useI18n.ts:15-26 | in either supported language a key of the tables is translated by that language's table, and any other key is returned as is |
| VueI18n.NotInLaterSections | apps/frontend/sse/src/i18n/en-US.ts:24-104 | no `theme.` or `language.` key is defined again after its own section |
| VueI18n.EarlyLookup | apps/frontend/sse/src/i18n/en-US.ts:15-22 | a `theme.` or `language.` key is read from its own section in both tables |
| VueI18n.ThemeNames | apps/frontend/sse/src/test/themeLanguage.test.ts:24-28 | `theme.light` and `theme.dark` read `Light`/`Dark` in English and 浅色/深色 in Chinese |
| VueI18n.LanguageNames | apps/frontend/sse/src/i18n/en-US.ts:21-22 | `language.chinese` reads `Chinese` in English and 中文 in Chinese; `language.english` reads `English` in both |
| VueI18n.InitIgnoresUnsupported | apps/frontend/sse/src/composables/useI18n.ts:32-37 | start-up keeps the current language unless a supported one was stored |
| VueTheme.CurrentTheme | apps/frontend/sse/src/utils/themeUtils.ts:4-16 | `getCurrentTheme` is dark exactly when the class is present or the system prefers dark |
| VueTheme.Paint | apps/frontend/sse/src/composables/useTheme.ts:14-25 | the class and the applied colours are set together and agree |
| VueTheme.ThemeStore.constructor | apps/frontend/sse/src/composables/useTheme.ts:5 | the theme starts as `light` with nothing painted and nothing watched |
| VueTheme.ThemeStore.SetTheme | apps/frontend/sse/src/composables/useTheme.ts:8-26 | any string is stored and saved, then the page is painted dark exactly when the value resolves to dark (`SetThemeStep`) |
| VueTheme.ThemeStore.ToggleTheme | apps/frontend/sse/src/composables/useTheme.ts:29-31 | `setTheme` of the toggle target (`ToggleStep`) |
| VueTheme.ThemeStore.InitTheme | apps/frontend/sse/src/composables/useTheme.ts:37-51 | a known saved value is adopted and the theme painted (`InitStep`) |
| VueTheme.ThemeStore.WatchSystemTheme | apps/frontend/sse/src/composables/useTheme.ts:54-80 | starts listening and, under `system`, paints the current preference at once (`WatchStep`) |
| VueTheme.ThemeStore.OnSystemChange | apps/frontend/sse/src/composables/useTheme.ts:56-67 | records the new preference and repaints only while listening under `system` (`SystemChangeStep`) |
| VueTheme.ThemeStore.Unwatch | apps/frontend/sse/src/composables/useTheme.ts:82-84 | stops listening and changes nothing else (`UnwatchStep`) |
| VueTheme.SetThemeResolves | apps/frontend/sse/src/composables/useTheme.ts:14-25 | dark is applied exactly for `dark`, or for `system` when the class is there or the system prefers dark, and the colours agree with the class |
| VueTheme.SetThemeStoresAnyValue | apps/frontend/sse/src/composables/useTheme.ts:8-11 | any string is stored and saved unconditionally; an unknown value paints light |
| VueTheme.ToggleMapping | apps/frontend/sse/src/composables/useTheme.ts:29-31 | toggling maps `dark` to `light` and anything else, `system` included, to `dark` |
| VueTheme.InitAdoptsKnownThemes | apps/frontend/sse/src/composables/useTheme.ts:37-41 | start-up adopts a saved value only if it is light, dark or system |
| VueTheme.FreshStartIsLight | apps/frontend/sse/src/composables/useTheme.ts:5 | with nothing saved the page starts light |
| VueTheme.SystemChangeOnlyForSystem | apps/frontend/sse/src/composables/useTheme.ts:56-67 | a preference change repaints only while listening and only under `system`, and then follows the preference |
| VueTheme.DarkClassWinsUnderSystem | apps/frontend/sse/src/utils/themeUtils.ts:4-16 | under `system` a `dark` class already present wins over a light system preference |
| VueTheme.WatchFollowsPreference | apps/frontend/sse/src/composables/useTheme.ts:71-80 | watching follows the preference at once under `system` and leaves other themes alone |
| VueTheme.UnwatchStopsRepaints | apps/frontend/sse/src/composables/useTheme.ts:82-84 | after the cleanup a preference change repaints nothing |
| VueTheme.StepsKeepColorsAgree | apps/frontend/sse/src/composables/useTheme.ts:14-25 | every step keeps the class and the applied colours in agreement |
| RecordList.RemoveId | apps/frontend/react/src/pages/Users.tsx:35 | `filter` by id keeps only records without that id: every such record stays, nothing is added |
| RecordList.ReplaceId | apps/frontend/react/src/pages/Users.tsx:53 | `map` replacing by id keeps the length and the id at every position |
| RecordList.RemoveConcat | apps/frontend/react/src/pages/Users.tsx:35 | removal works piece by piece, so it keeps the order of what it keeps |
| RecordList.RemoveCount | apps/frontend/react/src/pages/Users.tsx:35 | exactly the records with that id are dropped |
| RecordList.RemoveAbsent | apps/frontend/react/src/pages/Users.tsx:35 | removing an id no record has changes nothing |
| RecordList.RemoveIdempotent | apps/frontend/react/src/pages/Users.tsx:35 | removing twice is removing once |
| RecordList.RemoveKeepsUnique | apps/frontend/react/src/pages/Users.tsx:35 | removal keeps ids unique |
| RecordList.ReplaceMeaning | apps/frontend/react/src/pages/Users.tsx:53 | the new record lands exactly where its id was; everything else is kept |
| RecordList.ReplaceAbsent | apps/frontend/react/src/pages/Users.tsx:53 | replacing a record whose id is absent changes nothing |
| RecordList.ReplaceIdempotent | apps/frontend/react/src/pages/Users.tsx:53 | replacing twice with the same record is replacing once |
| RecordList.ReplaceKeepsUnique | apps/frontend/react/src/pages/Users.tsx:53 | replacement keeps ids unique |
| RecordList.AppendKeepsUnique | apps/frontend/react/src/pages/Users.tsx:56 | appending a record with an unused id keeps ids unique |
| UsersPage.DeleteUser | apps/frontend/react/src/pages/Users.tsx:33-37 | without confirmation nothing changes; with it every user with that id goes and all others stay |
| UsersPage.SaveUser | apps/frontend/react/src/pages/Users.tsx:50-59 | while editing the list keeps its length and ids; otherwise the user is appended under the fresh id |
| UsersPage.InitialForm | apps/frontend/react/src/pages/Users.tsx:102-105 | without a user the fields are empty and the role is `User`; the role is never empty |
| UsersPage.SubmitUser | apps/frontend/react/src/pages/Users.tsx:107-116 | the user handed on keeps the edited user's id (a fresh one otherwise) and carries the form's fields |
| UsersPage.DeleteKeepsOrder | apps/frontend/react/src/pages/Users.tsx:33-37 | deletion drops exactly the users with that id and keeps the rest in order |
| UsersPage.EditReplacesInPlace | apps/frontend/react/src/pages/Users.tsx:51-53 | an edited user replaces the matching entry at its position; others are unchanged |
| UsersPage.EditedUserKeepsId | apps/frontend/react/src/pages/Users.tsx:110 | editing through the form keeps the id, so the save replaces and never appends |
| UsersPage.AddAppendsOnce | apps/frontend/react/src/pages/Users.tsx:54-57 | a new user is appended once with the fresh id, and ids stay unique |
| UsersPage.UpdatesKeepIdsUnique | apps/frontend/react/src/pages/Users.tsx:33-57 | deleting and editing keep ids unique |
| UsersPage.InitialUsersUnique | apps/frontend/react/src/pages/Users.tsx:15-19 | the starting list has unique ids |
| OrganizationsPage.DeleteOrganization | apps/frontend/react/src/pages/Organizations.tsx:32-36 | without confirmation nothing changes; with it every organisation with that id goes and all others stay |
| OrganizationsPage.SaveOrganization | apps/frontend/react/src/pages/Organizations.tsx:49-58 | while editing the list keeps its length and ids; otherwise one organisation is appended with the fresh id and member count 0 |
| OrganizationsPage.InitialForm | apps/frontend/react/src/pages/Organizations.tsx:89-90 | the fields start from the edited organisation, else empty |
| OrganizationsPage.SubmitOrganization | apps/frontend/react/src/pages/Organizations.tsx:92-100 | the organisation handed on keeps an existing id and member count, else a fresh id and 0 |
| OrganizationsPage.DeleteKeepsOrder | apps/frontend/react/src/pages/Organizations.tsx:32-36 | deletion drops exactly the matching organisations and keeps the rest in order |
| OrganizationsPage.EditKeepsIdAndMembers | apps/frontend/react/src/pages/Organizations.tsx:94-99 | editing through the form keeps id and member count and replaces in place |
| OrganizationsPage.AddAppendsOnce | apps/frontend/react/src/pages/Organizations.tsx:53-56 | a new organisation is appended once; with a fresh id the ids stay unique |
| OrganizationsPage.UpdatesKeepIdsUnique | apps/frontend/react/src/pages/Organizations.tsx:32-56 | deleting and editing keep ids unique |
| DbTool.FormatRows | src/agentsystem/tools/dbTool.ts:33-38 | no rows give the empty string (the five-row limit and the line layout are stated by `OneLinePerRow`) |
| DbTool.RunTool | src/agentsystem/tools/dbTool.ts:21-45 | a dangerous query returns the refusal text whatever the database does; a query that passes the guard returns the formatted rows when the database answers, a thrown `Error`'s message after the failure prefix, and the unknown-error text for any other thrown value |
| DbTool.GuardIgnoresCase | src/agentsystem/tools/dbTool.ts:23 | the guard works on the lower-cased query, so case does not matter |
| DbTool.EmbeddedKeywordRefused | src/agentsystem/tools/dbTool.ts:23-24 | a keyword inside a longer word (`inserted_at`) is refused too, whatever the database would do |
| DbTool.NoKeywordLettersPasses | src/agentsystem/tools/dbTool.ts:23 | a query without the letters d, a and i in either case passes the guard |
| DbTool.RefusalIgnoresDatabase | src/agentsystem/tools/dbTool.ts:23-25 | a refused query never reaches the database: its result does not matter |
| DbTool.RowsPastLimitIgnored | src/agentsystem/tools/dbTool.ts:33 | rows past the fifth never show |
| DbTool.RowFormat | src/agentsystem/tools/dbTool.ts:34-37 | a pair renders as `key: value`, and further pairs follow after `, ` |
| DbTool.RowOnOneLine | src/agentsystem/tools/dbTool.ts:34-37 | a row whose keys and values hold no line break renders on one line |
| DbTool.OneLinePerRow | src/agentsystem/tools/dbTool.ts:33-38 | without line breaks in the data the output has one line per row, at most five |
| DbTool.FailureMessages | src/agentsystem/tools/dbTool.ts:39-44 | an `Error` gives `查询失败: ` and its message, any other thrown value `查询失败: 未知错误`, and no rows give `""` |
| TailwindEngine.Utility | apps/frontend/tailwind/src/tailwind-engine.js:2-13 | a class name has declarations exactly when it is a key of the table, and they are non-empty |
| TailwindEngine.GenerateStyles | apps/frontend/tailwind/src/tailwind-engine.js:17-35 | the corrected engine (own keys of the table only, see Findings): the loop's output is `Styles` of the names, the empty string when no name is known, and the output of the engine as written (`StylesAsWritten`) when no name is one every object inherits |
| TailwindEngine.AsWrittenAgreesOffPrototype | apps/frontend/tailwind/src/tailwind-engine.js:20-30 | on names no object inherits from `Object.prototype`, the engine as written and the corrected one give the same text |
| TailwindEngine.ToStringListDiffers | apps/frontend/tailwind/src/tailwind-engine.js:20-30 | for the list `["toString"]` the engine as written emits an empty `.toString` rule, the corrected one nothing |
| TailwindEngine.StylesConcat | apps/frontend/tailwind/src/tailwind-engine.js:20-32 | the output is the names' contributions one after another, in input order |
| TailwindEngine.ContributionMeaning | apps/frontend/tailwind/src/tailwind-engine.js:20-30 | an unknown name adds nothing; a known one adds exactly its rule followed by a blank line |
| TailwindEngine.UnknownNamesGiveNothing | apps/frontend/tailwind/src/tailwind-engine.js:18-33 | no names, or only unknown ones, give the empty string |
| TailwindEngine.KnownNames | apps/frontend/tailwind/src/tailwind-engine.js:2-13 | exactly `bg-purple`, `text-white` and `p-2` are known |
| TailwindEngine.Indents | apps/frontend/tailwind/src/tailwind-engine.js:25-27 | the template indents the declarations by sixteen spaces and the closing brace by twelve |
| TailwindEngine.PurpleRule | apps/frontend/tailwind/src/tailwind-engine.js:25-29 | the exact text of the `bg-purple` rule |
| TailwindEngine.RepeatedNameRepeatsRule | apps/frontend/tailwind/src/tailwind-engine.js:20-30 | a repeated known name yields its rule again |
| TailwindEngine.InheritedUtility | apps/frontend/tailwind/src/tailwind-engine.js:21 | the table read as the engine reads it: the table's own entries, and an empty declaration list for an inherited object member |
| TailwindEngine.PrototypeNameEmitsEmptyRule | apps/frontend/tailwind/src/tailwind-engine.js:21 | as written, `toString` produces an empty rule; the corrected engine produces nothing for it |
| EmojiPlugin.TransformModule | apps/frontend/tailwind/plugins/vite-plugin-emoji.ts:31-44 | the loop's output is `Transform` of the code, and holds no shortcode of the table |
| EmojiPlugin.EmojiMapWellFormed | apps/frontend/tailwind/plugins/vite-plugin-emoji.ts:3-25 | the table has 21 entries; each shortcode is non-empty ASCII and each emoji non-empty and free of ASCII |
| EmojiPlugin.ReplaceKeepsOut | apps/frontend/tailwind/plugins/vite-plugin-emoji.ts:36 | a global replacement leaves no occurrence of its pattern and creates no occurrence of another ASCII text |
| EmojiPlugin.ReplaceAbsent | apps/frontend/tailwind/plugins/vite-plugin-emoji.ts:36 | replacing a pattern that does not occur changes nothing |
| EmojiPlugin.ApplyAllClears | apps/frontend/tailwind/plugins/vite-plugin-emoji.ts:35-38 | after a table's replacements none of its shortcodes is left |
| EmojiPlugin.TransformClears | apps/frontend/tailwind/plugins/vite-plugin-emoji.ts:32-38 | every occurrence of every shortcode is replaced: the output holds none |
| EmojiPlugin.NoShortcodeUnchanged | apps/frontend/tailwind/plugins/vite-plugin-emoji.ts:32-44 | code without any shortcode is returned unchanged |
| EmojiPlugin.TransformIdempotent | apps/frontend/tailwind/plugins/vite-plugin-emoji.ts:32-44 | transforming twice is transforming once |
| EmojiPlugin.ApplyAllConcat | apps/frontend/tailwind/plugins/vite-plugin-emoji.ts:35-38 | applying two tables in turn is applying their concatenation |
| EmojiPlugin.ShortcodeInShortcode | apps/frontend/tailwind/plugins/vite-plugin-emoji.ts:3-25 | one `:name:` shortcode occurs in another only when they are equal |
| EmojiPlugin.TadaBecomesPopper | apps/frontend/tailwind/plugins/vite-plugin-emoji.ts:19 | `:tada:` becomes 🎉 |
| EmojiPlugin.PartyBecomesPopper | apps/frontend/tailwind/plugins/vite-plugin-emoji.ts:22 | `:party:` becomes the same 🎉 |
| EmojiPlugin.TadaAndPartyCollide | apps/frontend/tailwind/plugins/vite-plugin-emoji.ts:19-22 | two different inputs give the same output, so the transform is not invertible |

## Left out

- PDF.js itself (worker set-up, `getDocument`, `getPage`, the viewport at scale 1.5, canvas drawing): each becomes an event that completes or rejects an `await`, so only the coordination around them is modelled.
- React rendering, JSX, styles, `useState` batching and effect scheduling: an effect is a method the caller invokes; the preview's result is a `Preview` value naming the view chosen.
- The `IntersectionObserver` of the preview is the boolean input `visible`.
- `Date.now()`, `new Date()`, `window.confirm`, `localStorage`, `matchMedia` and the `FileReader` are inputs or fields; their I/O is not modelled.
- The database pool (`connect`, `query`, `release`) and `console.log` of the database tool: the query's outcome is an input, and every row value is taken as already converted to its string form.
- The exception message `atob` throws is an input (`atobMessage`) rather than the browser's own text.
- ImageViewer.ZoomInView: zoom is a `real`, so the floating-point rounding of repeated `+ 0.2` steps is not modelled; only the clamps to 0.5 and 3 are.
- The CSS transform the viewers build from their view state is not modelled.
- ImageViewer.MouseMove: cursor coordinates (`clientX`, `clientY`) and the pan offsets are integers, whereas the browser reports doubles, so fractional positions are not modelled.
- Base64.StripWhitespace: its own contract states which characters remain and the length bound; the order and the multiplicity of what remains are stated by `StripWhitespaceConcat`, `StripWhitespaceChar` and `StripWhitespaceCounts` rather than by the function itself.
- TailwindEngine.GenerateStyles: the method is the corrected engine; the engine as written is the function `StylesAsWritten`, which has no loop of its own, so the buffer-building loop is proved only for the corrected lookup.
- PdfRender.PdfViewer.constructor: the inline preview is declared inside `DocumentPreview` and is handed a fresh copy of the buffer on every render, so each render of the enclosing preview mounts a new viewer that starts from the shared `loading` flag; the model has one viewer per mount and takes that flag as a parameter, so the sequence of remounts, and the enclosing preview's own writes to the flag between them, are not modelled.
- OrganizationsPage.SubmitOrganization: for an organisation being edited, `memberCount || 0` changes only a `NaN` count (0 stays 0); the model's counts are integers, so there it is the count itself. The 0 for a new organisation is modelled.
- ThemeContext.ThemeVariables: `fontSize` is an integer, so `Number()` of a non-numeric or fractional input and its `NaN` case are not modelled.
- JsString.ToLower: only ASCII letters are lower-cased; the Unicode case mapping of `toLowerCase` is not modelled.
- VueI18n.T: the tables are ordered key/value sequences, so a key or language naming an inherited object member (such as `toString`), for which the JavaScript object lookup returns a function, is not modelled.
- PreviewDispatch.CopyArrayBuffer: buffers are otherwise modelled as value sequences, so aliasing and the detaching of an `ArrayBuffer` handed to a worker are not modelled.
- The office, Markdown and text renderers inside `components/DocumentPreview.tsx` and `components/previews/` only display what they are given and are not part of this model. The inline `ImagePreview` declared inside `components/DocumentPreview.tsx` (lines 205-465) is a second copy of the inline viewer with the same zoom clamps, rotations, drag, wheel and key map (only `r` resets) and no click-to-modal; `ImageViewer.InlineImageViewer` without `HandleClick` models it.
- The image error view of all three viewers (`onError` sets `imageError`, and the next render shows only an error message) is not modelled; neither is the order of React hooks around that early return, which comes before the inline viewers' key-handling effect.
- The `console.log(key, value)` on every turn of the emoji plugin's replacement loop is output only and is not modelled.
- `applyThemeColors` in `themeUtils.ts` only logs; the model records the colour scheme it was asked to apply.
- The custom editor's colour pickers and the pages' forms are fields of a state value; DOM events are not modelled.
- The React users and organisations pages' ids come from `Date.now().toString()`, which is the input `now`.

## Findings

| source | as written | input that shows it | evidently intended | confidence | as-written member | corrected member |
|---|---|---|---|---|---|---|
| apps/frontend/tailwind/src/tailwind-engine.js:21 | `utilities[className]` is also truthy for members every object inherits, so such a name passes the check and an empty rule is emitted | the class name `toString` gives `.toString {` with an empty declaration line and `}` | only the table's own three utilities produce rules | not executed | TailwindEngine.ToStringListDiffers | TailwindEngine.GenerateStyles |
