# Clinical-trial pre-screening routes, modelled in Dafny

The application has three API routes with logic of their own.

- **`POST /api/extract-criteria`** reads an uploaded protocol as PDF, DOCX or plain text and returns the inclusion and exclusion criteria a language model finds in it.
  - For a PDF, it scans the text layer in batches of ten pages, up to fifty pages.
  - When one batch's own text names both an inclusion (or eligibility) section and an exclusion section, it fetches at most two more full batches and stops.
  - It joins the page texts in page order and normalises the whitespace.
  - If the cleaned text is 500 characters or shorter, it asks a vision model to transcribe the first ten pages instead.
  - A PDF text shorter than 100 characters is refused.
  - Every accepted response carries a preview: the first 500 characters of the text (or all of it, when shorter) followed by "...".
- **`POST /api/initiate-call`** checks its inputs, the API key and the voice platform's phone-number list, in that order. It then places an outbound call from the first listed number. The destination is normalised first: it is trimmed and kept as it is if it starts with `+`, otherwise it becomes `+1` followed by its digits.
- **`POST /api/generate-script`** checks that both criteria lists are present and renders each as numbered lines `k. criterion`. It fills the study name, or a separate default in each of its three places, into the prompt and returns the model's answer.

The project is made of six modules:
- `Wrappers`: `Option` and `Attempt`, where `Attempt` is a value or a thrown message.
- `Text`: the JavaScript string built-ins the routes use.
- `PageScan`: the batch scan.
  - `Schedule` and `FetchedCount` give the scan in closed form.
  - `ScanPages` is the imperative loop, which grows `allPages` batch by batch and leaves the main loop with `break`. It is proved to fetch exactly what the closed form says.
- `ExtractCriteria`: the cleanup chain, the choice of text source, dispatch by file type, the length floor, the preview and the handler.
- `InitiateCall`: the call route.
- `GenerateScript`: the script route.

Every external service is an input to the model.
- The PDF is the list of its page texts. An entry is `None` where fetching the page or its text content threw.
- The vision model, the criteria model and the chat completion are functions from what they are sent to what comes back, or to an exception.
- The DOCX converter's outcome is a single value: the converted text, or the exception it threw.
- The phone-number listing is the reply value.
- The outbound call is a function from the request body to the reply.
- The API key is the environment variable's value, if it is set.

Three behaviours of the code are easy to misread. The model follows the code:
- The keyword test looks at the text of the current batch only, not the text gathered so far.
- The vision path renders pages 1..min(numPages, 10), whatever the text says.
- At exactly 500 cleaned characters the vision text is used, because direct text must be strictly longer than 500.

The cleanup is checked against an independent description: the maximal runs of non-whitespace characters (`Words`). `CleanupJoinsWords` proves that the cleaned text is exactly these words, each separated from the next by one space.

`SquashWhitespace`'s contract says its result is squashed, and `SquashedHasNoNewline` shows a squashed string has no newline. So no newline survives the first replacement `\s+` → `' '`. So the second replacement, `\n{3,}` → `\n\n` at app/api/extract-criteria/route.ts:186, never changes anything. The model keeps it all the same.

JavaScript's `x || fallback` on strings is `Text.OrDefault`, and truthiness is `Text.Truthy`. Each route calls `OrDefault` with its own default message.

## Model

| member | source | states |
|---|---|---|
| Text.Truthy | app/api/initiate-call/route.ts:8-17 | JavaScript truthiness of an optional string: present and non-empty, as `!phoneNumber`, `!agentId` and `!elevenLabsApiKey` test it. It has no contract of its own; `PlanCall`, `GuardsPrecedeFetches`, `NamesFor` and `FallbacksDiffer` state it where it is used. |
| Text.OrDefault | app/api/extract-criteria/route.ts:279 | `error.message`, or else the route's default: a non-empty message is passed through, and an empty one gives the fallback. Each route calls it with its own default message: "Failed to process document", "Failed to initiate call" (initiate-call line 101) or "Failed to generate script" (generate-script line 108). |
| Text.IsWhitespace | app/api/initiate-call/route.ts:60 | The ECMAScript whitespace set behind `\s` and `trim()`. It has no contract of its own; `Trim`, `TrimSplit`, `SquashWhitespace`, `Words` and `CleanupShape` state it where it is used. |
| Text.Trim | app/api/initiate-call/route.ts:60 | `trim()` returns the slice between a whitespace prefix and a whitespace suffix. The result neither begins nor ends with whitespace. |
| Text.TrimSplit | app/api/extract-criteria/route.ts:187 | The input is the removed front whitespace, then the trimmed string, then the removed back whitespace. |
| Text.TrimPadded | app/api/extract-criteria/route.ts:187 | Trimming whitespace padding off both sides gives back the string inside, when that string neither begins nor ends with whitespace. |
| Text.TrimIdempotent | app/api/initiate-call/route.ts:60 | Trimming twice is trimming once. |
| Text.ContainsIffOccurs | app/api/extract-criteria/route.ts:143-144 | The left-to-right `includes` search succeeds exactly when the pattern occurs at some position. |
| Text.IsDigit | app/api/initiate-call/route.ts:63 | An ASCII digit, the complement of `\D`. It has no contract of its own; `DigitsOnly` and `DigitsOnlyOfChar` state it. |
| Text.StartsWith | app/api/initiate-call/route.ts:61 | `startsWith`: the string's prefix of the pattern's length is the pattern. It has no contract of its own; `FormatNumber` and `NumberingRestarts` state it where it is used. |
| Text.EndsWith | app/api/extract-criteria/route.ts:103 | `endsWith`, as in the ".pdf" and ".docx" name tests. It has no contract of its own; `Classify` states it. |
| Text.Contains | app/api/extract-criteria/route.ts:143-144 | `includes`, as a left-to-right search. It has no contract of its own; `ContainsIffOccurs` states it. |
| Text.DigitsOnly | app/api/initiate-call/route.ts:63 | Removing `\D` leaves only ASCII digits and never lengthens the string. |
| Text.DigitsOnlyOfChar | app/api/initiate-call/route.ts:63 | A single character is kept exactly when it is an ASCII digit. |
| Text.DigitsOnlyAppend | app/api/initiate-call/route.ts:63 | Removing `\D` works piece by piece: the result for `a + b` is the result for `a` followed by that for `b`. With `DigitsOnlyOfChar`, this says every digit is kept, in order, and every other character dropped. |
| Text.DigitsOnlyOfDigits | app/api/initiate-call/route.ts:63 | A string of digits is left unchanged by removing `\D`. |
| Text.Lower | app/api/extract-criteria/route.ts:142 | Lower-casing keeps the length and maps each character on its own. |
| Text.Join | app/api/extract-criteria/route.ts:178 | `Array.join`. It has no contract of its own; `JoinSnoc` and `SplitJoin` state it. |
| Text.JoinSnoc | app/api/generate-script/route.ts:27 | Joining one more element appends the separator and that element. |
| Text.SplitJoin | app/api/generate-script/route.ts:27 | Splitting a `join` on a separator that no piece contains gives the pieces back. |
| Text.NatToString | app/api/generate-script/route.ts:27 | `${n}` is a non-empty string of decimal digits with no leading zero. |
| Text.NatToStringRoundTrip | app/api/generate-script/route.ts:27 | Reading the rendered digits back gives the number. |
| PageScan.PageText | app/api/extract-criteria/route.ts:128-134 | A page's text, or '' where fetching it threw, as the `.catch` gives. It has no contract of its own; `FetchBatch` states it. |
| PageScan.FetchRange | app/api/extract-criteria/route.ts:125-137 | One batch's pages first..last with their texts. It has no contract of its own; `FetchRangeNumbers`, `FetchBatch` and `FetchAllOfTiles` state it. |
| PageScan.FetchRangeNumbers | app/api/extract-criteria/route.ts:126-135 | Entry k of a fetched range is page `first + k`, so `allPages` is already sorted by page number. |
| PageScan.MainBatchShape | app/api/extract-criteria/route.ts:116-122 | Main batch j starts at page 1 + 10j and ends at min(start + 9, min(numPages, 50)). |
| PageScan.MainPrefixTiles | app/api/extract-criteria/route.ts:121-122 | The first n main batches are non-empty, disjoint and contiguous. They cover page 1 up to the end of batch n-1. |
| PageScan.MainBatchesTileScanLimit | app/api/extract-criteria/route.ts:117-122 | With no early stop, the main batches cover exactly pages 1..min(numPages, 50), each page once. |
| PageScan.FirstTrueFromSpec | app/api/extract-criteria/route.ts:146 | The search for the stopping batch finds a set flag with none set before it, or else no flag is set. |
| PageScan.StopsEarlyIff | app/api/extract-criteria/route.ts:142-146 | The scan stops early exactly when some main batch's own text names both sections. It stops at the first such batch. |
| PageScan.ExtraBatchesShape | app/api/extract-criteria/route.ts:149-152 | There are at most two overscan batches. Batch i covers end+1+10i..end+10+10i, is full and ends within the document. A batch is left out only when it would not fit in full. |
| PageScan.Schedule | app/api/extract-criteria/route.ts:115-172 | The batches the scan fetches, in closed form. It has no contract of its own; `ScheduleTilesPrefix`, `HitSchedule` and `ScanPages` state it. |
| PageScan.FetchedCount | app/api/extract-criteria/route.ts:115-172 | The last page the scan fetches. It has no contract of its own; `ScheduleForTiles`, `ScheduleFetchesPrefix` and `ScanPages` state it. |
| PageScan.ScheduleForTiles | app/api/extract-criteria/route.ts:116-172 | The fetched batches cover pages 1..k, each page once and in page order. k is at most min(numPages, 70), and equals min(numPages, 50) without an early stop. |
| PageScan.ScheduleTilesPrefix | app/api/extract-criteria/route.ts:116-172 | The same statement for the schedule of a given document. Every batch lies within the document. |
| PageScan.FetchAllOfTiles | app/api/extract-criteria/route.ts:139-168 | Fetching batches that tile lo..hi, one after the other, yields pages lo..hi, each once, in order. |
| PageScan.ScheduleFetchesPrefix | app/api/extract-criteria/route.ts:139-178 | Fetching the whole schedule batch by batch yields pages 1..FetchedCount in order. |
| PageScan.FetchBatch | app/api/extract-criteria/route.ts:125-138 | One batch returns pages first..last in order. A page whose fetch throws contributes the empty text and does not abort the batch. |
| PageScan.BatchText | app/api/extract-criteria/route.ts:142 | A batch's page texts, lower-cased and joined by spaces. It has no contract of its own; `TestBatch` and `HitFlagOfFetched` state it. |
| PageScan.FoundBothSections | app/api/extract-criteria/route.ts:143-144 | The keyword test. It has no contract of its own; `TestBatch` and `StopsEarlyIff` state it. |
| PageScan.TestBatch | app/api/extract-criteria/route.ts:142-144 | The keyword test on a fetched main batch gives exactly that batch's hit flag: ("inclusion criteria" or "eligibility criteria") and "exclusion criteria" in its lower-cased text. |
| PageScan.HitFlagOfFetched | app/api/extract-criteria/route.ts:142-144 | Batch j's flag is the keyword test on the pages fetched for batch j. |
| PageScan.Overscan | app/api/extract-criteria/route.ts:149-169 | The overscan loop fetches exactly the overscan batches and their pages end+1..end+10·count. It never goes past the document's last page. |
| PageScan.NextMainBatch | app/api/extract-criteria/route.ts:121-122 | The batch fetched in a turn of the main loop is the next main batch. |
| PageScan.MainLoopAdvance | app/api/extract-criteria/route.ts:138-146 | After a turn, the batches are the next prefix of main batches and the pages are 1..end. Without a hit the loop state carries over to the next turn; with a hit the scan stops at this batch. |
| PageScan.MainBatchStep | app/api/extract-criteria/route.ts:121-146 | One turn of the main loop fetches and pushes the batch and runs the keyword test. It either keeps the loop state for the next start or reports the early stop with the pages so far. |
| PageScan.MainLoopExhausted | app/api/extract-criteria/route.ts:121 | A main loop that ran past maxPages without a hit has fetched the whole schedule and pages 1..min(numPages, 50). |
| PageScan.HitSchedule | app/api/extract-criteria/route.ts:146-170 | A stop at batch j fixes the schedule: the main batches up to j, then the overscan. The pages are those up to the batch's end followed by the overscan pages. |
| PageScan.ScanPages | app/api/extract-criteria/route.ts:115-172 | The scan fetches exactly the batches of `Schedule`, and `allPages` is pages 1..FetchedCount in page order. |
| ExtractCriteria.SquashWhitespace | app/api/extract-criteria/route.ts:185 | After `\s+` → `' '`, every whitespace character is a plain space, no two are adjacent, and every other character is kept in order. |
| ExtractCriteria.SquashWords | app/api/extract-criteria/route.ts:185 | `\s+` → `' '` gives the words of the input joined by single spaces, with one space in front when the input starts with whitespace and one behind when it ends with whitespace. Whitespace alone becomes one space, or nothing when empty. |
| ExtractCriteria.SquashOfSquashed | app/api/extract-criteria/route.ts:185 | The replacement leaves an already squashed string unchanged. |
| ExtractCriteria.CollapseWithoutNewlines | app/api/extract-criteria/route.ts:186 | The `\n{3,}` replacement changes nothing in a string without newlines. |
| ExtractCriteria.NonWhitespaceOfTrim | app/api/extract-criteria/route.ts:187 | Trimming removes only whitespace. |
| ExtractCriteria.TrimSquashed | app/api/extract-criteria/route.ts:187 | Trimming keeps a squashed string squashed. |
| ExtractCriteria.CleanupShape | app/api/extract-criteria/route.ts:184-187 | The cleaned text has no whitespace at either end, no newline and no two whitespace characters in a row. It keeps every other character of the input, in order. |
| ExtractCriteria.Words | app/api/extract-criteria/route.ts:185 | The maximal runs of non-whitespace characters, in order. There are none exactly when the text is all whitespace. |
| ExtractCriteria.WordsAreWords | app/api/extract-criteria/route.ts:185 | Every element of `Words` is non-empty and holds no whitespace. |
| ExtractCriteria.CleanupJoinsWords | app/api/extract-criteria/route.ts:184-187 | The cleaned text is exactly the words of the input, in order, separated by single spaces, so "a \n\n b" becomes "a b". |
| ExtractCriteria.Cleanup | app/api/extract-criteria/route.ts:184-187 | The three-step cleanup as a function. It has no contract of its own; `CleanupJoinsWords`, `CleanupShape` and `CleanupIdempotent` state it. |
| ExtractCriteria.CollapseNewlineRuns | app/api/extract-criteria/route.ts:186 | `\n{3,}` → `\n\n` as a function. It has no contract of its own; `CollapseWithoutNewlines` states it for the squashed text it is given. |
| ExtractCriteria.CleanupIdempotent | app/api/extract-criteria/route.ts:184-187 | Cleaning twice is cleaning once. |
| ExtractCriteria.PageTexts | app/api/extract-criteria/route.ts:177 | The texts of the pages, one per page, in order. |
| ExtractCriteria.VisionPages | app/api/extract-criteria/route.ts:29-32 | The vision path renders pages 1..min(numPages, 10), in order. |
| ExtractCriteria.RenderVisionPages | app/api/extract-criteria/route.ts:29-55 | The rendering loop visits exactly those pages. |
| ExtractCriteria.DirectText | app/api/extract-criteria/route.ts:174-187 | The scanned pages joined and cleaned. It has no contract of its own; `ExtractPdfText` and `SourceChoice` state it. |
| ExtractCriteria.PdfText | app/api/extract-criteria/route.ts:107-200 | The PDF branch as a function. It has no contract of its own; `SourceChoice`, `ExtractPdfText` and `ExtractionOutcomes` state it. |
| ExtractCriteria.SourceChoice | app/api/extract-criteria/route.ts:192-200 | Direct text is used exactly when its cleaned length is strictly over 500. Otherwise the vision text of pages 1..min(numPages, 10) is used, or "" when the model returns no content. An error from the vision model propagates. |
| ExtractCriteria.ExtractPdfText | app/api/extract-criteria/route.ts:107-200 | The PDF branch (load, batch scan, join with "\n\n", cleanup, vision fallback) computes `PdfText`. |
| ExtractCriteria.Classify | app/api/extract-criteria/route.ts:103-222 | PDF by MIME type or ".pdf" name, checked first. DOCX by MIME type or ".docx" name. Plain text by MIME type only. Anything else is unsupported. Each case is stated as an if-and-only-if. |
| ExtractCriteria.Preview | app/api/extract-criteria/route.ts:274 | The preview is the first min(length, 500) characters of the text followed by "...". |
| ExtractCriteria.RespondDispatch | app/api/extract-criteria/route.ts:92-281 | A missing file and an unsupported type give 400, whatever the libraries would do. For a file with a text to send, a criteria answer gives `Extracted` with the file's name, those criteria and the preview of the text. An error from the model is a 500 with its message, or "Failed to process document". Conversely, every `Extracted` response comes from the text sent. |
| ExtractCriteria.LengthFloorOnlyForPdf | app/api/extract-criteria/route.ts:202-207 | A PDF whose final text is under 100 characters gets the short-text 400. Only a PDF can get it, and only after its direct text was 500 characters or fewer. An accepted PDF text has at least 100 characters. |
| ExtractCriteria.ExtractionOutcomes | app/api/extract-criteria/route.ts:103-227 | Plain text is always sent. A DOCX conversion that returns is sent, and one that throws is a 500 with its message or the default. A PDF whose processing throws is a 500 with "Failed to process PDF: " and the message. A PDF text under 100 characters is a 400, and a longer one is sent. An unsupported file sends nothing. |
| ExtractCriteria.Respond | app/api/extract-criteria/route.ts:87-283 | The handler as a function. It has no contract of its own: `RespondDispatch`, `ExtractionOutcomes` and `LengthFloorOnlyForPdf` state every case, and `HandleExtract` is proved to compute it. |
| ExtractCriteria.DocumentText | app/api/extract-criteria/route.ts:100-228 | The text handed to the criteria model, or none when the request ends first. It has no contract of its own; `ExtractionOutcomes`, `LengthFloorOnlyForPdf` and `RespondDispatch` state it. |
| ExtractCriteria.Analyse | app/api/extract-criteria/route.ts:230-275 | The criteria call and the response built from it. It has no contract of its own; `RespondDispatch` states both of its outcomes. |
| ExtractCriteria.HandleExtract | app/api/extract-criteria/route.ts:87-283 | The handler's statement sequence computes `Respond`: 400s, 500s with the PDF prefix or the passed-through message, and the success body. |
| InitiateCall.FormatNumber | app/api/initiate-call/route.ts:60-64 | The result starts with '+'. It is the trimmed input when that starts with '+'. Otherwise it is "+1" followed by exactly the ASCII digits of the trimmed input. |
| InitiateCall.FormatNumberIdempotent | app/api/initiate-call/route.ts:60-64 | Normalising a normalised number changes nothing. |
| InitiateCall.FormatNumberOfDigits | app/api/initiate-call/route.ts:61-63 | A string of digits gets "+1" in front, so "5551234567" gives "+15551234567". |
| InitiateCall.FormatNumberDropsNonDigits | app/api/initiate-call/route.ts:61-63 | Without a leading '+', every non-digit is dropped wherever it stands, so "1-555-123-4567" gives "+115551234567". |
| InitiateCall.DigitsOnlyOfTrim | app/api/initiate-call/route.ts:60-63 | Trimming removes no digit. |
| InitiateCall.PlanCall | app/api/initiate-call/route.ts:8-64 | The guards run in their order: missing fields (400), missing key (500), listing threw (500, message passed), listing not ok (500), null or empty list (400). Once all of them pass, the call is placed from the first listed number to the normalised destination, and it is placed in no other case. |
| InitiateCall.CallOutcome | app/api/initiate-call/route.ts:80-103 | A failed reply passes the platform's status through with "Failed to initiate call: " + body. Success copies the conversation id and the call SID, with the platform's message or "Call initiated to " + destination. An exception gives 500. |
| InitiateCall.GuardsPrecedeFetches | app/api/initiate-call/route.ts:8-51 | Missing fields give the same 400 whatever the key, the listing and the call would be. A missing key gives the same 500 whatever the platform would say. A rejected plan never consults the call, and the handler answers with that rejection: the listing's thrown message, the not-ok 500 or the empty-list 400. |
| InitiateCall.Initiate | app/api/initiate-call/route.ts:3-105 | The handler as a function. It has no contract of its own: `GuardsPrecedeFetches` states its answer for every rejected plan, and `PlacedCall` with `CallOutcome` its answer for a placed call. |
| InitiateCall.PlacedCall | app/api/initiate-call/route.ts:54-78 | A placed call uses the first entry's phone_number_id and a destination starting with '+'. The response is the outcome of that call. |
| GenerateScript.Line | app/api/generate-script/route.ts:27-30 | The `${i + 1}. ${c}` callback. It has no contract of its own; `LineNumber` and `NumberingRestarts` state it. |
| GenerateScript.NumberedLines | app/api/generate-script/route.ts:27 | There is one line per criterion. |
| GenerateScript.NumberedList | app/api/generate-script/route.ts:27-30 | A rendered list is empty exactly when the list is. |
| GenerateScript.LineNumber | app/api/generate-script/route.ts:27 | Line k is the decimal number k+1, then ". ", then criterion k. |
| GenerateScript.NumberedListSnoc | app/api/generate-script/route.ts:27 | A further criterion adds one line after a "\n", with no trailing newline, numbered one past the last. |
| GenerateScript.NumberingRestarts | app/api/generate-script/route.ts:27-30 | Each non-empty list starts with "1. " and its first criterion, so exclusion numbering restarts at 1. |
| GenerateScript.NumberedListLines | app/api/generate-script/route.ts:27 | For criteria without newlines, splitting the rendering on "\n" gives one line per criterion, in order. |
| GenerateScript.NamesFor | app/api/generate-script/route.ts:24-50 | A truthy study name appears in all three places. Otherwise the places get "Clinical Trial", "clinical trial" and "the specific trial". |
| GenerateScript.FallbacksDiffer | app/api/generate-script/route.ts:24-50 | The three places agree exactly when a study name was given. |
| GenerateScript.ScriptPrompt | app/api/generate-script/route.ts:22-79 | The prompt as a function. It has no contract of its own; `PromptSections` states its parts. |
| GenerateScript.PromptSections | app/api/generate-script/route.ts:22-79 | The prompt opens with the study line and contains the numbered inclusion list under its title, followed by the numbered exclusion list under its own. It ends with the instructions, which name the study as the role (line 35) and in the DO-NOT line (line 50). |
| GenerateScript.Generate | app/api/generate-script/route.ts:13-110 | A missing list gives 400. For a complete request, the model's answer to this prompt gives `Generated` with its content, or "" when there is none. An error from the model is a 500 with its message or "Failed to generate script". |
| GenerateScript.ValidationFirst | app/api/generate-script/route.ts:13-18 | A request missing a list gets the same 400 whatever the model would answer. Empty lists are accepted. |

## Left out

**Outside services and libraries**
- Language-model calls. The model name, temperature, token limits, system messages and `JSON.parse` of the answer are oracles, not modelled. The criteria model's answer is taken as already parsed into two lists.
- Prompt prose. The opening sentence, the section titles and the lead-in to the role section are as in the route. The workflow instructions and everything after the third study name are abbreviated to bracketed placeholders in `ScopeLead` and `Closing`.
- The PDF, DOCX and OCR libraries. pdfjs loading and `getTextContent`, canvas rendering and PNG/base64 encoding, mammoth, and the unused tesseract import are left out. A page's text is given as an input. `extractPDFTextWithVision` reloading the PDF and rendering each page are part of the vision oracle.
- HTTP and environment plumbing. Console logging, environment reading, `NextResponse`, the `success: true` field, and failures of `request.json()` / `request.formData()` are left out. These failures end up in each route's catch-all 500.

**Order, types and strings**
- Concurrency. `Promise.all` fetches a batch's pages concurrently but keeps their order. The model fetches them one after another in that order.
- Sorting. The sort of `allPages` by page number is not modelled as an operation. `FetchRangeNumbers` and `ScanPages` show the pages are already in that order, so the sort changes nothing.
- Non-string and non-array inputs. The modelled fields take only strings and lists: a number where `phoneNumber` is expected (where `trim` throws), a listing that is not an array, or criteria that are not arrays. The model only has present strings and lists, or missing ones (`None`).
- A `file` form field that is a string rather than a file. A non-empty string passes the presence check, and `file.arrayBuffer()` then throws, giving the catch-all 500 (app/api/extract-criteria/route.ts:90-101). An empty string is falsy and gets the "No file uploaded" 400 like a missing file. The model's upload is always a file.
- Error messages that are not strings. An exception without a `message` gives "Failed to process PDF: undefined" in the source. It is modelled as a message string.
- String semantics. `toLowerCase` is ASCII-only in the model, whereas JavaScript's is full Unicode. Lengths count Unicode scalar values, not UTF-16 code units. `\s` and `trim()` use the fixed ECMAScript whitespace set.

**Not part of this model**
- app/api/create-voice-agent/route.ts. It is request sequencing against the voice platform.
- app/page.tsx and app/layout.tsx. They are UI and static metadata.
