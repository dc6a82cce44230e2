# StudyMate front-end state machines in Dafny

StudyMate is a small React front end for a document question-answering
demo. It has no real back end. Uploaded PDFs run through simulated progress,
and the chat answers with one of five canned replies. This project models the
three pieces of client state and proves what their event handlers do to it:

- **Upload widget** (`Uploads`, `uploads.dfy`). The list of uploaded-file rows is
  keyed by id. Dropping a file appends a row and drives it through a fixed
  sequence: uploading at 0, then 0, 10, …, 100; processing at 0, then 0, 20, …,
  100; completed at 100. A row can also be removed by id. Each status maps to
  its icon and label.
  The class `Uploader` holds the list (`files`) and a ghost `history` with one
  entry per state update (`setUploadedFiles` call). `ProcessFile` states the
  list after each update: the old list with the new row, at the next stage of
  `Trajectory()`, at its end. The
  lemmas about `Trajectory()` give the progress properties: no `Error`,
  progress stays in 0..100, status only moves forward, progress never falls
  within a phase, and the file ends completed at 100.
- **Chat widget** (`Chat`, `chat.dfy`). The class `ChatSession` holds the
  message list, the input and the loading flag. `Send` is the part of
  `handleSendMessage` before the reply delay. It rejects blank input (blank
  in the sense of ECMAScript `trim`) and rejects a send while a reply is
  pending. Otherwise it appends the user turn and the "Thinking" placeholder.
  `Reply` is the part after the delay. It filters out the placeholder and
  appends a canned reply. The invariant `Conversation` holds throughout:
  the greeting comes first; the placeholder appears only in last place, and
  exactly while a reply is pending; every later AI turn is one of the canned
  replies.
- **Page coordinator** (`Page`, `page.dfy`). The class `StudyMatePage` holds
  `showMainApp`, the processed files and the active tab. Its handlers switch
  the view, and a non-empty file list routes to the chat tab. `ViewOf` says
  which view the page shows.
- `Seqs` (`seqs.dfy`) holds the order-preserving `Filter` that both
  widgets use, with its lemmas.

Each `await` of the source is a plain sequential step. The 2000 ms reply
delay is the boundary between `Send` and `Reply`, and `HandleSendMessage`
runs both. Ids, timestamps and the random reply index are parameters. The
reply index `k` satisfies `k < 5`, the range that
`Math.floor(Math.random() * 5)` produces.

## Model

| member | source | states |
|---|---|---|
| `Uploads.MapById` | study-oracle/src/components/StudyMate/PDFUploader.tsx:50-52 | the per-id update keeps the length; every row with the id is patched; every other row is unchanged in place |
| `Uploads.MapByIdAbsent` | study-oracle/src/components/StudyMate/PDFUploader.tsx:63-65 | an update for an id that no row has leaves the list unchanged |
| `Uploads.MapByIdNewest` | study-oracle/src/components/StudyMate/PDFUploader.tsx:56-58 | when the newest row's id is not shared by older rows, updating that id patches only the last row |
| `Uploads.RemoveById` | study-oracle/src/components/StudyMate/PDFUploader.tsx:92-94 | no row with the id remains; every row with another id is kept; nothing new appears |
| `Uploads.RemoveByIdIdempotent` | study-oracle/src/components/StudyMate/PDFUploader.tsx:92-94 | removing twice equals removing once |
| `Uploads.RemoveByIdAbsent` | study-oracle/src/components/StudyMate/PDFUploader.tsx:93 | removing an id that no row has changes nothing |
| `Uploads.RemoveByIdExisting` | study-oracle/src/components/StudyMate/PDFUploader.tsx:92-94 | with unique ids, removing row k's id gives exactly the rows before k followed by the rows after k |
| `Uploads.WellFormedSnoc` | study-oracle/src/components/StudyMate/PDFUploader.tsx:36-45 | appending a row whose id is new, whose status is not `Error` and whose progress is in 0..100 keeps the ids unique and every row in range |
| `Uploads.RampValues` | study-oracle/src/components/StudyMate/PDFUploader.tsx:48-66 | the upload loop visits exactly 0,10,…,100 and the processing loop exactly 0,20,…,100, in increasing order |
| `Uploads.Trajectory` | study-oracle/src/components/StudyMate/PDFUploader.tsx:36-71 | the stage sequence of `processFile` has 20 stages; it starts with the appended row at (uploading, 0) and ends at (completed, 100) |
| `Uploads.TrajectoryAt` | study-oracle/src/components/StudyMate/PDFUploader.tsx:36-71 | there are 20 stages: the appended row (uploading, 0); uploading 10k for k in 0..10; (processing, 0); processing 20k for k in 0..5; (completed, 100) |
| `Uploads.TrajectoryProperties` | study-oracle/src/components/StudyMate/PDFUploader.tsx:14-71 | no stage is `Error`; progress stays in 0..100; status never moves backwards; progress never falls within a status; the last stage is (completed, 100) |
| `Uploads.StatusIcon` | study-oracle/src/components/StudyMate/PDFUploader.tsx:96-106 | uploading and processing, and only they, show the spinner; completed shows the check icon; error shows the alert icon |
| `Uploads.StatusText` | study-oracle/src/components/StudyMate/PDFUploader.tsx:108-119 | every status has a non-empty label; "Ready for Q&A" is shown exactly for completed files and "Error occurred" exactly for the error status |
| `Uploads.StatusTextDistinct` | study-oracle/src/components/StudyMate/PDFUploader.tsx:108-119 | the label mapping is total, and different statuses get different labels |
| `Uploads.ShowsProgressBar` | study-oracle/src/components/StudyMate/PDFUploader.tsx:221-223 | the progress bar is shown exactly when the spinner is |
| `Uploads.PhaseStep` | study-oracle/src/components/StudyMate/PDFUploader.tsx:48-66 | one pass of either progress loop: setting the new progress on the newest row changes only that row, and the recorded list is the next stage of the phase |
| `Uploads.StageSwitch` | study-oracle/src/components/StudyMate/PDFUploader.tsx:56-71 | the switch to processing and the completion patch only the newest row, which then shows exactly the new status and progress |
| `Uploads.Uploader.constructor` | study-oracle/src/components/StudyMate/PDFUploader.tsx:23 | the list starts empty |
| `Uploads.Uploader.Append` | study-oracle/src/components/StudyMate/PDFUploader.tsx:45 | the new row goes at the end, the existing rows are unchanged, and the new list is recorded; the row is never in the error state |
| `Uploads.Uploader.Update` | study-oracle/src/components/StudyMate/PDFUploader.tsx:50-52 | the new list is the per-id update of the old one, and it is recorded; like every update in the source, it never sets the error status |
| `Uploads.Uploader.UploadPhase` | study-oracle/src/components/StudyMate/PDFUploader.tsx:47-53 | records the row at uploading 0,10,…,100 in order, with the rest of the list unchanged |
| `Uploads.Uploader.ProcessingPhase` | study-oracle/src/components/StudyMate/PDFUploader.tsx:60-66 | records the row at processing 0,20,…,100 in order, with the rest of the list unchanged |
| `Uploads.Uploader.ProcessFile` | study-oracle/src/components/StudyMate/PDFUploader.tsx:33-72 | appends the row at (uploading, 0); each list recorded after that is the old list plus the row at the next stage; the row ends (completed, 100); ids stay unique and no row is ever `Error` |
| `Uploads.Uploader.Drop` | study-oracle/src/components/StudyMate/PDFUploader.tsx:74-77 | the files of a batch are processed in order; each ends as a completed row appended in drop order |
| `Uploads.Uploader.RemoveFile` | study-oracle/src/components/StudyMate/PDFUploader.tsx:92-94 | the new list is the old list without the rows that have the id; the invariant is kept |
| `Chat.TrimStart` | study-oracle/src/components/StudyMate/ChatInterface.tsx:88 | the result is a suffix of the input; everything dropped is white space; the result does not start with white space |
| `Chat.TrimEnd` | study-oracle/src/components/StudyMate/ChatInterface.tsx:88 | the result is a prefix of the input; everything dropped is white space; the result does not end with white space |
| `Chat.Trim` | study-oracle/src/components/StudyMate/ChatInterface.tsx:88 | `inputValue.trim()` is a contiguous piece of the input that neither starts nor ends with white space; `TrimDropsOnlyWhiteSpace` adds that what it cuts off is white space |
| `Chat.TrimDropsOnlyWhiteSpace` | study-oracle/src/components/StudyMate/ChatInterface.tsx:88 | the trimmed input sits in the input at some position, and every character before and after it is white space, so `trim` cuts off white space only, and all of it |
| `Chat.TrimEmptyIffBlank` | study-oracle/src/components/StudyMate/ChatInterface.tsx:88 | the trimmed input is empty exactly when every character is white space |
| `Chat.CanSend` | study-oracle/src/components/StudyMate/ChatInterface.tsx:88 | the send guard: the trimmed input is non-empty and no reply is pending; `CanSendIff` gives its meaning |
| `Chat.CanSendIff` | study-oracle/src/components/StudyMate/ChatInterface.tsx:228 | the send button is enabled exactly when nothing is loading and some character of the input is not white space |
| `Chat.Response` | study-oracle/src/components/StudyMate/ChatInterface.tsx:68-78 | the five reply texts, verbatim, indexed 0 to 4; `Reply` appends exactly `Response(k)` |
| `Chat.WithoutTyping` | study-oracle/src/components/StudyMate/ChatInterface.tsx:66 | no placeholder survives the filter; every other message is kept; nothing new appears |
| `Chat.WithoutTypingNone` | study-oracle/src/components/StudyMate/ChatInterface.tsx:66 | a list with no placeholder passes the filter unchanged |
| `Chat.WithoutTypingDropsLast` | study-oracle/src/components/StudyMate/ChatInterface.tsx:66 | if the placeholder is last and nowhere else, the filter removes exactly the last message and keeps the rest in order |
| `Chat.SendKeepsConversation` | study-oracle/src/components/StudyMate/ChatInterface.tsx:49-60 | appending a user turn and an empty AI placeholder to a conversation with no pending reply gives a conversation with a pending reply |
| `Chat.ReplyKeepsConversation` | study-oracle/src/components/StudyMate/ChatInterface.tsx:63-84 | in a conversation with a pending reply, the filter removes exactly the last message, and appending a canned reply gives a conversation with nothing pending |
| `Chat.ChatSession.constructor` | study-oracle/src/components/StudyMate/ChatInterface.tsx:22-31 | the session starts with exactly the greeting, an empty input and no loading, and the invariant holds |
| `Chat.ChatSession.OfferedQuestions` | study-oracle/src/components/StudyMate/ChatInterface.tsx:193-200 | the first three suggested questions are offered; in every reachable conversation they are offered exactly when the conversation is the greeting alone, and an accepted `Send` removes them |
| `Chat.ChatSession.Send` | study-oracle/src/components/StudyMate/ChatInterface.tsx:87-100 | a blank input or a pending reply changes nothing; otherwise it appends the user turn (with the untrimmed input), then the placeholder, clears the input and sets loading, after which no suggestions are offered. The synchronous part of `simulateAIResponse` (lines 49-60) is included |
| `Chat.ChatSession.Reply` | study-oracle/src/components/StudyMate/ChatInterface.tsx:63-84 | the placeholder, which is the last message, and nothing else is removed (`ReplyKeepsConversation` shows this is the placeholder filter of line 66); canned reply k, `Response(k)`, is appended; loading becomes false; the input is unchanged and the invariant is kept |
| `Chat.ChatSession.HandleSendMessage` | study-oracle/src/components/StudyMate/ChatInterface.tsx:48-101 | a full accepted send grows the list by exactly two: the user turn, then canned reply k. No placeholder remains and nothing is loading. A rejected send changes nothing |
| `Chat.ChatSession.KeyPress` | study-oracle/src/components/StudyMate/ChatInterface.tsx:103-108 | Enter without Shift takes the send path; any other key changes nothing |
| `Chat.ChatSession.ChooseSuggestion` | study-oracle/src/components/StudyMate/ChatInterface.tsx:110-112 | the question becomes the input; the messages and the loading flag are unchanged |
| `Chat.ChatSession.ChangeInput` | study-oracle/src/components/StudyMate/ChatInterface.tsx:220-224 | typing replaces the input unless a reply is pending, because the input is disabled then |
| `Seqs.Filter` | study-oracle/src/components/StudyMate/PDFUploader.tsx:93 | the filter never lengthens its input, and every element it returns passes the test |
| `Seqs.FilterMembers` | study-oracle/src/components/StudyMate/PDFUploader.tsx:93 | everything the filter returns comes from its input, and every input element that passes the test is returned |
| `Seqs.FilterConcat` | study-oracle/src/components/StudyMate/PDFUploader.tsx:93 | filtering a concatenation filters each part and keeps the parts in order |
| `Seqs.FilterKeepsAll` | study-oracle/src/components/StudyMate/PDFUploader.tsx:93 | a list whose every element passes the test comes back unchanged, as with the placeholder filter of ChatInterface.tsx line 66 |
| `Seqs.FilterIdempotent` | study-oracle/src/components/StudyMate/PDFUploader.tsx:93 | filtering twice with the same test equals filtering once |
| `Seqs.FilterDropsOne` | study-oracle/src/components/StudyMate/PDFUploader.tsx:93 | when the test rejects exactly one position, the filter cuts out that element and keeps the rest in order |
| `Seqs.FilterPairwise` | study-oracle/src/components/StudyMate/PDFUploader.tsx:93 | a relation between every earlier and later element still holds after filtering, because the filter keeps the relative order |
| `Page.ViewOf` | study-oracle/src/pages/StudyMate.tsx:26-147 | the landing view shows exactly when the app is closed; the upload panel exactly on the upload tab; the chat exactly on the chat tab with a non-empty file list; otherwise the "no documents" notice |
| `Page.StudyMatePage.constructor` | study-oracle/src/pages/StudyMate.tsx:11-13 | the page starts with the app closed, no files and the upload tab |
| `Page.StudyMatePage.GetStarted` | study-oracle/src/pages/StudyMate.tsx:15-17 | opens the app; the files and the tab are unchanged |
| `Page.StudyMatePage.FilesProcessed` | study-oracle/src/pages/StudyMate.tsx:19-24 | the file list becomes the given one; a non-empty list selects the chat tab, so an open app then shows the chat; an empty list leaves the tab unchanged |
| `Page.StudyMatePage.Back` | study-oracle/src/pages/StudyMate.tsx:44 | closes the app, which brings back the landing view; the files and the tab are unchanged |
| `Page.StudyMatePage.GoToUpload` | study-oracle/src/pages/StudyMate.tsx:144 | selects the upload tab and changes nothing else |
| `Page.StudyMatePage.SelectTab` | study-oracle/src/pages/StudyMate.tsx:76 | clicking a tab trigger selects that tab |

## Left out

- The upload-completion notice (PDFUploader.tsx lines 79-81) is not modelled. It filters the `uploadedFiles` snapshot captured when `onDrop` was created, before the batch began. So the first batch always reports an empty list, and later batches report only files that had completed before that batch. It is unclear whether the intent is every file completed so far or just this batch. This is an open question. One consequence: the page's automatic switch to the chat tab does not happen after the first upload, because `handleFilesProcessed` receives an empty list. `FilesProcessed` models the page handler for any list it is given.
- Uploads.Uploader.Drop: states the final list but not the intermediate lists of a batch. `ProcessFile` states those for each file.
- Interleaving of handlers during the simulated delays is not modelled, because every `await` is a sequential step. Examples are a second drop while a batch runs, or removing a file while its progress loops run. On its own, `MapByIdAbsent` shows that updates to a removed id change nothing.
- Timers and delays (100 ms, 300 ms, 2000 ms) are replaced by sequencing. Nothing can be cancelled, matching the source.
- Ids from `Date.now()` and `Math.random()` are parameters, and so is the random reply index; timestamps are dropped. Uploads require an id that is not in the list yet. The chat puts no requirement on its ids.
- The `file: File` handle of an uploaded row is dropped. The size label is a parameter, because `formatFileSize` uses floating-point `Math.log`, `Math.pow` and `toFixed`.
- Dropzone MIME and extension filtering (PDFUploader.tsx lines 84-90) is library behaviour. Every dropped file given to `Drop` is treated as accepted.
- Rendering, animation, CSS and the scroll-to-bottom effect (ChatInterface.tsx lines 42-46) are not modelled. Nor is the chat header's document count (lines 125-128), the only use of the chat's `uploadedFiles` prop. HeroSection.tsx is not part of this model, because its only behaviour is the "get started" callback, modelled as `GetStarted`.
- `Reply` is the continuation after the reply delay. It exists only after an accepted `Send`, so it requires a pending reply.
- The ghost `history` of `Uploader` records one list per `setUploadedFiles` call, not one per render. Nothing is awaited between the last pass of the upload loop and the switch to processing, nor between the last pass of the processing loop and the completion. React 18 batches each of these pairs, so the lists with the row at (uploading, 100) and at (processing, 100) are recorded in `history` but never rendered.
- React batches the state updates that happen before an `await`. So `Send` yields the list with both the user turn and the placeholder, because that is the state the page renders. The intermediate list with only the user turn is never rendered.
- Strings are Dafny `string`s: sequences of Unicode scalar values, not the UTF-16 code units of a JavaScript string. Nothing the core does depends on the difference. Every code point `trim` strips lies in the Basic Multilingual Plane, and message contents are copied unchanged.
- The `activeTab` string is the two-valued `Tab`. The tab triggers only ever produce "upload" and "chat".
