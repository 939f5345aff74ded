# Mineral Lens: a Dafny model

Mineral Lens is a single-page web app for identifying minerals. The user
uploads a photo, and a hosted generative model returns a structured
analysis. The app shows that analysis and opens a follow-up chat seeded with
it. This project models the app's logic in Dafny and proves properties of
the model:

- **types** (`Types`, types.ts): the analysis record, chat messages and the
  three view states.
- **upload gate** (`ImageUpload`, components/ImageUpload.tsx):
  - the MIME-prefix check;
  - the `split`-based reading of the data URL into payload and media type,
    with a format-then-parse round trip under stated character restrictions;
  - the first-file choice;
  - the drag-highlight flag.
- **service client** (`GeminiService`, services/geminiService.ts):
  - the analysis request and its required-field list;
  - the empty-reply rejection and the rethrow;
  - the chat system instruction, with the joins and candidate labels it is
    built from.
- **view controller** (`App`, App.tsx): a class with four fields. Its
  invariant `App.App.Valid` says that the result state holds an analysis
  and the chat session built from it, that a chat session is held only in
  the result state, and that an image is held exactly outside the upload
  form. Every handler is proved to keep it. The handlers are written as
  methods, and the page-body branch choice is a function.
- **chat panel** (`ChatInterface`, components/ChatInterface.tsx): a class
  over the transcript, the input and the busy flag. `handleSend` and its
  chunk loop are methods proved against a transcript function.
- **result view** (`MineralResult`, components/MineralResult.tsx):
  - the three-band confidence colour;
  - the rendered page, proved to carry the whole analysis in order, with
    reasons numbered from 1.
- **string helpers** (`Strings`): the JavaScript string operations the core
  uses, which are `join`, one-character `split`, `startsWith`, `trim` (in
  `ChatInterface`) and `${n}` number interpolation. `split` and `join` are
  proved to invert each other, and the decimal text of a number is proved
  to parse back. `IsInfix` is not a source operation: it is the predicate
  in which the chat instruction's contents are stated.

The hosted model is an oracle passed in as a function. This covers
`generateContent`, `JSON.parse` of its reply, and `sendMessageStream`. The
stream oracle scripts either a rejected request, or a sequence of chunks
(each with an optional text) followed by completion or a mid-stream failure.
Each asynchronous handler runs as one atomic step. `handleImageSelected` is
split at its `await` into `SelectImage` and `CompleteAnalysis`, and
`HandleImageSelected` composes the two.

Two behaviours of the chat panel (components/ChatInterface.tsx:33-52) are
easy to misread, and the model states them as the code does:

- The empty model placeholder is appended only after `sendMessageStream`
  resolves, so a rejected request never leaves a placeholder.
- A failure *appends* the apology, so a stream that breaks mid-way leaves
  the partial answer and the apology as two model messages.

## Model

| member | source | states |
|---|---|---|
| Strings.TakeUntil | components/ImageUpload.tsx:20-21 | the result is the longest prefix free of the separator; it is the whole text exactly when the separator does not occur |
| Strings.SplitChar | components/ImageUpload.tsx:20-21 | `split` on one character gives at least one part, no part holds the separator, and joining the parts with it (`Strings.Join`) gives the text back |
| Strings.SplitHead | components/ImageUpload.tsx:21 | the first part of a split is the text before the first separator |
| Strings.SplitTail | components/ImageUpload.tsx:20 | a split has a second part exactly when the separator occurs, and the later parts split what follows the first separator |
| Strings.SplitWithoutSeparator | components/ImageUpload.tsx:20-21 | text without the separator splits into itself alone |
| Strings.SplitGlued | components/ImageUpload.tsx:20-21 | a separator-free prefix ends up glued to the first part of the split |
| Strings.Prefixed | services/geminiService.ts:102-104 | each part is preceded by the given text, in order |
| Strings.SplitJoin | services/geminiService.ts:102-104 | pins down `Strings.Join`: splitting a `join` at its separator's first character gives back every part in order, each later one behind the rest of the separator, when no part holds that character |
| Strings.InfixWithin | services/geminiService.ts:95-108 | text occurring in a suffix occurs in the whole |
| Strings.InfixWithin2 | services/geminiService.ts:95-108 | text occurring after two pieces occurs in the whole |
| Strings.InfixAt | services/geminiService.ts:95-108 | an interpolated value occurs in the template it is placed in |
| Strings.DigitChar | services/geminiService.ts:104 | the digit character for a value below ten denotes that value |
| Strings.NatToString | services/geminiService.ts:104 | a natural number renders as a non-empty string of decimal digits with no leading zero |
| Strings.NatToStringValue | services/geminiService.ts:104 | the digits of a natural number denote that number |
| Strings.IntToString | services/geminiService.ts:104 | the interpolated decimal text `${n}` of any integer, negative ones included, parses back to that integer |
| GeminiService.AnalysisRequestFor | services/geminiService.ts:57-82 | the request goes to the analysis model with the given payload and media type and asks for JSON; its schema requires exactly the ten fields of the analysis record, each once |
| GeminiService.AnalysisOutcome | services/geminiService.ts:84-91 | a rejected request is rethrown unchanged; an absent or empty text throws "No response from AI"; a non-empty text gives exactly what decoding it gives, success or error; a result is produced only from a non-empty text |
| GeminiService.AnalyzeMineralImage | services/geminiService.ts:60-92 | the method sends the request built for the image and resolves or rejects exactly as `AnalysisOutcome` says |
| GeminiService.CandidateLabel | services/geminiService.ts:104 | a candidate renders as its name, then " (", then a number that parses back to its confidence, then "%)" |
| GeminiService.CandidateLabels | services/geminiService.ts:104 | there is one label per candidate, in list order |
| GeminiService.InstructionMentions | services/geminiService.ts:94-116 | pins down `GeminiService.MineralChat` and `GeminiService.SystemInstruction`: the session asked for runs on the analysis model, and its instruction contains "English (Chinese)", the description, the formula, and the history, social-topic and candidate lines verbatim |
| GeminiService.CreateMineralChat | services/geminiService.ts:94-116 | the session is created exactly when `ai.chats.create` does not throw, and it is the one asked for; otherwise its error is passed on unchanged |
| GeminiService.FromDescriptionMentions | services/geminiService.ts:100-108 | the description and every later value occur in the instruction from the description line on |
| GeminiService.FromFormulaMentions | services/geminiService.ts:101-108 | the formula and every later value occur in the instruction from the formula line on |
| GeminiService.FromHistoryMentions | services/geminiService.ts:102-108 | the history line and every later line occur in the instruction from the history line on |
| GeminiService.FromSocialTopicsMentions | services/geminiService.ts:103-108 | the social-topics and candidate lines occur in the instruction from the social-topics line on |
| GeminiService.StoriesRecoverable | services/geminiService.ts:102 | the history line is the stories in their original order: splitting it at ';' gives the first story, then each later one behind the space of "; " |
| GeminiService.TopicsRecoverable | services/geminiService.ts:103 | the social-topics line is the topics in their original order, in the same sense |
| GeminiService.CandidatesRecoverable | services/geminiService.ts:104 | the candidate line is the candidate labels in list order, separated by ", ", when no name holds a comma |
| GeminiService.CommaFreeLabel | services/geminiService.ts:104 | a candidate label holds a comma only if the name does |
| ImageUpload.ParseDataUrl | components/ImageUpload.tsx:18-21 | the payload is present exactly when the URL has a comma, and it is the text between the first and second comma; the media type is present exactly when a colon precedes the first semicolon, and it is the text after that colon, up to any second colon |
| ImageUpload.SplitSecond | components/ImageUpload.tsx:20-21 | index 1 of a split is defined exactly when the separator occurs, and it is the text between the first and second separator |
| ImageUpload.TakeUntilGlued | components/ImageUpload.tsx:20-21 | in a text glued around a first separator, the parts before and after it are the pieces glued |
| ImageUpload.TakeUntilBeforeSeparator | components/ImageUpload.tsx:20-21 | the text before the first separator of a glued text is the separator-free piece in front of it |
| ImageUpload.DataUrlRoundTrip | components/ImageUpload.tsx:18-22 | for `data:M;base64,B` with no ';', ':' or ',' in M and no ',' in B, the callback receives exactly (B, M) |
| ImageUpload.PayloadOfDataUrl | components/ImageUpload.tsx:20 | the payload read from a formatted data URL is the payload written |
| ImageUpload.MediaTypeOfDataUrl | components/ImageUpload.tsx:21 | the media type read from a formatted data URL is the media type written |
| ImageUpload.HeaderOfDataUrl | components/ImageUpload.tsx:21 | what precedes the first ';' of a formatted data URL is "data:" followed by the media type |
| ImageUpload.MediaTypeOfHeader | components/ImageUpload.tsx:21 | the text after the colon of "data:", up to any second colon, is the media type |
| ImageUpload.ProcessFile | components/ImageUpload.tsx:10-25 | a file is rejected with "Please upload an image file." exactly when its type does not start with "image/"; an image whose read failed makes the callback throw before anything is handed over; otherwise the callback gets the split of its data URL |
| ImageUpload.ProcessFirst | components/ImageUpload.tsx:30-31 | nothing is processed exactly when the file list is empty |
| ImageUpload.OnlyFirstFileMatters | components/ImageUpload.tsx:30-31 | files after the first never change what is processed |
| ImageUpload.DropZone.constructor | components/ImageUpload.tsx:8 | the zone starts without the drag highlight |
| ImageUpload.DropZone.DragOver | components/ImageUpload.tsx:51 | drag-over sets the highlight |
| ImageUpload.DropZone.DragLeave | components/ImageUpload.tsx:52 | drag-leave clears the highlight |
| ImageUpload.DropZone.HandleDrop | components/ImageUpload.tsx:27-33 | a drop clears the highlight and processes only the first dropped file, if any |
| ImageUpload.DropZone.HandleFileInput | components/ImageUpload.tsx:35-39 | a selection processes only its first file, does nothing for an empty list, and leaves the highlight alone |
| App.Branches | App.tsx:55-78 | at most one page branch renders; the upload and loading branches render exactly in their states; the result branch renders exactly in the result state with an analysis and a non-empty image, and it shows those two |
| App.App.constructor | App.tsx:11-14 | the app starts on the upload form with no image, analysis or chat session, and the invariant holds |
| App.App.SelectImage | App.tsx:23-25 | the image is stored and the loading screen entered before anything about the analysis is known; nothing else changes; it is callable from the upload form and while an analysis runs, not from the result |
| App.App.Fail | App.tsx:37-41 | the user is alerted with the failure text, the app returns to the upload form and the image is dropped; the analysis and the session are not written |
| App.App.CompleteAnalysis | App.tsx:27-41 | on success the stored analysis is the returned one; if the chat is then created from that same analysis the result is shown; if the analysis or the chat creation fails the user is alerted, the app returns to the upload form and the image is dropped; a failed analysis writes no analysis, a failed chat creation leaves the new analysis stored |
| App.App.HandleImageSelected | App.tsx:23-42 | the whole handler ends in the result state holding the analysis and its chat when both succeed, or back on the upload form with no image or session and the alert raised, still holding the analysis if only the chat creation failed; `App.App.Valid` is kept |
| App.App.HandleReset | App.tsx:44-49 | from any state, all four fields return to their initial values, so a second reset changes nothing |
| App.ReachableViews | App.tsx:55-65 | in every state `App.App.Valid` allows, exactly one branch renders, except the result state with an empty image string, where none does |
| ChatInterface.TrimStart | components/ChatInterface.tsx:24 | only leading white space is removed, and all of it |
| ChatInterface.TrimEnd | components/ChatInterface.tsx:24 | only trailing white space is removed, and all of it |
| ChatInterface.Trim | components/ChatInterface.tsx:24 | the trimmed input is empty exactly when every character is white space, and a non-empty one neither starts nor ends with white space |
| ChatInterface.AccumulatedAppend | components/ChatInterface.tsx:38-41 | pins down `ChatInterface.Accumulated`: accumulating two runs of chunks in turn concatenates their texts |
| ChatInterface.AccumulatedGrows | components/ChatInterface.tsx:38-48 | every text shown while streaming is a prefix of the final answer |
| ChatInterface.WithLastText | components/ChatInterface.tsx:44-50 | a chunk update keeps the length and every message but the last; it sets the last to the accumulated text if that message is the model's, and otherwise changes nothing |
| ChatInterface.SendTranscript | components/ChatInterface.tsx:26-56 | a send keeps the transcript as a prefix and appends the untrimmed user message; it adds 2 entries, or 3 when the stream breaks mid-way; a started stream leaves its accumulated text as a model message; any failure ends with the apology |
| ChatInterface.ChatPanel.constructor | components/ChatInterface.tsx:10-12 | the panel starts with no messages, an empty input and the busy flag clear |
| ChatInterface.ChatPanel.SetInput | components/ChatInterface.tsx:112 | typing replaces the input |
| ChatInterface.ChatPanel.HandleSend | components/ChatInterface.tsx:23-60 | a blank input or a missing session leaves everything unchanged; otherwise the input is cleared and the transcript becomes `SendTranscript` of the old one; the busy flag ends clear on success and failure alike |
| ChatInterface.ChatPanel.SendInput | components/ChatInterface.tsx:26-59 | past the guard, the input is cleared and the transcript becomes `SendTranscript` of the old one with the untrimmed input; the busy flag ends clear |
| ChatInterface.ChatPanel.ReceiveReply | components/ChatInterface.tsx:33-56 | while the busy flag is set, a rejected request appends only the apology; a started stream appends its accumulated text as a model message, and then the apology if it broke |
| ChatInterface.ChatPanel.ConsumeStream | components/ChatInterface.tsx:32-52 | while the busy flag is set, after all chunks the placeholder holds their texts concatenated, with a missing text counting as empty, and the rest of the transcript is untouched |
| ChatInterface.ChatPanel.HandleKeyDown | components/ChatInterface.tsx:62-67 | Enter without Shift sends as `HandleSend` does, which changes nothing when the input is blank or there is no session; any other key changes nothing |
| MineralResult.ConfidenceBand | components/MineralResult.tsx:13-17 | green exactly from 80, yellow exactly from 50 to 79, red exactly below 50, out-of-range values included |
| MineralResult.BandClassesDistinct | components/MineralResult.tsx:13-15 | pins down `MineralResult.BandClass`: each band has a CSS class of its own |
| MineralResult.BandMonotone | components/MineralResult.tsx:13-17 | a higher confidence never gives a worse band |
| MineralResult.PercentRoundTrip | components/MineralResult.tsx:64 | a width written as `${n}%` reads back as n |
| MineralResult.Render | components/MineralResult.tsx:11-155 | the bar has its band's colour; the main and candidate bar widths read back as their confidences; there is one reason entry per reason, numbered 1 to n in list order |
| MineralResult.RenderRoundTrip | components/MineralResult.tsx:86-155 | every list field is shown with one entry per element, in order, with nothing filtered; reading the page back gives the analysis unchanged |
| MineralResult.ShownImageIsJpegLabelled | components/MineralResult.tsx:39 | the image is shown from a data URL that carries the stored payload and always claims "image/jpeg", whatever type was uploaded |

## Left out

- The hosted model's SDK (`generateContent`, `chats.create`, `sendMessageStream`) is foreign code. It is modelled by oracle parameters and by the `ChatSession` value that records the model and the system instruction.
- `JSON.parse` and schema-constrained generation are an oracle. The prompt asks for 2-3 stories, exactly 3 candidates and candidate confidences below the main one, but the client never checks these, so no contract states them.
- The decoding oracle returns a typed `MineralAnalysis`, so a parsed reply that lacks a field or holds a wrongly typed one cannot be represented. What the result view would then do, for instance `map` over an absent list, is not modelled.
- The response schema is reduced to its `required` list. The per-field types and descriptions are not modelled.
- Base64 encoding, done by the browser's `FileReader`, is left out. The payload is an opaque string. What the read leaves in `reader.result`, a data URL or null, is part of the `File` value.
- async/await interleaving and React's batching are left out. Each handler runs as one atomic step. Re-entry is excluded by the `!isLoading` preconditions, because the controls are disabled while a send runs (components/ChatInterface.tsx:115,120).
- `App.App.HandleImageSelected` requires `appState != Result`. The upload form renders only in the upload state (App.tsx:55), but a `FileReader` callback still pending (components/ImageUpload.tsx:17-22) can call the handler later, during an analysis; the model allows that call too. Two analyses in flight at once, finishing in either order, are not modelled.
- `alert`, `console.error`, `scrollIntoView`, `window.scrollTo`, drag-event plumbing, JSX markup and CSS are left out. Alerts are returned as values.
- components/LoadingScreen.tsx is not part of this model (static markup). vite.config.ts is not part of this model (build-time environment injection).
- The year in the footer, read from the clock, is left out.
- JavaScript numbers are modelled as `int`. Confidence values are rendered with `${n}` for integers only; fractional and non-finite numbers are not modelled.
- `ChatInterface.SendTranscript`: "the apology is the last message" is stated only as an implication from a failure. The converse does not hold, because a completed stream whose text equals the apology ends the same way.
- `ChatInterface.ChatPanel.ConsumeStream`: the source mutates the last message object in place inside a copied array. The model replaces the last element of the sequence, which is the same value, but aliasing of message objects is not modelled.
- `App.App.HandleImageSelected` takes the payload and media type as strings, which is their declared type in App.tsx. The upload component can hand over `undefined` for either (`ImageUpload.ImageSelection` keeps them as options), and what the service does with `undefined` is not modelled.
- The chat panel's mount-time lifecycle and its scroll effect are left out. The panel receives its session once, at construction.
- `ChatInterface.IsWhitespace` covers the ECMAScript white-space and line-terminator set, written out. Other Unicode handling (surrogate pairs, normalisation) is not modelled, since strings are sequences of `char`.
