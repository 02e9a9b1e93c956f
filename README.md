# UnMute core, modelled in Dafny

UnMute is a browser app for anonymous anti-ragging reports. Students file a complaint as text or as a voice recording. Admins see the complaints on a dashboard. A hosted generative-AI service does the categorisation, transcription, severity analysis, chat, search grounding and text-to-speech. This project models the logic the app itself runs around those calls:

- **`Js`** (`js.dfy`): the JavaScript built-ins that logic relies on. These are `undefined` (as `Option`), `x || fallback` on strings, `String.prototype.trim` with ECMAScript's whitespace set, and `split`/`join` on one character. The blank-input guard `!s.trim()` is written `IsBlank(s)`: every character is whitespace. `Trim`'s contract proves that this is exactly `Trim(s) == []`.
- **`Complaints`** (`complaints.dfy`): the complaint record and the pure list transforms of `App.tsx`. These are the prepend on creation, the `prev.map` patches keyed by id (category, status toggle, analysis) and the status filter. Ids come from `Date.now()` and need not be unique, so every patch is stated for *every* entry whose id matches.
- **`GeminiService`** (`gemini_service.dfy`): the fallback policy of each AI capability. Each capability receives the SDK call's outcome: it either threw, or it returned a response tree in which every field may be missing. Search-link extraction and the order-preserving de-duplication `[...new Set(links)]` are modelled and proved.
- **`AudioUtils`** (`audio_utils.dfy`): `blobToBase64`'s prefix strip, `decode`'s byte loop, and `playPCMData`. In `playPCMData` the bytes are read as 16-bit samples in the platform's byte order (little-endian in the model), the frame count is computed, and each sample is divided by 32768 in a loop. Samples are `real`: a 16-bit integer divided by 32768 is exact in both float64 and float32.
- **`UnMuteApp`** (`app.dfy`): the stateful React components as classes whose fields are their `useState` slots. These are `App` (complaint store, admin profile), `StudentView` (submit guards), `AdminDashboard` (filter, search, in-flight analysis ids, lazy audio context) and `ChatBot` (message list, send). Each handler is a method that makes the component's state writes in order. Awaited calls are replaced by outcome parameters.

Behaviour of the code worth knowing before reading the model:

- An odd-length PCM payload is not truncated. `new Int16Array(bytes.buffer)` throws RangeError on an odd byte length (section 23.2.5.1.3 of ECMA-262, InitializeTypedArrayFromArrayBuffer), and the `catch` at services/audioUtils.ts:61-63 swallows it, so nothing plays (`PlaybackShape`).
- An empty payload also plays nothing. `createBuffer` with zero frames throws NotSupportedError under the Web Audio API, and the same `catch` swallows it.
- The search fallback text is "Could not fetch external resources.", with no links.
- `handleDeepAnalysis` does not check the in-flight set. Only the button's `disabled` state (`AnalyzeDisabled`) stops a second request for the same complaint.
- The category patch runs each time a classification settles, and rewrites every entry with that id.
- The search guard is `!searchQuery`, so a whitespace-only query is still sent. The chat and submit guards trim their input first.
- Chat roles are `user` and `model`.

## Model

| member | source | states |
|---|---|---|
| Js.OrElse | services/geminiService.ts:47 | `s \|\| fallback`: a non-empty string is kept, and `undefined` or `""` gives the fallback |
| Js.Trim | App.tsx:82 | `trim()` keeps a slice of the input with only ECMAScript whitespace before and after it; the result is empty exactly when every character is whitespace, and otherwise starts and ends with non-whitespace |
| Js.TrimMiddle | App.tsx:82 | removing leading then trailing whitespace keeps a middle slice of the string and drops only whitespace around it |
| Js.TrimEmpty | App.tsx:82 | removing leading then trailing whitespace leaves nothing exactly when the string is all whitespace |
| Js.TrimEnds | App.tsx:82 | what survives trimming starts and ends with a character `trim` keeps |
| Js.TrimOfTrimmed | services/geminiService.ts:19 | a string that already starts and ends with a kept character is its own trim |
| Js.TrimIdempotent | services/geminiService.ts:19 | trimming an already trimmed string changes nothing |
| Js.Split | services/audioUtils.ts:8 | `split(sep)` gives at least one piece, no piece holds `sep`, and there is exactly one piece when `sep` does not occur |
| Js.JoinSplit | services/audioUtils.ts:8 | joining the pieces of `split(sep)` with `sep` rebuilds the string |
| Js.SplitJoin | services/audioUtils.ts:8 | splitting joined separator-free pieces gives the pieces back |
| Complaints.NewComplaint | App.tsx:568-576 | a new complaint has the given id and time, content defaulting to "", `isAudio` true only when the draft says true, status PENDING, category "Processing...", the draft's transcription and no analysis |
| Complaints.Prepend | App.tsx:578 | the new record is at index 0 and the old list follows unchanged |
| Complaints.AddPlacesNewFirst | App.tsx:566-578 | after creation, index 0 is PENDING with the placeholder category and the given id, and every old entry moves up by one, unchanged and in order |
| Complaints.PatchCategory | App.tsx:582-584 | the length is kept, every entry with the id gets the new category, and every other entry is unchanged |
| Complaints.PatchCategoryOnlyCategory | App.tsx:581-584 | the categorisation patch alters no field but `category`, and alters it only where the id matches |
| Complaints.Flip | App.tsx:592 | the toggle always changes the status |
| Complaints.ToggleResolution | App.tsx:587-597 | every entry with the id has RESOLVED and PENDING swapped; every other entry and the length are unchanged |
| Complaints.ToggleTwice | App.tsx:587-597 | toggling the same id twice returns the original list |
| Complaints.ToggleAbsent | App.tsx:587-597 | toggling an id no entry carries leaves the list unchanged |
| Complaints.SetAnalysis | App.tsx:601-603 | every entry with the id gets `aiAnalysis`; every other entry and the length are unchanged |
| Complaints.SetAnalysisIdempotent | App.tsx:599-604 | storing the same analysis twice equals storing it once, and neither category nor status changes |
| Complaints.CompletionsCommute | App.tsx:581-604 | category patch, analysis patch and status toggle commute pairwise for any ids, so completions may arrive in any order |
| Complaints.SubmitThenCategorize | App.tsx:566-584 | filing "Test incident" on an empty list and classifying it as "Verbal" leaves one pending, non-audio complaint with that content and category |
| Complaints.FilterComplaints | App.tsx:365-368 | the filtered list is no longer than the store and every entry in it passes the filter |
| Complaints.FilterMembers | App.tsx:365-368 | the filtered list holds exactly the entries that pass the filter |
| Complaints.FilterAppend | App.tsx:365-368 | filtering distributes over concatenation, so relative order is kept |
| Complaints.FilterAllIsIdentity | App.tsx:366 | the 'ALL' filter returns the whole list in order |
| Complaints.FilterByStatus | App.tsx:367 | a status filter gives a subsequence of the list holding exactly the entries with that status, and the PENDING and RESOLVED views together are as long as the list |
| GeminiService.CategorizeComplaint | services/geminiService.ts:13-24 | the category is the trimmed reply when that is non-blank, "Uncategorized" when the reply is missing or blank, "General" when the call throws; it is never empty |
| GeminiService.CategoryIsTrimmed | services/geminiService.ts:19-23 | the category is never blank and is already trimmed |
| GeminiService.TranscribeAudio | services/geminiService.ts:30-52 | the transcript is the reply text or "" when missing; the promise rejects exactly when reading the recording or the call fails (no fallback) |
| GeminiService.AnalyzeComplaintDeeply | services/geminiService.ts:58-74 | the analysis is the reply, or "Analysis unavailable." when missing or empty, or "Error generating analysis." when the call throws; it is never empty |
| GeminiService.GetChatResponse | services/geminiService.ts:80-96 | the reply text as returned, possibly undefined, or the fixed apology when the call throws |
| GeminiService.GroundingChunks | services/geminiService.ts:113 | the chunks are `candidates[0].groundingMetadata.groundingChunks` when that path exists, and `[]` when any level is missing |
| GeminiService.ChunkUri | services/geminiService.ts:117 | `c.web?.uri`: the chunk's URI, or `undefined` without `web` |
| GeminiService.IsLink | services/geminiService.ts:118 | the filter keeps a URI that is a string and non-empty |
| GeminiService.ExtractLinks | services/geminiService.ts:116-118 | every extracted link is a non-empty `web.uri` of some chunk, and every chunk's non-empty URI is among them |
| GeminiService.SetAdd | services/geminiService.ts:120 | adding to an insertion-ordered set keeps the old entries in their places and appends the new value at the end exactly when it was absent |
| GeminiService.SetFrom | services/geminiService.ts:120 | `[...new Set(items)]` holds exactly the items' values and is no longer than the items |
| GeminiService.FirstIndex | services/geminiService.ts:120 | the position of a value's first occurrence |
| GeminiService.SetFromProperties | services/geminiService.ts:120 | `[...new Set(items)]` has no duplicates, holds exactly the items' values, and lists them in order of first occurrence |
| GeminiService.SetFromUnique | services/geminiService.ts:120 | any duplicate-free sequence of exactly the items' values in first-occurrence order equals `[...new Set(items)]` |
| GeminiService.GetGroundingResources | services/geminiService.ts:102-125 | on success the text is the reply or "", and the links are the de-duplicated extracted links; on error the text is "Could not fetch external resources." and there are no links |
| GeminiService.SearchLinks | services/geminiService.ts:112-120 | shown links are non-empty chunk URIs, include every valid chunk URI, have no duplicates and follow first-citation order |
| GeminiService.NoMetadataNoLinks | services/geminiService.ts:113 | missing candidates, grounding metadata or chunks give an empty link list |
| GeminiService.ExtractLinksCons | services/geminiService.ts:116-118 | the links of a chunk list are the first chunk's URI, when it is a non-empty string, followed by the links of the rest |
| GeminiService.SetFromRepeat | services/geminiService.ts:120 | `[...new Set([a, a, b])]` is `[a, b]` when `a` and `b` differ |
| GeminiService.DuplicateCitations | services/geminiService.ts:116-120 | citations `a, a, b` are shown as `a, b` |
| GeminiService.SearchErrorShowsMessage | services/geminiService.ts:121-124 | a failed search shows a non-empty text and no links |
| GeminiService.GenerateSpeech | services/geminiService.ts:131-152 | the audio is `candidates[0].content.parts[0].inlineData.data` when that path exists, otherwise undefined, and undefined when the call throws |
| AudioUtils.StripDataUrlPrefix | services/audioUtils.ts:8 | the strip is undefined exactly when there is no comma, and never contains a comma |
| AudioUtils.BlobToBase64 | services/audioUtils.ts:2-14 | the promise rejects exactly when the reader fails; otherwise it resolves to a value that is defined exactly when the data URL has a comma |
| AudioUtils.StripDataUrl | services/audioUtils.ts:5-9 | for `data:<mime>;base64,<payload>` with no comma in the mime type or the payload, the promise resolves to exactly the payload |
| AudioUtils.NoCommaResolvesUndefined | services/audioUtils.ts:8-9 | with no comma the promise resolves to undefined rather than rejecting |
| AudioUtils.ToUint8 | services/audioUtils.ts:22 | storing a character code in a `Uint8Array` keeps codes below 256 and otherwise wraps modulo 256 |
| AudioUtils.BinaryBytes | services/audioUtils.ts:19-23 | one byte per character, and each character code below 256 is kept exactly |
| AudioUtils.Decode | services/audioUtils.ts:19-24 | the loop fills a byte array of the string's length with each character's code modulo 256 |
| AudioUtils.BinaryBytesOf | services/audioUtils.ts:19-23 | decoding the binary string of any bytes gives those bytes back |
| AudioUtils.Int16Le | services/audioUtils.ts:41 | two bytes read as a little-endian signed 16-bit value: the unsigned value, minus 65536 exactly when the high byte's sign bit is set |
| AudioUtils.Int16View | services/audioUtils.ts:41 | an odd byte length throws RangeError; otherwise the view has half as many samples as there are bytes |
| AudioUtils.Int16LeOfLeBytes | services/audioUtils.ts:41 | reading back a sample's two little-endian bytes gives the sample |
| AudioUtils.LeBytesOfInt16Le | services/audioUtils.ts:41 | the two bytes a sample was read from are its little-endian encoding |
| AudioUtils.LeBytesOf | services/audioUtils.ts:41 | encoding samples gives two bytes per sample |
| AudioUtils.LeBytesOfAt | services/audioUtils.ts:41 | sample i's bytes sit at offsets 2i and 2i+1 |
| AudioUtils.Int16ViewRoundTrip | services/audioUtils.ts:41 | viewing the little-endian bytes of any samples as Int16 gives those samples back |
| AudioUtils.Normalize | services/audioUtils.ts:52 | a normalised sample lies in [-1, 1) and times 32768 is the sample |
| AudioUtils.NormalizeExtremes | services/audioUtils.ts:52 | -32768 maps to exactly -1, and 32767 maps to 32767/32768 |
| AudioUtils.PcmFrames | services/audioUtils.ts:50-53 | one frame per sample, each frame times 32768 equal to its sample |
| AudioUtils.PlayPcmData | services/audioUtils.ts:27-64 | invalid base64 is swallowed as InvalidCharacterError; otherwise the nested loops produce exactly the playback the decoded bytes determine, and no failure rejects the promise |
| AudioUtils.PlaybackOf | services/audioUtils.ts:41-59 | a buffer is played exactly when the byte count is even and non-zero; it then has one channel and half as many frames as bytes; a failure here is never an `atob` error |
| AudioUtils.PlaybackShape | services/audioUtils.ts:41-54 | odd length: RangeError and no sound; no bytes: NotSupportedError; otherwise one channel at 24000 Hz with n/2 frames, frame i the little-endian sample of bytes 2i and 2i+1 over 32768, in [-1, 1) |
| AudioUtils.PlaybackRoundTrip | services/audioUtils.ts:41-54 | playing the little-endian bytes of a non-empty run of samples schedules exactly those samples over 32768 |
| AudioUtils.PlaybackOfExtremes | services/audioUtils.ts:52 | N samples of 32767 play as N frames of 32767/32768; N samples of -32768 as N frames of -1 |
| UnMuteApp.App.constructor | App.tsx:24-33 | the app starts with the single sample complaint, no admin signed in, on the student view |
| UnMuteApp.App.InsertComplaint | App.tsx:566-578 | the created record is returned and prepended to the store |
| UnMuteApp.App.ApplyCategory | App.tsx:581-584 | the store becomes the categorisation patch of the old store |
| UnMuteApp.App.AddComplaint | App.tsx:566-585 | the store is the old one with the new record prepended, then every entry with the id re-categorised; index 0 is the new record with the service's category |
| UnMuteApp.App.ToggleResolution | App.tsx:587-597 | the store becomes the toggle of the old store |
| UnMuteApp.App.UpdateAnalysis | App.tsx:599-604 | the store gets the analysis (or its fallback) on every entry with the id |
| UnMuteApp.CanLogIn | App.tsx:228-230 | the login button acts only when both name and department are non-empty |
| UnMuteApp.App.LogIn | App.tsx:226-229 | the profile is set only when both name and department are non-empty; otherwise nothing changes |
| UnMuteApp.App.LogOut | App.tsx:622 | no admin is signed in afterwards |
| UnMuteApp.StudentView.constructor | App.tsx:242-244 | the form starts empty, not submitted and not processing audio |
| UnMuteApp.StudentView.HandleSubmit | App.tsx:246-251 | blank or whitespace-only text files nothing; otherwise a non-audio complaint with that text is filed and categorised, and the form is cleared and marked submitted |
| UnMuteApp.StudentView.HandleAudio | App.tsx:253-265 | a failed transcription files nothing and adds the notice; a successful one files an audio complaint whose content and transcription are the transcript; the processing flag ends false |
| UnMuteApp.AdminDashboard.Filtered | App.tsx:365-368 | the list shows exactly the stored complaints that pass the current filter |
| UnMuteApp.AdminDashboard.HandleSearch | App.tsx:370-376 | an empty query changes nothing; otherwise the results become the grounding result and the searching flag ends false |
| UnMuteApp.AdminDashboard.BeginDeepAnalysis | App.tsx:379 | the id joins the in-flight set, so its analyse button is disabled |
| UnMuteApp.AdminDashboard.EndDeepAnalysis | App.tsx:381-385 | only that id leaves the in-flight set, so its button is enabled again |
| UnMuteApp.AdminDashboard.HandleDeepAnalysis | App.tsx:378-386 | the analysis is stored on the complaint's id, and afterwards the in-flight set is the old set without that id |
| UnMuteApp.AdminDashboard.constructor | App.tsx:358-363 | the dashboard starts on the 'ALL' filter with an empty query, no results, no search running, no analysis in flight and no audio context |
| UnMuteApp.AdminDashboard.AnalyzeDisabled | App.tsx:492 | a complaint's analyse button is disabled exactly while its id is in flight |
| UnMuteApp.AdminDashboard.HandleSpeak | App.tsx:388-396 | the audio context exists afterwards; playback is attempted exactly when speech returned non-empty audio, and its outcome is that of `playPCMData` |
| UnMuteApp.PlaybackResult | App.tsx:394-395 | the playback `playPCMData` reaches for a payload: InvalidCharacterError when `atob` rejects it, otherwise `PlaybackOf` of the binary string, which plays exactly when that string has even, non-zero length |
| UnMuteApp.History | App.tsx:89-92 | entry i of the history is `{role, parts: [{text}]}` of message i, with the SDK's role name |
| UnMuteApp.HistoryAppend | App.tsx:89-92 | the history of a conversation is the histories of its parts, in order |
| UnMuteApp.ReplyText | App.tsx:95 | the model message is the non-empty reply text, "Error" when the reply is missing or empty, and the service's apology when the call threw; it is never empty |
| UnMuteApp.ChatBot.constructor | App.tsx:67-72 | the chat starts closed, with the greeting as its only message and empty input |
| UnMuteApp.ChatBot.SendDisabled | App.tsx:155 | the send button is disabled while a reply is awaited or the trimmed input is empty |
| UnMuteApp.ChatBot.HandleSend | App.tsx:81-99 | blank input does nothing; otherwise the request carries the pre-send history and the input, the messages grow by the user message then the reply message, the input is cleared and loading ends false |

## Left out

- Rendering, styling, the navigation bar and the login form's markup are UI and are not modelled. The login click guard is modelled (`LogIn`, `CanLogIn`).
- components/AudioRecorder.tsx (microphone capture over getUserMedia and MediaRecorder) is browser plumbing and is not part of this model.
- The SDK requests themselves are foreign calls: model names, prompts, thinking budget, voice config and chat session. Each capability takes the call's outcome as a parameter. The request text sent to transcription, analysis and categorisation is not represented. Neither is the search query passed to grounding (App.tsx:373; `HandleSearch` uses `searchQuery` only for its guard), nor the text passed to speech (App.tsx:392; `HandleSpeak` takes no text).
- `FileReader`, `atob`, `AudioContext`, `createBufferSource`, `connect` and `start` are browser built-ins. The reader's result and `atob` are parameters. Base64 decoding itself is not modelled. Playback is taken to succeed once a buffer exists. Only the zero-length `createBuffer` failure is modelled.
- Async interleaving is not modelled: concurrent categorisations, last-writer-wins search results, stale `messages` closures in chat. Each handler is one run of its state writes. The split methods (`InsertComplaint`/`ApplyCategory`, `BeginDeepAnalysis`/`EndDeepAnalysis`) let a caller interleave them by hand.
- `Date.now()` ids and timestamps are parameters. `console.error` is not modelled. `alert` is recorded as a notice list.
- The view-mode switch and the chat window's open/close toggle are single field writes with nothing to prove, and are not modelled.
- Strings are modelled as sequences of Unicode scalar values (`char`). JavaScript's code-unit lengths differ for text above U+FFFF, and a lone surrogate cannot be represented. Binary strings from `atob` stay below U+0100, so the audio path is unaffected.
- `new Int16Array(bytes.buffer)` uses the platform's byte order. Only little-endian platforms are modelled (`Int16Le`); big-endian platforms are not.
- AudioUtils.Decode: does not state that the returned array is newly allocated. Callers only read its contents.
