# Dream submission flow, modelled in Dafny

This project models the client-side logic of a dream-journaling web app. A
user types a dream, the page sends it to a remote analysis webhook, and the
page then shows the title, teaser, full interpretation and image that come
back. The model covers four things:

- **The rate-limit gate** (`checkUserLimit`). Signed-in free users get one
  analysis per 24 hours. The gate fails open: a failed profile read, a
  missing profile, a pro user or a missing or unparseable date all let the
  request through. A refusal carries the whole hours left and a singular or
  plural message.
- **The browser-storage helpers.** These are `getSessionId` and the
  save/get/clear helpers for the draft text and the last result, over a
  `localStorage` object that is updated in place. The stored result is the
  `JSON.stringify` text of the record, and reading it back is proved to give
  the same record.
- **`analyzeDream`.** `AnalyzeDreamSpec` states, as a value, the outcome and
  the ordered side effects: save the draft, check the limit, send the
  request, save the result, write the timestamp. The imperative
  `AnalyzeDream` carries out the store writes in that order and is proved
  to agree with that function. Lemmas about `AnalyzeDreamSpec` state:
  - the draft is saved first and survives every failure;
  - a rate-limit refusal happens before any request;
  - a result is saved exactly on success;
  - the timestamp is written last, only for a signed-in user after success,
    and its failure changes nothing;
  - each network outcome maps to its own error.
- **The page and the two entry components.** `Index` is a state machine
  (`input`, `processing`, `result`, with reset). Its invariant is that a
  result is on hand whenever the result state is shown. `CommandCenter`
  restores the draft when it mounts and writes it back on every keystroke.
  `DreamInput` keeps its text to itself. `Index` renders it only in
  `input`, so every return to `input` mounts a new, empty box; the main page
  never reads the saved draft back. Both components guard submit with
  "at least 10 UTF-16 code units once trimmed", and their buttons are
  disabled on the same condition.

These parts of the outside world are inputs to the model:

- the signed-in user;
- the profile row;
- the current time, in integer milliseconds;
- how the webhook call ended;
- the token `crypto.randomUUID` returned.

These JavaScript primitives are written out in Dafny: `String.prototype.trim`
(over the ECMAScript whitespace set), `.length` (as UTF-16 code units, since
Dafny characters are code points) and the decimal rendering of a count.

Files: `wrappers.dfy` (Option), `js_text.dfy`, `json.dfy`,
`browser_storage.dfy`, `dream_service.dfy`, `submit_guard.dfy`,
`dream_input.dfy`, `command_center.dfy`, `index_page.dfy`.

Behaviour the code does not have, and how it does things instead:

- The code does not clear the draft after a successful submission. Only
  reset clears it.
- `Index.tsx` does not restore a saved result, or a draft, when the page
  loads. Only `CommandCenter` restores the draft, when it mounts.
- The code has no "unlock" state.
- The code has no separate timeout, transport or format error classes. Apart
  from `RateLimitError`, every failure is a plain `Error` with its own
  message. They appear here as variants of `AnalysisError`.
- The full-analysis fallback reads `interpretation_full`, not
  `full_analysis`.

## Model

| member | source | states |
|---|---|---|
| JsText.TrimStart | src/components/dashboard/CommandCenter.tsx:28 | the result is a suffix of the input, the dropped prefix is all whitespace, and the result does not start with whitespace |
| JsText.TrimEnd | src/components/dashboard/CommandCenter.tsx:28 | the result is a prefix of the input, the dropped suffix is all whitespace, and the result does not end with whitespace |
| JsText.Trim | src/components/dashboard/CommandCenter.tsx:28 | `trim()` returns a contiguous slice of the input with whitespace only outside it and no whitespace at either end |
| JsText.TrimIdempotent | src/components/dashboard/CommandCenter.tsx:29 | trimming a trimmed text changes nothing |
| JsText.JsLength | src/components/dashboard/CommandCenter.tsx:64 | `.length` counts UTF-16 code units: at least one and at most two per code point |
| JsText.SplitLength | src/components/dashboard/CommandCenter.tsx:28 | the code-unit length of a string is the sum of the lengths of its two halves around any split point |
| JsText.TrimShortens | src/components/dashboard/CommandCenter.tsx:28 | trimming never increases the code-unit length |
| JsText.NatToString | src/services/dreamService.ts:58 | the decimal rendering of a count is a non-empty run of digits with no leading zero |
| JsText.NatToStringRoundTrip | src/services/dreamService.ts:58 | the rendered digits denote the count they were rendered from |
| JsText.NatToStringInjective | src/services/dreamService.ts:58 | distinct counts render as distinct digit strings |
| Json.EscapeChar | src/services/dreamService.ts:111 | a code point's escape starts with a backslash exactly for the quote, the backslash and control characters |
| Json.EscapeRoundTrip | src/services/dreamService.ts:117 | parsing an escaped string body returns the original string and stops exactly at the closing quote |
| Json.QuoteRoundTrip | src/services/dreamService.ts:117 | `JSON.parse` reads back a string that `JSON.stringify` quoted, leaving the text after it untouched |
| BrowserStorage.Lookup | src/services/dreamService.ts:84 | `getItem` gives the stored string exactly when the key is present, and null otherwise |
| BrowserStorage.LocalStorage.constructor | src/services/dreamService.ts:84 | the store starts as whatever earlier visits left in it |
| BrowserStorage.LocalStorage.GetItem | src/services/dreamService.ts:84 | reading a key returns its stored value or null and changes nothing |
| BrowserStorage.LocalStorage.SetItem | src/services/dreamService.ts:88 | writing a key sets it to the value and leaves every other key alone |
| BrowserStorage.LocalStorage.RemoveItem | src/services/dreamService.ts:106 | removing a key deletes it and leaves every other key alone |
| DreamService.HoursRemaining | src/services/dreamService.ts:56 | the hours left are the least whole number of hours that covers the time left in the 24-hour window, and at least 1 |
| DreamService.CheckUserLimit | src/services/dreamService.ts:26-64 | refuses exactly a free user with a parseable last-generation date less than 24 h old; fails open on a read error, a missing row, a pro user or a missing or unparseable date; a refusal carries the ceiling of the hours left and the matching message |
| DreamService.HoursRemainingAtMostADay | src/services/dreamService.ts:53-56 | with a last generation that is not in the future, between 1 and 24 hours are left |
| DreamService.GateBoundaries | src/services/dreamService.ts:55-56 | exactly 24 h after a generation a free user is allowed; at 23.99 h the answer is 1 hour; at 2 h it is 22 hours |
| DreamService.RateLimitMessagePlural | src/services/dreamService.ts:58 | the message follows the count with "hour", and adds an "s" exactly when the count is not 1 |
| DreamService.RateLimitMessageInjective | src/services/dreamService.ts:57-59 | the message determines the hour count it was built from |
| DreamService.HttpErrorMessageInjective | src/services/dreamService.ts:167-169 | the `API error: <status> <statusText>` message determines both the status and the status text |
| DreamService.SerializeResultRoundTrip | src/services/dreamService.ts:110-118 | parsing the `JSON.stringify` text of a result gives back the same record, with or without an id |
| DreamService.SessionIdOf | src/services/dreamService.ts:82-92 | the id returned is non-empty and is what the store then holds; a stored non-empty id is returned unchanged and nothing is written; otherwise the minted token is stored and returned; no other key changes |
| DreamService.SessionIdStable | src/services/dreamService.ts:82-92 | two consecutive calls return the same id and the second writes nothing |
| DreamService.GetSessionId | src/services/dreamService.ts:82-92 | the id returned and the store afterwards are those of `SessionIdOf` |
| DreamService.SaveDreamText | src/services/dreamService.ts:95-97 | the draft key holds the new text and no other key changes |
| DreamService.GetSavedDreamText | src/services/dreamService.ts:100-102 | returns the stored draft, or null, and changes nothing |
| DreamService.ClearSavedDreamText | src/services/dreamService.ts:105-107 | the draft key is removed and no other key changes |
| DreamService.SaveDreamResult | src/services/dreamService.ts:110-112 | the result key holds the serialized record and no other key changes |
| DreamService.SavedDreamResult | src/services/dreamService.ts:115-118 | a missing or empty entry reads as null; otherwise the entry is parsed, and the entry is restored exactly when it parses, and then to the parsed record |
| DreamService.GetSavedDreamResult | src/services/dreamService.ts:115-118 | returns what `SavedDreamResult` says of the current store, and changes nothing |
| DreamService.ClearSavedResult | src/services/dreamService.ts:121-123 | the result key is removed and no other key changes |
| DreamService.SaveThenGetResult | src/services/dreamService.ts:110-118 | after saving a result, reading it back gives that same record |
| DreamService.MapResponse | src/services/dreamService.ts:179-185 | the record has a freshly minted id and the title, hook and image verbatim; the full analysis is `interpretation_full` when that is a non-empty string, and the hook otherwise |
| DreamService.AnalyzeDream | src/services/dreamService.ts:131-208 | the outcome, and the store afterwards, are those of `AnalyzeDreamSpec` with its effects carried out in order |
| DreamService.AnalyzeDreamSavesDraftFirst | src/services/dreamService.ts:137-138 | the first effect saves the draft, no later effect touches it, and the draft is in the store after every outcome |
| DreamService.AnalyzeDreamGatesBeforeRequest | src/services/dreamService.ts:143-163 | the limit is checked only for a signed-in user and before the request; the request carries the text, session id and user id (null for a guest); a rate-limit failure happens exactly when the gate refuses, and then no request is sent |
| DreamService.AnalyzeDreamSavesResultOnSuccess | src/services/dreamService.ts:167-190 | a result is saved exactly when the call succeeds and then reads back as the returned record; on every failure the stored result is as before |
| DreamService.AnalyzeDreamUpdatesTimestamp | src/services/dreamService.ts:192-197 | the generation date is written exactly for a signed-in user after a success, as the last effect, right after the result is saved; whether that write fails does not change the analysis |
| DreamService.AnalyzeDreamClassifiesReply | src/services/dreamService.ts:167-203 | once past the gate: an abort is the timeout error, a non-2xx status is the API error with that status, a reply without `success` or `data` is the format error, and only a valid reply succeeds, with the mapped record |
| DreamService.SecondRequestWithinADayRefused | src/services/dreamService.ts:50-73 | after a free user's successful generation, recorded at an instant between the two requests, the same user's next request within 24 h of that instant is refused with 1 to 24 hours left and nothing is sent |
| SubmitGuard.SubmitArgument | src/components/dashboard/CommandCenter.tsx:27-30 | `onSubmit` is called exactly when the trimmed text has at least 10 code units, and then with the trimmed text, which a further trim leaves unchanged |
| SubmitGuard.DisabledIffSubmitIsNoOp | src/components/dashboard/CommandCenter.tsx:70 | the button is disabled exactly when loading or when a click would not submit |
| SubmitGuard.ShortTextNeverSubmitted | src/components/dream/DreamInput.tsx:15 | a text shorter than 10 code units before trimming is never submitted |
| DreamInputComponent.DreamInput.constructor | src/components/dream/DreamInput.tsx:12 | the text starts empty |
| DreamInputComponent.DreamInput.HandleChange | src/components/dream/DreamInput.tsx:25 | the text becomes the new value; no store is touched |
| DreamInputComponent.DreamInput.HandleSubmit | src/components/dream/DreamInput.tsx:14-17 | returns the `onSubmit` argument given by the guard: the trimmed text of at least 10 code units, or nothing |
| DreamInputComponent.DreamInput.ButtonDisabled | src/components/dream/DreamInput.tsx:54 | disabled exactly when loading or when submit would do nothing |
| DreamInputComponent.DreamInput.CharacterCount | src/components/dream/DreamInput.tsx:47 | the counter equals the untrimmed code-unit length (`.length`), which lies between the code-point count and twice it and is never less than the trimmed length |
| CommandCenterComponent.CommandCenter.constructor | src/components/dashboard/CommandCenter.tsx:12 | the text starts empty |
| CommandCenterComponent.CommandCenter.RestoreDraft | src/components/dashboard/CommandCenter.tsx:14-19 | a saved non-empty draft replaces the text; a missing or empty one leaves it as it was |
| CommandCenterComponent.CommandCenter.HandleTextChange | src/components/dashboard/CommandCenter.tsx:21-25 | the text and the stored draft both become the new value, and no other key changes |
| CommandCenterComponent.CommandCenter.HandleSubmit | src/components/dashboard/CommandCenter.tsx:27-30 | returns the `onSubmit` argument given by the guard: the trimmed text of at least 10 code units, or nothing |
| CommandCenterComponent.CommandCenter.ButtonDisabled | src/components/dashboard/CommandCenter.tsx:70 | disabled exactly when loading or when submit would do nothing |
| CommandCenterComponent.CommandCenter.CharacterCount | src/components/dashboard/CommandCenter.tsx:64 | the counter equals the untrimmed code-unit length (`.length`), which lies between the code-point count and twice it and is never less than the trimmed length |
| CommandCenterComponent.Mount | src/components/dashboard/CommandCenter.tsx:12-19 | a freshly mounted panel shows the saved draft if there is one, and "" otherwise |
| IndexPage.Index.constructor | src/pages/Index.tsx:17-18 | the page starts in `input` with no result and a new, empty entry box |
| IndexPage.Index.SetAppState | src/pages/Index.tsx:17 | the state becomes the given one and is appended to the history; the result and the entry box are untouched |
| IndexPage.Index.HandleDreamSubmit | src/pages/Index.tsx:20-32 | the page passes through `processing` first; the session id is fetched before the analysis; on success the state is `result` with the returned record, and on failure it is `input` with the result untouched and a new, empty entry box; the invariant is kept |
| IndexPage.Index.HandleReset | src/pages/Index.tsx:34-39 | the stored result and draft are removed and nothing else in the store changes; the result is cleared, the state is `input` and a new, empty entry box is mounted |
| IndexPage.Index.View | src/pages/Index.tsx:72-88 | the entry box is shown exactly in `input` and the processing screen exactly in `processing`; under the invariant the main area always shows something, and the result card is shown exactly in the `result` state, with the stored result |
| IndexPage.Index.SubmitFromEntryBox | src/pages/Index.tsx:72-77 | a click on the mounted entry box, which exists only in `input`, whose trimmed text is too short changes neither the page nor the store; otherwise the trimmed text goes through `HandleDreamSubmit`: the store is the replay of the analysis effects, `processing` is shown first, success ends in `result` with the returned record, and failure ends in `input` with the result kept and a new, empty entry box, so the text is not offered again |

## Left out

- The network call, `AbortController` and the 120-second `setTimeout` are real-time concurrency. The model reduces them to one `NetworkOutcome` input whose `Aborted` variant stands for the timer firing.
- The Supabase auth lookup and the profile read and write are backend I/O. They appear as `Environment.user`, `Environment.profile` and `Environment.timestampWrite`. The profile write shows up only as the `TimestampUpdated` effect, because the source ignores its result.
- `updateLastGenerationDate` has no member of its own. All it does is swallow the write error, and `AnalyzeDreamUpdatesTimestamp` states that the write outcome cannot change the analysis. A promise rejection from the Supabase client itself is not modelled.
- `crypto.randomUUID` is a foreign call. The model takes its result as a 36-character `Uuid` input.
- `Date` parsing of `last_generation_date` is a foreign call. The model takes the parsed instant in milliseconds, or `InvalidDate` for a string that parses to NaN.
- The floating-point hour arithmetic is replaced by exact integer arithmetic on milliseconds. The gate refuses when elapsed < 86 400 000, and the hours left are the integer ceiling of (86 400 000 − elapsed) / 3 600 000.
- DreamService.SavedDreamResult: reads only the layout `JSON.stringify` writes for this record. Other JSON (extra whitespace, other member order, non-string values) is reported as unparseable, although `JSON.parse` would accept it or throw.
- Json.EscapeRoundTrip: `\u` escapes that encode a surrogate pair are refused, because Dafny characters are code points. `JSON.stringify` never writes such escapes for well-formed strings.
- The webhook reply fields `title`, `hook` and `image_url` are taken as strings. A reply whose fields are missing or are not strings is not modelled.
- `console.log` and `console.error` calls are logging only.
- Every `localStorage` call (`getItem`, `setItem`, `removeItem`) is modelled as always succeeding. In a browser each can throw, for example when storage is disabled or the quota is exceeded. None of these failures is modelled. Had they been, the outcomes would be:
  - `getSessionId`'s `getItem` (`dreamService.ts:84`) throwing inside `handleDreamSubmit`'s `try` (`Index.tsx:24`) would send the page back to `input` before `analyzeDream` runs;
  - the draft save (`dreamService.ts:138`) throwing would reject `analyzeDream` before the gate and the request;
  - the result save (`dreamService.ts:190`) throwing would reject it after a successful reply, leaving the page in `input` with no result and no timestamp write;
  - `clearSavedResult`'s `removeItem` (`dreamService.ts:122`) throwing in `handleReset` (`Index.tsx:35`) would leave the page in `result`;
  - `getSavedDreamText`'s `getItem` (`dreamService.ts:101`) throwing would fail `CommandCenter`'s mount effect.
- A reply body that parses to JSON `null` is not modelled. Reading `apiResponse.success` on it throws a `TypeError` at `dreamService.ts:174`, and no `ReplyBody` or `AnalysisError` variant stands for that failure. Every other parsed reply is a `Parsed` object.
- React scheduling is not modelled. `HandleDreamSubmit` runs to completion in one call, and the ghost `shown` history records that `processing` was displayed while the request was in flight.
- The dream-table reads and writes in `Journal.tsx` and `RecentDreams.tsx` are backend I/O. Presentation-only components are left out too: the auth modal, the result and card views, the processing screen, the particle effect, the stat widget and the mood chip.
