# Trakr: exercise search and workout form, modelled in Dafny

Trakr is a small React client for logging workouts against a hosted
backend. Two of its components hold logic beyond rendering, and this
project models both.

- **ExerciseSearch** is an autocomplete box. Once the query settles, it
  skips queries whose trimmed length is under 2. Otherwise it asks a
  lookup service for exercises, keeps the ones whose name contains the
  trimmed, lower-cased query (ignoring case), and shows the first eight
  in a dropdown. Its state is `exercises`, `loading` and `showDropdown`.
- **WorkoutForm** is a single-exercise form with seven state fields. On
  submit it writes one workout document for the signed-in user, and
  then either resets the inputs or shows the store's error.

Files:

- `text.dfy` (module `Text`): the JavaScript string operations used.
  `trim` strips the full ECMAScript white-space and line-terminator set.
  `toLowerCase` is modelled over ASCII letters. `includes` tries every
  start position from the left. `length` counts UTF-16 code units, so one character
  above U+FFFF counts as 2.
- `suggestions.dfy` (module `Suggestions`): the pure filter-and-slice
  pipeline. Payload elements are JSON values. A `null` element, or a
  record whose `name` is a truthy non-string, makes the filter callback
  throw a TypeError, and the whole search then takes the `catch` path.
- `exercise_search.dfy` (module `ExerciseSearch`): class `SearchBox`
  with the three state fields. `searchExercises` is split at its
  `await`. `Settle` is the part before the request goes out, and
  `Resolve` applies the response once it arrives. `Search` runs both
  for one settled query.
- `wrappers.dfy` (module `Wrappers`): the `Option` type the other modules share.
- `workout_form.dfy` (module `WorkoutForm`): the function `Submit`
  specifies `handleSubmit` on a value of the seven fields. Class `Form`
  performs the same steps on its fields, and its contract ties it to
  `Submit`.

Behaviour of the code worth stating outright:

- A failed request clears `exercises` but leaves `showDropdown`
  unchanged. There is no `setShowDropdown(false)` in the `catch`.
- Focus sets `showDropdown` even when there are no suggestions. The
  dropdown is still not drawn, because drawing also needs a non-empty list.
- The form is the flat single-exercise form. Blank `sets`/`reps` become 0
  through `Number("")`; nothing rejects them.
- Nothing discards stale responses. The debounce cancels only the timer,
  not a request already sent. So `Resolve` accepts the response of any
  earlier query, in any order, and the last response to arrive decides
  the list.

## Model

| member | source | states |
|---|---|---|
| Text.IsJsSpace | src/components/ExerciseSearch.tsx:41 | definition: the characters `trim` strips are the ECMAScript WhiteSpace and LineTerminator code points (tab to carriage return, space, no-break space, U+1680, U+2000-U+200A, U+2028, U+2029, U+202F, U+205F, U+3000, U+FEFF) |
| Text.SkipSpace | src/components/ExerciseSearch.tsx:41 | the forward scan of `trim` stops at the first non-space at or after its start (or at the end), with only white space passed over |
| Text.SkipSpaceBack | src/components/ExerciseSearch.tsx:41 | the backward scan of `trim` stops just after the last non-space (or at its lower bound), with only white space passed over |
| Text.Trim | src/components/ExerciseSearch.tsx:41 | `trim()` returns a slice of the input with only white space outside it, and with no white space at either end |
| Text.Utf16Length | src/components/ExerciseSearch.tsx:41 | `length` lies between the number of code points and twice that, and it is 0 only for the empty string |
| Text.Utf16ShorterThanTwo | src/components/ExerciseSearch.tsx:41 | `length < 2` holds exactly for the empty string and for one code point below U+10000 |
| Text.ToLower | src/components/ExerciseSearch.tsx:71-73 | definition: `toLowerCase` maps each character on its own, `A`-`Z` to `a`-`z`, and keeps every other character |
| Text.ToLowerIdempotent | src/components/ExerciseSearch.tsx:71-73 | lower-casing twice is the same as lower-casing once |
| Text.SkipSpaceLower | src/components/ExerciseSearch.tsx:71 | lower-casing does not change where the forward white-space scan stops |
| Text.SkipSpaceBackLower | src/components/ExerciseSearch.tsx:71 | lower-casing does not change where the backward white-space scan stops |
| Text.TrimLowerCommute | src/components/ExerciseSearch.tsx:71 | `s.trim().toLowerCase()` equals `s.toLowerCase().trim()` |
| Text.Contains | src/components/ExerciseSearch.tsx:73 | definition: `includes` tries the term at every start position of the name from the left, the empty term included |
| Text.ContainsFromIff | src/components/ExerciseSearch.tsx:73 | the `includes` search from position `i` succeeds exactly when the term occurs at some position at or after `i` (both directions) |
| Text.ContainsIff | src/components/ExerciseSearch.tsx:73 | `includes` succeeds exactly when the term occurs at some position of the name (both directions) |
| Suggestions.IsShortQuery | src/components/ExerciseSearch.tsx:41 | definition: a query is not searched when it is empty or its trimmed UTF-16 length is under 2 |
| Suggestions.ShortQueryIff | src/components/ExerciseSearch.tsx:41 | a query is skipped exactly when, trimmed, it is empty or one character below U+10000; one character above U+FFFF is searched |
| Suggestions.SearchTerm | src/components/ExerciseSearch.tsx:71 | definition: the search term is the query trimmed, then lower-cased |
| Suggestions.Matches | src/components/ExerciseSearch.tsx:73 | definition: the callback keeps a record whose `name` is a non-empty string whose lower-cased form contains the search term |
| Suggestions.Throws | src/components/ExerciseSearch.tsx:73 | definition: a `null` element, or a record whose `name` is a truthy non-string, makes the callback throw |
| Suggestions.FilterBy | src/components/ExerciseSearch.tsx:72-74 | `filter` returns no more elements than the payload has, and the callback accepts every one it returns |
| Suggestions.FilterIndices | src/components/ExerciseSearch.tsx:72-74 | the filtered list is exactly the accepted records, in payload order: its k-th element sits at the k-th of a strictly increasing list of positions, and every accepted position is in that list |
| Suggestions.Filter | src/components/ExerciseSearch.tsx:71-74 | every kept exercise has a non-empty string name whose lower-cased form contains the search term |
| Suggestions.FilterSuggestions | src/components/ExerciseSearch.tsx:71-76 | the call throws exactly when some element is `null` or has a truthy non-string name. Otherwise it returns at most 8 matching exercises that form a prefix of the filtered list, and all of that list when fewer than 8 matched |
| Suggestions.FirstMatches | src/components/ExerciseSearch.tsx:72-76 | the suggestions are the first min(8, number of matches) matching records, in payload order. Every matching record is kept or lies after the eighth kept one |
| Suggestions.SearchTermCaseInsensitive | src/components/ExerciseSearch.tsx:41-71 | queries that differ only in letter case have the same search term and the same trimmed UTF-16 length |
| Suggestions.CaseInsensitive | src/components/ExerciseSearch.tsx:41-45 | two queries that differ only in letter case are both searched or both skipped, and they give the same suggestions from the same payload |
| Suggestions.Utf16LowerInvariant | src/components/ExerciseSearch.tsx:41 | lower-casing does not change the UTF-16 length that the short-query guard measures |
| ExerciseSearch.SearchBox.constructor | src/components/ExerciseSearch.tsx:24-26 | starts with no suggestions, not loading, and the dropdown hidden |
| ExerciseSearch.SearchBox.Settle | src/components/ExerciseSearch.tsx:41-48 | a request goes out exactly when the query is not short. A short query empties `exercises` and hides the dropdown, and `loading` is untouched. Otherwise `loading` becomes true and nothing else changes |
| ExerciseSearch.SearchBox.Resolve | src/components/ExerciseSearch.tsx:54-89 | `loading` ends false. A failure or a throwing callback empties `exercises` and keeps `showDropdown`. A non-array empties `exercises` and hides the dropdown. Success stores exactly `FilterSuggestions` and shows the dropdown, even with no match. At most 8 named suggestions are kept throughout |
| ExerciseSearch.SearchBox.Search | src/components/ExerciseSearch.tsx:38-91 | one settled query: the short-query, failure, non-array, TypeError and success outcomes, each with its final `exercises`, `loading` and `showDropdown` |
| ExerciseSearch.SearchBox.DropdownDrawn | src/components/ExerciseSearch.tsx:111 | definition: the option list is drawn exactly when `showDropdown` is set, the list is non-empty and no search is loading |
| ExerciseSearch.SearchBox.Focus | src/components/ExerciseSearch.tsx:100 | focus sets `showDropdown` and changes nothing else |
| ExerciseSearch.SearchBox.Choose | src/components/ExerciseSearch.tsx:111-121 | an option can be clicked only while the dropdown is drawn. The name passed to `onChange` is the chosen exercise's non-empty name, `onSelect` gets that whole exercise, and the dropdown closes with the list kept |
| WorkoutForm.ToNumber | src/components/WorkoutForm.tsx:31-32 | definition: `Number(sets)` and `Number(reps)` give 0 for a blank input and the number itself otherwise |
| WorkoutForm.Submit | src/components/WorkoutForm.tsx:15-46 | at most one of `success` and `error` is non-empty. A document is sent exactly when a user is signed in, with the user's uid, the date, exercise and notes copied, blank sets/reps as 0 and numbers kept, and a server timestamp. No user: only `error` is set, and the inputs stay. Saved: "Workout Saved!" and all inputs blank. Failed: the store's message, `success` empty, and the inputs kept |
| WorkoutForm.RetryAfterFailure | src/components/WorkoutForm.tsx:43-45 | after a failed write, submitting again sends the identical document |
| WorkoutForm.SubmitAfterSave | src/components/WorkoutForm.tsx:27-42 | after a save, an immediate resubmit sends a document with empty strings and sets = reps = 0 |
| WorkoutForm.MessagesFromLastSubmitOnly | src/components/WorkoutForm.tsx:17-18 | both messages are cleared first, so earlier messages never affect a submit's outcome |
| WorkoutForm.Form.constructor | src/components/WorkoutForm.tsx:7-13 | all seven fields start blank |
| WorkoutForm.Form.HandleSubmit | src/components/WorkoutForm.tsx:15-46 | the new fields and the document sent are exactly those `Submit` gives for the old fields, so every property of `Submit` holds of the handler |

## Left out

- The 300 ms debounce (`setTimeout`/`clearTimeout`, ExerciseSearch.tsx lines 29-36) is not modelled. Its timing and cancellation are replaced by the caller invoking `Settle` for a settled query.
- The HTTP request, its URL (`name_like` with `encodeURIComponent`), the status check and the JSON parsing are not modelled. They become the `Response` value `Failed`, `NotArray` or `Array(data)`.
- `console.error` logging of a failed search is not modelled, because it is output only.
- Unicode case mapping is not modelled. `toLowerCase` lower-cases only `A`-`Z`, so for non-ASCII text the model can match differently from a browser, keeping a record a browser drops or dropping one it keeps.
- `Number(e.target.value)` parsing of the sets/reps inputs is not modelled. Floats, NaN and the parsing rules are left out, and `sets`/`reps` hold an integer or blank.
- The five input `onChange` handlers and the search input's `onChange` are not modelled. Each is a single field assignment or passes the text straight to the parent.
- Browser constraint validation from the `required` attributes is not modelled. A browser blocks submitting blank inputs before `handleSubmit` runs, but the model lets `Submit` see blank fields.
- Firebase Auth and Firestore are not modelled. The current user is an `Option<User>` parameter, the write's result is a `WriteOutcome` parameter, and `serverTimestamp()` is the `ServerTimestamp` marker.
- A thrown error's `message` is always a string in the model. In JavaScript a thrown value without a message would leave `error` undefined.
- Rendering, layout and the "Searching..." indicator are not modelled. Of the render code, only the dropdown's visibility condition (`DropdownDrawn`) is kept.
- Suggestions.SearchTermCaseInsensitive: the equal trimmed UTF-16 length holds for the ASCII lower-casing of the model only. In a browser `"İ".toLowerCase()` is two code units long, so queries with the same lower-cased form can differ in trimmed length.
- Suggestions.CaseInsensitive: "both searched or both skipped" holds for the ASCII lower-casing of the model only. In a browser `"İ"` is skipped while its lower-cased form `"i̇"` is searched.
- Suggestions.Utf16LowerInvariant: holds for the ASCII lower-casing of the model only. Unicode lower-casing can change the UTF-16 length.
- A payload record is reduced to `id` as a string, `name`, `category`, `primaryMuscles` and `secondaryMuscles`. A non-string `id` and any other field of the record are not represented, so `onSelect` receives only these five fields.
- Concurrent requests are not modelled as interleaved steps. Each `Settle`, `Resolve`, `Focus` and `Choose` is one atomic step, and they may be called in any order.
- WorkoutForm.Form.HandleSubmit: the handler runs as one atomic step, although it awaits `addDoc` (WorkoutForm.tsx line 27) between clearing the messages (lines 17-18) and applying the outcome (lines 37-44). What that pause allows is not captured. Edits typed while the write is pending are wiped by the reset after a save and are not in the document. A second submit during the write sends a second document. Both messages are empty while the write is pending.
- WorkoutList, the sign-up, login and sign-out pages, routing and the auth-mode toggle are not modelled. They are service calls and rendering, without local logic.
