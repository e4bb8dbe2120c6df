# Mood Melody: the recommendation selector and session controller

This project models in Dafny the core of the Mood Melody front end, a
single React component (`musicmood-frontend/src/App.js`). The user
describes a feeling, an ONNX text classifier turns it into a mood label,
and the component picks songs for that mood from a JSON catalogue.

The model covers three parts:

- **Shuffle** (`shuffle.dfy`). `shuffleArray` is an in-place
  Fisher–Yates shuffle. It is modelled as a method on an `array` and is
  proved equal to the specification function `Shuffled`. `Shuffled` is
  proved to be a permutation, and every element can end up in the last
  slot. `Math.random` becomes a sequence of draws, one per loop step,
  where step `k` picks index `draws[k] % currentIndex`.
- **Recommendation** (`songs.dfy`, `recommend.dfy`).
  `recommendSongsByMood` is the function `Recommendation`. It works in
  these steps:
  - keep the songs whose mood matches the label, ignoring ASCII case;
  - sort a copy stably by popularity, highest first (`popularity || 0`),
    and keep the first five;
  - build a random pool from the matches whose id no popular song has,
    widened back to every match when fewer than five remain and more
    matches exist than popular songs;
  - shuffle a copy of the pool and keep its first five.

  The method `RecommendSongsByMood` does the same with the shuffle in
  place on an array copy. The insertion sort is proved to produce the one
  stable sort of its input.
- **Session** (`session.dfy`, `jstext.dfy`). The component's hooks are
  the fields of the class `MoodMelodyApp`. Its methods are:
  - `RunLoadEffect`: the mount effect, guarded by the
    `onnxRuntimeInitialized` latch;
  - `ResumeAfterModel` and `ResumeAfterCatalog`: the two continuations of
    `loadRessourcen`, one per `await`;
  - `FireInfoTimer`: the three-second timer;
  - `HandleInputChange` and `HandlePredict`.

  Each method is proved equal to a step function on the `AppState`
  value. Sequences of events are then run through those functions, and
  every reachable state is proved to satisfy `Consistent`.

Error messages are held as a sequence of `Notice` values. `ErrorText`
renders them with the source's exact wording, joining them with single
spaces as the `prevError + ' ...'` update does. The status line is an
`Info` value; `InfoText` gives its text.

`wrappers.dfy` holds the `Option` and `Result` datatypes.

## Model

| member | source | states |
|---|---|---|
| Songs.LowerChar | musicmood-frontend/src/App.js:102 | `toLowerCase` on one character: a capital `A`–`Z` becomes its own lower-case letter (code point plus 32), and every other character stays as it is |
| Songs.ToLower | musicmood-frontend/src/App.js:102 | lower-casing keeps the length and lower-cases each character in place |
| Songs.Popularity | musicmood-frontend/src/App.js:106 | the sort key `popularity || 0`; no contract of its own, as it is the key `SortedByPopularity`, `SortIsStable` and `PopularIsTopK` are stated in |
| Songs.MoodMatches | musicmood-frontend/src/App.js:102 | the filter test: no contract of its own; `MoodMatchesIgnoresCase` states that it ignores case, and `MatchingSongs` and `MatchingCounts` that the filter keeps exactly the songs it accepts |
| Songs.MoodMatchesIgnoresCase | musicmood-frontend/src/App.js:101-102 | two labels that lower-case alike select exactly the same songs |
| Shuffle.Swap | musicmood-frontend/src/App.js:89-90 | the destructuring swap keeps the length |
| Shuffle.SwapPermutes | musicmood-frontend/src/App.js:89-90 | the swap keeps the multiset of elements |
| Shuffle.ShuffleFrom | musicmood-frontend/src/App.js:84-91 | the loop from a given `currentIndex` down to 0 keeps the length |
| Shuffle.Shuffled | musicmood-frontend/src/App.js:81-93 | the whole shuffle keeps the length |
| Shuffle.ShuffleFromPermutes | musicmood-frontend/src/App.js:84-91 | the remaining loop rearranges the elements and neither loses nor duplicates any |
| Shuffle.ShuffledPermutes | musicmood-frontend/src/App.js:81-93 | `shuffleArray` returns a permutation of its input |
| Shuffle.ShuffleFromKeepsSettled | musicmood-frontend/src/App.js:84-91 | slots at or above `currentIndex` are never touched again |
| Shuffle.ShuffleFromFirstStep | musicmood-frontend/src/App.js:84-90 | the first iteration swaps the last slot with the drawn index and goes on one slot lower |
| Shuffle.ShuffledLastCanBeAny | musicmood-frontend/src/App.js:81-93 | for every element there are draws that leave it in the last slot |
| Shuffle.ShuffleArray | musicmood-frontend/src/App.js:81-93 | the in-place loop leaves the array equal to `Shuffled` of its old contents, and a permutation of them |
| Recommend.MatchingSongs | musicmood-frontend/src/App.js:101-102 | a song is kept exactly when it is in the catalogue and its mood matches the label case-insensitively; the result is no longer than the catalogue |
| Recommend.MatchingCounts | musicmood-frontend/src/App.js:101-102 | the filter keeps every copy of a matching song and no copy of any other |
| Recommend.MatchingAppend | musicmood-frontend/src/App.js:101-102 | the filter keeps catalogue order: filtering two parts in turn gives the filtered whole |
| Recommend.MatchingIsSubMultiset | musicmood-frontend/src/App.js:101-102 | the filter only drops songs and never duplicates one |
| Recommend.InsertByPopularity | musicmood-frontend/src/App.js:106 | inserting into a popularity-sorted list keeps it sorted, adds exactly one element and brings in only that song |
| Recommend.ConsSorted | musicmood-frontend/src/App.js:106 | a song at least as popular as every song of a sorted list can lead it |
| Recommend.HeadIsMostPopular | musicmood-frontend/src/App.js:106 | the head of a sorted list is the most popular song in it |
| Recommend.SortByPopularity | musicmood-frontend/src/App.js:105-106 | the sort yields a list sorted by descending popularity, of the same length, made only of input songs |
| Recommend.InsertPermutes | musicmood-frontend/src/App.js:106 | insertion adds the new song to the multiset and changes nothing else |
| Recommend.SortPermutes | musicmood-frontend/src/App.js:105-106 | the sorted copy is a permutation of the matches |
| Recommend.WithPopularity | musicmood-frontend/src/App.js:106 | the songs of one popularity, in their original order, are all input songs with that popularity |
| Recommend.WithPopularityCons | musicmood-frontend/src/App.js:106 | the songs of one popularity in a list with a head are the head, if it has that popularity, followed by those of the tail |
| Recommend.InsertKeepsTies | musicmood-frontend/src/App.js:106 | insertion keeps the relative order of songs with equal popularity |
| Recommend.SortIsStable | musicmood-frontend/src/App.js:105-106 | the sort is stable: songs of equal popularity keep the order of the sort's input, as `Array.prototype.sort` guarantees |
| Recommend.MatchingKeepsTies | musicmood-frontend/src/App.js:101-102 | taking the songs of one popularity commutes with the mood filter |
| Recommend.CatalogueOrderOfTies | musicmood-frontend/src/App.js:101-106 | in the sorted matches, the songs of each popularity come in catalogue order |
| Recommend.SortedByTiesUnique | musicmood-frontend/src/App.js:106 | two sorted lists with the same songs of each popularity, in the same order, are equal |
| Recommend.StableSortCharacterized | musicmood-frontend/src/App.js:105-106 | a list is the sort's result exactly when it is sorted by popularity and keeps the order of equal-popularity songs |
| Recommend.PopularSongs | musicmood-frontend/src/App.js:105-107 | the popular list has min(5, number of matches) songs, sorted, all of them matches |
| Recommend.PopularIsSubMultiset | musicmood-frontend/src/App.js:105-107 | the popular list takes each match at most as often as it occurs |
| Recommend.PopularIsTopK | musicmood-frontend/src/App.js:105-107 | no match left out of the popular list is more popular than one in it |
| Recommend.IdsOf | musicmood-frontend/src/App.js:111 | the id set holds the id of every popular song |
| Recommend.WithoutIds | musicmood-frontend/src/App.js:112 | a match stays exactly when its id is not among the popular ids; the result is no longer than the input |
| Recommend.WithoutIdsCounts | musicmood-frontend/src/App.js:112 | the id filter keeps every copy of a song whose id is not excluded and no copy of any other |
| Recommend.WithoutIdsAppend | musicmood-frontend/src/App.js:112 | the id filter keeps the order of its input |
| Recommend.WithoutIdsIsSubMultiset | musicmood-frontend/src/App.js:112 | the id filter only drops songs |
| Recommend.RemainingSongs | musicmood-frontend/src/App.js:112 | no contract of its own; `WithoutIds`, `WithoutIdsCounts`, `WithoutIdsAppend` and `RemainingCount` state what it keeps |
| Recommend.PoolWidened | musicmood-frontend/src/App.js:115 | the widening test: no contract of its own; `WidenedExactlyBetweenLimits` states when it holds, and `RandomPool` what it decides |
| Recommend.RandomPool | musicmood-frontend/src/App.js:110-119 | a widened pool is all the matches; otherwise it holds exactly the matches whose id no popular song has |
| Recommend.RandomPicks | musicmood-frontend/src/App.js:121-122 | the random list has min(5, pool size) songs |
| Recommend.RandomPicksFromPool | musicmood-frontend/src/App.js:121-122 | the random list is a sub-multiset of the pool |
| Recommend.Recommendation | musicmood-frontend/src/App.js:95-124 | an empty catalogue or an empty label clears both lists; the popular list has min(5, number of matches) songs and is sorted; the random list has at most five; every song in either is a catalogue song whose mood matches the label |
| Recommend.RecommendSongsByMood | musicmood-frontend/src/App.js:95-124 | the method, which shuffles an array copy in place, produces exactly the lists of `Recommendation` |
| Recommend.PickRandom | musicmood-frontend/src/App.js:121-122 | shuffling a fresh array copy of the pool and slicing it gives `RandomPicks` |
| Recommend.PicksAreSubMultisets | musicmood-frontend/src/App.js:101-122 | neither list repeats a match more often than the catalogue holds it |
| Recommend.NoMatchNoPicks | musicmood-frontend/src/App.js:101-122 | when no song matches the label, both lists are empty |
| Recommend.NoneMatching | musicmood-frontend/src/App.js:101-102 | the filter is empty when nothing matches |
| Recommend.FewMatchesNoRandom | musicmood-frontend/src/App.js:105-119 | with at most five matches, all of them are popular and the random list is empty |
| Recommend.WithoutAllIds | musicmood-frontend/src/App.js:112 | songs whose ids are all excluded leave nothing |
| Recommend.IdsOfSubset | musicmood-frontend/src/App.js:111 | the ids of a sub-list are among the ids of the list |
| Recommend.UniqueIdsCount | musicmood-frontend/src/App.js:111 | with unique ids, the id set is as large as the list |
| Recommend.UniqueIdsPrefix | musicmood-frontend/src/App.js:107 | a prefix of a list with unique ids has unique ids |
| Recommend.MatchingKeepsUniqueIds | musicmood-frontend/src/App.js:101-102 | filtering keeps ids unique |
| Recommend.InsertKeepsUniqueIds | musicmood-frontend/src/App.js:106 | inserting a song with a new id keeps ids unique |
| Recommend.SortKeepsUniqueIds | musicmood-frontend/src/App.js:105-106 | sorting keeps ids unique |
| Recommend.WithoutIdsCount | musicmood-frontend/src/App.js:112 | with unique ids, the id filter removes exactly as many songs as it has ids in common with the list |
| Recommend.IdsOfCons | musicmood-frontend/src/App.js:111 | the ids of a list with a head are the head's id and the tail's ids |
| Recommend.RemainingCount | musicmood-frontend/src/App.js:105-112 | with unique ids, the remaining songs number the matches minus the popular songs |
| Recommend.WithoutOwnIdsCount | musicmood-frontend/src/App.js:111-112 | removing the ids of a sub-list with unique ids removes exactly its length |
| Recommend.PopularKeepsUniqueIds | musicmood-frontend/src/App.js:105-107 | the popular list keeps ids unique |
| Recommend.WidenedExactlyBetweenLimits | musicmood-frontend/src/App.js:115-119 | with unique ids, the pool is widened exactly when there are more than five and fewer than ten matches |
| Recommend.ManyMatchesFullRandom | musicmood-frontend/src/App.js:110-122 | with more than five matches the random list has five songs, whatever the ids: widening fills it when fewer than five remain |
| Recommend.ManyMatchesDisjoint | musicmood-frontend/src/App.js:110-122 | with unique ids and at least ten matches, no random song shares an id with a popular song |
| JsText.TrimStart | musicmood-frontend/src/App.js:133 | the result is a suffix of the input that does not start with whitespace, and everything dropped is whitespace |
| JsText.TrimEnd | musicmood-frontend/src/App.js:133 | the result is a prefix of the input that does not end with whitespace, and everything dropped is whitespace |
| JsText.Trim | musicmood-frontend/src/App.js:133 | `String.prototype.trim`: no contract of its own; `TrimStart`, `TrimEnd` and `TrimEmptyIffBlank` state it |
| JsText.TrimStartEmpty | musicmood-frontend/src/App.js:133 | trimming the start leaves nothing exactly when the text is all whitespace |
| JsText.TrimEndKeepsHead | musicmood-frontend/src/App.js:133 | a text starting with a non-space character keeps a non-empty trimmed end |
| JsText.TrimEmptyIffBlank | musicmood-frontend/src/App.js:133 | `inputText.trim()` is empty, and so falsy, exactly when the text is all whitespace |
| JsText.DigitChar | musicmood-frontend/src/App.js:56 | a decimal digit becomes the digit character of that value |
| JsText.NatToString | musicmood-frontend/src/App.js:56 | the status in the message is written in decimal digits, with no leading zero |
| JsText.NatToStringValue | musicmood-frontend/src/App.js:56 | the digits written for a status read back as that status |
| Session.FetchFailureMessage | musicmood-frontend/src/App.js:56-64 | the `e.message` of a failed load: no contract of its own; `BadStatusFailure` states the `HTTP error! status: N` text and `CatalogErrorText` the whole line |
| Session.InfoText | musicmood-frontend/src/App.js:18-60 | the status line's wording for each `Info` value; no contract of its own, its text is the definition |
| Session.Text | musicmood-frontend/src/App.js:126-171 | no message is empty, so once set it shows on the error line |
| Session.ErrorText | musicmood-frontend/src/App.js:64 | the error line is empty exactly when no message is held |
| Session.ErrorTextAppend | musicmood-frontend/src/App.js:64 | a new message is appended after a space, or stands alone when the line was empty |
| Session.CatalogErrorText | musicmood-frontend/src/App.js:56-64 | a failed catalogue load appends ` Failed to load song data: <message>.`, or sets it alone |
| Session.StartLoading | musicmood-frontend/src/App.js:70-73 | after the effect the latch is set, and a set latch makes the effect do nothing |
| Session.FetchedSongs | musicmood-frontend/src/App.js:53-58 | the songs are taken exactly when the request succeeded, the status is 2xx (`response.ok`) and the body parsed, and then they are the parsed body; otherwise the failure is the rejection's message, the bad status, or the parser's message, in that order of checks |
| Session.Initial | musicmood-frontend/src/App.js:9-20 | the `useState`/`useRef` initial values; no contract of its own; `InitialConsistent` states it is consistent and not ready |
| Session.Ready | musicmood-frontend/src/App.js:173-189 | the input section shows; no contract of its own; `ReadyMeansSettled` states that it implies settled loading |
| Session.ModelLoaded | musicmood-frontend/src/App.js:38-52 | the continuation after the model load: no contract of its own; `ModelLoadedKeepsConsistent`, `ModelFailureStopsLoading` and `SuccessfulLoad` state it |
| Session.CatalogLoaded | musicmood-frontend/src/App.js:53-67 | the continuation after the fetch: no contract of its own; `CatalogLoadedKeepsConsistent`, `CatalogFailureKeepsModel`, `SongDataOnlyOnSuccess`, `BadStatusFailure` and `SuccessfulLoad` state it |
| Session.InfoTimerFired | musicmood-frontend/src/App.js:61 | the timer callback: no contract of its own; `MoodMelodyApp.FireInfoTimer` and `InfoTimerFiredKeepsConsistent` state it |
| Session.InputChanged | musicmood-frontend/src/App.js:76-78 | `handleInputChange`: no contract of its own; `MoodMelodyApp.HandleInputChange` and `InputChangedKeepsConsistent` state it |
| Session.Predict | musicmood-frontend/src/App.js:126-171 | `handlePredict`: no contract of its own; `PredictGuards`, `PredictOutcomes`, `PredictForgetsPreviousResults` and `PredictKeepsConsistent` state it |
| Session.Cleared | musicmood-frontend/src/App.js:141-146 | the resets at the start of the `try` block: no contract of its own; `PredictOutcomes` and `PredictForgetsPreviousResults` state their effect |
| Session.Applied | musicmood-frontend/src/App.js:156-170 | the rest of the `try` block and its `catch`: no contract of its own; `PredictOutcomes` and `AppliedKeepsConsistent` state it |
| Session.Step | musicmood-frontend/src/App.js:22-171 | one event of the component; no contract of its own; `StepKeepsConsistent` states that it keeps the invariant |
| Session.Run | musicmood-frontend/src/App.js:22-171 | a sequence of events; no contract of its own; `RunKeepsConsistent`, `ReachableStatesConsistent` and `ModelFailureIsFinal` state it |
| Session.InitialConsistent | musicmood-frontend/src/App.js:9-20 | the initial state is consistent and not ready |
| Session.StartLoadingOnce | musicmood-frontend/src/App.js:22-73 | the effect is idempotent: a second mount starts nothing, and the first one awaits the model |
| Session.StartLoadingKeepsConsistent | musicmood-frontend/src/App.js:22-73 | the mount effect keeps the state consistent |
| Session.ModelLoadedKeepsConsistent | musicmood-frontend/src/App.js:38-52 | the model step keeps the state consistent |
| Session.CatalogLoadedKeepsConsistent | musicmood-frontend/src/App.js:53-67 | the catalogue step keeps the state consistent |
| Session.InfoTimerFiredKeepsConsistent | musicmood-frontend/src/App.js:61 | the timer keeps the state consistent |
| Session.InputChangedKeepsConsistent | musicmood-frontend/src/App.js:76-78 | typing keeps the state consistent |
| Session.PredictKeepsConsistent | musicmood-frontend/src/App.js:126-171 | a prediction keeps the state consistent: both lists stay short, sorted where required, and made of catalogue songs matching the shown mood |
| Session.AppliedKeepsConsistent | musicmood-frontend/src/App.js:156-170 | applying the run's outcome to cleared lists keeps the state consistent |
| Session.StepKeepsConsistent | musicmood-frontend/src/App.js:22-171 | every possible event keeps the state consistent |
| Session.RunKeepsConsistent | musicmood-frontend/src/App.js:22-171 | every possible run of events keeps the state consistent |
| Session.ReachableStatesConsistent | musicmood-frontend/src/App.js:9-171 | every state reachable from the initial one is consistent |
| Session.ReadyMeansSettled | musicmood-frontend/src/App.js:173-189 | when the input section shows, loading has finished and the latch is set |
| Session.ModelFailureStopsLoading | musicmood-frontend/src/App.js:42-48 | a failed model load ends loading with only the model message, fetches no songs and leaves every click answered by "AI Session not loaded" |
| Session.ModelFailureIsFinal | musicmood-frontend/src/App.js:42-73 | after a failed model load, no sequence of events ever brings a session or the input section |
| Session.CatalogFailureKeepsModel | musicmood-frontend/src/App.js:62-67 | a failed catalogue load still makes the page ready, appends the load message, and leaves every prediction with empty lists |
| Session.BadStatusFailure | musicmood-frontend/src/App.js:53-67 | a response outside 200-299 keeps the library, settles loading, clears the status line and appends a failure whose reason is `HTTP error! status: N` |
| Session.SongDataOnlyOnSuccess | musicmood-frontend/src/App.js:53-58 | the song data changes only to the parsed body of a 2xx response |
| Session.SuccessfulLoad | musicmood-frontend/src/App.js:22-67 | a successful model load and a 200 response make the page ready with the fetched songs, no error and "Ready to discover your vibe!" |
| Session.PredictGuards | musicmood-frontend/src/App.js:127-139 | before loading is over, a click only sets the guard message; on blank input it sets its message and clears the mood and both lists |
| Session.PredictOutcomes | musicmood-frontend/src/App.js:141-170 | a prediction clears the status line; it is error-free exactly when the model returned a label, and then it shows that label and `Recommendation`'s lists; an empty output or an exception sets its message and clears the mood |
| Session.PredictForgetsPreviousResults | musicmood-frontend/src/App.js:141-146 | past results, errors and status do not affect a prediction that gets past the guards |
| Session.MoodMelodyApp.constructor | musicmood-frontend/src/App.js:9-20 | the hooks start with the initial state |
| Session.MoodMelodyApp.RunLoadEffect | musicmood-frontend/src/App.js:22-73 | the fields are updated as `StartLoading` says |
| Session.MoodMelodyApp.ResumeAfterModel | musicmood-frontend/src/App.js:38-52 | the fields are updated as `ModelLoaded` says |
| Session.MoodMelodyApp.ResumeAfterCatalog | musicmood-frontend/src/App.js:53-67 | the fields are updated as `CatalogLoaded` says |
| Session.MoodMelodyApp.FireInfoTimer | musicmood-frontend/src/App.js:61 | the timer clears the status line and nothing else |
| Session.MoodMelodyApp.HandleInputChange | musicmood-frontend/src/App.js:76-78 | typing sets the input text and nothing else |
| Session.MoodMelodyApp.HandlePredict | musicmood-frontend/src/App.js:126-171 | the fields are updated as `Predict` says |
| Session.MoodMelodyApp.ShowRecommendations | musicmood-frontend/src/App.js:95-124 | the two lists become `Recommendation`'s lists for the label, and nothing else changes |
| Session.MoodMelodyApp.ClearResults | musicmood-frontend/src/App.js:142-146 | the error, the status, the mood and both lists are reset, with "Finding your vibe..." as the mood |
| Session.MoodMelodyApp.ApplyOutcome | musicmood-frontend/src/App.js:156-170 | the fields are updated as `Applied` says for the run's outcome |

## Left out

- The ONNX runtime, `fetch`, `response.json()` and `Math.random` are not modelled. Each is a parameter of the step that uses it: a `Result` for the model, a `CatalogFetch` for the library, a `RunOutcome` for `session.run`, and `draws` for the shuffle.
- The WASM path setup, the model and data paths, and the tensor construction are left out. They only pass fixed values to the runtime.
- `console.log` and `console.error` are left out. They have no effect on the state.
- React rendering is left out, apart from the readiness test (`Ready`) and the non-empty error line.
- `RecommendSongsByMood`, `Recommendation` and `HandlePredict` require at least one draw per catalogue song. `Math.random` always supplies one draw per loop step, and a pool never has more songs than the catalogue.
- Popularity is an integer, not a float. `parseFloat` on strings and `NaN` popularities are not modelled, so a catalogue whose comparator returns `NaN` is outside the model.
- `toLowerCase` is modelled for ASCII letters only. Non-ASCII case mappings are not modelled.
- Moods that are not strings are not modelled. A non-array JSON body is not modelled either.
- A missing output tensor, or one without `data`, is treated as an empty output.
- An exception whose `message` is `undefined` is not modelled. Every failure carries a string message.
- Session.MoodMelodyApp.HandlePredict: a click is atomic. The "Finding your vibe..." state while `session.run` is pending is modelled only inside `ClearResults`, and two overlapping clicks are not modelled.
- Session.Enabled: the model lets the info timer fire in any state, while the code starts it only after a successful catalogue load. The timer only clears the status line, so every invariant proved also holds for the narrower behaviour.
- The continuations of `loadRessourcen` after an unmount are not modelled. Every `await` resumes on the same component.
- Session.Text: its contract states only that no message is empty. The exact wording is the function's definition, and the lemmas about `ErrorText` build on it.
- The methods of `MoodMelodyApp` do not carry `Consistent` in their contracts. Each method is proved equal to its step function, and the invariant is proved over those functions and over every run of events.
- Recommend.MatchingSongs: its own contract states which songs appear. How many copies are kept and in which order is stated by `MatchingCounts` and `MatchingAppend`, so that proofs using the filter stay cheap.
- Recommend.WithoutIds: the same split. Copies and order are stated by `WithoutIdsCounts` and `WithoutIdsAppend`.
- The feed construction of `handlePredict` is left out (lines 148-152). `InferenceSession` keeps the input and output names it would use, but `session.run` is a parameter, so nothing reads them.

Two behaviours of `App.js` are worth stating plainly:

- Songs without an id all share the id `undefined` (`Song.id == None`). One such song in the popular list keeps every other id-less song out of the unwidened pool.
- A failed model load returns before the song library is requested. Only the model message is shown, and a later catalogue failure can only follow a successful model load.
