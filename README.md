# DogFit: a Dafny model of the app's client and route logic

DogFit is a pet-fitness web app. Owners fill in a profile for their dog in a
five-step wizard. They get exercise recommendations, either from an AI route
or from a small built-in catalogue. They browse the recommendations in a
carousel, add their own exercises, and review or delete their exercise history.
A stamp counter in the browser's local storage rewards completed sessions.

This project models the deterministic rules behind those features. One Dafny
module stands for each source file:

- `ResultPage` (`app/result/page.tsx`). It covers step normalisation and the
  carousel's card list, with wrap-around navigation. It also covers the
  custom-exercise form, deletion of custom cards, and the choice of a card's
  image file. The page state is the class `ResultPage.ResultView`.
- `Utils` (`lib/utils.ts`). It covers the catalogue recommender and the stamp
  counter. The counter sits on a map-backed local store, the class
  `Utils.LocalStore`.
- `ExercisesRoute` (`app/api/exercises/route.ts`). It covers the `profileId`
  guard, the reshaping of the stored profile (age split, defaults), the strings
  put into the prompt, the choice of the recommendation list out of the
  model's JSON reply, and the status codes. The database and the language model
  are parameters: their answers are given as values.
- `HistoryPage` (`app/history/page.tsx`). It covers the difficulty filter, and
  deleting and clearing history rows. The page state is the class
  `HistoryPage.HistoryView`. Its invariant says the shown list is always the
  filtered history.
- `FormPage` (`app/form/page.tsx`). It covers the wizard's step counter and
  step-1 checks, the age and weight steppers, the activity and equipment
  toggles with the lists derived from them, and the duplicate-save guard. The
  wizard state is the class `FormPage.ProfileForm`.
- `NavigationBar` (`components/NavigationBar.tsx`). It covers which item is
  highlighted for a path, and the logged-out gate.
- `BreedSelector` (`components/ui/Breed-selector.tsx`). It covers choosing a
  breed (choosing it again clears it) and what the trigger shows.

Shared modules:

- `Seqs`: `Option`, `filter`, `find`, `includes`, `join`, and order-preserving
  subsequences.
- `Text`: lower-casing, whitespace runs, and decimal digits.
- `Records`: JavaScript objects as ordered key/value lists. `Object.keys`
  keeps insertion order for non-numeric keys, and every key the app uses
  (health ids, activity and equipment names) is a word.
- `Json`: parsed JSON with JavaScript truthiness.
- `Exercises`: the `Exercise` and `DogInfo` records.

A step is `Plain(text)` or `Structured(step, stepDuration)`, because the code
meets both shapes.

Age and weight are exact rationals (`real`). `Math.round` is rounding half up.
JavaScript's truncating `%` is written out as `ExercisesRoute.JsRem`.

A natural rule would re-check structured step durations and fall back to 60
seconds for a non-positive one. The code does not: a list whose first step is a
record is returned unchanged. The model follows the code
(`ResultPage.NormalizeSteps`).

## Model

| member | source | states |
|---|---|---|
| Text.HyphenateSpaces | dogfit-app/app/result/page.tsx:50 | the id with whitespace runs replaced: no whitespace is left and the text does not grow |
| Text.HyphenateSpacesWord | dogfit-app/app/result/page.tsx:50 | a text without whitespace is left unchanged |
| Text.HyphenateSpacesRun | dogfit-app/app/result/page.tsx:50 | a word is kept, the whole whitespace run after it becomes exactly one hyphen, and the rest is replaced the same way; with the previous row this fixes the result for every text |
| Utils.ByLevel | dogfit-app/lib/utils.ts:128-135 | "low" keeps only easy exercises, "medium" drops every hard one, "high" keeps all; the result is an order-preserving subsequence that keeps every easy entry |
| Utils.ByHealth | dogfit-app/lib/utils.ts:137-143 | a "joint" issue removes the slalom and keeps every other entry in order; without "joint" the list is unchanged |
| Utils.FirstTwo | dogfit-app/lib/utils.ts:145 | `slice(0, 2)` is the prefix of length min(2, n) |
| Utils.CatalogueFacts | dogfit-app/lib/utils.ts:77-126 | the catalogue's three entries: medium, easy, and the hard slalom; all have plain-string steps and none is custom |
| Utils.RecommendNeverFallsBack | dogfit-app/lib/utils.ts:145 | the filtered list is never empty, so the first-two fallback is never taken |
| Utils.RecommendNonEmpty | dogfit-app/lib/utils.ts:145-146 | the recommender never returns an empty list |
| Utils.RecommendProperties | dogfit-app/lib/utils.ts:75-146 | the result is non-empty and an order-preserving subsequence of the catalogue; it obeys the level and "joint" rules; every step list is plain strings |
| Utils.RecommendHighKeepsAll | dogfit-app/lib/utils.ts:129-135 | "high" without "joint" returns the whole catalogue |
| Utils.RecommendIgnoresOtherIssues | dogfit-app/lib/utils.ts:138-143 | health issues other than "joint" do not change the result |
| Utils.ParseInt | dogfit-app/lib/utils.ts:15 | a parsed integer text starts with a digit or a minus sign |
| Utils.ParseShowInt | dogfit-app/lib/utils.ts:26 | an integer written with `JSON.stringify` is read back by `JSON.parse` |
| Utils.LocalStore.ReadInt | dogfit-app/lib/utils.ts:8-20 | the default is used on the server, for an absent or empty key, and for an unparsable text; otherwise the stored value is used |
| Utils.LocalStore.WriteInt | dogfit-app/lib/utils.ts:22-30 | in the browser the key holds the value's JSON text and reads back as the value; on the server nothing changes |
| Utils.LocalStore.AddStamp | dogfit-app/lib/utils.ts:32-37 | returns the stored count (0 if none) plus one, stores exactly that, and leaves other keys alone |
| Utils.AddTwoStamps | dogfit-app/lib/utils.ts:32-37 | two stamps in a row add two to the stored count |
| ResultPage.NormalizeSteps | dogfit-app/app/result/page.tsx:145-153 | no list gives []; a list with a plain head keeps its length and step texts and gives every step 60 seconds; an empty list or one with a record head comes back unchanged, durations unchecked |
| ResultPage.NormalizeCopiesAgree | dogfit-app/app/result/page.tsx:230-236 | the second copy of `normalizeSteps` agrees with the first on every input |
| ResultPage.NormalizeIdempotent | dogfit-app/app/result/page.tsx:145-153 | normalising twice is the same as normalising once |
| ResultPage.NormalizeHomogeneous | dogfit-app/app/result/page.tsx:145-153 | a list of one shape only comes out as records only |
| ResultPage.AsRecommendation | dogfit-app/app/result/page.tsx:173-177 | a recommendation is marked not custom and its steps normalised; nothing else changes |
| ResultPage.AsStoredCustom | dogfit-app/app/result/page.tsx:179-182 | a stored custom exercise has its steps normalised; nothing else changes |
| ResultPage.LoadWhen | dogfit-app/app/result/page.tsx:155-214 | cards load exactly when a profile id is stored and there are saved recommendations or a dog; otherwise the visitor is sent to the profile page |
| ResultPage.LoadShape | dogfit-app/app/result/page.tsx:170-205 | when cards load, saved recommendations win over generated ones; generated ones are never empty; the list is the mapped recommendations followed by the mapped custom exercises |
| ResultPage.CardsShape | dogfit-app/app/result/page.tsx:173-184 | the card list's length is the sum of the two lists; each recommendation, in order, is marked not custom with normalised steps; each custom exercise follows, in order, with normalised steps |
| ResultPage.GeneratedStepsAreTimed | dogfit-app/app/result/page.tsx:192-198 | generated recommendations reach the cards with every step a 60-second record |
| ResultPage.NextIndex | dogfit-app/app/result/page.tsx:222-224 | for a valid index the next one is (i + 1) mod n, so it stays in range |
| ResultPage.PrevIndex | dogfit-app/app/result/page.tsx:218-220 | for a valid index the previous one is (i - 1) mod n, so it stays in range |
| ResultPage.NextPrevInverse | dogfit-app/app/result/page.tsx:218-224 | next then previous, or previous then next, is the identity |
| ResultPage.NextTimesForward | dogfit-app/app/result/page.tsx:222-224 | k presses of next (k at most n) move k cards forward, wrapping once |
| ResultPage.NextTimesCycle | dogfit-app/app/result/page.tsx:222-224 | n presses of next return to the starting card |
| ResultPage.Suffix | dogfit-app/app/result/page.tsx:51-62 | the suffix is one of the four names; a missing or unknown contact gives "bodyweight" |
| ResultPage.NormalizedConcat | dogfit-app/app/result/page.tsx:85 | removing separators and lower-casing work piece by piece |
| ResultPage.SuffixAlwaysListed | dogfit-app/app/result/page.tsx:65-82 | every suffix is mentioned by some listed file |
| ResultPage.ChooseFromTiers | dogfit-app/app/result/page.tsx:86-103 | the result is the first listed file of the best tier some file meets: mentioning the id and the suffix, else the id, else the suffix; a file is found whenever one mentions the suffix |
| ResultPage.ImageFilenameListed | dogfit-app/app/result/page.tsx:49-108 | the image is always `/images/exercises/<f>.png` for a listed f; the default image is never used |
| ResultPage.CardImage | dogfit-app/app/result/page.tsx:337 | a non-empty `imageUrl` wins; otherwise the card shows the path of a listed file chosen by the tiers |
| ResultPage.NewCustomExercise | dogfit-app/app/result/page.tsx:238-248 | a new exercise is custom, has id "custom-" plus the time, difficulty "medium" by default, duration 10 in place of 0, and normalised steps |
| ResultPage.AfterDeleteProperties | dogfit-app/app/result/page.tsx:306-318 | deleting a non-custom card changes nothing; deleting a custom one removes exactly the cards with its id and keeps the others in order; the index moves back one, or stays at 0; with a unique id the index stays on a card |
| ResultPage.AfterDeleteSharedId | dogfit-app/app/result/page.tsx:310-317 | when two cards share the deleted id, both go but the index moves back only once and ends past the end of the list |
| ResultPage.ResultView.constructor | dogfit-app/app/result/page.tsx:113-129 | the page starts on the first card with an empty form |
| ResultPage.ResultView.Next | dogfit-app/app/result/page.tsx:222-224 | the index becomes the next index; the invariant is kept |
| ResultPage.ResultView.Previous | dogfit-app/app/result/page.tsx:218-220 | the index becomes the previous index; the invariant is kept on a non-empty list |
| ResultPage.ResultView.AddStep | dogfit-app/app/result/page.tsx:286-296 | an empty step is ignored; otherwise a 60-second step record is appended and the input cleared |
| ResultPage.ResultView.AddEquipment | dogfit-app/app/result/page.tsx:277-284 | an empty item is ignored; otherwise it is appended and the input cleared |
| ResultPage.ResultView.AddBenefit | dogfit-app/app/result/page.tsx:298-305 | an empty benefit is ignored; otherwise it is appended and the input cleared |
| ResultPage.ResultView.AddCustomExercise | dogfit-app/app/result/page.tsx:226-275 | ignored without a name or a description; otherwise the new exercise is appended to the cards and the stored list, the form resets, and the index moves to the new last card |
| ResultPage.ResultView.DeleteCurrent | dogfit-app/app/result/page.tsx:306-318 | the list and index become those of the pure delete; the stored list becomes the remaining custom cards; the invariant is kept when the id is unique |
| ResultPage.AddThenDelete | dogfit-app/app/result/page.tsx:226-318 | a custom card just added under a fresh id can be deleted, and the page stays valid |
| ExercisesRoute.JsRem | dogfit-app/app/api/exercises/route.ts:78 | JavaScript's remainder: Euclidean for a non-negative dividend; for a negative one it lies in (-b, 0] and equals a + b * trunc(-a / b), the remainder of truncating division |
| ExercisesRoute.SplitAge | dogfit-app/app/api/exercises/route.ts:76-79 | for a non-negative age, months is in [0, 12) and years * 12 + months is the age |
| ExercisesRoute.SplitAgeNegative | dogfit-app/app/api/exercises/route.ts:77-78 | for a negative age that is not whole years, the two parts add up to twelve months less |
| ExercisesRoute.BuildDogProfile | dogfit-app/app/api/exercises/route.ts:74-87 | the age becomes floor(age / 12) years and the truncated remainder in months, for every age; name, sex, breed and weight are copied; a present preferences list, equipment list, health record or performance record is passed through; a missing one becomes empty |
| ExercisesRoute.JoinOrNoneCases | dogfit-app/app/api/exercises/route.ts:102-103 | the joined list, or "없음" exactly when there is nothing to list; every item is mentioned |
| ExercisesRoute.HealthIssuesAsWrittenEmpty | dogfit-app/app/api/exercises/route.ts:162 | as written, a dog with no positive health value gets an empty text, not "없음" |
| ExercisesRoute.HealthIssuesTextCases | dogfit-app/app/api/exercises/route.ts:162 | corrected: "없음" when no value is positive; every key with a positive value is mentioned |
| ExercisesRoute.PromptFieldsOfRow | dogfit-app/app/api/exercises/route.ts:98-163 | as written: the prompt's month count is the stored age; missing preferences or equipment show "없음"; missing health values give an empty health-issue line |
| ExercisesRoute.IntendedPromptFieldsOfRow | dogfit-app/app/api/exercises/route.ts:162 | corrected: the same values except the health-issue line, which shows "없음" when the health values are missing or none is positive |
| ExercisesRoute.SelectRecommendationsCases | dogfit-app/app/api/exercises/route.ts:243-256 | a bare array is used as is; otherwise a `recommendations` array; otherwise an `exercises` array; otherwise an object with a truthy id becomes a one-item list; each case gives exactly that list; anything else, null included, is an error |
| ExercisesRoute.RequestedFormatAccepted | dogfit-app/app/api/exercises/route.ts:169-196 | a reply in the format the prompt asks for gives back its recommendations whole |
| ExercisesRoute.HandleOutcomes | dogfit-app/app/api/exercises/route.ts:34-284 | only 200, 400, 404 and 500 occur; a falsy profileId gives 400 before any lookup, whatever the database and the model say; 404 only for a missing row; success exactly when a row is found and the reply is accepted, carrying the reshaped profile and the selected list |
| ExercisesRoute.HandleRequestedFormat | dogfit-app/app/api/exercises/route.ts:236-266 | a good request for an existing dog, answered in the requested format, succeeds with the model's list and summary |
| HistoryPage.DifficultyPassCases | dogfit-app/app/history/page.tsx:134-142 | a truthy `steps.difficulty` decides first, then a truthy `difficulty` field; a row with neither is dropped |
| HistoryPage.FilteredProperties | dogfit-app/app/history/page.tsx:104-145 | the shown list is an order-preserving subsequence of the history; it holds exactly the rows passing the active filters; "all" on both gives the whole history |
| HistoryPage.DeleteCommutes | dogfit-app/app/history/page.tsx:173-178 | deleting from both lists separately gives what the filters would show for the new history |
| HistoryPage.HistoryView.constructor | dogfit-app/app/history/page.tsx:58-71 | the page starts empty, loading, with both filters on "all" |
| HistoryPage.HistoryView.Load | dogfit-app/app/history/page.tsx:74-101 | without a stored profile id nothing loads; otherwise the returned rows (none on error) become the history, and the shown list follows |
| HistoryPage.HistoryView.SetDateFilter | dogfit-app/app/history/page.tsx:104-145 | the shown list is recomputed for the new date filter |
| HistoryPage.HistoryView.SetDifficultyFilter | dogfit-app/app/history/page.tsx:104-145 | the shown list is recomputed for the new difficulty filter |
| HistoryPage.HistoryView.ClearHistory | dogfit-app/app/history/page.tsx:148-162 | without a selected dog nothing happens; otherwise both lists are emptied and the dialog closes |
| HistoryPage.HistoryView.DeleteItem | dogfit-app/app/history/page.tsx:165-186 | without a selected dog nothing happens; otherwise the rows matching both id and date leave both lists and the others stay in order; the invariant is kept |
| FormPage.Round | dogfit-app/app/form/page.tsx:429 | `Math.round` gives the integer within one half of its argument |
| FormPage.AgeStep | dogfit-app/app/form/page.tsx:427-432 | the new age is a whole number of tenths and at least 0.1 |
| FormPage.WeightStep | dogfit-app/app/form/page.tsx:434-441 | the new weight is computed in integer tenths and is at least 0.1 |
| FormPage.AgeStepUpDown | dogfit-app/app/form/page.tsx:427-432 | on an age in tenths, "+" adds exactly 0.1 and "-" undoes it |
| FormPage.AgeStepFloor | dogfit-app/app/form/page.tsx:429 | "-" never takes the age below 0.1 |
| FormPage.WeightStepUpDown | dogfit-app/app/form/page.tsx:434-441 | on a weight in tenths, "+" adds exactly 0.1, "-" undoes it, and "-" at 0.1 stays at 0.1 |
| FormPage.Toggle | dogfit-app/app/form/page.tsx:467-476 | one key flips (an absent key becomes true) and every other key reads as before |
| FormPage.ToggleTwice | dogfit-app/app/form/page.tsx:500-509 | toggling a listed key twice restores the map |
| FormPage.SelectedExactly | dogfit-app/app/form/page.tsx:489-498 | the selected list holds exactly the keys mapped to true, in key order |
| FormPage.ProfileForm.constructor | dogfit-app/app/form/page.tsx:34-93 | the wizard starts at step 1 with empty fields and every toggle off |
| FormPage.ProfileForm.Next | dogfit-app/app/form/page.tsx:272-311 | at step 1 a missing name, then gender, then breed blocks and the step stays; below step 5 the step advances by one; at step 5 a save is requested; the step stays in [1, 5] |
| FormPage.ProfileForm.Back | dogfit-app/app/form/page.tsx:391-393 | the step goes back by one, and stays in [1, 5] when it was above 1 |
| FormPage.ProfileForm.AgeChange | dogfit-app/app/form/page.tsx:427-432 | only the age changes, to the stepped value |
| FormPage.ProfileForm.WeightChange | dogfit-app/app/form/page.tsx:434-441 | only the weight changes, to the stepped value |
| FormPage.ProfileForm.GenderChange | dogfit-app/app/form/page.tsx:423-425 | only the gender changes |
| FormPage.ProfileForm.BreedSelect | dogfit-app/app/form/page.tsx:443-445 | only the breed changes |
| FormPage.ProfileForm.ToggleActivity | dogfit-app/app/form/page.tsx:467-476 | the activity flips and the dog's preferences are rebuilt from the new map |
| FormPage.ProfileForm.UpdateIntensity | dogfit-app/app/form/page.tsx:478-487 | the intensity is set and the preferences are rebuilt |
| FormPage.ProfileForm.ToggleEquipment | dogfit-app/app/form/page.tsx:500-509 | the item flips and the dog's equipment list is rebuilt from the new map |
| FormPage.ProfileForm.BeginSave | dogfit-app/app/form/page.tsx:220-224 | a save starts only when none is in flight and none has succeeded |
| FormPage.ProfileForm.FinishSave | dogfit-app/app/form/page.tsx:241-269 | the save is no longer in flight; a success marks the profile saved |
| FormPage.SaveOnce | dogfit-app/app/form/page.tsx:220-269 | after a successful save no further save starts |
| FormPage.SaveWhileSaving | dogfit-app/app/form/page.tsx:220-224 | a save in flight blocks a second one |
| FormPage.NextThenBack | dogfit-app/app/form/page.tsx:305-310 | below step 5, next then back returns to the same step; a blocked next only happens at step 1 |
| NavigationBar.IsActiveExamples | dogfit-app/components/NavigationBar.tsx:18-31 | "/playground" highlights "/play"; "/result" and "/result/abc" highlight "/result" but "/results" does not; other items need an exact match |
| NavigationBar.EachItemActiveOnItsPath | dogfit-app/components/NavigationBar.tsx:7-31 | every item is highlighted on its own path |
| NavigationBar.AtMostOneActive | dogfit-app/components/NavigationBar.tsx:7-31 | no path highlights two items |
| NavigationBar.Render | dogfit-app/components/NavigationBar.tsx:33-58 | nothing is rendered exactly when logged out; otherwise every item appears in order with its highlight |
| BreedSelector.Chosen | dogfit-app/components/ui/Breed-selector.tsx:41-48 | choosing the current breed clears it; a listed, different breed is set; an unlisted value clears |
| BreedSelector.ChooseTwiceClears | dogfit-app/components/ui/Breed-selector.tsx:41-48 | choosing the same breed twice selects and then clears it |
| BreedSelector.DisplayValue | dogfit-app/components/ui/Breed-selector.tsx:52 | the placeholder for an empty value, otherwise the matching breed, or nothing when it is not listed |
| BreedSelector.BreedCombobox.Select | dogfit-app/components/ui/Breed-selector.tsx:41-50 | the value becomes the chosen value and the popover is closed |
| BreedSelector.BreedCombobox.SetOpen | dogfit-app/components/ui/Breed-selector.tsx:55 | the popover's open flag is set |
| BreedSelector.SelectThenDisplay | dogfit-app/components/ui/Breed-selector.tsx:41-52 | after a choice the trigger shows the placeholder or the chosen breed |

## Findings

| source | as written | input that shows it | evidently intended | confidence | as-written member | corrected member |
|---|---|---|---|---|---|---|
| dogfit-app/app/api/exercises/route.ts:162 | the health-issue line tests `healthValues`, which is always an object (`\|\| {}`) and so always truthy; the '없음' branch is never taken | health values `{"knee": 0}`: the line is empty | '없음' when no value is positive, like the activity and equipment lines | not executed | ExercisesRoute.HealthIssuesAsWrittenEmpty | ExercisesRoute.HealthIssuesTextCases |

`ExercisesRoute.PromptFieldsOf` models the prompt values as written. `ExercisesRoute.IntendedPromptFieldsOf` uses the corrected text.

## Left out

- Session playback, warm-up and cool-down assembly, and step timers: none of the code modelled has them. `warmupSteps` and `cooldownSteps` are carried on `Exercise` but nothing reads them.
- Supabase reads and writes, and the OpenAI calls. Their answers are parameters: `ExercisesRoute.Lookup`, `ExercisesRoute.AiReply`, the rows given to `HistoryPage.HistoryView.Load`, and `FormPage.ProfileForm.FinishSave`'s flag. The profile load effect and `saveFullProfile`'s upsert on the form page are not modelled. The insert-or-update choice is not modelled either.
- The prompt text. Only the values substituted into it are modelled (`ExercisesRoute.PromptFieldsOf`).
- The error message of an exception caught by the route's outer handler. Only the fixed message for empty model content is kept.
- The today, week and month date filters and the +9 h `formatDate`. They depend on the clock and time zone. The date filter is a predicate fixed when `HistoryPage.HistoryView` is created.
- IEEE floating point. Age and weight are exact rationals, so the steppers are exact. The years-to-months conversions, `formatAgeDisplay` and `parseFloat` in `handleInputChange` are not modelled.
- `ResultPage.WithDefaultDuration`: in a list whose first step is plain text, a later record step gets its own text and 60 seconds. The code would nest the whole record inside a new `step` field.
- `ResultPage.ResultView.DeleteCurrent`: requires the index to point at a card. On an empty list the code reads an undefined card and throws.
- `Utils.LocalStore.ReadInt`: a stored JSON value that is not an integer (a fraction, a string, `null`) is read as the default. In JavaScript `addStamp` would add one to that value or append "1" to it.
- `ExercisesRoute.ProfileRow`: the age is a whole number of months and health values are integers. Other JSON types in those columns are not modelled.
- Integer-like object keys, which `Object.keys` lists first in ascending order, are not modelled: `Records` keeps every key in insertion order, which is right for the word keys the app uses.
- JSON objects hold distinct keys. `JSON.parse` keeping the last of duplicate keys is not modelled.
- `dogBreedData` is a parameter of `BreedSelector.BreedCombobox`. The combobox's search and case handling are not modelled.
- Confetti, animation, dialogs' rendering, toasts, routing and authentication are not modelled: they hold no rule beyond a comparison.
- The health and performance sliders (`handleSliderChange`, `handlePerformanceSliderChange`) and the profile picker (`handleProfileSelect`) on the form page: they only store a value under a key.
- The unused `availableImages` set on the result page, and the constant tables under `Data/`.
