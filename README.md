# Mockup generator core, modelled in Dafny

The system is a browser tool that turns one photo of a garment into a batch of
advertising mockups made by a remote image model. This project models its
logic:

- **Pre-processing** (`Normalizer`). An uploaded image whose longer side is
  over 1024 pixels is scaled down. The longer side becomes 1024 and the other
  side is `Math.round(other / longer * 1024)`. This is computed exactly in
  integers, as half-up rounding `(2 * other * 1024 + longer) / (2 * longer)`.
- **Prompt** (`Prompt`). The product-category and background lookups fall back
  to generic phrases. The character seed is one sentence describing a model
  person. The instruction text of one iteration is built as the template's
  lines joined with newlines, followed by the optional product-details and
  recolor clauses and the closing directive.
- **Batch loop** (`Mockups`). For each requested image:
  - a 4000 ms pacing wait before every image but the first;
  - up to three attempts, with a 5000 ms and then a 10000 ms backoff, only
    after a quota or server error;
  - a breaker that stops the batch once two quota failures have accumulated
    since the last recorded image;
  - one progress report per iteration.

  At the end the batch returns its images, or `RATE_LIMIT_EXCEEDED` when there
  are none and a quota failure is outstanding, or else the generic "no image"
  error. The remote service is a scripted function `respond(iteration, attempt)`.
  Waits, calls and progress reports are recorded in order as a trace of events.
  `RunIterations`, `AttemptLoop` and `RecordCandidate` are the loops as written;
  the body of the retry loop is the method `TryAttempt`.
  Each is proved equal to a recursive specification (`RunFrom`, `Attempts`,
  `ImagesOf`), and the properties are proved about that specification.
- **Generate button** (`AppState`). The button does nothing during a cooldown
  and asks for an upload when no product image is set. Otherwise it resets the
  screen and runs the batch. A failure is classified as an overload, which
  starts a 60-second cooldown, or shown as it is. The cooldown counts down
  once a second.
- **Controls** (`Controls`). The image-count field is clamped to 1..20. A
  single option field can be replaced. Switching the model picker off drops
  the uploaded reference model.

Randomness is a parameter. `Picks` holds the two `Math.random()` draws of one
character synthesis, and a batch takes `draws: nat -> Picks`. `draws(0)` is
used for the batch seed and `draws(i + 1)` for the prompt of iteration `i`.

Two behaviours of the code worth noting:

- The breaker counts quota-failed **attempts** (services/aiGenerator.ts:299),
  not failed images. Two quota failures within one image's retries stop the
  batch after that image, unless a later attempt of the same image records an
  image, which resets the counter (services/aiGenerator.ts:279).
- Progress is reported once per **executed** iteration. After an early stop
  there are fewer reports than requested images. For batches of at most 100
  images, which the image-count clamp guarantees, the last report is then
  below 100.

Quirks of the code that the model keeps as written:

- A fixed ethnicity is replaced by "Asian" whenever the gender is `random`.
- The age comes only from the age table.
- Attempts whose first candidate has no inline image are retried at once,
  without backoff.
- An empty candidate list ends the image without resetting the breaker.

## Model

| member | source | states |
|---|---|---|
| Normalizer.RoundRatio | services/aiGenerator.ts:23 | `Math.round(n / d)` is the integer r with r - 1/2 <= n/d < r + 1/2 (halves up) |
| Normalizer.RoundRatioUnique | services/aiGenerator.ts:23 | any integer satisfying that bracket is the rounding, so the integer formula is JavaScript's rounding |
| Normalizer.RoundRatioMonotone | services/aiGenerator.ts:316 | rounding is monotone in the numerator |
| Normalizer.RoundRatioStep | services/aiGenerator.ts:316 | a numerator larger by at least the denominator rounds at least one higher |
| Normalizer.ScaledSide | services/aiGenerator.ts:23-26 | the scaled shorter side never exceeds 1024 and is the half-up rounding of side * 1024 / longer |
| Normalizer.FitWithin | services/aiGenerator.ts:17-29 | sizes within 1024 are unchanged; otherwise the longer side (width only when strictly wider) is 1024 and the other is scaled, both at most 1024 |
| Normalizer.ResizeDimensions | services/aiGenerator.ts:17-29 | the in-place reassignment of width and height computes `FitWithin`, so the result is within the canvas limit |
| Normalizer.Normalize | services/aiGenerator.ts:8-55 | pre-processing succeeds exactly for decodable images, yields a JPEG of size `FitWithin` of the decoded size (so within the limit and in proportion), and rejects with "Canvas context failed" or with a message-less decode error |
| Normalizer.ProcessImage | services/aiGenerator.ts:8-55 | the method computes `Normalize` |
| Prompt.LookupOr | services/aiGenerator.ts:74 | a key missing from the table gives the fallback; a key with a non-empty entry gives that entry |
| Prompt.BackgroundDescription | services/aiGenerator.ts:61-75 | the background lookup with its studio fallback (definition; `BackgroundTableCovers` states its coverage) |
| Prompt.CategoryContext | services/aiGenerator.ts:77-87 | the category lookup with its generic fallback (definition; `CategoryTableCovers` states its coverage) |
| Prompt.AgePhrase | services/aiGenerator.ts:100-107 | the age lookup with "adult" as fallback (definition; `AgePhraseAdultOnlyForAny` states it) |
| Prompt.BackgroundTableCovers | services/aiGenerator.ts:61-75 | every declared background has its own location phrase, never the fallback |
| Prompt.CategoryTableCovers | services/aiGenerator.ts:77-87 | every declared category has its own genre phrase, never the fallback |
| Prompt.AgePhraseAdultOnlyForAny | services/aiGenerator.ts:100-107 | the age phrase is "adult" exactly for the `random` age band |
| Prompt.Pick | services/aiGenerator.ts:98-99 | a draw always yields one of the candidates, and draw k below the count yields the k-th |
| Prompt.SeedGender | services/aiGenerator.ts:93 | a random gender is "male" or "female"; a fixed one is used as is |
| Prompt.SeedEthnicity | services/aiGenerator.ts:94 | a random ethnicity is one of the four listed; a fixed one is used only with a fixed gender, else "Asian" |
| Prompt.CharacterSeed | services/aiGenerator.ts:90-110 | empty exactly for display modes without a person; otherwise "The model is a {age} {ethnicity} {gender}." |
| Prompt.CameraAngle | services/aiGenerator.ts:117-118 | the angle of iteration i is the (i mod 3)-th of the three framings |
| Prompt.CameraAngleCycles | services/aiGenerator.ts:117-118 | the angle repeats every three iterations, differs between neighbours, and starts at "front view" |
| Prompt.CharacterDescription | services/aiGenerator.ts:130 | the batch seed when consistency is on and the seed is non-empty, else a freshly drawn seed (definition; `SeededSubject` states its effect) |
| Prompt.SubjectDetails | services/aiGenerator.ts:120-164 | the subject sentence of each display mode (definition; `SeededSubject`, `ReferenceModelSubject` and `ProductOnlySubject` state it per mode) |
| Prompt.ActionVibe | services/aiGenerator.ts:147-156 | the marketing context when given, else the background's default action, and nothing outside model mode (definition) |
| Prompt.DefaultAction | services/aiGenerator.ts:152-155 | the substring cascade over the background key (definition; `DefaultActionForBackgrounds` states its outcome) |
| Prompt.DefaultActionForBackgrounds | services/aiGenerator.ts:152-155 | the substring cascade gives the office action for both office backgrounds, the cafe and medical actions for theirs, the posing action otherwise |
| Prompt.Template | services/aiGenerator.ts:167-188 | the template literal has 21 lines |
| Prompt.TemplateLineMarkers | services/aiGenerator.ts:167-188 | within the template only line 6 can start "Image 2:" and only line 11 "3. FACE LOCK:", both only with a custom model; no line starts the edit or details markers |
| Prompt.TailLineMarkers | services/aiGenerator.ts:190-198 | the appended details line, the edit line and the closing directive carry only their own markers |
| Prompt.PromptLineMarkers | services/aiGenerator.ts:167-198 | over the whole prompt, each marker can only start its own line |
| Prompt.PromptLines | services/aiGenerator.ts:112-201 | `generatePrompt` as its lines: the 21 template lines, then the optional details and edit clauses and the closing directive (definition; the marker lemmas state its shape) |
| Prompt.PromptText | services/aiGenerator.ts:112-201 | `generatePrompt`: the lines joined with newlines (definition; the clause, closing, period and seed lemmas state its content) |
| Prompt.ReferenceModelClauses | services/aiGenerator.ts:173-178 | among the prompt's lines before joining (the template lines and the appended clauses), one starts "Image 2:" and one starts the FACE LOCK rule if and only if a custom model is used |
| Prompt.RecolorClause | services/aiGenerator.ts:194-196 | among the prompt's lines before joining, one starts "EDITING TASK:" if and only if the variation is recolor; then that line is the edit clause and the prompt text contains the colour verbatim |
| Prompt.ProductDetailsClause | services/aiGenerator.ts:190-192 | among the prompt's lines before joining, one starts "PRODUCT DETAILS:" if and only if a description is given; then that line is the details clause and the prompt text contains the description verbatim |
| Prompt.ClosingDirective | services/aiGenerator.ts:198 | every prompt ends with a newline and the commercial-grade output directive |
| Prompt.PromptIterationPeriod | services/aiGenerator.ts:117-185 | the camera-angle line of iteration i names angle i mod 3, and the prompt of i equals that of i + 3 |
| Prompt.SeededSubject | services/aiGenerator.ts:130-136 | with consistency on and a seed, the subject starts with the seed and does not depend on the iteration's draws |
| Prompt.SeedReuse | services/aiGenerator.ts:130-183 | with consistency on and a seed, the subject line contains the seed and the whole prompt does not depend on the iteration's draws |
| Prompt.ConsistentPromptNamesSeed | services/aiGenerator.ts:237-244 | with consistency on and a seed, the prompt text contains the seed verbatim |
| Prompt.ConsistentPromptRepeats | services/aiGenerator.ts:117-130 | with consistency on and a seed, the prompts of iterations i and i + 3 are one text, whatever the draws |
| Prompt.ReferenceModelSubject | services/aiGenerator.ts:124-145 | with a custom model the subject is the identity lock plus the shot clause, independent of seed and draws |
| Prompt.ProductOnlySubject | services/aiGenerator.ts:158-164 | without a person the subject is the mannequin, hanger or flat-lay sentence, the action line is the bare label, and seed, custom model and draws do not change the subject |
| Mockups.Backoff | services/aiGenerator.ts:304 | the backoff after attempt 1 is 5000 ms and after attempt 2 is 10000 ms |
| Mockups.IsQuotaError | services/aiGenerator.ts:288-291 | an error is a quota error when its message contains "429" or "quota", its status is RESOURCE_EXHAUSTED or its code is 429 (definition) |
| Mockups.IsServerError | services/aiGenerator.ts:294-296 | an error is a server error when its code is 500 or its status UNKNOWN or INTERNAL (definition) |
| Mockups.UsesCustomModel | services/aiGenerator.ts:222 | a reference model is used exactly when one is given in model display mode (definition; `GenerateTrace` states its effect on the requests) |
| Mockups.ImagesOf | services/aiGenerator.ts:270-281 | one candidate yields at most one image per part; `ImagesOfParts` states which |
| Mockups.InlineParts | services/aiGenerator.ts:271 | the parts the loop pushes an image for: only inline parts of the candidate |
| Mockups.ImagesOfParts | services/aiGenerator.ts:270-281 | every inline part of the first candidate becomes exactly one image, in order, with that iteration and the URL `data:{mime};base64,{data}` of the part, and no other part does |
| Mockups.InlineFound | services/aiGenerator.ts:270-281 | a candidate yields images if and only if one of its parts is inline data |
| Mockups.ImagesOfCarried | services/aiGenerator.ts:272-277 | every image from a candidate belongs to that iteration and has the URL `data:{mime};base64,{data}` of one of its inline parts |
| Mockups.RecordCandidate | services/aiGenerator.ts:270-281 | the loop over the parts appends exactly `ImagesOf`, sets success exactly when an inline part exists, and only then resets the breaker |
| Mockups.Record | services/aiGenerator.ts:270-281 | recording a candidate appends its images and resets the breaker only when there is one (definition; `RecordCandidate` computes it) |
| Mockups.Attempts | services/aiGenerator.ts:251-313 | the retry loop as a recursive specification (definition; `AttemptsSummary` states what it does) |
| Mockups.Iteration | services/aiGenerator.ts:242-317 | one iteration: pacing wait, retry loop, progress report (definition; `IterationProgress` and `IterationFacts` state it) |
| Mockups.RunFrom | services/aiGenerator.ts:242-322 | the batch loop with the breaker check, as a recursive specification (definition; `RunReports`, `RunKeeps` and `BreakerHalts` state it) |
| Mockups.Uninterrupted | services/aiGenerator.ts:242-317 | the state after the first n iterations with the breaker ignored, the reference `BreakerHalts` compares the loop against (definition) |
| Mockups.AttemptLoop | services/aiGenerator.ts:251-313 | the retry loop as written (attempt counter, `success` flag, `break`) computes the retry specification `Attempts` |
| Mockups.TryAttempt | services/aiGenerator.ts:256-312 | one pass of the loop body: an image or an empty candidate list ends the loop with the state `Attempts` gives; a `break` does too; a retry with or without backoff hands on exactly the state from which `Attempts` continues |
| Mockups.RunIterations | services/aiGenerator.ts:239-322 | the batch loop as written computes the specification `RunFrom` from an empty state |
| Mockups.Finish | services/aiGenerator.ts:324-331 | with images the batch returns exactly them; without, it fails with RATE_LIMIT_EXCEEDED if and only if the breaker counter is positive, else with the generic message |
| Mockups.GenerateMockups | services/aiGenerator.ts:203-332 | the whole call (pre-processing, seed, loop, verdict) computes `Generate` |
| Mockups.Generate | services/aiGenerator.ts:203-332 | a whole call as a specification: pre-processing, seed, loop, verdict (definition; the `Generate*` lemmas state it) |
| Mockups.BatchSeed | services/aiGenerator.ts:237 | a seed is drawn exactly for a consistent model batch without a custom model |
| Mockups.LastAttempt | services/aiGenerator.ts:255-313 | the last attempt of an image is the first that ends it (an image, no candidates, or a non-retryable error) or the third |
| Mockups.AttemptsSummary | services/aiGenerator.ts:251-313 | the retry loop calls once per attempt up to the last and waits only after a quota or server error with attempts left. It keeps only the last attempt's images, and leaves the breaker at 0 after an image or raised once per quota-failed attempt |
| Mockups.AttemptTraceSilent | services/aiGenerator.ts:251-313 | the retry loop reports no progress |
| Mockups.AttemptTraceOk | services/aiGenerator.ts:255-307 | every call of an image is numbered 1 to 3 and carries the images then that iteration's prompt; every backoff is 5000 or 10000 ms |
| Mockups.IterationProgress | services/aiGenerator.ts:315-317 | each iteration adds exactly one report, `round((i + 1) * 100 / total)` |
| Mockups.IterationFacts | services/aiGenerator.ts:242-317 | each iteration keeps the events well formed, keeps the earlier images and adds only images that come from one of its attempts |
| Mockups.RunReports | services/aiGenerator.ts:242-322 | the loop reports consecutive percentages, one per iteration run, and stops before the last iteration only when the breaker counter has reached 2 (the converse is `BreakerHalts`) |
| Mockups.BreakerStops | services/aiGenerator.ts:319-321 | from any state, an iteration that leaves the counter at 2 or more is the last one the loop runs |
| Mockups.RunStopsAt | services/aiGenerator.ts:242-322 | from the state after i iterations, the loop runs exactly the iterations up to the one the breaker trips on |
| Mockups.UninterruptedStep | services/aiGenerator.ts:315-317 | the n-th iteration adds the report `round(n * 100 / total)` |
| Mockups.UninterruptedReports | services/aiGenerator.ts:315-317 | the first n iterations report exactly the first n percentages |
| Mockups.BreakerHalts | services/aiGenerator.ts:242-322 | the loop runs the iterations up to and including the first that leaves the counter at 2 or more, or all of them when none does, and reports once for each |
| Mockups.TripExists | services/aiGenerator.ts:242-322 | every batch with iterations has such a last iteration |
| Mockups.GenerateHalts | services/aiGenerator.ts:203-332 | a whole call's trace and verdict are those of the iterations up to the one the breaker trips on, with one report each |
| Mockups.RunKeeps | services/aiGenerator.ts:242-322 | over the loop every event is well formed, earlier images are kept, and every image comes from a response of an iteration below the total |
| Mockups.ProgressListAt | services/aiGenerator.ts:316 | the k-th report is `round((k + 1) * 100 / total)` |
| Mockups.ProgressBounded | services/aiGenerator.ts:316 | every report is between 0 and 100 |
| Mockups.ProgressMonotone | services/aiGenerator.ts:316 | the reports never decrease |
| Mockups.ProgressStrict | services/aiGenerator.ts:316 | with at most 100 images every report is higher than the one before and only the last reaches 100 |
| Mockups.ProgressCompletes | services/aiGenerator.ts:316 | the report of the last iteration is 100 |
| Mockups.BatchRun | services/aiGenerator.ts:239-322 | from the empty state, the loop's reports, trace and images have the properties above; with no iterations nothing happens |
| Mockups.BatchVerdict | services/aiGenerator.ts:242-328 | a batch with iterations reports at least one and at most total percentages. An early stop never yields the generic error, and no iterations yields it |
| Mockups.GenerateReports | services/aiGenerator.ts:203-332 | `BatchVerdict` holds for a whole call whose images pre-process |
| Mockups.GenerateTrace | services/aiGenerator.ts:210-262 | every request of a call carries the product image, then the custom model when used, then its iteration's prompt. Every returned image comes from a response of the batch |
| Mockups.GenerateFailures | services/aiGenerator.ts:34-331 | a call fails only with a decode error, the canvas error (both before any request), RATE_LIMIT_EXCEEDED or the generic message |
| AppState.IsQuotaMessage | App.tsx:120-122 | a failure message reads as a quota error when it is RATE_LIMIT_EXCEEDED or contains "quota" or "429" (definition; `ViewFailure` and `NotQuotaMessage` use it) |
| AppState.NotQuotaMessage | App.tsx:120-122 | the decode, canvas and generic "no image" failures do not read as quota errors |
| AppState.ViewFailure | App.tsx:118-130 | a failure starts the cooldown if and only if it reads as a quota error; then the overload message is shown, else the message itself, or the default when it has none |
| AppState.App.HandleGenerate | App.tsx:95-136 | during a cooldown nothing changes; without an image only the upload error is set; otherwise the results are exactly the batch's images (or none), the error and cooldown follow `ViewFailure`, loading ends and progress is 0 |
| AppState.App.Start | App.tsx:103-106 | starting sets loading, progress 0, no error and no results |
| AppState.App.Settle | App.tsx:115-135 | success stores the images; failure sets the classified message and possibly the 60 s cooldown; loading ends and progress returns to 0 |
| AppState.App.Tick | App.tsx:84-89 | a tick lowers a positive cooldown by one and leaves 0 alone, so it never goes negative |
| AppState.CooldownAfter | App.tsx:84-89 | after t ticks a cooldown of c has max(c - t, 0) seconds left |
| AppState.CooldownBlocksFor | App.tsx:84-126 | after an overload the button is refused for exactly the first 60 ticks |
| AppState.FailureMessagesShown | App.tsx:118-130 | of the batch's possible failures only RATE_LIMIT_EXCEEDED starts the cooldown, the decode error gets the default message, and the others are shown verbatim |
| AppState.BatchFailuresShown | App.tsx:109-130 | the same, for whatever failure a call returns |
| Controls.Clamp | components/Controls.tsx:194-200 | the stored count is within 1..20; NaN gives 1; values below 1 give 1, above 20 give 20; values in range are kept |
| Controls.ClampNumImages | components/Controls.tsx:195-198 | the successive reassignments of `val` compute `Clamp` |
| Controls.ClampIdempotent | components/Controls.tsx:194-200 | clamping a stored count again leaves it unchanged |
| Controls.ApplyEdit | components/Controls.tsx:95-97 | the named field takes the new value and every other field is unchanged |
| Controls.EditDetermined | components/Controls.tsx:95-97 | any options that set the named field and keep the others are the result of the edit |
| Controls.EditIdempotent | components/Controls.tsx:95-97 | repeating an edit changes nothing more |
| Controls.ModelPicker.HandleToggleCustomModel | components/Controls.tsx:100-105 | the switch takes the new position; switching off clears the reference image when a setter is given; switching on leaves it as it was |

## Left out

- File reading, image decoding, canvas drawing and JPEG encoding: an image is its decoded size or a failure, and a payload is its size and MIME type (services/aiGenerator.ts:10-15, 31-53).
- The remote client and its request options: a call is `respond(iteration, attempt)`, returning candidates or a thrown error with its message, status and code.
- A candidate whose content has no `parts` list makes the source throw a TypeError inside the try block. The catch treats that as a non-retryable error. The model's candidates always carry a list, so such a response is scripted as a `Failed` outcome with that error.
- Time: waits are recorded as `Wait` events, and the cooldown timer is one tick per call of `Tick`.
- `Math.random()`: given as `Picks` draws. The `Date.now()` part of an image id is dropped, and an image keeps its iteration instead.
- The `ages` list of the character seed is computed and never used (services/aiGenerator.ts:95), so it has no counterpart.
- Floating point: `(i + 1) / total * 100` and `height / width * 1024` are computed exactly and then rounded. The model does not capture a double-precision result that lands on the other side of a half.
- `parseInt`: the clamp takes its result as an optional integer.
- The states between the start of a batch and its end (`isLoading` true, progress updated by the callback) are not kept as fields. `HandleGenerate` returns the shown percentages, and `Start` states the reset.
- Logging, theme and option persistence, rendering, the gallery and the preview canvas.
- Mockups.ImagesOf: its own contract only bounds the number of images; which images, in which order, is stated by the lemma `ImagesOfParts`.
- Mockups.PromptSchedule: the batch loop takes the prompts as a function of the iteration. `PromptSchedule` maps iteration i to `PromptText(o, i, seed, has, draws(i + 1))`. The seed and period properties are proved on `PromptText` (`ConsistentPromptNamesSeed`, `ConsistentPromptRepeats`), not restated over the schedule.
