# Bird builder: session state machine

A Dafny model of the bird-builder activity: a single-page AR game in which a
participant feeds a bird and is assigned one of its five parts. The participant
then scans the QR clue card whose token names that part. Once all five cards are
collected, the participant answers a five-step quiz, one step per part in the
fixed part order. A correct answer assembles the step's part onto the bird. A
wrong answer forfeits the round. After the fifth correct answer the round is
complete and starts afresh.

The model has six modules:

- `Wrappers` (`wrappers.dfy`): the `Option` type used for `needPart` and for
  hint results.
- `BirdData` (`bird_data.dfy`): the static data of `data.js`, with lemmas about it:
  - the part order and the part labels;
  - the four-option pool of each part;
  - the name of each species, and the token, clue and correct option of each of
    its parts;
  - the three hint templates.
- `JsText` (`js_text.dfy`): JavaScript's `String.prototype.trim`, which the scan
  matcher applies to every decoded payload. It strips the WhiteSpace and
  LineTerminator code points of ECMAScript section 22.1.3.32.
- `BirdSession` (`session.dfy`): the `state` record of `app.js` as a class
  `Session`, with one method per handler.
  - `Valid()` is the invariant every handler keeps:
    - `needPart` is not in `collected`;
    - `0 <= quizStepIndex <= 4` and `0 <= hintsLeft <= 2`;
    - `assembled` is a prefix of the part order;
    - a showing dialog implies its preconditions.
  - Also here are the pure helpers `pickNextNeedPart`, `allCollected` and
    `partLabel`, and the hint-template choice.
- `BirdScenario` (`scenario.dfy`): client walk-throughs proved from the handler
  contracts alone:
  - feeds with arbitrary draws, each card scanned, assign exactly the parts of
    `FeedSequence` for those draws;
  - five feeds with draw 0.0 collect the parts in part order;
  - a further feed assigns nothing;
  - a rescan inside the throttle window is dropped;
  - the quiz opens, and the hint budget runs out after two hints;
  - a wrong answer forfeits the round;
  - five correct answers complete it.
- `QuizTimer` (`quiz_timer.dfy`): the quiz round over time, with the 700 ms
  reset after a wrong answer kept as a timer that fires later. It holds the
  finding below.

Environment inputs become parameters:

- `Date.now()` is `now: int`.
- `Math.random()` is `rand: real` with `0.0 <= rand < 1.0`. The picked index is
  `Floor(rand * n)`, which is `Math.floor(Math.random() * n)` up to
  floating-point rounding of the product.
- The result of `startCamera()` is `cameraReady: bool`.
- The species selector's value is a `Species` value.

`collected` and `assembled` are sets of `Part`, a five-value datatype, so
`collected ⊆ PART_ORDER` holds by construction.

The quiz and assembly dialogs are modelled as two flags, `quizShown` and
`assembleShown`:

- `onAnswer` and the hint button can only be clicked on the quiz dialog.
- `continueAfterAssemble` can only be clicked on the assembly dialog.
- The page controls lie beneath these full-screen dialogs; a click outside the
  panel closes a dialog (app.js:622-630).
  - The page controls are feed, scan, quiz, reset and the species selector.
  - So `ResetBird`, `SelectBird` and `OpenQuiz` require the dialogs that cover
    them to be closed.

Behaviour of the code worth noting:

- `handleQr` records `lastQrAt` before it checks for an empty payload.
  - So an empty decode also starts a throttle window.
- `handleQr` itself does not look at `isScanning`.
  - Decodes reach it only from the scan loop, which runs while scanning.
  - `HandleQr` therefore has no such precondition.
- `onAnswer` has no double-submit guard. Only the closing of the quiz dialog
  prevents a second submission.
- After the assembly dialog is closed with its close button, the quiz button
  reopens the same step.
  - Answering that step again re-adds a part that is already assembled.
  - So `assembled` is `PART_ORDER[..quizStepIndex]` or
    `PART_ORDER[..quizStepIndex + 1]`, not strictly one more per answer.
- The delayed reset after a wrong answer is a plain `setTimeout`. Nothing cancels
  it (app.js:355-357), and a fast user can act before it fires (see Findings).

## Model

| member | source | states |
|---|---|---|
| BirdData.StepOf | data.js:4 | every part has a quiz step, its position in the part order |
| BirdData.PartOrderIsPermutationOfParts | data.js:2-4 | the part order has exactly 5 entries, pairwise distinct, containing every part, legs first and head last |
| BirdData.PartLabel | app.js:87 | every part has a non-empty entry in `PART_LABEL`, and the label shown is that entry, never the key fallback |
| BirdData.OptionPoolHasFour | data.js:14-46 | every part has an option pool of exactly four options |
| BirdData.CorrectIndexInPool | data.js:49-110 | every species' correct index for every part lies in 0..3 and indexes that part's pool |
| BirdData.TokenShape | data.js:55-107 | every token is the species key, an underscore and the part key |
| BirdData.TokensDistinct | data.js:55-107 | two equal tokens belong to the same species and part, so a payload matches at most one card |
| BirdData.HintTemplatesMentionClue | data.js:112-117 | there are three templates; each output contains the clue, and none depends on the bird name |
| JsText.Trim | app.js:209 | the result has no white space at either end, and is what remains after stripping white space from the front and then the back |
| JsText.TrimEmptyIff | app.js:209-210 | a payload trims to "" exactly when it consists of white space only |
| JsText.TrimPadded | app.js:209 | white space around a non-empty unpadded string is exactly what trim removes |
| JsText.TrimIdempotent | app.js:209 | trimming twice is trimming once |
| BirdSession.AllCollected | app.js:107 | `collected.size === PART_ORDER.length` holds exactly when every part is collected |
| BirdSession.FilterOut | app.js:149 | the filter keeps exactly the elements not in the excluded set, and never lengthens the list |
| BirdSession.Remaining | app.js:149 | the remaining list holds exactly the uncollected parts, each once, so its length is 5 minus the number collected; it is empty exactly when all are collected |
| BirdSession.RemainingInOrder | app.js:149 | with the first k parts collected, the remaining list is the rest of the part order, in order |
| BirdSession.RandomIndex | app.js:152 | `Math.floor(rand * n)` for rand in [0, 1) is an index below n |
| BirdSession.PickNextNeedPart | app.js:148-153 | the pick is None exactly when all parts are collected, and otherwise an uncollected part |
| BirdSession.PickCanChooseAny | app.js:148-153 | every uncollected part is the pick of some draw |
| BirdSession.RandomIndexIff | app.js:152 | `Math.floor(rand * n)` is k exactly when k/n <= rand < (k+1)/n, so each index owns an interval of draws of width 1/n |
| BirdSession.PickIff | app.js:148-153 | with n parts remaining, the k-th of them is picked exactly for draws in [k/n, (k+1)/n): every uncollected part has the same chance |
| BirdSession.FeedSequence | app.js:563-592 | the parts repeated feed-and-scan rounds assign for a sequence of draws: none of them was collected before, and none is assigned twice |
| BirdSession.FeedSequenceCompletes | app.js:563-592 | as many feed-and-scans as parts remaining leave every part collected or assigned |
| BirdSession.JsRemainder | app.js:391 | JavaScript's truncating `%`: for a non-negative dividend it is the usual remainder, and for a negative one it lies in (-d, 0] |
| BirdSession.HintTemplateIndex | app.js:391 | the template index is a valid index; it is 0 for the first hint of a round and 1 for the second |
| BirdSession.HintText | app.js:386-393 | the hint for the current step, whichever template is chosen, quotes the clue of that step's part |
| BirdSession.WrongCardTextGuides | app.js:242 | the wrong-card text contains the bird name, the part label and the clue it is built from |
| BirdSession.WrongCardMessage | app.js:239-242 | the wrong-card guidance names the target bird and part and quotes the target clue; it takes only the target, so it cannot reveal the scanned card |
| BirdSession.TokenMatchesPaddedPayload | app.js:209-221 | the exact token matches, and so does the token padded with white space on either side |
| BirdSession.Session.constructor | app.js:57-75 | the initial state: a fresh round for the selected species, with no decode yet |
| BirdSession.Session.ResetBird | app.js:91-105 | `resetBird` gives the fresh-round state: 2 hints, no pending part, nothing collected or assembled, step 0, not scanning; species and throttle time are kept |
| BirdSession.Session.SelectBird | app.js:555-559 | a species change sets the species and then resets the round |
| BirdSession.Session.OpenScan | app.js:155-168 | scanning starts only when the camera is ready; otherwise nothing changes |
| BirdSession.Session.CloseScan | app.js:170-176 | scanning stops |
| BirdSession.Session.Feed | app.js:563-592 | no camera or a full collection changes nothing; a pending part is kept and its scan reopened; otherwise a fresh uncollected part is assigned by the draw, and scanning starts |
| BirdSession.Session.HandleQr | app.js:204-243 | within 1200 ms nothing changes; otherwise `lastQrAt := now` first; then blank, no target, match and mismatch happen exactly under their conditions; a match adds the pending part to `collected` (one more part) and clears it; every other outcome leaves `collected` and `needPart` unchanged; a mismatch reports the pending part as the target |
| BirdSession.Session.OpenQuiz | app.js:270-279 | the quiz opens exactly when all five parts are collected; no state field changes |
| BirdSession.Session.CloseQuiz | app.js:281-285 | the quiz dialog closes |
| BirdSession.Session.CloseAssemble | app.js:301-304 | the assembly dialog closes |
| BirdSession.Session.OnAnswer | app.js:346-367 | the correct index adds exactly the step's part to `assembled` (now the first step+1 parts), shows the assembly dialog and changes nothing else; any other index closes the quiz and resets the round |
| BirdSession.Session.ContinueAfterAssemble | app.js:369-380 | at step 4 the round is complete and reset; below it the step advances by exactly one and the quiz reopens, all else unchanged |
| BirdSession.Session.ShowAiHint | app.js:383-400 | with no hints left nothing changes; otherwise one hint is spent and the hint text for the current step is returned |
| BirdScenario.FeedAndScanDraw | app.js:563-592 | a feed with any draw assigns the part `pickNextNeedPart` picks for it, and scanning its card collects exactly that part |
| BirdScenario.CollectByDraws | app.js:563-592 | feeds with any sequence of draws, each card scanned a throttle window apart, assign exactly `FeedSequence` of the draws, and `collected` becomes the old collection plus those parts |
| BirdScenario.CollectInPartOrder | app.js:563-592 | five feeds with draw 0.0, each card scanned a throttle window apart, collect the parts in part order and complete the collection |
| BirdScenario.SparrowFirstSteps | app.js:346-400 | on the sparrow, option 1 assembles the legs, two hints exhaust the budget, and option 3 at the body step forfeits the round |
| BirdScenario.FullRound | app.js:346-380 | five correct answers from step 0 complete the round and leave a fresh round |
| QuizTimer.Reset | app.js:91-105 | `resetBird` empties `collected` and `assembled` and returns to step 0, but closes neither dialog and cancels no scheduled reset |
| QuizTimer.Next | app.js:346-380 | one input as the code handles it: the step stays in 0..4, a wrong answer schedules one more reset and a firing consumes one, and `assembled` is kept, cleared, or grows by exactly the step's part on a right answer |
| QuizTimer.NextIntendedConsistent | app.js:346-380 | when a wrong answer resets the round at once, every input keeps the step range, the prefix shape of `assembled` and the dialog conditions of the session invariant |
| QuizTimer.TimelyResetIsIntended | app.js:351-357 | a reset that fires before the next input gives exactly the intended state |
| QuizTimer.StaleResetBreaksPrefix | app.js:351-357 | the input sequence of the finding yields an assembly dialog over an empty collection, and then step 1 with only the body assembled, breaking the session invariant |

## Left out

- Camera start and stop, and permissions (`startCamera`, `stopCamera`): browser media I/O. Their outcome is the `cameraReady` parameter.
- Frame capture and QR decoding (`scanLoop`, jsQR, the canvas): an external decoder working on image data. Only the decoded string handed to `handleQr` is modelled.
- `handleQr` turns a `null` or `undefined` payload into "" (`String(payload || "")`). The model takes a string; such payloads behave as "".
- SVG generation (`birdSvg`, `iconSvg`, `renderBirdStage`), DOM rendering (`render`, `renderQuiz`, `renderScanTexts`), toasts and their timers: presentation only.
  - Of the toasts, only the wrong-card guidance text is modelled, as `WrongCardMessage`.
  - Of the hints, the hint text is modelled, as `HintText`.
- The species `theme` colours and `summary` texts in data.js: they feed only the SVG and the final assembly text.
- The `title`, `sub` and `icon` of options are carried as data, but no property is stated about them.
- Timers (`setTimeout`):
  - In `BirdSession`, the 700 ms reset after a wrong answer takes effect at the event. `QuizTimer` keeps it as a timer, for the finding below.
  - The 520 ms scan opening after a feed takes effect at the event.
  - The 450 ms `closeScan` after a match is the explicit follow-up step `CloseScan`.
- `navigator.vibrate` and `requestAnimationFrame`: host APIs with no effect on the state.
- The Escape key handler: it calls `closeScan`, `closeQuiz` and `closeAssemble`, each modelled.
- `lastWrongAt`: used only to hide a stale scan toast.
- The backdrop click handlers: they call the modelled close methods.
- BirdSession.JsRemainder: for a negative dividend, states only the range (-d, 0], not `-((-n) % d)` itself, because the nonlinear relation is too costly for the solver. The only caller, `HintTemplateIndex`, falls back to template 0 in that case, as `|| AI_HINT_TEMPLATES[0]` does.
- BirdSession.Session.ResetBird: requires that no dialog covers the reset button or the species selector. A reset from a state no click can reach is not modelled.
- BirdSession.Session.SelectBird: requires that no dialog covers the species selector. A species change from a state no click can reach is not modelled.
- BirdSession.RandomIndex: computes `Floor(rand * n)` on exact reals, while JavaScript first rounds the product to a double. So at the edges of the intervals of `RandomIndexIff` and `PickIff` the two can differ. For example, for the double nearest 1/3 (6004799503160661 / 2^54) and n = 3, the product rounds to 1.0 and JavaScript picks index 1 where the model picks 0. The index is below n in both.
- BirdSession.Session.OpenQuiz: requires the assembly dialog to be closed. The quiz button lies beneath it; `continueAfterAssemble` closes that dialog first.

## Findings

| source | as written | input that shows it | evidently intended | confidence | as-written member | corrected member |
|---|---|---|---|---|---|---|
| app.js:351-357 | a wrong answer schedules `resetBird` 700 ms later and nothing cancels it; without a re-render the quiz button stays enabled meanwhile | collect the five cards, open the quiz, answer step 0 wrongly; within 700 ms reopen the quiz and answer step 0 right; the reset fires under the assembly dialog; Continue; collect the five cards again, open the quiz and answer step 1 right: the bird holds the body without the legs | the round is reset before any further input, for instance by cancelling the timer or disabling the quiz button at the wrong answer | not executed | QuizTimer.StaleResetBreaksPrefix | BirdSession.Session.OnAnswer |

`BirdSession.Session.OnAnswer` resets the round at the wrong answer and keeps
`Valid()`. `QuizTimer.NextIntendedConsistent` proves the same of the reduced
round for every input.
