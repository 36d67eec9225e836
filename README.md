# EyeSpeak gaze selection, in Dafny

EyeSpeak lets a user type by looking at the screen. The screen is split into regions. Looking at one region for a second selects it. In the text-entry pages a selection appends a letter range (`A-F`, `G-M`, `N-T`, `U-Z`), a predicted word or a predicted sentence to the transcript. Letter-range selections also ask a prediction service for new candidates. Before this, calibration pages teach the browser tracker where the user's eyes point. A test page calibrates a small server-side matcher that picks a gaze direction by comparing eye images with stored templates.

This project models that logic and proves properties of it:

- `JsText`: the JavaScript string built-ins the pages rely on: `trim`, `split(" ")`, `join(" ")`, `||` fallbacks, and out-of-range array reads.
- `GazeRegions`: the region names, the `GAZE_REGIONS` label table and the 1000 ms dwell threshold. It also holds the 40%/60% screen bands.
- `Dwell`: the `gazeListener` dwell machine and the reset that follows a commit. Both text pages share them.
- `Predictions`: the cached `wordOptions`/`sentenceOptions` and how a prediction reply updates them. It also builds the request a page sends.
- `SpeakPage`: the speaking page. It covers the classifier with its mode-switch column, the mode cycle, the three-line display rotation and `convertHyphenFormat`, whose loop is a method. It also covers the commit effect. A `Page` class holds the React state that the listener and effects update.
- `TextInputPage`: the text-input page. It covers the clear/delete hot bands, the boolean mode flags and the commit that throws on a hot band. It also covers the nested-conditional display order.
- `PointCalibration`, `CalibratePage`, `SetupPage`: the click-to-calibrate counter the two pages share, run over an 18-point and a 9-point sequence.
- `TestPage`: the six-direction calibration step and progress machine, the reset, and the polling tick.
- `EyeDetector`: the server's template stores and the clamped eye box, using numpy slice semantics. It also covers the per-eye minimum errors, the two-eye combination, the best match and the confidence.

Stateful code becomes a class. Its fields are the component's state or the object's attributes. Each method's `ensures` ties the new state to a pure step function of the old one, and the properties are lemmas about those step functions. Time (`Date.now()`), the viewport size, replies from services, the landmarks the face mesh finds in a frame and the cutting and resizing of an eye region are all parameters. The eye regions themselves are computed from the landmarks as `get_eye_roi` does (`EyeDetector.Observe`).

## Model

| member | source | states |
|---|---|---|
| GazeRegions.Label | meta/src/pages/SpeakPage.jsx:10-15 | exactly the four slots have a `GAZE_REGIONS` entry, and each label is `X-Y` |
| GazeRegions.SlotIndex | meta/src/pages/SpeakPage.jsx:54 | `Object.keys(GAZE_REGIONS).indexOf(region)` is the slot's position, and -1 exactly for a region without an entry |
| GazeRegions.LabelsFollowSlots | meta/src/pages/SpeakPage.jsx:10-15 | slot `i` has label `LABELS[i]` and index `i` |
| GazeRegions.BandsOnViewport | meta/src/pages/SpeakPage.jsx:35-42 | on a viewport, the lower band is `y > 0.6h`, the right column `x > 0.6w`, and the middle column the closed range from 0.4w to 0.6w |
| JsText.TrimStart | meta/src/pages/SpeakPage.jsx:170 | removes exactly the leading whitespace: the result is a suffix, and what was cut is all whitespace |
| JsText.TrimEnd | meta/src/pages/SpeakPage.jsx:170 | removes exactly the trailing whitespace |
| JsText.Trim | meta/src/pages/SpeakPage.jsx:170 | the result has no whitespace at either end, and a trimmed string is left unchanged |
| JsText.TrimRemovesOnlyEnds | meta/src/pages/SpeakPage.jsx:170 | the trimmed string is a contiguous piece of the original |
| JsText.Split | meta/src/pages/SpeakPage.jsx:171 | `split` gives at least one part (`"".split(" ")` is `[""]`), and no part contains the separator |
| JsText.JoinSplit | meta/src/pages/SpeakPage.jsx:84 | joining the parts of a split with the same separator gives back the string |
| JsText.SplitJoin | meta/src/pages/SpeakPage.jsx:84 | splitting a join of separator-free parts gives back the parts |
| JsText.SplitNoSeparator | meta/src/pages/SpeakPage.jsx:171 | a string without the separator splits into itself |
| JsText.SplitPrefix | meta/src/pages/SpeakPage.jsx:171 | a separator-free prefix followed by the separator becomes the first part |
| JsText.JoinSnoc | meta/src/pages/SpeakPage.jsx:172 | joining after `concat` of one more part appends the separator and that part |
| JsText.OrDefault | meta/src/pages/SpeakPage.jsx:53-58 | `v \|\| fallback`: the value when it is a non-empty string, the fallback otherwise |
| JsText.ElementAt | meta/src/pages/SpeakPage.jsx:55-58 | `a[i]` is the element inside the bounds and undefined outside them, -1 included |
| JsText.Join | meta/src/pages/SpeakPage.jsx:84 | `parts.join(sep)`; JoinSplit, SplitJoin and JoinSnoc state its round trips with `split` and its step with `concat` |
| JsText.Units | meta/src/pages/SpeakPage.jsx:198-204 | a character is one UTF-16 code unit below U+10000 and otherwise a high surrogate followed by a low surrogate |
| JsText.CodeUnits | meta/src/pages/SpeakPage.jsx:198-204 | the code units `length`, `charAt` and `charCodeAt` work on: at least one per character, each below 0x10000 |
| JsText.CodeUnitsAppend | meta/src/pages/SpeakPage.jsx:198-204 | the code units of a concatenation are those of its parts in order |
| JsText.CodeUnitsSnoc | meta/src/pages/SpeakPage.jsx:198-204 | one more character adds its code units at the end |
| JsText.ThreeCodeUnits | meta/src/pages/SpeakPage.jsx:198-204 | a three-character text has the code units of its characters in order |
| Dwell.InitialInv | meta/src/pages/SpeakPage.jsx:22-24 | the initial state (centre, no start time, nothing armed) satisfies the dwell invariant |
| Dwell.Started | meta/src/pages/SpeakPage.jsx:136 | the truthiness of `gazeStartTime`, null and 0 both falsy; ArmsExactlyWhenHeld and HeldAfterCommitIsInert state its effect |
| Dwell.Listen | meta/src/pages/SpeakPage.jsx:128-142 | the listener always records the sampled region and keeps the invariant: an armed region is the gazed one, never centre, and centre has no start time |
| Dwell.Consume | meta/src/pages/SpeakPage.jsx:186-187 | after a commit nothing is armed and the start time is null, whatever the state before |
| Dwell.RegionChangeRestarts | meta/src/pages/SpeakPage.jsx:132-135 | a region change disarms and restarts the clock at now, or clears it for centre |
| Dwell.ArmsExactlyWhenHeld | meta/src/pages/SpeakPage.jsx:136-140 | a sample arms exactly when it repeats the gazed non-centre region, the start time is truthy, at least 1000 ms have passed and nothing is armed; what it arms is that region |
| Dwell.HeldAfterCommitIsInert | meta/src/pages/SpeakPage.jsx:136 | once the start time is null, any number of samples in the same region change nothing |
| Dwell.ListenAll | meta/src/pages/SpeakPage.jsx:128-142 | a run of samples keeps the dwell invariant |
| Dwell.Cycle | meta/src/pages/SpeakPage.jsx:159-188 | after a sample and the commit it may trigger, nothing is armed, and a firing leaves the start time null |
| Dwell.FinalLooksAtLast | meta/src/pages/SpeakPage.jsx:132-135 | after a run the gazed region is the last sample's and nothing stays armed |
| Dwell.FiresAppend | meta/src/pages/SpeakPage.jsx:128-188 | the firings of two runs in sequence add up |
| Dwell.NoRefireWhileHeld | meta/src/pages/SpeakPage.jsx:136 | after a commit, holding the same region never fires again |
| Dwell.TimedRegionFiresOnceAtDeadline | meta/src/pages/SpeakPage.jsx:137-139 | holding a freshly entered region fires exactly once if a sample reaches start + 1000 ms, and never otherwise |
| Dwell.HeldRegionFiresOnce | meta/src/pages/SpeakPage.jsx:132-140 | looking into a new region and holding it fires once when the threshold is reached, and not before |
| Dwell.HeldRegionFiresAtMostOnce | meta/src/pages/SpeakPage.jsx:132-140 | however long one region is held, it fires at most once |
| Dwell.ReturningToARegionRearms | meta/src/pages/SpeakPage.jsx:132-135 | region A, then B, then A again, each held past the threshold, fire three times |
| Dwell.HeldTwice | meta/src/pages/SpeakPage.jsx:132-140 | entering a region and sampling it again a threshold later fires once |
| Predictions.ApplyReply | meta/src/pages/SpeakPage.jsx:90-99 | an ok reply replaces both lists, each defaulting to `[]`; a non-ok reply or a failure leaves them untouched |
| Predictions.LastReplyWins | meta/src/pages/SpeakPage.jsx:90-99 | an ok reply's result does not depend on earlier replies, and a failed one changes nothing |
| Predictions.SelectedRanges | meta/src/pages/SpeakPage.jsx:169-173 | the ranges end with the trimmed label and hold at least one earlier token |
| Predictions.RequestFor | meta/src/pages/SpeakPage.jsx:76-87 | the request body: the ranges joined by spaces and the context; CharacterRequestText and MountRequest state the texts sent |
| Predictions.CharacterRequestText | meta/src/pages/SpeakPage.jsx:84 | a character commit's `letter_ranges` is the trimmed transcript, one space, and the label |
| Predictions.MountRequest | meta/src/pages/SpeakPage.jsx:190-195 | the mount request asks with `"A-F G-M N-T U-Z"` |
| Predictions.SlotValue | meta/src/pages/SpeakPage.jsx:175-177 | a slot reads its own position of the list, and a region without an entry reads nothing |
| SpeakPage.AdvanceMode | meta/src/pages/SpeakPage.jsx:163 | the next index names the next mode in the cycle character, word, sentence |
| SpeakPage.ThreeSwitchesReturn | meta/src/pages/SpeakPage.jsx:29 | three mode switches return to the starting index; indices 0, 1 and 2 are character, word and sentence |
| SpeakPage.GetGazeRegion | meta/src/pages/SpeakPage.jsx:31-45 | each region holds exactly on its band and column, centre exactly elsewhere, and clear or delete never occur |
| SpeakPage.ScreenRegions | meta/src/pages/SpeakPage.jsx:31-45 | the upper 40% is never centre, x exactly at 0.4w or 0.6w there is mode switch, and centre is exactly the middle band plus the lower middle column |
| SpeakPage.GetPredictionForRegion | meta/src/pages/SpeakPage.jsx:47-72 | mode switch shows `Switch Mode`, `Next: <MODE>` and an empty line; a slot shows the current mode's candidate and then the next two modes' candidates in cycle order, with the `Unknown` and `No prediction available` fallbacks |
| SpeakPage.Candidate | meta/src/pages/SpeakPage.jsx:52-57 | one line of a slot for one mode, with the `Unknown` and `No prediction available` fallbacks; GetPredictionForRegion states the rotation over it |
| SpeakPage.ConvertHyphenFormat | meta/src/pages/SpeakPage.jsx:197-212 | text that is not three UTF-16 code units with `-` as the second comes back unchanged; otherwise the loop yields the characters from the first code unit to the last |
| SpeakPage.HyphenRangeChars | meta/src/pages/SpeakPage.jsx:198-204 | the range test passes exactly for three characters, none beyond U+FFFF, with `-` in the middle, and then the codes read are the first and last characters |
| SpeakPage.ThreeCharsRange | meta/src/pages/SpeakPage.jsx:198-204 | three characters pass exactly when the middle one is `-` and neither end lies beyond U+FFFF |
| SpeakPage.TwoCharsNoRange | meta/src/pages/SpeakPage.jsx:198-199 | two characters never pass, even when they make three code units |
| SpeakPage.AstralEndsAreNoRange | meta/src/pages/SpeakPage.jsx:198-199 | "A-😀" and "😀-A" are four code units long and come back unchanged |
| SpeakPage.Expand | meta/src/pages/SpeakPage.jsx:205-209 | the characters of the codes from the first to the last; ExpandCodes and ExpandSplits state what it holds |
| SpeakPage.ExpandCodes | meta/src/pages/SpeakPage.jsx:207-209 | the expansion is empty when start > end, and otherwise lists every code from start to end in order |
| SpeakPage.ExpandSplits | meta/src/pages/SpeakPage.jsx:207-209 | an expansion splits at any midpoint into two expansions |
| SpeakPage.SlotLettersExpand | meta/src/pages/SpeakPage.jsx:197-212 | the four labels expand to `ABCDEF`, `GHIJKLM`, `NOPQRST`, `UVWXYZ` |
| SpeakPage.SlotsCoverAlphabet | meta/src/pages/SpeakPage.jsx:10-15 | the four slots' letters, in slot order, are the alphabet |
| SpeakPage.InitialValid | meta/src/pages/SpeakPage.jsx:20-28 | the initial page state is a valid state |
| SpeakPage.GazeStep | meta/src/pages/SpeakPage.jsx:128-142 | a sample (or a null one) keeps the page state valid |
| SpeakPage.CommitStep | meta/src/pages/SpeakPage.jsx:159-188 | the commit effect keeps the page state valid |
| SpeakPage.CommitNeedsSelection | meta/src/pages/SpeakPage.jsx:160 | with nothing armed the effect changes nothing and sends nothing |
| SpeakPage.CommitDisarms | meta/src/pages/SpeakPage.jsx:186-187 | every commit nulls the armed region and the start time and keeps the predictions and context |
| SpeakPage.ModeSwitchCommit | meta/src/pages/SpeakPage.jsx:162-163 | a mode-switch commit moves to the next mode and leaves the transcript alone, without a request |
| SpeakPage.CharacterCommit | meta/src/pages/SpeakPage.jsx:167-174 | in character mode a slot commit appends label and space, and requests with the trimmed transcript, a space and the label |
| SpeakPage.LabelIsTrimmed | meta/src/pages/SpeakPage.jsx:173 | `label.trim()` is the label |
| SpeakPage.PredictionCommit | meta/src/pages/SpeakPage.jsx:175-183 | in word or sentence mode a slot commit appends the slot's prediction or `""`, then a space, and sends nothing |
| SpeakPage.Page.constructor | meta/src/pages/SpeakPage.jsx:20-28 | the page starts in the initial state |
| SpeakPage.Page.MountRequest | meta/src/pages/SpeakPage.jsx:190-195 | the mount request carries every label and the context of the fresh page, which is empty, since the effect runs once on mount |
| SpeakPage.Page.GazeListener | meta/src/pages/SpeakPage.jsx:128-142 | the fields change as the listener step says |
| SpeakPage.Page.CommitEffect | meta/src/pages/SpeakPage.jsx:159-188 | the fields and the returned request are those of the commit step |
| SpeakPage.Page.ReceivePredictions | meta/src/pages/SpeakPage.jsx:94-96 | only the two option lists change, as the reply says |
| SpeakPage.Page.ClearText | meta/src/pages/SpeakPage.jsx:307-308 | the Clear button empties the transcript and nothing else |
| SpeakPage.Page.SetContext | meta/src/pages/SpeakPage.jsx:303 | the speech-to-text setter replaces the context and nothing else |
| TextInputPage.GetGazeRegion | meta/src/pages/TextInputPage.jsx:31-56 | clear holds exactly in its band, delete exactly in its band outside clear's; elsewhere the result is the speaking page's region with mode switch read as centre |
| TextInputPage.ScreenRegions | meta/src/pages/TextInputPage.jsx:35-55 | the hot bands lie in the middle column of the upper and lower bands, and the rest of the upper middle column is centre |
| TextInputPage.GetPredictionForRegion | meta/src/pages/TextInputPage.jsx:58-68 | throws exactly for a region without an entry in character mode, and otherwise returns the speaking page's candidate |
| TextInputPage.DisplayModes | meta/src/pages/TextInputPage.jsx:211-231 | a slot shows three lines |
| TextInputPage.DisplayRepeatsAMode | meta/src/pages/TextInputPage.jsx:211-231 | unless both flags are set a mode is missing; with the page's flags the lines are character, sentence, sentence |
| TextInputPage.IntendedDisplayModes | meta/src/pages/TextInputPage.jsx:211-231 | the corrected order shows every mode, and its first and third lines are those of the code |
| TextInputPage.InitialValid | meta/src/pages/TextInputPage.jsx:20-29 | the initial state, flags character on and the others off, is valid |
| TextInputPage.GazeStep | meta/src/pages/TextInputPage.jsx:126-140 | a sample keeps the state valid |
| TextInputPage.CommitStep | meta/src/pages/TextInputPage.jsx:156-180 | a commit that does not throw keeps the state valid |
| TextInputPage.SlotCommitIsCharacterCommit | meta/src/pages/TextInputPage.jsx:159-167 | with the flags as they stay, every slot commit appends label and space, disarms, and requests with the trimmed transcript and the label in the fixed context |
| TextInputPage.HotBandCommitThrows | meta/src/pages/TextInputPage.jsx:160 | a selected clear or delete region has no entry, so the effect throws |
| TextInputPage.ClearBandIsSelectable | meta/src/pages/TextInputPage.jsx:130-139 | holding the clear band for the threshold selects it, and the commit then throws |
| TextInputPage.Page.constructor | meta/src/pages/TextInputPage.jsx:20-29 | the page starts in the initial state |
| TextInputPage.Page.MountRequest | meta/src/pages/TextInputPage.jsx:183-188 | the mount request carries every label and the fixed context |
| TextInputPage.Page.GazeListener | meta/src/pages/TextInputPage.jsx:126-140 | the fields change as the listener step says |
| TextInputPage.Page.CommitEffect | meta/src/pages/TextInputPage.jsx:156-180 | throws exactly when the commit step does, changing nothing then; otherwise the fields and request are the step's |
| TextInputPage.Page.ReceivePredictions | meta/src/pages/TextInputPage.jsx:86-95 | only the two option lists change, as the reply says |
| TextInputPage.Page.ClearText | meta/src/pages/TextInputPage.jsx:291 | the Clear button empties the transcript and nothing else |
| PointCalibration.LeadingDigits | meta/src/pages/CalibratePage.jsx:72-73 | the longest digit prefix: a prefix, all digits, followed by a non-digit or the end |
| PointCalibration.DigitsValue | meta/src/pages/CalibratePage.jsx:72-73 | a single digit has its own value |
| PointCalibration.ParseInt | meta/src/pages/CalibratePage.jsx:72-73 | `parseInt` is NaN exactly when the string does not start with a digit |
| PointCalibration.ParsePercent | meta/src/pages/CalibratePage.jsx:72-73 | a two-digit percentage parses to its value |
| PointCalibration.GridPercentParses | meta/src/pages/CalibratePage.jsx:8-27 | `"10%"`, `"50%"` and `"90%"` parse to 10, 50 and 90 |
| PointCalibration.InitialValid | meta/src/pages/CalibratePage.jsx:32-35 | the initial state is valid for any non-empty sequence |
| PointCalibration.Begin | meta/src/pages/CalibratePage.jsx:120 | Begin moves to step 1 and changes nothing else |
| PointCalibration.WebGazerReady | meta/src/pages/CalibratePage.jsx:37-46 | the tracker counts as initialised exactly when it already was, or it succeeded past step 0 |
| PointCalibration.HandleClick | meta/src/pages/CalibratePage.jsx:59-88 | a click is recorded exactly when the tracker runs, the click is off the instructions, and it is strictly within 5 points of the target on both axes; an ignored click changes nothing; an accepted one shows feedback and advances the counter by one exactly below the last point |
| PointCalibration.Near | meta/src/pages/CalibratePage.jsx:66-79 | the proximity test on one axis: a parsed target, and a click strictly within 5 percentage points of it; CentreIsNear and ClickAtIsNear state when it passes |
| PointCalibration.Accepted | meta/src/pages/CalibratePage.jsx:59-79 | the guard and the proximity test on both axes; HandleClick states that a click is recorded exactly when it holds |
| PointCalibration.FeedbackTimeout | meta/src/pages/CalibratePage.jsx:82 | the timer hides the feedback and changes nothing else |
| PointCalibration.Complete | meta/src/pages/CalibratePage.jsx:90-95 | `handleComplete` sets the setup-complete flag and changes nothing else |
| PointCalibration.CaptionFor | meta/src/pages/CalibratePage.jsx:161 | the caption is the current target's |
| PointCalibration.HeadingNeverCompletes | meta/src/pages/CalibratePage.jsx:154-163 | in a valid state the heading counts points and is never "Calibration Complete!", and the Complete button shows exactly at the last point |
| PointCalibration.HeadingFor | meta/src/pages/CalibratePage.jsx:154-158 | the heading: the point count, or "Calibration Complete!" past the last point; HeadingNeverCompletes states which one shows |
| PointCalibration.CompleteOffered | meta/src/pages/CalibratePage.jsx:163 | the Complete button shows once the counter reaches the last point; HeadingNeverCompletes and the page lemmas state when |
| PointCalibration.ClickAtIsNear | meta/src/pages/CalibratePage.jsx:76-79 | a click on a target's centre passes the proximity test |
| PointCalibration.OnGridAppend | meta/src/pages/CalibratePage.jsx:8-27 | two grid sequences shown one after the other stay on the grid |
| PointCalibration.GridSequenceParses | meta/src/pages/CalibratePage.jsx:71-73 | every target of a grid sequence parses |
| PointCalibration.ClickThrough | meta/src/pages/CalibratePage.jsx:59-88 | any number of clicks keeps the state valid |
| PointCalibration.ClickingThroughAdvances | meta/src/pages/CalibratePage.jsx:84-86 | k clicks on the successive targets advance the counter by k, up to the last point |
| PointCalibration.Page.constructor | meta/src/pages/CalibratePage.jsx:32-35 | the page starts in the initial state |
| PointCalibration.Page.BeginCalibration | meta/src/pages/CalibratePage.jsx:120 | the fields change as Begin says |
| PointCalibration.Page.InitializeEffect | meta/src/pages/CalibratePage.jsx:37-46 | the fields change as the initialisation step says |
| PointCalibration.Page.HandleCalibrationClick | meta/src/pages/CalibratePage.jsx:59-88 | the fields and the recorded flag are those of the click step, and the state stays valid |
| PointCalibration.Page.HideFeedback | meta/src/pages/CalibratePage.jsx:82 | the fields change as the feedback timer says |
| PointCalibration.Page.HandleComplete | meta/src/pages/CalibratePage.jsx:90-95 | the fields change as `handleComplete` says |
| SetupPage.SequenceOnGrid | meta/src/pages/SetupPage.jsx:9-19 | nine targets, all on the grid, all parsing |
| SetupPage.CounterInvariant | meta/src/pages/SetupPage.jsx:144-153 | the counter stays at most 8, the heading reads (n/9), and the Complete button shows exactly at 8 |
| SetupPage.ClickAdvancesToEight | meta/src/pages/SetupPage.jsx:67-77 | an accepted click advances below 8 and stays at 8; a rejected click changes nothing |
| SetupPage.EightClicksOfferComplete | meta/src/pages/SetupPage.jsx:75-77 | eight clicks on the targets bring up the Complete button |
| CalibratePage.SequenceIsSetupTwice | meta/src/pages/CalibratePage.jsx:8-27 | the eighteen targets are the setup page's nine twice over |
| CalibratePage.SequenceOnGrid | meta/src/pages/CalibratePage.jsx:8-27 | eighteen targets, all parsing |
| CalibratePage.CounterInvariant | meta/src/pages/CalibratePage.jsx:154-163 | the counter stays at most 17, the heading reads (n/18), and the Complete button shows exactly at 17 |
| CalibratePage.ClickAdvancesToSeventeen | meta/src/pages/CalibratePage.jsx:76-86 | an accepted click advances below 17 and stays at 17; a rejected click changes nothing |
| CalibratePage.SeventeenClicksOfferComplete | meta/src/pages/CalibratePage.jsx:84-86 | seventeen or more clicks on the targets leave the counter at 17 |
| TestPage.DirectionsDistinct | meta/src/pages/TestPage.jsx:5-12 | six steps with six distinct directions |
| TestPage.DirectionsBefore | meta/src/pages/TestPage.jsx:5-12 | holds the direction of every earlier step |
| TestPage.Done | meta/src/pages/TestPage.jsx:190-193 | the progress after k successes: exactly the first k directions, all true |
| TestPage.InitialValid | meta/src/pages/TestPage.jsx:60-65 | the initial state is valid |
| TestPage.DoneStep | meta/src/pages/TestPage.jsx:190-193 | marking step k done gives the progress of k + 1 successes |
| TestPage.Calibrate | meta/src/pages/TestPage.jsx:146-208 | two successes mark the direction, clear the error, and advance the step or, at step 5, stop calibrating and start tracking; any other outcome only sets an error; validity is kept |
| TestPage.Recalibrate | meta/src/pages/TestPage.jsx:211-221 | the reset returns to the initial state except for the error message |
| TestPage.SucceedTimes | meta/src/pages/TestPage.jsx:189-200 | successive successes keep the state valid |
| TestPage.SucceedTimesAdvances | meta/src/pages/TestPage.jsx:195-200 | n successes advance the step by n, or finish after the last step |
| TestPage.SixSuccessesFinish | meta/src/pages/TestPage.jsx:189-200 | after a reset, six successes finish calibrating with every direction done and tracking on |
| TestPage.TrackingTickAsWritten | meta/src/pages/TestPage.jsx:129-142 | a body with a truthy `error` field sets the error and keeps the direction; any other body replaces the direction and clears the error; a missing frame changes nothing |
| TestPage.ErrorFieldTruthy | meta/src/pages/TestPage.jsx:134 | the truthiness of `data.error`: a non-empty message, or a non-zero match error; DetectionShownAsError and TicksDifferOnlyOnDetections state its effect |
| TestPage.ErrorField | meta/src/pages/TestPage.jsx:135 | the value `setError(data.error)` stores: the message or the match error |
| TestPage.DetectionShownAsError | meta/src/pages/TestPage.jsx:134-135 | a detection with a non-zero match error is shown as an error and never replaces the direction |
| TestPage.TrackingTick | meta/src/pages/TestPage.jsx:129-142 | corrected tick: an error object sets the error; every other body, a detection included, replaces the direction and clears the error |
| TestPage.TicksDifferOnlyOnDetections | meta/src/pages/TestPage.jsx:134 | the two ticks differ exactly on detections with a non-zero match error |
| TestPage.TickKeepsCalibration | meta/src/pages/TestPage.jsx:129-142 | a tick, as written or as intended, keeps the state valid and changes only the direction and the error |
| TestPage.Page.constructor | meta/src/pages/TestPage.jsx:60-65 | the page starts in the initial state |
| TestPage.Page.CalibrateDirection | meta/src/pages/TestPage.jsx:146-208 | the fields change as the calibration step says |
| TestPage.Page.HandleRecalibrate | meta/src/pages/TestPage.jsx:211-221 | the fields change as the reset says |
| TestPage.Page.TrackingTickHandler | meta/src/pages/TestPage.jsx:128-143 | the fields change as the tick as written says: a detection with a non-zero match error sets the error and keeps the old direction |
| EyeDetector.MinE | gaze/main.py:125 | `min` of two errors is one of them and no larger than either |
| EyeDetector.Mean | gaze/main.py:137-138 | the mean is infinite exactly when a side is, is no smaller than the smaller side, and doubles to the sum |
| EyeDetector.Truncate | gaze/main.py:57-60 | the int32 conversion truncates toward zero |
| EyeDetector.MinOf | gaze/main.py:63-65 | `np.min` is an element no larger than any other |
| EyeDetector.MaxOf | gaze/main.py:64-66 | `np.max` is an element no smaller than any other |
| EyeDetector.PixelXs | gaze/main.py:57-60 | one pixel column per eye landmark |
| EyeDetector.PixelYs | gaze/main.py:57-60 | one pixel row per eye landmark |
| EyeDetector.EyeBox | gaze/main.py:63-66 | the box is the landmarks' bounding box widened by 3 pixels on each side |
| EyeDetector.SliceBounds | gaze/main.py:75 | a slice keeps indices within the axis, and a stop that is not negative is only clipped |
| EyeDetector.RoiAsWritten | gaze/main.py:69-77 | a non-empty region inside the frame, or None for an empty slice |
| EyeDetector.Roi | gaze/main.py:69-77 | corrected region: None exactly when the box misses the frame, and otherwise exactly the box's pixels that lie in the frame |
| EyeDetector.RoiAsWrittenWhenBoxEndsInFrame | gaze/main.py:69-77 | while the box does not end left of or above the frame, the code's region is the intended one |
| EyeDetector.OffFrameBoxGivesRegion | gaze/main.py:71-75 | a box wholly left of a 100 by 100 frame yields an 83-column region instead of none |
| EyeDetector.OffFrameFaceBox | gaze/main.py:57-66 | a face whose landmarks sit 20% left of the frame gets that box for its left eye |
| EyeDetector.GetEyeRoiAsWritten | gaze/main.py:51-77 | any region found lies inside the frame |
| EyeDetector.GetEyeRoi | gaze/main.py:51-77 | corrected `get_eye_roi`: None exactly when the widened eye box misses the frame |
| EyeDetector.OffFrameEyeFound | gaze/main.py:51-77 | on the off-frame face the code finds a left eye and the corrected version does not |
| EyeDetector.Observe | gaze/main.py:104-112 | what `detect_direction` sees: a face exactly when the mesh found one, and each eye image cut from the region `get_eye_roi` finds |
| EyeDetector.ObservedFailures | gaze/main.py:104-115 | "No face detected" exactly without a face, and "Eyes not detected clearly" exactly when both eye boxes give an empty slice |
| EyeDetector.DetectEarlyFailures | gaze/main.py:107-115 | the first two error objects depend on the observation alone, whatever the stores hold |
| EyeDetector.OffFrameFaceIsMatched | gaze/main.py:51-155 | the off-frame face is not turned away: its phantom left eye is matched, and a direction is reported once that eye has templates, whatever the sensitivity |
| EyeDetector.CalculateMse | gaze/main.py:84-95 | infinite exactly when an image is missing, else the images' error |
| EyeDetector.MinError | gaze/main.py:124-125 | infinite exactly with no templates; otherwise the error of some template, and no larger than any |
| EyeDetector.Save | gaze/main.py:97-101 | appends the image to the direction's list, creating it if needed; other directions keep their lists; the insertion order gains the direction when it is new |
| EyeDetector.LookupAt | gaze/main.py:137-138 | `get` finds a present direction's error |
| EyeDetector.Lookup | gaze/main.py:137-138 | `errors.get(direction, float('inf'))`; LookupAt and LookupMissing state both cases |
| EyeDetector.LookupMissing | gaze/main.py:137-138 | `get` of an absent direction is infinity |
| EyeDetector.EyeErrors | gaze/main.py:122-131 | one entry per direction, in the store's insertion order |
| EyeDetector.LookupEyeErrors | gaze/main.py:122-138 | looking a direction up in an eye's table gives its best template error, infinity without templates |
| EyeDetector.CombineBoth | gaze/main.py:136-140 | one entry per direction of the union |
| EyeDetector.Combine | gaze/main.py:134-146 | no table exactly when both eyes' tables are empty; with one empty, the other table as it is |
| EyeDetector.Detect | gaze/main.py:103-155 | `detect_direction` on an observation; DetectFailures and DetectFindsBest state each outcome |
| EyeDetector.ArgMin | gaze/main.py:149 | the first entry with the least error |
| EyeDetector.Confidence | gaze/main.py:153 | never negative; infinite only for an infinite error over a negative sensitivity or a negative error over a zero one, since numpy divides by zero without raising and `min(1.0, ...)` keeps 1.0 against NaN and +inf; a zero sensitivity with a non-negative error gives 0 |
| EyeDetector.ConfidenceBounds | gaze/main.py:153 | with a positive sensitivity and a non-negative error the confidence is in [0, 1], 1 for a perfect match, 0 once the error reaches the sensitivity |
| EyeDetector.ConfidenceAntitone | gaze/main.py:153 | a smaller error never gets a smaller confidence |
| EyeDetector.DetectFailures | gaze/main.py:103-155 | "No face detected", "Eyes not detected clearly", "No valid templates to compare" each happen exactly in their case, and otherwise a direction is reported, whatever the sensitivity |
| EyeDetector.EyeErrorNonNegative | gaze/main.py:118-125 | with a non-negative image error, one eye's error for a direction is non-negative |
| EyeDetector.DirectionErrorNonNegative | gaze/main.py:133-141 | with a non-negative image error, every combined error is non-negative |
| EyeDetector.ZeroSensitivityDetects | gaze/main.py:143-155 | a zero sensitivity still reports the best direction, with confidence 0 |
| EyeDetector.SaveKeepsFilled | gaze/main.py:97-101 | saving keeps every stored direction's list non-empty, so a Python-float infinity from an empty list never reaches the division |
| EyeDetector.DetectFindsBest | gaze/main.py:133-155 | a detection names a competing direction whose combined error is least, returns that error, and its confidence |
| EyeDetector.EntriesCover | gaze/main.py:136-140 | a table in an enumeration's order has an entry for every key |
| EyeDetector.BothEyesTable | gaze/main.py:134-140 | with both eyes contributing the table is the union with the mean errors |
| EyeDetector.OneEyeTable | gaze/main.py:141-144 | with one eye contributing the table is that eye's |
| EyeDetector.TableEntries | gaze/main.py:133-146 | the table holds exactly the competing directions, each with its combined error |
| EyeDetector.Detector.constructor | gaze/main.py:34-39 | both stores start empty, and the sensitivity starts at 0.015 |
| EyeDetector.Detector.SaveCalibrationTemplate | gaze/main.py:97-101 | the chosen eye's store changes as Save says, and the other store does not |
| EyeDetector.Detector.SetSensitivity | gaze/main.py:193 | the sensitivity is replaced and the stores are kept |
| EyeDetector.Detector.DetectDirection | gaze/main.py:103-155 | the loops compute the detection result for an observation, as `Observe` builds it from a frame; a zero sensitivity is divided by like any other |
| EyeDetector.ErrorTable | gaze/main.py:122-131 | the per-direction loop computes the eye's error table |
| EyeDetector.CombineTables | gaze/main.py:136-140 | the loop computes the combined table |
| EyeDetector.BestEntry | gaze/main.py:149 | the loop finds the first least entry |
| EyeDetector.ErrorsFor | gaze/main.py:122-131 | one entry per listed direction |
| EyeDetector.ErrorsForSnoc | gaze/main.py:123-125 | handling one more direction appends exactly its entry, as the dictionary assignment in the loop does |
| EyeDetector.ErrorsForAt | gaze/main.py:122-131 | entry i names direction i and holds that direction's least template error |
| EyeDetector.ErrorTableStep | gaze/main.py:123-125 | one pass of the per-direction loop extends the table for the first k directions to the first k + 1 |
| EyeDetector.LeastError | gaze/main.py:124-125 | the inner loop computes the least template error, infinity without templates |
| EyeDetector.CombineErrors | gaze/main.py:134-146 | the if-chain yields the union table with both eyes, the one non-empty table, or none |
| EyeDetector.BothEyesTableIsUnion | gaze/main.py:134-140 | with both eyes contributing the table is the comprehension over the union |
| EyeDetector.BothEyesErrors | gaze/main.py:136-140 | with both eyes contributing, entry j of the comprehension lists union direction j with the mean of the two eyes' errors |
| EyeDetector.BothEyesMatches | gaze/main.py:136-140 | the comprehension over the union lists exactly the competing directions, each with its combined error |
| EyeDetector.MatchesByEntries | gaze/main.py:133-146 | a table listing an enumeration of the competing directions, each with its combined error, holds exactly those directions |
| PointCalibration.CentreIsNear | meta/src/pages/CalibratePage.jsx:76-79 | the point p percent along a positive extent passes the proximity test for p |

## Left out

- Rendering is left out: JSX layout, icons, CSS classes and the Tailwind configuration. The only rendered parts modelled are the calibration heading, the caption, the Complete button condition and the text-input page's display order.
- Network calls are left out: prediction requests, speech synthesis, speech to text and `ApiRequest.js`. A page method returns the request it would send, and the reply comes back as an input.
- Browser services are left out: WebGazer, camera access, canvas capture, `setInterval` and `setTimeout`. Each listener call, timer firing or reply is one step with the time as a parameter.
- React's scheduling is left out. Effects and handlers run one at a time on the latest state. Stale closures, double presses while a request is in flight, and the transient "Calibrating..." message are not modelled; every path overwrites that message before it returns.
- Routing is left out. `navigate` and the routes are not modelled, and `handleComplete` appears only as the setup-complete flag it sets.
- The landing pages, the eye-settings page, the second application's wizard page and the scraping script hold no modelled logic.
- Predictions.Options: each option object is reduced to its `prompt` string (`wordOptions[i]?.prompt`); other fields are not modelled.
- SpeakPage.ConvertHyphenFormat: `String.fromCharCode` of a code in the surrogate range D800–DFFF yields a lone surrogate, which a Dafny character cannot hold, so the model skips it; the slot labels never reach that range.
- SpeakPage.GetGazeRegion and TextInputPage.GetGazeRegion: coordinates are exact reals, so floating-point rounding at the 40%/60% and 20%/80% thresholds is not modelled.
- PointCalibration.ParseInt: leading whitespace and a sign are not handled, because every target coordinate is digits followed by `%`.
- PointCalibration.HandleClick: requires the counter to index the sequence, which every reachable state satisfies. The click target's class test is reduced to a flag, and `recordScreenPosition` is reported as the `recorded` result.
- TestPage.Calibrate: requires `isCalibrating`, because its only caller, the Capture button, is rendered only while calibrating (meta/src/pages/TestPage.jsx:267).
- TestPage: the camera start error, the direction indicator and the unchanged `sensitivity` state are not modelled. A template the server stores when only one of the two requests succeeds is not visible to the page.
- EyeDetector: MediaPipe, OpenCV resizing and grey conversion, and the pixel MSE arithmetic are left out. The error of two images is the parameter `mse`, and errors have no NaN.
- EyeDetector.CalculateMse, EyeDetector.Mean and EyeDetector.Confidence: template errors, their mean (gaze/main.py:137-138) and the confidence (gaze/main.py:153) are exact reals. `calculate_mse` returns a numpy float32 and the errors and their means stay numpy scalars, whose rounding can create or break ties in `min`; the model does not capture that. Dividing a numpy scalar by a zero sensitivity gives an infinity or NaN, which the model writes out in Confidence.
- EyeDetector.Confidence: an infinite error is divided as a numpy infinity. The one Python-float infinity, `float('inf')` for a direction with an empty template list (gaze/main.py:125), would raise ZeroDivisionError over a zero sensitivity; `save_calibration_template` never leaves a list empty (SaveKeepsFilled), so the model does not carry that exception.
- EyeDetector.Truncate: int32 overflow of very large coordinates is not modelled.
- EyeDetector.Detect: Python's set iteration order for the union of directions is a parameter, `unionOrder`, so which direction wins a tie is not fixed.
- EyeDetector: the FastAPI endpoints are not modelled. That includes the JSON encoding of an infinite error and `Form`, used at gaze/main.py:185 but never imported. The unused `direction_map` is also left out.

## Findings

| source | as written | input that shows it | evidently intended | confidence | as-written member | corrected member |
|---|---|---|---|---|---|---|
| meta/src/pages/TextInputPage.jsx:211-231 | with character mode on and word mode off, the second line's conditional picks `sentence`, the same mode as the third line, so the word prediction is never shown | the page's only flags, character on and word off | the three modes each shown once: letter range, then word, then sentence | high, not executed | TextInputPage.DisplayRepeatsAMode | TextInputPage.IntendedDisplayModes |
| meta/src/pages/TestPage.jsx:134 | `if (data.error)` also fires on a successful detection, whose `error` field is its match error | a detection with match error 0.004 | only an error object counts as an error; a detection replaces the direction | high, not executed | TestPage.DetectionShownAsError | TestPage.TrackingTick |
| gaze/main.py:69-75 | `max_x` and `max_y` are clamped only from above, so a negative value becomes a slice stop counted from the far edge | every landmark at normalised x = -0.2 on a 100 by 100 frame: the box spans columns -23 to -17, and the region found spans columns 0 to 82, and that eye image is matched against the templates, so a direction is reported for a face off the frame (OffFrameFaceIsMatched) | no region when the widened box misses the frame | medium, not executed | EyeDetector.OffFrameEyeFound | EyeDetector.GetEyeRoi |
