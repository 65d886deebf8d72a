# Angle-matching test: a Dafny model

This project models the core of a browser-based angle-matching test. A
participant sees a target angle drawn as a line. Below it, a canvas shows
several option lines laid out in four quadrants. The participant clicks the
option that matches the target. Each choice is recorded with its time, and
at the end the results can be exported as CSV rows.

The model covers these parts of the application:

- **Angles** (`Angles.dfy`): JavaScript's truncating `%`, `normalizeAngle`,
  `getAngleCategory`, and the category bands that new options are clamped into.
- **Draws** (`Draws.dfy`): every `Math.random()` call except the shuffle
  comparator's and the line ids', replaced by the next value of a stream of
  draws in [0, 1) that the caller supplies. The comparator's draws are not
  numbered: the model's draw after a shuffle (the relocation slot, and the
  next stimulus's fallback and growth draws) carries the index it would have
  if the shuffle drew nothing.
- **Settings context** (`SettingsContext.dfy`): the settings record and its
  defaults. It holds the `updateSettings` merge, which resizes the target
  angles when the stimulus count changes, and the load-validation rule.
- **Stimulus generator** (`StimulusGenerator.dfy`):
  - `getPossibleAngles`;
  - `generateStimuli`, which resolves the target, grows options from it in
    exact variance steps, runs the deduplication pass, shuffles, and
    relocates the target in place into the chosen quadrant.
- **Trial session** (`TrialSession.dfy`): the test page's controller state
  and its handlers. The state is the stimuli, the current index, the
  selection, the start time and the results.
- **Canvas** (`Canvas.dfy`): the option canvas. It covers the layout of
  lines into quadrants, the point-to-segment hit test, the choice of the
  closest hit line, and the click, hover and leave handlers.
- **Settings page** (`SettingsPage.dfy`): the page's sanitisers, which are
  variance rounding, the target-angle clamp, the angles-per-quadrant cap and
  the `parseInt` conversion on submit.
- **Results page** (`ResultsPage.dfy`): the CSV rows of the results page.

The main results are these:

- The generator's stimuli always satisfy `Conforms`:
  - the target is the configured angle, normalised, or a multiple of 10 in
    [0, 350];
  - there are `4 * anglesPerQuadrant` options (at least one);
  - every option other than the target lies in the target category's band;
  - when a quadrant is requested, the target sits in that quadrant's index
    range.
- The relocation is a swap of two array cells, so the options are a
  permutation of the ones before it.
- The canvas shows the generator's chosen quadrant where it belongs: the
  index range `[(c - 1) * apq, c * apq)` of the `4 * apq` options is
  quadrant `c - 1` of the layout, on the matching side of both midlines.
- The hit test is exact. A pointer is a hit exactly when it lies within 5
  pixels of some point of the segment; the proof shows the clamped
  projection is the closest point.
- A click or hover resolves to the nearest hit line, and on a tie to the
  earliest one in the list, because the filter keeps the lines' order.
- The layout places each line in its quadrant, inside the 10% margin, and
  gives distinct anchors for up to 16 lines. With 17 lines two anchors
  coincide.
- The settings update keeps absent keys and overwrites present ones. On a
  count change the list is resized, keeping the non-zero entries and drawing
  fallbacks in order.
- The variance handler rounds into [7.5, 50] on the 2.5 grid and is
  idempotent.
- `parseInt` reads back what a decimal integer prints.
- The CSV has one row per result, and for recorded results "Yes" appears
  exactly when the two angle cells agree.

The deduplication pass in `generateStimuli` (app/test/page.tsx:118-153)
never removes anything. Its comment promises "exactly one correct angle",
but the pass only acts on a duplicate found at a position greater than 0.
The options always start with the target, so the first match is at
position 0 and the pass does nothing. Growth can itself produce the target
again: `GrowthCanRepeatTarget` shows a branch from 80 with variance 10 in
the acute band that clamps back to 80. So a stimulus may hold the target
more than once, and the model says so rather than promising uniqueness. The
`RemoveExcessTargets` contract states the no-op outright. The method is
still modelled in full, with its splice-and-replace branch, for option lists
that do not start with the target.

## Model

| member | source | states |
|---|---|---|
| `Angles.Trunc` | app/test/page.tsx:66-69 | the quotient JavaScript's `%` uses: the floor for non-negative values and the ceiling for negative ones, so it is within 1 of the value and never farther from 0 |
| `Angles.Rem360` | app/test/page.tsx:66-69 | JavaScript `angle % 360`: the remainder keeps the sign of the angle, has magnitude below 360, and differs from the angle by a whole number of truncated turns |
| `Angles.Rem180` | app/test/page.tsx:20 | `angle % 180` with the same truncating semantics |
| `Angles.Normalize` | app/test/page.tsx:66-69 | `normalizeAngle` always lands in [0, 360) |
| `Angles.NormalizeCongruent` | app/test/page.tsx:66-69 | the normalised angle differs from the input by a whole number of full turns |
| `Angles.NormalizeFixesRange` | app/test/page.tsx:66-69 | angles already in [0, 360) are unchanged |
| `Angles.NormalizeIdempotent` | app/test/page.tsx:66-69 | normalising twice equals normalising once |
| `Angles.CategoryOfNormalized` | app/test/page.tsx:18-25 | fixes what `CategoryOf` (getAngleCategory) means: for an angle in [0, 360), "right" exactly at 90 and 270, "acute" below 90 and in [180, 270), "obtuse" otherwise |
| `Angles.NegativeAngleIsAcute` | app/test/page.tsx:18-25 | a negative angle above -180 has a negative remainder and is classed acute |
| `Angles.ClampToBand` | app/test/page.tsx:105-112 | the category clamp returns a value in the band, keeps in-band values, and maps values below or above to the band's ends |
| `Draws.Pick` | app/test/page.tsx:93 | `Math.floor(Math.random() * n)` is an index below `n` when `n > 0` |
| `Draws.Direction` | app/test/page.tsx:96 | the direction is +1 exactly when the draw exceeds 0.5, and -1 otherwise |
| `Draws.FallbackAngle` | app/test/page.tsx:80 | the random fallback target is a whole multiple of 10 in [0, 350] |
| `StimulusGenerator.PossibleAngles` | app/test/page.tsx:28-63 | the result is strictly ascending and holds exactly the band's 10-degree grid points that differ from the target and lie within the variance of it |
| `StimulusGenerator.OptionCount` | app/test/page.tsx:84-91 | the option list has `4 * anglesPerQuadrant` entries, or the target alone when that is below 1 |
| `StimulusGenerator.Branch` | app/test/page.tsx:99-112 | a new option is the base moved by exactly one variance step, normalised, then clamped into the band |
| `StimulusGenerator.GrowOptions` | app/test/page.tsx:88-116 | growth yields `OptionCount` options with the target first; entry j is the branch of an earlier entry chosen by draw 2(j-1) in the direction of the next draw; all added entries lie in the band; the draws consumed are counted |
| `StimulusGenerator.GrowthCanRepeatTarget` | app/test/page.tsx:99-115 | growth can produce the target again (80, variance 10, acute band) |
| `StimulusGenerator.FindIndex` | app/test/page.tsx:123 | `findIndex` returns the first position holding the value, or -1 exactly when it is absent |
| `StimulusGenerator.Replacement` | app/test/page.tsx:129-147 | a replacement angle lies in the band; a step from the base that lands at least 1 degree from the target is the growth branch, and one that lands within 1 degree is replaced by the same step taken from the target |
| `StimulusGenerator.RemoveExcessTargets` | app/test/page.tsx:118-153 | the pass keeps the length and the band, and it leaves a list that starts with the target untouched, consuming no draws |
| `StimulusGenerator.Swap` | app/test/page.tsx:173-176 | the destructuring swap exchanges two entries and keeps the multiset |
| `StimulusGenerator.SwapEntries` | app/test/page.tsx:173-176 | in place: the array afterwards is `Swap` of its old contents |
| `StimulusGenerator.WriteAt` | app/test/page.tsx:173-176 | one JavaScript array write: a negative index leaves the entries alone, an index at or past the end extends the array with `undefined` holes before the written entry |
| `StimulusGenerator.SwapAsWritten` | app/test/page.tsx:173-176 | the destructuring swap on a JavaScript array for any indices: the length grows to cover the larger index written; entry j gets the old entry i, entry i the old entry j, and every read outside the bounds is `undefined`; within bounds it is `Swap` |
| `StimulusGenerator.QuadrantPastEndExtends` | app/test/page.tsx:161-179 | with four options and a stored correct quadrant of 5 the relocation writes the target at index 4, extending the list and leaving `undefined` at its old place |
| `StimulusGenerator.NegativeCountLosesTarget` | app/test/page.tsx:161-179 | with -1 angles per quadrant the relocation turns the options `[target]` into `[undefined]` |
| `StimulusGenerator.RelocateTarget` | app/test/page.tsx:161-179 | in place: the array stays a permutation; a target already in the quadrant's range stays put and consumes no draw; otherwise the first target is swapped with the slot the next draw picks; afterwards the range holds the target |
| `StimulusGenerator.PermutationKeepsOptions` | app/test/page.tsx:158 | the shuffle keeps the length, the target and the band of every other option |
| `StimulusGenerator.PlaceInQuadrant` | app/test/page.tsx:161-179 | relocating on a copy yields a permutation of the options with the target in the quadrant's range |
| `StimulusGenerator.ArrangeOptions` | app/test/page.tsx:157-179 | the shuffle and the optional relocation keep the options a permutation, and they place the target in the chosen quadrant when asked |
| `StimulusGenerator.QuadrantFits` | app/test/page.tsx:163-165 | the chosen quadrant's index range ends within the option list |
| `StimulusGenerator.ResolveTarget` | app/test/page.tsx:80 | the target is the configured angle normalised when that is present and non-zero, else the fallback multiple of 10 |
| `StimulusGenerator.GenerateStimulus` | app/test/page.tsx:78-182 | every generated stimulus conforms: target, option count, band, quadrant placement |
| `StimulusGenerator.GenerateStimuli` | app/test/page.tsx:72-183 | one conforming stimulus per index below `stimuliCount`, none for a non-positive count |
| `StimulusGenerator.DefaultFirstStimulus` | app/test/page.tsx:78-116 | with the default settings the first stimulus targets 30 and has four options, each 30 or in [0, 80] |
| `StimulusGenerator.FirstQuadrantHoldsTarget` | app/test/page.tsx:161-179 | with one option per quadrant and quadrant 1 chosen, the target is the first option |
| `TrialSession.Score` | app/test/page.tsx:244-252 | a recorded result is correct exactly when the selected angle equals the target, and it carries the elapsed time |
| `TrialSession.Session.constructor` | app/test/page.tsx:188-194 | the page starts with index -1, no selection and no results |
| `TrialSession.Session.Start` | app/test/page.tsx:203-208 | starting sets index 0, starts the clock and clears the selection |
| `TrialSession.Session.HandleSelection` | app/test/page.tsx:238-256 | the first selection per stimulus is recorded with the time since it was shown; later ones change nothing |
| `TrialSession.Session.HandleNextStimulus` | app/test/page.tsx:259-266 | advancing restarts the clock and clears the selection; on the last stimulus the results, one per stimulus in order, are handed over |
| `SettingsContext.Resize` | contexts/SettingsContext.tsx:76-81 | the resized angle list has the requested length |
| `SettingsContext.ResizeFrom` | contexts/SettingsContext.tsx:76-81 | each kept (non-zero, existing) entry is copied; every other entry is a multiple of 10 in [0, 350] |
| `SettingsContext.ResizeEntry` | contexts/SettingsContext.tsx:79 | a dropped entry takes the fallback of exactly the draw numbered by the dropped entries before it |
| `SettingsContext.ResizeTruncates` | contexts/SettingsContext.tsx:76-81 | shrinking a list without zeros truncates it |
| `SettingsContext.Update` | contexts/SettingsContext.tsx:68-88 | the update fails exactly when the new count differs and is negative or at least 2^32, where `Array(n)` throws `RangeError` |
| `SettingsContext.UpdateMerges` | contexts/SettingsContext.tsx:70 | fixes what `Merge` (the object spread) does: keys absent from the patch keep their values, present ones overwrite |
| `SettingsContext.UpdateResizes` | contexts/SettingsContext.tsx:73-83 | a changed count in [0, 2^32) resizes the list to that count, keeps non-zero previous entries, fills each other entry with the fallback of the draw its position selects (a whole multiple of 10 in [0, 350]), and ignores angles in the same patch |
| `SettingsContext.UpdateWithoutResize` | contexts/SettingsContext.tsx:70-73 | with the count absent or unchanged the angles are the patch's or the previous ones, with no length fix-up |
| `SettingsContext.UpdateKeepsConsistent` | contexts/SettingsContext.tsx:68-88 | the update keeps the list length equal to the count unless the patch brings a list of another length |
| `SettingsContext.UpdateEmpty` | contexts/SettingsContext.tsx:70 | an empty patch changes nothing |
| `SettingsContext.Load` | contexts/SettingsContext.tsx:47-64 | with `Acceptable` as the load rule (lines 53-55): stored settings are accepted exactly when `stimuliCount` is truthy and `targetAngles` is an array; otherwise the defaults stay |
| `SettingsContext.LoadedCountNonZero` | contexts/SettingsContext.tsx:29-36 | the loaded settings never have a zero count |
| `SettingsContext.DefaultsConsistent` | contexts/SettingsContext.tsx:29-36 | the defaults have one target angle per stimulus |
| `SettingsContext.SettingsStore.constructor` | contexts/SettingsContext.tsx:47-64 | mounting loads the settings and writes them back to storage |
| `SettingsContext.SettingsStore.UpdateSettings` | contexts/SettingsContext.tsx:68-88 | a successful update replaces and persists the settings; when `Array(n)` throws, storage is left unchanged and the store is marked failed, after which no update happens (the page is torn down) |
| `Canvas.PerQuadrant` | components/LineCanvas.tsx:54 | `Math.ceil(n / 4)`: at least one for a non-empty list, and the smallest m with n <= 4m |
| `Canvas.Offset` | components/LineCanvas.tsx:75-112 | every offset pattern stays within [0.2, 0.8] of the quadrant |
| `Canvas.QuadrantInRange` | components/LineCanvas.tsx:57 | every line index maps to a quadrant in 0..3 |
| `Canvas.LayoutShape` | components/LineCanvas.tsx:51-123 | fixes what `Layout` (the effect's `angles.map`) returns: one line per angle, in order, keeping the angle and the id, in quadrant `floor(i / ceil(n / 4))` |
| `Canvas.AnchorScaled` | components/LineCanvas.tsx:63-112 | fixes what `Anchor` computes: an anchor is the canvas size times a fraction set by the quadrant and the offset |
| `Canvas.AnchorSide` | components/LineCanvas.tsx:63-112 | even quadrants lie left of the midline and odd ones right; quadrants 0 and 1 lie above and 2 and 3 below |
| `Canvas.AnchorInMargin` | components/LineCanvas.tsx:63-72 | anchors stay inside the 10% margin |
| `Canvas.OffsetsDistinct` | components/LineCanvas.tsx:75-112 | within a quadrant of up to four lines, offsets differ |
| `Canvas.AnchorsDistinct` | components/LineCanvas.tsx:51-123 | with at most 16 lines no two lines share an anchor |
| `Canvas.SeventeenLinesCollide` | components/LineCanvas.tsx:101-112 | with 17 lines two anchors coincide |
| `Canvas.CorrectRangeQuadrant` | components/LineCanvas.tsx:54-57 | over the generator's `4 * apq` options, every index of the correct-quadrant range `[(c - 1) * apq, c * apq)` falls in quadrant `floor(i / ceil(n / 4)) = c - 1` |
| `Canvas.CorrectRangeOnScreen` | components/LineCanvas.tsx:51-123 | those lines are laid out in quadrant `c - 1`: left of the vertical midline exactly for c = 1, 3 and above the horizontal one exactly for c = 1, 2 |
| `Canvas.TargetShownInCorrectQuadrant` | app/test/page.tsx:161-179 | a stimulus generated with `useCorrectQuadrant` has a line at its target angle that the canvas places in the chosen quadrant |
| `Canvas.AnchorIsHit` | components/LineCanvas.tsx:185-232 | a pointer on a line's anchor hits it |
| `Canvas.HitIsNearSegment` | components/LineCanvas.tsx:185-232 | with `NearSegmentIsHit`, fixes what `NearLine` (isPointNearLine) means: a hit lies within 5 of some point of the segment |
| `Canvas.NearSegmentIsHit` | components/LineCanvas.tsx:185-232 | a pointer within 5 of any point of the segment is a hit |
| `Canvas.ClosestIndex` | components/LineCanvas.tsx:251-255 | the `reduce` picks a line with minimal anchor distance, and the earliest such line on ties |
| `Canvas.HitLinesMembers` | components/LineCanvas.tsx:247 | fixes what `HitLines` keeps: exactly the lines the pointer hits, and nothing exactly when no line is hit |
| `Canvas.HitLinesAppend` | components/LineCanvas.tsx:247 | the filter distributes over concatenation, so it keeps the hit lines in their order in `lines` |
| `Canvas.HitPosition` | components/LineCanvas.tsx:247 | the k-th hit line sits at a position of `lines` before which exactly the first k hit lines lie |
| `Canvas.Resolve` | components/LineCanvas.tsx:247-255 | no line exactly when nothing is hit; otherwise a hit line no farther than any other hit line, and every hit line before it in `lines` is strictly farther (the earlier line wins ties) |
| `Canvas.LineCanvas.constructor` | components/LineCanvas.tsx:34-41 | the component starts with its size and end-point function, no lines, no hovered line and no selection |
| `Canvas.LineCanvas.UpdateLayout` | components/LineCanvas.tsx:51-123 | the layout effect replaces the lines unless the angle list is empty |
| `Canvas.LineCanvas.HandleCanvasClick` | components/LineCanvas.tsx:236-265 | a click is ignored when disabled, without `onSelect` or with a non-null `selectedAngle`; otherwise the closest hit line is selected and its angle reported |
| `Canvas.LineCanvas.HandleCanvasMouseMove` | components/LineCanvas.tsx:269-294 | unless disabled, the hovered line becomes the closest hit line or none |
| `Canvas.LineCanvas.HandleMouseLeave` | components/LineCanvas.tsx:304 | leaving clears the hovered line |
| `SettingsPage.Round` | app/settings/page.tsx:43 | `Math.round` is within half a unit, rounding halves up |
| `SettingsPage.DegreeVariance` | app/settings/page.tsx:40-45 | `NaN` stays `NaN`, numbers give numbers; the clamp sends every value up to 7.5 to 7.5 and every value from 50 up to 50 |
| `SettingsPage.DegreeVarianceInRange` | app/settings/page.tsx:43 | for numeric input the result lies in [7.5, 50] on the 2.5 grid |
| `SettingsPage.DegreeVarianceNearest` | app/settings/page.tsx:43 | for in-range input the result is the nearest 2.5 step: above `v - 1.25` and at most `v + 1.25`, so a half-way value rounds up as `Math.round` does |
| `SettingsPage.DegreeVarianceIdempotent` | app/settings/page.tsx:43 | applying the handler twice equals applying it once |
| `SettingsPage.DegreeVarianceFixes` | app/settings/page.tsx:43 | in-range grid values are fixed points |
| `SettingsPage.ClampAngle` | app/settings/page.tsx:53 | the clamp returns a value in [1, 179], keeps values inside, and maps values outside to the nearer end |
| `SettingsPage.TargetAngleChange` | app/settings/page.tsx:48-59 | only entry `index` changes: to the clamped number, or to the text itself when it is not a number |
| `SettingsPage.TargetInput` | app/settings/page.tsx:98 | the input's value is always in [1, 179], with `NaN` and 0 mapped to 1 |
| `SettingsPage.TargetInputEdit` | app/settings/page.tsx:97-99 | edits through the input store that value unchanged in [1, 179] |
| `SettingsPage.CapAnglesPerQuadrant` | app/settings/page.tsx:119 | the cap bounds the value at 4 from above only |
| `SettingsPage.CapKeepsNonPositive` | app/settings/page.tsx:119 | zero and negative counts pass through |
| `SettingsPage.CapAdmitsNegativeCount` | app/settings/page.tsx:119 | a typed -1 reaches the settings, and with the quadrant option on the relocation step is then not well defined |
| `SettingsPage.CapAnglesPerQuadrantToRange` | app/settings/page.tsx:119 | corrected cap: the count is clamped to [1, 4], keeping values inside |
| `SettingsPage.ClampedCountKeepsRelocationDefined` | app/settings/page.tsx:119 | with the corrected cap every typed count leaves the relocation step well defined |
| `SettingsPage.ParseIntNaN` | app/settings/page.tsx:33 | fixes when `ParseInt` gives `NaN`: exactly when no digit follows the white space and the sign |
| `SettingsPage.ParseIntDecimal` | app/settings/page.tsx:33 | `parseInt` reads back a natural number printed in decimal, whatever non-digit text follows |
| `SettingsPage.ParseIntMinus` | app/settings/page.tsx:33 | a minus sign before text that starts with a digit negates the value read |
| `SettingsPage.ParseIntNegativeDecimal` | app/settings/page.tsx:33 | the same round trip for a negative integer |
| `SettingsPage.SubmitEntry` | app/settings/page.tsx:33 | one entry of `parseInt(entry) \|\| 0`: a number is read as its whole part, truncated toward zero, and unparsable text gives 0 |
| `SettingsPage.Submit` | app/settings/page.tsx:33 | submit keeps the list length and converts each entry by `parseInt(entry) \|\| 0` |
| `SettingsPage.SubmitUnparsable` | app/settings/page.tsx:33 | unparsable text becomes 0 |
| `SettingsPage.SubmitEditedAngle` | app/settings/page.tsx:33 | an angle edited through the input is submitted in [1, 179] |
| `SettingsPage.SubmitReplacesAngles` | app/settings/page.tsx:29-37 | submitting replaces only the target angles, with one converted value per entry |
| `ResultsPage.AngleCell` | app/results/page.tsx:43-44 | the cell is "N/A" exactly when the angle is missing or 0, and the number otherwise |
| `ResultsPage.CsvData` | app/results/page.tsx:37-46 | the header, then one five-cell row per result in order, each built by `Row`: number i+1, "Yes" exactly when correct, the time, and the two angle cells |
| `ResultsPage.YesIffAnglesAgree` | app/results/page.tsx:37-46 | for recorded results, "Yes" appears exactly when the target and selected cells agree |

## Left out

- `Math.random()` is a stream of draws passed in as a parameter. The
  `sort(() => Math.random() - 0.5)` shuffle is a caller-supplied function
  that is only required to return a permutation. Its result under a real
  engine's sort is not modelled.
- The line ids (`Math.random().toString(36)`) are parameters of the layout.
- The trigonometric end point of a line (`cos` and `sin` of the normalised
  angle times `size / 7`) is a function the canvas receives. Square roots and
  `Math.hypot` are compared as squared distances, which orders them the same
  way.
- Numbers are exact reals. Floating-point rounding, `NaN` and `Infinity` are
  not modelled, except that a `NaN` read from text is an explicit `None`
  where the handlers pass it on.
- `Number(...)` and `parseFloat` on text are the caller's part: the handlers
  receive the number or `None`.
- `SettingsPage.ParseInt` reads only decimal digits and the ASCII white
  space. The `0x` prefix that makes `parseInt` read hexadecimal, and other
  Unicode white space, are not modelled.
- `SettingsPage.SubmitEntry` reads a numeric entry as its whole part. Numbers
  that print in exponent notation (below 1e-6 or from 1e21 in magnitude), for
  which `parseInt` reads only the leading digits, are not modelled.
- Settings fields are typed values: a stored object with missing or
  mistyped fields other than the two that the load rule checks, and a
  non-integer stimulus count or angles-per-quadrant (where `Array(n)` also
  throws for fractions), are not modelled.
- The error screen that replaces the page when `Array(n)` throws inside the
  settings updater is not modelled: the store records the failure in
  `failed`, and `UpdateSettings` is not called afterwards.
- `StimulusGenerator.GenerateStimuli` requires that, when a quadrant is
  requested, `correctQuadrant` is in 1..4 and `anglesPerQuadrant` is not
  negative. The selector offers only 1..4, and the corrected count cap under
  "Findings" keeps the count in 1..4. Outside that range the source reads
  `undefined` entries of the option array, loses the target when it writes at
  a negative index, and extends the array when it writes past the end;
  `SwapAsWritten` and `RelocateAsWritten` show that step, and the generator
  is modelled only for the settings where it is well defined.
- `StimulusGenerator.GenerateStimulus` does not promise that the target
  occurs exactly once, because the source does not deliver it (see above).
- `localStorage`, `sessionStorage` and JSON (de)serialisation are modelled
  as values. `SettingsContext.SettingsStore` keeps the stored settings as a
  record, and the handed-over results are the returned sequence.
- The router, logging, fullscreen handling, window resizing, the canvas
  drawing code and the time formatting `(time / 1000).toFixed(2)` are not
  part of this model. The CSV text produced by `csv-stringify` is not part
  of this model either; the rows are kept as cells.
- The trial controller's clock (`Date.now()`) is a parameter of its handlers.

## Findings

| source | as written | input that shows it | evidently intended | confidence | as-written member | corrected member |
|---|---|---|---|---|---|---|
| app/settings/page.tsx:119 | the angles-per-quadrant field is capped only from above (`Math.min(value, 4)`), so a typed negative count reaches the settings; with the quadrant option on, the relocation at app/test/page.tsx:161-179 then swaps the target with index -1 | angles per quadrant -1, quadrant option on, correct quadrant 1, any draw above 0: the options `[target]` become `[undefined]` | the count is clamped to 1..4, as the field's `min={1}` and `max={4}` say | not executed | `SettingsPage.CapAdmitsNegativeCount`, `StimulusGenerator.NegativeCountLosesTarget` | `SettingsPage.ClampedCountKeepsRelocationDefined` |
