# The Improbability of Love: a verified model of its client-side core

The Improbability of Love is a web app. A visitor tells how they met their
partner, either by writing the story or by recording it. The server asks a
language model to split the story into events and conditions, each with
"1 in X" odds, and the client shows the result. This project models the
client-side logic of three components:

- **the city selector** (`CitySelector`, in `city_selector.dfy`). This is a
  debounced search box. It normalises the query to one lower-case word,
  turns the city API's answer into at most ten well-formed cities, labels
  each city, and tracks its loading, error and result state while requests
  are aborted and replaced. As written, that state can be left with the
  spinner on and nothing pending; see "## Findings".
- **the text story form and its result view** (`StoryInput`, in
  `story_input.dfy`). This covers the blank-story guard, the analyze request
  and how its outcome is settled, the "1 in X" odds formatter, the combined
  odds of an event, the width of a condition's bar, and the expand/collapse
  toggle of the events.
- **the voice story form** (`VoiceRecorder`, in `voice_recorder.dfy`). This
  covers the recording-time counter and its `m:ss` display, the controls
  each recorder status shows, the reset and upload handlers, and the
  probability formatter of its result view.

There are three shared modules:

- `JsText` (`js_text.dfy`) defines the JavaScript string operations the
  components rely on. `trim` uses ECMAScript's whitespace set. UTF-16
  `length` is exact. `String(n)` for a non-negative integer is exact below
  10^21, which covers every number the components print. `padStart`
  is exact for strings of the Basic Multilingual Plane padded with a
  one-character fill, which is how the seconds display uses it.
  `toLowerCase` is exact for ASCII and for the two non-ASCII characters whose
  lower case contains an ASCII letter, and keeps every other character (see
  "## Left out").
- `AnalysisModel` (`analysis.dfy`) holds the analysis record and the rule
  both forms use to settle a request.
- `Wrappers` (`wrappers.dfy`) holds `Option`.

The components update their state step by step through React state setters.
So each of them is a `class` whose methods are the event handlers. The form
classes carry a validity invariant. The result view has none, because its
selection can outlive the analysis it was made for. Every handler that changes state has a
`modifies` frame; Stop Recording changes no state and has none. The pure
helpers are functions, with lemmas about them.

An asynchronous handler is split at its `await`. The first half sends a
request, which the method returns. A second method takes the outcome as a
parameter. The network, the timers, the recording library and the server are
not modelled: their results are parameters. For the city search, an
abortable request is named by a counter. A response to a request that has
since been aborted is ignored.

## Model

| member | source | states |
|---|---|---|
| JsText.Trim | src/components/forms/city-selector.tsx:65-66 | The trimmed string is the input minus a leading and a trailing run of ECMAScript whitespace. It is empty exactly when the input is all whitespace. Otherwise neither end is whitespace, and every character of the input after the result is whitespace. |
| JsText.TrimNoEdgeSpace | src/components/story-recorder/story-input.tsx:200 | A string with no whitespace at either end is its own trim. |
| JsText.LowerChar | src/components/forms/city-selector.tsx:67 | One character's lower case. ASCII capitals map to their lower-case letter, the Kelvin sign to `k`, and `İ` to `i` plus a combining dot. Whitespace is unchanged. |
| JsText.Lower | src/components/forms/city-selector.tsx:67 | `toLowerCase` lower-cases character by character. Specified by LowerChar, LowerStable, LowerAppend and LowerHasNoCapitals. |
| JsText.LowerStable | src/components/forms/city-selector.tsx:67 | Lower-casing leaves a string unchanged when none of its characters has a lower-case mapping. |
| JsText.LowerAppend | src/components/forms/city-selector.tsx:67 | Lower-casing distributes over concatenation. |
| JsText.JsLength | src/components/forms/city-selector.tsx:51 | `length` counts UTF-16 code units. It lies between the number of characters and twice that, and a single character counts two exactly when it is outside the Basic Multilingual Plane. |
| JsText.JsLengthAppend | src/components/forms/city-selector.tsx:51 | The length of a concatenation is the sum of the lengths, so together with the single-character case the length is the sum over characters. |
| JsText.JsLengthBmp | src/components/forms/city-selector.tsx:51 | Without characters outside the Basic Multilingual Plane, `length` is the number of characters. |
| JsText.NatToString | src/components/forms/city-selector.tsx:91 | The decimal numeral of a non-negative integer is non-empty, has no leading zero, and reads back to the integer. |
| JsText.PadStart | src/components/story-recorder/voice-recorder.tsx:188 | Padding reaches the requested width (or keeps a longer string), ends with the original string, and fills only with the fill character. |
| CitySelector.Strip | src/components/forms/city-selector.tsx:68 | Removing special characters leaves only word characters, whitespace and hyphens, and keeps a string free of capitals. |
| CitySelector.StripChar | src/components/forms/city-selector.tsx:68 | A single character survives stripping exactly when it is a word character, whitespace or a hyphen. |
| CitySelector.StripAppend | src/components/forms/city-selector.tsx:68 | Stripping distributes over concatenation. With StripChar, every kept character of a mixed string survives, in order, and every other character is removed. |
| CitySelector.StripDropsBetween | src/components/forms/city-selector.tsx:68 | A removed character between two kept ones disappears and the kept ones stay in order, as `a!b` strips to `ab`. |
| CitySelector.StripKeepsKept | src/components/forms/city-selector.tsx:68 | A string made only of kept characters passes through unchanged. |
| CitySelector.FirstToken | src/components/forms/city-selector.tsx:69 | The first word is a prefix of the string, contains no whitespace, and is followed by whitespace or the end. |
| CitySelector.LowerHasNoCapitals | src/components/forms/city-selector.tsx:67 | A lower-cased string contains no ASCII capital. |
| CitySelector.Normalize | src/components/forms/city-selector.tsx:65-69 | The formatted query contains only lower-case ASCII letters, digits, `_` and `-`. |
| CitySelector.NormalizeKeepsQuery | src/components/forms/city-selector.tsx:65-69 | A query already made of those characters is formatted to itself. |
| CitySelector.NormalizeIdempotent | src/components/forms/city-selector.tsx:65-69 | Formatting a formatted query changes nothing. |
| CitySelector.NormalizeLeadingSymbol | src/components/forms/city-selector.tsx:68-75 | A query whose first word is only a symbol (`! paris`) formats to the empty string, so no request is sent. |
| CitySelector.NormalizeSymbolThenSpace | src/components/forms/city-selector.tsx:65-75 | A query that starts with a removed symbol followed by whitespace formats to the empty string, whatever follows. |
| CitySelector.SpaceFirstWord | src/components/forms/city-selector.tsx:67-69 | A query that starts with whitespace has an empty first word once lower-cased and stripped. |
| CitySelector.Truthy | src/components/forms/city-selector.tsx:109 | `Boolean(...)` of a JSON field: missing, null, false, 0 and the empty string are falsy. |
| CitySelector.Accepts | src/components/forms/city-selector.tsx:102 | The filter: an entry is kept when it is an object whose name and country are truthy. |
| CitySelector.NumberOr | src/components/forms/city-selector.tsx:106-108 | A numeric field is taken as is, and anything else becomes the default. |
| CitySelector.ToCity | src/components/forms/city-selector.tsx:103-110 | Name and country are copied. A non-numeric population becomes 1000000 and non-numeric coordinates become 0. The capital flag is the field's truthiness. |
| CitySelector.Accepted | src/components/forms/city-selector.tsx:102 | Filtering keeps at most as many entries as given, and every kept city has a non-empty name and country. |
| CitySelector.AcceptedPositions | src/components/forms/city-selector.tsx:102-110 | The accepted cities are exactly the converted records with a truthy name and country, taken from strictly increasing positions, and every such record appears. |
| CitySelector.AcceptedAppend | src/components/forms/city-selector.tsx:101-110 | Filtering and converting a concatenation gives the concatenation of the results. |
| CitySelector.Transform | src/components/forms/city-selector.tsx:101-111 | The result is the first min(10, accepted) accepted cities, in order. |
| CitySelector.TransformIgnoresTail | src/components/forms/city-selector.tsx:111 | Once ten cities are accepted, later entries of the answer do not change the result. |
| CitySelector.Label | src/components/forms/city-selector.tsx:193 | A city's label is its name, then `, `, then its country, then ` (Capital)` exactly for a capital and nothing otherwise. |
| CitySelector.IsChecked | src/components/forms/city-selector.tsx:203 | An option is checked when the form's value equals its label. |
| CitySelector.CheckedNamesAgree | src/components/forms/city-selector.tsx:203 | For names without commas, two cities checked by the same value have the same name. |
| CitySelector.LabelName | src/components/forms/city-selector.tsx:193 | For a name without a comma, the label's text up to the first comma is the name. |
| CitySelector.LabelMarksCapital | src/components/forms/city-selector.tsx:193 | Unless the country itself ends in `(Capital)`, a label ends with ` (Capital)` if and only if the city is a capital. |
| CitySelector.PlainLabelSuffix | src/components/forms/city-selector.tsx:193 | A label built without the mark ends with ` (Capital)` only if the country ends with `(Capital)`. |
| CitySelector.Interpret | src/components/forms/city-selector.tsx:90-98 | A search succeeds exactly on a 2xx answer whose body is an array, and then yields the transformed cities. Any other status gives `API Error: <status>`, a non-array body gives `Invalid API response format`, and a thrown error gives its message or `Failed to fetch cities`. |
| CitySelector.CitySearch.constructor | src/components/forms/city-selector.tsx:38-43 | The selector starts empty and idle. The first debounce timer is armed, because the debounce effect at lines 131-140 also runs once on mount. |
| CitySelector.CitySearch.ChangeInput | src/components/forms/city-selector.tsx:131-148 | A new input value aborts the search in flight and re-arms the timer. Setting the same value again changes nothing else. It is accepted in every consistent state, the stuck-spinner state included, and keeps the full invariant when it held before. |
| CitySelector.CitySearch.FetchCities | src/components/forms/city-selector.tsx:45-75 | A query shorter than 2, or one that formats to nothing, clears results, error and spinner and sends nothing. Otherwise the previous request is aborted and a new one carrying the formatted query is sent with the spinner on. The spinner is on exactly while a request is live. |
| CitySelector.CitySearch.Settle | src/components/forms/city-selector.tsx:113-127 | An answer to an aborted or superseded request changes nothing. An answer to the live request stores the cities or the error from Interpret and stops the spinner. It is accepted in every consistent state and keeps the full invariant when it held before. |
| CitySelector.CitySearch.DebounceElapsed | src/components/forms/city-selector.tsx:131-140 | Corrected debounce: a blank input clears results, error and spinner. Otherwise the trimmed input is searched. From any consistent state it establishes the invariant "spinner on only while a request is live or the timer is armed". |
| CitySelector.CitySearch.DebounceElapsedAsWritten | src/components/forms/city-selector.tsx:131-140 | Debounce as written: a blank input clears results and error but leaves the spinner as it was. A non-blank input is searched exactly as in the corrected handler: the request sent, its number, and the spinner on exactly while it is live. The timer is disarmed either way. The blank branch leaves the request counter and the pending request alone, and a search that sends nothing leaves the counter too. |
| CitySelector.CitySearch.SelectCity | src/components/forms/city-selector.tsx:188-198 | Selecting a listed city hands that city to the caller, clears the input and keeps the list. The request counter is unchanged. When the input was already empty, the timer and the pending request are untouched too. |
| CitySelector.StuckSpinner | src/components/forms/city-selector.tsx:131-148 | Typing any query of two or more lower-case letters, digits, `_` or `-` (such as `paris`), letting the search start and then clearing the box, with only the handlers as written, leaves the spinner on with no request live and no timer armed. |
| CitySelector.NoStuckSpinner | src/components/forms/city-selector.tsx:131-148 | With the corrected debounce, typing anything and then clearing the box ends with the spinner off and the invariant kept. |
| AnalysisModel.Settle | src/components/story-recorder/story-input.tsx:214-224 | No error exactly when the server answered ok, and then the analysis is the answer's. On failure the previous analysis stays and the error is the form's failure message, or the thrown message, or `An error occurred`. |
| StoryInput.Round | src/components/story-recorder/story-input.tsx:45 | Rounding gives the integer within half a unit of the value, with halves rounded up. |
| StoryInput.FormatOneInX | src/components/story-recorder/story-input.tsx:35-46 | Odds are shown in billions from 1e9, in millions from 1e6 and in thousands from 1e3. The scaled value times its unit is the odds, is at least 1, and is below 1000 except in billions. Below 1000 the odds are rounded to a whole number. |
| StoryInput.FormatOneInXMonotone | src/components/story-recorder/story-input.tsx:35-46 | Larger odds never get a smaller unit, and within a unit the shown value does not decrease. |
| StoryInput.FormatOneInXExamples | src/components/story-recorder/story-input.tsx:35-46 | 999, 1500, 2.5e6, 3.2e9 and 0.4 are shown as 1 in 999, 1.5k, 2.5 million, 3.2 billion and 1 in 0. |
| StoryInput.CombinedOdds | src/components/story-recorder/story-input.tsx:112 | The reduce that multiplies an event's odds, starting from 1. Specified by CombinedOddsAppend, CombinedOddsAtLeastOne and CombinedOddsAtLeastEach. |
| StoryInput.CombinedOddsAtLeastOne | src/components/story-recorder/story-input.tsx:111-113 | The product of an event's odds, starting from 1, is at least 1 when every condition's odds are. |
| StoryInput.CombinedOddsAppend | src/components/story-recorder/story-input.tsx:112 | The combined odds of two lists of conditions is the product of their combined odds. |
| StoryInput.CombinedOddsAtLeastEach | src/components/story-recorder/story-input.tsx:111-113 | When every condition's odds are at least 1, an event's combined odds are at least each condition's odds. |
| StoryInput.EventsProductIsCombinedOdds | src/components/story-recorder/story-input.tsx:111-113 | Multiplying the events' combined odds equals the combined odds of all conditions together. |
| StoryInput.BarWidth | src/components/story-recorder/story-input.tsx:160 | The bar is never wider than 100%. It is full exactly for odds between 0 and 1, positive for positive odds, and exactly 100/x percent for odds x of at least 1. Negative odds also give exactly 100/x, a negative width. |
| StoryInput.Toggled | src/components/story-recorder/story-input.tsx:104 | Clicking an event selects it if and only if it was not selected, and otherwise nothing is selected. |
| StoryInput.ToggledTwice | src/components/story-recorder/story-input.tsx:104 | Clicking the same event twice returns to the same expansion of that event. |
| StoryInput.AnalysisView.constructor | src/components/story-recorder/story-input.tsx:49 | The view shows the analysis it is given and starts with no event expanded. |
| StoryInput.AnalysisView.Show | src/components/story-recorder/story-input.tsx:219 | A new analysis replaces the shown one. The view stays mounted, so its selection is kept. |
| StoryInput.AnalysisView.Click | src/components/story-recorder/story-input.tsx:104 | A click flips whether that event is expanded and leaves every other event collapsed. The shown analysis is unchanged. |
| StoryInput.SelectionOutlivesAnalysis | src/components/story-recorder/story-input.tsx:219 | After expanding the third event of one analysis and then receiving an analysis with a single event, the view still marks index 2 as expanded although no such event exists. |
| StoryInput.IsBlank | src/components/story-recorder/story-input.tsx:200 | A story is blank when its trim is empty, that is, when it is all whitespace. |
| StoryInput.TextInput.constructor | src/components/story-recorder/story-input.tsx:194-197 | The form starts with an empty story, no request running, no analysis and no error. |
| StoryInput.TextInput.CanAnalyze | src/components/story-recorder/story-input.tsx:239 | The Analyze button is enabled when the story is not blank and no request is running. |
| StoryInput.TextInput.Edit | src/components/story-recorder/story-input.tsx:232 | Typing replaces the story and changes nothing else. |
| StoryInput.TextInput.Analyze | src/components/story-recorder/story-input.tsx:199-204 | A blank story sends nothing and changes nothing. Otherwise the story is sent, the spinner shows and the error clears. A request is sent exactly when the button was enabled. |
| StoryInput.TextInput.Receive | src/components/story-recorder/story-input.tsx:205-224 | The answer is settled with `Failed to analyze story` as the failure message, the spinner stops and the story is kept. |
| VoiceRecorder.PaddedSeconds | src/components/story-recorder/voice-recorder.tsx:187-188 | The seconds below 60, padded with zeros, are exactly two digits reading back to the seconds. |
| VoiceRecorder.FormatDuration | src/components/story-recorder/voice-recorder.tsx:185-189 | The display is the minutes, a colon and exactly two digits. The digits before the colon read back to seconds/60 and have no leading zero unless they are the single digit 0. The two after it read back to seconds mod 60. |
| VoiceRecorder.DurationRoundTrip | src/components/story-recorder/voice-recorder.tsx:185-189 | Reading the display back gives the number of seconds. |
| VoiceRecorder.FormatDurationInjective | src/components/story-recorder/voice-recorder.tsx:185-189 | Different durations are displayed differently. |
| VoiceRecorder.SecondsDigits | src/components/story-recorder/voice-recorder.tsx:187-188 | Seconds below 60, padded to two places, are the tens digit followed by the units digit. |
| VoiceRecorder.ShortDuration | src/components/story-recorder/voice-recorder.tsx:185-189 | A duration under ten minutes is shown as one minute digit, a colon, and the tens and units digits of the seconds. |
| VoiceRecorder.FormatDurationExamples | src/components/story-recorder/voice-recorder.tsx:185-189 | 0 and 75 seconds are shown as `0:00` and `1:15`. |
| VoiceRecorder.Controls | src/components/story-recorder/voice-recorder.tsx:196-252 | Start shows exactly when idle and Stop exactly when recording. Play, Record Again and Analyze show exactly when stopped. |
| VoiceRecorder.ControlsExclusive | src/components/story-recorder/voice-recorder.tsx:196-252 | Analyze never shows beside Start or Stop, and at most three controls show. |
| VoiceRecorder.FormatProbability | src/components/story-recorder/voice-recorder.tsx:62-67 | Values below 0.0001 are shown in exponential form, and all others as a percentage equal to the value times 100. |
| VoiceRecorder.OddsShownAsPercentAboveHundred | src/components/story-recorder/voice-recorder.tsx:75 | As written, any odds of at least 1 in 1 are shown as a percentage of at least 100. |
| VoiceRecorder.OddsShownAsPercentExample | src/components/story-recorder/voice-recorder.tsx:87 | As written, odds of 1 in 1000 are shown as 100000%. |
| VoiceRecorder.ChanceText | src/components/story-recorder/voice-recorder.tsx:62-67 | Corrected: odds are converted to the probability 1/x before formatting, and non-positive odds show nothing. |
| VoiceRecorder.ChanceTextIsProbability | src/components/story-recorder/voice-recorder.tsx:62-67 | Corrected: odds of at least 1 in 1 show a percentage in (0, 100], and use exponential form exactly beyond 1 in 10000. |
| VoiceRecorder.ChanceTextExample | src/components/story-recorder/voice-recorder.tsx:75 | Corrected: odds of 1 in 1000 are shown as 0.1%. |
| VoiceRecorder.Recorder.constructor | src/components/story-recorder/voice-recorder.tsx:99-102 | The recorder starts at zero seconds, idle, with no analysis and no error. |
| VoiceRecorder.Recorder.StartRecording | src/components/story-recorder/voice-recorder.tsx:129-134 | Starting resets the time and clears analysis and error before asking the library to start. |
| VoiceRecorder.Recorder.StopRecording | src/components/story-recorder/voice-recorder.tsx:136-138 | Stopping only asks the library to stop. |
| VoiceRecorder.Recorder.Restart | src/components/story-recorder/voice-recorder.tsx:140-145 | Record Again discards the recording, resets the time, and clears analysis and error. |
| VoiceRecorder.Recorder.Tick | src/components/story-recorder/voice-recorder.tsx:115-127 | Each second adds one to the time while recording, and nothing in any other status. |
| VoiceRecorder.Recorder.Analyze | src/components/story-recorder/voice-recorder.tsx:147-151 | With no recording URL (absent or empty) nothing happens. Otherwise the recording is uploaded, the spinner shows and the error clears. |
| VoiceRecorder.Recorder.Receive | src/components/story-recorder/voice-recorder.tsx:153-182 | The answer is settled with `Failed to analyze audio` as the failure message, and the spinner stops. |

## Left out

- The server route that calls the language model (`src/app/api/analyze/route.ts`) is not part of this model. Its answer is the `Outcome` parameter.
- Timers: the 750 ms debounce, the one-second recording interval and the library's status changes are modelled as events in the order they arrive (`DebounceElapsed`, `Tick`). Their timing is not modelled.
- AbortController is modelled by a request counter and a "live" flag. A response to an aborted request is ignored, as the `signal.aborted` checks do.
- The network, the blob fetch, FileReader's base64 conversion, the request headers and the API key are not modelled. A request is the value that would be sent.
- The recording library's own state machine (acquiring media, stopping, errors) is not modelled. Its status is a parameter, and `OtherStatus` stands for every status other than idle, recording and stopped.
- Play Recording opens the recording's URL in a new window. This is a browser call and is not modelled.
- Digit strings of `toFixed`, `toExponential` and `toLocaleString` are not modelled. `FormatOneInX` and `FormatProbability` return the exact value that would be printed, with its unit or form, before rounding to the printed digits.
- JsText.NatToString: it always gives the full decimal numeral. JavaScript switches to exponential form at 10^21 and cannot hold integers above 2^53 exactly; the status codes, minutes and seconds printed here are far below both.
- Numbers are exact reals. Floating-point rounding, `Infinity` and `NaN` are not modelled.
- City records whose name or country is present but is not a string are not modelled. A present name or country is a string, and a missing or empty one is not truthy.
- JsText.LowerChar and `JsText.Lower`: they map ASCII capitals and the two characters whose lower case matters to the city query. The rest of Unicode case mapping is left out; it only affects characters that `Strip` then removes.
- The popover's open state, the placeholder texts, the empty-list messages, the analysis view's animations and all markup are not modelled.
- AudioVisualizer's random bar heights are randomness and animation, and are not modelled.
- The page shell that switches between the voice and text tabs has no logic of its own and is not modelled.
- The multi-step form that hosts the city selector and receives the chosen city (`src/components/forms/multi-step-form/`) and the page (`src/app/page.tsx`) are not part of this model.

## Findings

| source | as written | input that shows it | evidently intended | confidence | as-written member | corrected member |
|---|---|---|---|---|---|---|
| src/components/forms/city-selector.tsx:131-148 | When the input changes, the effect's cleanup aborts the request in flight. The aborted request then skips its `finally`, which is the only place the spinner is turned off. The debounce's blank-input branch clears cities and error but not `isLoading`. | Type `paris`, wait for the search to start, then clear the box before it answers: "Searching cities..." stays on with no request live and no timer armed. | The blank-input branch also turns the spinner off. | medium; not executed | CitySelector.CitySearch.DebounceElapsedAsWritten, CitySelector.StuckSpinner | CitySelector.CitySearch.DebounceElapsed, CitySelector.NoStuckSpinner |
| src/components/story-recorder/voice-recorder.tsx:62-67 | `formatProbability` expects a probability, but lines 75 and 87 pass it odds (`finalOneInX`, `oneInX`), so it multiplies the odds by 100. | Odds of 1 in 1000 are shown as `Probability: 100000.00%`. | Show the probability 1/x, that is 0.10% for 1 in 1000. | high; not executed | VoiceRecorder.OddsShownAsPercentAboveHundred, VoiceRecorder.OddsShownAsPercentExample | VoiceRecorder.ChanceText, VoiceRecorder.ChanceTextIsProbability |
