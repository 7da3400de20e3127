# Travel companion widgets: a Dafny model

This project models the three pieces of sequential logic in a travel
companion's user interface:

- **Recommendation panel** (module `RecommendationPanel`, pure functions).
  It scales a straight-line distance by a transport-mode multiplier. It
  shows the result as whole metres below 1 km and as kilometres with one
  decimal from 1 km up. It decides what each card shows in its distance
  slot. It reads its heading from a four-language label table. The
  great-circle (haversine) distance is a function parameter `greatCircle`.
  `Math.round` and `toFixed(1)` are rounding over the reals, halves upward.
  The module `Decimal` models how JavaScript prints an integer, together
  with a reader that parses the text back.
- **Chat widget** (module `ContextualAssistant`, class `Widget`). It keeps
  four state fields: `isExpanded`, `messages`, `inputValue` and `isTyping`.
  A fifth field, `pendingReplies`, counts the bot replies scheduled with
  `setTimeout` and not yet delivered. The timer callback is the explicit
  step `DeliverReply`. The invariant `Valid()` says four things:
  - the greeting comes first;
  - the user messages number one less than the bot messages plus the
    pending replies;
  - the typing indicator is on only while a reply is pending;
  - a collapsed widget has never been touched.

  The greeting and the reply end in the characters the component's text
  actually holds: "ðŸ˜Š" (U+00F0 U+0178 U+02DC U+0160) and "ðŸŒŸ"
  (U+00F0 U+0178 U+0152 U+0178), emoji bytes read as Windows-1252.
- **Weather hook** (module `UseWeather`, pure table and class `WeatherHook`).
  `Math.random` becomes two parameters in [0, 1). The first chooses the
  condition and the second the temperature, as in the source. The hook's
  effect fetches only when both coordinates are truthy. A fetch sets
  `loading` and `error`, stores a simulated reading and clears `loading`.

Facts about the code that the model keeps:

- The label table has no fallback row. An unsupported language code finds
  no row, and reading the heading of the missing row throws a TypeError
  while the panel renders. `Panel` returns `None` for that failed render.
  English is used only when the language is omitted.
- A label row has five labels.
- A card's distance slot is empty when there is no user location. When the
  computed distance is exactly 0, the slot holds the number 0, which React
  prints as a bare "0" with no icon and no unit (see Findings).

## Model

| member | source | states |
|---|---|---|
| RecommendationPanel.Translations | src/components/RecommendationPanel.tsx:29-58 | a label row of five labels exists exactly for en, es, fr and de; any other code finds none |
| RecommendationPanel.ResolveLanguage | src/components/RecommendationPanel.tsx:60 | an omitted language becomes "en"; a supplied code is used as it is |
| RecommendationPanel.MultiplierTable | src/components/RecommendationPanel.tsx:75-79 | the table has an entry exactly for driving-car, cycling and foot-walking, and every entry is at least 1, so none is falsy |
| RecommendationPanel.ModeMultiplier | src/components/RecommendationPanel.tsx:80 | the multiplier lies in [1, 1.5] and is 1.2 for cycling, 1.5 for foot-walking and 1 exactly for every other mode, so an unknown mode never fails |
| RecommendationPanel.CalculateDistance | src/components/RecommendationPanel.tsx:72-80 | for a non-negative straight-line distance the result is between it and 1.5 times it; the result is 0 exactly when the straight-line distance is 0 |
| RecommendationPanel.ModeOrdering | src/components/RecommendationPanel.tsx:75-80 | foot-walking >= cycling >= driving-car, and driving-car and every unknown mode give the straight-line distance |
| RecommendationPanel.RoundHalfUp | src/components/RecommendationPanel.tsx:85 | the result is the integer nearest to x, with halves going up |
| Decimal.NatText | src/components/RecommendationPanel.tsx:85 | the text of a natural number is decimal digits with no leading zero |
| Decimal.NatTextRoundTrip | src/components/RecommendationPanel.tsx:85 | the decimal text of a natural number reads back to that number |
| Decimal.IntText | src/components/RecommendationPanel.tsx:85 | the text of an integer is its decimal digits, after a "-" when negative, and reads back to the integer, with no leading zero |
| RecommendationPanel.ToFixed1 | src/components/RecommendationPanel.tsx:87 | the text is digits, a point and one digit, and reads as the value rounded to the nearest tenth, with no leading zero in the whole part |
| RecommendationPanel.FormatDistance | src/components/RecommendationPanel.tsx:83-88 | the text always ends in "m"; it ends in "km" exactly when the distance is at least 1; below 1 the "m" follows a digit |
| RecommendationPanel.FormatMetres | src/components/RecommendationPanel.tsx:84-85 | below 1 km the text is a whole number of metres in [0, 1000] followed by "m"; every distance in [0.9995, 1) shows "1000m" |
| RecommendationPanel.FormatAccuracy | src/components/RecommendationPanel.tsx:83-88 | the text reads back to within 0.5 m below 1 km and within 0.05 km from 1 km on |
| RecommendationPanel.FormatExampleHalfKm | src/components/RecommendationPanel.tsx:84-85 | 0.5 km shows "500m" |
| RecommendationPanel.FormatExampleFiveMetres | src/components/RecommendationPanel.tsx:84-85 | 0.0049 km shows "5m" |
| RecommendationPanel.FormatExampleThousandMetres | src/components/RecommendationPanel.tsx:84-85 | 0.9996 km shows "1000m" |
| RecommendationPanel.FormatExamplesKilometres | src/components/RecommendationPanel.tsx:87 | 1.0 km shows "1.0km" and 19.46 km shows "19.5km" |
| RecommendationPanel.PlaceDistance | src/components/RecommendationPanel.tsx:105-112 | a distance exists exactly when the user location does; it is 0 exactly when the straight-line distance is 0, and never below a non-negative straight line |
| RecommendationPanel.CardFor | src/components/RecommendationPanel.tsx:105-147 | a card keeps its place; its slot is empty exactly without a user location, a bare "0" exactly when the straight-line distance is 0, and otherwise the formatted adjusted distance of this place, which reads back as a distance |
| RecommendationPanel.IntendedCardFor | src/components/RecommendationPanel.tsx:142-147 | the corrected card: empty slot exactly without a user location, never a bare "0", and otherwise the formatted adjusted distance of this place |
| RecommendationPanel.StrayZero | src/components/RecommendationPanel.tsx:142-147 | the code and the corrected card differ exactly at zero distance, where the code prints "0" and the corrected card "0m" |
| RecommendationPanel.Cards | src/components/RecommendationPanel.tsx:104-151 | one card per recommendation, the i-th card being the card for the i-th place |
| RecommendationPanel.Panel | src/components/RecommendationPanel.tsx:60-94 | the panel renders exactly when the resolved language has a label row; None is the render that throws |
| RecommendationPanel.PanelLanguage | src/components/RecommendationPanel.tsx:60-61 | an omitted language renders the English heading; a supplied unsupported code makes the render fail |
| RecommendationPanel.PanelCards | src/components/RecommendationPanel.tsx:104-151 | a rendered panel has as many cards as places, in input order; without a user location every distance slot is empty |
| ContextualAssistant.TrimStart | src/components/ContextualAssistant.tsx:81 | the result is a suffix of the input, what was cut is all white space, and it does not start with white space |
| ContextualAssistant.TrimEnd | src/components/ContextualAssistant.tsx:81 | the result is a prefix of the input, what was cut is all white space, and it does not end with white space |
| ContextualAssistant.Trim | src/components/ContextualAssistant.tsx:81 | the result is a piece of the input with only white space before and after it, and it neither starts nor ends with white space |
| ContextualAssistant.TrimEmptyIffBlank | src/components/ContextualAssistant.tsx:81 | the trimmed input is empty exactly when every character is white space |
| ContextualAssistant.CountByAppend | src/components/ContextualAssistant.tsx:83-89 | appending a message adds one to its sender's count and leaves the other sender's count alone |
| ContextualAssistant.Widget.constructor | src/components/ContextualAssistant.tsx:72-77 | collapsed, only the greeting (with its text exactly as the source holds it), empty input, not typing, nothing pending |
| ContextualAssistant.Widget.Expand | src/components/ContextualAssistant.tsx:185 | the widget is expanded afterwards; nothing else changes |
| ContextualAssistant.Widget.EditInput | src/components/ContextualAssistant.tsx:166 | the input becomes the new value; nothing else changes |
| ContextualAssistant.Widget.Send | src/components/ContextualAssistant.tsx:80-92 | blank input changes nothing; otherwise it appends one user message with the untrimmed text, clears the input, turns typing on and schedules one reply; old messages are a prefix of the new list |
| ContextualAssistant.Widget.KeyPress | src/components/ContextualAssistant.tsx:94-99 | Enter without Shift sends; any other key, and Shift+Enter, change nothing |
| ContextualAssistant.Widget.DeliverReply | src/components/ContextualAssistant.tsx:88-91 | appends exactly the canned bot reply (with its text exactly as the source holds it) and turns typing off, even while other replies are pending |
| UseWeather.Description | src/hooks/useWeather.ts:52-62 | the description reads back to its condition, so no two conditions share one |
| UseWeather.ConditionIndex | src/hooks/useWeather.ts:41-42 | for a draw in [0, 1) the index is in [0, 5], so it always names a condition |
| UseWeather.SimulatedTemperature | src/hooks/useWeather.ts:43 | for a draw in [0, 1) the temperature is in [10, 39] |
| UseWeather.Simulated | src/hooks/useWeather.ts:40-50 | a simulated reading has a temperature in [10, 39] and the description of its own condition |
| UseWeather.SimulatedCoversRange | src/hooks/useWeather.ts:40-50 | every temperature in [10, 39] and every condition can be simulated |
| UseWeather.WeatherHook.constructor | src/hooks/useWeather.ts:10-16 | 25 degrees, clear, "Sunny day", not loading, no error |
| UseWeather.WeatherHook.SimulateWeather | src/hooks/useWeather.ts:40-50 | stores the simulated reading and leaves loading and error alone |
| UseWeather.WeatherHook.BeginFetch | src/hooks/useWeather.ts:25-26 | loading becomes true and error null; the reading is unchanged |
| UseWeather.WeatherHook.EndFetch | src/hooks/useWeather.ts:35-36 | loading becomes false; error and reading are unchanged |
| UseWeather.WeatherHook.FetchWeather | src/hooks/useWeather.ts:24-38 | afterwards the reading is the simulated one, loading is false and error is null |
| UseWeather.WeatherHook.CoordinatesChanged | src/hooks/useWeather.ts:18-22 | fetches exactly when both coordinates are present and non-zero; otherwise every field is unchanged |

## Findings

| source | as written | input that shows it | evidently intended | confidence | as-written member | corrected member |
|---|---|---|---|---|---|---|
| src/components/RecommendationPanel.tsx:142-147 | `{distance && (...)}` evaluates to the number 0 when the computed distance is 0, and React prints it as a bare "0" with no icon or unit | a user location equal to a place's location (straight-line distance 0), any transport mode | show the distance whenever a user location is known, so "0m" | medium, not executed | RecommendationPanel.CardFor, RecommendationPanel.StrayZero | RecommendationPanel.IntendedCardFor |

`Cards` and `Panel` keep the card as the code renders it (`CardFor`), because
they describe what the panel puts on screen; `IntendedCardFor` is the
corrected card, and `StrayZero` proves that the two differ exactly at zero
distance.

## Left out

- The haversine formula (src/components/RecommendationPanel.tsx:63-72) is not modelled. It is floating-point trigonometry, so the straight-line distance is the parameter `greatCircle`, and its symmetry and zero-on-identical-points properties are not stated.
- IEEE-754 double behaviour is not modelled: ties in `Math.round` and `toFixed(1)` that depend on binary representation, `toFixed` switching to exponent notation from 1e21, and NaN. Numbers are reals, and rounding is floor(x + 1/2).
- Object-prototype keys are not modelled. In JavaScript a language code such as "constructor" or a mode such as "toString" finds an inherited member of the `translations` or `multipliers` object instead of nothing. In the model every code outside the tables finds nothing.
- The optional `distance` field of a recommendation is not modelled. The panel never reads it.
- Rendering, CSS, animations (`BotMascot`, `TypingIndicator`), icons, the `onClose` callback and the unused `useTranslation` hook are not modelled. They hold no statable logic.
- The 1500 ms delay and React's effect and state-update scheduling are not modelled. The reply callback and the effect are explicit steps.
- `ContextualAssistant.Widget.EditInput`, `Send` and `KeyPress` require an expanded widget, because the text area and the send button exist only in the expanded view.
- The `catch` branch of `fetchWeather` (src/hooks/useWeather.ts:31-34) is not modelled: `simulateWeather` cannot throw, and the branch only logs, sets an error text and simulates again.
- `Math.random` as a global generator is not modelled. Each draw is a parameter in [0, 1).
