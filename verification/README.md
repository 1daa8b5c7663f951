# ScanFit body-analysis pipeline, modelled in Dafny

ScanFit collects four body photos (front, back, right side, left side) and a
short profile (gender, age, weight, height, goal, optional fitness level,
weekly workouts and measurements) through a two-step onboarding form. It then
sends them to a vision model with one prompt and returns the model's JSON
assessment, with the BMI always computed locally.

This project models:

- the data model (`Types`: `Gender`, `Goal`, `FitnessLevel`, `UserPhotos`,
  `UserData`, `BodyAnalysis`);
- the request pipeline both entry points share (`Pipeline`): BMI and its
  one-decimal rounding, the goal lookup, the interpolated prompt fields, the
  five-part request, the reading of the reply and the merge that overwrites
  `bmi`;
- the server route `POST /api/analyze-body` (`AnalyzeBodyRoute.Post`): the
  presence guard, the key guard, and the mapping of errors to statuses;
- the client library `analyzeBodyPhotos` (`OpenAiClient.AnalyzeBodyPhotos`),
  which has no key check and one catch-all error;
- a lemma that both entry points send the same request and return the same
  object (`EntryPoints.SamePipeline`);
- the onboarding form as a class (`Onboarding.OnboardingForm`): photo uploads,
  field and measurement setters, the step switch and the submit guard. Storage
  writes and navigation are recorded in a ghost log.

Two outside pieces are function parameters of each entry point, so every
contract holds for any provider and any parser:

- the provider call, `ChatRequest -> ProviderOutcome`;
- `JSON.parse`, `string -> ParseOutcome`.

Each entry point also returns the call it made (`Option<Call>`). That is how
"no provider call" is stated. The key comes from the environment and is an
`Option<string>`.

JavaScript numbers are `Numbers.Number`: a finite real, a signed infinity, or
NaN. `Numbers.Truthy` is JavaScript truthiness on them. `toFixed(1)` is `Numbers.Round1`, defined over
the reals: nearest tenth, ties away from zero. No claim is made about IEEE
precision.

Four points where the code does less than one might expect:

- The 400 guard only checks that `photos` and `userData` are there. It does not
  check single views or fields. A missing view goes out as an absent image URL.
- A reply the parser cannot read is not a distinct error. It has no status, so
  it becomes the generic 500 with the parser's message.
- The form accepts any truthy age, weight or height, negative values included
  (`Onboarding.GuardAdmitsNegativeValues`). Only zero, NaN and unset are refused.
- There is no three-way "valid / missing fields / unparsable" reading of the
  reply. The result is passed through as it is, with `bmi` overwritten.
  `Pipeline.AsBodyAnalysis` only states when such an object has the
  `BodyAnalysis` shape.

## Model

| member | source | states |
|---|---|---|
| Numbers.Truthy | src/app/onboarding/page.tsx:35 | a number is falsy exactly when it is zero or NaN; the infinities are truthy |
| Numbers.Round1 | src/app/api/analyze-body/route.ts:38 | `toFixed(1)` rounding: the result is a whole number of tenths, within 0.05 of its input, and keeps its sign |
| Numbers.Round1Idempotent | src/app/api/analyze-body/route.ts:80 | the returned BMI already has one decimal: rounding it again changes nothing |
| Numbers.Round1Odd | src/app/api/analyze-body/route.ts:38 | rounding is symmetric in sign, as `toFixed` rounds the magnitude |
| Numbers.RoundNumber | src/app/api/analyze-body/route.ts:80 | `parseFloat(x.toFixed(1))` keeps finiteness and moves a finite value by at most 0.05 |
| Types.GenderFromCode | src/lib/types.ts:3 | exactly "male" and "female" are genders, and each reads back to its own spelling |
| Types.GoalFromCode | src/lib/types.ts:4 | exactly the four goal codes are goals, and each reads back to its own code |
| Types.GoalCodesExact | src/lib/types.ts:4 | there are exactly four goal codes, one per goal, all distinct |
| Types.FitnessLevelFromCode | src/lib/types.ts:5 | exactly "beginner", "intermediate" and "advanced" are fitness levels, each reading back to its spelling |
| Types.AllPositionsIsEnumeration | src/lib/types.ts:7-12 | the four views, each listed exactly once |
| Pipeline.OrElse | src/app/api/analyze-body/route.ts:110 | JavaScript's logical or on a string: a present, non-empty string wins, otherwise the fallback |
| Pipeline.FromUserPhotos | src/lib/openai.ts:9 | a complete photo record has every view present, with its own value |
| Pipeline.BodyMassIndex | src/app/api/analyze-body/route.ts:28-29 | BMI is finite exactly when the height is non-zero; then BMI × (height/100)² = weight, and BMI is positive for a positive weight |
| Pipeline.LocalBmi | src/app/api/analyze-body/route.ts:28-29 | a missing weight or height gives a non-finite BMI; otherwise the BMI of the two |
| Pipeline.RoundedBmi | src/lib/openai.ts:12-13 | the one-decimal BMI used in both the prompt and the result is `Round1` of the local BMI |
| Pipeline.BmiExample | src/app/api/analyze-body/route.ts:28-38 | 70 kg at 175 cm gives 22.9 |
| Pipeline.GoalText | src/app/api/analyze-body/route.ts:124-132 | the intended lookup: a goal code maps to its fixed phrase, any other string comes back unchanged (the code as written differs for the names inherited from `Object.prototype`, see Findings) |
| Pipeline.GoalPhrasesDistinct | src/lib/openai.ts:72-80 | each goal code gets its own phrase, and different goals get different phrases |
| Pipeline.GoalTextAsWritten | src/app/api/analyze-body/route.ts:131 | the lookup as written also finds members inherited from `Object.prototype`, and otherwise agrees with `GoalText` |
| Pipeline.GoalTextAsWrittenMissesPassthrough | src/app/api/analyze-body/route.ts:131 | "toString" is not a goal code, yet the lookup as written does not return it unchanged; `GoalText` does |
| Pipeline.SexLabel | src/app/api/analyze-body/route.ts:34 | "Masculino" exactly for `'male'`, "Feminino" for every other value |
| Pipeline.SexLabelCoversGender | src/lib/openai.ts:18 | with two genders the binary test shows each gender by its own label |
| Pipeline.BuildPrompt | src/app/api/analyze-body/route.ts:33-39 | the prompt shows the rounded BMI, the gender label, the goal phrase (absent goal stays absent) and the raw age, weight and height |
| Pipeline.BuildRequest | src/app/api/analyze-body/route.ts:58-74 | one text part, then an image part for each view in the order front, back, sideRight, sideLeft; model gpt-4o, `json_object` format, 1500 tokens |
| Pipeline.ViewsOf | src/lib/openai.ts:47-53 | a request yields views exactly when it has five parts, a text part first and four image parts after it; the views are the image parts in send order |
| Pipeline.RequestRoundTrip | src/lib/openai.ts:42-58 | the views are recovered from the request by position alone, and its text part is the prompt |
| Pipeline.BuildRequestInjective | src/app/api/analyze-body/route.ts:64-68 | two different sets of views never produce the same request |
| Pipeline.ContentText | src/app/api/analyze-body/route.ts:76 | missing or empty content is read as `'{}'`; otherwise the content itself |
| Pipeline.Merge | src/app/api/analyze-body/route.ts:78-81 | the result has the model's keys plus `bmi`; `bmi` is the local value; every other key is unchanged |
| Pipeline.MergeIgnoresModelBmi | src/lib/openai.ts:62-65 | whatever `bmi` the model sent, or none, the merged result is the same |
| Pipeline.CompleteAnalysis | src/lib/openai.ts:41-65 | a provider error is rethrown as it is; success exactly when the reply parses; then the merged object; a parse error is thrown without a status |
| Pipeline.EmptyContentGivesBmiOnly | src/lib/openai.ts:60 | with no content the result is `{bmi}` alone |
| Pipeline.PromptedKeysAndBmiAreAnalysisKeys | src/app/api/analyze-body/route.ts:48-55 | the five keys the prompt text asks for (the constant `PromptedKeys`, since the prompt text itself is not modelled) plus `bmi` are exactly the `BodyAnalysis` keys |
| Pipeline.StringsOf | src/lib/types.ts:37 | a JSON array reads as a list of strings exactly when every item is a string, item by item |
| Pipeline.StringValues | src/lib/types.ts:37 | a list of strings written as JSON strings, item by item |
| Pipeline.StringsOfStringValues | src/lib/types.ts:37 | reading back a written list of strings gives the same list |
| Pipeline.AsBodyAnalysis | src/lib/types.ts:32-39 | an object reads as a `BodyAnalysis` exactly when the six keys are present with their declared types (finite numbers, strings, an array of strings); the value read writes back to the object's entries for those keys |
| Pipeline.AnalysisObject | src/lib/types.ts:32-39 | a `BodyAnalysis` written as an object has exactly the six keys |
| Pipeline.AnalysisObjectRoundTrip | src/lib/types.ts:32-39 | writing a `BodyAnalysis` as an object and reading it back gives the same value |
| Pipeline.MergedReplyIsBodyAnalysis | src/app/api/analyze-body/route.ts:76-81 | when the model returns the five prompted fields with the right types, the result is a `BodyAnalysis` with the local BMI and the model's other values |
| AnalyzeBodyRoute.KeyConfigured | src/app/api/analyze-body/route.ts:17 | the key guard stops the route exactly when the variable is unset or the empty string |
| AnalyzeBodyRoute.ErrorResponse | src/app/api/analyze-body/route.ts:83-112 | 401 → 401, 429 → 429, 500 → 500, each with its fixed message; any other error → 500 with its own message or the default |
| AnalyzeBodyRoute.Post | src/app/api/analyze-body/route.ts:4-122 | unreadable body → 500; 400 exactly when either object is missing; then missing key → 500; neither makes a call; otherwise one call with the shared request; 200 exactly when the reply parses, with the merged object and local BMI; other failures classified by `ErrorResponse` |
| AnalyzeBodyRoute.PromptAndResultShareBmi | src/app/api/analyze-body/route.ts:38-80 | on success the BMI in the response equals the BMI shown in the prompt |
| AnalyzeBodyRoute.MalformedReplyIsGeneric500 | src/app/api/analyze-body/route.ts:76-112 | a reply the parser cannot read gives 500 with the parser's message |
| AnalyzeBodyRoute.WorkedScenario | src/app/api/analyze-body/route.ts:28-81 | a 60 kg, 165 cm user gets status 200, the model's fields unchanged, and `bmi` 22.0 |
| OpenAiClient.AsUserDataInput | src/lib/openai.ts:10 | the library's user-data parameter has all five fields present |
| OpenAiClient.ClientKey | src/lib/openai.ts:3-6 | the client key is the environment value, or the empty string when unset |
| OpenAiClient.AnalyzeBodyPhotos | src/lib/openai.ts:8-70 | always calls, with the shared request and the key or ""; returns the merged object with the local BMI exactly when the reply parses; otherwise throws one fixed message |
| OpenAiClient.FailuresIndistinguishable | src/lib/openai.ts:66-69 | any two provider failures end in the same thrown error |
| EntryPoints.SamePipeline | src/lib/openai.ts:41-65 | with a configured key the route and the library send the same call, and succeed together with the same object |
| EntryPoints.MissingKeyOnlyStopsTheRoute | src/lib/openai.ts:3-6 | without a key the route makes no call, while the library calls with the empty key |
| Onboarding.HasPhoto | src/app/onboarding/page.tsx:30 | a view passes exactly when it has an entry that is neither null nor the empty string |
| Onboarding.PhotosComplete | src/app/onboarding/page.tsx:30 | the four named checks are a check of every view, and whatever passes them has four keys and so passes the step guard |
| Onboarding.CompletePhotos | src/app/onboarding/page.tsx:30-33 | the photos form a full `UserPhotos` exactly when every view is truthy; its views are the uploaded values |
| Onboarding.FourViewsAreEvery | src/app/onboarding/page.tsx:30 | checking the four views by name is checking every view |
| Onboarding.FourKeysIffAllUploaded | src/app/onboarding/page.tsx:146 | four keys exactly when every view has an entry |
| Onboarding.StepGuardWeakerThanSubmitGuard | src/app/onboarding/page.tsx:146 | four entries whose reads failed pass the step guard and fail the submit guard |
| Onboarding.RequiredPresent | src/app/onboarding/page.tsx:35 | gender and goal set; age, weight and height each refused exactly when unset, zero or NaN |
| Onboarding.MeasurementsOf | src/lib/types.ts:22-29 | each of the six measurements is the form's value for that name, or absent |
| Onboarding.CompleteUserData | src/app/onboarding/page.tsx:35-38 | the form data form a full `UserData` exactly when the data guard passes, with the entered truthy values, fitness level and weekly workouts as entered, and the entered measurements as `MeasurementsOf` the form's map |
| Onboarding.GuardAdmitsNegativeValues | src/app/onboarding/page.tsx:35 | negative values pass the guard; zero, NaN or unset do not |
| Onboarding.Updated | src/app/onboarding/page.tsx:179-263 | each field handler replaces its own field and keeps the measurements and every other field |
| Onboarding.WithMeasurement | src/app/onboarding/page.tsx:288-317 | setting a measurement sets that one, keeps the others, and changes no other field |
| Onboarding.MeasurementsDoNotAffectGuard | src/app/onboarding/page.tsx:288-317 | setting a measurement never changes the submit guard's verdict on data |
| Onboarding.SubmitVerdict | src/app/onboarding/page.tsx:29-38 | photos are checked first, then data; submission passes exactly when both form full records, and only with four photo keys |
| Onboarding.AlertText | src/app/onboarding/page.tsx:31-36 | each refusal shows an alert and a success shows none |
| Onboarding.OnboardingForm.constructor | src/app/onboarding/page.tsx:16-19 | step 1, no photos, empty data, not loading, nothing stored |
| Onboarding.OnboardingForm.SetPhoto | src/app/onboarding/page.tsx:24 | only the uploaded view's entry changes |
| Onboarding.OnboardingForm.SetField | src/app/onboarding/page.tsx:179-263 | the data become `Updated` of the old data |
| Onboarding.OnboardingForm.SetMeasurement | src/app/onboarding/page.tsx:288-317 | the data become `WithMeasurement` of the old data |
| Onboarding.OnboardingForm.ContinueFromPhotos | src/app/onboarding/page.tsx:145-151 | step 2 exactly when every view has an entry, otherwise the step is unchanged |
| Onboarding.OnboardingForm.Back | src/app/onboarding/page.tsx:328 | step becomes 1 |
| Onboarding.OnboardingForm.Submit | src/app/onboarding/page.tsx:29-47 | the result is `SubmitVerdict`; a refusal changes neither `loading` nor the log; a pass sets `loading` and logs the photos store, the user-data store and navigation to `/analysis`, in that order; `loading` stays set exactly when the page has moved on, and every move on follows the two writes |

## Left out

- The provider SDK and its client construction are function parameters. So are the model, the network, timeouts and the request ID.
- `JSON.parse` is a function parameter. A reply that parses to a non-object (a number, an array, a string) is not modelled; spreading such a value differs from spreading an object.
- The request body's `JSON.parse` is modelled by `RequestBody`. Field values of JSON types other than those declared (a numeric string for `height`, `null`) are not modelled.
- IEEE floating point: BMI is over the reals. A zero height is the only non-finite case; underflow is not modelled. Serialising NaN and the infinities as `null` in the response is not modelled either.
- The fixed Portuguese prompt text. Only the interpolated fields are modelled; the keys it asks for are the constant `Pipeline.PromptedKeys`.
- OpenAiClient.AnalyzeBodyPhotos: age, weight and height are finite reals (`ProfileInput`), while the TypeScript `number` parameter also admits NaN and the infinities; no modelled file calls the library.
- A reply without a first choice, which throws a `TypeError` in the source, is not modelled: the reply always carries the first choice's content.
- `console.error` logging, async scheduling, and the environment lookup; the key is an input.
- Onboarding: `FileReader`, `alert` (returned as `SubmitResult` with `AlertText`), React rendering, the disabled state of the submit button, and parsing of the number inputs. Setters receive the parsed `Number`.
- Pipeline.BuildPrompt, AnalyzeBodyRoute.Post, OpenAiClient.AnalyzeBodyPhotos: the goal goes through the corrected `GoalText`. For a goal named like a member of `Object.prototype` (such as "toString") the source interpolates that inherited member instead; `GoalTextAsWritten` models that lookup (see Findings).
- Onboarding.OnboardingForm.SetMeasurement: accepts all six names of `Measurements`, while the page only has inputs for chest, waist and hips (src/app/onboarding/page.tsx:288-317).
- Onboarding.CompleteUserData: an infinite age, weight or height is truthy and passes the guard, as in the source. Whether a number input can produce one depends on the browser and is not modelled.
- `UserProfile` (src/lib/types.ts:41-47) holds a `Date` and is not used by the core.
- The landing page and the analysis page are not part of this model.

## Findings

| source | as written | input that shows it | evidently intended | confidence | as-written member | corrected member |
|---|---|---|---|---|---|---|
| src/app/api/analyze-body/route.ts:131 | the lookup-or-fallback expression looks the goal up on a plain object literal, so names inherited from `Object.prototype` are found and are truthy (same at src/lib/openai.ts:79) | goal `"toString"`: a function is interpolated into the prompt instead of the string `"toString"` | an unknown goal is returned unchanged | not executed; medium | Pipeline.GoalTextAsWrittenMissesPassthrough | Pipeline.GoalText |
