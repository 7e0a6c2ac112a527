# Skin Genie: a Dafny model of the analysis core

Skin Genie is a web application. The user captures a photo of their face. The
server "analyses" it and returns the skin conditions it detected, plus the
treatments recommended for them. This project models four parts of it:

- **The in-memory repository (`MemStorage`).** It holds four tables keyed by
  auto-increment ids: users, skin conditions, treatments and
  condition/treatment links. It is seeded at construction with five
  conditions, five treatments and eight links. Queries include the join
  "treatments for a condition". Model: `storage.dfy`, over a JavaScript `Map`
  modelled as an insertion-ordered entry list (`insertion_map.dfy`).
- **The simulated analysis (`simulateAnalysis`).**
  - It draws a primary condition from the repository and, on a coin flip, a
    different secondary one.
  - Each gets an integer confidence and the first of its comma-separated
    locations, trimmed.
  - Every treatment linked to a detected condition is then recommended once,
    in first-seen order, with its tags split at commas.
  - Model: `skin_analysis.dfy`, with the string operations in `text.dfy`.
- **The client store (`useAppStore`).** It holds the wizard step, the captured
  image, and the state of one analysis run: four progress steps with
  statuses, a percentage and the result. Model: `app_store.dfy`.
- **The wizard page (`Home`).** It has five handlers that drive the store, and
  the conditions under which it renders each panel and button. Model:
  `home.dfy`.

`Math.random()` is modelled as its 53-bit numerator, a `Random` in
[0, 2^53). The caller passes the five draws of one analysis in as `Draws`.
`Math.floor(Math.random() * n)` is modelled as `Pick(r, n)`, the integer part
of the exact product r * n / 2^53. The source multiplies in double precision,
and the rounded product can reach the next integer (see "Left out"). The
lemmas show that `Pick(r, n)` is always a valid index and that every index
can be drawn.

The model makes two observations about the code as written:

- **The primary confidence tops out at 94, not 95.** It is
  `75 + Math.floor(Math.random() * 20)`, which is at most 94, although the
  comment beside it says "75-95%". The secondary confidence is 55..74.
  `ChosenBounds` proves the ranges the code produces.
- **Step two shows as completed before it starts.** The first
  `updateStep("detect-face", 20)` marks "analyze-texture" completed while
  "detect-face" is only in progress. A failed request leaves the steps at
  completed, completed, in progress, pending. `RunStatuses` states the whole
  trace.

## Model

| member | source | states |
|---|---|---|
| InsertionMap.Get | storage.ts:69-71 | `map.get(k)` returns a value exactly when an entry holds key k, and that entry is in the map |
| InsertionMap.Set | storage.ts:82 | `map.set` appends when the key is new and otherwise replaces that entry in place (same position, same length); afterwards `get(k)` is the new value and every other key reads as before |
| InsertionMap.GetNumbered | storage.ts:69-71 | with keys numbered consecutively from `first`, `get(k)` is the entry at position k - first, and absent outside that range |
| InsertionMap.Values | storage.ts:92 | `Array.from(map.values())`: the values in insertion order (no contract; used by the getters below) |
| InsertionMap.NextKeyIsFresh | storage.ts:80-82 | the counter's next id is not yet a key, so `set` appends |
| Text.Split | skinAnalysis.ts:108 | `split(',')` gives one more piece than there are commas, no piece holds a comma, and joining the pieces with commas gives back the input |
| Text.SplitFirst | skinAnalysis.ts:71 | the first piece of `split(',')` is the longest comma-free prefix: the whole string, or the text before the first comma |
| Text.TrimStart | skinAnalysis.ts:71 | the result is a suffix of the input, everything dropped is whitespace, and it does not start with whitespace |
| Text.TrimEnd | skinAnalysis.ts:71 | the result is a prefix of the input, everything dropped is whitespace, and it does not end with whitespace |
| Text.Trim | skinAnalysis.ts:71 | `trim()` is a middle slice of the input with only whitespace around it, and neither of its ends is whitespace |
| Storage.FindByUsername | storage.ts:74-76 | `find` returns nothing exactly when no user has the name; otherwise it returns the first user in table order with that name |
| Storage.LinksFor | storage.ts:124-126 | `filter` keeps exactly the links of the condition and keeps them in id order; an id no link names gives no links |
| Storage.TreatmentIdsOf | storage.ts:138 | `relationships.map(rel => rel.treatmentId)` (no contract; its meaning is stated by `TreatmentsForCondition`) |
| Storage.TreatmentsWithIds | storage.ts:139-141 | `filter` with `includes` keeps exactly the treatments whose id is listed, in id order; an empty id list gives nothing |
| Storage.TreatmentsForCondition | storage.ts:136-142 | the join holds exactly the treatments that some link of the condition points at, in id order; it is empty when no link names the condition |
| Storage.TreatmentsDeterminedByMembers | storage.ts:139-141 | two id-increasing treatment lists with the same members are equal, so a join is determined by which treatments it holds |
| Storage.JoinMatches | storage.ts:136-142 | an id-increasing list holding exactly the linked treatments is the join |
| Storage.SeededTreatmentIds | storage.ts:189-231 | the five seeded treatments get ids 1..5 in the order listed |
| Storage.SeedJoin | storage.ts:233-243 | over the seeded links, acne (1) joins treatments 1, 2 and 5; eczema (2) joins 3 and 4, in table order although its links list 4 first; an unknown condition joins nothing |
| Schema.InsertUser.WithId | storage.ts:81 | `{ ...insertUser, id }`: the row with the id added (no contract; `CreateUser` states its use) |
| Schema.InsertSkinCondition.WithId | storage.ts:97 | `{ ...insertCondition, id }`: the row with the id added (no contract; `CreateSkinCondition` states its use) |
| Schema.InsertTreatment.WithId | storage.ts:113 | `{ ...insertTreatment, id }`: the row with the id added (no contract; `CreateTreatment` states its use) |
| Schema.InsertConditionTreatment.WithId | storage.ts:131 | `{ ...insertRelationship, id }`: the row with the id added (no contract; `CreateConditionTreatment` states its use) |
| Storage.MemStorage.constructor | storage.ts:51-66 | a new repository is consistent (ids equal keys 1..n, each counter one past its table) and holds no users plus the seeded rows numbered from 1; the counters stand at 1, 6, 6 and 9 |
| Storage.MemStorage.SeededQueries | storage.ts:145-248 | after seeding there are five conditions and treatments 1..5; condition 1 joins treatments 1, 2, 5; condition 2 joins 3, 4; condition 999 joins none |
| Storage.MemStorage.GetUser | storage.ts:69-71 | a user is found exactly for ids 1 up to the counter, and carries the id asked for |
| Storage.MemStorage.GetUserByUsername | storage.ts:73-77 | nothing is found exactly when no stored user has the name; otherwise the found user has the name, is stored under its id, and no lower id has the name |
| Storage.MemStorage.CreateUser | storage.ts:79-84 | the new user gets the current counter as id and is appended; the counter rises by one; every other id reads as before; the other tables are untouched |
| Storage.MemStorage.GetSkinCondition | storage.ts:87-89 | a condition is found exactly for ids 1 up to the counter, and carries the id asked for |
| Storage.MemStorage.GetAllSkinConditions | storage.ts:91-93 | all stored conditions, numbered 1, 2, ... in insertion order, each the one found under its id |
| Storage.MemStorage.CreateSkinCondition | storage.ts:95-100 | the new condition gets the current counter as id and is appended; the counter rises by one; every other id reads as before; the other tables are untouched |
| Storage.MemStorage.GetTreatment | storage.ts:103-105 | a treatment is found exactly for ids 1 up to the counter, and carries the id asked for |
| Storage.MemStorage.GetAllTreatments | storage.ts:107-109 | all stored treatments, numbered 1, 2, ... in insertion order, each the one found under its id |
| Storage.MemStorage.CreateTreatment | storage.ts:111-116 | the new treatment gets the current counter as id and is appended; the counter rises by one; every other id reads as before; the other tables are untouched |
| Storage.MemStorage.GetConditionTreatment | storage.ts:119-121 | a link is found exactly for ids 1 up to the counter, and carries the id asked for |
| Storage.MemStorage.GetConditionTreatmentsByCondition | storage.ts:123-127 | exactly the stored links of the condition, in increasing id order |
| Storage.MemStorage.CreateConditionTreatment | storage.ts:129-134 | the new link gets the current counter as id and is appended; the counter rises by one; every other id reads as before; the other tables are untouched |
| Storage.MemStorage.GetTreatmentsForCondition | storage.ts:136-142 | exactly the stored treatments that a stored link of the condition points at, each once and in id order; an id no link names gives none |
| Storage.MemStorage.CreateSkinConditions | storage.ts:184-186 | `forEach(create)` appends the rows in order, numbered from the counter, and touches no other table |
| Storage.MemStorage.SeedSkinConditions | storage.ts:145-187 | the five literal conditions are appended in order, numbered from the counter |
| Storage.MemStorage.CreateTreatments | storage.ts:228-230 | `forEach(create)` appends the rows in order, numbered from the counter, and touches no other table |
| Storage.MemStorage.SeedTreatments | storage.ts:189-231 | the five literal treatments are appended in order, numbered from the counter |
| Storage.MemStorage.CreateConditionTreatments | storage.ts:245-247 | `forEach(create)` appends the rows in order, numbered from the counter, and touches no other table |
| Storage.MemStorage.SeedConditionTreatments | storage.ts:233-248 | the eight literal links are appended in order, numbered from the counter |
| SkinAnalysis.Pick | skinAnalysis.ts:64 | `Math.floor(Math.random() * n)` is an index below n whenever n > 0 |
| SkinAnalysis.PickIsFloor | skinAnalysis.ts:64 | the pick is the integer part of r * n / 2^53 |
| SkinAnalysis.PickReachesEvery | skinAnalysis.ts:64 | every index below n is drawn by some random value, so no condition is out of reach |
| SkinAnalysis.CoinAbove | skinAnalysis.ts:79 | `Math.random() > 0.5`, that is 2r > 2^53 (no contract; a definition) |
| SkinAnalysis.FirstLocation | skinAnalysis.ts:71 | `split(',')[0].trim()` is the text before the first comma (or all of it), with only whitespace removed around it, and neither end is whitespace |
| SkinAnalysis.Detect | skinAnalysis.ts:67-74 | the pushed record describes its condition (same id, name, description, severity, first location) and carries the given confidence |
| SkinAnalysis.WithoutId | skinAnalysis.ts:80 | `filter(c => c.id !== id)` keeps exactly the conditions with another id, and changes nothing when none has the id (its table order on the numbered table is `WithoutStoredId`) |
| SkinAnalysis.WithoutStoredId | skinAnalysis.ts:80-81 | in a table numbered 1, 2, ..., removing a stored id leaves exactly the conditions before and after it, in table order, so the secondary draw indexes that list and another condition remains exactly when the table holds two or more |
| SkinAnalysis.Recommend | skinAnalysis.ts:103-109 | the pushed entry copies id, name, description and level, and its tags are the comma pieces of the treatment's tags, which join back to them |
| SkinAnalysis.HasId | skinAnalysis.ts:102 | `treatments.some(t => t.id === id)` (no contract; a definition) |
| SkinAnalysis.AddNewProperties | skinAnalysis.ts:100-111 | the inner loop only appends, keeps ids unique, adds only entries for its treatments, and leaves every one of its treatments' ids present |
| SkinAnalysis.AddNewFresh | skinAnalysis.ts:100-111 | a list of new, increasing ids is appended whole and in order |
| SkinAnalysis.GatherPrefix | skinAnalysis.ts:97-112 | each turn of the outer loop only appends to what the earlier turns produced |
| SkinAnalysis.GatherUnion | skinAnalysis.ts:96-112 | the gathered list has unique ids; each entry recommends a treatment of some list, and every treatment of every list has its id present |
| SkinAnalysis.PrimaryFirst | skinAnalysis.ts:96-112 | the first condition's treatments, in id order, open the recommendations |
| SkinAnalysis.GatheredFromStorage | skinAnalysis.ts:96-112 | every treatment the repository joins to a detected condition has its id among the recommendations, and every recommendation is that of such a treatment |
| SkinAnalysis.Chosen | skinAnalysis.ts:63-93 | what the first half draws: one or two conditions; the first describes the drawn condition with confidence 75 + a draw below 20; a second exists exactly when the coin is above one half and the table holds two or more, and it describes the draw from the other conditions with confidence 55 + a draw below 20 (a definition) |
| SkinAnalysis.ChosenBounds | skinAnalysis.ts:72-92 | a chosen primary has confidence 75..94; a chosen secondary is another stored condition with a different id and confidence 55..74 |
| SkinAnalysis.ChooseConditions | skinAnalysis.ts:60-93 | the conditions pushed are exactly `Chosen` from the table and the draws |
| SkinAnalysis.PushNew | skinAnalysis.ts:100-111 | the inner loop computes the `AddNew` fold: each treatment is pushed unless its id is already present |
| SkinAnalysis.CollectTreatments | skinAnalysis.ts:96-112 | the outer loop computes the `Gather` fold over each detected condition's join, in detection order |
| SkinAnalysis.SimulateAnalysis | skinAnalysis.ts:58-118 | the detected conditions are exactly `Chosen` from the stored conditions and the draws, with the bounds of `ChosenBounds`; recommendations with unique ids; every treatment joined to a detected condition recommended; nothing else recommended; the primary condition's treatments first |
| AppStore.InitialSteps | useAppStore.ts:47-52 | the four steps detect-face, analyze-texture, identify-conditions, generate-recommendations with their labels, all pending (no contract; a constant) |
| AppStore.HasImage | useAppStore.ts:58 | `capturedImage` is truthy: present and not the empty string (no contract; a definition) |
| AppStore.WithStatus | useAppStore.ts:64 | mapping every step to one status keeps ids and labels, and every status becomes that one |
| AppStore.UpdateStatuses | useAppStore.ts:69-80 | `updateStep`: the named step becomes in progress; detect-face and analyze-texture, if not named, become completed; the others are unchanged; ids and labels are kept |
| AppStore.CompleteStatuses | useAppStore.ts:82-93 | `completeStep`: the named step and the first three become completed; otherwise generate-recommendations becomes in progress; ids and labels are kept |
| AppStore.RunStatuses | useAppStore.ts:95-120 | the status trace of a run: pending ×4, then [in progress, completed, pending, pending], [completed, in progress, pending, pending], [completed, completed, in progress, pending], [completed ×3, in progress], and finally completed ×4 |
| AppStore.AppStore.constructor | useAppStore.ts:32-53 | the initial state: step 1, no image, not running, not complete, progress 0, the four steps pending, no result |
| AppStore.AppStore.SetCurrentStep | useAppStore.ts:35 | sets the step to any value given, and nothing else |
| AppStore.AppStore.NextStep | useAppStore.ts:36 | the step rises by one with no upper bound, and nothing else changes |
| AppStore.AppStore.PrevStep | useAppStore.ts:37 | the step falls by one but never below 1, and nothing else changes |
| AppStore.AppStore.SetCapturedImage | useAppStore.ts:41 | stores the image as given, and nothing else changes |
| AppStore.AppStore.BeginAnalysis | useAppStore.ts:60-66 | marks the run under way and clears completion, progress, statuses and result |
| AppStore.AppStore.UpdateStep | useAppStore.ts:69-80 | adds the increment to the progress and applies `UpdateStatuses`, and nothing else changes |
| AppStore.AppStore.CompleteStep | useAppStore.ts:82-93 | adds the increment to the progress and applies `CompleteStatuses`, and nothing else changes |
| AppStore.AppStore.FinishAnalysis | useAppStore.ts:114-120 | progress 100, complete, not running, the result stored, every step completed |
| AppStore.AppStore.FailAnalysis | useAppStore.ts:121-127 | not running and progress 0; statuses, completion and result stay as they were |
| AppStore.AppStore.StartAnalysis | useAppStore.ts:56-128 | without an image nothing changes; on a response the run ends complete with progress 100, the result and all steps completed; on a failure it ends not running, not complete, progress 0, no result, statuses [completed, completed, in progress, pending]; the ghost trace of progress and statuses after each segment is 20 [in progress, completed, pending, pending], 40 [completed, in progress, pending, pending], 60 [completed, completed, in progress, pending] and, on a response, 80 [completed ×3, in progress]; the store stays consistent |
| AppStore.AppStore.ResetAnalysis | useAppStore.ts:130-135 | clears completion, progress and result and sets every step pending; the wizard step, the image and the running flag stay |
| Home.CapturePanelShown | Home.tsx:128 | the capture panel renders on step 1 (no contract; a guard used by the handlers' contracts) |
| Home.ContinueDisabled | Home.tsx:144 | Continue is disabled while no image is held (no contract; a guard) |
| Home.AnalysisPanelShown | Home.tsx:158 | the analysis panel renders on step 2 (no contract; a guard) |
| Home.ProgressShown | Home.tsx:177 | on the analysis panel (step 2), the spinner and progress render while a run is under way (no contract; the inner guard, conjoined with `AnalysisPanelShown` where used) |
| Home.ViewResultsOffered | Home.tsx:214 | on the analysis panel (step 2), View Results renders when not running and complete (no contract; the inner guard, conjoined with `AnalysisPanelShown` where used) |
| Home.ResultsPanelShown | Home.tsx:231 | the results panel renders on step 3 with a result (no contract; a guard) |
| Home.TreatmentIcon | Home.tsx:280 | flask, book, drops by `index % 3` (no contract; `TreatmentIconCycle` states its properties) |
| Home.ConditionCards | Home.tsx:254-262 | one card per detected condition, in order; only the first is marked primary |
| Home.TreatmentIconCycle | Home.tsx:280 | treatment icons repeat every three entries, and neighbouring entries never share one |
| Home.HandleCapture | Home.tsx:38-44 | the captured image is stored as given, the "Image captured!" notice is shown, and nothing else changes |
| Home.HandleProceedToAnalysis | Home.tsx:47-58 | without an image only the destructive notice is shown; with one, the wizard moves on a step, the spinner ends hidden, and View Results is offered exactly when the request succeeded, with the result, progress 100 and every step completed (or no result, progress 0, and steps completed, completed, in progress, pending) |
| Home.HandleViewResults | Home.tsx:61-63 | one step on and nothing else; from the analysis panel with View Results offered, the results panel is shown |
| Home.HandleBackToCapture | Home.tsx:66-69 | back to the capture panel with the analysis reset; the image is kept, so Continue is enabled exactly as before; View Results is no longer offered |
| Home.HandleBackToAnalysis | Home.tsx:72-74 | back to the analysis panel with all analysis state untouched, so View Results is offered exactly as before |

## Left out

- The TensorFlow model and `analyzeImage` (skinAnalysis.ts:1-55). The model is built but never used. `analyzeImage` strips the data-URL prefix, decodes the base64 text it never reads, and returns the result of `simulateAnalysis`, rethrowing any failure as "Failed to analyze image". Only `simulateAnalysis` is modelled.
- `Math.random()` is taken as a multiple of 2^-53 in [0, 1); its generator is not modelled, and the caller supplies the draws.
- JavaScript numbers are unbounded integers here. Ids, counters and progress never come near 2^53.
- `setTimeout` waits, `await`, and `apiRequest` with its JSON parsing are left out. The request's outcome is an input (`Response`): a parsed `AnalysisResult`, or a failure. A response body that is not an `AnalysisResult` is not modelled.
- AppStore.AppStore.StartAnalysis: runs its segments without interruption. The source yields at each wait, so a `resetAnalysis` or a second `startAnalysis` can interleave, and the source has no guard against this. The segments (`BeginAnalysis`, `UpdateStep`, `CompleteStep`, `FinishAnalysis`, `FailAnalysis`) are separate operations, so each intermediate state is a state of the model.
- SkinAnalysis.PickIsFloor: the double rounding of `Math.random() * n` is not modelled. The pick is the floor of the exact product, while the source floors the rounded double, which for some draws is one higher (0.44999999999999996 * 20 rounds to 9.0).
- The repository singleton that `simulateAnalysis` reads is passed in as a parameter.
- SkinAnalysis.ChooseConditions: takes the condition list as the repository returns it (non-empty, numbered 1, 2, ...). It does not cover an arbitrary list with repeated ids. `SimulateAnalysis` requires only a repository holding at least one condition.
- Every async repository method is modelled as its synchronous body.
- Storage.MemStorage.SeededQueries: the seeded texts are stated through the `Seeded` predicate (the literal rows in order) rather than field by field.
- Schema validation (zod, drizzle table definitions), the HTTP routes, and image utilities are not part of this model: `imageUtils.ts`, `routes.ts` and `schema.ts` beyond the record shapes.
- The annotated-image effect of the page (Home.tsx:85-111) and its `analyzedImage` state depend on canvas image processing, which is not modelled.
- `handleSaveResults` (Home.tsx:77-82) only shows a notice.
- The JSX layout and the presentational components (header, footer, progress tracker, webcam capture, cards) are not modelled, beyond the render guards and the card and icon choices.
