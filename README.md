# Today's Meal — a Dafny model of the recipe client

Today's Meal is a recipe-discovery and meal-planning web application for
Indian cooking. The user sets filters: diet, ingredients, time, spice level,
cuisine and meal type. The application then builds a natural-language prompt
and asks a generative language model for JSON that follows a fixed schema.
It shows the answer as recipe cards, a detail view and a 7-day plan.

This project models the deterministic part of that client:

- `wrappers.dfy` (`Wrappers`): the `Option` type.
- `types.dfy` (`Types`): the records `Recipe`, `WeeklyPlanDay` and
  `SearchFilters`, and the `SpiceLevel` and difficulty enumerations.
- `gemini_service.dfy` (`GeminiService`): the two response schemas as static
  data, and the three prompt builders. Each template literal is modelled as
  its literal parts plus the values put into its `${…}` holes. The file also
  holds the fail-soft result rule, `response.text || "[]"` then parse, where a
  thrown error gives `[]`. The network call is a parameter
  `service: Request -> CallOutcome`. `JSON.parse` is a parameter
  `parse: string -> Option<seq<T>>`, and its `None` stands for a thrown parse.
- `recipe_card.dfy` (`RecipeCard`): JavaScript's `\s`, written out as a
  predicate on code points; `replace(/\s/g, '')`; the image seed and address;
  the VEG / NON-VEG badge; and the recipe passed to the click handler.
- `recipe_modal.dfy` (`RecipeModal`): the detail view. It shows nothing
  without a recipe. It uses the same seed at another size, a video-search
  link (`encodeURIComponent` is a parameter `encode`), one bullet per
  ingredient, and steps numbered from 1.
- `app.dfy` (`App`): the filter edits as pure functions, and the search-tab
  and trending-tab panels. It also holds the class `AppState`, with the
  fields `activeTab`, `loading`, `recipes`, `weeklyPlan`, `selectedRecipe`
  and `filters`. Each `async` handler is split at its `await`: a `Start…`
  method for the state changes made before the call, and a `Receive…` method
  for the changes made after it. The handler runs the two around the
  service call. Search and trending share `ReceiveRecipes`, because both
  write the same `recipes` list.

Three behaviours of the code that a reader might not expect, and that the
model keeps:

- A filter counts as blank only when it is the empty string. JavaScript's `||`
  treats only `""` as falsy, so a whitespace-only value goes into the prompt
  as it is.
- The trending tab never shows the empty-state panel. When it is not loading
  it shows the card grid, even an empty one.
- The time limit is never defaulted. An empty time limit gives
  `" minutes"` with nothing before it.

An image keyword made only of spaces counts as present. It gives the empty
seed, so the address becomes `https://picsum.photos/seed//400/300`.

## Model

| member | source | states |
|---|---|---|
| `Types.SpiceLevelNameInjective` | types.ts:20-24 | distinct spice levels are written as distinct words in a prompt |
| `GeminiService.Lookup` | services/geminiService.ts:10-27 | a property name is found exactly when it is declared, and what is found is that property's schema |
| `GeminiService.LookupAt` | services/geminiService.ts:10-27 | the lookup returns the schema at the first position carrying the name |
| `GeminiService.RecipeSchemaPropertyNames` | services/geminiService.ts:10-27 | the recipe schema declares its ten properties in the source's order |
| `GeminiService.RecipeSchemaRequiredFields` | services/geminiService.ts:8-29 | a name is required exactly when it is a declared property other than `calories` and `imageKeyword` |
| `GeminiService.RecipeSchemaDifficulty` | services/geminiService.ts:14 | `difficulty` is a string limited to the three difficulty words, the same words as the difficulty type |
| `GeminiService.DailyPlanSchemaRequiredFields` | services/geminiService.ts:85-95 | a plan day requires all five of its properties |
| `GeminiService.DailyPlanSchemaMeal` | services/geminiService.ts:90-92 | breakfast, lunch and dinner each have the full recipe schema |
| `GeminiService.InterpolateContains` | services/geminiService.ts:37-48 | in a template literal, every hole's value occurs in the text, followed by the literal text after it |
| `GeminiService.QuickModePrompt` | services/geminiService.ts:36-38 | the quick-mode prompt opens by asking for 5 ultra-simple meals and carries the diet sentence followed by "." |
| `GeminiService.FilteredPrompt` | services/geminiService.ts:39-49 | the filtered prompt opens by asking for 6 recipes; it carries the ingredients, meal type and cuisine (with the "Any" default), the time limit followed by " minutes", the spice level and the diet sentence, each followed by the text the template puts after it (for the diet sentence, the closing request for authentic and diverse recipes) |
| `GeminiService.SuggestPrompt` | services/geminiService.ts:34-49 | both modes carry the diet sentence; quick mode asks for 5 meals, the filtered mode for 6 recipes with the time limit in minutes |
| `GeminiService.WeeklyPlanPrompt` | services/geminiService.ts:75-83 | the plan prompt opens by asking for a 7-day Monday-to-Sunday plan and names the diet, "Vegetarian" or "Non-Vegetarian/Mixed" |
| `GeminiService.TrendingRequestFixed` | services/geminiService.ts:120-131 | the trending request takes no input: a fixed prompt asking for 4 recipes, with the recipe-array schema |
| `GeminiService.InterpolateOneHole` | services/geminiService.ts:36-49 | in a template literal, each hole's value is inserted verbatim: two values in one hole give the same text exactly when they are equal |
| `GeminiService.OrAnyBlankOnlyWhenEmpty` | services/geminiService.ts:41-45 | the "or Any" default gives `"Any"` exactly for `""` (and for `"Any"` itself); every other value, whitespace-only ones included, is kept as it is |
| `GeminiService.VegPreferenceInjective` | services/geminiService.ts:38-46 | the two diet sentences differ, so the diet flag is visible in both search prompts |
| `GeminiService.QuickModePromptOnlyIsVeg` | services/geminiService.ts:36-38 | two filter values give the same quick-mode prompt exactly when their diet flags agree |
| `GeminiService.FilteredPromptIngredients` | services/geminiService.ts:41 | ingredients: same prompt exactly when both values are equal, or one is `""` and the other `"Any"` |
| `GeminiService.FilteredPromptMealType` | services/geminiService.ts:42 | meal type: the same blank rule as the ingredients |
| `GeminiService.FilteredPromptTimeLimit` | services/geminiService.ts:43 | the time limit is inserted verbatim before " minutes", with no default: same prompt exactly when the values are equal |
| `GeminiService.FilteredPromptSpiceLevel` | services/geminiService.ts:44 | same prompt exactly when the spice levels are equal |
| `GeminiService.FilteredPromptCuisine` | services/geminiService.ts:45 | cuisine: the same blank rule as the ingredients |
| `GeminiService.FilteredPromptIsVeg` | services/geminiService.ts:46 | same prompt exactly when the diet flags are equal |
| `GeminiService.FilteredPromptExample` | services/geminiService.ts:40-48 | the vegetarian "Potato, Paneer" search with blank cuisine and meal type fills the holes with "Potato, Paneer", "Any", "30", "Medium", "Any", "Vegetarian ONLY" |
| `GeminiService.WeeklyPlanPromptOnlyIsVeg` | services/geminiService.ts:75-83 | the plan prompt depends only on the diet flag, and the two diets give different prompts |
| `GeminiService.Settle` | services/geminiService.ts:64-69 | a throw gives `[]`; a failed parse gives `[]`; a successful parse is returned unchanged; a non-empty result is exactly what the parser produced |
| `GeminiService.ResponseJson` | services/geminiService.ts:64 | `response.text \|\| "[]"`: absent or empty text becomes `"[]"`, any other text is passed on unchanged, and the parser never sees `""` |
| `GeminiService.AbsentTextIsEmpty` | services/geminiService.ts:64-65 | absent or empty response text is read as `"[]"` and so gives the empty sequence |
| `GeminiService.PresentTextIsParsed` | services/geminiService.ts:64-65 | non-empty response text is parsed as it is |
| `GeminiService.SuggestRecipes` | services/geminiService.ts:31-70 | the result is `[]` when the call throws or the parse fails, and exactly the parsed sequence when the parse of the answer to the search request succeeds |
| `GeminiService.GenerateWeeklyPlan` | services/geminiService.ts:72-116 | the same fail-soft rule for the plan request: `[]` on a throw or a failed parse, the parsed days unchanged otherwise; the number of days is not checked |
| `GeminiService.GetTrendingRecipes` | services/geminiService.ts:118-141 | the same fail-soft rule for the fixed trending request, which takes no input: `[]` on a throw or a failed parse, the parsed recipes unchanged otherwise |
| `GeminiService.QuickModeIgnoresOtherFilters` | services/geminiService.ts:34-62 | in quick mode, filters with the same diet flag send the same request and get the same result |
| `RecipeCard.IsWhitespace` | components/RecipeCard.tsx:13 | JavaScript's `\s`: space, tab, line feed and carriage return match; letters, digits and `-` do not; nothing beyond U+FEFF matches |
| `RecipeCard.StripWhitespace` | components/RecipeCard.tsx:13-14 | the stripped text contains no whitespace character and is no longer than the input |
| `RecipeCard.StripWhitespaceCounts` | components/RecipeCard.tsx:13-14 | every non-whitespace character occurs as often after stripping as before |
| `RecipeCard.StripWhitespaceConcat` | components/RecipeCard.tsx:13-14 | stripping a concatenation is concatenating the stripped parts, so order is kept |
| `RecipeCard.StripWhitespaceIsSubsequence` | components/RecipeCard.tsx:13-14 | the stripped text is the input with characters deleted, in the original order |
| `RecipeCard.StripWhitespaceKeepsClean` | components/RecipeCard.tsx:13-14 | text without whitespace is left unchanged |
| `RecipeCard.StripWhitespaceIdempotent` | components/RecipeCard.tsx:13-14 | stripping twice is stripping once |
| `RecipeCard.SeedSource` | components/RecipeCard.tsx:12-14 | the seed comes from `imageKeyword` when it is present and non-empty, otherwise from `name` |
| `RecipeCard.ImageSeed` | components/RecipeCard.tsx:12-14 | the seed has no whitespace, keeps every other character of its source as often as it occurs, and keeps them in their order |
| `RecipeCard.PicsumUrlRoundTrip` | components/RecipeCard.tsx:13-14 | the seed is read back exactly from the address with that seed and size |
| `RecipeCard.CardImageUrl` | components/RecipeCard.tsx:12-14 | the card address is the placeholder prefix, the seed and `/400/300` |
| `RecipeCard.Badge` | components/RecipeCard.tsx:27-28 | the badge reads "VEG" exactly when the recipe is vegetarian, otherwise "NON-VEG" |
| `RecipeCard.Render` | components/RecipeCard.tsx:10-59 | a card shows the seed-derived image and the badge "VEG" or "NON-VEG" as the diet says, and its button passes the card's own recipe, unchanged |
| `RecipeModal.ModalImageUrl` | components/RecipeModal.tsx:13-15 | the detail image uses the card's seed rule with size `/800/400` |
| `RecipeModal.ModalAndCardShareSeed` | components/RecipeModal.tsx:13-15 | the card and the detail view derive the same seed |
| `RecipeModal.YoutubeUrlRoundTrip` | components/RecipeModal.tsx:17 | the query is read back exactly from the video-search address built around it |
| `RecipeModal.YoutubeSearchUrl` | components/RecipeModal.tsx:17 | the video link's query is exactly the encoded "<name> recipe" |
| `RecipeModal.Bullets` | components/RecipeModal.tsx:80-85 | one bullet per ingredient, in the given order |
| `RecipeModal.NumberSteps` | components/RecipeModal.tsx:93-96 | step `i` is labelled `first + i`, text unchanged, in order |
| `RecipeModal.NumberStepsRoundTrip` | components/RecipeModal.tsx:93-96 | dropping the numbers gives back the steps exactly |
| `RecipeModal.Render` | components/RecipeModal.tsx:10-96 | nothing is shown exactly when no recipe is given; otherwise the recipe's name, the seed, the badge "VEG" or "NON-VEG", the video query, the ingredients and the steps numbered 1..n as above |
| `App.InitialFiltersPrompt` | App.tsx:24-31 | the initial time limit is a drop-down value and the cuisine the "Any Cuisine" entry; searched as they are, the initial filters fill the prompt with "Any", "Any", "30", "Medium", "Any", "Vegetarian ONLY" |
| `App.CuisineOptionsInPrompt` | App.tsx:163-170 | of the cuisine drop-down's values only the empty "Any Cuisine" entry reads as "Any"; each named cuisine is sent as it is |
| `App.MealTypeChipToggle` | App.tsx:196-199 | pressing a chip selects it exactly when it was not selected; the chips follow the meal-type enumeration except "Snacks" |
| `App.ApplyEdit` | App.tsx:101-199 | the diet toggle negates `isVeg`; each setter sets its one field; the chip toggle selects the chip exactly when it was not selected; nothing else changes |
| `App.ToggleVegTwice` | App.tsx:101 | toggling the diet twice restores the filters |
| `App.ToggleMealTypeTwice` | App.tsx:199 | pressing a chip twice restores the filters exactly when no chip or that chip was selected before |
| `App.RenderCards` | App.tsx:219-225 | one card per recipe, in order |
| `App.SearchPanels` | App.tsx:212-233 | exactly one panel: the spinner when loading, the cards when not loading with recipes, the empty state when not loading without |
| `App.TrendingPanel` | App.tsx:323-333 | the trending tab shows the spinner exactly when loading, otherwise the card grid, never the empty state |
| `App.AppState.constructor` | App.tsx:17-31 | the search tab, not loading, no recipes, no plan, no selection, and the initial filters |
| `App.AppState.DetailView` | App.tsx:347-352 | the detail view is shown exactly when a recipe is selected, with that recipe's name and badge |
| `App.AppState.EditFilters` | App.tsx:101-199 | only the filters change, as the edit says |
| `App.AppState.ReceiveRecipes` | App.tsx:41-42 | the new recipes replace the list wholesale and loading ends |
| `App.AppState.StartSearch` | App.tsx:46-48 | loading, search tab, emptied list: the search tab shows the spinner |
| `App.AppState.HandleSearch` | App.tsx:45-54 | ends on the search tab, not loading, with the list equal to the search result for the current filters |
| `App.AppState.StartGeneratePlan` | App.tsx:57-64 | switches to the planner; the dialog is consulted exactly when a plan exists; a request follows exactly when there is no plan or the user confirmed |
| `App.AppState.ReceivePlan` | App.tsx:66-67 | the new plan replaces the old one wholesale and loading ends |
| `App.AppState.HandleGeneratePlan` | App.tsx:56-68 | always the planner tab; declining keeps the plan and the loading flag and sends nothing; otherwise the plan becomes the plan result for the current diet |
| `App.AppState.StartTrending` | App.tsx:39 | loading starts |
| `App.AppState.LoadTrending` | App.tsx:38-43 | the trending result goes into the same list the search tab shows, and loading ends |
| `App.AppState.SelectRecipe` | App.tsx:221-223 | the clicked card's recipe becomes the selection |
| `App.AppState.CloseDetail` | App.tsx:347-351 | closing the detail view clears the selection |

## Left out

- The `@google/genai` client, the model name and the API key read from the environment are left out. They are a foreign SDK and network I/O; the call is the parameter `service`.
- The internals of `JSON.parse` and the `as Recipe[]` cast are left out; parsing is the parameter `parse`. JSON that parses to something other than an array is returned by the source as it is, and the model cannot represent it. The model does not validate shapes or counts of items, and neither does the source.
- The asynchronous timing of the handlers is left out. Overlapping requests, whose results land in whichever order they settle, are not modelled; each handler runs to completion here.
- `confirm()` is the boolean `confirmed`; `console.error` logging is dropped.
- JSX layout, CSS classes, icons, the navigation buttons (`NavItem`, which only set `activeTab`), the planner tab's layout and the mount-time `useEffect` are left out as pure UI.
- `encodeURIComponent` is the parameter `encode`; its percent-encoding is not modelled. The picsum and YouTube endpoints are external services.
- The filter setters read the `filters` captured at render time, while the toggles read the previous state. Run one at a time, as here, the two are the same.
- The `MealType` and `Cuisine` enumerations are kept as constants. The chips use "Snacks" where the enumeration says "Snack"; `App.MealTypeChipToggle` records the difference, and nothing else in the core compares the two.
