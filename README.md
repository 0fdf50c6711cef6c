# Recipe lookup widget: filter engine, ingredient extraction and result cache

This project models the deterministic core of a small browser widget that
searches a public recipe API by ingredient, lists the matching dishes, narrows
the list by approximate cooking time and by mood, and shows the details of one
dish. Everything the widget does through the DOM or the network is outside the
model; what remains is:

- **The filter engine** (`applyFiltersAndRender`). The cached search results
  (`lastResults`) are copied, then filtered by a time rule unless the time
  selector reads `"any"`, then by a mood rule unless no mood is checked. Both
  rules match fixed keyword tables against the ASCII-lower-cased dish title by
  substring containment. `FilterEngine.Apply` is the specification: keep a meal
  iff its title passes both rules. `App.RecipeApp.ApplyFiltersAndRender` is the
  two-pass procedure of the source, proved equal to it.
- **Ingredient extraction** (the loop in `fetchMealDetail`). Slots 1 to 20 of a
  lookup record each hold an optional ingredient name and an optional measure.
  Every slot whose name is non-blank after trimming yields one line: the
  trimmed measure and a space (when the measure is a non-empty string),
  followed by the trimmed name. `Ingredients.ExtractIngredients` is that loop,
  proved against the specification `Ingredients.Extracted`.
- **The result cache and query validation** (`fetchByIngredient`).
  `App.RecipeApp` holds `lastResults`. A query that is blank after trimming
  shows a prompt and issues no request. A response replaces the cache with its
  `meals`, or with the empty list when `meals` is null. A failed request leaves
  the cache alone. The detail lookup never touches the cache.

Network responses are parameters of the handlers: the model receives what the
endpoint returned (`SearchResponse`, `LookupResponse`) instead of performing
the request. The time selector's value arrives already parsed as
`TimeValue = Any | Num(int) | NaN`. The checked moods arrive as a sequence of
strings.

Files: `wrappers.dfy` (Option), `text.dfy` (trim, ASCII lower-casing, substring
search), `filter_engine.dfy`, `ingredients.dfy`, `app.dfy`. `App.SearchScenario`
is a small client: it searches "chicken" with a one-meal response, then
submits a blank query, and checks what the contracts promise.

Behaviour of the code that the model keeps as written:
- The measure prefix is dropped only for a null or empty measure. A measure of
  spaces is a non-empty string, so it yields a leading space (`" Salt"`).
- A slot is used only if its name is non-blank after trimming.
- A `meals` array whose first element is null gives "not available".
- The time value is whatever `parseInt` gives. Any integer above 30, and NaN,
  filter nothing.
- The search request carries the trimmed query.

## Model

| member | source | states |
|---|---|---|
| Text.Trim | script.js:96-97 | `trim` returns the block of the input left after removing whitespace at both ends. The result starts and ends with a non-whitespace character, and it is empty iff the input is blank. |
| Text.TrimStart | script.js:96 | Leading whitespace is removed. The result is a suffix of the input, everything before it is whitespace, and it starts with a non-whitespace character. |
| Text.TrimEnd | script.js:96 | Trailing whitespace is removed. The result is a prefix of the input, everything after it is whitespace, and it ends with a non-whitespace character. |
| Text.TrimNoWhitespace | script.js:97 | A string containing no whitespace is its own trim. |
| Text.ToLower | script.js:130 | `toLowerCase` over ASCII. The result has the input's length and no letter in A-Z. Each upper-case ASCII letter becomes its lower-case partner, and every other character stays unchanged. |
| Text.ToLowerIdempotent | script.js:130 | Lower-casing a lower-cased title changes nothing. |
| Text.Includes | script.js:134 | `title.includes(k)` holds iff `k` occurs as a contiguous block of `title` (reference definition `IsSubstring`). |
| Text.MissingCharExcludes | script.js:134 | A keyword that contains a character the title lacks is not included in the title. |
| FilterEngine.Filter | script.js:129-140 | `Array.prototype.filter`: the result is no longer than the input. Every element of the result is in the input and satisfies the predicate. Every input element that satisfies the predicate is in the result. FilterEmbeds and FilterCounts pin the result down exactly. |
| FilterEngine.FilterEmbeds | script.js:129 | The result of a filter is its input's elements at an increasing list of positions, and a position is in that list iff its element passes. |
| FilterEngine.FilterCounts | script.js:129-140 | Every copy of a passing value survives, so a duplicate is kept as often as it occurs. No copy of a failing value survives. |
| FilterEngine.FilterAllPass | script.js:139 | Filtering with a predicate that every element satisfies returns the input unchanged. |
| FilterEngine.FilterAgree | script.js:146-156 | Two predicates that agree on every element of the input filter it identically. |
| FilterEngine.FilterFusion | script.js:129-156 | Filtering by `p` and then by `q` equals filtering once by `p && q`. |
| FilterEngine.FilterPair | script.js:129 | Filtering a two-element list whose first element passes and second fails keeps exactly the first. |
| FilterEngine.MoodKeywords | script.js:148-154 | The mood table. It gives comfort, light and spicy their keyword lists, and any other key gives the empty list. Definition. |
| FilterEngine.PassesTime | script.js:129-140 | The time predicate: any and NaN keep everything, 15 or less needs a quick keyword, 30 or less needs a quick keyword or no slow keyword, and anything above keeps everything. Definition; its laws are TimeRuleQuick, TimeRuleMedium and ApplyIdentity. |
| FilterEngine.PassesMood | script.js:145-156 | The mood predicate: with no mood checked it keeps everything; otherwise some checked mood has a keyword in the title. Definition; its law is MoodRule. |
| FilterEngine.Apply | script.js:122-157 | The filter engine: the cached results whose lower-cased titles pass both rules. Definition; its laws are the Apply lemmas below. |
| FilterEngine.ApplyKeepsPositions | script.js:123-157 | The filtered list is exactly the cached entries that pass both rules, each at its own position and in order: an index passes iff it is kept. |
| FilterEngine.ApplyCounts | script.js:129-156 | A meal cached several times appears in the filtered list as many times as in the cache if it passes, and not at all otherwise. |
| FilterEngine.ApplyIsSubsequence | script.js:123-157 | The filtered list is an order-preserving sub-list of the cached results. |
| FilterEngine.ApplyIdentity | script.js:127-145 | With no mood checked and a time value of "any", NaN or above 30, the filtered list is exactly the cached list. |
| FilterEngine.ApplyIdempotent | script.js:129-156 | Re-applying the same time and mood settings to the filtered list returns it unchanged. |
| FilterEngine.ApplyComposes | script.js:127-157 | The two rules combine by AND. Filtering by time and then by mood, or by mood and then by time, gives the filter engine's result. |
| FilterEngine.TimeRuleQuick | script.js:131-135 | For a time value of 15 or less, a meal is kept iff its lower-cased title contains one of salad, wrap, sandwich, stir, taco, omelet, quick, soup. |
| FilterEngine.TimeRuleMedium | script.js:131-138 | For a time value above 15 and at most 30, a meal is kept iff its title contains a quick keyword, or contains none of stew, casserole, braise, roast, bake, slow. |
| FilterEngine.MoodRule | script.js:145-156 | With at least one mood checked, a meal is kept iff some checked mood's keyword list has a keyword occurring in the lower-cased title. |
| FilterEngine.UnknownMoodIgnored | script.js:148-154 | Adding a checked mood that is not in the mood table to a non-empty mood list changes nothing. |
| FilterEngine.OnlyUnknownMoodsKeepNothing | script.js:145-155 | If moods are checked but none is in the mood table, the filtered list is empty. |
| FilterEngine.ChickenSoupIsQuick | script.js:130-134 | "Chicken Soup", lower-cased, contains the quick keyword "soup". |
| FilterEngine.BeefStewIsNotQuick | script.js:130-134 | "Beef Stew", lower-cased, contains no quick keyword. |
| FilterEngine.SpicyTofuIsSpicy | script.js:147-154 | "Spicy Tofu", lower-cased, contains a keyword of the spicy mood. |
| FilterEngine.PlainRiceIsNotSpicy | script.js:147-154 | "Plain Rice", lower-cased, contains no keyword of the spicy mood. |
| FilterEngine.QuickBucketScenario | script.js:127-135 | A time value of 15 applied to ["Chicken Soup", "Beef Stew"] gives ["Chicken Soup"]. |
| FilterEngine.SpicyMoodScenario | script.js:145-156 | The spicy mood applied to ["Spicy Tofu", "Plain Rice"] gives ["Spicy Tofu"]. |
| Ingredients.SlotsWhereAscend | script.js:93 | The selected slot numbers lie in 1..n, satisfy the selection, strictly ascend, and number at most n. |
| Ingredients.SlotsWhereComplete | script.js:93-96 | Every slot in 1..n that satisfies the selection is selected. |
| Ingredients.LinesBySlot | script.js:93-98 | The j-th line is the line of the j-th selected slot, and there are as many lines as selected slots. |
| Ingredients.LinesSingleSlot | script.js:93-98 | With exactly one usable slot, the scan yields that slot's line once, after reaching it. |
| Ingredients.HasIngredient | script.js:94-96 | A slot is usable when its ingredient is a non-empty string that is not blank after trimming. Definition. |
| Ingredients.FormatEntry | script.js:97 | One line: the trimmed measure and a space when the measure is a non-empty string, then the trimmed name. Definition; its law is EntryShape. |
| Ingredients.Extracted | script.js:92-99 | The extraction specification: the lines of the usable slots among 1 to n, in slot order. Definition; its laws are ExtractedSlots and ExtractedSingleSlot. |
| Ingredients.ExtractIngredients | script.js:91-99 | The loop over slots 1..20 returns exactly the specified extraction `Extracted(rec, 20)`. |
| Ingredients.ExtractedSlots | script.js:92-99 | Extraction returns at most 20 lines, one per slot whose ingredient is non-null and non-blank after trimming, in strictly ascending slot order, with no such slot missed. |
| Ingredients.EntryShape | script.js:97 | A line ends with the trimmed ingredient name. It is longer than that name iff the measure is a non-empty string. It starts with whitespace iff the measure is non-empty but blank. |
| Ingredients.ExtractedSingleSlot | script.js:93-98 | A record with one usable slot yields exactly that slot's line. |
| Ingredients.SaltIsOnlyIngredient | script.js:94-96 | A record whose only ingredient is "Salt" in slot 3 has slot 3 as its only usable slot, and the trimmed name is "Salt". |
| Ingredients.SaltIsItsOwnTrim | script.js:96-97 | "Salt" trims to itself and is not blank. |
| Ingredients.SaltSlotIsUsable | script.js:94-96 | With "Salt" in slot 3, slot 3 is usable and its trimmed name is "Salt". |
| Ingredients.OtherSlotsAreEmpty | script.js:94-96 | With "Salt" only in slot 3, no other slot is usable. |
| Ingredients.OnlySaltInSlotThree | script.js:93-97 | "Salt" in slot 3 with measure "", every other slot empty, yields exactly ["Salt"]. |
| Ingredients.BlankMeasureLeavesSpace | script.js:97 | "Salt" in slot 3 with a measure of two spaces yields exactly [" Salt"]. |
| App.RecipeApp.constructor | script.js:15 | The cache starts empty. |
| App.FirstMeal | script.js:84 | The first record when `meals` is present and non-empty, otherwise none. Definition. |
| App.DetailOf | script.js:102-113 | The detail panel of a record: its fields, the video link only when it is a non-empty string, and the ingredient lines from `Extracted(rec, 20)`. Definition. |
| App.ChickenIsItsOwnTrim | script.js:60-67 | The query "chicken" is not blank and is its own trim, so it is requested as is. |
| App.BlankSearch | script.js:60-63 | A blank query after a search leaves the cache as it was. |
| App.RecipeApp.ApplyFiltersAndRender | script.js:122-160 | The handler copies the cache, filters by time unless "any", then filters by mood unless none is checked. The rendered list equals `Apply(lastResults, time, moods)`. Having no modifies clause, it leaves the cache untouched. |
| App.RecipeApp.FetchByIngredient | script.js:59-75 | A blank query gives the prompt, issues no request and leaves the cache unchanged. Otherwise the trimmed query is requested. A response sets the cache to its meals, or to the empty list when `meals` is null, and renders the filtered cache. A failure leaves the cache unchanged. |
| App.RecipeApp.FetchMealDetail | script.js:78-119 | An empty id does nothing. A failed request gives the failure message. A response without a first meal gives "not available". A record gives its detail panel, with the ingredient lines from the extraction rule. The cache is not touched. |

## Left out

- `fetch`, `await`, `res.json()`, `encodeURIComponent` and URL building: I/O. The endpoint's answer is a parameter. A transport failure and a body that is not JSON are the same failure case. The requested term is carried unencoded.
- DOM work: rendering of cards and of the detail panel, the "Searching..." and "Loading details…" placeholders, the message texts, the close action, the `'—'` placeholder for a missing category or area, and event wiring. This is presentation.
- Overlapping requests: a late response can overwrite a newer one. This is an event-loop race, not sequential logic.
- `console.error` logging.
- `toLowerCase` is modelled for ASCII letters only. JavaScript also maps some non-ASCII letters onto ASCII ones, for example the Kelvin sign to `k`.
- `parseInt` string parsing is not modelled: the time value arrives already parsed.
- Mood keys that name properties inherited from `Object.prototype`, such as `"constructor"`, are not modelled. In JavaScript they would make the `.some` call throw. The model treats every key outside the table as contributing no keywords. The page's checkboxes only carry comfort, light and spicy.
- A null `strMeal`, on which `toLowerCase` would throw, is not modelled: names are strings. Slot values that are not strings are not modelled either.
