/**
 * The widget's event handlers around the filter engine: the search handler,
 * which validates the query and replaces the cached results, the filter
 * handler, which re-derives the list from the cache, and the detail lookup.
 * Network responses are parameters: the model receives what the endpoint
 * returned rather than performing the request.
 */
module App {
  import opened Wrappers
  import opened Text
  import opened FilterEngine
  import opened Ingredients

  /** What the search endpoint gave back: a decoded body whose `meals` may be null, or a failure. */
  datatype SearchResponse = SearchBody(meals: Option<seq<MealSummary>>) | SearchFailure

  /** What a search submission leads to. */
  datatype SearchOutcome =
    | Prompt                                          // blank query: prompt shown, no request issued
    | Listed(term: string, shown: seq<MealSummary>)   // request issued for `term`; filtered list rendered
    | SearchError(term: string)                       // request issued for `term`; it failed

  /** What the lookup endpoint gave back: `meals` may be null, empty, or start with null. */
  datatype LookupResponse = LookupBody(meals: Option<seq<Option<MealRecord>>>) | LookupFailure

  /** The detail panel's content, with the ingredient lines already extracted. */
  datatype MealDetail = MealDetail(
    id: string,
    name: string,
    thumbnail: string,
    category: Option<string>,
    area: Option<string>,
    instructions: Option<string>,
    video: Option<string>,
    ingredients: seq<string>)

  /** What a card activation leads to. */
  datatype DetailOutcome =
    | Ignored                 // no id: nothing happens
    | NotAvailable            // the endpoint knows no such meal
    | LoadFailed              // the request failed
    | Shown(detail: MealDetail)

  /** `(data.meals && data.meals[0]) || null` */
  function FirstMeal(meals: Option<seq<Option<MealRecord>>>): Option<MealRecord> {
    if meals.Some? && |meals.value| > 0 then meals.value[0] else None
  }

  /** The detail panel built from a record, its ingredient lines produced by the extraction rule. */
  function DetailOf(rec: MealRecord): MealDetail {
    MealDetail(rec.id, rec.name, rec.thumbnail, rec.category, rec.area, rec.instructions,
      if Truthy(rec.youtube) then rec.youtube else None,
      Extracted(rec, SlotCount))
  }

  /** The widget's state: the results of the most recent successful search. */
  class RecipeApp {
    var lastResults: seq<MealSummary>

    constructor ()
      ensures lastResults == []
    {
      lastResults := [];
    }

    /**
     * The handler of a time or mood change: it copies the cache, applies the
     * time filter unless the value is "any", then the mood filter unless no
     * mood is checked. It only reads the cache.
     */
    method ApplyFiltersAndRender(time: TimeValue, moods: seq<string>) returns (shown: seq<MealSummary>)
      ensures shown == Apply(lastResults, time, moods)
    {
      var filtered := lastResults;
      if !time.Any? {
        filtered := Filter(filtered, m => PassesTime(time, Title(m)));
        FilterAgree(lastResults, m => PassesTime(time, Title(m)), m => Keep(time, [], m));
      } else {
        ApplyIdentity(lastResults, time);
      }
      assert filtered == Apply(lastResults, time, []);
      if |moods| > 0 {
        var timed := filtered;
        filtered := Filter(filtered, m => PassesMood(moods, Title(m)));
        FilterAgree(timed, m => PassesMood(moods, Title(m)), m => Keep(Any, moods, m));
        ApplyComposes(lastResults, time, moods);
      }
      shown := filtered;
    }

    /**
     * The search handler: a query that is blank after trimming shows a prompt
     * and changes nothing; otherwise the trimmed query is requested, and a
     * response replaces the cache with its meals (none when `meals` is null)
     * and renders the filtered list, while a failure leaves the cache alone.
     */
    method FetchByIngredient(input: string, response: SearchResponse, time: TimeValue, moods: seq<string>)
      returns (outcome: SearchOutcome)
      modifies this
      ensures IsBlank(input) ==> outcome == Prompt && lastResults == old(lastResults)
      ensures !IsBlank(input) && response.SearchFailure? ==>
        outcome == SearchError(Trim(input)) && lastResults == old(lastResults)
      ensures !IsBlank(input) && response.SearchBody? ==>
        && lastResults == (if response.meals.Some? then response.meals.value else [])
        && outcome == Listed(Trim(input), Apply(lastResults, time, moods))
    {
      if input == [] || |Trim(input)| < 1 {
        return Prompt;
      }
      var term := Trim(input);
      match response
      case SearchFailure =>
        outcome := SearchError(term);
      case SearchBody(meals) =>
        lastResults := if meals.Some? then meals.value else [];
        var shown := ApplyFiltersAndRender(time, moods);
        outcome := Listed(term, shown);
    }

    /**
     * The card handler: an empty id does nothing; otherwise a failed request
     * gives the failure message, a response without a first meal gives the
     * not-available message, and a record gives its detail panel. The cache
     * is not touched.
     */
    method FetchMealDetail(id: string, response: LookupResponse) returns (outcome: DetailOutcome)
      ensures id == [] ==> outcome == Ignored
      ensures id != [] && response.LookupFailure? ==> outcome == LoadFailed
      ensures id != [] && response.LookupBody? && FirstMeal(response.meals).None? ==> outcome == NotAvailable
      ensures id != [] && response.LookupBody? && FirstMeal(response.meals).Some? ==>
        outcome == Shown(DetailOf(FirstMeal(response.meals).value))
    {
      if id == [] {
        return Ignored;
      }
      match response
      case LookupFailure =>
        outcome := LoadFailed;
      case LookupBody(meals) =>
        var meal := FirstMeal(meals);
        if meal.None? {
          return NotAvailable;
        }
        var rec := meal.value;
        var ingredients := ExtractIngredients(rec);
        var video := if Truthy(rec.youtube) then rec.youtube else None;
        outcome := Shown(MealDetail(rec.id, rec.name, rec.thumbnail, rec.category, rec.area,
          rec.instructions, video, ingredients));
    }
  }

  /** "chicken" holds no whitespace, so it is not blank and is its own trim. */
  lemma ChickenIsItsOwnTrim()
    ensures !IsBlank("chicken") && Trim("chicken") == "chicken"
  {
    assert !IsWhitespace("chicken"[0]);
    TrimNoWhitespace("chicken");
  }

  /** Searching "chicken" with a one-meal response caches that meal and lists it unfiltered. */
  method SearchScenario() {
    var app := new RecipeApp();
    var soup := MealSummary("1", "Chicken Soup", "x");
    ChickenIsItsOwnTrim();
    ApplyIdentity([soup], Any);
    var outcome := app.FetchByIngredient("chicken", SearchBody(Some([soup])), Any, []);
    assert app.lastResults == [soup] && outcome == Listed("chicken", [soup]);
    BlankSearch(app);
  }

  /** A blank query afterwards shows the prompt and keeps the cached meal. */
  method BlankSearch(app: RecipeApp)
    modifies app
    ensures app.lastResults == old(app.lastResults)
  {
    var cached := app.lastResults;
    assert IsBlank("  ");
    var blank := app.FetchByIngredient("  ", SearchFailure, Any, []);
    assert blank == Prompt && app.lastResults == cached;
  }
}
