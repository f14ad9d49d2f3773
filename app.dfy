/**
 * The application shell: the filter edits, the three request handlers and
 * the choice of what the search tab shows.
 *
 * Each handler in the source is an `async` function that updates state,
 * awaits one service call and updates state again.  Here the part before
 * the `await` and the part after it are separate methods, so that the state
 * seen while a request is outstanding can be stated; the handler itself
 * runs the two around the (modelled) service call.
 */
module App {
  import opened Wrappers
  import opened Types
  import opened GeminiService
  import RecipeCard
  import RecipeModal

  datatype Tab = SearchTab | PlannerTab | TrendingTab

  /** The filters the application starts with. */
  const InitialFilters: SearchFilters := SearchFilters(true, "", "30", SpiceLevel.Medium, "", "")

  /** The meal-type chips shown under the search form. */
  const MealTypeChips: seq<string> := ["Breakfast", "Lunch", "Dinner", "Snacks", "Tiffin"]

  /** The values of the time-limit drop-down. */
  const TimeLimitOptions: seq<string> := ["15", "30", "45", "60"]

  /** The values of the cuisine drop-down: the empty "Any Cuisine" entry, then every cuisine. */
  const CuisineOptions: seq<string> := [""] + CuisineNames

  /**
   * The initial filters are a valid form state (the time limit is one of the
   * drop-down's values) and, searched as they are, ask for vegetarian
   * recipes in 30 minutes at medium spice with no ingredient, meal-type or
   * cuisine constraint.
   */
  lemma InitialFiltersPrompt()
    ensures InitialFilters.timeLimit in TimeLimitOptions
    ensures InitialFilters.cuisine in CuisineOptions
    ensures FilteredValues(InitialFilters) == ["Any", "Any", "30", "Medium", "Any", "Vegetarian ONLY"]
  {
    assert TimeLimitOptions[1] == "30";
    assert CuisineOptions[0] == "";
  }

  /**
   * Only the "Any Cuisine" entry of the drop-down reads as "Any" in the
   * prompt; every named cuisine is sent as it is.
   */
  lemma CuisineOptionsInPrompt(i: nat)
    requires i < |CuisineOptions|
    ensures OrAny(CuisineOptions[i]) == "Any" <==> i == 0
    ensures i > 0 ==> OrAny(CuisineOptions[i]) == CuisineNames[i - 1]
  {
    if i > 0 {
      assert CuisineOptions[i] == CuisineNames[i - 1];
      assert CuisineNames[i - 1] != "" && CuisineNames[i - 1] != "Any" by {
        assert |CuisineNames[i - 1]| > 3;
      }
    }
  }

  /**
   * No chip is the empty string, so pressing a chip selects it exactly when
   * it was not selected.  The chips follow the meal-type enumeration except
   * the fourth, which reads "Snacks" where the enumeration says "Snack".
   */
  lemma MealTypeChipToggle(f: SearchFilters, i: nat)
    requires i < |MealTypeChips|
    ensures ApplyEdit(f, ToggleMealType(MealTypeChips[i])).mealType == MealTypeChips[i]
            <==> f.mealType != MealTypeChips[i]
    ensures i != 3 <==> MealTypeChips[i] == MealTypeNames[i]
  {
    assert MealTypeChips[i] != "" by {
      assert |MealTypeChips[i]| >= 5;
    }
    if i == 3 {
      assert |MealTypeChips[3]| != |MealTypeNames[3]|;
    }
  }

  // ---------------------------------------------------------------------
  // Filter edits
  // ---------------------------------------------------------------------

  /** The user actions that change the filters. */
  datatype FilterEdit =
    | ToggleVeg
    | SetIngredients(ingredients: string)
    | SetTimeLimit(timeLimit: string)
    | SetCuisine(cuisine: string)
    | ToggleMealType(chip: string)

  /** The new filters after one edit; each edit touches one field only. */
  function ApplyEdit(f: SearchFilters, e: FilterEdit): (r: SearchFilters)
    ensures e.ToggleVeg? ==> r.isVeg == !f.isVeg && r.(isVeg := f.isVeg) == f
    ensures e.SetIngredients? ==> r.ingredients == e.ingredients && r.(ingredients := f.ingredients) == f
    ensures e.SetTimeLimit? ==> r.timeLimit == e.timeLimit && r.(timeLimit := f.timeLimit) == f
    ensures e.SetCuisine? ==> r.cuisine == e.cuisine && r.(cuisine := f.cuisine) == f
    ensures e.ToggleMealType? ==> r.(mealType := f.mealType) == f
                                  && (r.mealType == "" || r.mealType == e.chip)
                                  && (e.chip != "" ==> (r.mealType == e.chip <==> f.mealType != e.chip))
  {
    match e
    case ToggleVeg => f.(isVeg := !f.isVeg)
    case SetIngredients(v) => f.(ingredients := v)
    case SetTimeLimit(v) => f.(timeLimit := v)
    case SetCuisine(v) => f.(cuisine := v)
    case ToggleMealType(t) => f.(mealType := if f.mealType == t then "" else t)
  }

  /** Toggling the diet twice restores the filters. */
  lemma ToggleVegTwice(f: SearchFilters)
    ensures ApplyEdit(ApplyEdit(f, ToggleVeg), ToggleVeg) == f
  {
  }

  /**
   * Pressing the same chip twice restores the filters when no chip or that
   * chip was selected; when another chip was selected, the second press clears it.
   */
  lemma ToggleMealTypeTwice(f: SearchFilters, chip: string)
    ensures ApplyEdit(ApplyEdit(f, ToggleMealType(chip)), ToggleMealType(chip)) == f
            <==> f.mealType == "" || f.mealType == chip
  {
    var once := ApplyEdit(f, ToggleMealType(chip));
    var twice := ApplyEdit(once, ToggleMealType(chip));
    if f.mealType != "" && f.mealType != chip {
      assert once.mealType == chip;
      assert twice.mealType == "";
    }
  }

  // ---------------------------------------------------------------------
  // What the search tab shows
  // ---------------------------------------------------------------------

  datatype Panel = Spinner | Cards(cards: seq<RecipeCard.CardView>) | EmptyState

  /** One card per recipe, in order. */
  function RenderCards(recipes: seq<Recipe>): (cs: seq<RecipeCard.CardView>)
    ensures |cs| == |recipes|
    ensures forall i :: 0 <= i < |cs| ==> cs[i] == RecipeCard.Render(recipes[i])
  {
    if recipes == [] then [] else [RecipeCard.Render(recipes[0])] + RenderCards(recipes[1..])
  }

  /**
   * The results area of the search tab.  The source writes three separate
   * conditional blocks; exactly one of them is ever shown.
   */
  function SearchPanels(loading: bool, recipes: seq<Recipe>): (ps: seq<Panel>)
    ensures |ps| == 1
    ensures ps[0] == Spinner <==> loading
    ensures ps[0].Cards? <==> !loading && recipes != []
    ensures ps[0] == EmptyState <==> !loading && recipes == []
    ensures ps[0].Cards? ==> |ps[0].cards| == |recipes|
                             && forall i :: 0 <= i < |recipes| ==> ps[0].cards[i].clickArgument == recipes[i]
  {
    (if loading then [Spinner] else [])
    + (if !loading && |recipes| > 0 then [Cards(RenderCards(recipes))] else [])
    + (if !loading && |recipes| == 0 then [EmptyState] else [])
  }

  /**
   * The trending tab: the spinner while loading, otherwise the card grid,
   * even when it is empty; this tab has no empty-state panel.
   */
  function TrendingPanel(loading: bool, recipes: seq<Recipe>): (p: Panel)
    ensures p != EmptyState
    ensures p == Spinner <==> loading
    ensures p.Cards? ==> |p.cards| == |recipes|
                         && forall i :: 0 <= i < |recipes| ==> p.cards[i].clickArgument == recipes[i]
  {
    if loading then Spinner else Cards(RenderCards(recipes))
  }

  // ---------------------------------------------------------------------
  // Application state
  // ---------------------------------------------------------------------

  class AppState {
    var activeTab: Tab
    var loading: bool
    var recipes: seq<Recipe>
    var weeklyPlan: seq<WeeklyPlanDay>
    var selectedRecipe: Option<Recipe>
    var filters: SearchFilters

    constructor ()
      ensures activeTab == SearchTab && !loading
      ensures recipes == [] && weeklyPlan == [] && selectedRecipe == None
      ensures filters == InitialFilters
    {
      activeTab := SearchTab;
      loading := false;
      recipes := [];
      weeklyPlan := [];
      selectedRecipe := None;
      filters := InitialFilters;
    }

    function SearchTabView(): seq<Panel>
      reads this
    {
      SearchPanels(loading, recipes)
    }

    /** The detail view is shown exactly when a recipe is selected, and shows that recipe. */
    function DetailView(encode: string -> string): (v: Option<RecipeModal.ModalView>)
      reads this
      ensures v.None? <==> selectedRecipe.None?
      ensures v.Some? ==> v.value.title == selectedRecipe.value.name
                          && v.value.badge == RecipeCard.Badge(selectedRecipe.value.isVeg)
    {
      RecipeModal.Render(selectedRecipe, encode)
    }

    /** Any of the filter widgets: only `filters` changes. */
    method EditFilters(e: FilterEdit)
      modifies this`filters
      ensures filters == ApplyEdit(old(filters), e)
    {
      filters := ApplyEdit(filters, e);
    }

    /** The recipes arrived: they replace the list wholesale and loading ends. */
    method ReceiveRecipes(results: seq<Recipe>)
      modifies this`recipes, this`loading
      ensures recipes == results && !loading
      ensures SearchTabView()[0] == (if results == [] then EmptyState else Cards(RenderCards(results)))
    {
      recipes := results;
      loading := false;
    }

    /** `handleSearch` up to its `await`: the search tab shows the spinner over an emptied list. */
    method StartSearch()
      modifies this`loading, this`activeTab, this`recipes
      ensures loading && activeTab == SearchTab && recipes == []
      ensures SearchTabView() == [Spinner]
    {
      loading := true;
      activeTab := SearchTab;
      recipes := [];
    }

    /** `handleSearch`: search with the current filters; the answer replaces the list. */
    method HandleSearch(quickMode: bool, service: Request -> CallOutcome, parse: string -> Option<seq<Recipe>>)
      modifies this`loading, this`activeTab, this`recipes
      ensures activeTab == SearchTab && !loading
      ensures recipes == SuggestRecipes(filters, quickMode, service, parse)
    {
      StartSearch();
      var results := SuggestRecipes(filters, quickMode, service, parse);
      ReceiveRecipes(results);
    }

    /**
     * `handleGeneratePlan` up to its `await`.  The dialog answer `confirmed`
     * is consulted only when a plan exists; `proceed` says whether a request follows.
     */
    method StartGeneratePlan(confirmed: bool) returns (asked: bool, proceed: bool)
      modifies this`activeTab, this`loading
      ensures activeTab == PlannerTab
      ensures asked <==> weeklyPlan != []
      ensures proceed <==> weeklyPlan == [] || confirmed
      ensures loading == (if proceed then true else old(loading))
    {
      activeTab := PlannerTab;
      asked := |weeklyPlan| > 0;
      if asked && confirmed {
        // regenerate
      } else if |weeklyPlan| > 0 {
        proceed := false;
        return;
      }
      proceed := true;
      loading := true;
    }

    /** The plan arrived: it replaces the old one wholesale and loading ends. */
    method ReceivePlan(plan: seq<WeeklyPlanDay>)
      modifies this`weeklyPlan, this`loading
      ensures weeklyPlan == plan && !loading
    {
      weeklyPlan := plan;
      loading := false;
    }

    /** `handleGeneratePlan`: declining the dialog keeps the plan and sends nothing. */
    method HandleGeneratePlan(confirmed: bool, service: Request -> CallOutcome,
                              parse: string -> Option<seq<WeeklyPlanDay>>) returns (asked: bool, requested: bool)
      modifies this`activeTab, this`loading, this`weeklyPlan
      ensures activeTab == PlannerTab
      ensures asked <==> old(weeklyPlan) != []
      ensures requested <==> old(weeklyPlan) == [] || confirmed
      ensures requested ==> weeklyPlan == GenerateWeeklyPlan(filters.isVeg, service, parse) && !loading
      ensures !requested ==> weeklyPlan == old(weeklyPlan) && loading == old(loading)
    {
      asked, requested := StartGeneratePlan(confirmed);
      if !requested {
        return;
      }
      var plan := GenerateWeeklyPlan(filters.isVeg, service, parse);
      ReceivePlan(plan);
    }

    /** `loadTrending` up to its `await`. */
    method StartTrending()
      modifies this`loading
      ensures loading
    {
      loading := true;
    }

    /**
     * `loadTrending`: the trending recipes go into the same list the search
     * tab shows, whatever tab is active.
     */
    method LoadTrending(service: Request -> CallOutcome, parse: string -> Option<seq<Recipe>>)
      modifies this`loading, this`recipes
      ensures recipes == GetTrendingRecipes(service, parse) && !loading
      ensures SearchTabView() == SearchPanels(false, GetTrendingRecipes(service, parse))
    {
      StartTrending();
      var results := GetTrendingRecipes(service, parse);
      ReceiveRecipes(results);
    }

    /** A card or a plan entry was clicked: the detail view opens on that recipe. */
    method SelectRecipe(recipe: Recipe)
      modifies this`selectedRecipe
      ensures selectedRecipe == Some(recipe)
    {
      selectedRecipe := Some(recipe);
    }

    /** The detail view was closed. */
    method CloseDetail()
      modifies this`selectedRecipe
      ensures selectedRecipe == None
    {
      selectedRecipe := None;
    }
  }
}
