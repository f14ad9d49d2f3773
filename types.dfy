/**
 * The record types of the application: a recipe, one day of a weekly plan,
 * and the search filters the user edits.  They carry no behaviour of their own.
 */
module Types {
  import opened Wrappers

  /** The spice preference of a search; its prompt text is the enum value. */
  datatype SpiceLevel = Low | Medium | High

  function SpiceLevelName(s: SpiceLevel): string
  {
    match s
    case Low => "Low"
    case Medium => "Medium"
    case High => "High"
  }

  /** Distinct spice levels are written as distinct words. */
  lemma SpiceLevelNameInjective(s: SpiceLevel, t: SpiceLevel)
    ensures SpiceLevelName(s) == SpiceLevelName(t) <==> s == t
  {
    if s != t {
      assert SpiceLevelName(s)[0] != SpiceLevelName(t)[0];
    }
  }

  /** The three difficulty words a recipe may carry. */
  datatype Difficulty = Easy | Medium | Hard

  function DifficultyName(d: Difficulty): string
  {
    match d
    case Easy => "Easy"
    case Medium => "Medium"
    case Hard => "Hard"
  }

  /** A single dish.  `id` and `imageKeyword` are optional fields. */
  datatype Recipe = Recipe(
    id: Option<string>,
    name: string,
    description: string,
    cookingTime: string,
    difficulty: Difficulty,
    calories: real,
    ingredients: seq<string>,
    steps: seq<string>,
    isVeg: bool,
    cuisine: string,
    imageKeyword: Option<string>)

  /** One day of a weekly plan: exactly one recipe per meal slot. */
  datatype WeeklyPlanDay = WeeklyPlanDay(
    day: string,
    planetaryNote: string,
    breakfast: Recipe,
    lunch: Recipe,
    dinner: Recipe)

  /** What the user asks for; empty strings mean "no constraint" for three of the fields. */
  datatype SearchFilters = SearchFilters(
    isVeg: bool,
    ingredients: string,
    timeLimit: string,
    spiceLevel: SpiceLevel,
    cuisine: string,
    mealType: string)

  /** The values of the meal-type and cuisine enumerations. */
  const MealTypeNames: seq<string> := ["Breakfast", "Lunch", "Dinner", "Snack", "Tiffin"]
  const CuisineNames: seq<string> :=
    ["North Indian", "South Indian", "Maharashtrian", "Bengali",
     "Gujarati", "Punjabi", "Assamese", "Indo-Chinese"]
}
