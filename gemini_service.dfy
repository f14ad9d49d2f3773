/**
 * The generation client: the response schemas sent with every request, the
 * three prompt builders, and the fail-soft rule that turns whatever the
 * generative service does into a sequence of records.
 *
 * The service itself is a parameter `service: Request -> CallOutcome`, and
 * `JSON.parse` followed by the cast to an array is a parameter
 * `parse: string -> Option<seq<T>>` whose `None` stands for a thrown parse
 * error.  Neither is modelled beyond that.
 */
module GeminiService {
  import opened Wrappers
  import opened Types

  // ---------------------------------------------------------------------
  // Response schemas (static data)
  // ---------------------------------------------------------------------

  /** The structural descriptor handed to the service along with a prompt. */
  datatype Schema =
    | StringSchema(enumValues: seq<string>, description: Option<string>)
    | NumberSchema
    | BooleanSchema
    | ArraySchema(items: Schema)
    | ObjectSchema(properties: seq<Property>, required: seq<string>)

  datatype Property = Property(name: string, schema: Schema)

  const PlainString: Schema := StringSchema([], None)

  const ImageKeywordDescription: string :=
    "A simple english keyword to search for an image of this dish, e.g. 'paneer butter masala'"

  const RecipeSchema: Schema := ObjectSchema(
    [ Property("name", PlainString),
      Property("description", PlainString),
      Property("cookingTime", PlainString),
      Property("difficulty", StringSchema(["Easy", "Medium", "Hard"], None)),
      Property("calories", NumberSchema),
      Property("ingredients", ArraySchema(PlainString)),
      Property("steps", ArraySchema(PlainString)),
      Property("isVeg", BooleanSchema),
      Property("cuisine", PlainString),
      Property("imageKeyword", StringSchema([], Some(ImageKeywordDescription))) ],
    ["name", "description", "cookingTime", "difficulty", "ingredients", "steps", "isVeg", "cuisine"])

  const DailyPlanSchema: Schema := ObjectSchema(
    [ Property("day", PlainString),
      Property("planetaryNote", PlainString),
      Property("breakfast", RecipeSchema),
      Property("lunch", RecipeSchema),
      Property("dinner", RecipeSchema) ],
    ["day", "planetaryNote", "breakfast", "lunch", "dinner"])

  /** The names of the declared properties, in declaration order. */
  function PropertyNames(ps: seq<Property>): (names: seq<string>)
    ensures |names| == |ps|
    ensures forall i :: 0 <= i < |ps| ==> names[i] == ps[i].name
  {
    if ps == [] then [] else [ps[0].name] + PropertyNames(ps[1..])
  }

  /** The schema of the first property called `name`, if any. */
  function Lookup(ps: seq<Property>, name: string): (r: Option<Schema>)
    ensures r.None? <==> name !in PropertyNames(ps)
    ensures r.Some? ==> Property(name, r.value) in ps
  {
    if ps == [] then None
    else if ps[0].name == name then Some(ps[0].schema)
    else
      assert ps == [ps[0]] + ps[1..];
      Lookup(ps[1..], name)
  }

  /** The lookup finds the property at `i` when no earlier property has its name. */
  lemma {:induction false} LookupAt(ps: seq<Property>, i: nat, name: string)
    requires i < |ps| && ps[i].name == name
    requires forall j :: 0 <= j < i ==> ps[j].name != name
    ensures Lookup(ps, name) == Some(ps[i].schema)
  {
    if i > 0 {
      LookupAt(ps[1..], i - 1, name);
    }
  }

  lemma RecipeSchemaPropertyNames()
    ensures RecipeSchema.ObjectSchema?
    ensures PropertyNames(RecipeSchema.properties)
         == ["name", "description", "cookingTime", "difficulty", "calories",
             "ingredients", "steps", "isVeg", "cuisine", "imageKeyword"]
  {
  }

  /** A recipe must have every declared property except `calories` and `imageKeyword`. */
  lemma RecipeSchemaRequiredFields()
    ensures RecipeSchema.ObjectSchema?
    ensures forall n :: n in RecipeSchema.required <==>
                        n in PropertyNames(RecipeSchema.properties) && n != "calories" && n != "imageKeyword"
  {
    RecipeSchemaPropertyNames();
    assert "calories" !in RecipeSchema.required && "imageKeyword" !in RecipeSchema.required;
  }

  /** The schema's difficulty words are the names of the three difficulties. */
  lemma RecipeSchemaDifficulty()
    ensures Lookup(RecipeSchema.properties, "difficulty") ==
            Some(StringSchema([DifficultyName(Easy), DifficultyName(Difficulty.Medium), DifficultyName(Hard)], None))
  {
    LookupAt(RecipeSchema.properties, 3, "difficulty");
  }

  /** A plan day requires all five of its properties. */
  lemma DailyPlanSchemaRequiredFields()
    ensures DailyPlanSchema.ObjectSchema?
    ensures DailyPlanSchema.required == PropertyNames(DailyPlanSchema.properties)
  {
    assert PropertyNames(DailyPlanSchema.properties) == ["day", "planetaryNote", "breakfast", "lunch", "dinner"];
  }

  /** Each meal slot of a plan day is a full recipe. */
  lemma DailyPlanSchemaMeal(meal: string)
    requires meal == "breakfast" || meal == "lunch" || meal == "dinner"
    ensures Lookup(DailyPlanSchema.properties, meal) == Some(RecipeSchema)
  {
    if meal == "breakfast" {
      LookupAt(DailyPlanSchema.properties, 2, meal);
    } else if meal == "lunch" {
      LookupAt(DailyPlanSchema.properties, 3, meal);
    } else {
      LookupAt(DailyPlanSchema.properties, 4, meal);
    }
  }

  // ---------------------------------------------------------------------
  // Prompts
  // ---------------------------------------------------------------------

  /**
   * A template literal: `literals[0] + values[0] + literals[1] + ... + literals[n]`,
   * the text between the `${...}` holes and the values put into them.
   */
  function Interpolate(literals: seq<string>, values: seq<string>): string
    requires |literals| == |values| + 1
    decreases values
  {
    if values == [] then literals[0]
    else literals[0] + values[0] + Interpolate(literals[1..], values[1..])
  }

  /** `t` occurs in `s` as a contiguous piece. */
  predicate Contains(s: string, t: string)
  {
    exists i :: 0 <= i <= |s| && t <= s[i..]
  }

  /** What occurs in a piece occurs in any text around it. */
  lemma ContainsWithin(a: string, s: string, b: string, t: string)
    requires Contains(s, t)
    ensures Contains(a + s + b, t)
  {
    var i :| 0 <= i <= |s| && t <= s[i..];
    var whole := a + s + b;
    assert whole[|a| + i..] == s[i..] + b;
    assert t <= whole[|a| + i..];
  }

  /** A start of something that occurs also occurs. */
  lemma ContainsPrefix(s: string, t: string, n: nat)
    requires Contains(s, t) && n <= |t|
    ensures Contains(s, t[..n])
  {
    var i :| 0 <= i <= |s| && t <= s[i..];
    assert t[..n] <= s[i..];
  }

  /** The text of a template starts with its first literal part. */
  lemma InterpolateStart(literals: seq<string>, values: seq<string>)
    requires |literals| == |values| + 1
    ensures literals[0] <= Interpolate(literals, values)
  {
    if values != [] {
      var rest := values[0] + Interpolate(literals[1..], values[1..]);
      assert Interpolate(literals, values) == literals[0] + rest;
    }
  }

  /** A prefix of a prefix is a prefix. */
  lemma PrefixOfPrefix(a: string, b: string, c: string)
    requires a <= b && b <= c
    ensures a <= c
  {
    assert c[..|a|] == b[..|a|];
  }

  /** When `v + w` occurs and `w` starts with `u`, `v + u` occurs. */
  lemma ContainsStart(s: string, v: string, u: string, w: string)
    requires |u| <= |w| && w[..|u|] == u && Contains(s, v + w)
    ensures Contains(s, v + u)
  {
    ContainsPrefix(s, v + w, |v| + |u|);
    assert (v + w)[..|v| + |u|] == v + u;
  }

  /** The value of every hole, followed by the literal text after it, occurs in the text. */
  lemma {:induction false} InterpolateContains(literals: seq<string>, values: seq<string>, k: nat)
    requires |literals| == |values| + 1 && k < |values|
    ensures Contains(Interpolate(literals, values), values[k] + literals[k + 1])
    decreases k
  {
    var rest := Interpolate(literals[1..], values[1..]);
    if k == 0 {
      InterpolateStart(literals[1..], values[1..]);
      var after := rest[|literals[1]|..];
      assert rest == literals[1] + after;
      assert Contains(values[0] + literals[1], values[0] + literals[1]) by {
        var t := values[0] + literals[1];
        assert t <= t[0..];
      }
      ContainsWithin(literals[0], values[0] + literals[1], after, values[0] + literals[1]);
      assert literals[0] + (values[0] + literals[1]) + after == literals[0] + values[0] + rest;
    } else {
      InterpolateContains(literals[1..], values[1..], k - 1);
      ContainsWithin(literals[0] + values[0], rest, [], values[k] + literals[k + 1]);
      assert literals[0] + values[0] + rest + [] == Interpolate(literals, values);
    }
  }

  /** The diet sentence shared by both search prompts. */
  function VegPreference(isVeg: bool): string
  {
    if isVeg then "Vegetarian ONLY" else "Non-Veg allowed"
  }

  /** JavaScript's `s || "Any"` on a string: only the empty string is falsy. */
  function OrAny(s: string): string
  {
    if s == "" then "Any" else s
  }

  /** The opening of the quick-mode prompt: five meals. */
  const QuickModeOpening: string := "I have almost no ingredients. Suggest 5 ultra-simple Indian meals"

  const QuickModeLiterals: seq<string> := [
    QuickModeOpening + " (like Maggi variations, Egg scramble, Aloo fry, Dal chawal, Quick snacks) using only basic pantry staples. \n    Strictly adhere to this veg preference: ",
    "."]

  /** The "I have nothing" prompt: five pantry-staple meals, honouring the diet flag. */
  function QuickModePrompt(isVeg: bool): (p: string)
    ensures QuickModeOpening <= p
    ensures Contains(p, VegPreference(isVeg) + ".")
  {
    var vs := [VegPreference(isVeg)];
    InterpolateStart(QuickModeLiterals, vs);
    PrefixOfPrefix(QuickModeOpening, QuickModeLiterals[0], Interpolate(QuickModeLiterals, vs));
    InterpolateContains(QuickModeLiterals, vs, 0);
    Interpolate(QuickModeLiterals, vs)
  }

  /** The opening of the filtered prompt: six recipes. */
  const FilteredOpening: string := "Suggest 6 distinct Indian recipes"

  /** The unit written after the time limit. */
  const TimeUnit: string := " minutes"

  const FilteredLiterals: seq<string> := [
    FilteredOpening + " based on these parameters:\n    - Ingredients available: ",
    "\n    - Meal Type: ",
    "\n    - Time Available: ",
    TimeUnit + "\n    - Spice Level: ",
    "\n    - Cuisine Preference: ",
    "\n    - Veg Preference: ",
    "\n    \n    Ensure the recipes are authentic and diverse."]

  /** The values put into the filtered prompt, in the order of its holes. */
  function FilteredValues(f: SearchFilters): seq<string>
  {
    [OrAny(f.ingredients), OrAny(f.mealType), f.timeLimit,
     SpiceLevelName(f.spiceLevel), OrAny(f.cuisine), VegPreference(f.isVeg)]
  }

  /**
   * The prompt built from every filter field: six recipes, and each field's
   * text (with the "Any" default for three of them) on its own line.
   */
  function FilteredPrompt(f: SearchFilters): (p: string)
    ensures FilteredOpening <= p
    ensures Contains(p, OrAny(f.ingredients) + FilteredLiterals[1])
    ensures Contains(p, OrAny(f.mealType) + FilteredLiterals[2])
    ensures Contains(p, f.timeLimit + TimeUnit)
    ensures Contains(p, SpiceLevelName(f.spiceLevel) + FilteredLiterals[4])
    ensures Contains(p, OrAny(f.cuisine) + FilteredLiterals[5])
    ensures Contains(p, VegPreference(f.isVeg) + FilteredLiterals[6])
  {
    var vs := FilteredValues(f);
    var p := Interpolate(FilteredLiterals, vs);
    InterpolateStart(FilteredLiterals, vs);
    PrefixOfPrefix(FilteredOpening, FilteredLiterals[0], p);
    InterpolateContains(FilteredLiterals, vs, 0);
    InterpolateContains(FilteredLiterals, vs, 1);
    InterpolateContains(FilteredLiterals, vs, 2);
    ContainsStart(p, vs[2], TimeUnit, FilteredLiterals[3]);
    InterpolateContains(FilteredLiterals, vs, 3);
    InterpolateContains(FilteredLiterals, vs, 4);
    InterpolateContains(FilteredLiterals, vs, 5);
    p
  }

  /** `suggestRecipes`' choice of prompt: both prompts carry the diet sentence. */
  function SuggestPrompt(f: SearchFilters, quickMode: bool): (p: string)
    ensures Contains(p, VegPreference(f.isVeg))
    ensures quickMode ==> QuickModeOpening <= p
    ensures !quickMode ==> FilteredOpening <= p && Contains(p, f.timeLimit + TimeUnit)
  {
    if quickMode then
      var q := QuickModePrompt(f.isVeg);
      ContainsStart(q, VegPreference(f.isVeg), [], ".");
      q
    else
      var q := FilteredPrompt(f);
      ContainsStart(q, VegPreference(f.isVeg), [], FilteredLiterals[6]);
      q
  }

  /** The opening of the weekly-plan prompt: seven days. */
  const WeeklyPlanOpening: string := "Generate a 7-day Indian meal plan (Monday to Sunday)."

  const WeeklyPlanLiterals: seq<string> := [
    WeeklyPlanOpening + "\n  \n  Constraint:\n  - Diet: ",
    "\n  - Integration: Incorporate Ayurvedic/Astrological dietary principles for days of the week (e.g., White food on Monday for Moon, Red lentils/protein on Tuesday for Mars, Green/Easy digestion on Wednesday for Mercury, Yellow/Heavy meal on Thursday for Jupiter, etc.).\n  - Balance: Ensure nutritional balance.\n  \n  For each day, provide a short 'planetaryNote' explaining why these foods were chosen based on the day.\n  Provide detailed recipe objects for Breakfast, Lunch, and Dinner."]

  function WeeklyPlanDiet(isVeg: bool): string
  {
    if isVeg then "Vegetarian" else "Non-Vegetarian/Mixed"
  }

  /** The weekly-plan prompt: a Monday-to-Sunday plan for the chosen diet. */
  function WeeklyPlanPrompt(isVeg: bool): (p: string)
    ensures WeeklyPlanOpening <= p
    ensures Contains(p, WeeklyPlanDiet(isVeg) + WeeklyPlanLiterals[1])
  {
    var vs := [WeeklyPlanDiet(isVeg)];
    InterpolateStart(WeeklyPlanLiterals, vs);
    PrefixOfPrefix(WeeklyPlanOpening, WeeklyPlanLiterals[0], Interpolate(WeeklyPlanLiterals, vs));
    InterpolateContains(WeeklyPlanLiterals, vs, 0);
    Interpolate(WeeklyPlanLiterals, vs)
  }

  /** The opening of the trending prompt: four recipes. */
  const TrendingOpening: string := "Generate 4 currently trending or seasonal Indian recipes"

  const TrendingPrompt: string :=
    TrendingOpening + " popular right now (e.g. winter specialties or monsoon snacks depending on general seasonality context). Make them diverse."

  /** The trending request takes no input: a fixed prompt for four recipes and the recipe-array schema. */
  lemma TrendingRequestFixed()
    ensures TrendingOpening <= TrendingRequest.prompt
    ensures TrendingRequest.responseSchema == ArraySchema(RecipeSchema)
  {
  }

  // ---------------------------------------------------------------------
  // Prompt properties
  // ---------------------------------------------------------------------

  /** Equal text around two inserted values means the inserted values are equal. */
  lemma ConcatCancel(x: string, a: string, b: string, y: string)
    requires x + a + y == x + b + y
    ensures a == b
  {
    assert |a| == |b|;
    forall i | 0 <= i < |a| ensures a[i] == b[i] {
      assert a[i] == (x + a + y)[|x| + i];
      assert b[i] == (x + b + y)[|x| + i];
    }
  }

  /** A common prefix can be dropped. */
  lemma PrefixCancel(x: string, s: string, t: string)
    requires x + s == x + t
    ensures s == t
  {
    assert s == (x + s)[|x|..];
    assert t == (x + t)[|x|..];
  }

  /**
   * Changing the value in one hole of a template changes the text, and
   * only an equal value gives the same text: each hole is inserted verbatim.
   */
  lemma {:induction false} InterpolateOneHole(literals: seq<string>, values: seq<string>, k: nat, a: string, b: string)
    requires |literals| == |values| + 1 && k < |values|
    ensures Interpolate(literals, values[k := a]) == Interpolate(literals, values[k := b]) <==> a == b
    decreases k
  {
    var va, vb := values[k := a], values[k := b];
    if k == 0 {
      assert va[1..] == vb[1..];
      var rest := Interpolate(literals[1..], va[1..]);
      if Interpolate(literals, va) == Interpolate(literals, vb) {
        ConcatCancel(literals[0], a, b, rest);
      }
    } else {
      assert va[1..] == values[1..][k - 1 := a];
      assert vb[1..] == values[1..][k - 1 := b];
      assert va[0] == vb[0];
      InterpolateOneHole(literals[1..], values[1..], k - 1, a, b);
      if Interpolate(literals, va) == Interpolate(literals, vb) {
        PrefixCancel(literals[0] + va[0], Interpolate(literals[1..], va[1..]), Interpolate(literals[1..], vb[1..]));
      }
    }
  }

  /** Two field values give the same `|| "Any"` text exactly when they are equal or are `""` and `"Any"`. */
  predicate SameOrBlankAny(v: string, w: string)
  {
    v == w || (v == "" && w == "Any") || (v == "Any" && w == "")
  }

  /** Only the empty string is blank: a whitespace-only value is kept as it is. */
  lemma OrAnyBlankOnlyWhenEmpty(v: string, w: string)
    ensures OrAny(v) == OrAny(w) <==> SameOrBlankAny(v, w)
    ensures OrAny(v) == "Any" <==> v == "" || v == "Any"
    ensures v != "" ==> OrAny(v) == v
  {
  }

  lemma VegPreferenceInjective(a: bool, b: bool)
    ensures VegPreference(a) == VegPreference(b) <==> a == b
  {
    if a != b {
      assert VegPreference(a)[0] != VegPreference(b)[0];
    }
  }

  /** The quick-mode prompt depends on the diet flag and on nothing else. */
  lemma QuickModePromptOnlyIsVeg(f: SearchFilters, g: SearchFilters)
    ensures SuggestPrompt(f, true) == SuggestPrompt(g, true) <==> f.isVeg == g.isVeg
  {
    var vs: seq<string> := [VegPreference(f.isVeg)];
    assert vs[0 := VegPreference(g.isVeg)] == [VegPreference(g.isVeg)];
    InterpolateOneHole(QuickModeLiterals, vs, 0, VegPreference(f.isVeg), VegPreference(g.isVeg));
    VegPreferenceInjective(f.isVeg, g.isVeg);
  }

  /** In the filtered prompt a blank `ingredients` reads as "Any"; any other value is inserted verbatim. */
  lemma FilteredPromptIngredients(f: SearchFilters, v: string, w: string)
    ensures FilteredPrompt(f.(ingredients := v)) == FilteredPrompt(f.(ingredients := w)) <==> SameOrBlankAny(v, w)
  {
    var vs := FilteredValues(f);
    assert FilteredValues(f.(ingredients := v)) == vs[0 := OrAny(v)];
    assert FilteredValues(f.(ingredients := w)) == vs[0 := OrAny(w)];
    InterpolateOneHole(FilteredLiterals, vs, 0, OrAny(v), OrAny(w));
    OrAnyBlankOnlyWhenEmpty(v, w);
  }

  lemma FilteredPromptMealType(f: SearchFilters, v: string, w: string)
    ensures FilteredPrompt(f.(mealType := v)) == FilteredPrompt(f.(mealType := w)) <==> SameOrBlankAny(v, w)
  {
    var vs := FilteredValues(f);
    assert FilteredValues(f.(mealType := v)) == vs[1 := OrAny(v)];
    assert FilteredValues(f.(mealType := w)) == vs[1 := OrAny(w)];
    InterpolateOneHole(FilteredLiterals, vs, 1, OrAny(v), OrAny(w));
    OrAnyBlankOnlyWhenEmpty(v, w);
  }

  lemma FilteredPromptCuisine(f: SearchFilters, v: string, w: string)
    ensures FilteredPrompt(f.(cuisine := v)) == FilteredPrompt(f.(cuisine := w)) <==> SameOrBlankAny(v, w)
  {
    var vs := FilteredValues(f);
    assert FilteredValues(f.(cuisine := v)) == vs[4 := OrAny(v)];
    assert FilteredValues(f.(cuisine := w)) == vs[4 := OrAny(w)];
    InterpolateOneHole(FilteredLiterals, vs, 4, OrAny(v), OrAny(w));
    OrAnyBlankOnlyWhenEmpty(v, w);
  }

  /** The time limit is inserted verbatim (before " minutes"), with no default: even `""` stays `""`. */
  lemma FilteredPromptTimeLimit(f: SearchFilters, v: string, w: string)
    ensures FilteredPrompt(f.(timeLimit := v)) == FilteredPrompt(f.(timeLimit := w)) <==> v == w
  {
    var vs := FilteredValues(f);
    assert FilteredValues(f.(timeLimit := v)) == vs[2 := v];
    assert FilteredValues(f.(timeLimit := w)) == vs[2 := w];
    InterpolateOneHole(FilteredLiterals, vs, 2, v, w);
  }

  lemma FilteredPromptSpiceLevel(f: SearchFilters, s: SpiceLevel, t: SpiceLevel)
    ensures FilteredPrompt(f.(spiceLevel := s)) == FilteredPrompt(f.(spiceLevel := t)) <==> s == t
  {
    var vs := FilteredValues(f);
    assert FilteredValues(f.(spiceLevel := s)) == vs[3 := SpiceLevelName(s)];
    assert FilteredValues(f.(spiceLevel := t)) == vs[3 := SpiceLevelName(t)];
    InterpolateOneHole(FilteredLiterals, vs, 3, SpiceLevelName(s), SpiceLevelName(t));
    SpiceLevelNameInjective(s, t);
  }

  /** The diet flag selects the same sentence as in quick mode, and the two sentences differ. */
  lemma FilteredPromptIsVeg(f: SearchFilters, a: bool, b: bool)
    ensures FilteredPrompt(f.(isVeg := a)) == FilteredPrompt(f.(isVeg := b)) <==> a == b
  {
    var vs := FilteredValues(f);
    assert FilteredValues(f.(isVeg := a)) == vs[5 := VegPreference(a)];
    assert FilteredValues(f.(isVeg := b)) == vs[5 := VegPreference(b)];
    InterpolateOneHole(FilteredLiterals, vs, 5, VegPreference(a), VegPreference(b));
    VegPreferenceInjective(a, b);
  }

  /** A worked case: ingredients given, cuisine and meal type blank, vegetarian. */
  lemma FilteredPromptExample()
    ensures FilteredPrompt(SearchFilters(true, "Potato, Paneer", "30", SpiceLevel.Medium, "", ""))
         == Interpolate(FilteredLiterals, ["Potato, Paneer", "Any", "30", "Medium", "Any", "Vegetarian ONLY"])
  {
  }

  /** The weekly-plan prompt depends on the diet flag only, and the two diets read differently. */
  lemma WeeklyPlanPromptOnlyIsVeg(a: bool, b: bool)
    ensures WeeklyPlanPrompt(a) == WeeklyPlanPrompt(b) <==> a == b
  {
    var vs: seq<string> := [WeeklyPlanDiet(a)];
    assert vs[0 := WeeklyPlanDiet(b)] == [WeeklyPlanDiet(b)];
    InterpolateOneHole(WeeklyPlanLiterals, vs, 0, WeeklyPlanDiet(a), WeeklyPlanDiet(b));
    if a != b {
      assert WeeklyPlanDiet(a)[0] != WeeklyPlanDiet(b)[0];
    }
  }

  // ---------------------------------------------------------------------
  // Requests and the fail-soft result rule
  // ---------------------------------------------------------------------

  /** What is sent: a prompt and the schema the JSON answer must follow. */
  datatype Request = Request(prompt: string, responseSchema: Schema)

  /** What the call does: it throws, or it returns a response whose text may be absent. */
  datatype CallOutcome = Threw | Returned(text: Option<string>)

  function SuggestRequest(f: SearchFilters, quickMode: bool): Request
  {
    Request(SuggestPrompt(f, quickMode), ArraySchema(RecipeSchema))
  }

  function WeeklyPlanRequest(isVeg: bool): Request
  {
    Request(WeeklyPlanPrompt(isVeg), ArraySchema(DailyPlanSchema))
  }

  const TrendingRequest: Request := Request(TrendingPrompt, ArraySchema(RecipeSchema))

  /** `response.text || "[]"`: absent or empty text is read as an empty JSON array. */
  function ResponseJson(text: Option<string>): (json: string)
    ensures json != ""
    ensures text.Some? && text.value != "" ==> json == text.value
    ensures text == None || text == Some("") ==> json == "[]"
  {
    if text.Some? && text.value != "" then text.value else "[]"
  }

  /**
   * The result of one operation: a throw anywhere, in the call or in the
   * parse, gives `[]`; a successful parse is returned as it is.
   */
  function Settle<T>(outcome: CallOutcome, parse: string -> Option<seq<T>>): (r: seq<T>)
    ensures outcome.Threw? ==> r == []
    ensures outcome.Returned? && parse(ResponseJson(outcome.text)).None? ==> r == []
    ensures outcome.Returned? && parse(ResponseJson(outcome.text)).Some? ==> r == parse(ResponseJson(outcome.text)).value
    ensures r != [] ==> outcome.Returned? && parse(ResponseJson(outcome.text)) == Some(r)
  {
    match outcome
    case Threw => []
    case Returned(text) =>
      match parse(ResponseJson(text))
      case None => []
      case Some(xs) => xs
  }

  /** With a parser that reads `"[]"` as the empty array, absent or empty text gives `[]`. */
  lemma AbsentTextIsEmpty<T>(text: Option<string>, parse: string -> Option<seq<T>>)
    requires parse("[]") == Some([])
    requires text == None || text == Some("")
    ensures Settle(Returned(text), parse) == []
  {
  }

  /** Non-empty text is parsed as it is: it is not replaced by `"[]"`. */
  lemma PresentTextIsParsed<T>(text: string, parse: string -> Option<seq<T>>)
    requires text != ""
    ensures Settle(Returned(Some(text)), parse) == parse(text).GetOr([])
  {
  }

  /** `suggestRecipes`: the recipes parsed from the answer to the search prompt, or `[]` on any failure. */
  function SuggestRecipes(f: SearchFilters, quickMode: bool, service: Request -> CallOutcome,
                          parse: string -> Option<seq<Recipe>>): (r: seq<Recipe>)
    ensures r != [] ==> var o := service(SuggestRequest(f, quickMode));
                        o.Returned? && parse(ResponseJson(o.text)) == Some(r)
    ensures service(SuggestRequest(f, quickMode)).Threw? ==> r == []
    ensures var o := service(SuggestRequest(f, quickMode));
            o.Returned? && parse(ResponseJson(o.text)).Some? ==> r == parse(ResponseJson(o.text)).value
  {
    Settle(service(SuggestRequest(f, quickMode)), parse)
  }

  /** `generateWeeklyPlan`: the days parsed from the answer, however many there are, or `[]` on any failure. */
  function GenerateWeeklyPlan(isVeg: bool, service: Request -> CallOutcome,
                              parse: string -> Option<seq<WeeklyPlanDay>>): (r: seq<WeeklyPlanDay>)
    ensures r != [] ==> var o := service(WeeklyPlanRequest(isVeg));
                        o.Returned? && parse(ResponseJson(o.text)) == Some(r)
    ensures service(WeeklyPlanRequest(isVeg)).Threw? ==> r == []
    ensures var o := service(WeeklyPlanRequest(isVeg));
            o.Returned? && parse(ResponseJson(o.text)).Some? ==> r == parse(ResponseJson(o.text)).value
  {
    Settle(service(WeeklyPlanRequest(isVeg)), parse)
  }

  /** `getTrendingRecipes`: a fixed request, no filters. */
  function GetTrendingRecipes(service: Request -> CallOutcome,
                              parse: string -> Option<seq<Recipe>>): (r: seq<Recipe>)
    ensures r != [] ==> var o := service(TrendingRequest);
                        o.Returned? && parse(ResponseJson(o.text)) == Some(r)
    ensures service(TrendingRequest).Threw? ==> r == []
    ensures var o := service(TrendingRequest);
            o.Returned? && parse(ResponseJson(o.text)).Some? ==> r == parse(ResponseJson(o.text)).value
  {
    Settle(service(TrendingRequest), parse)
  }

  /** In quick mode the whole request, and so the result, depends on the diet flag only. */
  lemma QuickModeIgnoresOtherFilters(f: SearchFilters, g: SearchFilters, service: Request -> CallOutcome,
                                     parse: string -> Option<seq<Recipe>>)
    requires f.isVeg == g.isVeg
    ensures SuggestRequest(f, true) == SuggestRequest(g, true)
    ensures SuggestRecipes(f, true, service, parse) == SuggestRecipes(g, true, service, parse)
  {
    QuickModePromptOnlyIsVeg(f, g);
  }
}
