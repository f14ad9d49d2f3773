/**
 * The recipe detail view: nothing when no recipe is selected; otherwise a
 * larger placeholder image with the card's seed rule, the diet badge, a
 * video-search link, the ingredients as bullets and the steps numbered
 * from 1.  `encodeURIComponent` is the parameter `encode`.
 */
module RecipeModal {
  import opened Wrappers
  import opened Types
  import RecipeCard

  const ModalImageSize: string := "/800/400"

  function ModalImageUrl(recipe: Recipe): (url: string)
    ensures RecipeCard.SeedOfPicsumUrl(url, ModalImageSize) == Some(RecipeCard.ImageSeed(recipe))
  {
    RecipeCard.PicsumUrlRoundTrip(RecipeCard.ImageSeed(recipe), ModalImageSize);
    RecipeCard.PicsumUrl(RecipeCard.ImageSeed(recipe), ModalImageSize)
  }

  /** The card and the detail view show the same picture, only at another size. */
  lemma ModalAndCardShareSeed(recipe: Recipe)
    ensures RecipeCard.SeedOfPicsumUrl(ModalImageUrl(recipe), ModalImageSize)
         == RecipeCard.SeedOfPicsumUrl(RecipeCard.CardImageUrl(recipe), RecipeCard.CardImageSize)
  {
  }

  const YoutubeSearchPrefix: string := "https://www.youtube.com/results?search_query="

  /** The video-search link: the fixed search address followed by the encoded "<name> recipe". */
  function YoutubeSearchUrl(name: string, encode: string -> string): (url: string)
    ensures QueryOfYoutubeUrl(url) == Some(encode(name + " recipe"))
  {
    YoutubeUrlRoundTrip(encode(name + " recipe"));
    YoutubeSearchPrefix + encode(name + " recipe")
  }

  /** Reads the query back out of a video-search address. */
  function QueryOfYoutubeUrl(url: string): Option<string>
  {
    if |YoutubeSearchPrefix| <= |url| && url[..|YoutubeSearchPrefix|] == YoutubeSearchPrefix
    then Some(url[|YoutubeSearchPrefix|..])
    else None
  }

  /** The query is read back exactly from the address built around it. */
  lemma YoutubeUrlRoundTrip(query: string)
    ensures QueryOfYoutubeUrl(YoutubeSearchPrefix + query) == Some(query)
  {
    var url := YoutubeSearchPrefix + query;
    assert url[..|YoutubeSearchPrefix|] == YoutubeSearchPrefix;
    assert url[|YoutubeSearchPrefix|..] == query;
  }

  /** One list entry of the ingredients. */
  datatype Bullet = Bullet(text: string)

  /** One instruction with the number shown beside it. */
  datatype NumberedStep = NumberedStep(number: nat, text: string)

  /** `ingredients.map(ing => <li>{ing}</li>)`: one bullet per ingredient, in order. */
  function Bullets(ingredients: seq<string>): (r: seq<Bullet>)
    ensures |r| == |ingredients|
    ensures forall i :: 0 <= i < |r| ==> r[i].text == ingredients[i]
  {
    if ingredients == [] then [] else [Bullet(ingredients[0])] + Bullets(ingredients[1..])
  }

  /** `steps.map((step, idx) => ... idx + 1 ...)`, numbering from `first`. */
  function NumberSteps(steps: seq<string>, first: nat): (r: seq<NumberedStep>)
    ensures |r| == |steps|
    ensures forall i :: 0 <= i < |r| ==> r[i] == NumberedStep(first + i, steps[i])
  {
    if steps == [] then [] else [NumberedStep(first, steps[0])] + NumberSteps(steps[1..], first + 1)
  }

  /** The texts of the numbered steps, with the numbers dropped. */
  function StepTexts(items: seq<NumberedStep>): seq<string>
  {
    if items == [] then [] else [items[0].text] + StepTexts(items[1..])
  }

  /** Numbering neither drops, adds nor reorders a step. */
  lemma {:induction false} NumberStepsRoundTrip(steps: seq<string>, first: nat)
    ensures StepTexts(NumberSteps(steps, first)) == steps
  {
    if steps != [] {
      NumberStepsRoundTrip(steps[1..], first + 1);
      assert NumberSteps(steps, first)[1..] == NumberSteps(steps[1..], first + 1);
    }
  }

  datatype ModalView = ModalView(
    imageUrl: string,
    badge: string,
    title: string,
    youtubeUrl: string,
    ingredients: seq<Bullet>,
    steps: seq<NumberedStep>)

  /** The detail view of the selected recipe, or nothing when none is selected. */
  function Render(recipe: Option<Recipe>, encode: string -> string): (v: Option<ModalView>)
    ensures v.None? <==> recipe.None?
    ensures v.Some? ==> RecipeCard.SeedOfPicsumUrl(v.value.imageUrl, ModalImageSize) == Some(RecipeCard.ImageSeed(recipe.value))
    ensures v.Some? ==> v.value.title == recipe.value.name
    ensures v.Some? ==> v.value.badge == RecipeCard.Badge(recipe.value.isVeg)
    ensures v.Some? ==> QueryOfYoutubeUrl(v.value.youtubeUrl) == Some(encode(recipe.value.name + " recipe"))
    ensures v.Some? ==> |v.value.ingredients| == |recipe.value.ingredients|
                        && forall i :: 0 <= i < |v.value.ingredients| ==> v.value.ingredients[i].text == recipe.value.ingredients[i]
    ensures v.Some? ==> |v.value.steps| == |recipe.value.steps|
                        && forall i :: 0 <= i < |v.value.steps| ==> v.value.steps[i] == NumberedStep(i + 1, recipe.value.steps[i])
  {
    match recipe
    case None => None
    case Some(r) =>
      Some(ModalView(ModalImageUrl(r), RecipeCard.Badge(r.isVeg), r.name,
                     YoutubeSearchUrl(r.name, encode), Bullets(r.ingredients), NumberSteps(r.steps, 1)))
  }
}
