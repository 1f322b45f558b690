/** What the workflow asks of the outside world: the vision model that lists the
    ingredients in a photo, the text model that suggests a dish and a recipe, and
    the image search. Each is an uninterpreted function handed in with `Env`; the
    model covers only what the workflow itself does around those calls. */
module Collaborators {
  import opened Values
  import opened Text

  /** An uploaded photo, as bytes. */
  datatype Image = Image(bytes: seq<bv8>)

  /** One hit of the image search. */
  datatype ImageHit = ImageHit(contentUrl: string)

  /** The decoded search response: its `"value"` list of hits, when it has one. */
  datatype SearchResponse = SearchResponse(value: Option<seq<ImageHit>>)

  /** The result selection of `get_dish_image`: the first hit's URL exactly when
      the response has a non-empty `"value"` list, and `None` otherwise. */
  function FirstImageUrl(response: SearchResponse): (r: Option<string>)
    ensures r.Some? <==> response.value.Some? && |response.value.value| > 0
    ensures r.Some? ==> r.value == response.value.value[0].contentUrl
  {
    match response.value
    case Some(hits) => if |hits| > 0 then Some(hits[0].contentUrl) else None
    case None => None
  }

  const IngredientsArg: string := "ingredients"
  const PreferencesArg: string := "preferences"
  const DishArg: string := "dish"

  /** The two prompt templates: the dish prompt has the placeholders
      `{ingredients}` and `{preferences}`, the recipe prompt those two and `{dish}`.
      Their wording is not part of this model. */
  datatype PromptTemplates = PromptTemplates(dish: Template, recipe: Template)

  predicate PlaceholdersOk(p: PromptTemplates)
  {
    && Holes(p.dish) == {IngredientsArg, PreferencesArg}
    && Holes(p.recipe) == {DishArg, IngredientsArg, PreferencesArg}
  }

  type Prompts = p: PromptTemplates | PlaceholdersOk(p) witness BarePrompts()

  /** Templates made of the placeholders alone, with no wording around them. */
  function BarePrompts(): (p: PromptTemplates)
    ensures PlaceholdersOk(p)
  {
    var dish := [Hole(IngredientsArg), Hole(PreferencesArg)];
    var recipe := [Hole(DishArg), Hole(IngredientsArg), Hole(PreferencesArg)];
    assert Holes(dish[1..]) == {PreferencesArg} by { assert dish[1..][1..] == []; }
    assert Holes(recipe[1..][1..]) == {PreferencesArg} by { assert recipe[1..][1..][1..] == []; }
    assert Holes(recipe[1..]) == {IngredientsArg, PreferencesArg};
    PromptTemplates(dish, recipe)
  }

  /** The collaborators of one run of the page script. `analyze` is the vision
      model on the uploaded photo, `generate` the text model on a prompt, `search`
      the image search on a query; the two models' answers are their raw reply
      text. A run may come with a different `Env` from the last, which is
      how the model lets "Get another" return a different suggestion. */
  datatype Env = Env(
    prompts: Prompts,
    analyze: Image -> string,
    generate: string -> string,
    search: string -> SearchResponse)

  function DishArgs(ingredients: string, preferences: string): map<string, string>
  {
    map[IngredientsArg := ingredients, PreferencesArg := preferences]
  }

  function RecipeArgs(ingredients: string, preferences: string, dish: string): map<string, string>
  {
    map[DishArg := dish, IngredientsArg := ingredients, PreferencesArg := preferences]
  }

  /** `dish_prompt.format(ingredients=..., preferences=...)`: never a `KeyError`,
      and the prompt carries both arguments. */
  function DishPrompt(p: Prompts, ingredients: string, preferences: string): (r: string)
    ensures Format(p.dish, DishArgs(ingredients, preferences)) == Ok(r)
  {
    Format(p.dish, DishArgs(ingredients, preferences)).text
  }

  /** `recipe_prompt.format(dish=..., ingredients=..., preferences=...)`. */
  function RecipePrompt(p: Prompts, ingredients: string, preferences: string, dish: string): (r: string)
    ensures Format(p.recipe, RecipeArgs(ingredients, preferences, dish)) == Ok(r)
  {
    Format(p.recipe, RecipeArgs(ingredients, preferences, dish)).text
  }

  /** The dish prompt holds the ingredients and the preference summary. */
  lemma DishPromptCarriesInputs(p: Prompts, ingredients: string, preferences: string)
    ensures Contains(DishPrompt(p, ingredients, preferences), ingredients)
    ensures Contains(DishPrompt(p, ingredients, preferences), preferences)
  {
    var args := DishArgs(ingredients, preferences);
    FormatContainsArgument(p.dish, args, IngredientsArg);
    FormatContainsArgument(p.dish, args, PreferencesArg);
  }

  /** The recipe prompt holds the dish, the ingredients and the preference summary. */
  lemma RecipePromptCarriesInputs(p: Prompts, ingredients: string, preferences: string, dish: string)
    ensures Contains(RecipePrompt(p, ingredients, preferences, dish), dish)
    ensures Contains(RecipePrompt(p, ingredients, preferences, dish), ingredients)
    ensures Contains(RecipePrompt(p, ingredients, preferences, dish), preferences)
  {
    var args := RecipeArgs(ingredients, preferences, dish);
    FormatContainsArgument(p.recipe, args, DishArg);
    FormatContainsArgument(p.recipe, args, IngredientsArg);
    FormatContainsArgument(p.recipe, args, PreferencesArg);
  }

  /** `analyze_fridge(image)`: the vision model's reply for the photo, stripped: a
      piece of that reply with no white space at either end. */
  function AnalyzeFridge(env: Env, image: Image): (r: string)
    ensures IsStripped(r)
    ensures exists pre, post :: env.analyze(image) == pre + r + post && AllSpace(pre) && AllSpace(post)
  {
    StripSpec(env.analyze(image));
    Strip(env.analyze(image))
  }

  /** `suggest_dish(ingredients, preferences)`: the text model's reply to the dish
      prompt, stripped. */
  function SuggestDish(env: Env, ingredients: string, preferences: string): (r: string)
    ensures IsStripped(r)
    ensures exists pre, post ::
      && env.generate(DishPrompt(env.prompts, ingredients, preferences)) == pre + r + post
      && AllSpace(pre) && AllSpace(post)
  {
    StripSpec(env.generate(DishPrompt(env.prompts, ingredients, preferences)));
    Strip(env.generate(DishPrompt(env.prompts, ingredients, preferences)))
  }

  /** `suggest_recipe(ingredients, preferences, dish)`: the text model's reply to the
      recipe prompt, stripped. */
  function SuggestRecipe(env: Env, ingredients: string, preferences: string, dish: string): (r: string)
    ensures IsStripped(r)
    ensures exists pre, post ::
      && env.generate(RecipePrompt(env.prompts, ingredients, preferences, dish)) == pre + r + post
      && AllSpace(pre) && AllSpace(post)
  {
    StripSpec(env.generate(RecipePrompt(env.prompts, ingredients, preferences, dish)));
    Strip(env.generate(RecipePrompt(env.prompts, ingredients, preferences, dish)))
  }

  /** `get_dish_image(dish_name)`: the first URL the image search finds for the
      dish, and `None` when it finds nothing. */
  function GetDishImage(env: Env, dish: string): (r: Option<string>)
    ensures r.Some? <==> env.search(dish).value.Some? && |env.search(dish).value.value| > 0
    ensures r.Some? ==> r.value == env.search(dish).value.value[0].contentUrl
  {
    FirstImageUrl(env.search(dish))
  }
}
