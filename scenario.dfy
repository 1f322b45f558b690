/** A whole session, from the first run of the script to the results page. */
module Scenario {
  import opened Values
  import opened Text
  import opened Collaborators
  import opened Workflow

  const Fridge: string := "2 eggs, 1L milk"
  const Dish: string := "Banana Pancakes"
  const Recipe: string := "Mix ingredients..."

  const PressStart: Widgets := Idle.(start := true)
  function UploadAndNext(photo: Image): Widgets { Idle.(upload := Some(photo), next := true) }
  function Submit(f: Form): Widgets { Idle.(submit := true, form := f) }

  /** Start on the home page, press "Start", upload a photo the vision model reads
      as two eggs and a litre of milk, submit any preferences form, and let the
      loading page ask for a dish, a recipe and an image: the session ends on the
      results page with the extracted ingredients (the form's additions not
      appended), the submitted preferences, the dish, the recipe and the image
      URL. */
  lemma FullSession(env: Env, photo: Image, f: Form, url: string)
    requires env.analyze(photo) == Fridge
    requires env.generate(DishPrompt(env.prompts, Fridge, Summary(PreferenceEntries(f)))) == Dish
    requires env.generate(RecipePrompt(env.prompts, Fridge, Summary(PreferenceEntries(f)), Dish)) == Recipe
    requires env.search(Dish) == SearchResponse(Some([ImageHit(url)]))
    ensures var s1 := Step(map[], PressStart, env);
      var s2 := Step(s1, UploadAndNext(photo), env);
      var s3 := Step(s2, Submit(f), env);
      var r := Step(s3, Idle, env);
      && Valid(r)
      && r[PageKey] == Str(PageResults)
      && r[IngredientsKey] == Str(Fridge)
      && r[PreferencesKey] == Dict(PreferenceEntries(f))
      && r[DishKey] == Str(Dish)
      && r[RecipeKey] == Str(Recipe)
      && r[DishImageKey] == Str(url)
  {
    StartAndUpload(env, photo);
    RepliesStripped();
    StripStripped(Fridge);
    SubmitAndLoad(Step(Step(map[], PressStart, env), UploadAndNext(photo), env), env, f, url);
  }

  /** From the preferences page with the fridge's ingredients: a submission and the
      loading run that follows. */
  lemma SubmitAndLoad(s2: Store, env: Env, f: Form, url: string)
    requires Valid(s2) && s2[PageKey] == Str(PagePreferences) && s2[IngredientsKey] == Str(Fridge)
    requires env.generate(DishPrompt(env.prompts, Fridge, Summary(PreferenceEntries(f)))) == Dish
    requires env.generate(RecipePrompt(env.prompts, Fridge, Summary(PreferenceEntries(f)), Dish)) == Recipe
    requires env.search(Dish) == SearchResponse(Some([ImageHit(url)]))
    ensures var r := Step(Step(s2, Submit(f), env), Idle, env);
      && Valid(r)
      && r[PageKey] == Str(PageResults)
      && r[IngredientsKey] == Str(Fridge)
      && r[PreferencesKey] == Dict(PreferenceEntries(f))
      && r[DishKey] == Str(Dish)
      && r[RecipeKey] == Str(Recipe)
      && r[DishImageKey] == Str(url)
  {
    PreferencesStep(s2, Submit(f), env);
    LoadFromFridge(Step(s2, Submit(f), env), env, f, url);
  }

  /** The loading run on the fridge's ingredients and the submitted form. */
  lemma LoadFromFridge(s3: Store, env: Env, f: Form, url: string)
    requires Valid(s3) && s3[PageKey] == Str(PageLoading) && s3[IngredientsKey] == Str(Fridge)
    requires s3[PreferencesKey] == Dict(PreferenceEntries(f))
    requires env.generate(DishPrompt(env.prompts, Fridge, Summary(PreferenceEntries(f)))) == Dish
    requires env.generate(RecipePrompt(env.prompts, Fridge, Summary(PreferenceEntries(f)), Dish)) == Recipe
    requires env.search(Dish) == SearchResponse(Some([ImageHit(url)]))
    ensures var r := Step(s3, Idle, env);
      && Valid(r)
      && r[PageKey] == Str(PageResults)
      && r[IngredientsKey] == Str(Fridge)
      && r[PreferencesKey] == Dict(PreferenceEntries(f))
      && r[DishKey] == Str(Dish)
      && r[RecipeKey] == Str(Recipe)
      && r[DishImageKey] == Str(url)
  {
    RepliesStripped();
    StripStripped(Dish);
    StripStripped(Recipe);
    LoadingStep(s3, Idle, env);
    var r := Step(s3, Idle, env);
    assert s3[IngredientsKey].s == Fridge;
    assert Summary(s3[PreferencesKey].entries) == Summary(PreferenceEntries(f));
    assert r[DishKey] == Str(Dish);
    assert GetDishImage(env, Dish) == Some(url);
  }

  /** The first two runs of a fresh session: the initialisation, "Start", then a
      photo and "Next" reach the preferences page with the vision model's list. */
  lemma StartAndUpload(env: Env, photo: Image)
    ensures var s1 := Step(map[], PressStart, env);
      var s2 := Step(s1, UploadAndNext(photo), env);
      && Valid(s2)
      && s2[PageKey] == Str(PagePreferences)
      && s2[IngredientsKey] == Str(AnalyzeFridge(env, photo))
  {
    var s0 := WithDefaults(map[]);
    InitEstablishes(map[]);
    InitIdempotent(map[]);
    assert Step(map[], PressStart, env) == Step(s0, PressStart, env);
    assert s0[PageKey] == Str(PageHome);
    TitleStep(s0, PressStart, env);
    var s1 := Step(s0, PressStart, env);
    UploadStep(s1, UploadAndNext(photo), env);
  }

  /** The replies of the scenario have no white space at either end. */
  lemma RepliesStripped()
    ensures IsStripped(Fridge) && IsStripped(Dish) && IsStripped(Recipe)
  {
  }
}
