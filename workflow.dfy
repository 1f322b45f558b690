/** The page-routing workflow of the app: the session state, its initialisation,
    what each page's handler does to the state, and the router that picks the
    handler for the current page. Everything here is a function of the old
    session state; the class `App.Session` carries these steps out in place. */
module Workflow {
  import opened Values
  import opened Text
  import opened Collaborators

  /** The keys of the session state the workflow uses. */
  datatype Key = PageKey | IngredientsKey | PreferencesKey | DishKey | RecipeKey | DishImageKey

  /** The string each key is stored under. */
  function KeyName(k: Key): string
  {
    match k
    case PageKey => "page"
    case IngredientsKey => "ingredients"
    case PreferencesKey => "preferences"
    case DishKey => "dish"
    case RecipeKey => "recipe"
    case DishImageKey => "dish_image"
  }

  /** Distinct keys are stored under distinct strings. */
  lemma KeyNameInjective(a: Key, b: Key)
    requires KeyName(a) == KeyName(b)
    ensures a == b
  {
  }

  const SessionKeys: set<Key> :=
    {PageKey, IngredientsKey, PreferencesKey, DishKey, RecipeKey, DishImageKey}

  // The page names the router knows.
  const PageHome: string := "home"
  const PageUpload: string := "upload"
  const PagePreferences: string := "preferences"
  const PageLoading: string := "loading"
  const PageResults: string := "results"

  predicate IsPageName(p: string)
  {
    p == PageHome || p == PageUpload || p == PagePreferences || p == PageLoading || p == PageResults
  }

  /** The session state: a dictionary from keys to values that survives the
      re-runs of the page script (other keys it may hold play no part here). */
  type Store = map<Key, Value>

  /** `a` and `b` agree on every key outside `keys`: each such key is in both or
      in neither, with the same value. */
  predicate SameExcept(a: Store, b: Store, keys: set<Key>)
  {
    && a.Keys - keys == b.Keys - keys
    && forall k :: k in a && k !in keys ==> k in b && a[k] == b[k]
  }

  /** The kind of value the workflow ever writes under each of its keys. */
  predicate ShapesOk(st: Store)
  {
    && (PageKey in st ==> st[PageKey].Str?)
    && (IngredientsKey in st ==> st[IngredientsKey].Str?)
    && (PreferencesKey in st ==>
          st[PreferencesKey].Dict? && DistinctKeys(st[PreferencesKey].entries))
    && (DishKey in st ==> st[DishKey].Str?)
    && (RecipeKey in st ==> st[RecipeKey].Str?)
    && (DishImageKey in st ==> st[DishImageKey].Str? || st[DishImageKey].NoneValue?)
  }

  /** Every key of the workflow is present, holding its kind of value. */
  predicate Initialized(st: Store)
  {
    SessionKeys <= st.Keys && ShapesOk(st)
  }

  /** The stage invariant: initialised, and `page` names one of the five pages. */
  predicate Valid(st: Store)
  {
    Initialized(st) && IsPageName(st[PageKey].s)
  }

  /** What may be found between two runs of the script, before initialisation:
      the right kinds of values, and a page name if `page` is there at all. */
  predicate Consistent(st: Store)
  {
    ShapesOk(st) && (PageKey in st ==> IsPageName(st[PageKey].s))
  }

  // ---------------------------------------------------------------- initialisation

  /** The value the initialisation stores under a missing key. */
  function Default(key: Key): (r: Value)
    ensures Truthy(r) <==> key == PageKey
    ensures key == PageKey ==> r == Str(PageHome)
    ensures r.Dict? <==> key == PreferencesKey
    ensures r.Str? || r.Dict?
  {
    if key == PageKey then Str(PageHome)
    else if key == PreferencesKey then Dict([])
    else Str("")
  }

  /** The initialisation at the top of the script: each missing key gets its
      default, and a key already present keeps its value. */
  function WithDefaults(st: Store): (r: Store)
    ensures r.Keys == st.Keys + SessionKeys
    ensures forall k :: k in st ==> r[k] == st[k]
    ensures forall k :: k in SessionKeys && k !in st ==> r[k] == Default(k)
  {
    map k | k in st.Keys + SessionKeys :: if k in st then st[k] else Default(k)
  }

  /** The initialisation carried out for some of the keys only. */
  function WithDefaultsFor(st: Store, keys: set<Key>): Store
  {
    map k | k in st.Keys + keys :: if k in st then st[k] else Default(k)
  }

  /** One more test of the initialisation extends the keys it has dealt with. */
  lemma DefaultOneMore(st: Store, keys: set<Key>, key: Key)
    ensures var s := WithDefaultsFor(st, keys);
      (if key in s then s else s[key := Default(key)]) == WithDefaultsFor(st, keys + {key})
  {
  }

  /** Dealing with every key of the workflow is the whole initialisation. */
  lemma DefaultsForAll(st: Store)
    ensures WithDefaultsFor(st, SessionKeys) == WithDefaults(st)
  {
  }

  /** Running the initialisation a second time changes nothing. */
  lemma InitIdempotent(st: Store)
    ensures WithDefaults(WithDefaults(st)) == WithDefaults(st)
  {
  }

  /** The initialisation gives a state with every key of the right kind, and from
      a consistent state one that keeps the stage invariant. */
  lemma InitEstablishes(st: Store)
    requires ShapesOk(st)
    ensures Initialized(WithDefaults(st))
    ensures Consistent(st) ==> Valid(WithDefaults(st))
  {
  }

  /** On an initialised state the initialisation does nothing. */
  lemma InitNoOpWhenInitialized(st: Store)
    requires Initialized(st)
    ensures WithDefaults(st) == st
  {
  }

  // ---------------------------------------------------------------- navigation

  /** `go_to_page(page)`: `page` becomes the given name; no other key changes. */
  function GoTo(st: Store, page: string): (r: Store)
    ensures SameExcept(st, r, {PageKey})
    ensures PageKey in r && r[PageKey] == Str(page)
  {
    st[PageKey := Str(page)]
  }

  // ---------------------------------------------------------------- the form

  const DietOptions: seq<string> := ["Vegan", "Vegetarian", "Meat Eater", "No preference"]
  const MealTypeOptions: seq<string> := ["Breakfast", "Lunch", "Dinner", "Snack"]
  const RestrictionOptions: seq<string> := ["Halal", "Kosher", "No preference"]

  /** A choice of the diet radio buttons. */
  type Diet = d: string | d in DietOptions witness "Vegan"
  /** A choice of the meal-type radio buttons. */
  type MealType = m: string | m in MealTypeOptions witness "Breakfast"
  /** A choice of the dietary-restriction radio buttons. */
  type Restriction = x: string | x in RestrictionOptions witness "Halal"
  /** A position of the calorie slider: 100 to 2000 in steps of 50, 500 at first. */
  type Calories = c: int | 100 <= c <= 2000 && (c - 100) % 50 == 0 witness 500

  /** The values of the preferences form's widgets in one run. */
  datatype Form = Form(
    diet: Diet,
    mealType: MealType,
    calories: Calories,
    restriction: Restriction,
    hungry: bool,
    additions: string)

  /** The keys of the preferences dictionary, in the order the form writes them. */
  const PreferenceKeys: seq<string> :=
    ["diet", "meal_type", "calories", "dietary_restriction", "hungry", "additions"]

  /** The dictionary a submission of the form builds. */
  function PreferenceEntries(f: Form): (r: seq<Entry>)
    ensures |r| == |PreferenceKeys|
    ensures forall i :: 0 <= i < |r| ==> r[i].0 == PreferenceKeys[i]
    ensures DistinctKeys(r)
  {
    [ ("diet", Text(f.diet)),
      ("meal_type", Text(f.mealType)),
      ("calories", Number(f.calories)),
      ("dietary_restriction", Text(f.restriction)),
      ("hungry", Flag(f.hungry)),
      ("additions", Text(f.additions)) ]
  }

  // ---------------------------------------------------------------- the preference summary

  /** `f"{key}: {text}"`. */
  function Pair(key: string, text: string): (r: string)
    ensures |r| == |key| + 2 + |text|
  {
    key + ": " + text
  }

  /** A pair reads back as its key, the separator `": "` and its text. */
  lemma PairParts(key: string, text: string)
    ensures var r := Pair(key, text);
      r[..|key|] == key && r[|key|..|key| + 2] == ": " && r[|key| + 2..] == text
  {
  }

  /** One pair of the summary, its value printed as `str` prints it. */
  function Item(e: Entry): (r: string)
    ensures |r| == |e.0| + 2 + |Show(e.1)|
  {
    Pair(e.0, Show(e.1))
  }

  function Items(entries: seq<Entry>): (r: seq<string>)
    ensures |r| == |entries|
    ensures forall i :: 0 <= i < |r| ==> r[i] == Item(entries[i])
  {
    seq(|entries|, i requires 0 <= i < |entries| => Item(entries[i]))
  }

  /** The preference summary the loading page sends to the text model: the pairs
      of the dictionary, in its order, joined by `", "`. It is empty exactly when
      the dictionary is. */
  function Summary(entries: seq<Entry>): (r: string)
    ensures r == "" <==> entries == []
  {
    var parts := Items(entries);
    assert forall i :: 0 <= i < |parts| ==> |parts[i]| >= 2;
    JoinEmptyIff(", ", parts);
    Join(", ", parts)
  }

  /** The summary lists the pairs in the dictionary's order: one more pair at the
      end adds `", "` and that pair at the end. */
  lemma SummaryAppend(entries: seq<Entry>, e: Entry)
    ensures Summary(entries + [e])
         == if entries == [] then Item(e) else Summary(entries) + ", " + Item(e)
  {
    assert Items(entries + [e]) == Items(entries) + [Item(e)];
    JoinAppend(", ", Items(entries), Item(e));
  }

  /** The summary of a submitted form: its six pairs in the form's order, the
      calories in decimal and the checkbox as `True` or `False`. */
  lemma SummaryOfForm(f: Form)
    ensures Summary(PreferenceEntries(f))
         == Join(", ", [ Pair("diet", f.diet),
                         Pair("meal_type", f.mealType),
                         Pair("calories", IntToDecimal(f.calories)),
                         Pair("dietary_restriction", f.restriction),
                         Pair("hungry", if f.hungry then "True" else "False"),
                         Pair("additions", f.additions) ])
  {
    var es := PreferenceEntries(f);
    assert Items(es)
        == [Item(es[0]), Item(es[1]), Item(es[2]), Item(es[3]), Item(es[4]), Item(es[5])];
  }

  // ---------------------------------------------------------------- the page handlers

  /** The results page's three buttons; at most one is pressed in a run. */
  datatype ResultsButton = NoButton | Homepage | ChangePreferences | GetAnother

  /** What the user did in one run of the script: the widgets of every page, of
      which each handler reads only its own. */
  datatype Widgets = Widgets(
    start: bool,
    upload: Option<Image>,
    next: bool,
    submit: bool,
    form: Form,
    button: ResultsButton)

  /** `title_page`: "Start" goes to the upload page. */
  function AfterTitle(st: Store, start: bool): (r: Store)
    ensures start ==> PageKey in r && r[PageKey] == Str(PageUpload)
    ensures !start ==> r == st
  {
    if start then GoTo(st, PageUpload) else st
  }

  /** `upload_page`: with a photo uploaded and "Next" pressed, the vision model's
      ingredient list replaces `ingredients` and the preferences page follows;
      otherwise nothing happens. */
  function AfterUpload(st: Store, upload: Option<Image>, next: bool, env: Env): (r: Store)
    ensures upload.Some? && next ==>
      && IngredientsKey in r && r[IngredientsKey] == Str(AnalyzeFridge(env, upload.value))
      && PageKey in r && r[PageKey] == Str(PagePreferences)
    ensures !(upload.Some? && next) ==> r == st
  {
    if upload.Some? && next
    then GoTo(st[IngredientsKey := Str(AnalyzeFridge(env, upload.value))], PagePreferences)
    else st
  }

  /** `preferences_page`: a submission stores a new dictionary built from the form
      alone and goes to the loading page. */
  function AfterPreferences(st: Store, submit: bool, form: Form): (r: Store)
    ensures submit ==>
      && PreferencesKey in r && r[PreferencesKey] == Dict(PreferenceEntries(form))
      && PageKey in r && r[PageKey] == Str(PageLoading)
    ensures !submit ==> r == st
  {
    if submit
    then GoTo(st[PreferencesKey := Dict(PreferenceEntries(form))], PageLoading)
    else st
  }

  /** What `get_dish_image` stores: the URL, or `None`. */
  function ImageValue(url: Option<string>): (r: Value)
    ensures r.Str? || r.NoneValue?
    ensures r.NoneValue? <==> url.None?
    ensures ResultsImage(r) == if url.Some? && url.value != "" then url else None
  {
    match url
    case Some(u) => Str(u)
    case None => NoneValue
  }

  /** `loading_page`: summarise the preferences, ask for a dish, then for a recipe
      of that dish, then search an image of it; store the three and show results. */
  function AfterLoading(st: Store, env: Env): (r: Store)
    requires Initialized(st)
    ensures Initialized(r)
    ensures r[PageKey] == Str(PageResults)
    ensures var ingredients := st[IngredientsKey].s;
      var summary := Summary(st[PreferencesKey].entries);
      && r[DishKey] == Str(SuggestDish(env, ingredients, summary))
      && r[RecipeKey] == Str(SuggestRecipe(env, ingredients, summary, r[DishKey].s))
      && r[DishImageKey] == ImageValue(GetDishImage(env, r[DishKey].s))
  {
    var ingredients := st[IngredientsKey].s;
    var summary := Summary(st[PreferencesKey].entries);
    var dish := SuggestDish(env, ingredients, summary);
    var recipe := SuggestRecipe(env, ingredients, summary, dish);
    var image := GetDishImage(env, dish);
    var answered := st[DishKey := Str(dish)][RecipeKey := Str(recipe)][DishImageKey := ImageValue(image)];
    assert Initialized(answered);
    GoTo(answered, PageResults)
  }

  /** `results_page`: each button only navigates. */
  function AfterResults(st: Store, button: ResultsButton): (r: Store)
    ensures button == NoButton ==> r == st
    ensures button != NoButton ==> PageKey in r && r[PageKey].Str? && (PageResults, r[PageKey].s) in Edges
    ensures button == Homepage ==> r[PageKey] == Str(PageHome)
  {
    match button
    case NoButton => st
    case Homepage => GoTo(st, PageHome)
    case ChangePreferences => GoTo(st, PagePreferences)
    case GetAnother => GoTo(st, PageLoading)
  }

  /** The image the results page shows for the stored `dish_image`: one exactly
      when the value is truthy; otherwise it shows the "no image" message. */
  function ResultsImage(v: Value): (r: Option<string>)
    requires v.Str? || v.NoneValue?
    ensures r.Some? <==> Truthy(v)
    ensures r.Some? ==> v == Str(r.value)
  {
    if v.Str? && v.s != "" then Some(v.s) else None
  }

  // ---------------------------------------------------------------- the router

  datatype Handler = TitleHandler | UploadHandler | PreferencesHandler | LoadingHandler | ResultsHandler

  /** The page each handler is for. */
  function HandlerPage(h: Handler): string
  {
    match h
    case TitleHandler => PageHome
    case UploadHandler => PageUpload
    case PreferencesHandler => PagePreferences
    case LoadingHandler => PageLoading
    case ResultsHandler => PageResults
  }

  /** The `if`/`elif` chain at the end of the script: the handler for the page
      named, and none for any other string. */
  function Route(page: string): (r: Option<Handler>)
    ensures r.Some? <==> IsPageName(page)
    ensures r.Some? ==> HandlerPage(r.value) == page
  {
    if page == PageHome then Some(TitleHandler)
    else if page == PageUpload then Some(UploadHandler)
    else if page == PagePreferences then Some(PreferencesHandler)
    else if page == PageLoading then Some(LoadingHandler)
    else if page == PageResults then Some(ResultsHandler)
    else None
  }

  /** Each handler is the one the router picks for its page, so no two pages share
      a handler. */
  lemma RouteExactlyOne(h: Handler)
    ensures Route(HandlerPage(h)) == Some(h)
  {
  }

  function Handle(st: Store, h: Handler, w: Widgets, env: Env): (r: Store)
    requires Initialized(st)
    ensures Initialized(r)
  {
    match h
    case TitleHandler => AfterTitle(st, w.start)
    case UploadHandler => AfterUpload(st, w.upload, w.next, env)
    case PreferencesHandler => AfterPreferences(st, w.submit, w.form)
    case LoadingHandler => AfterLoading(st, env)
    case ResultsHandler => AfterResults(st, w.button)
  }

  /** The routing at the end of the script: the handler of the current page, if
      `page` names one. */
  function Dispatch(st: Store, w: Widgets, env: Env): (r: Store)
    requires Initialized(st)
    ensures Initialized(r)
  {
    match Route(st[PageKey].s)
    case Some(h) => Handle(st, h, w, env)
    case None => st
  }

  /** One run of the script: initialise, then run the handler of the current page. */
  function Step(st: Store, w: Widgets, env: Env): (r: Store)
    requires ShapesOk(st)
    ensures Initialized(r)
  {
    InitEstablishes(st);
    Dispatch(WithDefaults(st), w, env)
  }

  // ---------------------------------------------------------------- the stage graph

  /** The edges between pages: the forward path and the three buttons of the
      results page. */
  const Edges: set<(string, string)> := {
    (PageHome, PageUpload),
    (PageUpload, PagePreferences),
    (PagePreferences, PageLoading),
    (PageLoading, PageResults),
    (PageResults, PageHome),
    (PageResults, PagePreferences),
    (PageResults, PageLoading)
  }

  /** The page after one run, from the page before and the widgets alone. */
  function NextPage(page: string, w: Widgets): string
  {
    if page == PageHome then (if w.start then PageUpload else page)
    else if page == PageUpload then (if w.upload.Some? && w.next then PagePreferences else page)
    else if page == PagePreferences then (if w.submit then PageLoading else page)
    else if page == PageLoading then PageResults
    else if page == PageResults then
      match w.button
      case NoButton => page
      case Homepage => PageHome
      case ChangePreferences => PagePreferences
      case GetAnother => PageLoading
    else page
  }

  /** A run stays on its page or follows an edge; the loading page never stays. */
  lemma NextPageFollowsEdges(page: string, w: Widgets)
    requires IsPageName(page)
    ensures IsPageName(NextPage(page, w))
    ensures NextPage(page, w) == page || (page, NextPage(page, w)) in Edges
    ensures page == PageLoading ==> NextPage(page, w) == PageResults
  {
  }

  const SomeForm: Form := Form("Vegan", "Breakfast", 500, "Halal", false, "")
  const Idle: Widgets := Widgets(false, None, false, false, SomeForm, NoButton)

  /** Every edge is taken by some user action. */
  lemma EdgesTaken(page: string, next: string)
    requires (page, next) in Edges
    ensures exists w :: NextPage(page, w) == next
  {
    if page == PageHome {
      assert NextPage(page, Idle.(start := true)) == next;
    } else if page == PageUpload {
      assert NextPage(page, Idle.(upload := Some(Image([])), next := true)) == next;
    } else if page == PagePreferences {
      assert NextPage(page, Idle.(submit := true)) == next;
    } else if page == PageLoading {
      assert NextPage(page, Idle) == next;
    } else if next == PageHome {
      assert NextPage(page, Idle.(button := Homepage)) == next;
    } else if next == PagePreferences {
      assert NextPage(page, Idle.(button := ChangePreferences)) == next;
    } else {
      assert NextPage(page, Idle.(button := GetAnother)) == next;
    }
  }

  /** On the home page, "Start" leads to the upload page, and only `page` changes. */
  lemma TitleStep(st: Store, w: Widgets, env: Env)
    requires Valid(st) && st[PageKey] == Str(PageHome)
    ensures var r := Step(st, w, env);
      && Valid(r)
      && SameExcept(st, r, {PageKey})
      && r[PageKey] == Str(if w.start then PageUpload else PageHome)
  {
    InitNoOpWhenInitialized(st);
  }

  /** On the upload page nothing happens unless a photo is uploaded and "Next"
      pressed; then the vision model's list becomes `ingredients`, the page becomes
      the preferences page, and nothing else changes. */
  lemma UploadStep(st: Store, w: Widgets, env: Env)
    requires Valid(st) && st[PageKey] == Str(PageUpload)
    ensures var r := Step(st, w, env);
      && Valid(r)
      && (w.upload.None? ==> r == st)
      && (!w.next ==> r == st)
      && (w.upload.Some? && w.next ==>
            && SameExcept(st, r, {IngredientsKey, PageKey})
            && r[IngredientsKey] == Str(AnalyzeFridge(env, w.upload.value))
            && r[PageKey] == Str(PagePreferences))
  {
    InitNoOpWhenInitialized(st);
  }

  /** A submission of the preferences form replaces the whole dictionary with the
      six pairs of this form, whatever was there before; `ingredients` is left as
      it is (the free-text additions go into the dictionary only); the page
      becomes the loading page; nothing else changes. Without a submission
      nothing happens. */
  lemma PreferencesStep(st: Store, w: Widgets, env: Env)
    requires Valid(st) && st[PageKey] == Str(PagePreferences)
    ensures var r := Step(st, w, env);
      && Valid(r)
      && (!w.submit ==> r == st)
      && (w.submit ==>
            && SameExcept(st, r, {PreferencesKey, PageKey})
            && r[PreferencesKey] == Dict(PreferenceEntries(w.form))
            && r[IngredientsKey] == st[IngredientsKey]
            && r[PageKey] == Str(PageLoading))
  {
    InitNoOpWhenInitialized(st);
  }

  /** Two submissions of the form, the second reached through the loading page
      and the results page's "Change preferences", leave exactly the pairs of the
      second one. */
  lemma ResubmissionReplaces(st: Store, w1: Widgets, w2: Widgets, w3: Widgets, env: Env)
    requires Valid(st) && st[PageKey] == Str(PagePreferences)
    requires w1.submit && w2.submit && w3.button == ChangePreferences
    ensures var r := Step(Step(Step(Step(st, w1, env), Idle, env), w3, env), w2, env);
      && Valid(r)
      && r[PreferencesKey] == Dict(PreferenceEntries(w2.form))
      && r[PageKey] == Str(PageLoading)
  {
    PreferencesStep(st, w1, env);
    var s1 := Step(st, w1, env);
    LoadingStep(s1, Idle, env);
    var s2 := Step(s1, Idle, env);
    ResultsStep(s2, w3, env);
    var s3 := Step(s2, w3, env);
    PreferencesStep(s3, w2, env);
  }

  /** The loading page asks for the dish first and then for a recipe of that very
      dish, with the same ingredients and preference summary; it stores the dish,
      the recipe and the image search's answer, goes to the results page, and
      changes nothing else. */
  lemma LoadingStep(st: Store, w: Widgets, env: Env)
    requires Valid(st) && st[PageKey] == Str(PageLoading)
    ensures var r := Step(st, w, env);
      var ingredients := st[IngredientsKey].s;
      var summary := Summary(st[PreferencesKey].entries);
      var dish := SuggestDish(env, ingredients, summary);
      && Valid(r)
      && SameExcept(st, r, {DishKey, RecipeKey, DishImageKey, PageKey})
      && r[DishKey] == Str(dish)
      && r[RecipeKey] == Str(SuggestRecipe(env, ingredients, summary, dish))
      && r[DishImageKey] == ImageValue(GetDishImage(env, dish))
      && r[PageKey] == Str(PageResults)
      && Contains(RecipePrompt(env.prompts, ingredients, summary, dish), dish)
  {
    InitNoOpWhenInitialized(st);
    var ingredients := st[IngredientsKey].s;
    var summary := Summary(st[PreferencesKey].entries);
    RecipePromptCarriesInputs(env.prompts, ingredients, summary, SuggestDish(env, ingredients, summary));
  }

  /** An image search with no hits is no error: the loading page still goes to the
      results page, `dish_image` is `None`, and the results page shows no image. */
  lemma NoImageIsNotAnError(st: Store, w: Widgets, env: Env)
    requires Valid(st) && st[PageKey] == Str(PageLoading)
    requires var dish := SuggestDish(env, st[IngredientsKey].s, Summary(st[PreferencesKey].entries));
      env.search(dish).value.None? || env.search(dish).value == Some([])
    ensures var r := Step(st, w, env);
      && Valid(r)
      && r[PageKey] == Str(PageResults)
      && r[DishImageKey] == NoneValue
      && ResultsImage(r[DishImageKey]) == None
  {
    LoadingStep(st, w, env);
  }

  /** The results page's buttons only navigate: "Homepage" keeps the ingredients,
      the preferences, the dish and the recipe (the session is not reset). */
  lemma ResultsStep(st: Store, w: Widgets, env: Env)
    requires Valid(st) && st[PageKey] == Str(PageResults)
    ensures var r := Step(st, w, env);
      && Valid(r)
      && SameExcept(st, r, {PageKey})
      && r[PageKey] == Str(NextPage(PageResults, w))
      && (w.button == Homepage ==>
            && r[PageKey] == Str(PageHome)
            && r[IngredientsKey] == st[IngredientsKey]
            && r[PreferencesKey] == st[PreferencesKey]
            && r[DishKey] == st[DishKey]
            && r[RecipeKey] == st[RecipeKey])
  {
    InitNoOpWhenInitialized(st);
  }

  /** A run keeps the stage invariant, and its page is the one the stage graph gives. */
  lemma StepPage(st: Store, w: Widgets, env: Env)
    requires Consistent(st)
    ensures Valid(Step(st, w, env))
    ensures Step(st, w, env)[PageKey] == Str(NextPage(WithDefaults(st)[PageKey].s, w))
  {
    InitEstablishes(st);
    var s := WithDefaults(st);
    InitIdempotent(st);
    assert Step(st, w, env) == Step(s, w, env);
    var page := s[PageKey].s;
    if page == PageHome {
      TitleStep(s, w, env);
    } else if page == PageUpload {
      UploadStep(s, w, env);
    } else if page == PagePreferences {
      PreferencesStep(s, w, env);
    } else if page == PageLoading {
      LoadingStep(s, w, env);
    } else {
      ResultsStep(s, w, env);
    }
  }

  /** Several runs in a row, each with its own widgets and collaborators. */
  function Runs(st: Store, ws: seq<Widgets>, envs: seq<Env>): (r: Store)
    requires Consistent(st) && |ws| == |envs|
    ensures Consistent(r)
    decreases |ws|
  {
    if ws == [] then st
    else
      StepPage(st, ws[0], envs[0]);
      Runs(Step(st, ws[0], envs[0]), ws[1..], envs[1..])
  }

  /** The page reached by following the stage graph through several runs. */
  function ReplayPages(page: string, ws: seq<Widgets>): string
    decreases |ws|
  {
    if ws == [] then page else ReplayPages(NextPage(page, ws[0]), ws[1..])
  }

  /** The page after several runs is the stage graph replayed on the user's actions:
      it does not depend on what the collaborators answered. */
  lemma {:induction false} RunsFollowPages(st: Store, ws: seq<Widgets>, envs: seq<Env>)
    requires Valid(st) && |ws| == |envs|
    ensures Valid(Runs(st, ws, envs))
    ensures Runs(st, ws, envs)[PageKey] == Str(ReplayPages(st[PageKey].s, ws))
    decreases |ws|
  {
    if ws != [] {
      InitNoOpWhenInitialized(st);
      StepPage(st, ws[0], envs[0]);
      RunsFollowPages(Step(st, ws[0], envs[0]), ws[1..], envs[1..]);
    }
  }
}
