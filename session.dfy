/** The page script as it runs: the session state is an object that survives the
    re-runs, and each run updates it in place, key by key, in the order the
    script writes them. Each method is proved to leave exactly the state the
    matching function of `Workflow` gives, so every lemma proved there holds of
    these runs too. */
module App {
  import opened Values
  import opened Collaborators
  import opened Workflow

  class Session {
    /** `st.session_state`, restricted to the keys of the workflow. */
    var store: Store

    /** A new browser session: the state is empty before the first run. */
    constructor ()
      ensures store == map[]
    {
      store := map[];
    }

    /** The initialisation at the top of the script: six tests, each filling in one
        missing key. */
    method InitDefaults()
      modifies this
      ensures store == WithDefaults(old(store))
    {
      ghost var st0, done := store, {};
      assert store == WithDefaultsFor(st0, done);
      SetDefault(st0, done, PageKey, Str(PageHome));
      done := done + {PageKey};
      SetDefault(st0, done, IngredientsKey, Str(""));
      done := done + {IngredientsKey};
      SetDefault(st0, done, PreferencesKey, Dict([]));
      done := done + {PreferencesKey};
      SetDefault(st0, done, DishKey, Str(""));
      done := done + {DishKey};
      SetDefault(st0, done, RecipeKey, Str(""));
      done := done + {RecipeKey};
      SetDefault(st0, done, DishImageKey, Str(""));
      done := done + {DishImageKey};
      assert done == SessionKeys;
      DefaultsForAll(st0);
    }

    /** One test of the initialisation: `key` gets `value`, its default, when it is
        missing. */
    method SetDefault(ghost st0: Store, ghost done: set<Key>, key: Key, value: Value)
      requires store == WithDefaultsFor(st0, done) && value == Default(key)
      modifies this
      ensures store == WithDefaultsFor(st0, done + {key})
    {
      DefaultOneMore(st0, done, key);
      if key !in store {
        store := store[key := value];
      }
    }

    /** `go_to_page(page)`: only `page` changes; the re-run it asks for is the next
        call of `Run`. */
    method GoToPage(page: string)
      modifies this
      ensures store == GoTo(old(store), page)
      ensures SameExcept(old(store), store, {PageKey})
    {
      store := store[PageKey := Str(page)];
    }

    /** `title_page`. */
    method TitlePage(start: bool)
      modifies this
      ensures store == AfterTitle(old(store), start)
    {
      if start {
        GoToPage(PageUpload);
      }
    }

    /** `upload_page`. */
    method UploadPage(upload: Option<Image>, next: bool, env: Env)
      modifies this
      ensures store == AfterUpload(old(store), upload, next, env)
    {
      if upload.Some? {
        if next {
          store := store[IngredientsKey := Str(AnalyzeFridge(env, upload.value))];
          GoToPage(PagePreferences);
        }
      }
    }

    /** `preferences_page`. */
    method PreferencesPage(submit: bool, form: Form)
      modifies this
      ensures store == AfterPreferences(old(store), submit, form)
    {
      if submit {
        store := store[PreferencesKey := Dict(PreferenceEntries(form))];
        GoToPage(PageLoading);
      }
    }

    /** `loading_page`: the reads, the two calls to the text model in order, the
        image search, then the three writes and the move to the results page. */
    method LoadingPage(env: Env)
      requires Initialized(store)
      modifies this
      ensures store == AfterLoading(old(store), env)
    {
      var ingredients := store[IngredientsKey].s;
      var preferences := store[PreferencesKey].entries;
      var summary := Summary(preferences);
      var dish := SuggestDish(env, ingredients, summary);
      var recipe := SuggestRecipe(env, ingredients, summary, dish);
      store := store[DishKey := Str(dish)];
      store := store[RecipeKey := Str(recipe)];
      store := store[DishImageKey := ImageValue(GetDishImage(env, dish))];
      GoToPage(PageResults);
    }

    /** `results_page`: the three buttons, tested in the order of the columns. */
    method ResultsPage(button: ResultsButton)
      modifies this
      ensures store == AfterResults(old(store), button)
    {
      if button == Homepage {
        GoToPage(PageHome);
      } else if button == ChangePreferences {
        GoToPage(PagePreferences);
      } else if button == GetAnother {
        GoToPage(PageLoading);
      }
    }

    /** One run of the script: the initialisation, then the routing. */
    method Run(w: Widgets, env: Env)
      requires ShapesOk(store)
      modifies this
      ensures store == Step(old(store), w, env)
      ensures Initialized(store)
    {
      InitDefaults();
      InitEstablishes(old(store));
      RoutePage(w, env);
    }

    /** The `if`/`elif` chain that calls the handler of the current page. */
    method RoutePage(w: Widgets, env: Env)
      requires Initialized(store)
      modifies this
      ensures store == Dispatch(old(store), w, env)
    {
      var page := store[PageKey].s;
      if page == PageHome {
        TitlePage(w.start);
      } else if page == PageUpload {
        UploadPage(w.upload, w.next, env);
      } else if page == PagePreferences {
        PreferencesPage(w.submit, w.form);
      } else if page == PageLoading {
        LoadingPage(env);
      } else if page == PageResults {
        ResultsPage(w.button);
      }
    }
  }
}
