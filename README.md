# letAIcook page workflow, modelled in Dafny

letAIcook is a Streamlit app. The user photographs a fridge, a vision model lists the
ingredients, the user fills in a preferences form, and a text model suggests a dish
and then a recipe. An image search then illustrates the dish.

Streamlit re-runs the whole script on every interaction. Each run first fills in the
missing keys of `st.session_state`, then an `if`/`elif` chain on `page` calls one
page function. That function may write a few keys and call `go_to_page`, which sets
`page` and asks for another run.

This project models that workflow. Its modules are:

- `Values`: what the session state holds (`str`, a dict of preferences, `None`), Python
  truthiness, and the text `str()` gives for an `int` or a `bool`.
- `Text`: `", ".join(...)`, `str.format` with named placeholders, and `str.strip()`.
- `Collaborators`: the vision model, the text model and the image search, each an
  uninterpreted function in an `Env` record handed to every run. The prompt
  templates sit in the same record, with the placeholders the code fills in.
  `get_dish_image`'s selection of the first hit is modelled exactly.
- `Workflow`: the session state as a map from the six keys to values. It holds the
  initialisation, `go_to_page`, what each page function does to the state, the
  router, and one run of the script (`Step`) as functions, with the properties of
  each page as lemmas. It also holds the stage graph, to which every run
  conforms.
- `App`: the class `Session`. Its `store` field is the session state, and there is
  one method per page function. Each method updates `store` in place in the
  script's order and is proved to end in the state the matching `Workflow`
  function gives.
- `Scenario`: a whole session from an empty state to the results page.

One run of the script takes a `Widgets` record, which holds what the user did in
that run: buttons pressed, the uploaded photo and the form's values. Since
`Env` comes anew with each run, "Get another" may produce a different dish.

In these places the model follows the code, where a reader might expect otherwise:

- Submitting the preferences form stores `additions` as one more preference. It
  does not append it to `ingredients`.
- "Homepage" on the results page changes only `page`. Nothing is reset.
- With no photo, or with "Next" not pressed, the upload page does nothing. It
  shows no message.
- The loading page asks for a recipe even when the suggested dish is the empty
  string.
- A failure of a collaborator is not caught by the code, so the model has no
  recoverable error state.

## Model

| member | source | states |
|---|---|---|
| Values.NatToDecimal | app.py:127 | `str` of a natural number is a non-empty string of digits, with a leading `0` only for zero |
| Values.DecimalRoundTrip | app.py:127 | reading the printed calories back gives the number, so the summary carries the slider's value |
| Values.IntToDecimal | app.py:127 | `str` of an `int` starts with `-` exactly for negative numbers and is otherwise all digits |
| Values.IntToDecimalInjective | app.py:127 | different calorie values print differently |
| Text.Join | app.py:127 | `sep.join(parts)` has the parts' lengths plus one separator between each two neighbours, and starts with the first part |
| Text.JoinAppend | app.py:127 | joining one more part adds the separator and that part at the end, and adds only the part to an empty list |
| Text.JoinCons | app.py:127 | a part before a non-empty rest is followed by the separator and the join of the rest |
| Text.JoinEmptyIff | app.py:127 | with no empty part, the joined string is empty exactly when there are no parts |
| Text.Format | app.py:42 | `format` succeeds exactly when every placeholder has an argument and then gives the filled template; otherwise the `KeyError` names a placeholder with no argument |
| Text.HolesAppend | app.py:42 | the placeholders of two templates in a row are those of each |
| Text.FillAppend | app.py:47 | formatting distributes over concatenated templates |
| Text.FormatShowsArgument | app.py:47 | a placeholder's argument appears in the output between what the text before and after it formats to |
| Text.HoleAt | app.py:42 | a named placeholder stands at some position of the template |
| Text.FormatContainsArgument | app.py:42 | the formatted text contains the argument of every placeholder |
| Text.TrimStartSpec | app.py:39 | `lstrip` takes off a prefix that is all white space, and what remains does not start with white space |
| Text.TrimEndSpec | app.py:39 | `rstrip` takes off a suffix that is all white space, and what remains does not end with white space |
| Text.Strip | app.py:39 | `strip()` gives a string with no white space at either end |
| Text.StripSpec | app.py:44 | `strip()` takes off white space only: the reply is the stripped text with white space before and after |
| Text.StripStripped | app.py:49 | stripping a string with no white space at either end changes nothing, so stripping is idempotent |
| Collaborators.FirstImageUrl | app.py:57-61 | the first hit's URL exactly when the response has a non-empty `value` list, `None` otherwise |
| Collaborators.BarePrompts | app.py:29-30 | a dish prompt with the placeholders ingredients and preferences, and a recipe prompt with those two and dish |
| Collaborators.DishPrompt | app.py:42 | formatting the dish prompt with ingredients and preferences never raises `KeyError` |
| Collaborators.RecipePrompt | app.py:47 | formatting the recipe prompt with dish, ingredients and preferences never raises `KeyError` |
| Collaborators.DishPromptCarriesInputs | app.py:41-44 | the dish prompt sent to the text model contains the ingredients and the preference summary |
| Collaborators.RecipePromptCarriesInputs | app.py:46-49 | the recipe prompt contains the dish, the ingredients and the preference summary |
| Collaborators.AnalyzeFridge | app.py:32-39 | the ingredient list has no white space at either end, and it is the vision model's reply for the photo with only white space removed around it |
| Collaborators.SuggestDish | app.py:41-44 | the dish has no white space at either end, and it is the text model's reply to the dish prompt with only white space removed around it |
| Collaborators.SuggestRecipe | app.py:46-49 | the recipe has no white space at either end, and it is the text model's reply to the recipe prompt with only white space removed around it |
| Collaborators.GetDishImage | app.py:51-61 | the first URL the search finds for the dish, exactly when the `value` list is present and non-empty; `None` otherwise |
| Workflow.WithDefaults | app.py:64-75 | the initialisation adds each missing key with its default and keeps every present key's value |
| Workflow.KeyNameInjective | app.py:64-75 | the six session keys are distinct strings, so naming them by the `Key` datatype loses nothing |
| Workflow.Default | app.py:64-75 | the defaults are falsy except `page`, which is `home`; `preferences` starts as a dict and every other key as a string |
| Workflow.InitIdempotent | app.py:64-75 | running the initialisation twice is running it once |
| Workflow.InitEstablishes | app.py:64-75 | after the initialisation every key is present with its kind of value, and `page` names a page when it did before |
| Workflow.InitNoOpWhenInitialized | app.py:64-75 | the initialisation leaves an initialised state unchanged |
| Workflow.GoTo | app.py:77-79 | `go_to_page` sets `page` and changes no other key |
| Workflow.PreferenceEntries | app.py:112-119 | the submitted dictionary has the six keys in the form's order, each once |
| Workflow.AfterTitle | app.py:81-85 | "Start" sets the page to upload; without it the state is unchanged |
| Workflow.AfterUpload | app.py:87-95 | with a photo and "Next", `ingredients` becomes the stripped vision reply and the page becomes preferences; otherwise the state is unchanged |
| Workflow.AfterPreferences | app.py:97-120 | a submission stores the form's dictionary and sets the page to loading; otherwise the state is unchanged |
| Workflow.ImageValue | app.py:132 | the search's answer is stored as the URL or as `None`, and the results page later shows exactly that URL when it is non-empty |
| Workflow.AfterLoading | app.py:122-133 | the state stays initialised, the dish is the suggestion for the stored ingredients and summary, the recipe and the image are asked for that stored dish, and the page becomes results |
| Workflow.AfterResults | app.py:144-153 | no button leaves the state unchanged; a button follows an edge of the stage graph out of the results page; "Homepage" goes home |
| Values.Show | app.py:127 | `str` of a preference value: a string is itself, an `int` gets a minus sign exactly when negative and the digits after the sign read back to its absolute value, a `bool` prints as `True` or `False` |
| Workflow.Pair | app.py:127 | `f"{key}: {value}"` is as long as the key, the separator and the text together |
| Workflow.PairParts | app.py:127 | a pair reads back as its key, then `": "`, then its text |
| Workflow.Item | app.py:127 | one pair of the summary is as long as its key, the separator and the `str` of its value together |
| Workflow.Summary | app.py:127 | the preference summary is empty exactly when the dictionary is empty |
| Workflow.SummaryAppend | app.py:127 | the summary lists the pairs in dictionary order, separated by `", "` |
| Workflow.SummaryOfForm | app.py:127 | the summary of a submission is its six `key: value` pairs in order, with the calories in decimal and the checkbox as `True`/`False` |
| Workflow.ResultsImage | app.py:139-142 | the results page shows an image exactly when `dish_image` is truthy, and shows that URL |
| Workflow.Route | app.py:157-166 | the router picks a handler exactly when `page` is one of the five names, namely that page's handler |
| Workflow.RouteExactlyOne | app.py:157-166 | each handler is the one the router picks for its own page |
| Workflow.Handle | app.py:157-166 | every page handler keeps the state initialised |
| Workflow.Dispatch | app.py:157-166 | the routed handler, or nothing for an unknown page, keeps the state initialised |
| Workflow.Step | app.py:64-166 | one run of the script ends with every key present with its kind of value |
| Workflow.NextPageFollowsEdges | app.py:81-153 | a run stays on its page or follows one of the seven edges; the loading page always moves on to the results page |
| Workflow.EdgesTaken | app.py:81-153 | every edge of the stage graph is taken by some user action |
| Workflow.TitleStep | app.py:81-85 | on the home page "Start" leads to the upload page, and only `page` changes |
| Workflow.UploadStep | app.py:87-95 | with no photo or without "Next" nothing changes; with both, `ingredients` becomes the vision model's list, the page becomes preferences, and nothing else changes |
| Workflow.PreferencesStep | app.py:97-120 | a submission replaces the whole preferences dict with the form's six pairs and goes to loading; ingredients is unchanged; without submission nothing changes |
| Workflow.ResubmissionReplaces | app.py:111-120 | after a second pass through the form only the second submission's pairs remain |
| Workflow.LoadingStep | app.py:122-133 | the dish is asked for first, the recipe for that dish with the same ingredients and summary, the image for that dish; only those three keys and `page` change, and the page becomes results |
| Workflow.NoImageIsNotAnError | app.py:132-142 | a search with no hits still reaches the results page, with `dish_image` set to `None` and no image shown |
| Workflow.ResultsStep | app.py:144-153 | each results button changes only `page`; "Homepage" keeps ingredients, preferences, dish and recipe |
| Workflow.StepPage | app.py:157-166 | from a consistent state a run keeps the stage invariant and ends on the page the stage graph gives |
| Workflow.Runs | app.py:157-166 | any sequence of runs keeps the state consistent |
| Workflow.RunsFollowPages | app.py:157-166 | after any number of runs the page is the stage graph replayed on the user's actions, whatever the collaborators answered |
| Scenario.StartAndUpload | app.py:64-95 | from an empty state, "Start" then a photo with "Next" reach the preferences page holding the vision model's list |
| Scenario.LoadFromFridge | app.py:122-133 | the loading run stores the dish, the recipe and the first image URL, and keeps the ingredients and the submitted preferences |
| Scenario.SubmitAndLoad | app.py:97-133 | a submission followed by the loading run ends on results with the submitted preferences and the unchanged ingredients |
| Scenario.FullSession | app.py:64-166 | a whole session ends on the results page with the extracted ingredients (no additions appended), the submitted preferences, the dish, the recipe and the image URL |
| App.Session.constructor | app.py:64 | a new browser session starts with an empty state |
| App.Session.InitDefaults | app.py:64-75 | the six tests leave the state the initialisation function gives |
| App.Session.SetDefault | app.py:64-75 | one test of the initialisation extends by one key the part of the initialisation carried out |
| App.Session.GoToPage | app.py:77-79 | sets `page`; every other key keeps its value |
| App.Session.TitlePage | app.py:81-85 | updates the state as the home page's transition does |
| App.Session.UploadPage | app.py:87-95 | updates the state as the upload page's transition does |
| App.Session.PreferencesPage | app.py:97-120 | updates the state as the preferences page's transition does |
| App.Session.LoadingPage | app.py:122-133 | the reads, the calls and the writes in the script's order give the loading page's transition |
| App.Session.ResultsPage | app.py:144-153 | the buttons, tested in column order, give the results page's transition |
| App.Session.RoutePage | app.py:157-166 | the `if`/`elif` chain on `page` ends in the state the routing function gives |
| App.Session.Run | app.py:64-166 | one run of the script in place: initialisation and then the routed handler, ending in the state `Step` gives and initialised |

## Left out

- Rendering: titles, text, images, columns and the form's layout are not modelled, except the results page's choice between the dish image and the "no image" message (app.py:139-142), which `Workflow.ResultsImage` models. Otherwise only what each page writes to the session state is.
- `st.experimental_rerun` (app.py:79) raises and ends the current run, so nothing after a call of `go_to_page` runs (in `results_page` the later columns are never reached). The model ends the handler there and takes the requested re-run to be the next `Step`.
- Streamlit widget semantics: a run's widget values are an input record. At most one of the results page's buttons is pressed in a run.
- The vision model, the text model and the image search, with their HTTP calls, API keys, `generation_config` and JSON decoding, are uninterpreted functions: the two models return their raw reply text, and the image search returns its decoded response (the optional `value` list of hits, each with its `contentUrl`). The `.strip()` the code applies to the models' replies is modelled.
- Exceptions raised by the collaborators (network errors, an unsuccessful response) are not modelled. The code does not catch them. Since `loading_page` writes `dish` and `recipe` before it calls `get_dish_image` (app.py:130-132), a failing search would leave the new dish and recipe, the old `dish_image` and `page == 'loading'` in the session; the model has no such partial state.
- Collaborators.FirstImageUrl: a hit is a record that always has `contentUrl`, so the `KeyError` raised for a hit lacking it is not modelled.
- The wording of the three prompts and the parsing of braces in `str.format`. Templates are lists of literal text and named placeholders, with the placeholder names the code uses.
- The photo prompt and `analyze_fridge`'s temporary JPEG file and PIL decoding: the photo is a byte sequence given to the vision model.
- Other keys of `st.session_state` that Streamlit itself keeps are not modelled.
- `config.py` is not part of this model, and neither is `test.py`, a stand-alone script exercising the collaborators.
