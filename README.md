# DishDazzle core, modelled in Dafny

DishDazzle is a desktop recipe assistant. It asks an OpenRouter-hosted
language model for recipe suggestions, ingredient substitutions and cooking
help, and it keeps recipes, a pantry and a grocery list. This project models
the logic inside it that can be stated exactly, and proves what that logic
guarantees:

- **`Api`** (`src/api.py`) covers the request layer:
  - credential resolution in `initialize_api`;
  - the process-wide response cache and its keys;
  - the cache-hit, failed-initialisation and fetch branching of the two
    cached operations;
  - the two-stage parse of a reply;
  - the system messages of the two conversational operations.

  The module-level `response_cache` and `client` are the fields of the class
  `Gateway`. Each of its methods is tied to a function over a `GatewayState`
  value, so that properties spanning several calls can be stated as lemmas.
- **`Utils`** (`src/utils.py`) covers:
  - the default-key merge of `load_config`;
  - the single-key update of `update_config`;
  - `format_cooking_time`, with a reader that turns the text back into minutes;
  - `get_difficulty_color`.
- **`Models`** (`src/models.py`) covers `to_dict`/`from_dict` of the five
  records over a JSON dictionary, with their defaults.
- **`Markdown`** (`src/ui.py`, `markdown_to_html`) covers HTML escaping, the
  line-by-line `<ul>`/`<ol>` wrapping loop, and the final `<br>` join.
  - The loop is a method proved against a run-based definition.
- **`GroceryPantry`** (`src/ui.py`) covers the list logic of the pantry and
  grocery handlers:
  - case-insensitive upsert and removal;
  - the display text and how a selected entry is read back;
  - the "add recipe ingredients to grocery list" merge.
- **`CookingGuide`** (`src/ui.py`) covers:
  - the add-recipe dialog's line parser;
  - the "Step N: …" labels and their parse-back;
  - step navigation, as a class `StepList` holding the list widget's state.

The supporting modules are:

- `Wrappers`: `Option`.
- `JsonValues`: JSON values with Python truthiness.
- `Text`: lower-casing of ASCII letters, stripping of Python whitespace, find, split, join and replace.
- `Decimal`: integers as decimal text and back.
- `Sorting`: Python's string order and `sorted`.

Three parts of the program sit outside the model:

- The HTTP call is not modelled. Its outcome is an input `Reply`, either the
  reply text or the message of an exception.
- `json.loads` and the `re.search` that extracts a JSON fragment are function
  parameters, so every statement holds for any decoder and any extractor.
- The inline regex substitutions of `markdown_to_html` (bold, italics, code,
  headers, links) are likewise one function parameter `inline`.

## Model

| member | source | states |
|---|---|---|
| Api.ResolveCredentials | src/api.py:25-61 | Any model type other than "deepseek" or "llama" is rejected, and a resolved key is always truthy. |
| Api.NestedConfigResolves | src/api.py:34-47 | In the layout `api.openrouter.<type>`, a known model type resolves exactly when its entry has a truthy `api_key`. That key is used, and a missing model name falls back to the type's default. |
| Api.MalformedApiSectionRejected | src/api.py:34-61 | An `api` entry that is not a dictionary makes `.get` raise, so initialisation fails. |
| Api.RecipeKeyOrderInsensitive | src/api.py:75 | Recipe cache keys of two ingredient lists that are permutations of each other are equal. |
| Api.RecipeKeyCommaCollision | src/api.py:75 | The ingredient "egg,milk" and the pair "egg", "milk" share one recipe cache key. |
| Api.SubstitutionKeyCaseInsensitive | src/api.py:225 | Substitution cache keys of ingredients that differ only in letter case are equal. |
| Api.ParseReply | src/api.py:163-181 | There are three outcomes. A whole reply that decodes gives that value. Otherwise a decoding extracted fragment gives its value. Otherwise the result is "Failed to parse response" when a fragment was found and "No valid response found" when none was. |
| Api.ParseErrorsDistinct | src/api.py:177-181 | The two parse-error results are different dictionaries. |
| Api.Initialize | src/api.py:25-61 | Initialisation never touches the cache. On failure the state is unchanged. |
| Api.RecipeHitLeavesStateAlone | src/api.py:78-85 | On a cache hit the stored result is delivered unchanged, through the callback exactly when one is given, and the state does not change. |
| Api.RecipeInitFailureNotCached | src/api.py:88-96 | A failed initialisation yields `{"recipes": [], "error": "Failed to initialize API for <model>"}`, goes only to the callback when there is one, and changes nothing. |
| Api.SubstitutionInitFailureCallsBackAndReturns | src/api.py:238-245 | For substitutions with a callback, the init-failure result is both called back and returned, and nothing changes. |
| Api.RecipeExceptionNotCached | src/api.py:187-189 | An exception during the fetch returns `{"recipes": [], "error": message}` and leaves the cache unchanged. |
| Api.RepeatedRecipeRequestHitsCache | src/api.py:75-183 | After a synchronous fetch, including a parse error, a second request for any permutation of the ingredients receives the same result and changes no state. |
| Api.RepeatedSubstitutionRequestHitsCache | src/api.py:225-327 | After a synchronous fetch, a second request for the same ingredient in any letter case receives the same result and changes no state. |
| Api.ClearedCacheMisses | src/api.py:565-568 | After the cache is cleared, a request with failing credentials reports the init failure rather than a stale result. |
| Api.WithSystemMessage | src/api.py:512-518 | The result always starts with a system message. A list that already does is kept. Otherwise exactly the default system message is put in front of the unchanged list. |
| Api.WithSystemMessageIdempotent | src/api.py:512-518 | Ensuring the system message twice equals doing it once. |
| Api.ChatHistory.EnsureSystemMessage | src/api.py:512-518 | The caller's list gains at most one message, at the front, and the old messages follow in order. |
| Api.CookingSystemMessageShape | src/api.py:401-410 | The base text always leads. The message is only the base text exactly when the context is absent or empty. Otherwise it names the recipe, defaulting to "the recipe". A non-empty current step is then appended after "They are at the step:". Without one the message stops there. |
| Api.CookingAssistanceMessages | src/api.py:413-416 | Two messages are sent: a system message, then the user's query. |
| Api.AssistantResult | src/api.py:436-440 | For cooking assistance, and alike for chat at src/api.py:538-542, the result always has a "response", and has an "error" exactly when the call raised. |
| Api.Gateway.constructor | src/api.py:21-23 | The module starts with an empty cache and no client. |
| Api.Gateway.ClearCache | src/api.py:565-568 | Afterwards no key is in the cache, and the client is unchanged. |
| Api.Gateway.InitializeApi | src/api.py:25-61 | Returns true exactly when credentials resolve, replaces the client only then, and keeps the cache. |
| Api.Gateway.Fetch | src/api.py:111-189 | A reply's parse result is stored under the key. An exception's error result is not stored. |
| Api.Gateway.GetRecipeSuggestions | src/api.py:63-109 | The dispatch and new state are those of the hit / init-failure / thread / sync branching. |
| Api.Gateway.GetIngredientSubstitutions | src/api.py:213-258 | The same branching for substitutions, where an init failure with a callback both calls back and returns. |
| Api.Gateway.GetCookingAssistance | src/api.py:350-440 | The cache is never touched. On success the result is the reply and the messages sent are the system message and the query. On failure the result is the init-failure dictionary. |
| Api.Gateway.GetChatResponse | src/api.py:462-542 | The cache is never touched. On success the caller's list has gained the system message when it lacked one. On failure the list is untouched. |
| Utils.MergeDefaults | src/utils.py:81-84 | Every default key is present afterwards. Keys already loaded keep their values, and no other keys appear. |
| Utils.LoadConfig | src/utils.py:63-90 | A missing or unreadable file yields the defaults. A loaded dictionary yields it merged with the defaults. |
| Utils.UpdateConfig | src/utils.py:118-135 | Only the given key changes in the loaded configuration: the file's other keys keep their values, and the default keys the load added keep their default values. Success means the save succeeded. |
| Utils.CookingTimeRoundTrip | src/utils.py:197-215 | The text reads back as the same number of minutes, with every unit singular exactly when its number is 1. It has one number-unit pair below an hour or on a whole hour, and two otherwise. Below an hour the pair is the minutes. From an hour on, the first pair is the whole hours, and a second pair holds the remaining 1 to 59 minutes. |
| Utils.DifficultyColor | src/utils.py:218-233 | Easy, Medium and Hard map to green, orange and red. Every other text, other letter cases included, gets the grey default. |
| Models.StrListRoundTrip | src/models.py:54-68 | A list of strings stored as JSON reads back as the same list. |
| Models.IngredientRoundTrip | src/models.py:19-32 | `from_dict(to_dict(i)) == i`. |
| Models.IngredientDictRoundTrip | src/models.py:19-32 | A dictionary holding exactly a string name and amount survives `to_dict(from_dict(d))`. |
| Models.RecipeToDict | src/models.py:48-60 | The dictionary has exactly the nine field keys. |
| Models.IngredientsRoundTrip | src/models.py:53-65 | Ingredients survive conversion element by element, in order. |
| Models.RecipeRoundTrip | src/models.py:48-77 | `from_dict(to_dict(r)) == r`. |
| Models.EmptyDictGivesDefaultRecipe | src/models.py:63-77 | `from_dict({})` has id None, empty texts and lists, cooking time 0 and difficulty "Medium". |
| Models.GroceryItemRoundTrip | src/models.py:87-102 | `from_dict(to_dict(g)) == g`. |
| Models.GroceryItemDefaults | src/models.py:96-102 | A dictionary holding only a name gives amount "" and checked false. |
| Models.GroceryItemDictRoundTrip | src/models.py:87-102 | A well-typed three-key dictionary survives `to_dict(from_dict(d))`. |
| Models.PantryItemRoundTrip | src/models.py:111-124 | `from_dict(to_dict(p)) == p`. |
| Models.PantryItemDictRoundTrip | src/models.py:111-124 | A well-typed two-key dictionary survives `to_dict(from_dict(d))`. |
| Models.ChatMessageRoundTrip | src/models.py:134-148 | `from_dict(to_dict(m)) == m`. |
| Models.ChatMessageDefaults | src/models.py:143-148 | An empty dictionary gives content "", is_user true and timestamp "". |
| Models.ChatMessageDictRoundTrip | src/models.py:134-148 | A well-typed three-key dictionary survives `to_dict(from_dict(d))`. |
| Markdown.EscapeEach | src/ui.py:46 | No '<' and no '>' survives escaping. |
| Markdown.EscapeEscapesOnce | src/ui.py:46 | Replacing '&' first, then '<', then '>' escapes each input character exactly once. |
| Markdown.UnescapeEscape | src/ui.py:46 | Unescaping the escaped text gives the original text back. |
| Markdown.WrapLists | src/ui.py:68-111 | The line-by-line loop with its in-list flag produces exactly the run-based wrapping. |
| Markdown.WrapFromRuns | src/ui.py:72-86 | The loop's view, resumed at any line with any flag, agrees with wrapping maximal runs of items. |
| Markdown.WrapKeepsPlainText | src/ui.py:80-83 | Lines that are not list items pass through unchanged. |
| Markdown.WrapSingleRun | src/ui.py:73-86 | A run of items, even at the end of the text, gets one opening tag before it and one closing tag after it. |
| Markdown.WrapSplitsAtPlainLine | src/ui.py:79-83 | Wrapping distributes over a split before a plain line, so plain lines keep their order between runs. |
| Markdown.WrapKeepsLinesWhole | src/ui.py:68-111 | Wrapping introduces no line break when the rendered items and tags have none. |
| Markdown.ListPassesKeepLinesWhole | src/ui.py:68-111 | Neither list pass puts a line break inside a line. |
| Markdown.MarkdownToHtml | src/ui.py:37-116 | The result holds no '\n'. It is the escaped, inline-formatted text, wrapped for unordered and then ordered lists, rejoined, with breaks turned into `<br>`. |
| GroceryPantry.FirstMatch | src/ui.py:2221 | Gives the least index whose name matches ignoring case, or none when no name matches. |
| GroceryPantry.FindByName | src/ui.py:2297 | The search loop finds exactly that first match. |
| GroceryPantry.FirstMatchIsLeast | src/ui.py:2221 | No earlier item matches. |
| GroceryPantry.AddPantryItem | src/ui.py:2210-2226 | A blank name writes nothing. Otherwise the list written is the upsert of the stripped name and amount. |
| GroceryPantry.AddGroceryItem | src/ui.py:2286-2302 | The same for the grocery list, where a new item is unchecked. |
| GroceryPantry.UpsertPantryEffect | src/ui.py:2221-2226 | The length grows by at most one, and stays the same exactly when a name matches. Then only the first match's amount changes. Otherwise the new item is appended at the end. |
| GroceryPantry.UpsertGroceryEffect | src/ui.py:2297-2302 | The same for grocery items, keeping the checked flags and appending unchecked. |
| GroceryPantry.UpsertPantryIdempotent | src/ui.py:2221-2226 | Adding the same name and amount twice equals adding it once. |
| GroceryPantry.EntryTextReadsBack | src/ui.py:2247-2278 | The text before the first " - " of an entry is its name, whenever the name cannot form " - " with what follows. |
| GroceryPantry.PantryDisplayReadsBack | src/ui.py:2247-2278 | The name read back from a pantry entry is the item's name. |
| GroceryPantry.GroceryDisplayReadsBack | src/ui.py:2323-2362 | The name read back from a grocery entry is the item's name, unless an unchecked name itself starts with "[x] ". |
| GroceryPantry.SeparatorInNameCutsShort | src/ui.py:2247-2278 | The pantry item "salt - sea" shown with amount "1 kg" is read back as "salt". |
| GroceryPantry.TrailingDashCutsShort | src/ui.py:2247-2278 | The pantry item "a -" shown with amount "1" is read back as "a". |
| GroceryPantry.Kept | src/ui.py:2248 | An item is kept exactly when its name differs, ignoring case, from every selected name. The same filter serves the grocery list at src/ui.py:2328. |
| GroceryPantry.KeptInOrder | src/ui.py:2248 | The kept items sit at strictly increasing positions of the old list, so they keep their order, and every unselected position appears once. |
| GroceryPantry.RemovePantryItems | src/ui.py:2237-2249 | No selection writes nothing. Otherwise the loop of one filter per selected entry writes the items not named by any selection. |
| GroceryPantry.RemoveGroceryItems | src/ui.py:2313-2329 | The same for the grocery list, after removing a leading "[x] ". |
| GroceryPantry.KeptNothingRemoved | src/ui.py:2248 | When no item's name is selected, removal keeps the whole list, pantry or grocery. |
| GroceryPantry.Merged | src/ui.py:2066-2085 | The old list stays as a prefix. Every appended item is unchecked, is not in the pantry, and is the first of its name. |
| GroceryPantry.MergedFromIngredients | src/ui.py:2070-2085 | The appended items are recipe ingredients with their names and amounts, unchecked, taken at strictly increasing positions of the recipe, so in its order. |
| GroceryPantry.MergedCoversIngredients | src/ui.py:2070-2085 | Every recipe ingredient not in the pantry is on the resulting list. |
| GroceryPantry.AddToGroceryList | src/ui.py:2059-2088 | Without a recipe nothing is written and the count is 0. Otherwise the merged list is written and the count is the number of items appended. |
| CookingGuide.ParseIngredientLine | src/ui.py:2582-2589 | A blank line gives nothing and any other line an ingredient with stripped name and amount. A line without " - " gives the stripped line with amount "". |
| CookingGuide.ParseIngredientLineSplits | src/ui.py:2584-2587 | A line holding " - " gives the stripped parts on both sides of its first occurrence. |
| CookingGuide.ParseIngredients | src/ui.py:2581-2589 | The loop over the text's lines collects exactly the parsed non-blank lines, in order. |
| CookingGuide.CollectIngredients | src/ui.py:2582-2589 | The loop keeps, in order, the parsed ingredient of every line that is not blank, and nothing else. |
| CookingGuide.ParseInstructionLines | src/ui.py:2591 | Every instruction is non-empty and stripped. |
| CookingGuide.IngredientLineReadsBack | src/ui.py:2584-2589 | An ingredient written as "name - amount" parses back to itself. |
| CookingGuide.IngredientsBoxRoundTrip | src/ui.py:2581-2589 | A list of writable ingredients, one per line, parses back to the same list. |
| CookingGuide.InstructionsBoxRoundTrip | src/ui.py:2591 | Stripped non-empty instructions, one per line, parse back to the same list. |
| CookingGuide.Preview | src/ui.py:2427 | An instruction of at most 50 characters is shown whole. A longer one shows its first 50 characters and then "...". |
| CookingGuide.StepLabels | src/ui.py:2426-2428 | There is one label per instruction, in order. |
| CookingGuide.StepLabelRoundTrip | src/ui.py:2427-2458 | Parsing the step number back out of the label of step i gives i. |
| CookingGuide.StepDetailsOfLabel | src/ui.py:2457-2462 | Selecting the label of step i shows instruction i in full. |
| CookingGuide.StepList.constructor | src/ui.py:1091 | The list starts empty with no current row, and shows the placeholder text. |
| CookingGuide.StepList.UpdateStepNavigation | src/ui.py:2470-2476 | "Previous" is enabled exactly when the row is above 0, and "next" exactly when the row is below the last. Nothing else changes. |
| CookingGuide.StepList.ShowStepDetails | src/ui.py:2443-2468 | When the label parses to a valid step its instruction is shown and the buttons updated. Otherwise nothing changes. |
| CookingGuide.StepList.LoadCookingRecipe | src/ui.py:2411-2441 | A missing recipe changes nothing. Otherwise the labels are rebuilt, row 0 is selected when there are steps, and the buttons match. A recipe with no steps leaves the details text as it was. |
| CookingGuide.StepList.ClickStep | src/ui.py:2443-2468 | Clicking a step (the `itemClicked` signal connected at src/ui.py:1051) makes it current and shows it. |
| CookingGuide.StepList.PreviousStep | src/ui.py:2478-2484 | The row moves back by one only when it is above 0, and stays in range. Otherwise the details text and the buttons stay as they were. |
| CookingGuide.StepList.NextStep | src/ui.py:2486-2493 | The row moves forward by one only when it is below the last, and stays in range. Otherwise the details text and the buttons stay as they were. |
| Sorting.SortedUnique | src/api.py:75 | Two sorted lists with the same elements are equal, which is what makes `sorted` order-insensitive. |
| Decimal.ParseIntRoundTrip | src/ui.py:2458 | `int(str(i)) == i` for every integer. |

## Left out

- Threads, `QTimer` and Qt signal delivery are not modelled. A request with a callback that reaches the network is the outcome `Spawned(key)`.
- `Api.Gateway.GetCookingAssistance` and `Api.Gateway.GetChatResponse` model only the call without a callback. The init-failure branch with a callback delivers the same dictionary.
- The OpenAI client and the HTTP call are not modelled. The reply or its exception is an input.
- `json.loads`, `re.search` and the inline regex passes of `markdown_to_html` are function parameters with no stated semantics.
- The item patterns `^[-*+]\s+(.+)` and `^\d+\.\s+(.+)` are written out by hand. `\s` is Python's whitespace, but `\d` is the ASCII digits only, where Python also accepts other Unicode decimal digits. `int()` is likewise read over ASCII digits.
- Python's `str.lower` folds every Unicode letter. The model folds ASCII letters only. Stripping and `\s` use Python's full whitespace set.
- `int()` accepting underscores between digits is not modelled. Step labels never contain them.
- Dictionary key order is not modelled. Dictionaries are maps.
- JSON numbers are integers only. A float in a decoded reply or in the configuration file cannot be represented. No modelled operation computes with one; the only behaviour lost is that a float `api_key` of `0.0` is falsy, so `if not api_key` rejects it.
- `Models`: `from_dict` returns `None` where Python would build a record with an ill-typed field, since the dataclasses do not check types.
- `Models`: a non-dictionary ingredient entry, which Python rejects with an exception, also gives `None`.
- `markdown_to_html` coerces a non-string input with `str(text)`. The model takes a string.
- The pantry, grocery and recipe lists read from the database are assumed to hold well-formed entries. A `KeyError` from a malformed entry is not modelled.
- Database reads and writes are list in, list out. A failed write is not modelled.
- The whole database layer is not part of this model. It hands SQL to sqlite3.
- `ShowStepDetails` assumes that fetching the recipe again returns the one that was loaded.
- `ask_step_question` (src/ui.py:2495) only builds a context for the cooking-assistance call. That call is modelled, but the form is not.
- File I/O, logging, `save_config`, `get_config_value`, recipe export and import and `main.py` are not modelled. The file's contents are an input `ConfigFile`.
- Widget construction, styling and dialogs are not modelled.
- The test files are not modelled. They target functions that do not exist in the source.
- GroceryPantry.EntryTextReadsBack: the read-back is proved only for names that cannot form " - " with the separator that follows. `SeparatorInNameCutsShort` and `TrailingDashCutsShort` show what happens otherwise.
