/**
 * The request layer in front of the OpenRouter chat-completion service:
 * credential resolution, the process-wide response cache, the branching
 * between cache hit, failed initialisation and fetch for the two cached
 * operations, the two-stage reply parse, and the system messages of the two
 * conversational operations.
 *
 * The HTTP call is not modelled: its outcome is an input `Reply`.  Python's
 * `json.loads` and the `re.search` that extracts a JSON fragment are passed in
 * as functions, so every statement holds for any decoder and any extractor.
 */
module Api {
  import opened Wrappers
  import opened JsonValues
  import opened Text
  import opened Sorting

  const DeepseekDefaultModel: string := "deepseek/deepseek-v3.1"
  const LlamaDefaultModel: string := "meta-llama/llama-3-3-70b-instruct"
  const OpenRouterBaseUrl: string := "https://openrouter.ai/api/v1"

  /** The OpenAI client object pointed at OpenRouter. */
  datatype Client = Client(baseUrl: string, apiKey: Json)

  /** What `initialize_api` reads from the configuration for one model type. */
  datatype Credentials = Credentials(apiKey: Json, model: Json)

  /** The outcome of the chat-completion call: the first choice's text, or the message of an exception. */
  datatype Reply = Content(text: string) | Raised(message: string)

  /**
   * How a request ended as seen by its caller: the dictionary is returned, or
   * handed to the callback (with `None` returned), or both, or a worker thread
   * was started that will fetch under `key` and deliver later.
   */
  datatype Dispatch =
    | Returned(result: Json)
    | CalledBack(result: Json)
    | CalledBackAndReturned(result: Json)
    | Spawned(key: string)

  // ---------------------------------------------------------------------------
  // Credentials

  /**
   * The credential lookup of `initialize_api`: `config["api"]["openrouter"][modelType]`
   * with `{}` for every missing level, the key defaulting to `""` and the model
   * to the type's default.  `None` for an unknown model type, a falsy key, or a
   * level that is not a dictionary (the source's `.get` then raises and the
   * exception is turned into `False`).
   */
  function ResolveCredentials(config: Json, modelType: string): (r: Option<Credentials>)
    ensures modelType != "deepseek" && modelType != "llama" ==> r.None?
    ensures r.Some? ==> Truthy(r.value.apiKey)
  {
    match Get(config, "api", EmptyObject)
    case None => None
    case Some(api) =>
      match Get(api, "openrouter", EmptyObject)
      case None => None
      case Some(openrouter) =>
        if modelType != "deepseek" && modelType != "llama" then None
        else
          var defaultModel := if modelType == "deepseek" then DeepseekDefaultModel else LlamaDefaultModel;
          match Get(openrouter, modelType, EmptyObject)
          case None => None
          case Some(entry) =>
            match (Get(entry, "api_key", JStr("")), Get(entry, "model", JStr(defaultModel)))
            case (Some(key), Some(model)) => if Truthy(key) then Some(Credentials(key, model)) else None
            case _ => None
  }

  /** The configuration layout the application writes: `{"api": {"openrouter": {type: entry}}}`. */
  function NestedConfig(modelType: string, entry: map<string, Json>): Json {
    JObj(map["api" := JObj(map["openrouter" := JObj(map[modelType := JObj(entry)])])])
  }

  /**
   * In the documented layout, a known model type resolves exactly when its key
   * is present and truthy; the model defaults to the type's default model.
   */
  lemma NestedConfigResolves(modelType: string, entry: map<string, Json>)
    requires modelType == "deepseek" || modelType == "llama"
    ensures var r := ResolveCredentials(NestedConfig(modelType, entry), modelType);
      && (r.Some? <==> "api_key" in entry && Truthy(entry["api_key"]))
      && (r.Some? ==> r.value.apiKey == entry["api_key"])
      && (r.Some? && "model" !in entry ==>
            r.value.model == JStr(if modelType == "deepseek" then DeepseekDefaultModel else LlamaDefaultModel))
  {
  }

  /** A configuration whose `api` entry is not a dictionary never initialises the client. */
  lemma MalformedApiSectionRejected(config: map<string, Json>, modelType: string)
    requires "api" in config && !config["api"].JObj?
    ensures ResolveCredentials(JObj(config), modelType).None?
  {
  }

  // ---------------------------------------------------------------------------
  // Cache keys

  /** `f"recipe_suggestions:{model_type}:" + ",".join(sorted(ingredients))`. */
  function RecipeCacheKey(modelType: string, ingredients: seq<string>): string {
    "recipe_suggestions:" + modelType + ":" + Join(SortStrings(ingredients), ",")
  }

  /** `f"substitution:{model_type}:{ingredient.lower()}"`. */
  function SubstitutionCacheKey(modelType: string, ingredient: string): string {
    "substitution:" + modelType + ":" + Lower(ingredient)
  }

  /** Ingredient lists that are permutations of each other share one cache entry. */
  lemma RecipeKeyOrderInsensitive(modelType: string, a: seq<string>, b: seq<string>)
    requires multiset(a) == multiset(b)
    ensures RecipeCacheKey(modelType, a) == RecipeCacheKey(modelType, b)
  {
    SortPermutationInvariant(a, b);
  }

  /**
   * The joined key does not separate the ingredients: one ingredient whose
   * name holds a comma shares its key with the list of its parts.
   */
  lemma RecipeKeyCommaCollision(modelType: string)
    ensures RecipeCacheKey(modelType, ["egg,milk"]) == RecipeCacheKey(modelType, ["egg", "milk"])
  {
    assert LexLess("egg", "milk");
    assert SortStrings(["milk"]) == ["milk"];
    assert SortStrings(["egg", "milk"]) == ["egg", "milk"];
  }

  /** Ingredient names differing only in letter case share one cache entry. */
  lemma SubstitutionKeyCaseInsensitive(modelType: string, a: string, b: string)
    requires Lower(a) == Lower(b)
    ensures SubstitutionCacheKey(modelType, a) == SubstitutionCacheKey(modelType, b)
  {
  }

  // ---------------------------------------------------------------------------
  // Reply parsing

  const FailedToParse: string := "Failed to parse response"
  const NoValidResponse: string := "No valid response found"

  /** `{list_key: [], "error": message}`, the error dictionary of the two cached operations. */
  function ErrorResult(listKey: string, message: string): Json {
    JObj(map[listKey := JArr([]), "error" := JStr(message)])
  }

  /**
   * The two-stage parse: the whole reply, else the fragment the pattern
   * extracts, else a fixed error that says which stage failed.
   */
  function ParseReply(content: string, listKey: string,
                      loads: string -> Option<Json>, search: string -> Option<string>): (r: Json)
    ensures loads(content).Some? ==> r == loads(content).value
    ensures loads(content).None? && search(content).None? ==> r == ErrorResult(listKey, NoValidResponse)
    ensures loads(content).None? && search(content).Some? ==>
      r == loads(search(content).value).GetOr(ErrorResult(listKey, FailedToParse))
  {
    match loads(content)
    case Some(whole) => whole
    case None =>
      match search(content)
      case None => ErrorResult(listKey, NoValidResponse)
      case Some(fragment) =>
        match loads(fragment)
        case Some(value) => value
        case None => ErrorResult(listKey, FailedToParse)
  }

  /** The two parse errors are different results, so a caller can tell them apart. */
  lemma ParseErrorsDistinct(listKey: string)
    ensures ErrorResult(listKey, NoValidResponse) != ErrorResult(listKey, FailedToParse)
  {
    assert ErrorResult(listKey, NoValidResponse).fields["error"] == JStr(NoValidResponse);
  }

  // ---------------------------------------------------------------------------
  // The gateway as a state machine over (cache, client)

  datatype GatewayState = GatewayState(cache: map<string, Json>, client: Option<Client>)

  function InitFailedMessage(modelType: string): string {
    "Failed to initialize API for " + modelType
  }

  /** `initialize_api`: the success flag and the new state (only the client changes, only on success). */
  function Initialize(st: GatewayState, config: Json, modelType: string): (out: (bool, GatewayState))
    ensures out.1.cache == st.cache
    ensures !out.0 ==> out.1 == st
  {
    match ResolveCredentials(config, modelType)
    case None => (false, st)
    case Some(creds) => (true, st.(client := Some(Client(OpenRouterBaseUrl, creds.apiKey))))
  }

  /**
   * `_get_recipe_suggestions_sync` / `_get_ingredient_substitutions_sync`:
   * a reply is parsed and the parse result, error results included, is cached
   * under `key`; an exception becomes an error result that is not cached.
   */
  function FetchSync(st: GatewayState, key: string, listKey: string, reply: Reply,
                     loads: string -> Option<Json>, search: string -> Option<string>): (out: (Json, GatewayState))
  {
    match reply
    case Content(text) =>
      var result := ParseReply(text, listKey, loads, search);
      (result, st.(cache := st.cache[key := result]))
    case Raised(message) => (ErrorResult(listKey, message), st)
  }

  /** `get_recipe_suggestions`: cache lookup, then initialisation, then a thread or a synchronous fetch. */
  function RecipeSuggestions(st: GatewayState, ingredients: seq<string>, hasCallback: bool,
                             modelType: string, config: Json, reply: Reply,
                             loads: string -> Option<Json>, search: string -> Option<string>): (out: (Dispatch, GatewayState))
  {
    var key := RecipeCacheKey(modelType, ingredients);
    if key in st.cache then
      (if hasCallback then CalledBack(st.cache[key]) else Returned(st.cache[key]), st)
    else
      var (ok, st1) := Initialize(st, config, modelType);
      if !ok then
        var result := ErrorResult("recipes", InitFailedMessage(modelType));
        (if hasCallback then CalledBack(result) else Returned(result), st1)
      else if hasCallback then (Spawned(key), st1)
      else
        var (result, st2) := FetchSync(st1, key, "recipes", reply, loads, search);
        (Returned(result), st2)
  }

  /**
   * `get_ingredient_substitutions`: as for recipes, except that on a failed
   * initialisation the callback is called and the result is still returned.
   */
  function IngredientSubstitutions(st: GatewayState, ingredient: string, hasCallback: bool,
                                   modelType: string, config: Json, reply: Reply,
                                   loads: string -> Option<Json>, search: string -> Option<string>): (out: (Dispatch, GatewayState))
  {
    var key := SubstitutionCacheKey(modelType, ingredient);
    if key in st.cache then
      (if hasCallback then CalledBack(st.cache[key]) else Returned(st.cache[key]), st)
    else
      var (ok, st1) := Initialize(st, config, modelType);
      if !ok then
        var result := ErrorResult("substitutions", InitFailedMessage(modelType));
        (if hasCallback then CalledBackAndReturned(result) else Returned(result), st1)
      else if hasCallback then (Spawned(key), st1)
      else
        var (result, st2) := FetchSync(st1, key, "substitutions", reply, loads, search);
        (Returned(result), st2)
  }

  /** The result a caller receives, whichever way it is delivered. */
  function Delivered(d: Dispatch): Option<Json> {
    match d
    case Returned(r) => Some(r)
    case CalledBack(r) => Some(r)
    case CalledBackAndReturned(r) => Some(r)
    case Spawned(_) => None
  }

  /**
   * On a cache hit the stored result is delivered unchanged, the
   * configuration and the reply are never looked at, and neither the cache
   * nor the client changes.
   */
  lemma RecipeHitLeavesStateAlone(st: GatewayState, ingredients: seq<string>, hasCallback: bool,
                                  modelType: string, config: Json, reply: Reply,
                                  loads: string -> Option<Json>, search: string -> Option<string>)
    requires RecipeCacheKey(modelType, ingredients) in st.cache
    ensures var out := RecipeSuggestions(st, ingredients, hasCallback, modelType, config, reply, loads, search);
      && out.1 == st
      && Delivered(out.0) == Some(st.cache[RecipeCacheKey(modelType, ingredients)])
      && (hasCallback <==> out.0.CalledBack?)
  {
  }

  /**
   * A failed initialisation yields `{"recipes": [], "error": ...}`, caches
   * nothing and keeps the old client; with a callback the result goes only to
   * the callback.
   */
  lemma RecipeInitFailureNotCached(st: GatewayState, ingredients: seq<string>, hasCallback: bool,
                                   modelType: string, config: Json, reply: Reply,
                                   loads: string -> Option<Json>, search: string -> Option<string>)
    requires RecipeCacheKey(modelType, ingredients) !in st.cache
    requires ResolveCredentials(config, modelType).None?
    ensures var out := RecipeSuggestions(st, ingredients, hasCallback, modelType, config, reply, loads, search);
      var err := ErrorResult("recipes", "Failed to initialize API for " + modelType);
      && out.1 == st
      && out.0 == (if hasCallback then CalledBack(err) else Returned(err))
  {
  }

  /** With a callback, a failed initialisation of a substitution request both calls back and returns. */
  lemma SubstitutionInitFailureCallsBackAndReturns(st: GatewayState, ingredient: string,
                                                   modelType: string, config: Json, reply: Reply,
                                                   loads: string -> Option<Json>, search: string -> Option<string>)
    requires SubstitutionCacheKey(modelType, ingredient) !in st.cache
    requires ResolveCredentials(config, modelType).None?
    ensures var out := IngredientSubstitutions(st, ingredient, true, modelType, config, reply, loads, search);
      && out.1 == st
      && out.0 == CalledBackAndReturned(ErrorResult("substitutions", "Failed to initialize API for " + modelType))
  {
  }

  /** An exception during the fetch is reported as `{"recipes": [], "error": str(e)}` and not cached. */
  lemma RecipeExceptionNotCached(st: GatewayState, ingredients: seq<string>, modelType: string,
                                 config: Json, message: string,
                                 loads: string -> Option<Json>, search: string -> Option<string>)
    requires RecipeCacheKey(modelType, ingredients) !in st.cache
    requires ResolveCredentials(config, modelType).Some?
    ensures var out := RecipeSuggestions(st, ingredients, false, modelType, config, Raised(message), loads, search);
      && out.0 == Returned(ErrorResult("recipes", message))
      && out.1.cache == st.cache
      && RecipeCacheKey(modelType, ingredients) !in out.1.cache
  {
  }

  /**
   * A synchronous fetch caches its result, parse errors included, so that a
   * second request for the same ingredients in any order receives the very
   * same result without touching the configuration, the network or the state.
   */
  lemma RepeatedRecipeRequestHitsCache(st: GatewayState, first: seq<string>, second: seq<string>,
                                       hasCallback: bool, modelType: string,
                                       config: Json, config': Json, text: string, reply': Reply,
                                       loads: string -> Option<Json>, search: string -> Option<string>)
    requires multiset(first) == multiset(second)
    requires RecipeCacheKey(modelType, first) !in st.cache
    requires ResolveCredentials(config, modelType).Some?
    ensures var out1 := RecipeSuggestions(st, first, false, modelType, config, Content(text), loads, search);
      var out2 := RecipeSuggestions(out1.1, second, hasCallback, modelType, config', reply', loads, search);
      && out1.0 == Returned(ParseReply(text, "recipes", loads, search))
      && out2.1 == out1.1
      && Delivered(out2.0) == Delivered(out1.0)
  {
    RecipeKeyOrderInsensitive(modelType, first, second);
    var key := RecipeCacheKey(modelType, first);
    var out1 := RecipeSuggestions(st, first, false, modelType, config, Content(text), loads, search);
    var st1 := Initialize(st, config, modelType).1;
    assert out1.1 == st1.(cache := st1.cache[key := ParseReply(text, "recipes", loads, search)]);
    assert key in out1.1.cache && Delivered(out1.0) == Some(out1.1.cache[key]);
  }

  /** The same for substitutions, across letter case of the ingredient. */
  lemma RepeatedSubstitutionRequestHitsCache(st: GatewayState, first: string, second: string,
                                             hasCallback: bool, modelType: string,
                                             config: Json, config': Json, text: string, reply': Reply,
                                             loads: string -> Option<Json>, search: string -> Option<string>)
    requires Lower(first) == Lower(second)
    requires SubstitutionCacheKey(modelType, first) !in st.cache
    requires ResolveCredentials(config, modelType).Some?
    ensures var out1 := IngredientSubstitutions(st, first, false, modelType, config, Content(text), loads, search);
      var out2 := IngredientSubstitutions(out1.1, second, hasCallback, modelType, config', reply', loads, search);
      && out1.0 == Returned(ParseReply(text, "substitutions", loads, search))
      && out2.1 == out1.1
      && Delivered(out2.0) == Delivered(out1.0)
  {
    SubstitutionKeyCaseInsensitive(modelType, first, second);
    var key := SubstitutionCacheKey(modelType, first);
    var out1 := IngredientSubstitutions(st, first, false, modelType, config, Content(text), loads, search);
    var st1 := Initialize(st, config, modelType).1;
    assert out1.1 == st1.(cache := st1.cache[key := ParseReply(text, "substitutions", loads, search)]);
    assert key in out1.1.cache && Delivered(out1.0) == Some(out1.1.cache[key]);
  }

  /** After `clear_cache` every request misses: a failed initialisation is then reported, not a stale result. */
  lemma ClearedCacheMisses(st: GatewayState, ingredients: seq<string>, hasCallback: bool,
                           modelType: string, config: Json, reply: Reply,
                           loads: string -> Option<Json>, search: string -> Option<string>)
    requires ResolveCredentials(config, modelType).None?
    ensures var out := RecipeSuggestions(st.(cache := map[]), ingredients, hasCallback, modelType, config, reply, loads, search);
      Delivered(out.0) == Some(ErrorResult("recipes", InitFailedMessage(modelType)))
  {
  }

  // ---------------------------------------------------------------------------
  // The two conversational operations (never cached)

  /** A chat message dictionary, e.g. `{"role": "user", "content": "..."}`. */
  type Message = map<string, string>

  const ChatSystemPrompt: string :=
    "You are a helpful cooking assistant that can discuss recipes, cooking techniques, "
    + "ingredients, and other food-related topics. You can also provide general assistance "
    + "with cooking questions and offer tips for meal planning and preparation."

  const AssistantBasePrompt: string :=
    "You are a helpful cooking assistant that provides guidance, tips, and answers questions about cooking."

  function SystemMessage(content: string): Message {
    map["role" := "system", "content" := content]
  }

  /** `messages[0].get('role') == 'system'`. */
  predicate StartsWithSystem(messages: seq<Message>) {
    messages != [] && "role" in messages[0] && messages[0]["role"] == "system"
  }

  /**
   * The list after `_get_chat_response_sync`'s check: a list that does not
   * start with a system message gets the default one in front; the caller's
   * messages follow in their order.
   */
  function WithSystemMessage(messages: seq<Message>): (r: seq<Message>)
    ensures StartsWithSystem(r)
    ensures StartsWithSystem(messages) ==> r == messages
    ensures !StartsWithSystem(messages) ==> r == [SystemMessage(ChatSystemPrompt)] + messages
  {
    if StartsWithSystem(messages) then messages else [SystemMessage(ChatSystemPrompt)] + messages
  }

  /** Ensuring the system message twice is ensuring it once. */
  lemma WithSystemMessageIdempotent(messages: seq<Message>)
    ensures WithSystemMessage(WithSystemMessage(messages)) == WithSystemMessage(messages)
  {
  }

  /** The caller's list, which `_get_chat_response_sync` changes in place. */
  class ChatHistory {
    var messages: seq<Message>

    constructor (initial: seq<Message>)
      ensures messages == initial
    {
      messages := initial;
    }

    /** `messages.insert(0, {...})` when the first message is not a system message. */
    method EnsureSystemMessage()
      modifies this
      ensures messages == WithSystemMessage(old(messages))
      ensures |messages| <= |old(messages)| + 1
      ensures messages[|messages| - |old(messages)|..] == old(messages)
    {
      if messages == [] || !("role" in messages[0]) || messages[0]["role"] != "system" {
        messages := [SystemMessage(ChatSystemPrompt)] + messages;
      }
    }
  }

  /**
   * The system message of `_get_cooking_assistance_sync`: the base text, then
   * the recipe name (default "the recipe") for a non-empty context, then the
   * current step when that is non-empty.
   */
  function CookingSystemMessage(context: Option<map<string, string>>): (r: string)
  {
    if context.None? || context.value == map[] then AssistantBasePrompt
    else
      var ctx := context.value;
      var name := if "name" in ctx then ctx["name"] else "the recipe";
      var step := if "current_step" in ctx then ctx["current_step"] else "";
      AssistantBasePrompt + " The user is currently cooking " + name + "."
        + (if step != "" then " They are at the step: " + step else "")
  }

  /**
   * The base text always leads; the message is just the base text exactly
   * when there is no (or an empty) context.  A non-empty context adds the
   * recipe sentence, and then the step sentence exactly when `current_step`
   * is present and non-empty.
   */
  lemma CookingSystemMessageShape(context: Option<map<string, string>>)
    ensures StartsWith(CookingSystemMessage(context), AssistantBasePrompt)
    ensures CookingSystemMessage(context) == AssistantBasePrompt <==> context.None? || context.value == map[]
    ensures context.Some? && context.value != map[] ==>
      var ctx := context.value;
      var cooking := AssistantBasePrompt + " The user is currently cooking "
        + (if "name" in ctx then ctx["name"] else "the recipe") + ".";
      && ("current_step" in ctx && ctx["current_step"] != "" ==>
            CookingSystemMessage(context) == cooking + " They are at the step: " + ctx["current_step"])
      && ("current_step" !in ctx || ctx["current_step"] == "" ==>
            CookingSystemMessage(context) == cooking)
  {
    var r := CookingSystemMessage(context);
    assert r[..|AssistantBasePrompt|] == AssistantBasePrompt;
    if context.Some? && context.value != map[] {
      assert |r| > |AssistantBasePrompt|;
    }
  }

  /** The two messages `_get_cooking_assistance_sync` sends: the system message, then the query. */
  function CookingAssistanceMessages(query: string, context: Option<map<string, string>>): (r: seq<Message>)
    ensures |r| == 2 && StartsWithSystem(r)
    ensures r[1] == map["role" := "user", "content" := query]
  {
    [SystemMessage(CookingSystemMessage(context)), map["role" := "user", "content" := query]]
  }

  /** `{"response": content}`, or the apology and the error for an exception. */
  function AssistantResult(reply: Reply): (r: Json)
    ensures r.JObj? && "response" in r.fields
    ensures "error" in r.fields <==> reply.Raised?
  {
    match reply
    case Content(text) => JObj(map["response" := JStr(text)])
    case Raised(message) =>
      JObj(map["response" := JStr("I'm sorry, I encountered an error: " + message), "error" := JStr(message)])
  }

  /** `{"response": error_msg, "error": error_msg}` for a failed initialisation. */
  function AssistantInitFailure(modelType: string): Json {
    var message := InitFailedMessage(modelType);
    JObj(map["response" := JStr(message), "error" := JStr(message)])
  }

  // ---------------------------------------------------------------------------
  // The module-level state: `response_cache` and `client`

  class Gateway {
    var cache: map<string, Json>
    var client: Option<Client>

    function State(): GatewayState
      reads this
    {
      GatewayState(cache, client)
    }

    /** Module import: an empty cache and no client. */
    constructor ()
      ensures cache == map[] && client == None
    {
      cache := map[];
      client := None;
    }

    /** `clear_cache`: every key is absent afterwards; the client is kept. */
    method ClearCache()
      modifies this
      ensures cache == map[] && client == old(client)
      ensures forall key :: key !in cache
    {
      cache := map[];
    }

    /** `initialize_api(model_type)` with the loaded configuration as input. */
    method InitializeApi(config: Json, modelType: string) returns (ok: bool)
      modifies this
      ensures (ok, State()) == Initialize(old(State()), config, modelType)
      ensures ok <==> ResolveCredentials(config, modelType).Some?
      ensures cache == old(cache)
    {
      var creds := ResolveCredentials(config, modelType);
      if creds.None? {
        return false;
      }
      client := Some(Client(OpenRouterBaseUrl, creds.value.apiKey));
      return true;
    }

    /** The synchronous fetch of a cached operation, writing the cache as `FetchSync` says. */
    method Fetch(key: string, listKey: string, reply: Reply,
                 loads: string -> Option<Json>, search: string -> Option<string>) returns (result: Json)
      modifies this
      ensures (result, State()) == FetchSync(old(State()), key, listKey, reply, loads, search)
    {
      if reply.Raised? {
        return ErrorResult(listKey, reply.message);
      }
      result := ParseReply(reply.text, listKey, loads, search);
      cache := cache[key := result];
    }

    /** `get_recipe_suggestions`; a spawned worker later runs `Fetch(key, "recipes", ...)`. */
    method GetRecipeSuggestions(ingredients: seq<string>, hasCallback: bool, modelType: string,
                                config: Json, reply: Reply,
                                loads: string -> Option<Json>, search: string -> Option<string>) returns (d: Dispatch)
      modifies this
      ensures (d, State()) == RecipeSuggestions(old(State()), ingredients, hasCallback, modelType, config, reply, loads, search)
    {
      var key := RecipeCacheKey(modelType, ingredients);
      if key in cache {
        var result := cache[key];
        return if hasCallback then CalledBack(result) else Returned(result);
      }
      var ok := InitializeApi(config, modelType);
      if !ok {
        var result := ErrorResult("recipes", InitFailedMessage(modelType));
        return if hasCallback then CalledBack(result) else Returned(result);
      }
      if hasCallback {
        return Spawned(key);
      }
      var result := Fetch(key, "recipes", reply, loads, search);
      return Returned(result);
    }

    /** `get_ingredient_substitutions`; a spawned worker later runs `Fetch(key, "substitutions", ...)`. */
    method GetIngredientSubstitutions(ingredient: string, hasCallback: bool, modelType: string,
                                      config: Json, reply: Reply,
                                      loads: string -> Option<Json>, search: string -> Option<string>) returns (d: Dispatch)
      modifies this
      ensures (d, State()) == IngredientSubstitutions(old(State()), ingredient, hasCallback, modelType, config, reply, loads, search)
    {
      var key := SubstitutionCacheKey(modelType, ingredient);
      if key in cache {
        var result := cache[key];
        return if hasCallback then CalledBack(result) else Returned(result);
      }
      var ok := InitializeApi(config, modelType);
      if !ok {
        var result := ErrorResult("substitutions", InitFailedMessage(modelType));
        return if hasCallback then CalledBackAndReturned(result) else Returned(result);
      }
      if hasCallback {
        return Spawned(key);
      }
      var result := Fetch(key, "substitutions", reply, loads, search);
      return Returned(result);
    }

    /**
     * `get_cooking_assistance` without a callback: never consults or writes the
     * cache; on success the returned `sent` are the messages the request carries.
     */
    method GetCookingAssistance(query: string, context: Option<map<string, string>>, modelType: string,
                                config: Json, reply: Reply) returns (result: Json, sent: seq<Message>)
      modifies this
      ensures cache == old(cache)
      ensures var (ok, st) := Initialize(old(State()), config, modelType);
        && State() == st
        && (ok ==> result == AssistantResult(reply) && sent == CookingAssistanceMessages(query, context))
        && (!ok ==> result == AssistantInitFailure(modelType) && sent == [])
    {
      var ok := InitializeApi(config, modelType);
      if !ok {
        return AssistantInitFailure(modelType), [];
      }
      sent := CookingAssistanceMessages(query, context);
      result := AssistantResult(reply);
    }

    /**
     * `get_chat_response` without a callback: the caller's list gains the
     * default system message in front when it lacks one; the cache is untouched.
     */
    method GetChatResponse(history: ChatHistory, modelType: string, config: Json, reply: Reply)
      returns (result: Json)
      modifies this, history
      ensures cache == old(cache)
      ensures var (ok, st) := Initialize(old(State()), config, modelType);
        && State() == st
        && (ok ==> result == AssistantResult(reply) && history.messages == WithSystemMessage(old(history.messages)))
        && (!ok ==> result == AssistantInitFailure(modelType) && history.messages == old(history.messages))
    {
      var ok := InitializeApi(config, modelType);
      if !ok {
        return AssistantInitFailure(modelType);
      }
      history.EnsureSystemMessage();
      result := AssistantResult(reply);
    }
  }
}
