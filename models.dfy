/**
 * The five data classes and their dictionary forms.  `to_dict` builds a
 * dictionary with one key per field; `from_dict` reads each key with a
 * default for a missing key.  Python's dataclasses do not check field types,
 * so where a present key holds a value of another type than the field's
 * annotation, or where the source raises, `FromDict` here gives `None`.
 */
module Models {
  import opened Wrappers
  import opened JsonValues

  type Dict = map<string, Json>

  datatype Ingredient = Ingredient(name: string, amount: string)

  datatype Recipe = Recipe(
    id: Option<int>,
    name: string,
    description: string,
    ingredients: seq<Ingredient>,
    instructions: seq<string>,
    cookingTime: int,
    difficulty: string,
    imageUrl: string,
    createdAt: string)

  datatype GroceryItem = GroceryItem(name: string, amount: string, checked: bool)

  datatype PantryItem = PantryItem(name: string, amount: string)

  datatype ChatMessage = ChatMessage(content: string, isUser: bool, timestamp: string)

  // ---------------------------------------------------------------------------
  // Reading one key with a default (`data.get(key, default)`)

  function StrField(d: Dict, key: string, default: string): Option<string> {
    if key !in d then Some(default)
    else match d[key]
      case JStr(s) => Some(s)
      case _ => None
  }

  function BoolField(d: Dict, key: string, default: bool): Option<bool> {
    if key !in d then Some(default)
    else match d[key]
      case JBool(b) => Some(b)
      case _ => None
  }

  function IntField(d: Dict, key: string, default: int): Option<int> {
    if key !in d then Some(default)
    else match d[key]
      case JInt(i) => Some(i)
      case _ => None
  }

  /** `data.get("id")`: a missing key and `None` both give `None`. */
  function OptionalIntField(d: Dict, key: string): Option<Option<int>> {
    if key !in d then Some(None)
    else match d[key]
      case JNull => Some(None)
      case JInt(i) => Some(Some(i))
      case _ => None
  }

  /** A list of strings as a JSON array. */
  function StrList(xs: seq<string>): (j: Json)
    ensures j.JArr? && |j.items| == |xs|
  {
    JArr(seq(|xs|, i requires 0 <= i < |xs| => JStr(xs[i])))
  }

  /** A JSON array of strings as a list of strings. */
  function ReadStrList(items: seq<Json>): (r: Option<seq<string>>)
    ensures r.Some? ==> |r.value| == |items|
    decreases |items|
  {
    if items == [] then Some([])
    else match (items[0], ReadStrList(items[1..]))
      case (JStr(s), Some(rest)) => Some([s] + rest)
      case _ => None
  }

  lemma {:induction false} StrListRoundTrip(xs: seq<string>)
    ensures ReadStrList(StrList(xs).items) == Some(xs)
    decreases |xs|
  {
    if xs != [] {
      assert StrList(xs).items[1..] == StrList(xs[1..]).items;
      StrListRoundTrip(xs[1..]);
      assert xs == [xs[0]] + xs[1..];
    }
  }

  // ---------------------------------------------------------------------------
  // Ingredient

  function IngredientToDict(i: Ingredient): Dict {
    map["name" := JStr(i.name), "amount" := JStr(i.amount)]
  }

  function IngredientFromDict(d: Dict): Option<Ingredient> {
    match (StrField(d, "name", ""), StrField(d, "amount", ""))
    case (Some(name), Some(amount)) => Some(Ingredient(name, amount))
    case _ => None
  }

  lemma IngredientRoundTrip(i: Ingredient)
    ensures IngredientFromDict(IngredientToDict(i)) == Some(i)
  {
  }

  /** A dictionary with exactly the two keys that reads as an ingredient is that ingredient's dictionary. */
  lemma IngredientDictRoundTrip(d: Dict)
    requires d.Keys == {"name", "amount"}
    requires IngredientFromDict(d).Some?
    ensures IngredientToDict(IngredientFromDict(d).value) == d
  {
    assert d["name"].JStr? && d["amount"].JStr?;
  }

  // ---------------------------------------------------------------------------
  // Recipe

  /** `[ingredient.to_dict() for ingredient in self.ingredients]`. */
  function IngredientsToJson(xs: seq<Ingredient>): (j: Json)
    ensures j.JArr? && |j.items| == |xs|
  {
    JArr(seq(|xs|, k requires 0 <= k < |xs| => JObj(IngredientToDict(xs[k]))))
  }

  /** `[Ingredient.from_dict(ing) for ing in items]`: every element must be a dictionary. */
  function IngredientsFromItems(items: seq<Json>): (r: Option<seq<Ingredient>>)
    ensures r.Some? ==> |r.value| == |items|
    decreases |items|
  {
    if items == [] then Some([])
    else match items[0]
      case JObj(d) =>
        (match (IngredientFromDict(d), IngredientsFromItems(items[1..]))
         case (Some(i), Some(rest)) => Some([i] + rest)
         case _ => None)
      case _ => None
  }

  /**
   * The ingredients of `Recipe.from_dict`.  Iterating `""` or `{}` yields
   * nothing; any other value that is not a list of dictionaries raises.
   */
  function IngredientsField(d: Dict): Option<seq<Ingredient>> {
    if "ingredients" !in d then Some([])
    else match d["ingredients"]
      case JArr(items) => IngredientsFromItems(items)
      case JStr(s) => if s == "" then Some([]) else None
      case JObj(m) => if m == map[] then Some([]) else None
      case _ => None
  }

  function InstructionsField(d: Dict): Option<seq<string>> {
    if "instructions" !in d then Some([])
    else match d["instructions"]
      case JArr(items) => ReadStrList(items)
      case _ => None
  }

  function RecipeToDict(r: Recipe): (d: Dict)
    ensures d.Keys == {"id", "name", "description", "ingredients", "instructions",
                       "cooking_time", "difficulty", "image_url", "created_at"}
  {
    map[
      "id" := (match r.id case Some(i) => JInt(i) case None => JNull),
      "name" := JStr(r.name),
      "description" := JStr(r.description),
      "ingredients" := IngredientsToJson(r.ingredients),
      "instructions" := StrList(r.instructions),
      "cooking_time" := JInt(r.cookingTime),
      "difficulty" := JStr(r.difficulty),
      "image_url" := JStr(r.imageUrl),
      "created_at" := JStr(r.createdAt)
    ]
  }

  function RecipeFromDict(d: Dict): Option<Recipe> {
    match (OptionalIntField(d, "id"), StrField(d, "name", ""), StrField(d, "description", ""),
           IngredientsField(d), InstructionsField(d), IntField(d, "cooking_time", 0),
           StrField(d, "difficulty", "Medium"), StrField(d, "image_url", ""), StrField(d, "created_at", ""))
    case (Some(id), Some(name), Some(description), Some(ingredients), Some(instructions),
          Some(cookingTime), Some(difficulty), Some(imageUrl), Some(createdAt)) =>
      Some(Recipe(id, name, description, ingredients, instructions, cookingTime, difficulty, imageUrl, createdAt))
    case _ => None
  }

  lemma {:induction false} IngredientsRoundTrip(xs: seq<Ingredient>)
    ensures IngredientsFromItems(IngredientsToJson(xs).items) == Some(xs)
    decreases |xs|
  {
    if xs != [] {
      assert IngredientsToJson(xs).items[1..] == IngredientsToJson(xs[1..]).items;
      IngredientsRoundTrip(xs[1..]);
      IngredientRoundTrip(xs[0]);
      assert xs == [xs[0]] + xs[1..];
    }
  }

  /** Every field survives `to_dict` then `from_dict`, the ingredients element by element in order. */
  lemma RecipeRoundTrip(r: Recipe)
    ensures RecipeFromDict(RecipeToDict(r)) == Some(r)
  {
    RecipeHeaderReadsBack(r);
    RecipeListsReadBack(r);
    RecipeDetailsReadBack(r);
  }

  /** The identity and the texts that describe the dish. */
  lemma RecipeHeaderReadsBack(r: Recipe)
    ensures OptionalIntField(RecipeToDict(r), "id") == Some(r.id)
    ensures StrField(RecipeToDict(r), "name", "") == Some(r.name)
    ensures StrField(RecipeToDict(r), "description", "") == Some(r.description)
  {
  }

  lemma RecipeListsReadBack(r: Recipe)
    ensures IngredientsField(RecipeToDict(r)) == Some(r.ingredients)
    ensures InstructionsField(RecipeToDict(r)) == Some(r.instructions)
  {
    IngredientsRoundTrip(r.ingredients);
    StrListRoundTrip(r.instructions);
  }

  lemma RecipeDetailsReadBack(r: Recipe)
    ensures IntField(RecipeToDict(r), "cooking_time", 0) == Some(r.cookingTime)
    ensures StrField(RecipeToDict(r), "difficulty", "Medium") == Some(r.difficulty)
    ensures StrField(RecipeToDict(r), "image_url", "") == Some(r.imageUrl)
    ensures StrField(RecipeToDict(r), "created_at", "") == Some(r.createdAt)
  {
  }

  /** `Recipe.from_dict({})`: every field at its declared default. */
  lemma EmptyDictGivesDefaultRecipe()
    ensures RecipeFromDict(map[]) == Some(Recipe(None, "", "", [], [], 0, "Medium", "", ""))
  {
  }

  // ---------------------------------------------------------------------------
  // GroceryItem

  function GroceryItemToDict(g: GroceryItem): Dict {
    map["name" := JStr(g.name), "amount" := JStr(g.amount), "checked" := JBool(g.checked)]
  }

  function GroceryItemFromDict(d: Dict): Option<GroceryItem> {
    match (StrField(d, "name", ""), StrField(d, "amount", ""), BoolField(d, "checked", false))
    case (Some(name), Some(amount), Some(checked)) => Some(GroceryItem(name, amount, checked))
    case _ => None
  }

  lemma GroceryItemRoundTrip(g: GroceryItem)
    ensures GroceryItemFromDict(GroceryItemToDict(g)) == Some(g)
  {
  }

  /** Without "checked" an item is unchecked; without "amount" its amount is empty. */
  lemma GroceryItemDefaults(name: string)
    ensures GroceryItemFromDict(map["name" := JStr(name)]) == Some(GroceryItem(name, "", false))
  {
  }

  lemma GroceryItemDictRoundTrip(d: Dict)
    requires d.Keys == {"name", "amount", "checked"}
    requires GroceryItemFromDict(d).Some?
    ensures GroceryItemToDict(GroceryItemFromDict(d).value) == d
  {
    assert d["name"].JStr? && d["amount"].JStr? && d["checked"].JBool?;
  }

  // ---------------------------------------------------------------------------
  // PantryItem

  function PantryItemToDict(p: PantryItem): Dict {
    map["name" := JStr(p.name), "amount" := JStr(p.amount)]
  }

  function PantryItemFromDict(d: Dict): Option<PantryItem> {
    match (StrField(d, "name", ""), StrField(d, "amount", ""))
    case (Some(name), Some(amount)) => Some(PantryItem(name, amount))
    case _ => None
  }

  lemma PantryItemRoundTrip(p: PantryItem)
    ensures PantryItemFromDict(PantryItemToDict(p)) == Some(p)
  {
  }

  lemma PantryItemDictRoundTrip(d: Dict)
    requires d.Keys == {"name", "amount"}
    requires PantryItemFromDict(d).Some?
    ensures PantryItemToDict(PantryItemFromDict(d).value) == d
  {
    assert d["name"].JStr? && d["amount"].JStr?;
  }

  // ---------------------------------------------------------------------------
  // ChatMessage

  function ChatMessageToDict(m: ChatMessage): Dict {
    map["content" := JStr(m.content), "is_user" := JBool(m.isUser), "timestamp" := JStr(m.timestamp)]
  }

  function ChatMessageFromDict(d: Dict): Option<ChatMessage> {
    match (StrField(d, "content", ""), BoolField(d, "is_user", true), StrField(d, "timestamp", ""))
    case (Some(content), Some(isUser), Some(timestamp)) => Some(ChatMessage(content, isUser, timestamp))
    case _ => None
  }

  lemma ChatMessageRoundTrip(m: ChatMessage)
    ensures ChatMessageFromDict(ChatMessageToDict(m)) == Some(m)
  {
  }

  /** A message read from an empty dictionary is an empty user message without a timestamp. */
  lemma ChatMessageDefaults()
    ensures ChatMessageFromDict(map[]) == Some(ChatMessage("", true, ""))
  {
  }

  lemma ChatMessageDictRoundTrip(d: Dict)
    requires d.Keys == {"content", "is_user", "timestamp"}
    requires ChatMessageFromDict(d).Some?
    ensures ChatMessageToDict(ChatMessageFromDict(d).value) == d
  {
    assert d["content"].JStr? && d["is_user"].JBool? && d["timestamp"].JStr?;
  }
}
