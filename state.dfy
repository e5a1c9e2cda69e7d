/** The record threaded through the recipe graph (`RecipeAgentState`), the
    partial updates the nodes return, and how LangGraph applies one: every key
    an update carries replaces the stored value, every other key is kept. */
module State {
  import opened Wrappers
  import opened Languages

  /** An entry of the `messages` list. Only the clarification node writes
      one: an assistant message whose text is `ClarificationText(request)`. */
  datatype Message = AiMessage(request: Clarification)

  /** The record. A Python `Optional[str]` key is an `Option<string>`, where
      `None` is the key holding `None`. `user_language` is absent from the
      console entry point's initial record; `None` stands for that too, and
      both read as the default language. */
  datatype AgentState = AgentState(
    messages: seq<Message>,
    userDesire: string,
    dietaryPreferences: seq<string>,
    baseRecipeQuery: Option<string>,
    baseRecipeSearchResults: Option<string>,
    extractedIngredients: seq<string>,
    pairingQuery: Option<string>,
    pairingResults: Option<string>,
    finalRecipe: Option<string>,
    errorMessage: Option<string>,
    awaitingUserInput: bool,
    userLanguage: Option<string>)

  /** The record's keys, by their Python names. */
  datatype Key =
    | MessagesKey | UserDesireKey | DietaryPreferencesKey | BaseRecipeQueryKey
    | BaseRecipeSearchResultsKey | ExtractedIngredientsKey | PairingQueryKey
    | PairingResultsKey | FinalRecipeKey | ErrorMessageKey | AwaitingUserInputKey
    | UserLanguageKey

  /** What one key holds, as a dictionary lookup `state[key]` sees it. */
  datatype Value =
    | MessagesValue(messages: seq<Message>)
    | TextValue(text: string)
    | TextsValue(texts: seq<string>)
    | OptionalTextValue(optional: Option<string>)
    | FlagValue(flag: bool)

  /** `state[key]` on the record. */
  function Get(s: AgentState, k: Key): Value {
    match k
    case MessagesKey => MessagesValue(s.messages)
    case UserDesireKey => TextValue(s.userDesire)
    case DietaryPreferencesKey => TextsValue(s.dietaryPreferences)
    case BaseRecipeQueryKey => OptionalTextValue(s.baseRecipeQuery)
    case BaseRecipeSearchResultsKey => OptionalTextValue(s.baseRecipeSearchResults)
    case ExtractedIngredientsKey => TextsValue(s.extractedIngredients)
    case PairingQueryKey => OptionalTextValue(s.pairingQuery)
    case PairingResultsKey => OptionalTextValue(s.pairingResults)
    case FinalRecipeKey => OptionalTextValue(s.finalRecipe)
    case ErrorMessageKey => OptionalTextValue(s.errorMessage)
    case AwaitingUserInputKey => FlagValue(s.awaitingUserInput)
    case UserLanguageKey => OptionalTextValue(s.userLanguage)
  }

  /** Python truthiness: an empty string, an empty list, `None` and `False`
      are false, everything else is true. */
  predicate Truthy(v: Value) {
    match v
    case MessagesValue(m) => m != []
    case TextValue(t) => t != []
    case TextsValue(l) => l != []
    case OptionalTextValue(o) => o.Some? && o.value != []
    case FlagValue(b) => b
  }

  /** A node's return value: the dictionary of the keys it writes. A key the
      dictionary does not hold is `None` here. No node writes `user_desire`,
      `dietary_preferences` or `user_language`, so an update cannot. */
  datatype Update = Update(
    messages: Option<seq<Message>>,
    baseRecipeQuery: Option<string>,
    baseRecipeSearchResults: Option<string>,
    extractedIngredients: Option<seq<string>>,
    pairingQuery: Option<string>,
    pairingResults: Option<string>,
    finalRecipe: Option<string>,
    errorMessage: Option<string>,
    awaitingUserInput: Option<bool>)

  /** The empty dictionary `{}`, from which node results are built. */
  const NoWrites := Update(None, None, None, None, None, None, None, None, None)

  /** The update holds key `k`. */
  predicate Writes(u: Update, k: Key) {
    match k
    case MessagesKey => u.messages.Some?
    case BaseRecipeQueryKey => u.baseRecipeQuery.Some?
    case BaseRecipeSearchResultsKey => u.baseRecipeSearchResults.Some?
    case ExtractedIngredientsKey => u.extractedIngredients.Some?
    case PairingQueryKey => u.pairingQuery.Some?
    case PairingResultsKey => u.pairingResults.Some?
    case FinalRecipeKey => u.finalRecipe.Some?
    case ErrorMessageKey => u.errorMessage.Some?
    case AwaitingUserInputKey => u.awaitingUserInput.Some?
    case UserDesireKey | DietaryPreferencesKey | UserLanguageKey => false
  }

  /** The value an update gives a key it holds, as the record will then hold it. */
  function WrittenValue(u: Update, k: Key): Value
    requires Writes(u, k)
  {
    match k
    case MessagesKey => MessagesValue(u.messages.value)
    case BaseRecipeQueryKey => OptionalTextValue(u.baseRecipeQuery)
    case BaseRecipeSearchResultsKey => OptionalTextValue(u.baseRecipeSearchResults)
    case ExtractedIngredientsKey => TextsValue(u.extractedIngredients.value)
    case PairingQueryKey => OptionalTextValue(u.pairingQuery)
    case PairingResultsKey => OptionalTextValue(u.pairingResults)
    case FinalRecipeKey => OptionalTextValue(u.finalRecipe)
    case ErrorMessageKey => OptionalTextValue(u.errorMessage)
    case AwaitingUserInputKey => FlagValue(u.awaitingUserInput.value)
  }

  /** Merging a node's result into the record. None of the record's keys has
      a reducer, so each written key takes the new value (`messages` is
      replaced, not appended to) and each other key keeps its value. */
  function Apply(s: AgentState, u: Update): (r: AgentState)
    // what the user gave is never changed by a node
    ensures r.userDesire == s.userDesire && r.dietaryPreferences == s.dietaryPreferences
    ensures r.userLanguage == s.userLanguage
  {
    s.(messages := u.messages.GetOr(s.messages),
       baseRecipeQuery := if u.baseRecipeQuery.Some? then u.baseRecipeQuery else s.baseRecipeQuery,
       baseRecipeSearchResults :=
         if u.baseRecipeSearchResults.Some? then u.baseRecipeSearchResults else s.baseRecipeSearchResults,
       extractedIngredients := u.extractedIngredients.GetOr(s.extractedIngredients),
       pairingQuery := if u.pairingQuery.Some? then u.pairingQuery else s.pairingQuery,
       pairingResults := if u.pairingResults.Some? then u.pairingResults else s.pairingResults,
       finalRecipe := if u.finalRecipe.Some? then u.finalRecipe else s.finalRecipe,
       errorMessage := if u.errorMessage.Some? then u.errorMessage else s.errorMessage,
       awaitingUserInput := u.awaitingUserInput.GetOr(s.awaitingUserInput))
  }

  /** After `Apply`, a key the update holds has the update's value, and every
      other key has the value it had before. */
  lemma {:induction false} ApplyChangesOnlyWrittenKeys(s: AgentState, u: Update, k: Key)
    ensures Writes(u, k) ==> Get(Apply(s, u), k) == WrittenValue(u, k)
    ensures !Writes(u, k) ==> Get(Apply(s, u), k) == Get(s, k)
  {
    match k
    case MessagesKey =>
    case UserDesireKey =>
    case DietaryPreferencesKey =>
    case BaseRecipeQueryKey =>
    case BaseRecipeSearchResultsKey =>
    case ExtractedIngredientsKey =>
    case PairingQueryKey =>
    case PairingResultsKey =>
    case FinalRecipeKey =>
    case ErrorMessageKey =>
    case AwaitingUserInputKey =>
    case UserLanguageKey =>
  }

  /** The record both entry points build before invoking the graph: the
      desire and the preferences of the turn, an empty conversation, every
      optional key `None`, no ingredients, not waiting for input. The web
      entry point also sets the detected language; the console one leaves
      it out. */
  function InitialState(desire: string, preferences: seq<string>, language: Option<string>): AgentState
  {
    AgentState([], desire, preferences, None, None, [], None, None, None, None, false, language)
  }
}
