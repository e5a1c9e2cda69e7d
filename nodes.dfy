/** The node bodies of the recipe graph (nodes.py). Each node reads the
    record and returns the partial update it writes; the results of the
    foreign calls a node makes (web search, the language model, the pairing
    tool) are its inputs, as `Call` values. */
module Nodes {
  import opened Wrappers
  import opened Text
  import opened State
  import opened Languages

  // ------------------------------------------------------------- updates

  /** The shapes of update the nodes return, each with the keys it writes. */

  /** A failed step: only the error is written. */
  function ReportError(e: string): (u: Update)
    ensures forall k :: Writes(u, k) <==> k == ErrorMessageKey
    ensures u.errorMessage == Some(e)
  {
    NoWrites.(errorMessage := Some(e))
  }

  function AwaitInput(b: bool): (u: Update)
    ensures forall k :: Writes(u, k) <==> k == AwaitingUserInputKey
    ensures u.awaitingUserInput == Some(b)
  {
    NoWrites.(awaitingUserInput := Some(b))
  }

  function SearchFound(results: string, query: string): (u: Update)
    ensures forall k :: Writes(u, k) <==> k == BaseRecipeSearchResultsKey || k == BaseRecipeQueryKey
    ensures u.baseRecipeSearchResults == Some(results) && u.baseRecipeQuery == Some(query)
  {
    NoWrites.(baseRecipeSearchResults := Some(results), baseRecipeQuery := Some(query))
  }

  function IngredientsFound(ingredients: seq<string>, query: string): (u: Update)
    ensures forall k :: Writes(u, k) <==> k == ExtractedIngredientsKey || k == PairingQueryKey
    ensures u.extractedIngredients == Some(ingredients) && u.pairingQuery == Some(query)
  {
    NoWrites.(extractedIngredients := Some(ingredients), pairingQuery := Some(query))
  }

  function PairingsFound(results: string): (u: Update)
    ensures forall k :: Writes(u, k) <==> k == PairingResultsKey
    ensures u.pairingResults == Some(results)
  {
    NoWrites.(pairingResults := Some(results))
  }

  function RecipeFound(recipe: string): (u: Update)
    ensures forall k :: Writes(u, k) <==> k == FinalRecipeKey
    ensures u.finalRecipe == Some(recipe)
  {
    NoWrites.(finalRecipe := Some(recipe))
  }

  /** The clarification node's result for message `m`: the conversation
      becomes that one assistant message, and the record waits for the user. */
  function AskUser(m: Clarification): (u: Update)
    ensures forall k :: Writes(u, k) <==> k == MessagesKey || k == AwaitingUserInputKey
    ensures u.messages == Some([AiMessage(m)]) && u.awaitingUserInput == Some(true)
  {
    NoWrites.(messages := Some([AiMessage(m)]), awaitingUserInput := Some(true))
  }

  // ---------------------------------------------------------------- start

  /** `start_node`: waiting for input exactly when there is no desire, and
      nothing else written. */
  function StartNode(s: AgentState): (u: Update)
    ensures u.awaitingUserInput == Some(s.userDesire == [])
    ensures forall k :: Writes(u, k) <==> k == AwaitingUserInputKey
  {
    if !Truthy(Get(s, UserDesireKey)) then AwaitInput(true)
    else AwaitInput(false)
  }

  // ---------------------------------------------------- base recipe search

  /** A value of a dictionary entry: the text an f-string renders it as,
      and whether Python takes the value itself as true (`None`, `0`,
      `False` and empty containers render as non-empty text but are false). */
  datatype Field = Field(rendered: string, truthy: bool)

  /** One entry of the search tool's result list. An entry that is neither
      a dictionary nor a string is carried as its `str()`. */
  datatype Entry =
    | DictEntry(fields: map<string, Field>)
    | TextEntry(text: string)
    | OtherEntry(rendered: string)

  /** What `tavily_search_tool.invoke(query)` may return. A dictionary holding
      a `results` list has it in `results`; a dictionary without that key has
      `results == None`, and its keys in `fields`, which therefore never holds
      `"results"`. */
  datatype SearchResponse =
    | TextResponse(text: string)
    | DictResponse(fields: map<string, Field>, results: Option<seq<Entry>>)
    | ListResponse(entries: seq<Entry>)
    | OtherResponse(rendered: string)

  const QuerySuffix := " recipe cooking instructions"
  const NoDescription := "No description available"
  const NoUsefulRecipe := "No useful recipe information found"
  const SearchErrorPrefix := "Error searching for base recipe: "
  const BlockSeparator := "\n\n"

  /** The web search query for a desire. */
  function SearchQuery(desire: string): (q: string)
    ensures StartsWith(q, desire) && q[|desire|..] == QuerySuffix
  {
    desire + QuerySuffix
  }

  /** Nested `d.get(k0, d.get(k1, ... default))`: the value of the first key
      of `keys` the dictionary holds, as rendered, or `default` when it holds
      none. A key that is present counts even when its value is empty or false. */
  function FirstPresent(fields: map<string, Field>, keys: seq<string>, default: string): (r: string)
    ensures forall j :: 0 <= j < |keys| && keys[j] in fields && (forall i :: 0 <= i < j ==> keys[i] !in fields) ==>
              r == fields[keys[j]].rendered
    ensures (forall j :: 0 <= j < |keys| ==> keys[j] !in fields) ==> r == default
  {
    if keys == [] then default
    else if keys[0] in fields then fields[keys[0]].rendered
    else FirstPresent(fields, keys[1..], default)
  }

  /** The label `Recipe {i+1}` of the entry at index `i`. */
  function RecipeLabel(i: nat): string {
    "Recipe " + Decimal(i + 1)
  }

  /** The block the node makes of the entry at index `i`. */
  function FormatEntry(e: Entry, i: nat): (r: string)
    ensures StartsWith(r, "**")
  {
    match e
    case DictEntry(f) =>
      var title := FirstPresent(f, ["title", "name"], RecipeLabel(i));
      var content := FirstPresent(f, ["content", "snippet", "description"], NoDescription);
      var url := if "url" in f then f["url"] else Field("", false);
      "**" + title + "**\n" + content + (if url.truthy then "\nSource: " + url.rendered else "")
    case TextEntry(t) => "**" + RecipeLabel(i) + "**\n" + t
    case OtherEntry(r) => "**" + RecipeLabel(i) + "**\n" + r
  }

  function Min(a: nat, b: nat): nat {
    if a <= b then a else b
  }

  /** The blocks made of the top three entries: block `i` is entry `i`,
      numbered `i + 1`. */
  function FormattedResults(entries: seq<Entry>): (blocks: seq<string>)
    ensures |blocks| == Min(3, |entries|)
    ensures forall i :: 0 <= i < |blocks| ==> blocks[i] == FormatEntry(entries[i], i)
  {
    seq(Min(3, |entries|), i requires 0 <= i < Min(3, |entries|) => FormatEntry(entries[i], i))
  }

  /** The response is one the node turns into a list of entries. */
  predicate Listed(response: SearchResponse) {
    response.DictResponse? || response.ListResponse?
  }

  /** That list: the `results` of a dictionary holding one, the dictionary
      itself when it holds none, or the list. */
  function ListedEntries(response: SearchResponse): seq<Entry>
    requires Listed(response)
  {
    match response
    case DictResponse(f, results) => if results.Some? then results.value else [DictEntry(f)]
    case ListResponse(es) => es
  }

  /** The update `search_base_recipe_node` returns once the search tool has
      answered `response` to the query for `desire`. */
  function BaseRecipeUpdate(desire: string, response: Call<SearchResponse>): (u: Update)
    // it writes either the search result with its query, or the error alone
    ensures || (forall k :: Writes(u, k) <==> k == BaseRecipeSearchResultsKey || k == BaseRecipeQueryKey)
            || (forall k :: Writes(u, k) <==> k == ErrorMessageKey)
    ensures u.baseRecipeQuery.Some? ==> u.baseRecipeQuery.value == SearchQuery(desire)
    ensures response.Raised? ==> u.errorMessage == Some(SearchErrorPrefix + response.message)
    ensures response.Returned? && response.value.TextResponse? ==>
              u.baseRecipeSearchResults == Some(response.value.text)
    ensures response.Returned? && response.value.OtherResponse? ==>
              u.baseRecipeSearchResults == Some(response.value.rendered)
    ensures response.Returned? && Listed(response.value) ==>
              (u.errorMessage.Some? <==> ListedEntries(response.value) == []) &&
              (u.errorMessage.Some? ==> u.errorMessage.value == NoUsefulRecipe) &&
              (u.baseRecipeSearchResults.Some? ==>
                 u.baseRecipeSearchResults.value != [] &&
                 u.baseRecipeSearchResults.value == Join(FormattedResults(ListedEntries(response.value)), BlockSeparator))
  {
    var query := SearchQuery(desire);
    match response
    case Raised(e) => ReportError(SearchErrorPrefix + e)
    case Returned(r) =>
      match r
      case TextResponse(t) => SearchFound(t, query)
      case OtherResponse(t) => SearchFound(t, query)
      case _ =>
        var blocks := FormattedResults(ListedEntries(r));
        if blocks != [] then
          JoinNonEmpty(blocks, BlockSeparator);
          SearchFound(Join(blocks, BlockSeparator), query)
        else
          ReportError(NoUsefulRecipe)
  }

  /** The loop of `search_base_recipe_node`: formats the top three entries
      one by one, appending each block. */
  method FormatSearchResults(entries: seq<Entry>) returns (formatted: seq<string>)
    ensures |formatted| == Min(3, |entries|)
    ensures forall i :: 0 <= i < |formatted| ==> formatted[i] == FormatEntry(entries[i], i)
  {
    formatted := [];
    var top := entries[..Min(3, |entries|)];
    for i := 0 to |top|
      invariant |formatted| == i
      invariant forall j :: 0 <= j < i ==> formatted[j] == FormatEntry(top[j], j)
    {
      var block := FormatBlock(top[i], i);
      formatted := formatted + [block];
    }
  }

  /** The loop body: the block of the entry at index `i`. */
  method FormatBlock(e: Entry, i: nat) returns (block: string)
    ensures block == FormatEntry(e, i)
  {
    match e {
      case DictEntry(f) =>
        block := FormatDictEntry(f, i);
      case TextEntry(t) =>
        block := "**" + RecipeLabel(i) + "**\n" + t;
      case OtherEntry(r) =>
        block := "**" + RecipeLabel(i) + "**\n" + r;
    }
  }

  /** The block of a dictionary entry, built as the loop body builds it: the
      title and content line, then the `Source:` line when the url is true. */
  method FormatDictEntry(f: map<string, Field>, i: nat) returns (block: string)
    ensures block == FormatEntry(DictEntry(f), i)
  {
    var title := FirstPresent(f, ["title", "name"], RecipeLabel(i));
    var content := FirstPresent(f, ["content", "snippet", "description"], NoDescription);
    var url := if "url" in f then f["url"] else Field("", false);
    block := "**" + title + "**\n" + content;
    if url.truthy {
      block := block + "\nSource: " + url.rendered;
    }
  }

  /** `search_base_recipe_node` as the source runs it: build the query, call
      the search tool on it, and sort out the shape of the answer. */
  method SearchBaseRecipeNode(s: AgentState, search: string -> Call<SearchResponse>) returns (u: Update)
    ensures u == BaseRecipeUpdate(s.userDesire, search(SearchQuery(s.userDesire)))
  {
    var query := s.userDesire + QuerySuffix;
    var response := search(query);
    if response.Raised? {
      return ReportError(SearchErrorPrefix + response.message);
    }
    var results := response.value;
    var searchResults: seq<Entry>;
    match results {
      case DictResponse(f, rs) =>
        if rs.Some? {
          searchResults := rs.value;
        } else {
          searchResults := [DictEntry(f)];
        }
      case ListResponse(es) =>
        searchResults := es;
      case TextResponse(t) =>
        return SearchFound(t, query);
      case OtherResponse(t) =>
        return SearchFound(t, query);
    }
    var formatted := FormatSearchResults(searchResults);
    assert formatted == FormattedResults(searchResults);
    if formatted != [] {
      u := SearchFound(Join(formatted, BlockSeparator), query);
    } else {
      u := ReportError(NoUsefulRecipe);
    }
  }

  /** A dictionary entry: the title is `title`, else `name`, else the
      entry's label; the content is `content`, else `snippet`, else
      `description`, else a fixed text; each fallback is taken only when the
      key is missing. A `Source:` line follows when the entry's `url` is
      there and true, whatever its rendering. */
  lemma {:induction false} DictEntryLayout(f: map<string, Field>, i: nat)
    ensures FormatEntry(DictEntry(f), i) ==
            "**" + (if "title" in f then f["title"].rendered else if "name" in f then f["name"].rendered else RecipeLabel(i))
            + "**\n"
            + (if "content" in f then f["content"].rendered else if "snippet" in f then f["snippet"].rendered
               else if "description" in f then f["description"].rendered else NoDescription)
            + (if "url" in f && f["url"].truthy then "\nSource: " + f["url"].rendered else "")
  {
    var titleKeys := ["title", "name"];
    var contentKeys := ["content", "snippet", "description"];
    assert titleKeys[1] == "name" && contentKeys[1] == "snippet" && contentKeys[2] == "description";
  }

  /** A present but empty title is kept: the block starts with an empty bold title. */
  lemma {:induction false} EmptyTitleKept(f: map<string, Field>, i: nat)
    requires "title" in f && f["title"].rendered == ""
    ensures StartsWith(FormatEntry(DictEntry(f), i), "****\n")
  {
    DictEntryLayout(f, i);
  }

  /** A string entry is labelled with its 1-based position. */
  lemma {:induction false} TextEntryLayout(t: string, i: nat)
    ensures FormatEntry(TextEntry(t), i) == "**Recipe " + Decimal(i + 1) + "**\n" + t
  {
  }

  /** Any other entry is labelled the same way, above its rendering. */
  lemma {:induction false} OtherEntryLayout(r: string, i: nat)
    ensures FormatEntry(OtherEntry(r), i) == "**Recipe " + Decimal(i + 1) + "**\n" + r
  {
  }

  /** The label names the entry's 1-based position in decimal digits. */
  lemma {:induction false} RecipeLabelNumbers(i: nat)
    ensures StartsWith(RecipeLabel(i), "Recipe ")
    ensures var digits := RecipeLabel(i)[|"Recipe "|..];
            (forall k :: 0 <= k < |digits| ==> '0' <= digits[k] <= '9') && DecimalValue(digits) == i + 1
  {
    assert RecipeLabel(i)[|"Recipe "|..] == Decimal(i + 1);
    DecimalRoundTrip(i + 1);
  }

  /** Entries after the third take no part in the result. */
  lemma {:induction false} OnlyTopThreeEntries(desire: string, entries: seq<Entry>)
    requires |entries| > 3
    ensures BaseRecipeUpdate(desire, Returned(ListResponse(entries))) ==
            BaseRecipeUpdate(desire, Returned(ListResponse(entries[..3])))
  {
    assert FormattedResults(entries) == FormattedResults(entries[..3]);
  }

  /** Whenever the node records a search result, its update is that result
      with the query, and nothing else. */
  lemma {:induction false} SearchRecorded(desire: string, response: Call<SearchResponse>)
    requires BaseRecipeUpdate(desire, response).baseRecipeSearchResults.Some?
    ensures BaseRecipeUpdate(desire, response) ==
            SearchFound(BaseRecipeUpdate(desire, response).baseRecipeSearchResults.value, SearchQuery(desire))
  {
  }

  /** The search answers that leave an empty result: an empty text, or an
      object whose `str()` is empty. */
  predicate EmptySearchText(response: Call<SearchResponse>) {
    response == Returned(TextResponse([])) || response == Returned(OtherResponse([]))
  }

  /** The search node writes an error exactly when it writes no result, and
      the result it writes is empty exactly after an empty search text. */
  lemma {:induction false} SearchOutcome(desire: string, response: Call<SearchResponse>)
    ensures var u := BaseRecipeUpdate(desire, response);
            && (u.errorMessage.Some? <==> u.baseRecipeSearchResults.None?)
            && (u.baseRecipeSearchResults == Some([]) <==> EmptySearchText(response))
  {
  }

  // ------------------------------------------------- ingredient extraction

  const ExtractionErrorPrefix := "Error extracting ingredients: "
  const PairingQueryPrefix := "pairings for "

  /** `[p.strip() for p in pieces if p.strip()]`. */
  function KeepStripped(pieces: seq<string>): (r: seq<string>)
    ensures forall i :: 0 <= i < |r| ==> r[i] != [] && Trimmed(r[i])
  {
    if pieces == [] then []
    else (if Strip(pieces[0]) != [] then [Strip(pieces[0])] else []) + KeepStripped(pieces[1..])
  }

  /** Filtering distributes over concatenation: pieces keep their order. */
  lemma {:induction false} KeepStrippedAppend(a: seq<string>, b: seq<string>)
    ensures KeepStripped(a + b) == KeepStripped(a) + KeepStripped(b)
  {
    if a == [] {
      assert a + b == b;
    } else {
      var head := if Strip(a[0]) != [] then [Strip(a[0])] else [];
      assert (a + b)[0] == a[0];
      assert (a + b)[1..] == a[1..] + b;
      KeepStrippedAppend(a[1..], b);
      calc {
        KeepStripped(a + b);
        head + KeepStripped(a[1..] + b);
        head + (KeepStripped(a[1..]) + KeepStripped(b));
        head + KeepStripped(a[1..]) + KeepStripped(b);
      }
    }
  }

  /** The ingredients in already stripped text: its comma-separated pieces,
      each stripped, the empty ones dropped. */
  function IngredientsOf(text: string): seq<string> {
    KeepStripped(Split(text, ','))
  }

  /** The ingredient list parsed from the model's reply. */
  function ParseIngredients(reply: string): (ingredients: seq<string>)
    ensures forall i :: 0 <= i < |ingredients| ==>
              ingredients[i] != [] && Trimmed(ingredients[i]) && ',' !in ingredients[i]
  {
    var pieces := Split(Strip(reply), ',');
    var r := KeepStripped(pieces);
    CommaFreeKept(pieces);
    r
  }

  /** Stripping cuts characters away and adds none, so comma-free pieces
      stay comma-free. */
  lemma {:induction false} CommaFreeKept(pieces: seq<string>)
    requires forall i :: 0 <= i < |pieces| ==> ',' !in pieces[i]
    ensures forall i :: 0 <= i < |KeepStripped(pieces)| ==> ',' !in KeepStripped(pieces)[i]
  {
    if pieces != [] {
      CommaFreeKept(pieces[1..]);
      var p := pieces[0];
      var t := Strip(p);
      StripSlice(p);
      var j := |p| - |LStrip(p)|;
      NotInSlice(p, j, j + |t|, ',');
    }
  }

  /** The ingredients of `x,y` are those of `x` followed by those of `y`. */
  lemma {:induction false} IngredientsInOrder(x: string, y: string)
    ensures IngredientsOf(x + [','] + y) == IngredientsOf(x) + IngredientsOf(y)
  {
    SplitAppend(x, y, ',');
    KeepStrippedAppend(Split(x, ','), Split(y, ','));
  }

  /** A blank in front of the text changes no ingredient. */
  lemma {:induction false} IngredientsIgnoreLeadingBlank(x: string)
    ensures IngredientsOf([' '] + x) == IngredientsOf(x)
  {
    var ps := Split(x, ',');
    var bs := Split([' '] + x, ',');
    assert ([' '] + x)[1..] == x;
    assert bs == [[' '] + ps[0]] + ps[1..];
    assert ps == [ps[0]] + ps[1..];
    StripBlankPrefix(ps[0]);
    KeepStrippedAppend([[' '] + ps[0]], ps[1..]);
    KeepStrippedAppend([ps[0]], ps[1..]);
  }

  /** `strip()` also removes one blank put in front of any text. */
  lemma {:induction false} StripBlankPrefix(p: string)
    ensures Strip([' '] + p) == Strip(p)
  {
    assert ([' '] + p)[1..] == p;
  }

  /** A well-formed item: what the parser can produce. */
  predicate WellFormedItem(p: string) {
    p != [] && Trimmed(p) && ',' !in p
  }

  /** The first and last characters of joined non-empty parts are those of
      the first and last part. */
  lemma {:induction false} JoinEnds(parts: seq<string>, sep: string)
    requires parts != []
    requires forall i :: 0 <= i < |parts| ==> parts[i] != []
    ensures var j := Join(parts, sep); var last := parts[|parts| - 1];
            |j| > 0 && j[0] == parts[0][0] && j[|j| - 1] == last[|last| - 1]
  {
    JoinNonEmpty(parts, sep);
    if |parts| > 1 {
      JoinEnds(parts[1..], sep);
    }
  }

  /** Parsing undoes joining with `", "`: well-formed items come back as
      they were, in their order; no items give the empty text, which parses
      to no items. */
  lemma {:induction false} IngredientsRoundTrip(items: seq<string>)
    requires forall i :: 0 <= i < |items| ==> WellFormedItem(items[i])
    ensures ParseIngredients(Join(items, ", ")) == items
  {
    if items == [] {
      StripTrimmed("");
      assert Split("", ',') == [""];
    } else {
      JoinEnds(items, ", ");
      StripTrimmed(Join(items, ", "));
      JoinedItemsParse(items);
    }
  }

  lemma {:induction false} JoinedItemsParse(items: seq<string>)
    requires items != []
    requires forall i :: 0 <= i < |items| ==> WellFormedItem(items[i])
    ensures IngredientsOf(Join(items, ", ")) == items
  {
    SingleItemParse(items[0]);
    if |items| > 1 {
      var rest := Join(items[1..], ", ");
      assert Join(items, ", ") == items[0] + [','] + ([' '] + rest);
      calc {
        IngredientsOf(Join(items, ", "));
        { IngredientsInOrder(items[0], [' '] + rest); }
        IngredientsOf(items[0]) + IngredientsOf([' '] + rest);
        { IngredientsIgnoreLeadingBlank(rest); }
        [items[0]] + IngredientsOf(rest);
        { JoinedItemsParse(items[1..]); }
        [items[0]] + items[1..];
      }
      assert [items[0]] + items[1..] == items;
    }
  }

  /** An item on its own parses to itself. */
  lemma {:induction false} SingleItemParse(x: string)
    requires WellFormedItem(x)
    ensures IngredientsOf(x) == [x]
  {
    SplitNoSeparator(x, ',');
    StripTrimmed(x);
    assert KeepStripped([x]) == [x] + KeepStripped([x][1..]);
    assert [x][1..] == [];
  }

  /** The pairing query: the fixed prefix and the first three ingredients
      (or fewer, if there are fewer), separated by single blanks. */
  function PairingQuery(ingredients: seq<string>): (q: string)
    ensures StartsWith(q, PairingQueryPrefix)
    ensures q[|PairingQueryPrefix|..] == Join(ingredients[..Min(3, |ingredients|)], " ")
  {
    PairingQueryPrefix + Join(ingredients[..Min(3, |ingredients|)], " ")
  }

  /** The ingredients can be read back from the query: splitting what follows
      the prefix at blanks gives the first three, when none holds a blank. */
  lemma {:induction false} PairingQueryNamesIngredients(ingredients: seq<string>)
    requires ingredients != []
    requires forall i :: 0 <= i < |ingredients| ==> ' ' !in ingredients[i]
    ensures Split(PairingQuery(ingredients)[|PairingQueryPrefix|..], ' ') == ingredients[..Min(3, |ingredients|)]
  {
    var first := ingredients[..Min(3, |ingredients|)];
    assert forall i :: 0 <= i < |first| ==> first[i] == ingredients[i];
    SplitJoin(first, ' ');
  }

  /** Ingredients after the third do not reach the query. */
  lemma {:induction false} PairingQueryUsesFirstThree(ingredients: seq<string>)
    requires |ingredients| > 3
    ensures PairingQuery(ingredients) == PairingQuery(ingredients[..3])
  {
    assert ingredients[..3][..3] == ingredients[..3];
  }

  /** `extract_ingredients_node` once the model has answered `reply`. On
      success both the list and the query are written; on an exception only
      the error is, so the list keeps the value it had. */
  function ExtractIngredientsNode(s: AgentState, reply: Call<string>): (u: Update)
    ensures reply.Returned? ==>
              (forall k :: Writes(u, k) <==> k == ExtractedIngredientsKey || k == PairingQueryKey) &&
              u.extractedIngredients == Some(ParseIngredients(reply.value)) &&
              u.pairingQuery == Some(PairingQuery(ParseIngredients(reply.value)))
    ensures reply.Raised? ==>
              (forall k :: Writes(u, k) <==> k == ErrorMessageKey) &&
              u.errorMessage == Some(ExtractionErrorPrefix + reply.message)
  {
    match reply
    case Raised(e) => ReportError(ExtractionErrorPrefix + e)
    case Returned(content) =>
      var ingredients := ParseIngredients(content);
      IngredientsFound(ingredients, PairingQuery(ingredients))
  }

  // ------------------------------------------------------- pairing search

  const PairingsErrorPrefix := "Error searching pairings: "

  /** `search_pairings_node` once `search_food_pairings.invoke(query)` has
      answered `answer`. */
  function SearchPairingsNode(s: AgentState, answer: Call<string>): (u: Update)
    ensures answer.Returned? ==>
              (forall k :: Writes(u, k) <==> k == PairingResultsKey) && u.pairingResults == Some(answer.value)
    ensures answer.Raised? ==>
              (forall k :: Writes(u, k) <==> k == ErrorMessageKey) &&
              u.errorMessage == Some(PairingsErrorPrefix + answer.message)
  {
    match answer
    case Raised(e) => ReportError(PairingsErrorPrefix + e)
    case Returned(results) => PairingsFound(results)
  }

  // ----------------------------------------------------- recipe generation

  const NoPreferences := "none"
  const IncompleteRecipe := "Generated recipe seems incomplete"
  const GenerationErrorPrefix := "Error generating recipe: "
  const MinimumRecipeLength := 100

  /** The dietary preferences as the prompt shows them. */
  function JoinPreferences(preferences: seq<string>): (r: string)
    ensures preferences == [] ==> r == NoPreferences
    ensures preferences != [] ==> r == Join(preferences, ", ")
  {
    if preferences != [] then Join(preferences, ", ") else NoPreferences
  }

  /** The preferences the console entry point reads are parsed by the same
      comma rule as ingredients (main.py:23); joining them for the prompt
      loses nothing, since parsing the joined text gives them back. */
  lemma {:induction false} PreferencesRecoverable(preferences: seq<string>)
    requires preferences != []
    requires forall i :: 0 <= i < |preferences| ==> WellFormedItem(preferences[i])
    ensures ParseIngredients(JoinPreferences(preferences)) == preferences
  {
    IngredientsRoundTrip(preferences);
  }

  /** ... except that no preferences and the single preference `none` read the same. */
  lemma NoPreferencesLikeNone()
    ensures JoinPreferences([]) == JoinPreferences([NoPreferences])
  {
  }

  /** What the recipe prompt embeds. The wording around it is fixed text; the
      language instruction is known by its language, its text being
      `Instruction(instruction)`. */
  datatype RecipeContext = RecipeContext(
    instruction: Language,
    desire: string,
    preferences: string,
    baseRecipe: Option<string>,
    pairings: Option<string>,
    language: string)

  /** The language a node uses: the record's, or Italian when it has none. */
  function UserLanguage(s: AgentState): (code: string)
    ensures s.userLanguage.Some? ==> code == s.userLanguage.value
    ensures s.userLanguage.None? ==> code == DefaultLanguage
  {
    s.userLanguage.GetOr(DefaultLanguage)
  }

  /** The context `generate_recipe_node` builds into its prompt. The pairing
      results are read with a default that never applies: both entry points
      put the key in the record (holding `None`), so the model sees the
      record's value. */
  function GenerationContext(s: AgentState): (c: RecipeContext)
    ensures c.language == UserLanguage(s) && c.instruction == InstructionLanguage(c.language)
    ensures c.preferences == JoinPreferences(s.dietaryPreferences)
    ensures c.desire == s.userDesire && c.baseRecipe == s.baseRecipeSearchResults && c.pairings == s.pairingResults
  {
    var language := UserLanguage(s);
    RecipeContext(InstructionLanguage(language), s.userDesire, JoinPreferences(s.dietaryPreferences),
                  s.baseRecipeSearchResults, s.pairingResults, language)
  }

  /** The prompts sent to the language model, by what they embed. */
  datatype Prompt =
    | IngredientPrompt(baseRecipe: Option<string>)
    | RecipePrompt(context: RecipeContext)

  /** `generate_recipe_node` once the model has answered `reply`: the stripped
      reply is the recipe when it is longer than 100 characters. */
  function GenerateRecipeNode(s: AgentState, reply: Call<string>): (u: Update)
    ensures u.finalRecipe.Some? <==> reply.Returned? && |Strip(reply.value)| > MinimumRecipeLength
    ensures u.finalRecipe.Some? ==>
              u.finalRecipe.value == Strip(reply.value) && (forall k :: Writes(u, k) <==> k == FinalRecipeKey)
    ensures u.finalRecipe.None? ==> (forall k :: Writes(u, k) <==> k == ErrorMessageKey)
    ensures reply.Returned? && |Strip(reply.value)| <= MinimumRecipeLength ==> u.errorMessage == Some(IncompleteRecipe)
    ensures reply.Raised? ==> u.errorMessage == Some(GenerationErrorPrefix + reply.message)
  {
    match reply
    case Raised(e) => ReportError(GenerationErrorPrefix + e)
    case Returned(content) =>
      var recipe := Strip(content);
      if |recipe| > MinimumRecipeLength then RecipeFound(recipe)
      else ReportError(IncompleteRecipe)
  }

  // ---------------------------------------------------------- clarification

  const RateLimitMarker := "rate limit"
  const NoneHasNoLower := "'NoneType' object has no attribute 'lower'"

  /** The error text, lower-cased, mentions a rate limit. */
  predicate SignalsRateLimit(error: string) {
    Contains(Lower(error), RateLimitMarker)
  }

  /** The message chosen for an error text and a desire, in `language`: the
      rate-limit notice whenever the error mentions one, otherwise the question
      for a dish when there is no desire, otherwise the request for details. */
  function Clarify(language: Language, error: string, desire: string): (m: Clarification)
    ensures m.language == language
    ensures m.RateLimitNotice? <==> SignalsRateLimit(error)
    ensures m.DishQuestion? <==> !SignalsRateLimit(error) && desire == []
    ensures m.DetailsQuestion? ==> m.desire == desire
  {
    if SignalsRateLimit(error) then RateLimitNotice(language)
    else if desire == [] then DishQuestion(language)
    else DetailsQuestion(language, desire)
  }

  /** The text of the chosen message, written out with templates `t`. */
  lemma {:induction false} ClarifyText(t: Templates, language: Language, error: string, desire: string)
    ensures var m := Render(t, Clarify(language, error, desire));
            && (SignalsRateLimit(error) ==> m == t.rateLimit)
            && (!SignalsRateLimit(error) && desire == [] ==> m == t.noDesire)
            && (!SignalsRateLimit(error) && desire != [] ==> m == t.detailsBefore + desire + t.detailsAfter)
  {
  }

  /** Unless it reports a rate limit, the message answering a non-empty
      desire quotes it. */
  lemma {:induction false} ClarifyQuotesDesire(t: Templates, language: Language, error: string, desire: string)
    requires !SignalsRateLimit(error) && desire != []
    ensures Contains(Render(t, Clarify(language, error, desire)), desire)
  {
    DetailsQuoteDesire(t, language, desire);
  }

  /** A node either returns its update or lets an exception escape. */
  datatype NodeOutcome = Wrote(update: Update) | RaisedOut(exception: string)

  /** `clarify_input_node`. The error is read with a default that does not
      apply to a key holding `None`, and `.lower()` on `None` raises: with no
      error message recorded the node raises instead of answering. */
  function ClarifyInputNode(s: AgentState): (o: NodeOutcome)
    ensures o.RaisedOut? <==> s.errorMessage.None?
    ensures o.RaisedOut? ==> o.exception == NoneHasNoLower
    ensures o.Wrote? ==>
              o.update == AskUser(Clarify(ClarificationLanguage(UserLanguage(s)), s.errorMessage.value, s.userDesire))
  {
    var language := ClarificationLanguage(UserLanguage(s));
    match s.errorMessage
    case None => RaisedOut(NoneHasNoLower)
    case Some(error) => Wrote(AskUser(Clarify(language, error, s.userDesire)))
  }

  /** An error text mentioning a rate limit, in any letter case, selects the
      rate-limit notice whatever else the record holds. */
  lemma RateLimitWins(s: AgentState)
    requires s.errorMessage.Some? && SignalsRateLimit(s.errorMessage.value)
    ensures ClarifyInputNode(s).Wrote?
    ensures ClarifyInputNode(s).update.messages == Some([AiMessage(RateLimitNotice(ClarificationLanguage(UserLanguage(s))))])
  {
  }

  /** An error text that mentions a rate limit in any letter case, with
      anything around it, signals one. */
  lemma {:induction false} MentionSignalsRateLimit(before: string, mention: string, after: string)
    requires Lower(mention) == RateLimitMarker
    ensures SignalsRateLimit(before + mention + after)
  {
    LowerAppend(before + mention, after);
    LowerAppend(before, mention);
    ContainsMiddle(Lower(before), Lower(mention), Lower(after));
  }

  /** `Error: rate limit exceeded`, lower-cased, contains `rate limit`. */
  lemma {:induction false} RateLimitLowerCase()
    ensures SignalsRateLimit("Error: rate limit exceeded")
  {
    assert "Error: rate limit exceeded" == "Error: " + "rate limit" + " exceeded";
    MentionSignalsRateLimit("Error: ", "rate limit", " exceeded");
  }

  /** A capitalised mention of a rate limit signals one as well. */
  lemma {:induction false} RateLimitCapitalised()
    ensures SignalsRateLimit("Rate Limit reached")
  {
    assert "Rate Limit reached" == "" + "Rate Limit" + " reached";
    MentionSignalsRateLimit("", "Rate Limit", " reached");
  }
}
