# Chef Innovativo: the recipe pipeline in Dafny

This project models the recipe pipeline of the "Innovative Chef" agent and
proves properties of the model. The pipeline is a LangGraph state graph
with six nodes:

- `start` checks that the user said what they want to cook;
- `search_base_recipe` runs a web search for a base recipe and normalises
  whatever shape of answer the search tool gives;
- `extract_ingredients` lets the language model list the main ingredients
  and builds the query for flavour pairings;
- `search_pairings` asks the pairing tool, which searches a book of
  flavour pairings;
- `generate_recipe` lets the language model write the recipe;
- `clarify_input` asks the user for more details, or reports a rate limit.

The record threaded through the graph is `RecipeAgentState`. Each node
returns a partial update, and the graph merges that update into the record.

Modules, one per part of the program:

| file | module | models |
|---|---|---|
| `wrappers.dfy` | `Wrappers` | `Option`, and `Call` (a foreign call that returned a value or raised) |
| `text.dfy` | `Text` | the Python `str` operations used: `strip`, `split(',')`, `join`, `lower`, `in`, `str(n)` |
| `languages.dfy` | `Languages` | the language-instruction table and the clarification-template table |
| `state.dfy` | `State` | the record, its keys, Python truthiness, node updates and how one is merged |
| `tools.dfy` | `Tools` | the body of `search_food_pairings` |
| `nodes.dfy` | `Nodes` | the six node bodies |
| `graph.dfy` | `Graph` | the builder, the routing table, running the graph to `END` |
| `runs.dfy` | `RecipeRuns` | complete runs with the recipe nodes plugged in |

Foreign calls are inputs:

- the web search is a function from query to answer;
- the language model is a function from prompt to reply;
- the pairing retriever is a function from query to documents.

Each of them can also raise (`Call.Raised`). A run is a function of the
initial record and these collaborators (`Graph.Env`).

The search node's loop and the graph builder keep their imperative form:

- `Nodes.FormatSearchResults` appends one block per entry in a `for` loop;
- `Nodes.SearchBaseRecipeNode` runs the node step by step;
- the class `Graph.StateGraph` is filled by method calls;
- `Graph.Invoke` is the engine's `while` loop.

Each of them is proved equal to a pure function (`FormattedResults`,
`BaseRecipeUpdate`, `RecipeGraph`, `RunFrom`), and the other lemmas are
stated about that function.

What the code does, as written:

- A run can execute six nodes (`start`, search, extraction, pairings,
  generation, clarification): `Graph.Invoke` bounds the trace by 6.
- A run can end with both `final_recipe` and `error_message` set: after a
  failed extraction the run still goes on to generation
  (`RecipeRuns.ExtractionFailureStillGenerates`).
- An empty desire does not produce the "what would you like to cook"
  question. The record holds `error_message = None`, and `.lower()` on it
  raises, so the run crashes (`RecipeRuns.EmptyDesireCrashes`).
- The same crash follows a search whose answer is an empty text
  (`RecipeRuns.EmptySearchCrashes`), and these are the only crashes
  (`RecipeRuns.RunCrashes`).
- `messages` has no reducer. The clarification node replaces the
  conversation with its one message; it does not append to it.
- The generation prompt's default for missing pairings never applies. Both
  entry points create the key, holding `None`.

## Model

| member | source | states |
|---|---|---|
| Text.Strip | nodes.py:142 | `strip()` leaves text that has no whitespace at either end and is no longer than the input |
| Text.StripSlice | nodes.py:142 | what `strip()` keeps is one contiguous part of the input |
| Text.StripRemovesSpace | nodes.py:142 | what `strip()` cuts off before and after that part is only whitespace |
| Text.StripTrimmed | nodes.py:218 | stripping text with no whitespace at its ends returns it unchanged |
| Text.Split | nodes.py:145 | `split(',')` gives at least one piece, and no piece contains the separator |
| Text.JoinSplit | nodes.py:145 | joining the pieces of `split(c)` with `c` gives the text back |
| Text.SplitJoin | nodes.py:145 | splitting undoes joining when no part holds the separator |
| Text.SplitAppend | nodes.py:145 | the pieces of `x + c + y` are those of `x` followed by those of `y` |
| Text.JoinSnoc | tools.py:33 | joining a list with one more part appends the separator and that part |
| Text.JoinNonEmpty | nodes.py:70-72 | joining non-empty blocks gives non-empty text that starts with the first block |
| Text.Join | nodes.py:72 | `sep.join(parts)` as at nodes.py:72, 149 and 190 and tools.py:33; `Text.JoinSplit`, `Text.SplitJoin`, `Text.JoinSnoc` and `Text.JoinNonEmpty` state what it gives |
| Text.Lower | nodes.py:267 | `lower()` keeps the length and maps each character by itself |
| Text.LowerAppend | nodes.py:267 | lower-casing distributes over concatenation |
| Text.Contains | nodes.py:267 | `needle in s` on strings; `Text.ContainsIffOccurs` states it |
| Text.ContainsIffOccurs | nodes.py:267 | `needle in s` holds exactly when the needle occurs in `s` at some index |
| Text.Decimal | nodes.py:56 | `str(i+1)` is a non-empty string of decimal digits, with no leading zero (it starts with `0` exactly for 0) |
| Text.DecimalRoundTrip | nodes.py:56 | reading the rendered digits back gives the number |
| Languages.CodeOf | nodes.py:170-182 | the eleven keys of the instruction table, one per language; `Languages.LanguageOfCode` states that no two languages share one |
| Languages.LanguageOf | nodes.py:170-182 | a code names a language exactly when it is one of the eleven keys of the instruction table, and that language's code is the code |
| Languages.LanguageOfCode | nodes.py:170-182 | every language is found under its own code, so no two languages share one |
| Languages.InstructionLanguage | nodes.py:184 | the instruction is the code's own entry in the table, or the Italian entry for every other code |
| Languages.LanguageInstruction | nodes.py:168-184 | `get_language_instructions`: the entry of one of the eleven codes, whose language has that code, or the Italian entry for every other code |
| Languages.TemplateTexts | nodes.py:237-263 | the clarification table's entry for each of its five languages; `Languages.DetailsQuoteDesire` and `Nodes.ClarifyText` state what its texts become |
| Languages.TemplatesFor | nodes.py:265 | the templates of `it`, `en`, `fr`, `es` and `de` for those codes, and the Italian ones for every other code |
| Languages.ClarificationLanguage | nodes.py:237-265 | the templates are those of `it`, `en`, `fr`, `es` or `de` for those codes, and Italian for every other code |
| Languages.Render | nodes.py:237-263 | filling a template with the desire; `Nodes.ClarifyText` and `Languages.DetailsQuoteDesire` state what it gives |
| Languages.DetailsQuoteDesire | nodes.py:241 | the "more details" message contains the desire, whatever its templates |
| State.Get | state.py:4-23 | `state[key]` on the record, as the routers read it; `Graph.RoutingTable` states each router's test on the record's fields |
| State.Truthy | graph.py:22-42 | Python truthiness of a stored value, the only thing a router tests (`Graph.RoutingReadsOnlyTruthiness`) |
| State.Apply | state.py:4-23 | merging an update never changes the desire, the preferences or the language; `State.ApplyChangesOnlyWrittenKeys` states the rest |
| State.InitialState | main.py:26-41 | the record the entry points build; it is consistent (`RecipeRuns.InitialConsistent`) and `RecipeRuns.RunCrashes` gives its runs' crashes |
| State.ApplyChangesOnlyWrittenKeys | state.py:4-23 | after merging an update, a key the update holds has the update's value and every other key keeps its value |
| Tools.SearchFoodPairings | tools.py:28-36 | the answer is never empty; an empty retrieval gives the fixed not-found text; documents give the header and their contents joined by `\n---\n`; an exception gives the error prefix and its message |
| Tools.AnswerKindRecoverable | tools.py:28-36 | the first letter of the answer tells which of the three cases happened |
| Tools.DocumentsInRetrievalOrder | tools.py:33-34 | one more retrieved document is appended after the separator, so documents keep retrieval order |
| Nodes.ReportError | nodes.py:76 | `{"error_message": e}` writes the error and no other key |
| Nodes.AwaitInput | nodes.py:12-14 | `{"awaiting_user_input": b}` writes that flag and no other key |
| Nodes.SearchFound | nodes.py:42-45 | the search node's success writes the result and its query and no other key |
| Nodes.IngredientsFound | nodes.py:147-150 | the extraction node's success writes the ingredients and the pairing query and no other key |
| Nodes.PairingsFound | nodes.py:163 | the pairing node's success writes the pairing results and no other key |
| Nodes.RecipeFound | nodes.py:222 | an accepted recipe writes `final_recipe` and no other key |
| Nodes.AskUser | nodes.py:274-277 | the clarification node writes one assistant message and sets `awaiting_user_input`, and writes nothing else |
| Nodes.StartNode | nodes.py:11-14 | `awaiting_user_input` is true exactly when the desire is empty, and no other key is written |
| Nodes.SearchQuery | nodes.py:21 | the query is the desire followed by ` recipe cooking instructions` |
| Nodes.FirstPresent | nodes.py:56-57 | the value of the first key the entry holds, even when it is empty; the default only when it holds none |
| Nodes.FormatEntry | nodes.py:55-68 | every block starts with the bold marker `**`; `Nodes.DictEntryLayout`, `Nodes.TextEntryLayout` and `Nodes.OtherEntryLayout` give the whole layout of each kind of entry |
| Nodes.FormatBlock | nodes.py:55-68 | the loop body builds the block `FormatEntry` gives for the entry at that index |
| Nodes.FormatDictEntry | nodes.py:56-64 | building a dict entry's block step by step, with the `Source:` line appended when the url is true, gives `FormatEntry`'s block |
| Nodes.ListedEntries | nodes.py:32-39 | the list the node formats: a dict's `results`, the dict itself as one entry, or the list; `Nodes.BaseRecipeUpdate` states what becomes of it |
| Nodes.FormattedResults | nodes.py:54-68 | at most three blocks, block `i` made from entry `i` |
| Nodes.BaseRecipeUpdate | nodes.py:20-81 | the node writes the result with its query or the error alone; a text answer is kept unchanged; a dict with `results` uses that list, a dict without it is a one-entry list; no entries give the fixed error; otherwise a non-empty join of the blocks with a blank line; an exception gives the error prefix and its message |
| Nodes.FormatSearchResults | nodes.py:53-68 | the loop makes exactly the blocks of the top three entries, in order |
| Nodes.SearchBaseRecipeNode | nodes.py:20-81 | running the node step by step gives the same update as `BaseRecipeUpdate` on the search tool's answer to the query |
| Nodes.DictEntryLayout | nodes.py:55-64 | a dict entry's title falls back title, name, `Recipe {i+1}`; its content falls back content, snippet, description, fixed text; a `Source:` line comes only when the entry holds a url that is true |
| Nodes.EmptyTitleKept | nodes.py:56 | a present but empty title is used, not replaced by a fallback |
| Nodes.TextEntryLayout | nodes.py:65-66 | a string entry becomes `**Recipe {i+1}**` above its text |
| Nodes.OtherEntryLayout | nodes.py:67-68 | any other entry becomes `**Recipe {i+1}**` above its `str()` |
| Nodes.RecipeLabel | nodes.py:56 | the label `Recipe {i+1}`; `Nodes.RecipeLabelNumbers` states what it holds |
| Nodes.RecipeLabelNumbers | nodes.py:56 | the label is `Recipe ` followed by decimal digits that read back as `i + 1` |
| Nodes.OnlyTopThreeEntries | nodes.py:54 | entries after the third do not change the update |
| Nodes.SearchRecorded | nodes.py:40-45 | whenever the node records a result, its update is exactly that result with its query |
| Nodes.SearchOutcome | nodes.py:40-76 | the node writes an error exactly when it writes no result, and an empty result exactly after an empty search text |
| Nodes.IngredientsOf | nodes.py:145 | the comprehension over the comma pieces of the stripped reply; `Nodes.IngredientsInOrder`, `Nodes.JoinedItemsParse` and `Nodes.SingleItemParse` state what it gives |
| Nodes.KeepStripped | nodes.py:145 | every kept piece is stripped and non-empty |
| Nodes.KeepStrippedAppend | nodes.py:145 | the filter distributes over concatenation, so pieces keep their order |
| Nodes.ParseIngredients | nodes.py:142-145 | every ingredient is non-empty, stripped and free of commas |
| Nodes.CommaFreeKept | nodes.py:145 | stripping adds no character, so comma-free pieces stay comma-free |
| Nodes.IngredientsInOrder | nodes.py:145 | the ingredients of `x,y` are those of `x` followed by those of `y` |
| Nodes.IngredientsIgnoreLeadingBlank | nodes.py:145 | a blank in front of the reply changes no ingredient |
| Nodes.StripBlankPrefix | nodes.py:145 | stripping also removes a blank put in front of any text |
| Nodes.JoinEnds | nodes.py:145 | joined non-empty items start with the first item's first character and end with the last item's last character |
| Nodes.IngredientsRoundTrip | nodes.py:142-145 | parsing items joined with `, ` gives the items back, in order; no items give the empty text, which parses to no items |
| Nodes.JoinedItemsParse | nodes.py:145 | the comma rule applied to items joined by `, ` gives the items |
| Nodes.SingleItemParse | nodes.py:145 | a well-formed item on its own parses to itself |
| Nodes.PairingQuery | nodes.py:149 | the pairing query is `pairings for ` followed by the first three ingredients, or fewer if there are fewer, joined by single blanks |
| Nodes.PairingQueryNamesIngredients | nodes.py:149 | when no ingredient holds a blank, splitting the query after its prefix at blanks gives those first three ingredients back |
| Nodes.PairingQueryUsesFirstThree | nodes.py:149 | ingredients after the third do not reach the pairing query |
| Nodes.ExtractIngredientsNode | nodes.py:140-153 | on a reply, the node writes the parsed ingredients and their pairing query and nothing else; on an exception, only the error, so the ingredient list keeps its value |
| Nodes.SearchPairingsNode | nodes.py:159-166 | the tool's answer becomes the pairing results; an exception escaping the tool becomes the error alone |
| Nodes.JoinPreferences | nodes.py:190 | the preferences are joined with `, `, or are `none` when there are none |
| Nodes.PreferencesRecoverable | nodes.py:190 | parsing the joined preferences by the comma rule gives them back |
| Nodes.NoPreferencesLikeNone | nodes.py:190 | an example beside `Nodes.PreferencesRecoverable`: no preferences and the single preference `none` give the same prompt text |
| Nodes.UserLanguage | nodes.py:191 | the record's language, or `it` when it has none |
| Nodes.GenerationContext | nodes.py:190-214 | the prompt embeds the desire, the joined preferences, the base recipe, the pairing results, the language and that language's instruction |
| Nodes.GenerateRecipeNode | nodes.py:216-227 | a recipe is written exactly when the stripped reply is longer than 100 characters, and it is the stripped reply; otherwise only the error is written, the incomplete-recipe text or the exception with its prefix |
| Nodes.SignalsRateLimit | nodes.py:267 | the lower-cased error contains `rate limit`; `Nodes.MentionSignalsRateLimit` states that any mention in any letter case counts |
| Nodes.Clarify | nodes.py:265-272 | the rate-limit notice exactly when the lower-cased error mentions a rate limit; otherwise the dish question exactly when the desire is empty; otherwise the details question for the desire |
| Nodes.ClarifyText | nodes.py:237-272 | the text of the chosen message, case by case, in the templates of its language |
| Nodes.ClarifyQuotesDesire | nodes.py:241 | unless it reports a rate limit, the message for a non-empty desire quotes it |
| Nodes.ClarifyInputNode | nodes.py:229-277 | the node raises exactly when no error is recorded (`.lower()` on `None`); otherwise it asks the user with the chosen message in the fallback language |
| Nodes.RateLimitWins | nodes.py:267-268 | an error mentioning a rate limit selects the rate-limit notice whatever the desire |
| Nodes.MentionSignalsRateLimit | nodes.py:267 | a mention of a rate limit in any letter case, anywhere in the error, signals one |
| Nodes.RateLimitLowerCase | nodes.py:267 | an instance of `Nodes.MentionSignalsRateLimit`: `Error: rate limit exceeded` signals a rate limit |
| Nodes.RateLimitCapitalised | nodes.py:267 | an instance of `Nodes.MentionSignalsRateLimit`: `Rate Limit reached`, capitalised, signals a rate limit |
| Graph.Route | graph.py:20-45 | what a router picks on a record; `Graph.RoutingTable` states it for every node |
| Graph.RecipeRouter | graph.py:20-45 | the six routing lambdas; `Graph.RoutingTable`, `Graph.RoutingReadsOnlyTruthiness` and `Graph.EdgesDescend` state what they do |
| Graph.RecipeGraph | graph.py:5-47 | the compiled recipe graph: entry `start`, the six nodes and their routers; `Graph.BuildRecipeAgentGraph` builds it and `Graph.EveryNodeRouted` states its contents |
| Graph.EveryNodeRouted | graph.py:9-45 | every node is in the compiled graph and has its router there |
| Graph.StateGraph.constructor | graph.py:6 | a new builder has no nodes, no entry point and no routers |
| Graph.StateGraph.AddNode | graph.py:9-14 | adds the node and changes nothing else |
| Graph.StateGraph.SetEntryPoint | graph.py:17 | sets the entry point and changes nothing else |
| Graph.StateGraph.AddConditionalEdges | graph.py:20-43 | sets the source's router and changes nothing else |
| Graph.StateGraph.AddEdge | graph.py:45 | a plain edge is a router that always picks its target |
| Graph.StateGraph.Compile | graph.py:47 | the compiled graph has the builder's entry point, nodes and routers |
| Graph.BuildRecipeAgentGraph | graph.py:5-47 | the builder's calls yield the recipe graph: entry `start`, the six nodes and their routers |
| Graph.RoutingTable | graph.py:17-45 | each node's next step in terms of the record: on a non-empty desire, results, ingredients or recipe; pairings always to generation; clarification always to `END` |
| Graph.RoutingReadsOnlyTruthiness | graph.py:20-45 | two records alike in how truthy the key it reads is are routed alike |
| Graph.EdgesDescend | graph.py:20-45 | every edge goes to a node of lower rank, so the graph has no cycle |
| Graph.RoutesFollowEdges | graph.py:20-45 | a router only picks an edge of the graph |
| Graph.RunFrom | graph.py:20-47 | a run from node `n` executes at least one and at most `Rank(n)` nodes, starting with `n`; when it finishes, the last router answered `END` |
| Graph.RunFollowsEdges | graph.py:20-45 | consecutive nodes of a run are joined by an edge |
| Graph.RunStep | graph.py:20-47 | one step in each case: the node raises, its router answers `END`, or the rest of the run starts at the routed node |
| Graph.Handed | graph.py:47 | the records a run hands to its nodes, one per executed node, the first being the initial record |
| Graph.HandedSteps | graph.py:47 | each record handed on is the one before with the previous node's update merged, and the previous router picked the next node on it |
| Graph.StepRaises | graph.py:47 | a node that raises ends the run with its exception |
| Graph.StepEnds | graph.py:47 | a node whose router answers `END` ends the run with its update merged |
| Graph.StepOn | graph.py:47 | a node whose router names the next node hands the updated record on to it |
| Graph.FallingCons | graph.py:20-45 | a node ranked above the head of a falling trace can be put in front of it |
| Graph.RanksFall | graph.py:20-45 | ranks fall strictly along every run |
| Graph.NoNodeTwice | graph.py:9-45 | no node is executed twice in a run |
| Graph.FinishesAtGenerateOrClarify | graph.py:40-45 | a finished run ends at the generation or the clarification node |
| Graph.ResumeStep | graph.py:47 | one step of a run already under way, with the executed node appended to the trace |
| Graph.Invoke | graph.py:47 | the engine's loop gives the run from the entry node, after one to six node executions |
| Graph.PairingToolAnswer | nodes.py:160-161 | the tool's answer for the recorded pairing query, or the tool's rejection of `None`; `RecipeRuns.RunCallsToolWithQuery` states that a run from the entry points' record only calls it with a query |
| Graph.RecipeReply | nodes.py:196-217 | the model's reply to the prompt built from `Nodes.GenerationContext` |
| Graph.Execute | graph.py:9-14 | the body each node name stands for; `RecipeRuns.RecipeNodesBehave` states it node by node |
| Graph.RecipeNodes | graph.py:9-14 | the node functions of the compiled graph for one set of collaborators |
| Graph.Run | main.py:46 | `app.invoke(initial_state)`; `RecipeRuns.RunCrashes` states when it crashes and `Graph.Invoke` computes it |
| Graph.ExecuteNode | graph.py:9-14 | executing a node, the search node step by step, gives the node's outcome |
| RecipeRuns.SearchNodesBehave | graph.py:9-11 | the first three node functions of the graph are those nodes' bodies |
| RecipeRuns.AnswerNodesBehave | graph.py:12-14 | the last three node functions of the graph are those nodes' bodies |
| RecipeRuns.RecipeNodesBehave | graph.py:9-14 | the graph's node functions are the node bodies |
| RecipeRuns.FromClarify | graph.py:45 | with an error recorded, the clarification node asks the user and the run ends there |
| RecipeRuns.GenerateAccepted | graph.py:40-42 | an accepted reply ends the run at generation with the stripped reply as the recipe and nothing else changed |
| RecipeRuns.GenerateRejected | graph.py:40-45 | a rejected reply records an error; with no earlier recipe the run goes on to clarification and ends waiting for the user, with an error and no recipe |
| RecipeRuns.FromGenerate | graph.py:40-45 | from the generation node every run finishes |
| RecipeRuns.FromPairings | graph.py:35-38 | from the pairing node every run finishes |
| RecipeRuns.FromExtract | graph.py:30-33 | from the extraction node every run finishes |
| RecipeRuns.EmptySearchCrashes | graph.py:25-28 | with no error recorded, an empty search text sends the run to clarification, which raises |
| RecipeRuns.SearchFinishes | graph.py:25-28 | every other search answer lets the run finish |
| RecipeRuns.FromStartCrashes | graph.py:17-45 | with no error recorded, a run crashes exactly when the desire is empty or the search text is empty |
| RecipeRuns.RunCrashes | main.py:26-46 | the run on the record the entry points build crashes exactly in those two cases |
| RecipeRuns.EmptyDesireCrashes | graph.py:20-23 | an empty desire goes from `start` to clarification, which raises on the missing error |
| RecipeRuns.NodeRaises | nodes.py:229-267 | only the clarification node raises, only with no error recorded, and always the same exception; every other node turns exceptions into errors |
| RecipeRuns.CrashesOnlyAtClarify | nodes.py:267 | every crash of a run happens at the clarification node, with the same exception |
| RecipeRuns.ExtractionFailed | nodes.py:152-153 | a failed extraction records only its error and the run goes on to generation |
| RecipeRuns.ExtractionFailureStillGenerates | nodes.py:152-153 | after a failed extraction an accepted reply ends the run with both a recipe and an error recorded |
| RecipeRuns.StepKeepsConsistent | nodes.py:147-150 | every node keeps "ingredients recorded implies a pairing query recorded" |
| RecipeRuns.InitialConsistent | main.py:26-41 | the initial record is consistent |
| RecipeRuns.PairingNodeNeverFails | nodes.py:159-163 | reached with ingredients on a consistent record, the pairing node writes the tool's answer for the recorded query, never an error |
| RecipeRuns.ConsistentAlong | graph.py:9-47 | along records each merged from the one before by a node of the graph, a consistent first record makes every later one consistent |
| RecipeRuns.RunKeepsConsistent | graph.py:9-47 | every record a run from a consistent record hands to a node is consistent |
| RecipeRuns.PairingsFollowIngredients | graph.py:30-33 | only the extraction router picks the pairing node, and only on a record with ingredients |
| RecipeRuns.RunPairingNeverFails | nodes.py:159-163 | whenever a run from a consistent record goes on to the pairing node, the record holds a query and the node writes the tool's answer for it |
| RecipeRuns.RunCallsToolWithQuery | main.py:26-46 | in a run on the entry points' record, every execution of the pairing node has a query and writes the tool's answer for it |
| RecipeRuns.PairingsThenRecipe | graph.py:35-42 | from the pairing node with a query, when the model accepts the generation prompt the run reaches (`PipelineReply`), the run records the tool's answer and the recipe and ends; nothing else changes |
| RecipeRuns.FromExtractSucceeds | graph.py:30-42 | when the model names at least one ingredient and accepts the generation prompt the run reaches, the run goes through pairings to generation and ends with the ingredients, their pairings and a recipe, keeping the error, the flag and the base recipe |
| RecipeRuns.FromSearchSucceeds | graph.py:25-42 | with no error, a search that records a non-empty result, a reply naming at least one ingredient and an accepted generation prompt lead through the four remaining nodes to the search result, the ingredients, their pairings and a recipe of more than 100 characters, with no error |
| RecipeRuns.FromStartSucceeds | graph.py:17-42 | with no error and a non-empty desire, under those conditions, the run executes `start`, search, extraction, pairings and generation and ends with the search result, the ingredients, their pairings and a recipe of more than 100 characters, no error and no question to the user |
| RecipeRuns.RunSucceeds | main.py:26-46 | on the entry points' record, under the same conditions, the five-node run ends with the search result, the named ingredients, their pairings, a recipe of more than 100 characters, no error and no question to the user |

## Left out

- The Streamlit interface (app.py) and the console loop (main.py) are not modelled; only the record they build (`State.InitialState`) is.
- PDF loading, splitting, embeddings and the similarity index (pdf_processor.py) are not modelled: they are foreign libraries. The retriever is an input.
- The module-level set-up in tools.py (model, search client, tool list, `bind_tools`, `ToolNode`) is not modelled. It creates foreign objects and holds no logic.
- The debug search node (nodes.py:83-123) is not modelled. It only prints and returns `str()` of the answer.
- Printing and logging in every node are not modelled.
- The web search, the language model and the retriever are not modelled; their answers are inputs.
- The wording of the two prompts is not modelled. `Nodes.Prompt` records what each prompt embeds.
- Languages.Instruction: the instruction is carried by its `Language` in the prompt context. Its text is this table, which no proof needs.
- Languages.ClarificationText: a clarification message is carried by its template and language. Its text is given by this function, which no proof needs.
- Python `str()` of arbitrary objects is not modelled. It is taken as the text an f-string renders (`OtherEntry`, `OtherResponse`). A dict entry's value is taken as that text together with its truthiness (`Nodes.Field`), which is what `if url:` tests.
- Text.Lower: only ASCII capitals are lowered; `str.lower()` also lowers the rest of Unicode. Some non-ASCII characters lower to ASCII: KELVIN SIGN U+212A gives `k`, and U+0130 gives `i` followed by U+0307. Neither can complete `rate limit`. It holds no `k`, and each of its `i`s is followed by an ASCII letter, never by U+0307. So the test whether the lowered error contains `rate limit` is decided the same way.
- `retry_count`, `tool_calls` and `tool_results` are not modelled. They are declared in the record, but no node reads or writes them.
- The compiled graph's own checks (unknown node names, a missing entry point) are not modelled: the builder only adds known nodes.
- Graph.PairingToolAnswer: the tool wrapper's own failures are not modelled, except its rejection of a `None` query (`toolRejection`, an input).
