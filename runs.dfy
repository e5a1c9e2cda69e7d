/** What runs of the recipe graph do with the recipe nodes: which runs raise,
    how a finished run looks, and the paths a run from the entry points'
    initial record takes. Most lemmas are stated for any node functions that
    behave as the recipe nodes (`RecipeBehaviour`); `RecipeNodes(env)` is
    such a set (`RecipeNodesBehave`). */
module RecipeRuns {
  import opened Wrappers
  import opened Text
  import opened State
  import opened Tools
  import opened Languages
  import opened Nodes
  import opened Graph

  /** Node functions that do what the recipe nodes do with collaborators
      `env`, stated node by node. */
  ghost predicate RecipeBehaviour(nodes: NodeFunctions, env: Env) {
    && (forall s {:trigger nodes(Start, s)} :: nodes(Start, s) == Wrote(StartNode(s)))
    && (forall s {:trigger nodes(SearchBaseRecipe, s)} :: nodes(SearchBaseRecipe, s) == Wrote(BaseRecipeUpdate(s.userDesire, env.search(SearchQuery(s.userDesire)))))
    && (forall s {:trigger nodes(ExtractIngredients, s)} :: nodes(ExtractIngredients, s) == Wrote(ExtractIngredientsNode(s, env.llm(IngredientPrompt(s.baseRecipeSearchResults)))))
    && (forall s {:trigger nodes(SearchPairings, s)} :: nodes(SearchPairings, s) == Wrote(SearchPairingsNode(s, PairingToolAnswer(s.pairingQuery, env))))
    && (forall s {:trigger nodes(GenerateRecipe, s)} :: nodes(GenerateRecipe, s) == Wrote(GenerateRecipeNode(s, RecipeReply(s, env))))
    && (forall s {:trigger nodes(ClarifyInput, s)} :: nodes(ClarifyInput, s) == ClarifyInputNode(s))
  }

  /** The first three node functions of the recipe graph. */
  lemma {:induction false} SearchNodesBehave(env: Env)
    ensures var nodes := RecipeNodes(env);
            && (forall s {:trigger nodes(Start, s)} :: nodes(Start, s) == Wrote(StartNode(s)))
            && (forall s {:trigger nodes(SearchBaseRecipe, s)} :: nodes(SearchBaseRecipe, s) == Wrote(BaseRecipeUpdate(s.userDesire, env.search(SearchQuery(s.userDesire)))))
            && (forall s {:trigger nodes(ExtractIngredients, s)} :: nodes(ExtractIngredients, s) == Wrote(ExtractIngredientsNode(s, env.llm(IngredientPrompt(s.baseRecipeSearchResults)))))
  {
    var nodes := RecipeNodes(env);
    forall s ensures nodes(Start, s) == Wrote(StartNode(s)) {
      assert nodes(Start, s) == Execute(Start, s, env);
    }
    forall s ensures nodes(SearchBaseRecipe, s) == Wrote(BaseRecipeUpdate(s.userDesire, env.search(SearchQuery(s.userDesire)))) {
      assert nodes(SearchBaseRecipe, s) == Execute(SearchBaseRecipe, s, env);
    }
    forall s ensures nodes(ExtractIngredients, s) == Wrote(ExtractIngredientsNode(s, env.llm(IngredientPrompt(s.baseRecipeSearchResults)))) {
      assert nodes(ExtractIngredients, s) == Execute(ExtractIngredients, s, env);
    }
  }

  /** The last three node functions of the recipe graph. */
  lemma {:induction false} AnswerNodesBehave(env: Env)
    ensures var nodes := RecipeNodes(env);
            && (forall s {:trigger nodes(SearchPairings, s)} :: nodes(SearchPairings, s) == Wrote(SearchPairingsNode(s, PairingToolAnswer(s.pairingQuery, env))))
            && (forall s {:trigger nodes(GenerateRecipe, s)} :: nodes(GenerateRecipe, s) == Wrote(GenerateRecipeNode(s, RecipeReply(s, env))))
            && (forall s {:trigger nodes(ClarifyInput, s)} :: nodes(ClarifyInput, s) == ClarifyInputNode(s))
  {
    var nodes := RecipeNodes(env);
    forall s ensures nodes(SearchPairings, s) == Wrote(SearchPairingsNode(s, PairingToolAnswer(s.pairingQuery, env))) {
      assert nodes(SearchPairings, s) == Execute(SearchPairings, s, env);
    }
    forall s ensures nodes(GenerateRecipe, s) == Wrote(GenerateRecipeNode(s, RecipeReply(s, env))) {
      assert nodes(GenerateRecipe, s) == Execute(GenerateRecipe, s, env);
    }
    forall s ensures nodes(ClarifyInput, s) == ClarifyInputNode(s) {
      assert nodes(ClarifyInput, s) == Execute(ClarifyInput, s, env);
    }
  }

  /** The recipe graph's own node functions behave as the recipe nodes. */
  lemma {:induction false} RecipeNodesBehave(env: Env)
    ensures RecipeBehaviour(RecipeNodes(env), env)
  {
    SearchNodesBehave(env);
    AnswerNodesBehave(env);
  }

  /** The model's reply is accepted as a recipe. */
  predicate Accepted(reply: Call<string>) {
    reply.Returned? && |Strip(reply.value)| > MinimumRecipeLength
  }

  /** The clarification node answers whenever an error is recorded; the
      rest of the run is then that one step. */
  lemma {:induction false} FromClarify(s: AgentState, nodes: NodeFunctions, env: Env)
    requires RecipeBehaviour(nodes, env) && s.errorMessage.Some?
    ensures RunFrom(ClarifyInput, s, nodes) ==
            Finished(Apply(s, AskUser(Clarify(ClarificationLanguage(UserLanguage(s)), s.errorMessage.value, s.userDesire))),
                     [ClarifyInput])
  {
    var u := AskUser(Clarify(ClarificationLanguage(UserLanguage(s)), s.errorMessage.value, s.userDesire));
    assert nodes(ClarifyInput, s) == Wrote(u);
    StepEnds(ClarifyInput, s, nodes, u);
  }

  /** An accepted reply ends the run at the generation node, with the
      stripped reply as the recipe and nothing else changed. */
  lemma {:induction false} GenerateAccepted(s: AgentState, nodes: NodeFunctions, env: Env)
    requires RecipeBehaviour(nodes, env) && Accepted(RecipeReply(s, env))
    ensures RunFrom(GenerateRecipe, s, nodes) ==
            Finished(Apply(s, RecipeFound(Strip(RecipeReply(s, env).value))), [GenerateRecipe])
  {
    var recipe := Strip(RecipeReply(s, env).value);
    var u := RecipeFound(recipe);
    assert nodes(GenerateRecipe, s) == Wrote(u);
    assert Apply(s, u).finalRecipe == Some(recipe) && recipe != [];
    StepEnds(GenerateRecipe, s, nodes, u);
  }

  /** Any other reply records an error; when no earlier recipe was recorded
      the run goes on to the clarification node, which then asks the user. */
  lemma {:induction false} GenerateRejected(s: AgentState, nodes: NodeFunctions, env: Env)
    requires RecipeBehaviour(nodes, env) && !Accepted(RecipeReply(s, env))
    ensures var r := RunFrom(GenerateRecipe, s, nodes);
            && r.Finished?
            && (s.finalRecipe.None? ==>
                  && r.trace == [GenerateRecipe, ClarifyInput]
                  && r.state.awaitingUserInput && r.state.finalRecipe.None? && r.state.errorMessage.Some?)
  {
    var u := GenerateRecipeNode(s, RecipeReply(s, env));
    assert nodes(GenerateRecipe, s) == Wrote(u);
    assert u.finalRecipe.None? && Writes(u, ErrorMessageKey);
    var next := Apply(s, u);
    assert next.finalRecipe == s.finalRecipe && next.errorMessage.Some?;
    if Truthy(Get(next, FinalRecipeKey)) {
      StepEnds(GenerateRecipe, s, nodes, u);
    } else {
      StepOn(GenerateRecipe, s, nodes, u, ClarifyInput);
      FromClarify(next, nodes, env);
    }
  }

  /** From the generation node a run always finishes. */
  lemma {:induction false} FromGenerate(s: AgentState, nodes: NodeFunctions, env: Env)
    requires RecipeBehaviour(nodes, env)
    ensures RunFrom(GenerateRecipe, s, nodes).Finished?
  {
    if Accepted(RecipeReply(s, env)) {
      GenerateAccepted(s, nodes, env);
    } else {
      GenerateRejected(s, nodes, env);
    }
  }

  /** From the pairing node a run always finishes: the node goes on to the
      generation node whatever the tool answered. */
  lemma {:induction false} FromPairings(s: AgentState, nodes: NodeFunctions, env: Env)
    requires RecipeBehaviour(nodes, env)
    ensures RunFrom(SearchPairings, s, nodes).Finished?
  {
    var u := SearchPairingsNode(s, PairingToolAnswer(s.pairingQuery, env));
    assert nodes(SearchPairings, s) == Wrote(u);
    StepOn(SearchPairings, s, nodes, u, GenerateRecipe);
    FromGenerate(Apply(s, u), nodes, env);
  }

  /** From the extraction node a run always finishes: every later path to the
      clarification node passes a failed generation, which records an error. */
  lemma {:induction false} FromExtract(s: AgentState, nodes: NodeFunctions, env: Env)
    requires RecipeBehaviour(nodes, env)
    ensures RunFrom(ExtractIngredients, s, nodes).Finished?
  {
    var u := ExtractIngredientsNode(s, env.llm(IngredientPrompt(s.baseRecipeSearchResults)));
    assert nodes(ExtractIngredients, s) == Wrote(u);
    var next := Apply(s, u);
    if Truthy(Get(next, ExtractedIngredientsKey)) {
      StepOn(ExtractIngredients, s, nodes, u, SearchPairings);
      FromPairings(next, nodes, env);
    } else {
      StepOn(ExtractIngredients, s, nodes, u, GenerateRecipe);
      FromGenerate(next, nodes, env);
    }
  }

  /** From the search node, with no error recorded, a run crashes after an
      empty search result: it is falsy, so the run goes to the
      clarification node, which has no error to lower-case. */
  lemma {:induction false} EmptySearchCrashes(s: AgentState, nodes: NodeFunctions, env: Env)
    requires RecipeBehaviour(nodes, env)
    requires s.errorMessage.None? && EmptySearchText(env.search(SearchQuery(s.userDesire)))
    ensures RunFrom(SearchBaseRecipe, s, nodes) == Crashed([SearchBaseRecipe, ClarifyInput], NoneHasNoLower)
  {
    var response := env.search(SearchQuery(s.userDesire));
    var u := BaseRecipeUpdate(s.userDesire, response);
    SearchOutcome(s.userDesire, response);
    assert nodes(SearchBaseRecipe, s) == Wrote(u);
    var next := Apply(s, u);
    assert next.baseRecipeSearchResults == Some([]) && next.errorMessage.None?;
    StepOn(SearchBaseRecipe, s, nodes, u, ClarifyInput);
    assert nodes(ClarifyInput, next) == RaisedOut(NoneHasNoLower);
    StepRaises(ClarifyInput, next, nodes);
  }

  /** From the search node every other search answer lets the run finish:
      a non-empty result goes on to extraction, and no result means an
      error is recorded for the clarification node. */
  lemma {:induction false} SearchFinishes(s: AgentState, nodes: NodeFunctions, env: Env)
    requires RecipeBehaviour(nodes, env)
    requires !EmptySearchText(env.search(SearchQuery(s.userDesire)))
    ensures RunFrom(SearchBaseRecipe, s, nodes).Finished?
  {
    var response := env.search(SearchQuery(s.userDesire));
    var u := BaseRecipeUpdate(s.userDesire, response);
    SearchOutcome(s.userDesire, response);
    assert nodes(SearchBaseRecipe, s) == Wrote(u);
    var next := Apply(s, u);
    if Truthy(Get(next, BaseRecipeSearchResultsKey)) {
      StepOn(SearchBaseRecipe, s, nodes, u, ExtractIngredients);
      FromExtract(next, nodes, env);
    } else {
      assert u.baseRecipeSearchResults.None? && u.errorMessage.Some?;
      StepOn(SearchBaseRecipe, s, nodes, u, ClarifyInput);
      FromClarify(next, nodes, env);
    }
  }

  /** From the record the entry points build, a run crashes exactly when the
      desire is empty or the search left an empty result. */
  lemma {:induction false} FromStartCrashes(s: AgentState, nodes: NodeFunctions, env: Env)
    requires RecipeBehaviour(nodes, env) && s.errorMessage.None?
    ensures RunFrom(Start, s, nodes).Crashed? <==>
            s.userDesire == [] || EmptySearchText(env.search(SearchQuery(s.userDesire)))
  {
    var u := StartNode(s);
    assert nodes(Start, s) == Wrote(u);
    var next := Apply(s, u);
    assert next.userDesire == s.userDesire && next.errorMessage.None?;
    if s.userDesire == [] {
      StepOn(Start, s, nodes, u, ClarifyInput);
      assert nodes(ClarifyInput, next) == RaisedOut(NoneHasNoLower);
      StepRaises(ClarifyInput, next, nodes);
    } else {
      StepOn(Start, s, nodes, u, SearchBaseRecipe);
      if EmptySearchText(env.search(SearchQuery(s.userDesire))) {
        EmptySearchCrashes(next, nodes, env);
      } else {
        SearchFinishes(next, nodes, env);
      }
    }
  }

  /** `Run` on the initial record crashes exactly when the desire is empty
      or the search left an empty result. */
  lemma {:induction false} RunCrashes(desire: string, preferences: seq<string>, language: Option<string>, env: Env)
    ensures Run(InitialState(desire, preferences, language), env).Crashed? <==>
            desire == [] || EmptySearchText(env.search(SearchQuery(desire)))
  {
    RecipeNodesBehave(env);
    FromStartCrashes(InitialState(desire, preferences, language), RecipeNodes(env), env);
  }

  /** With an empty desire and no error recorded, the run goes from the
      start node to the clarification node and crashes there. */
  lemma {:induction false} EmptyDesireCrashes(s: AgentState, nodes: NodeFunctions, env: Env)
    requires RecipeBehaviour(nodes, env) && s.userDesire == [] && s.errorMessage.None?
    ensures RunFrom(Start, s, nodes) == Crashed([Start, ClarifyInput], NoneHasNoLower)
  {
    var u := StartNode(s);
    assert nodes(Start, s) == Wrote(u);
    var next := Apply(s, u);
    assert next.userDesire == [] && next.errorMessage.None?;
    StepOn(Start, s, nodes, u, ClarifyInput);
    assert nodes(ClarifyInput, next) == RaisedOut(NoneHasNoLower);
    StepRaises(ClarifyInput, next, nodes);
  }

  /** Only the clarification node raises, and only on a record without error. */
  lemma {:induction false} NodeRaises(n: NodeName, s: AgentState, nodes: NodeFunctions, env: Env)
    requires RecipeBehaviour(nodes, env)
    ensures nodes(n, s).RaisedOut? <==> n == ClarifyInput && s.errorMessage.None?
    ensures nodes(n, s).RaisedOut? ==> nodes(n, s).exception == NoneHasNoLower
  {
    match n {
      case Start => case SearchBaseRecipe => case ExtractIngredients =>
      case SearchPairings => case GenerateRecipe => case ClarifyInput =>
    }
  }

  /** Every crash of a run happens at the clarification node, with the
      `.lower()` on `None`. */
  lemma {:induction false} CrashesOnlyAtClarify(n: NodeName, s: AgentState, nodes: NodeFunctions, env: Env)
    requires RecipeBehaviour(nodes, env)
    ensures var r := RunFrom(n, s, nodes);
            r.Crashed? ==> Last(r.trace) == ClarifyInput && r.exception == NoneHasNoLower
    decreases Rank(n)
  {
    RunStep(n, s, nodes);
    NodeRaises(n, s, nodes, env);
    if nodes(n, s).Wrote? {
      var next := Apply(s, nodes(n, s).update);
      var t := Route(RecipeRouter(n), next);
      if t.To? {
        CrashesOnlyAtClarify(t.node, next, nodes, env);
        var rest := RunFrom(t.node, next, nodes);
        assert Last([n] + rest.trace) == Last(rest.trace);
      }
    }
  }

  /** A failed extraction records only its error and leaves the ingredient
      list empty, so the run goes on to the generation node. */
  lemma {:induction false} ExtractionFailed(s: AgentState, nodes: NodeFunctions, env: Env)
    requires RecipeBehaviour(nodes, env)
    requires s.extractedIngredients == []
    requires env.llm(IngredientPrompt(s.baseRecipeSearchResults)).Raised?
    ensures var next := s.(errorMessage := Some(ExtractionErrorPrefix + env.llm(IngredientPrompt(s.baseRecipeSearchResults)).message));
            var rest := RunFrom(GenerateRecipe, next, nodes);
            RunFrom(ExtractIngredients, s, nodes) == WithTrace(rest, [ExtractIngredients] + rest.trace)
  {
    var e := env.llm(IngredientPrompt(s.baseRecipeSearchResults)).message;
    var u := ReportError(ExtractionErrorPrefix + e);
    assert nodes(ExtractIngredients, s) == Wrote(u);
    var next := Apply(s, u);
    assert next == s.(errorMessage := Some(ExtractionErrorPrefix + e));
    assert Route(RecipeRouter(ExtractIngredients), next) == To(GenerateRecipe);
    StepOn(ExtractIngredients, s, nodes, u, GenerateRecipe);
  }

  /** ... and an accepted reply there ends the run with both a recipe and
      an error recorded. */
  lemma {:induction false} ExtractionFailureStillGenerates(s: AgentState, nodes: NodeFunctions, env: Env)
    requires RecipeBehaviour(nodes, env)
    requires s.extractedIngredients == []
    requires env.llm(IngredientPrompt(s.baseRecipeSearchResults)).Raised?
    requires Accepted(RecipeReply(s, env))
    ensures var r := RunFrom(ExtractIngredients, s, nodes);
            && r.Finished? && r.trace == [ExtractIngredients, GenerateRecipe]
            && r.state.finalRecipe == Some(Strip(RecipeReply(s, env).value))
            && r.state.errorMessage == Some(ExtractionErrorPrefix + env.llm(IngredientPrompt(s.baseRecipeSearchResults)).message)
  {
    var e := env.llm(IngredientPrompt(s.baseRecipeSearchResults)).message;
    var next := s.(errorMessage := Some(ExtractionErrorPrefix + e));
    ExtractionFailed(s, nodes, env);
    assert GenerationContext(next) == GenerationContext(s);
    GenerateAccepted(next, nodes, env);
  }

  /** Ingredients are only ever recorded together with their pairing query. */
  predicate Consistent(s: AgentState) {
    s.extractedIngredients != [] ==> s.pairingQuery.Some?
  }

  /** Every node keeps the record consistent: only the extraction node
      writes either key, and it writes both. */
  lemma {:induction false} StepKeepsConsistent(n: NodeName, s: AgentState, nodes: NodeFunctions, env: Env)
    requires RecipeBehaviour(nodes, env)
    requires Consistent(s) && nodes(n, s).Wrote?
    ensures Consistent(Apply(s, nodes(n, s).update))
  {
    var u := nodes(n, s).update;
    ApplyChangesOnlyWrittenKeys(s, u, ExtractedIngredientsKey);
    ApplyChangesOnlyWrittenKeys(s, u, PairingQueryKey);
    match n {
      case Start => case SearchBaseRecipe => case ExtractIngredients =>
      case SearchPairings => case GenerateRecipe => case ClarifyInput =>
    }
  }

  /** The record the entry points build is consistent. */
  lemma InitialConsistent(desire: string, preferences: seq<string>, language: Option<string>)
    ensures Consistent(InitialState(desire, preferences, language))
  {
  }

  /** The run reaches the pairing node only with ingredients recorded; on a
      consistent record the query is then there, the tool is called with it
      and its answer, never an exception, becomes the pairing results. */
  lemma {:induction false} PairingNodeNeverFails(s: AgentState, nodes: NodeFunctions, env: Env)
    requires RecipeBehaviour(nodes, env)
    requires Consistent(s) && Truthy(Get(s, ExtractedIngredientsKey))
    ensures nodes(SearchPairings, s) == Wrote(PairingsFound(SearchFoodPairings(env.retriever(s.pairingQuery.value))))
  {
  }

  /** Along records each merged from the one before, consistency reaches
      position `i` from the first record. */
  lemma {:induction false} ConsistentAlong(t: seq<NodeName>, h: seq<AgentState>, i: nat, nodes: NodeFunctions, env: Env)
    requires RecipeBehaviour(nodes, env) && 0 < |h| && Consistent(h[0]) && i < |h|
    requires forall j :: 0 < j <= i ==> HandedOn(t, h, j, nodes)
    ensures Consistent(h[i])
    decreases i
  {
    if i > 0 {
      ConsistentAlong(t, h, i - 1, nodes, env);
      assert HandedOn(t, h, i, nodes);
      StepKeepsConsistent(t[i - 1], h[i - 1], nodes, env);
    }
  }

  /** Every record a run from a consistent record hands to a node is
      consistent. */
  lemma {:induction false} RunKeepsConsistent(n: NodeName, s: AgentState, nodes: NodeFunctions, env: Env)
    requires RecipeBehaviour(nodes, env) && Consistent(s)
    ensures forall i :: 0 <= i < |Handed(n, s, nodes)| ==> Consistent(Handed(n, s, nodes)[i])
  {
    var t := RunFrom(n, s, nodes).trace;
    var h := Handed(n, s, nodes);
    HandedSteps(n, s, nodes);
    forall i | 0 <= i < |h| ensures Consistent(h[i]) {
      ConsistentAlong(t, h, i, nodes, env);
    }
  }

  /** Only the extraction node's router picks the pairing node, and only on
      a record with ingredients. */
  lemma {:induction false} PairingsFollowIngredients(a: NodeName, r: AgentState)
    requires Route(RecipeRouter(a), r) == To(SearchPairings)
    ensures a == ExtractIngredients && r.extractedIngredients != []
  {
    match a {
      case Start => case SearchBaseRecipe => case ExtractIngredients =>
      case SearchPairings => case GenerateRecipe => case ClarifyInput =>
    }
  }

  /** Whenever a run from a consistent record goes on to the pairing node,
      the record it hands over holds a query, and the node writes the
      tool's answer for it. */
  lemma {:induction false} RunPairingNeverFails(n: NodeName, s: AgentState, nodes: NodeFunctions, env: Env)
    requires RecipeBehaviour(nodes, env) && Consistent(s)
    ensures var t := RunFrom(n, s, nodes).trace; var h := Handed(n, s, nodes);
            forall i :: 0 < i < |t| && t[i] == SearchPairings ==>
              && h[i].pairingQuery.Some?
              && nodes(SearchPairings, h[i]) == Wrote(PairingsFound(SearchFoodPairings(env.retriever(h[i].pairingQuery.value))))
  {
    var t := RunFrom(n, s, nodes).trace;
    var h := Handed(n, s, nodes);
    HandedSteps(n, s, nodes);
    RunKeepsConsistent(n, s, nodes, env);
    forall i | 0 < i < |t| && t[i] == SearchPairings
      ensures && h[i].pairingQuery.Some?
              && nodes(SearchPairings, h[i]) == Wrote(PairingsFound(SearchFoodPairings(env.retriever(h[i].pairingQuery.value))))
    {
      assert HandedOn(t, h, i, nodes);
      PairingsFollowIngredients(t[i - 1], h[i]);
      assert Consistent(h[i]);
      PairingNodeNeverFails(h[i], nodes, env);
    }
  }

  /** In a run on the entry points' record, the pairing tool is always
      called with a query: every execution of the pairing node writes the
      tool's answer for the recorded query. */
  lemma {:induction false} RunCallsToolWithQuery(desire: string, preferences: seq<string>, language: Option<string>, env: Env)
    ensures var s := InitialState(desire, preferences, language);
            var t := Run(s, env).trace; var h := Handed(Start, s, RecipeNodes(env));
            forall i :: 0 <= i < |t| && t[i] == SearchPairings ==>
              && h[i].pairingQuery.Some?
              && RecipeNodes(env)(SearchPairings, h[i]) == Wrote(PairingsFound(SearchFoodPairings(env.retriever(h[i].pairingQuery.value))))
  {
    var s := InitialState(desire, preferences, language);
    RecipeNodesBehave(env);
    InitialConsistent(desire, preferences, language);
    RunPairingNeverFails(Start, s, RecipeNodes(env), env);
    assert Run(s, env) == RunFrom(Start, s, RecipeNodes(env));
  }

  // ------------------------------------------------------ successful runs

  /** The model's reply to the generation prompt that a successful run from
      `s` reaches: the prompt reads the desire, the preferences and the
      language of `s`, with `base` recorded as the base recipe and
      `pairings` as the pairing text. */
  function PipelineReply(s: AgentState, base: Option<string>, pairings: string, env: Env): Call<string> {
    RecipeReply(s.(baseRecipeSearchResults := base, pairingResults := Some(pairings)), env)
  }

  /** The generation prompt reads only the desire, the preferences, the
      language, the base recipe and the pairings. */
  lemma SameReply(a: AgentState, b: AgentState, env: Env)
    requires a.userDesire == b.userDesire && a.dietaryPreferences == b.dietaryPreferences
    requires a.userLanguage == b.userLanguage
    requires a.baseRecipeSearchResults == b.baseRecipeSearchResults && a.pairingResults == b.pairingResults
    ensures RecipeReply(a, env) == RecipeReply(b, env)
  {
  }

  /** From the pairing node, on a record holding a query, when the model
      accepts the generation prompt the run reaches: the tool's answer is
      recorded, then the recipe, and the run ends; nothing else changes. */
  lemma {:induction false} PairingsThenRecipe(s: AgentState, nodes: NodeFunctions, env: Env)
    requires RecipeBehaviour(nodes, env) && s.pairingQuery.Some?
    requires Accepted(PipelineReply(s, s.baseRecipeSearchResults, SearchFoodPairings(env.retriever(s.pairingQuery.value)), env))
    ensures var r := RunFrom(SearchPairings, s, nodes);
            && r.Finished? && r.trace == [SearchPairings, GenerateRecipe]
            && r.state.pairingResults == Some(SearchFoodPairings(env.retriever(s.pairingQuery.value)))
            && r.state.finalRecipe.Some? && |r.state.finalRecipe.value| > MinimumRecipeLength
            && r.state.errorMessage == s.errorMessage && r.state.awaitingUserInput == s.awaitingUserInput
            && r.state.baseRecipeSearchResults == s.baseRecipeSearchResults
            && r.state.extractedIngredients == s.extractedIngredients
  {
    var pairings := SearchFoodPairings(env.retriever(s.pairingQuery.value));
    var u := PairingsFound(pairings);
    assert nodes(SearchPairings, s) == Wrote(u);
    var next := Apply(s, u);
    assert next == s.(pairingResults := u.pairingResults);
    StepOn(SearchPairings, s, nodes, u, GenerateRecipe);
    SameReply(next, s.(baseRecipeSearchResults := s.baseRecipeSearchResults, pairingResults := Some(pairings)), env);
    GenerateAccepted(next, nodes, env);
    PipelineTraces();
  }

  /** From the extraction node, when the model names at least one
      ingredient and accepts the generation prompt the run reaches, the run
      passes the pairing node and ends with a recipe; the error, the flag
      and the base recipe are left as they were. */
  lemma {:induction false} FromExtractSucceeds(s: AgentState, nodes: NodeFunctions, env: Env)
    requires RecipeBehaviour(nodes, env)
    requires var reply := env.llm(IngredientPrompt(s.baseRecipeSearchResults));
             reply.Returned? && ParseIngredients(reply.value) != []
    requires var ingredients := ParseIngredients(env.llm(IngredientPrompt(s.baseRecipeSearchResults)).value);
             Accepted(PipelineReply(s, s.baseRecipeSearchResults, SearchFoodPairings(env.retriever(PairingQuery(ingredients))), env))
    ensures var r := RunFrom(ExtractIngredients, s, nodes);
            var ingredients := ParseIngredients(env.llm(IngredientPrompt(s.baseRecipeSearchResults)).value);
            && r.Finished? && r.trace == [ExtractIngredients, SearchPairings, GenerateRecipe]
            && r.state.extractedIngredients == ingredients
            && r.state.pairingResults == Some(SearchFoodPairings(env.retriever(PairingQuery(ingredients))))
            && r.state.finalRecipe.Some? && |r.state.finalRecipe.value| > MinimumRecipeLength
            && r.state.errorMessage == s.errorMessage && r.state.awaitingUserInput == s.awaitingUserInput
            && r.state.baseRecipeSearchResults == s.baseRecipeSearchResults
  {
    var ingredients := ParseIngredients(env.llm(IngredientPrompt(s.baseRecipeSearchResults)).value);
    var pairings := SearchFoodPairings(env.retriever(PairingQuery(ingredients)));
    var u := IngredientsFound(ingredients, PairingQuery(ingredients));
    assert nodes(ExtractIngredients, s) == Wrote(u);
    var next := Apply(s, u);
    assert next == s.(extractedIngredients := ingredients, pairingQuery := Some(PairingQuery(ingredients)));
    StepOn(ExtractIngredients, s, nodes, u, SearchPairings);
    SameReply(next.(baseRecipeSearchResults := next.baseRecipeSearchResults, pairingResults := Some(pairings)),
              s.(baseRecipeSearchResults := s.baseRecipeSearchResults, pairingResults := Some(pairings)), env);
    PairingsThenRecipe(next, nodes, env);
    PipelineTraces();
  }

  /** The traces of a successful run, built up one node at a time. */
  lemma PipelineTraces()
    ensures [SearchPairings] + [GenerateRecipe] == [SearchPairings, GenerateRecipe]
    ensures [ExtractIngredients] + [SearchPairings, GenerateRecipe] == [ExtractIngredients, SearchPairings, GenerateRecipe]
    ensures [SearchBaseRecipe] + [ExtractIngredients, SearchPairings, GenerateRecipe] ==
            [SearchBaseRecipe, ExtractIngredients, SearchPairings, GenerateRecipe]
    ensures [Start] + [SearchBaseRecipe, ExtractIngredients, SearchPairings, GenerateRecipe] ==
            [Start, SearchBaseRecipe, ExtractIngredients, SearchPairings, GenerateRecipe]
  {
  }

  /** The result the search node records for a desire, if it records one. */
  function SearchResult(desire: string, env: Env): Option<string> {
    BaseRecipeUpdate(desire, env.search(SearchQuery(desire))).baseRecipeSearchResults
  }

  /** The ingredients the model names in the recorded search result. */
  function NamedIngredients(desire: string, env: Env): seq<string>
    requires env.llm(IngredientPrompt(SearchResult(desire, env))).Returned?
  {
    ParseIngredients(env.llm(IngredientPrompt(SearchResult(desire, env))).value)
  }

  /** From the search node, with no error recorded: a search that records a
      non-empty result, a model that names at least one ingredient in it and
      accepts the generation prompt the run reaches give a run through the
      four remaining pipeline nodes that ends with a recipe and no error. */
  lemma {:induction false} FromSearchSucceeds(s: AgentState, nodes: NodeFunctions, env: Env)
    requires RecipeBehaviour(nodes, env) && s.errorMessage.None?
    requires SearchResult(s.userDesire, env).Some? && SearchResult(s.userDesire, env).value != []
    requires var reply := env.llm(IngredientPrompt(SearchResult(s.userDesire, env)));
             reply.Returned? && ParseIngredients(reply.value) != []
    requires Accepted(PipelineReply(s, SearchResult(s.userDesire, env),
                                    SearchFoodPairings(env.retriever(PairingQuery(NamedIngredients(s.userDesire, env)))), env))
    ensures var r := RunFrom(SearchBaseRecipe, s, nodes);
            var ingredients := NamedIngredients(s.userDesire, env);
            && r.Finished?
            && r.trace == [SearchBaseRecipe, ExtractIngredients, SearchPairings, GenerateRecipe]
            && r.state.baseRecipeSearchResults == SearchResult(s.userDesire, env)
            && r.state.extractedIngredients == ingredients
            && r.state.pairingResults == Some(SearchFoodPairings(env.retriever(PairingQuery(ingredients))))
            && r.state.finalRecipe.Some? && |r.state.finalRecipe.value| > MinimumRecipeLength
            && r.state.errorMessage.None? && r.state.awaitingUserInput == s.awaitingUserInput
  {
    var found := SearchResult(s.userDesire, env);
    var pairings := SearchFoodPairings(env.retriever(PairingQuery(NamedIngredients(s.userDesire, env))));
    var u := BaseRecipeUpdate(s.userDesire, env.search(SearchQuery(s.userDesire)));
    SearchRecorded(s.userDesire, env.search(SearchQuery(s.userDesire)));
    assert nodes(SearchBaseRecipe, s) == Wrote(u);
    var next := Apply(s, u);
    assert next == s.(baseRecipeSearchResults := found, baseRecipeQuery := Some(SearchQuery(s.userDesire)));
    StepOn(SearchBaseRecipe, s, nodes, u, ExtractIngredients);
    SameReply(next.(baseRecipeSearchResults := found, pairingResults := Some(pairings)),
              s.(baseRecipeSearchResults := found, pairingResults := Some(pairings)), env);
    FromExtractSucceeds(next, nodes, env);
    PipelineTraces();
  }

  /** From the start node, with no error recorded and a non-empty desire,
      under the same conditions, the run goes through all five pipeline
      nodes and ends with a recipe, no error and no question to the user. */
  lemma {:induction false} FromStartSucceeds(s: AgentState, nodes: NodeFunctions, env: Env)
    requires RecipeBehaviour(nodes, env) && s.errorMessage.None? && s.userDesire != []
    requires SearchResult(s.userDesire, env).Some? && SearchResult(s.userDesire, env).value != []
    requires var reply := env.llm(IngredientPrompt(SearchResult(s.userDesire, env)));
             reply.Returned? && ParseIngredients(reply.value) != []
    requires Accepted(PipelineReply(s, SearchResult(s.userDesire, env),
                                    SearchFoodPairings(env.retriever(PairingQuery(NamedIngredients(s.userDesire, env)))), env))
    ensures var r := RunFrom(Start, s, nodes);
            var ingredients := NamedIngredients(s.userDesire, env);
            && r.Finished?
            && r.trace == [Start, SearchBaseRecipe, ExtractIngredients, SearchPairings, GenerateRecipe]
            && r.state.baseRecipeSearchResults == SearchResult(s.userDesire, env)
            && r.state.extractedIngredients == ingredients
            && r.state.pairingResults == Some(SearchFoodPairings(env.retriever(PairingQuery(ingredients))))
            && r.state.finalRecipe.Some? && |r.state.finalRecipe.value| > MinimumRecipeLength
            && r.state.errorMessage.None? && !r.state.awaitingUserInput
  {
    var found := SearchResult(s.userDesire, env);
    var pairings := SearchFoodPairings(env.retriever(PairingQuery(NamedIngredients(s.userDesire, env))));
    var u := StartNode(s);
    assert nodes(Start, s) == Wrote(u);
    var next := Apply(s, u);
    assert next.userDesire == s.userDesire && next.errorMessage.None? && !next.awaitingUserInput;
    StepOn(Start, s, nodes, u, SearchBaseRecipe);
    SameReply(next.(baseRecipeSearchResults := found, pairingResults := Some(pairings)),
              s.(baseRecipeSearchResults := found, pairingResults := Some(pairings)), env);
    FromSearchSucceeds(next, nodes, env);
    PipelineTraces();
  }

  /** `Run` on the entry points' record, under the same conditions, goes
      through the five pipeline nodes and ends with the search result, the
      named ingredients, their pairings, a recipe, no error and no question
      to the user. */
  lemma {:induction false} RunSucceeds(desire: string, preferences: seq<string>, language: Option<string>, env: Env)
    requires desire != [] && SearchResult(desire, env).Some? && SearchResult(desire, env).value != []
    requires var reply := env.llm(IngredientPrompt(SearchResult(desire, env)));
             reply.Returned? && ParseIngredients(reply.value) != []
    requires Accepted(PipelineReply(InitialState(desire, preferences, language), SearchResult(desire, env),
                                    SearchFoodPairings(env.retriever(PairingQuery(NamedIngredients(desire, env)))), env))
    ensures var r := Run(InitialState(desire, preferences, language), env);
            var ingredients := NamedIngredients(desire, env);
            && r.Finished?
            && r.trace == [Start, SearchBaseRecipe, ExtractIngredients, SearchPairings, GenerateRecipe]
            && r.state.baseRecipeSearchResults == SearchResult(desire, env)
            && r.state.extractedIngredients == ingredients
            && r.state.pairingResults == Some(SearchFoodPairings(env.retriever(PairingQuery(ingredients))))
            && r.state.finalRecipe.Some? && |r.state.finalRecipe.value| > MinimumRecipeLength
            && r.state.errorMessage.None? && !r.state.awaitingUserInput
  {
    RecipeNodesBehave(env);
    FromStartSucceeds(InitialState(desire, preferences, language), RecipeNodes(env), env);
  }
}
