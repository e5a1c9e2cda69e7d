/** The recipe graph (graph.py): six nodes, an entry point, and for each node
    a router that picks the next node, or the end, from the record. A run
    executes a node, merges its update into the record, routes, and repeats
    until the end is reached or a node lets an exception escape. */
module Graph {
  import opened Wrappers
  import opened State
  import opened Tools
  import opened Nodes

  datatype NodeName =
    | Start | SearchBaseRecipe | ExtractIngredients | SearchPairings | GenerateRecipe | ClarifyInput

  /** Where a router sends the run: a node, or `END`. */
  datatype Target = To(node: NodeName) | End

  /** A routing function. Every router of the graph either always goes to
      one target or tests how truthy one key of the record is. */
  datatype Router = Always(target: Target) | IfTruthy(key: Key, whenTrue: Target, whenFalse: Target)

  function Route(r: Router, s: AgentState): Target {
    match r
    case Always(t) => t
    case IfTruthy(k, a, b) => if Truthy(Get(s, k)) then a else b
  }

  /** A compiled graph: its entry node, its nodes and the router of each node. */
  datatype CompiledGraph = CompiledGraph(entry: NodeName, nodes: set<NodeName>, routers: map<NodeName, Router>)

  /** The router `build_recipe_agent_graph` gives each node. */
  function RecipeRouter(n: NodeName): Router {
    match n
    case Start => IfTruthy(UserDesireKey, To(SearchBaseRecipe), To(ClarifyInput))
    case SearchBaseRecipe => IfTruthy(BaseRecipeSearchResultsKey, To(ExtractIngredients), To(ClarifyInput))
    case ExtractIngredients => IfTruthy(ExtractedIngredientsKey, To(SearchPairings), To(GenerateRecipe))
    case SearchPairings => Always(To(GenerateRecipe))
    case GenerateRecipe => IfTruthy(FinalRecipeKey, End, To(ClarifyInput))
    case ClarifyInput => Always(End)
  }

  const AllNodes: set<NodeName> :=
    {Start, SearchBaseRecipe, ExtractIngredients, SearchPairings, GenerateRecipe, ClarifyInput}

  /** The recipe graph as `build_recipe_agent_graph` compiles it: entry node
      `start`, the six nodes, each with its router. */
  function RecipeGraph(): CompiledGraph {
    CompiledGraph(Start, AllNodes, map[
      Start := RecipeRouter(Start),
      SearchBaseRecipe := RecipeRouter(SearchBaseRecipe),
      ExtractIngredients := RecipeRouter(ExtractIngredients),
      SearchPairings := RecipeRouter(SearchPairings),
      GenerateRecipe := RecipeRouter(GenerateRecipe),
      ClarifyInput := RecipeRouter(ClarifyInput)])
  }

  /** Every node is in the recipe graph and has its router there. */
  lemma {:induction false} EveryNodeRouted(n: NodeName)
    ensures n in RecipeGraph().nodes && n in RecipeGraph().routers && RecipeGraph().routers[n] == RecipeRouter(n)
  {
    match n {
      case Start => case SearchBaseRecipe => case ExtractIngredients =>
      case SearchPairings => case GenerateRecipe => case ClarifyInput =>
    }
  }

  /** The graph under construction: `StateGraph` as the builder uses it.
      A node's body is known by its name (`Execute` below), so only the
      names are recorded. */
  class StateGraph {
    var nodes: set<NodeName>
    var entry: Option<NodeName>
    var routers: map<NodeName, Router>

    constructor ()
      ensures nodes == {} && entry == None && routers == map[]
    {
      nodes := {};
      entry := None;
      routers := map[];
    }

    method AddNode(n: NodeName)
      modifies this
      ensures nodes == old(nodes) + {n} && entry == old(entry) && routers == old(routers)
    {
      nodes := nodes + {n};
    }

    method SetEntryPoint(n: NodeName)
      modifies this
      ensures entry == Some(n) && nodes == old(nodes) && routers == old(routers)
    {
      entry := Some(n);
    }

    method AddConditionalEdges(source: NodeName, router: Router)
      modifies this
      ensures routers == old(routers)[source := router] && nodes == old(nodes) && entry == old(entry)
    {
      routers := routers[source := router];
    }

    /** A plain edge is a router that always picks its target. */
    method AddEdge(source: NodeName, target: Target)
      modifies this
      ensures routers == old(routers)[source := Always(target)] && nodes == old(nodes) && entry == old(entry)
    {
      AddConditionalEdges(source, Always(target));
    }

    method Compile() returns (g: CompiledGraph)
      requires entry.Some?
      ensures g == CompiledGraph(entry.value, nodes, routers)
    {
      g := CompiledGraph(entry.value, nodes, routers);
    }
  }

  /** `build_recipe_agent_graph`: adds the six nodes, the entry point and the
      routers one call at a time, then compiles. */
  method BuildRecipeAgentGraph() returns (g: CompiledGraph)
    ensures g == RecipeGraph()
  {
    var workflow := new StateGraph();
    workflow.AddNode(Start);
    workflow.AddNode(SearchBaseRecipe);
    workflow.AddNode(ExtractIngredients);
    workflow.AddNode(SearchPairings);
    workflow.AddNode(GenerateRecipe);
    workflow.AddNode(ClarifyInput);
    workflow.SetEntryPoint(Start);
    workflow.AddConditionalEdges(Start, IfTruthy(UserDesireKey, To(SearchBaseRecipe), To(ClarifyInput)));
    workflow.AddConditionalEdges(SearchBaseRecipe,
      IfTruthy(BaseRecipeSearchResultsKey, To(ExtractIngredients), To(ClarifyInput)));
    workflow.AddConditionalEdges(ExtractIngredients,
      IfTruthy(ExtractedIngredientsKey, To(SearchPairings), To(GenerateRecipe)));
    workflow.AddConditionalEdges(SearchPairings, Always(To(GenerateRecipe)));
    workflow.AddConditionalEdges(GenerateRecipe, IfTruthy(FinalRecipeKey, End, To(ClarifyInput)));
    workflow.AddEdge(ClarifyInput, End);
    g := workflow.Compile();
  }

  // ------------------------------------------------------------ routing

  /** What each router reads of the record, stated on the record's fields. */
  lemma RoutingTable(s: AgentState)
    ensures Route(RecipeRouter(Start), s) == if s.userDesire != [] then To(SearchBaseRecipe) else To(ClarifyInput)
    ensures Route(RecipeRouter(SearchBaseRecipe), s) ==
            if s.baseRecipeSearchResults.Some? && s.baseRecipeSearchResults.value != []
            then To(ExtractIngredients) else To(ClarifyInput)
    ensures Route(RecipeRouter(ExtractIngredients), s) ==
            if s.extractedIngredients != [] then To(SearchPairings) else To(GenerateRecipe)
    ensures Route(RecipeRouter(SearchPairings), s) == To(GenerateRecipe)
    ensures Route(RecipeRouter(GenerateRecipe), s) ==
            if s.finalRecipe.Some? && s.finalRecipe.value != [] then End else To(ClarifyInput)
    ensures Route(RecipeRouter(ClarifyInput), s) == End
  {
  }

  /** The key a node's router tests, if it tests one. */
  function RoutedOn(n: NodeName): Option<Key> {
    match RecipeRouter(n)
    case IfTruthy(k, _, _) => Some(k)
    case Always(_) => None
  }

  /** Routing never looks at what a key holds, only at whether it is truthy:
      two records alike in that respect are routed alike. */
  lemma {:induction false} RoutingReadsOnlyTruthiness(n: NodeName, s: AgentState, t: AgentState)
    requires RoutedOn(n).Some? ==> Truthy(Get(s, RoutedOn(n).value)) == Truthy(Get(t, RoutedOn(n).value))
    ensures Route(RecipeRouter(n), s) == Route(RecipeRouter(n), t)
  {
    match RecipeRouter(n)
    case Always(_) =>
    case IfTruthy(k, _, _) => assert RoutedOn(n) == Some(k);
  }

  /** A node's place in the order of the pipeline; every edge goes down it. */
  function Rank(n: NodeName): nat {
    match n
    case Start => 6
    case SearchBaseRecipe => 5
    case ExtractIngredients => 4
    case SearchPairings => 3
    case GenerateRecipe => 2
    case ClarifyInput => 1
  }

  /** The graph has an edge from `a` to `b`: some record routes `a` to `b`. */
  predicate Edge(a: NodeName, b: NodeName) {
    match RecipeRouter(a)
    case Always(t) => t == To(b)
    case IfTruthy(_, x, y) => x == To(b) || y == To(b)
  }

  /** Every edge goes to a node of lower rank, so the graph has no cycle. */
  lemma {:induction false} EdgesDescend(a: NodeName, b: NodeName)
    requires Edge(a, b)
    ensures Rank(b) < Rank(a)
  {
    match a {
      case Start => case SearchBaseRecipe => case ExtractIngredients =>
      case SearchPairings => case GenerateRecipe => case ClarifyInput =>
    }
  }

  /** The routers only pick edges of the graph. */
  lemma {:induction false} RoutesFollowEdges(n: NodeName, s: AgentState)
    ensures Route(RecipeRouter(n), s).To? ==> Edge(n, Route(RecipeRouter(n), s).node)
  {
  }

  // --------------------------------------------------------------- runs

  /** The node functions a graph runs: what executing a node on a record
      gives. The engine treats them as given. */
  type NodeFunctions = (NodeName, AgentState) -> NodeOutcome

  /** How a run ends: at `END` with the final record, or with an exception. In
      both cases `trace` lists the nodes executed, in order. */
  datatype RunResult =
    | Finished(state: AgentState, trace: seq<NodeName>)
    | Crashed(trace: seq<NodeName>, exception: string)

  function WithTrace(r: RunResult, trace: seq<NodeName>): RunResult {
    match r
    case Finished(s, _) => Finished(s, trace)
    case Crashed(_, e) => Crashed(trace, e)
  }

  function Last(trace: seq<NodeName>): NodeName
    requires trace != []
  {
    trace[|trace| - 1]
  }

  /** The rest of a run of the recipe graph that is about to execute node `n`
      on record `s`. Whatever the node functions do, the run follows the
      graph's edges and stops within `Rank(n)` steps; when it finishes, the
      last node's router has answered `END` on the final record. */
  function RunFrom(n: NodeName, s: AgentState, nodes: NodeFunctions): (r: RunResult)
    ensures 1 <= |r.trace| <= Rank(n) && r.trace[0] == n
    ensures r.Finished? ==> Route(RecipeRouter(Last(r.trace)), r.state) == End
    decreases Rank(n)
  {
    match nodes(n, s)
    case RaisedOut(e) => Crashed([n], e)
    case Wrote(u) =>
      var next := Apply(s, u);
      match Route(RecipeRouter(n), next)
      case End => Finished(next, [n])
      case To(m) =>
        RoutesFollowEdges(n, next);
        EdgesDescend(n, m);
        var rest := RunFrom(m, next, nodes);
        WithTrace(rest, [n] + rest.trace)
  }

  /** Each node of a run is followed by one the graph has an edge to. */
  lemma {:induction false} RunFollowsEdges(n: NodeName, s: AgentState, nodes: NodeFunctions)
    ensures var t := RunFrom(n, s, nodes).trace;
            forall i :: 0 < i < |t| ==> Edge(t[i - 1], t[i])
    decreases Rank(n)
  {
    RunStep(n, s, nodes);
    if nodes(n, s).Wrote? {
      var next := Apply(s, nodes(n, s).update);
      var target := Route(RecipeRouter(n), next);
      if target.To? {
        RoutesFollowEdges(n, next);
        RunFollowsEdges(target.node, next, nodes);
        var t := RunFrom(n, s, nodes).trace;
        var rest := RunFrom(target.node, next, nodes).trace;
        assert t == [n] + rest;
        forall i | 0 < i < |t| ensures Edge(t[i - 1], t[i]) {
          if i > 1 { assert t[i - 1] == rest[i - 2] && t[i] == rest[i - 1]; }
        }
      }
    }
  }

  /** One step of a run, in each of its three cases. */
  lemma {:induction false} RunStep(n: NodeName, s: AgentState, nodes: NodeFunctions)
    ensures nodes(n, s).RaisedOut? ==> RunFrom(n, s, nodes) == Crashed([n], nodes(n, s).exception)
    ensures nodes(n, s).Wrote? ==>
              var next := Apply(s, nodes(n, s).update);
              var t := Route(RecipeRouter(n), next);
              && (t == End ==> RunFrom(n, s, nodes) == Finished(next, [n]))
              && (t.To? ==>
                    && Rank(t.node) < Rank(n)
                    && RunFrom(n, s, nodes) == WithTrace(RunFrom(t.node, next, nodes), [n] + RunFrom(t.node, next, nodes).trace))
  {
    match nodes(n, s)
    case RaisedOut(_) =>
    case Wrote(u) =>
      var next := Apply(s, u);
      RoutesFollowEdges(n, next);
      if Route(RecipeRouter(n), next).To? {
        EdgesDescend(n, Route(RecipeRouter(n), next).node);
      }
  }

  /** A node that raises ends the run with its exception. */
  lemma {:induction false} StepRaises(n: NodeName, s: AgentState, nodes: NodeFunctions)
    requires nodes(n, s).RaisedOut?
    ensures RunFrom(n, s, nodes) == Crashed([n], nodes(n, s).exception)
  {
  }

  /** A node whose router then answers `END` ends the run with its update applied. */
  lemma {:induction false} StepEnds(n: NodeName, s: AgentState, nodes: NodeFunctions, u: Update)
    requires nodes(n, s) == Wrote(u) && Route(RecipeRouter(n), Apply(s, u)) == End
    ensures RunFrom(n, s, nodes) == Finished(Apply(s, u), [n])
  {
  }

  /** A node whose router then names `m` hands the updated record on to `m`. */
  lemma {:induction false} StepOn(n: NodeName, s: AgentState, nodes: NodeFunctions, u: Update, m: NodeName)
    requires nodes(n, s) == Wrote(u) && Route(RecipeRouter(n), Apply(s, u)) == To(m)
    ensures var rest := RunFrom(m, Apply(s, u), nodes);
            RunFrom(n, s, nodes) == WithTrace(rest, [n] + rest.trace)
  {
    RunStep(n, s, nodes);
  }

  /** The records a run hands to its nodes, in the order of its trace: `s`
      to `n`, then each merged record to the node routed to. */
  function Handed(n: NodeName, s: AgentState, nodes: NodeFunctions): (records: seq<AgentState>)
    ensures |records| == |RunFrom(n, s, nodes).trace| && records[0] == s
    decreases Rank(n)
  {
    RunStep(n, s, nodes);
    match nodes(n, s)
    case RaisedOut(_) => [s]
    case Wrote(u) =>
      var next := Apply(s, u);
      match Route(RecipeRouter(n), next)
      case End => [s]
      case To(m) => [s] + Handed(m, next, nodes)
  }

  /** Position `i` of a run with trace `t` that handed the records `h`: the
      node before wrote an update, record `i` is the record before with that
      update merged, and the node before's router picked node `i` on it. */
  predicate HandedOn(t: seq<NodeName>, h: seq<AgentState>, i: nat, nodes: NodeFunctions) {
    && 0 < i < |t| && i < |h|
    && nodes(t[i - 1], h[i - 1]).Wrote?
    && h[i] == Apply(h[i - 1], nodes(t[i - 1], h[i - 1]).update)
    && Route(RecipeRouter(t[i - 1]), h[i]) == To(t[i])
  }

  /** Every record a run hands on is linked to the one before it. */
  lemma {:induction false} HandedSteps(n: NodeName, s: AgentState, nodes: NodeFunctions)
    ensures forall i :: 0 < i < |Handed(n, s, nodes)| ==>
              HandedOn(RunFrom(n, s, nodes).trace, Handed(n, s, nodes), i, nodes)
    decreases Rank(n)
  {
    RunStep(n, s, nodes);
    if nodes(n, s).Wrote? {
      var next := Apply(s, nodes(n, s).update);
      var target := Route(RecipeRouter(n), next);
      if target.To? {
        HandedSteps(target.node, next, nodes);
        var t := RunFrom(n, s, nodes).trace;
        var h := Handed(n, s, nodes);
        var rt := RunFrom(target.node, next, nodes).trace;
        var rh := Handed(target.node, next, nodes);
        assert t == [n] + rt && h == [s] + rh;
        forall i | 0 < i < |h| ensures HandedOn(t, h, i, nodes) {
          if i == 1 {
            assert t[0] == n && h[0] == s && t[1] == rt[0] && h[1] == rh[0];
          } else {
            assert HandedOn(rt, rh, i - 1, nodes);
            assert t[i - 1] == rt[i - 2] && t[i] == rt[i - 1] && h[i - 1] == rh[i - 2] && h[i] == rh[i - 1];
          }
        }
      }
    }
  }

  /** The ranks along a trace fall strictly. */
  predicate Falling(t: seq<NodeName>) {
    forall i, j :: 0 <= i < j < |t| ==> Rank(t[j]) < Rank(t[i])
  }

  /** A node ranked above the head of a falling trace can be put in front. */
  lemma {:induction false} FallingCons(n: NodeName, rest: seq<NodeName>)
    requires rest != [] && Rank(rest[0]) < Rank(n) && Falling(rest)
    ensures Falling([n] + rest)
  {
    var t := [n] + rest;
    forall i, j | 0 <= i < j < |t| ensures Rank(t[j]) < Rank(t[i]) {
      assert t[j] == rest[j - 1];
      if i == 0 {
        assert j - 1 == 0 || Rank(rest[j - 1]) < Rank(rest[0]);
      } else {
        assert t[i] == rest[i - 1];
      }
    }
  }

  /** Ranks fall along a run. */
  lemma {:induction false} RanksFall(n: NodeName, s: AgentState, nodes: NodeFunctions)
    ensures Falling(RunFrom(n, s, nodes).trace)
    decreases Rank(n)
  {
    RunStep(n, s, nodes);
    if nodes(n, s).Wrote? {
      var next := Apply(s, nodes(n, s).update);
      var target := Route(RecipeRouter(n), next);
      if target.To? {
        RanksFall(target.node, next, nodes);
        FallingCons(n, RunFrom(target.node, next, nodes).trace);
      }
    }
  }

  /** No node is executed twice in a run: the graph terminates without a
      recursion limit. */
  lemma {:induction false} NoNodeTwice(n: NodeName, s: AgentState, nodes: NodeFunctions)
    ensures var t := RunFrom(n, s, nodes).trace;
            forall i, j :: 0 <= i < j < |t| ==> t[i] != t[j]
  {
    RanksFall(n, s, nodes);
  }

  /** Only the generation and clarification routers answer `END`, so a run
      that finishes does so at one of them. */
  lemma {:induction false} FinishesAtGenerateOrClarify(n: NodeName, s: AgentState, nodes: NodeFunctions)
    ensures var r := RunFrom(n, s, nodes);
            r.Finished? ==> Last(r.trace) == GenerateRecipe || Last(r.trace) == ClarifyInput
  {
    var r := RunFrom(n, s, nodes);
    if r.Finished? {
      match Last(r.trace) {
        case Start => case SearchBaseRecipe => case ExtractIngredients => case SearchPairings =>
        case GenerateRecipe => case ClarifyInput =>
      }
    }
  }

  /** A run that has executed `trace` and is about to execute `n` on `s`. */
  function Resumed(trace: seq<NodeName>, n: NodeName, s: AgentState, nodes: NodeFunctions): RunResult {
    var rest := RunFrom(n, s, nodes);
    WithTrace(rest, trace + rest.trace)
  }

  /** One step of a resumed run: it raises, finishes, or resumes at the next
      node with the executed node appended to its trace. */
  lemma {:induction false} ResumeStep(trace: seq<NodeName>, n: NodeName, s: AgentState, nodes: NodeFunctions)
    ensures nodes(n, s).RaisedOut? ==> Resumed(trace, n, s, nodes) == Crashed(trace + [n], nodes(n, s).exception)
    ensures nodes(n, s).Wrote? ==>
              var next := Apply(s, nodes(n, s).update);
              var t := Route(RecipeRouter(n), next);
              && (t == End ==> Resumed(trace, n, s, nodes) == Finished(next, trace + [n]))
              && (t.To? ==> Rank(t.node) < Rank(n) && Resumed(trace, n, s, nodes) == Resumed(trace + [n], t.node, next, nodes))
  {
    RunStep(n, s, nodes);
    if nodes(n, s).Wrote? {
      var next := Apply(s, nodes(n, s).update);
      var t := Route(RecipeRouter(n), next);
      if t.To? {
        var after := RunFrom(t.node, next, nodes);
        assert trace + ([n] + after.trace) == (trace + [n]) + after.trace;
      }
    }
  }

  /** Running the compiled graph: execute the current node, merge its update,
      route, until a router answers `END` or a node raises. */
  method Invoke(g: CompiledGraph, init: AgentState, nodes: NodeFunctions) returns (result: RunResult)
    requires g == RecipeGraph()
    ensures result == RunFrom(g.entry, init, nodes)
    ensures 1 <= |result.trace| <= 6
  {
    var current := g.entry;
    var s := init;
    var trace: seq<NodeName> := [];
    assert Resumed(trace, current, s, nodes) == RunFrom(g.entry, init, nodes) by {
      assert trace + RunFrom(current, s, nodes).trace == RunFrom(current, s, nodes).trace;
    }
    while true
      invariant Resumed(trace, current, s, nodes) == RunFrom(g.entry, init, nodes)
      decreases Rank(current)
    {
      var outcome := nodes(current, s);
      ResumeStep(trace, current, s, nodes);
      if outcome.RaisedOut? {
        return Crashed(trace + [current], outcome.exception);
      }
      var next := Apply(s, outcome.update);
      EveryNodeRouted(current);
      var target := Route(g.routers[current], next);
      if target.End? {
        return Finished(next, trace + [current]);
      }
      trace := trace + [current];
      s := next;
      current := target.node;
    }
  }

  // ------------------------------------------------------ the recipe nodes

  /** The foreign collaborators of one run. The search tool and the pairing
      retriever are functions of their query; the language model is a
      function of its prompt. `toolRejection` is what the tool wrapper raises
      when the pairing query is `None`. */
  datatype Env = Env(
    search: string -> Call<SearchResponse>,
    llm: Prompt -> Call<string>,
    retriever: string -> Call<seq<string>>,
    toolRejection: string)

  /** What `search_food_pairings.invoke(query)` answers. */
  function PairingToolAnswer(query: Option<string>, env: Env): Call<string> {
    match query
    case Some(q) => Returned(SearchFoodPairings(env.retriever(q)))
    case None => Raised(env.toolRejection)
  }

  /** The reply the generation node gets on record `s`. */
  function RecipeReply(s: AgentState, env: Env): Call<string> {
    env.llm(RecipePrompt(GenerationContext(s)))
  }

  /** Executing one node of the recipe graph on the record. */
  function Execute(n: NodeName, s: AgentState, env: Env): NodeOutcome {
    match n
    case Start => Wrote(StartNode(s))
    case SearchBaseRecipe => Wrote(BaseRecipeUpdate(s.userDesire, env.search(SearchQuery(s.userDesire))))
    case ExtractIngredients => Wrote(ExtractIngredientsNode(s, env.llm(IngredientPrompt(s.baseRecipeSearchResults))))
    case SearchPairings => Wrote(SearchPairingsNode(s, PairingToolAnswer(s.pairingQuery, env)))
    case GenerateRecipe => Wrote(GenerateRecipeNode(s, RecipeReply(s, env)))
    case ClarifyInput => ClarifyInputNode(s)
  }

  /** The recipe graph's node functions, for one set of collaborators. */
  function RecipeNodes(env: Env): NodeFunctions {
    (n, s) => Execute(n, s, env)
  }

  /** `app.invoke(initial_state)`: a run of the recipe graph from its entry node. */
  function Run(s: AgentState, env: Env): RunResult {
    RunFrom(RecipeGraph().entry, s, RecipeNodes(env))
  }

  /** Executing one node, with the search node run as the source runs it. */
  method ExecuteNode(n: NodeName, s: AgentState, env: Env) returns (o: NodeOutcome)
    ensures o == Execute(n, s, env)
  {
    match n {
      case Start =>
        o := Wrote(StartNode(s));
      case SearchBaseRecipe =>
        var u := SearchBaseRecipeNode(s, env.search);
        o := Wrote(u);
      case ExtractIngredients =>
        o := Wrote(ExtractIngredientsNode(s, env.llm(IngredientPrompt(s.baseRecipeSearchResults))));
      case SearchPairings =>
        o := Wrote(SearchPairingsNode(s, PairingToolAnswer(s.pairingQuery, env)));
      case GenerateRecipe =>
        o := Wrote(GenerateRecipeNode(s, RecipeReply(s, env)));
      case ClarifyInput =>
        o := ClarifyInputNode(s);
    }
  }
}
