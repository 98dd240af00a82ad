/**
 * Tool descriptors: a name, the function the agent framework calls, and
 * the description the LLM reads. The function is a closed set of tags; the
 * network-bound tools (web search, webhook trigger, completion API) are
 * only named here, their behaviour is not part of this model.
 */
module ToolCatalog {

  /** The Python function each tool wraps. */
  datatype ToolFunc =
    | WebSearchFunc | AnalyzeMarketFunc
    | CalculateRoiFunc | AnalyzeFinancialDataFunc | EvaluateRiskFunc
    | MakeDecisionFunc | CreateActionPlanFunc | ExecuteDecisionFunc
    | TriggerN8nWorkflowFunc | GetN8nWorkflowStatusFunc
    | CallOpenRouterApiFunc

  datatype Tool = Tool(name: string, func: ToolFunc, description: string)

  /** The names of a list of tools, in order. */
  function Names(tools: seq<Tool>): seq<string> {
    seq(|tools|, i requires 0 <= i < |tools| => tools[i].name)
  }

  /** Names distributes over concatenation. */
  lemma NamesConcat(a: seq<Tool>, b: seq<Tool>)
    ensures Names(a + b) == Names(a) + Names(b)
  {
  }

  const WebSearchDescription := "Recherche d'informations sur Internet. Utilise cet outil pour rechercher des opportunités financières, des tendances du marché, des nouvelles technologies, etc."
  const MarketAnalysisDescription := "Analyse les tendances du marché et identifie les opportunités émergentes"
  const TriggerN8NWorkflowDescription := "Déclenche un workflow n8n. Utilise cet outil pour automatiser des actions basées sur les décisions prises."
  const GetN8NWorkflowStatusDescription := "Récupère le statut d'un workflow n8n. Utile pour vérifier l'état d'exécution d'une automatisation."
  const CallOpenRouterAPIDescription := "Appelle l'API OpenRouter pour des requêtes personnalisées. Utile pour des analyses approfondies ou des générations de contenu."

  /** `get_research_tools()`. */
  function ResearchTools(): (r: seq<Tool>)
    ensures Names(r) == ["WebSearch", "MarketAnalysis"]
    ensures |r| == 2 && r[0].func == WebSearchFunc && r[1].func == AnalyzeMarketFunc
  {
    [ Tool("WebSearch", WebSearchFunc, WebSearchDescription),
      Tool("MarketAnalysis", AnalyzeMarketFunc, MarketAnalysisDescription) ]
  }

  /** `get_n8n_tools()`. */
  function N8nTools(): (r: seq<Tool>)
    ensures Names(r) == ["TriggerN8NWorkflow", "GetN8NWorkflowStatus"]
    ensures |r| == 2 && r[0].func == TriggerN8nWorkflowFunc && r[1].func == GetN8nWorkflowStatusFunc
  {
    [ Tool("TriggerN8NWorkflow", TriggerN8nWorkflowFunc, TriggerN8NWorkflowDescription),
      Tool("GetN8NWorkflowStatus", GetN8nWorkflowStatusFunc, GetN8NWorkflowStatusDescription) ]
  }

  /** `get_api_tools()`. */
  function ApiTools(): (r: seq<Tool>)
    ensures Names(r) == ["CallOpenRouterAPI"]
    ensures |r| == 1 && r[0].func == CallOpenRouterApiFunc
  {
    [ Tool("CallOpenRouterAPI", CallOpenRouterApiFunc, CallOpenRouterAPIDescription) ]
  }
}
