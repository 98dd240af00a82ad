/**
 * The three agent factories. Each binds a role and a goal to one tool
 * group and never allows delegation. The language model each factory
 * builds is not modelled beyond whether building it raised.
 */
module Agents {
  import opened Wrappers
  import opened ToolCatalog
  import AnalysisTools
  import DecisionTools

  datatype AgentKind = ResearchAgent | AnalysisAgent | DecisionAgent

  datatype Agent = Agent(kind: AgentKind, role: string, goal: string, tools: seq<Tool>, allowDelegation: bool)

  /** The tool group each kind of agent is given. */
  function ToolsOf(kind: AgentKind): seq<Tool> {
    match kind
    case ResearchAgent => ResearchTools()
    case AnalysisAgent => AnalysisTools.GetAnalysisTools()
    case DecisionAgent => DecisionTools.GetDecisionTools()
  }

  const ResearchRole := "Chercheur d'Opportunités Financières"
  const AnalysisRole := "Analyste Financier"
  const DecisionRole := "Preneur de Décision Stratégique"
  const ResearchGoal := "Rechercher et identifier les meilleures opportunités pour atteindre l'autonomie financière"
  const AnalysisGoal := "Analyser en profondeur les opportunités financières et évaluer leur viabilité"
  const DecisionGoal := "Prendre des décisions éclairées basées sur les recherches et analyses"

  function RoleOf(kind: AgentKind): string {
    match kind
    case ResearchAgent => ResearchRole
    case AnalysisAgent => AnalysisRole
    case DecisionAgent => DecisionRole
  }

  function GoalOf(kind: AgentKind): string {
    match kind
    case ResearchAgent => ResearchGoal
    case AnalysisAgent => AnalysisGoal
    case DecisionAgent => DecisionGoal
  }

  /** `create_research_agent()`, `create_analysis_agent()` and
      `create_decision_agent()`. `llmError` is the message of the exception
      building the language model raised, if it did (an unparsable
      temperature in the environment, say); then no agent is made. */
  function CreateAgent(kind: AgentKind, llmError: Option<string>): (r: Result<Agent, string>)
    ensures r.Failure? <==> llmError.Some?
    ensures r.Failure? ==> r.error == llmError.value
    ensures r.Success? ==>
      && r.value.kind == kind && !r.value.allowDelegation
      && r.value.tools == ToolsOf(kind) && r.value.role == RoleOf(kind) && r.value.goal == GoalOf(kind)
  {
    match llmError
    case Some(message) => Failure(message)
    case None => Success(Agent(kind, RoleOf(kind), GoalOf(kind), ToolsOf(kind), false))
  }
}
