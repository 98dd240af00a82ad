/**
 * The two task endpoints and the tool listing of the HTTP service.
 * `POST /execute` runs one agent on one task; `POST /crew/execute` chains
 * research, analysis and decision. The agent framework's `kickoff` is the
 * parameter `Runtime.kickoff`; everything it does is opaque here.
 */
module Service {
  import opened Wrappers
  import opened Text
  import opened JsonValue
  import opened ToolCatalog
  import opened Agents
  import ToolRegistry

  /** The request body: `task_type`, `description` and an optional `context` object. */
  datatype TaskRequest = TaskRequest(taskType: string, description: string, context: Option<map<string, Json>>)

  /** A value in a task's context: data from the request, or an earlier task. */
  datatype ContextValue = RequestValue(value: Json) | PreviousTask(task: Task)

  /** A framework `Task`; `context` is `None` when the call passes none. */
  datatype Task = Task(description: string, agent: Agent, context: Option<map<string, ContextValue>>)

  datatype Crew = Crew(agents: seq<Agent>, tasks: seq<Task>, verbose: bool)

  /** What building the crew and calling `kickoff()` did: finished with the
      text `str(result)`, or raised an exception with the given message. */
  datatype KickoffResult = Finished(output: string) | Raised(message: string)

  /** The environment the endpoints depend on: whether building a language
      model raises, and what the framework does with a crew. */
  datatype Runtime = Runtime(llmError: Option<string>, kickoff: Crew -> KickoffResult)

  /** The exceptions the `try` blocks can see. */
  datatype Exception = HttpException(status: nat, detail: string) | Error(message: string)

  /** Python's `str(e)`; for an `HTTPException` it is `"<status>: <detail>"`. */
  function ExceptionText(e: Exception): string {
    match e
    case HttpException(status, detail) => NatToString(status) + ": " + detail
    case Error(message) => message
  }

  datatype TaskResponse = TaskResponse(success: bool, result: string, agentUsed: string)
  datatype CrewResponse = CrewResponse(success: bool, result: string)

  /** An HTTP reply: status 200 with a body, or an error status with its detail. */
  datatype Reply<T> = Ok(body: T) | HttpError(status: nat, detail: string)

  const ExecutionErrorPrefix := "Erreur lors de l'exécution: "
  const UnknownTypePrefix := "Type de tâche inconnu: "

  /** The `if`/`elif` chain that picks the agent factory. */
  function SelectAgent(taskType: string): (r: Option<AgentKind>)
    ensures r == Some(ResearchAgent) <==> taskType == "research"
    ensures r == Some(AnalysisAgent) <==> taskType == "analysis"
    ensures r == Some(DecisionAgent) <==> taskType == "decision"
    ensures r == None <==> taskType !in {"research", "analysis", "decision"}
  {
    if taskType == "research" then Some(ResearchAgent)
    else if taskType == "analysis" then Some(AnalysisAgent)
    else if taskType == "decision" then Some(DecisionAgent)
    else None
  }

  /** The one-agent, one-task crew `execute_task` runs. */
  function SingleTaskCrew(agent: Agent, request: TaskRequest): (crew: Crew)
    ensures |crew.agents| == 1 && |crew.tasks| == 1
    ensures crew.agents[0] == agent && crew.tasks[0].agent == agent
    ensures crew.tasks[0].description == request.description
    ensures crew.tasks[0].context.Some?
    ensures var given := request.context.GetOr(map[]);
      var context := crew.tasks[0].context.value;
      && context.Keys == given.Keys
      && forall key :: key in given ==> context[key] == RequestValue(given[key])
  {
    var context := request.context.GetOr(map[]);
    var task := Task(request.description, agent, Some(map key | key in context :: RequestValue(context[key])));
    Crew([agent], [task], true)
  }

  /** The body of the `try` in `execute_task`, up to the first exception. */
  function TrySingleTask(request: TaskRequest, runtime: Runtime): Result<TaskResponse, Exception> {
    match SelectAgent(request.taskType)
    case None =>
      Failure(HttpException(400, UnknownTypePrefix + request.taskType))
    case Some(kind) =>
      match CreateAgent(kind, runtime.llmError)
      case Failure(message) => Failure(Error(message))
      case Success(agent) =>
        match runtime.kickoff(SingleTaskCrew(agent, request))
        case Raised(message) => Failure(Error(message))
        case Finished(output) => Success(TaskResponse(true, output, request.taskType))
  }

  /** `POST /execute`: whatever the `try` raised, the `except Exception`
      turns it into a 500 whose detail embeds the exception's text. */
  function ExecuteTask(request: TaskRequest, runtime: Runtime): (reply: Reply<TaskResponse>)
    ensures reply.HttpError? ==> reply.status == 500 && ExecutionErrorPrefix <= reply.detail
    ensures reply.Ok? ==>
      && reply.body.success
      && reply.body.agentUsed == request.taskType
      && SelectAgent(request.taskType).Some?
  {
    match TrySingleTask(request, runtime)
    case Success(response) => Ok(response)
    case Failure(e) => HttpError(500, ExecutionErrorPrefix + ExceptionText(e))
  }

  /** An unknown task type never reaches the client as a 400: the
      `HTTPException(400)` is raised inside the `try`, caught by the generic
      handler and re-raised as a 500 whose detail embeds "400: " and the
      unknown-type message. */
  lemma UnknownTaskTypeIs500(request: TaskRequest, runtime: Runtime)
    requires request.taskType !in {"research", "analysis", "decision"}
    ensures ExecuteTask(request, runtime)
         == HttpError(500, ExecutionErrorPrefix + "400: " + UnknownTypePrefix + request.taskType)
  {
    assert SelectAgent(request.taskType) == None;
    assert NatToString(400) == "400";
  }

  /** A known task type with a working model runs exactly the one-task crew
      for that agent, and the reply carries the framework's output. */
  lemma ExecuteTaskRunsSelectedAgent(request: TaskRequest, runtime: Runtime, kind: AgentKind)
    requires SelectAgent(request.taskType) == Some(kind)
    requires runtime.llmError.None?
    ensures var agent := Agent(kind, RoleOf(kind), GoalOf(kind), ToolsOf(kind), false);
      match runtime.kickoff(SingleTaskCrew(agent, request))
      case Finished(output) => ExecuteTask(request, runtime) == Ok(TaskResponse(true, output, request.taskType))
      case Raised(message) => ExecuteTask(request, runtime) == HttpError(500, ExecutionErrorPrefix + message)
  {
  }

  /** A known task type whose agent cannot be built (building its language
      model raised) gets a 500 carrying that exception's text. */
  lemma ExecuteTaskModelFailureIs500(request: TaskRequest, runtime: Runtime)
    requires SelectAgent(request.taskType).Some?
    requires runtime.llmError.Some?
    ensures ExecuteTask(request, runtime) == HttpError(500, ExecutionErrorPrefix + runtime.llmError.value)
  {
  }

  const AnalysisStepDescription := "Analyse les résultats de la recherche"
  const DecisionStepDescription := "Prendre une décision basée sur l'analyse"
  const ResearchStepPrefix := "Recherche: "
  const PreviousTaskKey := "previous_task"

  /** The three-step crew `execute_crew_task` builds. */
  function PipelineCrew(description: string, research: Agent, analysis: Agent, decision: Agent): (crew: Crew)
    ensures crew.agents == [research, analysis, decision]
    ensures |crew.tasks| == 3
    ensures forall i :: 0 <= i < 3 ==> crew.tasks[i].agent == crew.agents[i]
    ensures crew.tasks[0].description == ResearchStepPrefix + description
    ensures crew.tasks[1].description == AnalysisStepDescription
    ensures crew.tasks[2].description == DecisionStepDescription
    ensures crew.tasks[0].context.None?
    ensures crew.tasks[1].context == Some(map[PreviousTaskKey := PreviousTask(crew.tasks[0])])
    ensures crew.tasks[2].context == Some(map[PreviousTaskKey := PreviousTask(crew.tasks[1])])
  {
    var researchTask := Task(ResearchStepPrefix + description, research, None);
    var analysisTask := Task(AnalysisStepDescription, analysis, Some(map[PreviousTaskKey := PreviousTask(researchTask)]));
    var decisionTask := Task(DecisionStepDescription, decision, Some(map[PreviousTaskKey := PreviousTask(analysisTask)]));
    Crew([research, analysis, decision], [researchTask, analysisTask, decisionTask], true)
  }

  /** The body of the `try` in `execute_crew_task`. */
  function TryCrewTask(request: TaskRequest, runtime: Runtime): Result<CrewResponse, Exception> {
    match CreateAgent(ResearchAgent, runtime.llmError)
    case Failure(message) => Failure(Error(message))
    case Success(research) =>
      match CreateAgent(AnalysisAgent, runtime.llmError)
      case Failure(message) => Failure(Error(message))
      case Success(analysis) =>
        match CreateAgent(DecisionAgent, runtime.llmError)
        case Failure(message) => Failure(Error(message))
        case Success(decision) =>
          match runtime.kickoff(PipelineCrew(request.description, research, analysis, decision))
          case Raised(message) => Failure(Error(message))
          case Finished(output) => Success(CrewResponse(true, output))
  }

  /** `POST /crew/execute`. */
  function ExecuteCrewTask(request: TaskRequest, runtime: Runtime): (reply: Reply<CrewResponse>)
    ensures reply.HttpError? ==> reply.status == 500 && ExecutionErrorPrefix <= reply.detail
    ensures reply.Ok? ==> reply.body.success
  {
    match TryCrewTask(request, runtime)
    case Success(response) => Ok(response)
    case Failure(e) => HttpError(500, ExecutionErrorPrefix + ExceptionText(e))
  }

  /** The crew endpoint reads only the description: the task type and the
      context of the request make no difference to its reply. */
  lemma CrewIgnoresTypeAndContext(a: TaskRequest, b: TaskRequest, runtime: Runtime)
    requires a.description == b.description
    ensures ExecuteCrewTask(a, runtime) == ExecuteCrewTask(b, runtime)
  {
  }

  /** With a working model the crew endpoint runs the three agents, in the
      order research, analysis, decision, on the chained tasks, and replies
      with the framework's output or a 500 carrying its exception. */
  lemma CrewRunsThreeChainedSteps(request: TaskRequest, runtime: Runtime)
    requires runtime.llmError.None?
    ensures var crew := PipelineCrew(request.description,
        Agent(ResearchAgent, RoleOf(ResearchAgent), GoalOf(ResearchAgent), ToolsOf(ResearchAgent), false),
        Agent(AnalysisAgent, RoleOf(AnalysisAgent), GoalOf(AnalysisAgent), ToolsOf(AnalysisAgent), false),
        Agent(DecisionAgent, RoleOf(DecisionAgent), GoalOf(DecisionAgent), ToolsOf(DecisionAgent), false));
      && [crew.agents[0].kind, crew.agents[1].kind, crew.agents[2].kind] == [ResearchAgent, AnalysisAgent, DecisionAgent]
      && match runtime.kickoff(crew)
         case Finished(output) => ExecuteCrewTask(request, runtime) == Ok(CrewResponse(true, output))
         case Raised(message) => ExecuteCrewTask(request, runtime) == HttpError(500, ExecutionErrorPrefix + message)
  {
  }

  /** When the language model cannot be built, the first factory raises
      and the crew endpoint answers 500 with that exception's text. */
  lemma CrewModelFailureIs500(request: TaskRequest, runtime: Runtime)
    requires runtime.llmError.Some?
    ensures ExecuteCrewTask(request, runtime) == HttpError(500, ExecutionErrorPrefix + runtime.llmError.value)
  {
  }

  /** `GET /tools`: every available tool and their number. */
  method ListTools() returns (tools: seq<Tool>, count: nat)
    ensures tools == ToolRegistry.Flatten(ToolRegistry.ToolGroups())
    ensures count == |tools| == 11
  {
    tools := ToolRegistry.GetAvailableTools();
    count := |tools|;
  }
}
