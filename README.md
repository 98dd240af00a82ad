# Financial-autonomy agent service — a Dafny model

This project models the core of the CrewAI service in the financial-autonomy project:

- **The HTTP endpoints.** `POST /execute` picks one agent by task type and runs it on a single task. `POST /crew/execute` chains a research, an analysis and a decision task. `GET /tools` lists every tool.
- **The three agent factories.**
- **The tool package.** It gathers five tool groups into one list.
- **The analysis tools.** These are ROI calculation, financial-data analysis and keyword-based risk evaluation.
- **The decision tools.** These are making a decision, writing an action plan and acknowledging an executed decision.

The modules follow the Python package layout:

| file | module | models |
|---|---|---|
| `wrappers.dfy` | `Wrappers` | `Option` and `Result` |
| `text.dfy` | `Text` | lower-casing, substring search, decimal rendering, counting |
| `json_value.dfy` | `JsonValue` | parsed JSON values and the outcome of `json.loads` |
| `clock.dfy` | `Clock` | `datetime` readings, `strftime('%Y-%m-%d %H:%M:%S')` and `isoformat()`, with parsers that read them back |
| `tool_catalog.dfy` | `ToolCatalog` | the `Tool` descriptor and the research, n8n and API groups (named only) |
| `analysis_tools.dfy` | `AnalysisTools` | `crewai/tools/analysis_tools.py` |
| `decision_tools.dfy` | `DecisionTools` | `crewai/tools/decision_tools.py` |
| `tool_registry.dfy` | `ToolRegistry` | `crewai/tools/__init__.py` |
| `agents.dfy` | `Agents` | `create_research_agent`, `create_analysis_agent` and `create_decision_agent` |
| `service.dfy` | `Service` | the `/execute`, `/crew/execute` and `/tools` handlers of `main.py` |

Side effects and outside libraries enter the model as parameters:

- **Clock.** The clock reading `datetime.now()` is a `DateTime` argument. It is rendered exactly as the two format calls render it.
- **Parsing.** The outcome of `json.loads` is a `ParseOutcome` argument: `Parsed(value)`, `DecodeError`, or some other exception.
- **Printing.** Python's `str()` of a parsed value is a function argument `show`.
- **Language model.** Whether building the language model raises is `Runtime.llmError`.
- **Framework.** What the agent framework does with a crew is the function `Runtime.kickoff`. This covers validating the `Task` and `Crew` objects, running the agents, and the result or exception that comes back.

One behaviour of the code differs from what it evidently intends. `execute_task` raises `HTTPException(status_code=400, ...)` for an unknown task type (`main.py:136-139`), which was evidently meant to reach the client as a 400. The raise happens inside the `try` block, though, so the generic `except Exception` catches it. The handler then raises a 500 whose detail is `"Erreur lors de l'exécution: 400: Type de tâche inconnu: <type>"`, because Starlette renders an `HTTPException` as `"<status>: <detail>"`. The model follows the code, and `Service.UnknownTaskTypeIs500` proves the 500.

## Model

| member | source | states |
|---|---|---|
| Service.SelectAgent | crewai/main.py:128-139 | "research", "analysis" and "decision" select the research, analysis and decision agent, each if and only if the type is that string; every other type selects none |
| Service.SingleTaskCrew | crewai/main.py:141-153 | the crew has exactly the one agent and one task bound to it; the task's description is the request's; its context has the request context's keys and values, or is empty when none was sent |
| Service.ExecuteTask | crewai/main.py:120-170 | every error reply is a 500 whose detail starts with "Erreur lors de l'exécution: "; a success reply has success set, names the requested task type as the agent used, and only happens for one of the three known types |
| Service.UnknownTaskTypeIs500 | crewai/main.py:126-170 | an unknown task type yields exactly a 500 with detail "Erreur lors de l'exécution: 400: Type de tâche inconnu: <type>", never a 400 |
| Service.ExecuteTaskRunsSelectedAgent | crewai/main.py:129-163 | for a known type and a working model, the reply is the framework's output from the one-task crew with the selected agent, or a 500 carrying the framework's exception text |
| Service.ExecuteTaskModelFailureIs500 | crewai/main.py:129-170 | for a known type whose agent cannot be built because building the language model raised, the reply is exactly a 500 with "Erreur lors de l'exécution: " followed by that exception's text |
| Service.ExceptionText | crewai/main.py:165-170 | `str(e)` of what the `try` raised: "<status>: <detail>" for an `HTTPException`, the message otherwise (no contract; its use is pinned down by `Service.UnknownTaskTypeIs500`) |
| Service.TrySingleTask | crewai/main.py:126-163 | the `try` body of `execute_task` up to its first exception: unknown type, failed factory, raising kickoff, or the response (no contract; characterised by `Service.ExecuteTask` and the three lemmas around it) |
| Service.PipelineCrew | crewai/main.py:180-208 | the crew runs research, analysis and decision in that order; each task is bound to its agent; the descriptions are "Recherche: <description>" and the two fixed texts; the first task has no context; each later task's context maps "previous_task" to the task before it |
| Service.ExecuteCrewTask | crewai/main.py:173-224 | every error reply is a 500 whose detail starts with "Erreur lors de l'exécution: "; a success reply has success set |
| Service.CrewIgnoresTypeAndContext | crewai/main.py:179-210 | the crew endpoint's reply depends only on the request's description, not on its task type or context |
| Service.CrewRunsThreeChainedSteps | crewai/main.py:179-224 | with a working model the crew's agents are research, analysis and decision in that order, and the reply is the framework's output or a 500 carrying its exception text |
| Service.CrewModelFailureIs500 | crewai/main.py:179-224 | when the language model cannot be built, the crew reply is exactly a 500 with "Erreur lors de l'exécution: " followed by that exception's text |
| Service.TryCrewTask | crewai/main.py:179-217 | the `try` body of `execute_crew_task`: the three factories in turn, then the kickoff (no contract; characterised by `Service.CrewRunsThreeChainedSteps` and `Service.CrewModelFailureIs500`) |
| Service.ListTools | crewai/main.py:110-117 | the listing is the gathered tool list, and the reported count equals its length, which is 11 |
| Agents.CreateAgent | crewai/crewai/agents/research_agent.py:9-28 | a failure happens exactly when building the model raises, and carries that message; otherwise the agent has its kind's role, goal and tool group, with delegation off; the same holds for the analysis and decision agents built in crewai/crewai/agents/analysis_agent.py:9-28 and crewai/crewai/agents/decision_agent.py:9-28 |
| AnalysisTools.CalculateRoi | crewai/crewai/tools/analysis_tools.py:9-25 | the error text happens exactly when the investment is zero and starts with "Erreur dans le calcul du ROI: "; otherwise the report keeps the period (by default "annuel") and amounts, and percent × investment = (returns − investment) × 100 |
| AnalysisTools.AnalyzeFinancialData | crewai/crewai/tools/analysis_tools.py:28-53 | parsed JSON: the report starts with the structured header, the count read back from it is the element count (length of a list or dict, else 1), and it ends with the Python type name; undecodable text: the report is the text header followed by a prefix of the input that is min(length, 500) long and carries no count; any other exception: the error prefix and its message |
| AnalysisTools.StructuredReport | crewai/crewai/tools/analysis_tools.py:45-49 | the report on a parsed value starts with the header and count label; its length is exactly that prefix, the count digits, a newline and the type-name line; the count read back from it is the element count; and it ends with the type-name line |
| AnalysisTools.StructuredLayout | crewai/crewai/tools/analysis_tools.py:45-47 | a count prefix followed by digits, a newline and a suffix has exactly that length, reads back as the digits' value, and ends with the suffix |
| AnalysisTools.TextReport | crewai/crewai/tools/analysis_tools.py:50-51 | the report on undecodable text is the text header followed by the first min(length, 500) characters of the input, and no count reads back from it |
| JsonValue.ElementCount | crewai/crewai/tools/analysis_tools.py:46 | `len` of a list or dict, 1 for any other value (no contract; its value is what `AnalysisTools.AnalyzeFinancialData` reads back) |
| JsonValue.TypeName | crewai/crewai/tools/analysis_tools.py:47 | `type(v).__name__` of a parsed JSON value: NoneType, bool, int, float, str, list or dict (no contract; used by the `AnalysisTools.AnalyzeFinancialData` ensures) |
| AnalysisTools.EvaluateRisk | crewai/crewai/tools/analysis_tools.py:56-81 | the loop over the keyword table, which stops at the first level with a keyword in the lowered factors, reports the same level as the high-then-medium-then-low specification with medium as default, in the report format |
| AnalysisTools.ClassifyRisk | crewai/crewai/tools/analysis_tools.py:67-79 | the independent reference for the loop: checks high, then medium, then low over the lowered text, with medium as default (no contract; characterised by `AnalysisTools.ClassifyRiskByPosition`) |
| AnalysisTools.AnyOccurs | crewai/crewai/tools/analysis_tools.py:77 | `any(keyword in factors_lower for keyword in keywords)` (no contract; characterised by `AnalysisTools.AnyOccursIff`) |
| AnalysisTools.RiskKeywords | crewai/crewai/tools/analysis_tools.py:67-71 | the keyword table in insertion order: high, medium, low with their keyword lists (no contract; the loop of `AnalysisTools.EvaluateRisk` runs over it) |
| AnalysisTools.RiskLevel.Label | crewai/crewai/tools/analysis_tools.py:81 | `risk_level.upper()`: HIGH, MEDIUM or LOW (no contract; read back by `AnalysisTools.RiskReportRoundTrip`) |
| AnalysisTools.RiskReport | crewai/crewai/tools/analysis_tools.py:81 | the two-line report with the upper-case level and the original factors (no contract; its inverse is stated by `AnalysisTools.RiskReportRoundTrip`) |
| AnalysisTools.ClassifyRiskByPosition | crewai/crewai/tools/analysis_tools.py:67-79 | HIGH iff a high keyword occurs in the lowered text; LOW iff no high or medium keyword but a low one occurs; MEDIUM otherwise |
| AnalysisTools.AnyOccursIff | crewai/crewai/tools/analysis_tools.py:77 | the `any(...)` test holds iff some keyword of the set occurs at some position of the text |
| AnalysisTools.RiskReportRoundTrip | crewai/crewai/tools/analysis_tools.py:81 | the level and the original factors are recovered from the report |
| AnalysisTools.ClassifyRiskIgnoresCase | crewai/crewai/tools/analysis_tools.py:73 | classifying lower-cased factors gives the same level as the factors themselves |
| AnalysisTools.HighKeywordDominates | crewai/crewai/tools/analysis_tools.py:76-79 | text rated HIGH stays HIGH whatever is added before or after it |
| AnalysisTools.GetAnalysisTools | crewai/crewai/tools/analysis_tools.py:84-107 | three tools named CalculateROI, AnalyzeFinancialData and EvaluateRisk, in that order, bound to their functions |
| DecisionTools.MakeDecision | crewai/crewai/tools/decision_tools.py:14-43 | the decision is the stamp line with the `%Y-%m-%d %H:%M:%S` reading, then the criteria line, then the options line, then the fixed recommendation, each at its exact position |
| DecisionTools.ShownOptions | crewai/crewai/tools/decision_tools.py:27-38 | the parsed value is shown when parsing succeeded; when parsing raised anything, the raw options text is shown |
| DecisionTools.CreateActionPlan | crewai/crewai/tools/decision_tools.py:46-74 | the plan is the three-line header followed by the numbered lines when the steps parse as a list, and by the raw steps text otherwise |
| DecisionTools.AppendNumberedSteps | crewai/crewai/tools/decision_tools.py:65-66 | the loop leaves the text it started from followed by one numbered line per list element, numbered from 1 in list order |
| DecisionTools.PlanHeader | crewai/crewai/tools/decision_tools.py:57-59 | the goal line, the `Créé le:` stamp line with a blank line after it, and `Étapes:` (no contract; the prefix `DecisionTools.CreateActionPlan` ensures) |
| DecisionTools.StepLine | crewai/crewai/tools/decision_tools.py:66 | the line `"<i>. <step>\n"` (no contract; read back by `DecisionTools.NumberedLinesRoundTrip`) |
| DecisionTools.PlanBody | crewai/crewai/tools/decision_tools.py:61-72 | the numbered lines for a parsed list, the raw steps text otherwise (no contract; characterised by `DecisionTools.PlanListsStepsInOrder` and `DecisionTools.PlanBodyNewlines`) |
| DecisionTools.NumberedFrom | crewai/crewai/tools/decision_tools.py:65-66 | the lines `enumerate` produces from a given start number, one per element in list order (no contract; characterised by `DecisionTools.NumberedFromAt`) |
| DecisionTools.NumberedSteps | crewai/crewai/tools/decision_tools.py:65 | the numbering that `enumerate(steps_parsed, 1)` starts at 1 (no contract; characterised by `DecisionTools.NumberedFromAt`) |
| DecisionTools.NumberedFromSnoc | crewai/crewai/tools/decision_tools.py:65-66 | numbering one more element appends one line with the next number |
| DecisionTools.NumberedLinesRoundTrip | crewai/crewai/tools/decision_tools.py:65-66 | when no step text contains a newline, the numbered lines read back with consecutive numbers give every step text in list order |
| DecisionTools.PlanListsStepsInOrder | crewai/crewai/tools/decision_tools.py:61-66 | for a parsed list whose step texts contain no newline, the plan body reads back as the steps numbered from 1 in order, with exactly one line per step |
| DecisionTools.NumberedLinesCount | crewai/crewai/tools/decision_tools.py:65-66 | when no step text contains a newline, the numbered lines hold exactly as many newlines as there are steps |
| DecisionTools.NumberedFromAt | crewai/crewai/tools/decision_tools.py:65-66 | for every list, there is exactly one line per element, and line k is element k numbered first + k |
| DecisionTools.NumberedLinesNewlines | crewai/crewai/tools/decision_tools.py:65-66 | for every list, the numbered lines hold one newline per step plus the newlines inside the step texts |
| DecisionTools.PlanBodyNewlines | crewai/crewai/tools/decision_tools.py:61-66 | for every parsed list, the plan body holds one newline per step plus the newlines inside the step texts |
| DecisionTools.SingleLineNoNewlines | crewai/crewai/tools/decision_tools.py:66 | step texts without line breaks add no newlines of their own |
| DecisionTools.ExecuteDecision | crewai/crewai/tools/decision_tools.py:77-100 | the acknowledgement is the decision line, the action line, then the `isoformat()` timestamp line, each at its exact position |
| DecisionTools.ExecutionTimestampReadable | crewai/crewai/tools/decision_tools.py:93 | the clock reading is read back exactly from the acknowledgement's timestamp line |
| DecisionTools.GetDecisionTools | crewai/crewai/tools/decision_tools.py:103-126 | three tools named MakeDecision, CreateActionPlan and ExecuteDecision, in that order, bound to their functions |
| ToolRegistry.GetAvailableTools | crewai/crewai/tools/__init__.py:20-28 | the result is the five groups laid end to end in research, analysis, decision, n8n, API order: 11 tools with the listed names |
| ToolRegistry.FlattenSize | crewai/crewai/tools/__init__.py:22-27 | extending group by group drops and merges nothing: the length is the sum of the group sizes |
| ToolRegistry.FlattenKeepsGroup | crewai/crewai/tools/__init__.py:22-27 | each group appears whole and in its own order right after the groups before it |
| ToolRegistry.FlattenStep | crewai/crewai/tools/__init__.py:23-27 | each `extend` appends exactly the next group |
| ToolRegistry.ToolGroups | crewai/crewai/tools/__init__.py:23-27 | the five groups in the order the list is extended with them (no contract; `ToolRegistry.GetAvailableTools` ensures its flattening and the names) |
| ToolRegistry.Flatten | crewai/crewai/tools/__init__.py:22-27 | the groups laid end to end (no contract; characterised by `ToolRegistry.FlattenSize` and `ToolRegistry.FlattenKeepsGroup`) |
| ToolRegistry.ExportsSixNames | crewai/crewai/tools/__init__.py:10-17 | the package exports six pairwise distinct names |
| ToolCatalog.ResearchTools | crewai/crewai/tools/research_tools.py:28-46 | two tools named WebSearch and MarketAnalysis, in that order, bound to their functions |
| ToolCatalog.N8nTools | crewai/crewai/tools/n8n_tools.py:71-89 | two tools named TriggerN8NWorkflow and GetN8NWorkflowStatus, in that order, bound to their functions |
| ToolCatalog.ApiTools | crewai/crewai/tools/api_tools.py:55-68 | one tool named CallOpenRouterAPI, bound to its function |
| Clock.IsoFormatRoundTrip | crewai/crewai/tools/decision_tools.py:93 | the `isoformat()` text of a valid reading parses back to that reading, microseconds included |
| Clock.StrftimeMatchesIsoFormat | crewai/crewai/tools/decision_tools.py:36 | for years of four digits the `strftime` stamp is 19 characters long, agrees with `isoformat()` on date and time with a space separator, and parses back to the reading without microseconds |
| Clock.BaseStampRoundTrip | crewai/crewai/tools/decision_tools.py:58 | the date-and-time part of a valid reading parses back to its fields |
| Clock.Strftime | crewai/crewai/tools/decision_tools.py:36 | `strftime('%Y-%m-%d %H:%M:%S')` with unpadded `%Y` (no contract; characterised by `Clock.StrftimeMatchesIsoFormat`) |
| Clock.IsoFormat | crewai/crewai/tools/decision_tools.py:93 | `isoformat()`: `YYYY-MM-DDTHH:MM:SS`, then `.ffffff` only for non-zero microseconds (no contract; its inverse is stated by `Clock.IsoFormatRoundTrip`) |
| Text.LowerIdempotent | crewai/crewai/tools/analysis_tools.py:73 | lower-casing twice is lower-casing once |
| Text.LowerConcat | crewai/crewai/tools/analysis_tools.py:73 | lower-casing distributes over concatenation |
| Text.Lower | crewai/crewai/tools/analysis_tools.py:73 | `str.lower()` over the modelled case mapping keeps the length; lower-casing each character leaves no capital |
| Text.OccursIff | crewai/crewai/tools/analysis_tools.py:77 | the `in` test on strings holds iff the keyword sits at some position of the text |
| Text.Occurs | crewai/crewai/tools/analysis_tools.py:77 | Python's `keyword in text` (no contract; characterised by `Text.OccursIff`) |
| Text.OccursInConcat | crewai/crewai/tools/analysis_tools.py:77 | a keyword found in a text is still found after anything is added on either side |
| Text.NatToStringRoundTrip | crewai/crewai/tools/analysis_tools.py:46 | the decimal rendering of a count reads back as the count |
| Text.NatToString | crewai/crewai/tools/analysis_tools.py:46 | the decimal rendering of a count: at least one digit, only digits, and no leading zero unless the number is zero |
| Text.Pad | crewai/crewai/tools/decision_tools.py:36 | a zero-padded decimal field of exactly the given width, made only of digits (also used for lines 58 and 93) |
| Text.PadRoundTrip | crewai/crewai/tools/decision_tools.py:36 | a zero-padded field reads back as its value when it fits its width |
| Text.CountConcat | crewai/crewai/tools/decision_tools.py:66 | the newline count of a concatenation is the sum of the counts |

Some members exist only so that lemmas can state read-back properties. They model no source line, so the table above omits them: `AnalysisTools.ParseRiskReport`, `AnalysisTools.ReportedCount`, `AnalysisTools.NumberAfter`, `Clock.ParseStamp`, `DecisionTools.ReadNumberedLines`, `Text.IndexOf`, `Text.DigitsValue` and `Text.LeadingDigits`.

## Left out

- HTTP transport is not modelled: FastAPI routing, pydantic validation of the request body, CORS, uvicorn start-up and logging. These are framework behaviour, not the service's logic.
- The static `GET /`, `GET /health` and `GET /agents` endpoints are left out. They return fixed dictionaries and have no logic.
- `execution_time` in both responses is not modelled, because it is a clock difference. The responses carry only success, result and agent used.
- `Crew.kickoff`, the agents' reasoning and calls to the language model are the opaque parameter `Runtime.kickoff`. Any validation the framework does when `Task` and `Crew` are constructed is folded into it as well.
- `create_llm` is reduced to whether it raises (`Runtime.llmError`), for example on an unparsable `CREWAI_TEMPERATURE`. The environment variables and the `ChatOpenAI` settings are not modelled.
- Each agent's `backstory` and `verbose` flag are not modelled.
- The research, n8n and API tools are modelled only as named descriptors in their groups. Their functions do network I/O, which is outside this model.
- DecisionTools.PlanListsStepsInOrder: the read-back holds only when no step text contains a newline. A multi-line step cannot be told apart from several steps. `DecisionTools.NumberedFromAt` and `DecisionTools.PlanBodyNewlines` state the layout and the newline count for every list.
- DecisionTools.NumberedLinesCount: one newline per step holds only when no step text contains a newline. `DecisionTools.NumberedLinesNewlines` gives the exact count for every list.
- AnalysisTools.CalculateRoi: uses exact reals. It does not model IEEE floats (rounding, infinities, NaN) or the `%.2f` and `{investment}` renderings of the report line.
- AnalysisTools.CalculateRoi: always reports "float division by zero". For integer arguments Python's message is "division by zero".
- `json.loads` is not modelled. Its outcome is the input `ParseOutcome`.
- Python's `str()` of a parsed value is the parameter `show`. In `make_decision` it prints the whole parsed value; in `create_action_plan` it prints one list element.
- Python's `str.lower()` is modelled for ASCII, Latin-1 capitals (À–Þ except ×), Œ and Ÿ. Other scripts' case mappings are not modelled.
- Clock.StrftimeMatchesIsoFormat: holds for four-digit years only. `%Y` prints smaller years unpadded, as the GNU C library does; other C libraries pad them.
- The `isinstance(..., str)` else-branches of `analyze_financial_data`, `make_decision` and `create_action_plan` are not modelled. Tools receive text, so the arguments are always strings here.
- The outer `except Exception` blocks of `make_decision` and `execute_decision` (decision_tools.py:42-43 and 99-100) are not modelled. String concatenation and clock formatting cannot raise, so for the modelled inputs these handlers never run.
- The fallback `trigger_n8n_workflow` defined on `ImportError` is not used by the modelled tools, and the call to it in `execute_decision` is commented out.
