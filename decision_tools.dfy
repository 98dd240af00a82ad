/**
 * The decision agent's tools: a templated decision summary, a numbered
 * action plan and an execution acknowledgement, with the group getter.
 * The clock reading and `json.loads` outcome are parameters; Python's
 * `str()` of a parsed JSON value is the parameter `show`.
 */
module DecisionTools {
  import opened Wrappers
  import opened Text
  import opened JsonValue
  import opened Clock
  import TC = ToolCatalog

  // ---------------------------------------------------------------------
  // make_decision
  // ---------------------------------------------------------------------

  const DecisionHeading := "Décision prise le "
  const CriteriaLabel := "Critères: "
  const OptionsLabel := "Options analysées: "
  const Recommendation := "Recommandation: Analysez les options en fonction des critères fournis."

  /** What `{options_parsed}` prints: the parsed value, or the raw
      string when parsing raised anything at all. */
  function ShownOptions(options: string, parsed: ParseOutcome, show: Json -> string): (r: string)
    ensures parsed.Parsed? ==> r == show(parsed.value)
    ensures !parsed.Parsed? ==> r == options
  {
    if parsed.Parsed? then show(parsed.value) else options
  }

  /** `make_decision(criteria, options)` at clock reading `now`. */
  method MakeDecision(criteria: string, options: string, parsed: ParseOutcome, now: DateTime,
                      show: Json -> string)
    returns (decision: string)
    ensures var stampLine := DecisionHeading + Strftime(now) + "\n";
      var criteriaLine := CriteriaLabel + criteria + "\n";
      var optionsLine := OptionsLabel + ShownOptions(options, parsed, show) + "\n";
      && |decision| == |stampLine| + |criteriaLine| + |optionsLine| + |Recommendation|
      && stampLine <= decision
      && decision[|stampLine|..|stampLine| + |criteriaLine|] == criteriaLine
      && decision[|stampLine| + |criteriaLine|..|decision| - |Recommendation|] == optionsLine
      && EndsWith(decision, Recommendation)
  {
    var optionsParsed := ShownOptions(options, parsed, show);
    ghost var stampLine := DecisionHeading + Strftime(now) + "\n";
    ghost var criteriaLine := CriteriaLabel + criteria + "\n";
    ghost var optionsLine := OptionsLabel + optionsParsed + "\n";
    decision := DecisionHeading + Strftime(now) + "\n";
    decision := decision + (CriteriaLabel + criteria + "\n");
    decision := decision + (OptionsLabel + optionsParsed + "\n");
    decision := decision + Recommendation;
    assert decision == stampLine + criteriaLine + optionsLine + Recommendation;
  }

  // ---------------------------------------------------------------------
  // create_action_plan
  // ---------------------------------------------------------------------

  const PlanGoalLabel := "Plan d'action pour: "
  const PlanDateLabel := "Créé le: "
  const StepsHeading := "Étapes:\n"

  /** The three header lines every plan starts with. */
  function PlanHeader(goal: string, now: DateTime): string {
    PlanGoalLabel + goal + "\n" + PlanDateLabel + Strftime(now) + "\n\n" + StepsHeading
  }

  /** The line `f"{i}. {step}\n"`. */
  function StepLine(i: nat, step: string): string {
    NatToString(i) + ". " + step + "\n"
  }

  /** The lines numbered from `first`, one per element, in list order. */
  function NumberedFrom(items: seq<Json>, show: Json -> string, first: nat): seq<string>
    decreases |items|
  {
    if items == [] then [] else [StepLine(first, show(items[0]))] + NumberedFrom(items[1..], show, first + 1)
  }

  /** What `enumerate(steps_parsed, 1)` numbers. */
  function NumberedSteps(items: seq<Json>, show: Json -> string): seq<string> {
    NumberedFrom(items, show, 1)
  }

  /** Numbering one more element appends one more line with the next number. */
  lemma {:induction false} NumberedFromSnoc(items: seq<Json>, last: Json, show: Json -> string, first: nat)
    ensures NumberedFrom(items + [last], show, first)
         == NumberedFrom(items, show, first) + [StepLine(first + |items|, show(last))]
    decreases |items|
  {
    if items == [] {
      assert items + [last] == [last];
    } else {
      assert (items + [last])[1..] == items[1..] + [last];
      NumberedFromSnoc(items[1..], last, show, first + 1);
    }
  }

  /** The step texts, in list order. */
  function ShownSteps(items: seq<Json>, show: Json -> string): seq<string>
    decreases |items|
  {
    if items == [] then [] else [show(items[0])] + ShownSteps(items[1..], show)
  }

  /** What follows the header: the numbered lines when the steps parse as a
      JSON list, otherwise the raw steps text. */
  function PlanBody(steps: string, parsed: ParseOutcome, show: Json -> string): string {
    if parsed.Parsed? && parsed.value.JArray? then Concat(NumberedSteps(parsed.value.items, show))
    else steps
  }

  /** The `for i, step in enumerate(steps_parsed, 1)` loop: appends one
      numbered line per element, in list order. */
  method AppendNumberedSteps(start: string, items: seq<Json>, show: Json -> string)
    returns (plan: string)
    ensures plan == start + Concat(NumberedSteps(items, show))
  {
    plan := start;
    var i := 0;
    while i < |items|
      invariant 0 <= i <= |items|
      invariant plan == start + Concat(NumberedSteps(items[..i], show))
    {
      assert items[..i + 1] == items[..i] + [items[i]];
      NumberedFromSnoc(items[..i], items[i], show, 1);
      ConcatSnoc(NumberedSteps(items[..i], show), StepLine(i + 1, show(items[i])));
      plan := plan + StepLine(i + 1, show(items[i]));
      i := i + 1;
    }
    assert items[..i] == items;
  }

  /** `create_action_plan(goal, steps)` at clock reading `now`. */
  method CreateActionPlan(goal: string, steps: string, parsed: ParseOutcome, now: DateTime,
                          show: Json -> string)
    returns (plan: string)
    ensures PlanHeader(goal, now) <= plan
    ensures plan[|PlanHeader(goal, now)|..] == PlanBody(steps, parsed, show)
  {
    plan := PlanGoalLabel + goal + "\n";
    plan := plan + PlanDateLabel + Strftime(now) + "\n\n";
    plan := plan + StepsHeading;
    ghost var header := plan;
    assert header == PlanHeader(goal, now);
    if parsed.Parsed? && parsed.value.JArray? {
      plan := AppendNumberedSteps(plan, parsed.value.items, show);
    } else {
      plan := plan + steps;
    }
    assert plan == header + PlanBody(steps, parsed, show);
  }

  /** Reads numbered lines back, expecting `k.`, `k+1.`, ... in turn;
      returns the text after each number. */
  function ReadNumberedLines(s: string, k: nat): Option<seq<string>>
    decreases |s|
  {
    if s == [] then Some([])
    else
      var prefix := NatToString(k) + ". ";
      if !(prefix <= s) then None
      else
        var rest := s[|prefix|..];
        if '\n' !in rest then None
        else
          var end := IndexOf('\n', rest);
          match ReadNumberedLines(rest[end + 1..], k + 1)
          case None => None
          case Some(more) => Some([rest[..end]] + more)
  }

  /** Every step text, rendered without line breaks. */
  predicate SingleLine(items: seq<Json>, show: Json -> string) {
    forall k :: 0 <= k < |items| ==> '\n' !in show(items[k])
  }

  /** One numbered line is read back to its text, then reading goes on
      with the next number. */
  lemma ReadOneStep(step: string, rest: string, k: nat)
    requires '\n' !in step
    ensures ReadNumberedLines(StepLine(k, step) + rest, k)
         == match ReadNumberedLines(rest, k + 1)
            case None => None
            case Some(more) => Some([step] + more)
  {
    var prefix := NatToString(k) + ". ";
    var s := StepLine(k, step) + rest;
    var after := step + "\n" + rest;
    assert s == prefix + after;
    assert s[|prefix|..] == after;
    IndexOfAfter('\n', step, rest);
    assert after[|step| + 1..] == rest;
    assert after[..|step|] == step;
  }

  /** The numbered lines read back to the steps, in list order and numbered
      from `first`, as long as no step text breaks its line. */
  lemma {:induction false} NumberedLinesRoundTrip(items: seq<Json>, show: Json -> string, first: nat)
    requires SingleLine(items, show)
    ensures ReadNumberedLines(Concat(NumberedFrom(items, show, first)), first) == Some(ShownSteps(items, show))
    decreases |items|
  {
    if items != [] {
      NumberedLinesRoundTrip(items[1..], show, first + 1);
      ReadOneStep(show(items[0]), Concat(NumberedFrom(items[1..], show, first + 1)), first);
    }
  }

  /** When the steps are a JSON list of N single-line elements, the plan
      body is exactly N lines `1. <step>` ... `N. <step>`, in list order. */
  lemma PlanListsStepsInOrder(steps: string, parsed: ParseOutcome, show: Json -> string)
    requires parsed.Parsed? && parsed.value.JArray?
    requires SingleLine(parsed.value.items, show)
    ensures ReadNumberedLines(PlanBody(steps, parsed, show), 1) == Some(ShownSteps(parsed.value.items, show))
    ensures Count('\n', PlanBody(steps, parsed, show)) == |parsed.value.items|
  {
    NumberedLinesRoundTrip(parsed.value.items, show, 1);
    NumberedLinesCount(parsed.value.items, show, 1);
  }

  /** For any parsed list, the plan body has one newline per step plus
      those inside the step texts. */
  lemma PlanBodyNewlines(steps: string, parsed: ParseOutcome, show: Json -> string)
    requires parsed.Parsed? && parsed.value.JArray?
    ensures Count('\n', PlanBody(steps, parsed, show))
         == |parsed.value.items| + StepNewlines(parsed.value.items, show)
  {
    NumberedLinesNewlines(parsed.value.items, show, 1);
  }

  /** Line `k` of the numbering is element `k` with number `first + k`,
      and there is exactly one line per element. */
  lemma {:induction false} NumberedFromAt(items: seq<Json>, show: Json -> string, first: nat)
    ensures |NumberedFrom(items, show, first)| == |items|
    ensures forall k :: 0 <= k < |items| ==>
      NumberedFrom(items, show, first)[k] == StepLine(first + k, show(items[k]))
    decreases |items|
  {
    if items != [] {
      var rest := NumberedFrom(items[1..], show, first + 1);
      assert NumberedFrom(items, show, first) == [StepLine(first, show(items[0]))] + rest;
      NumberedFromAt(items[1..], show, first + 1);
      forall k | 0 < k < |items|
        ensures NumberedFrom(items, show, first)[k] == StepLine(first + k, show(items[k]))
      {
        assert NumberedFrom(items, show, first)[k] == rest[k - 1];
        assert items[1..][k - 1] == items[k];
        assert (first + 1) + (k - 1) == first + k;
      }
    }
  }

  /** The newlines inside the step texts, summed over the list. */
  function StepNewlines(items: seq<Json>, show: Json -> string): nat
    decreases |items|
  {
    if items == [] then 0 else Count('\n', show(items[0])) + StepNewlines(items[1..], show)
  }

  /** For any list, the numbered lines hold one newline per step plus the
      newlines the step texts themselves contain. */
  lemma {:induction false} NumberedLinesNewlines(items: seq<Json>, show: Json -> string, first: nat)
    ensures Count('\n', Concat(NumberedFrom(items, show, first))) == |items| + StepNewlines(items, show)
    decreases |items|
  {
    if items != [] {
      NumberedLinesNewlines(items[1..], show, first + 1);
      var step := show(items[0]);
      var number := NatToString(first);
      var line := StepLine(first, step);
      assert line == number + (". " + step + "\n");
      CountConcat('\n', line, Concat(NumberedFrom(items[1..], show, first + 1)));
      CountConcat('\n', number, ". " + step + "\n");
      CountConcat('\n', ". " + step, "\n");
      CountConcat('\n', ". ", step);
      CountAbsent('\n', number);
    }
  }

  /** Single-line step texts contribute no newlines of their own. */
  lemma {:induction false} SingleLineNoNewlines(items: seq<Json>, show: Json -> string)
    requires SingleLine(items, show)
    ensures StepNewlines(items, show) == 0
    decreases |items|
  {
    if items != [] {
      CountAbsent('\n', show(items[0]));
      forall k | 0 <= k < |items| - 1
        ensures '\n' !in show(items[1..][k])
      {
        assert items[1..][k] == items[k + 1];
      }
      SingleLineNoNewlines(items[1..], show);
    }
  }

  /** With single-line step texts, the numbered lines hold exactly one
      newline per step. */
  lemma NumberedLinesCount(items: seq<Json>, show: Json -> string, first: nat)
    requires SingleLine(items, show)
    ensures Count('\n', Concat(NumberedFrom(items, show, first))) == |items|
  {
    NumberedLinesNewlines(items, show, first);
    SingleLineNoNewlines(items, show);
  }

  // ---------------------------------------------------------------------
  // execute_decision
  // ---------------------------------------------------------------------

  const ExecutedLabel := "Décision exécutée: "
  const ActionLabel := "Action: "
  const TimestampLabel := "Timestamp: "

  /** `execute_decision(decision, action)` at clock reading `now`: an
      acknowledgement only; no workflow is triggered. */
  method ExecuteDecision(decision: string, action: string, now: DateTime) returns (result: string)
    ensures var decisionLine := ExecutedLabel + decision + "\n";
      var actionLine := ActionLabel + action + "\n";
      && |result| == |decisionLine| + |actionLine| + |TimestampLabel + IsoFormat(now) + "\n"|
      && decisionLine <= result
      && result[|decisionLine|..|decisionLine| + |actionLine|] == actionLine
      && EndsWith(result, TimestampLabel + IsoFormat(now) + "\n")
  {
    ghost var decisionLine := ExecutedLabel + decision + "\n";
    ghost var actionLine := ActionLabel + action + "\n";
    ghost var stampLine := TimestampLabel + IsoFormat(now) + "\n";
    result := ExecutedLabel + decision + "\n";
    result := result + (ActionLabel + action + "\n");
    result := result + (TimestampLabel + IsoFormat(now) + "\n");
    assert result == decisionLine + actionLine + stampLine;
  }

  /** The acknowledgement's last line carries the clock reading, which is
      read back from it. */
  lemma ExecutionTimestampReadable(result: string, now: DateTime)
    requires Valid(now)
    requires EndsWith(result, TimestampLabel + IsoFormat(now) + "\n")
    ensures var stamp := IsoFormat(now);
      ParseStamp(result[|result| - |stamp| - 1..|result| - 1], 'T') == Some(now)
  {
    var stamp := IsoFormat(now);
    var line := TimestampLabel + stamp + "\n";
    var n := |result| - |line|;
    assert result[n..] == line;
    forall k | 0 <= k < |stamp|
      ensures result[|result| - |stamp| - 1..|result| - 1][k] == stamp[k]
    {
      assert result[n + |TimestampLabel| + k] == result[n..][|TimestampLabel| + k];
      assert line[|TimestampLabel| + k] == stamp[k];
    }
    assert result[|result| - |stamp| - 1..|result| - 1] == stamp;
    IsoFormatRoundTrip(now);
  }

  // ---------------------------------------------------------------------
  // get_decision_tools
  // ---------------------------------------------------------------------

  const MakeDecisionDescription := "Prend une décision basée sur des critères et options. Utilise cet outil pour choisir entre plusieurs opportunités ou stratégies."
  const CreateActionPlanDescription := "Crée un plan d'action détaillé pour atteindre un objectif. Utile pour planifier l'exécution d'une décision."
  const ExecuteDecisionDescription := "Exécute une décision en déclenchant les actions nécessaires. Peut déclencher des workflows n8n ou d'autres automatisations."

  /** `get_decision_tools()`: MakeDecision, CreateActionPlan and
      ExecuteDecision, in that order, each bound to its function. */
  function GetDecisionTools(): (r: seq<TC.Tool>)
    ensures TC.Names(r) == ["MakeDecision", "CreateActionPlan", "ExecuteDecision"]
    ensures |r| == 3 && r[0].func == TC.MakeDecisionFunc && r[1].func == TC.CreateActionPlanFunc
      && r[2].func == TC.ExecuteDecisionFunc
  {
    [ TC.Tool("MakeDecision", TC.MakeDecisionFunc, MakeDecisionDescription),
      TC.Tool("CreateActionPlan", TC.CreateActionPlanFunc, CreateActionPlanDescription),
      TC.Tool("ExecuteDecision", TC.ExecuteDecisionFunc, ExecuteDecisionDescription) ]
  }
}
