/**
 * The tools package: its exported names and `get_available_tools`, which
 * gathers the five tool groups into one list.
 */
module ToolRegistry {
  import opened ToolCatalog
  import AnalysisTools
  import DecisionTools

  /** The package's `__all__`. */
  const ExportedNames: seq<string> := [
    "get_research_tools", "get_analysis_tools", "get_decision_tools",
    "get_n8n_tools", "get_api_tools", "get_available_tools"]

  /** The package exports six distinct names: the five group getters and
      `get_available_tools`. */
  lemma ExportsSixNames()
    ensures |ExportedNames| == 6
    ensures forall i, j :: 0 <= i < j < |ExportedNames| ==> ExportedNames[i] != ExportedNames[j]
  {
    assert ExportedNames[0][4] == 'r' && ExportedNames[1][4] == 'a' && ExportedNames[2][4] == 'd';
    assert ExportedNames[3][4] == 'n' && ExportedNames[4][5] == 'p' && ExportedNames[5][4] == 'a';
    assert ExportedNames[1][5] == 'n' && ExportedNames[4][4] == 'a' && ExportedNames[5][5] == 'v';
  }

  /** The groups in the order `get_available_tools` extends its list with them. */
  function ToolGroups(): seq<seq<Tool>> {
    [ResearchTools(), AnalysisTools.GetAnalysisTools(), DecisionTools.GetDecisionTools(), N8nTools(), ApiTools()]
  }

  /** The groups laid end to end. */
  function Flatten(groups: seq<seq<Tool>>): seq<Tool> {
    if groups == [] then [] else Flatten(groups[..|groups| - 1]) + groups[|groups| - 1]
  }

  /** The sum of the group sizes. */
  function TotalSize(groups: seq<seq<Tool>>): nat {
    if groups == [] then 0 else TotalSize(groups[..|groups| - 1]) + |groups[|groups| - 1]|
  }

  /** Nothing is dropped or merged: the flattened list is as long as all groups together. */
  lemma {:induction false} FlattenSize(groups: seq<seq<Tool>>)
    ensures |Flatten(groups)| == TotalSize(groups)
  {
    if groups != [] {
      FlattenSize(groups[..|groups| - 1]);
    }
  }

  /** Group `k` sits, whole and in its own order, right after the groups before it. */
  lemma {:induction false} FlattenKeepsGroup(groups: seq<seq<Tool>>, k: nat)
    requires k < |groups|
    ensures var start := TotalSize(groups[..k]);
      && start + |groups[k]| <= |Flatten(groups)|
      && Flatten(groups)[start..start + |groups[k]|] == groups[k]
  {
    var init := groups[..|groups| - 1];
    FlattenSize(init);
    if k == |groups| - 1 {
      assert groups[..k] == init;
    } else {
      assert init[..k] == groups[..k];
      assert init[k] == groups[k];
      FlattenKeepsGroup(init, k);
    }
  }

  lemma FlattenStep(groups: seq<seq<Tool>>, k: nat)
    requires 1 <= k <= |groups|
    ensures Flatten(groups[..k]) == Flatten(groups[..k - 1]) + groups[k - 1]
  {
    assert groups[..k][..k - 1] == groups[..k - 1];
  }

  /** `get_available_tools()`: starts from an empty list and extends it with
      the research, analysis, decision, n8n and api groups, in that order. */
  method GetAvailableTools() returns (allTools: seq<Tool>)
    ensures allTools == Flatten(ToolGroups())
    ensures |allTools| == 11
    ensures Names(allTools) == [
      "WebSearch", "MarketAnalysis",
      "CalculateROI", "AnalyzeFinancialData", "EvaluateRisk",
      "MakeDecision", "CreateActionPlan", "ExecuteDecision",
      "TriggerN8NWorkflow", "GetN8NWorkflowStatus",
      "CallOpenRouterAPI"]
  {
    ghost var groups := ToolGroups();
    allTools := [];
    assert allTools == Flatten(groups[..0]);
    allTools := allTools + ResearchTools();
    FlattenStep(groups, 1);
    allTools := allTools + AnalysisTools.GetAnalysisTools();
    FlattenStep(groups, 2);
    allTools := allTools + DecisionTools.GetDecisionTools();
    FlattenStep(groups, 3);
    allTools := allTools + N8nTools();
    FlattenStep(groups, 4);
    allTools := allTools + ApiTools();
    FlattenStep(groups, 5);
    assert groups[..5] == groups;
    NamesConcat(ResearchTools(), AnalysisTools.GetAnalysisTools());
  }
}
