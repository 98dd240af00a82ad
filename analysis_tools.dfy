/**
 * The analysis agent's tools: ROI calculation, financial-data analysis
 * and keyword-based risk evaluation, with the group getter that lists them.
 */
module AnalysisTools {
  import opened Wrappers
  import opened Text
  import opened JsonValue
  import TC = ToolCatalog

  // ---------------------------------------------------------------------
  // calculate_roi
  // ---------------------------------------------------------------------

  const RoiErrorPrefix := "Erreur dans le calcul du ROI: "
  /** The message of the `ZeroDivisionError` that float division raises. */
  const ZeroDivisionMessage := "float division by zero"

  /** What `calculate_roi` reports: the ROI line (its `%.2f` rendering is
      not modelled, the exact percentage is kept) or the error text. */
  datatype RoiReport =
    | RoiLine(period: string, percent: real, investment: real, expectedReturns: real)
    | RoiError(message: string)

  /** Dividing by a zero investment is caught and reported as text; any
      other investment gives the percentage (expectedReturns - investment) / investment * 100. */
  function CalculateRoi(investment: real, expectedReturns: real, period: string := "annuel"): (r: RoiReport)
    ensures r.RoiError? <==> investment == 0.0
    ensures r.RoiError? ==> RoiErrorPrefix <= r.message
    ensures r.RoiLine? ==>
      && r.period == period && r.investment == investment && r.expectedReturns == expectedReturns
      && r.percent * investment == (expectedReturns - investment) * 100.0
  {
    if investment == 0.0 then RoiError(RoiErrorPrefix + ZeroDivisionMessage)
    else RoiLine(period, (expectedReturns - investment) / investment * 100.0, investment, expectedReturns)
  }

  // ---------------------------------------------------------------------
  // analyze_financial_data
  // ---------------------------------------------------------------------

  const StructuredHeader := "Analyse des données financières:\n"
  const CountLabel := "- Nombre d'éléments: "
  const TypeLabel := "- Type de données: "
  const TextHeader := "Analyse des données (format texte):\n"
  const AnalysisErrorPrefix := "Erreur lors de l'analyse: "
  /** How much of unparsable input the text branch echoes. */
  const TextLimit := 500

  function Min(a: nat, b: nat): nat {
    if a <= b then a else b
  }

  /** The two header lines up to where the element count is printed. */
  const CountPrefix := StructuredHeader + CountLabel

  /** Reads back the number printed right after `head`, ended by a newline. */
  function NumberAfter(head: string, report: string): Option<nat> {
    if !(head <= report) then None
    else
      var rest := report[|head|..];
      var n := LeadingDigits(rest);
      if 0 < n < |rest| && rest[n] == '\n' then Some(DigitsValue(rest[..n])) else None
  }

  /** Reads the element count back out of a structured-analysis report. */
  function ReportedCount(report: string): Option<nat> {
    NumberAfter(CountPrefix, report)
  }

  /** The digit run at the start of `digits + "\n" + rest` is `digits`. */
  lemma DigitRunBeforeNewline(digits: string, rest: string)
    requires IsDigits(digits)
    ensures var after := digits + ("\n" + rest);
      && LeadingDigits(after) == |digits| < |after|
      && after[..|digits|] == digits
      && after[|digits|] == '\n'
  {
    LeadingDigitsOf(digits, "\n" + rest);
  }

  /** A number printed after `head` and followed by a newline reads back as its value. */
  lemma NumberAfterLine(head: string, digits: string, rest: string)
    requires |digits| >= 1 && IsDigits(digits)
    ensures var r := head + (digits + ("\n" + rest));
      && |r| == |head| + |digits| + 1 + |rest|
      && head <= r
      && NumberAfter(head, r) == Some(DigitsValue(digits))
      && EndsWith(r, rest)
  {
    var after := digits + ("\n" + rest);
    assert (head + after)[..|head|] == head;
    assert (head + after)[|head|..] == after;
    DigitRunBeforeNewline(digits, rest);
    EndsWithTail(head, digits, "\n" + rest);
    EndsWithTail(head + digits, "\n", rest);
    assert (head + digits) + ("\n" + rest) == head + after;
  }

  /** The layout of a structured report: the count prefix, the digits,
      a newline, then the type line. */
  lemma StructuredLayout(count: string, suffix: string)
    requires |count| >= 1 && IsDigits(count)
    ensures var r := CountPrefix + (count + ("\n" + suffix));
      && |r| == |CountPrefix| + |count| + 1 + |suffix|
      && CountPrefix <= r
      && ReportedCount(r) == Some(DigitsValue(count))
      && EndsWith(r, suffix)
  {
    NumberAfterLine(CountPrefix, count, suffix);
  }

  /** The report on a value `json.loads` produced: its element count and
      its Python type name, and nothing else. */
  function StructuredReport(v: Json): (r: string)
    ensures |r| == |CountPrefix| + |NatToString(ElementCount(v))| + 1 + |TypeLabel + TypeName(v) + "\n"|
    ensures CountPrefix <= r
    ensures ReportedCount(r) == Some(ElementCount(v))
    ensures EndsWith(r, TypeLabel + TypeName(v) + "\n")
  {
    var count := NatToString(ElementCount(v));
    var suffix := TypeLabel + TypeName(v) + "\n";
    StructuredLayout(count, suffix);
    NatToStringRoundTrip(ElementCount(v));
    CountPrefix + (count + ("\n" + suffix))
  }

  /** The report on text that is not JSON: at most its first 500 characters. */
  function TextReport(data: string): (r: string)
    ensures TextHeader <= r
    ensures r[|TextHeader|..] <= data
    ensures |r| == |TextHeader| + Min(|data|, TextLimit)
    ensures ReportedCount(r) == None
  {
    var r := TextHeader + data[..Min(|data|, TextLimit)];
    assert r[20] == '(' && CountPrefix[20] == 'f';
    assert r[|TextHeader|..] == data[..Min(|data|, TextLimit)];
    r
  }

  /** `analyze_financial_data(data)`, given what `json.loads(data)` did. */
  function AnalyzeFinancialData(data: string, parsed: ParseOutcome): (r: string)
    ensures parsed.Parsed? ==>
      && |r| == |CountPrefix| + |NatToString(ElementCount(parsed.value))| + 1
                + |TypeLabel + TypeName(parsed.value) + "\n"|
      && CountPrefix <= r
      && ReportedCount(r) == Some(ElementCount(parsed.value))
      && EndsWith(r, TypeLabel + TypeName(parsed.value) + "\n")
    ensures parsed.DecodeError? ==>
      && TextHeader <= r
      && r[|TextHeader|..] <= data
      && |r| == |TextHeader| + Min(|data|, TextLimit)
      && ReportedCount(r) == None
    ensures parsed.OtherError? ==> r == AnalysisErrorPrefix + parsed.message
  {
    match parsed
    case Parsed(v) => StructuredReport(v)
    case DecodeError => TextReport(data)
    case OtherError(message) => AnalysisErrorPrefix + message
  }

  // ---------------------------------------------------------------------
  // evaluate_risk
  // ---------------------------------------------------------------------

  datatype RiskLevel = High | Medium | Low {
    /** The key of the level in the keyword table. */
    function Key(): string {
      match this
      case High => "high"
      case Medium => "medium"
      case Low => "low"
    }

    /** `Key().upper()`, as the report spells the level. */
    function Label(): string {
      match this
      case High => "HIGH"
      case Medium => "MEDIUM"
      case Low => "LOW"
    }
  }

  const HighKeywords: seq<string> := ["élevé", "important", "significatif", "grand", "haut"]
  const MediumKeywords: seq<string> := ["moyen", "modéré", "acceptable"]
  const LowKeywords: seq<string> := ["faible", "minimal", "réduit", "bas"]

  /** The keyword table, in the insertion order the loop visits it. */
  function RiskKeywords(): seq<(RiskLevel, seq<string>)> {
    [(High, HighKeywords), (Medium, MediumKeywords), (Low, LowKeywords)]
  }

  /** Python's `any(keyword in text for keyword in keywords)`. */
  predicate AnyOccurs(keywords: seq<string>, text: string) {
    exists k :: 0 <= k < |keywords| && Occurs(keywords[k], text)
  }

  /** The level `evaluate_risk` reports: the first of high, medium, low
      whose keyword set matches the lowered text, and medium when none does. */
  function ClassifyRisk(factors: string): RiskLevel {
    var text := Lower(factors);
    if AnyOccurs(HighKeywords, text) then High
    else if AnyOccurs(MediumKeywords, text) then Medium
    else if AnyOccurs(LowKeywords, text) then Low
    else Medium
  }

  const RiskHeader := "Évaluation des risques: "
  const FactorsLabel := "\nFacteurs analysés: "

  /** The report text for a level and the factors as given. */
  function RiskReport(level: RiskLevel, factors: string): string {
    RiskHeader + level.Label() + FactorsLabel + factors
  }

  /** `evaluate_risk(factors)`: scans the keyword table in order, stops at
      the first set with a keyword in the lowered text. */
  method EvaluateRisk(factors: string) returns (report: string)
    ensures report == RiskReport(ClassifyRisk(factors), factors)
  {
    var table := RiskKeywords();
    var lowered := Lower(factors);
    var level := Medium;
    var i := 0;
    while i < |table|
      invariant 0 <= i <= |table|
      invariant forall j :: 0 <= j < i ==> !AnyOccurs(table[j].1, lowered)
      invariant level == Medium
    {
      if AnyOccurs(table[i].1, lowered) {
        level := table[i].0;
        break;
      }
      i := i + 1;
    }
    assert table[0].1 == HighKeywords && table[1].1 == MediumKeywords && table[2].1 == LowKeywords;
    report := RiskReport(level, factors);
  }

  /** Reads a risk report back into its level and the echoed factors. */
  function ParseRiskReport(report: string): Option<(RiskLevel, string)> {
    if !(RiskHeader <= report) then None
    else
      var rest := report[|RiskHeader|..];
      if High.Label() + FactorsLabel <= rest then Some((High, rest[|High.Label() + FactorsLabel|..]))
      else if Medium.Label() + FactorsLabel <= rest then Some((Medium, rest[|Medium.Label() + FactorsLabel|..]))
      else if Low.Label() + FactorsLabel <= rest then Some((Low, rest[|Low.Label() + FactorsLabel|..]))
      else None
  }

  /** A report names exactly one level and echoes the factors unlowered:
      reading it back yields both. */
  lemma RiskReportRoundTrip(level: RiskLevel, factors: string)
    ensures ParseRiskReport(RiskReport(level, factors)) == Some((level, factors))
  {
    var r := RiskReport(level, factors);
    var head := level.Label() + FactorsLabel;
    assert r == RiskHeader + (head + factors);
    assert r[|RiskHeader|..] == head + factors;
    var rest := head + factors;
    assert rest[0] == level.Label()[0];
    assert rest[|head|..] == factors;
  }

  /** Keyword sets matched by index: some keyword of the set starts at some
      position of the text. */
  ghost predicate SetMatches(keywords: seq<string>, text: string) {
    exists k, i :: 0 <= k < |keywords| && OccursAt(keywords[k], text, i)
  }

  lemma AnyOccursIff(keywords: seq<string>, text: string)
    ensures AnyOccurs(keywords, text) <==> SetMatches(keywords, text)
  {
    forall k | 0 <= k < |keywords| {
      OccursIff(keywords[k], text);
    }
  }

  /** The level in terms of keyword positions in the lowered text: high
      exactly when a high keyword occurs, medium when no high keyword does
      but a medium one does, or when no keyword of any set occurs, low
      otherwise. */
  lemma ClassifyRiskByPosition(factors: string)
    ensures var text := Lower(factors);
      && (ClassifyRisk(factors) == High <==> SetMatches(HighKeywords, text))
      && (ClassifyRisk(factors) == Low <==>
            !SetMatches(HighKeywords, text) && !SetMatches(MediumKeywords, text) && SetMatches(LowKeywords, text))
      && (ClassifyRisk(factors) == Medium <==>
            !SetMatches(HighKeywords, text) && (SetMatches(MediumKeywords, text) || !SetMatches(LowKeywords, text)))
  {
    var text := Lower(factors);
    AnyOccursIff(HighKeywords, text);
    AnyOccursIff(MediumKeywords, text);
    AnyOccursIff(LowKeywords, text);
  }

  /** Matching ignores case: the lowered factors classify as the factors. */
  lemma ClassifyRiskIgnoresCase(factors: string)
    ensures ClassifyRisk(Lower(factors)) == ClassifyRisk(factors)
  {
    LowerIdempotent(factors);
  }

  /** A high keyword anywhere forces HIGH, whatever surrounds it (low keywords included). */
  lemma HighKeywordDominates(factors: string, other: string)
    requires ClassifyRisk(factors) == High
    ensures ClassifyRisk(other + factors) == High
    ensures ClassifyRisk(factors + other) == High
  {
    var k :| 0 <= k < |HighKeywords| && Occurs(HighKeywords[k], Lower(factors));
    LowerConcat(other, factors);
    LowerConcat(factors, other);
    OccursInConcat(HighKeywords[k], Lower(other), Lower(factors));
  }

  const CalculateROIDescription := "Calcule le retour sur investissement (ROI) pour un investissement donné. Utile pour évaluer la rentabilité d'une opportunité."
  const AnalyzeFinancialDataDescription := "Analyse des données financières. Accepte du JSON ou du texte. Utile pour analyser les performances, les revenus, etc."
  const EvaluateRiskDescription := "Évalue les risques d'une opportunité financière. Prend en compte les facteurs de risque et retourne une évaluation."

  /** `get_analysis_tools()`: CalculateROI, AnalyzeFinancialData and
      EvaluateRisk, in that order, each bound to its function. */
  function GetAnalysisTools(): (r: seq<TC.Tool>)
    ensures TC.Names(r) == ["CalculateROI", "AnalyzeFinancialData", "EvaluateRisk"]
    ensures |r| == 3 && r[0].func == TC.CalculateRoiFunc && r[1].func == TC.AnalyzeFinancialDataFunc
      && r[2].func == TC.EvaluateRiskFunc
  {
    var tools := [ TC.Tool("CalculateROI", TC.CalculateRoiFunc, CalculateROIDescription),
      TC.Tool("AnalyzeFinancialData", TC.AnalyzeFinancialDataFunc, AnalyzeFinancialDataDescription),
      TC.Tool("EvaluateRisk", TC.EvaluateRiskFunc, EvaluateRiskDescription) ];
    assert TC.Names(tools)[0] == "CalculateROI" && TC.Names(tools)[1] == "AnalyzeFinancialData"
      && TC.Names(tools)[2] == "EvaluateRisk";
    tools
  }
}
