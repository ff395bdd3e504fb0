/** The pure logic of backend/cpic_api.py around its network client: the
    keyword classification of guideline text, the extraction of monitoring
    parameters, the choice of a recommendation row among those fetched, the
    gene lookup over fetched gene-drug pairs, and the way a missing phenotype
    short-circuits the full lookup. Fetched rows are parameters. */
module Cpic {
  import opened Wrappers
  import opened Text
  import opened Records

  // ---------------------------------------------------------------------
  // _classify_recommendation
  // ---------------------------------------------------------------------

  /** (risk label, severity, urgency). */
  datatype Classification = Classification(riskLabel: string, severity: string, urgency: string)

  const ToxicKeywords: seq<string> := [
    "avoid", "contraindicated", "do not use", "not recommended",
    "fatal", "life-threatening", "severe toxicity", "significantly increased risk",
    "extremely high risk", "potentially fatal", "serious adverse"]
  const CriticalKeywords: seq<string> := ["fatal", "life-threatening", "extremely", "contraindicated"]
  const IneffectiveKeywords: seq<string> := [
    "no therapeutic effect", "lack of efficacy", "reduced activation",
    "no response", "treatment failure", "insufficient response",
    "significantly reduced", "markedly reduced"]
  const AdjustKeywords: seq<string> := [
    "reduce dose", "lower dose", "decrease dose", "dose reduction",
    "increase dose", "higher dose", "alternative drug", "alternative agent",
    "consider an alternative", "select alternative", "use with caution",
    "increased risk", "moderate risk", "dose adjust", "reduced dose",
    "start with", "initiate at", "max dose", "maximum dose",
    "limit dose"]
  const AdjustHighKeywords: seq<string> := ["50%", "80%", "significantly"]
  const SafeKeywords: seq<string> := [
    "standard", "no change", "normal", "use recommended",
    "initiate therapy", "no dose adjustment", "label-recommended",
    "no actionable", "no significant"]

  /** The lower-cased text the rules are matched against. */
  function ClassifiedText(recText: string, implication: string): string {
    Lower(recText + " " + implication)
  }

  /** No keyword of any rule group occurs in `text`. */
  predicate NoGroupMatches(text: string) {
    !ContainsAny(text, ToxicKeywords) && !ContainsAny(text, IneffectiveKeywords)
    && !ContainsAny(text, AdjustKeywords) && !ContainsAny(text, SafeKeywords)
  }

  /** `_classify_recommendation`: the groups are tried in order (toxic,
      ineffective, dose adjustment, standard therapy) and the first group
      with a keyword in the text decides; a stronger keyword inside the group
      raises severity and urgency. The strength argument is not consulted. */
  function ClassifyRecommendation(recText: string, implication: string, strength: string): (c: Classification)
    ensures var text := ClassifiedText(recText, implication);
      && (c.riskLabel == "Toxic" <==> ContainsAny(text, ToxicKeywords))
      && (c.riskLabel == "Toxic" ==> (c.severity == "critical" <==> ContainsAny(text, CriticalKeywords)))
      && (c.riskLabel == "Unknown" <==> NoGroupMatches(text) && Strip(recText) == "")
      && (NoGroupMatches(text) && Strip(recText) != "" ==> c == Classification("Adjust Dosage", "low", "routine"))
  {
    var text := ClassifiedText(recText, implication);
    if ContainsAny(text, ToxicKeywords) then
      if ContainsAny(text, CriticalKeywords) then Classification("Toxic", "critical", "emergent")
      else Classification("Toxic", "high", "urgent")
    else if ContainsAny(text, IneffectiveKeywords) then
      if Contains(text, "significantly") || Contains(text, "markedly") || Contains(text, "no ") then
        Classification("Ineffective", "high", "urgent")
      else Classification("Ineffective", "moderate", "soon")
    else if ContainsAny(text, AdjustKeywords) then
      if ContainsAny(text, AdjustHighKeywords) then Classification("Adjust Dosage", "high", "urgent")
      else Classification("Adjust Dosage", "moderate", "soon")
    else if ContainsAny(text, SafeKeywords) then Classification("Safe", "none", "routine")
    else if Strip(recText) != "" then Classification("Adjust Dosage", "low", "routine")
    else Classification("Unknown", "unknown", "routine")
  }

  /** One row of the declarative rule table: the group's keywords, the
      keywords that raise it, and the two outcomes. */
  datatype Rule = Rule(keywords: seq<string>, raising: seq<string>, raised: Classification, plain: Classification)

  /** The classification rules as data, in priority order. */
  const RuleTable: seq<Rule> := [
    Rule(ToxicKeywords, CriticalKeywords,
      Classification("Toxic", "critical", "emergent"), Classification("Toxic", "high", "urgent")),
    Rule(IneffectiveKeywords, ["significantly", "markedly", "no "],
      Classification("Ineffective", "high", "urgent"), Classification("Ineffective", "moderate", "soon")),
    Rule(AdjustKeywords, AdjustHighKeywords,
      Classification("Adjust Dosage", "high", "urgent"), Classification("Adjust Dosage", "moderate", "soon")),
    Rule(SafeKeywords, [],
      Classification("Safe", "none", "routine"), Classification("Safe", "none", "routine"))]

  /** Top-to-bottom evaluation of a rule table: the first rule with a keyword
      in the text gives the outcome. */
  function FirstMatchingRule(rules: seq<Rule>, text: string): Option<Classification> {
    if rules == [] then None
    else if ContainsAny(text, rules[0].keywords) then
      Some(if ContainsAny(text, rules[0].raising) then rules[0].raised else rules[0].plain)
    else FirstMatchingRule(rules[1..], text)
  }

  lemma AnyOfThree(text: string, a: string, b: string, c: string)
    ensures ContainsAny(text, [a, b, c]) <==> Contains(text, a) || Contains(text, b) || Contains(text, c)
  {
    var kws := [a, b, c];
    if Contains(text, a) { assert Contains(text, kws[0]); }
    if Contains(text, b) { assert Contains(text, kws[1]); }
    if Contains(text, c) { assert Contains(text, kws[2]); }
  }

  /** The if-chain of the classifier is exactly first-match evaluation of the
      rule table, with the two defaults when no rule matches. */
  lemma ClassifyIsFirstMatch(recText: string, implication: string, strength: string)
    ensures var text := ClassifiedText(recText, implication);
      ClassifyRecommendation(recText, implication, strength) ==
        match FirstMatchingRule(RuleTable, text)
        case Some(c) => c
        case None =>
          if Strip(recText) != "" then Classification("Adjust Dosage", "low", "routine")
          else Classification("Unknown", "unknown", "routine")
  {
    var text := ClassifiedText(recText, implication);
    var t1, t2, t3 := RuleTable[1..], RuleTable[2..], RuleTable[3..];
    assert t1[1..] == t2 && t2[1..] == t3 && t3[1..] == [];
    AnyOfThree(text, "significantly", "markedly", "no ");
    assert !ContainsAny(text, []);
    assert FirstMatchingRule([], text) == None;
    if !ContainsAny(text, ToxicKeywords) {
      assert FirstMatchingRule(RuleTable, text) == FirstMatchingRule(t1, text);
      if !ContainsAny(text, IneffectiveKeywords) {
        assert FirstMatchingRule(t1, text) == FirstMatchingRule(t2, text);
        if !ContainsAny(text, AdjustKeywords) {
          assert FirstMatchingRule(t2, text) == FirstMatchingRule(t3, text);
        }
      }
    }
  }

  /** The strength argument never changes the classification. */
  lemma StrengthIgnored(recText: string, implication: string, s1: string, s2: string)
    ensures ClassifyRecommendation(recText, implication, s1) == ClassifyRecommendation(recText, implication, s2)
  {
  }

  /** Toxic keywords take precedence: a text that speaks of a "significantly
      increased risk" is Toxic, although "increased risk" is also a
      dose-adjustment keyword. */
  lemma ToxicTakesPrecedence(recText: string, implication: string, strength: string)
    requires Contains(ClassifiedText(recText, implication), "significantly increased risk")
    ensures ClassifyRecommendation(recText, implication, strength).riskLabel == "Toxic"
    ensures ContainsAny(ClassifiedText(recText, implication), AdjustKeywords)
  {
    var text := ClassifiedText(recText, implication);
    assert Contains(text, ToxicKeywords[7]);
    assert Contains("significantly increased risk", "increased risk") by {
      assert OccursAt("significantly increased risk", "increased risk", 14);
    }
    ContainsTrans(text, "significantly increased risk", "increased risk");
    assert Contains(text, AdjustKeywords[11]);
  }

  /** A fatal outcome in the text is always critical and emergent. */
  lemma FatalIsCritical(recText: string, implication: string, strength: string)
    requires Contains(ClassifiedText(recText, implication), "fatal")
    ensures ClassifyRecommendation(recText, implication, strength) == Classification("Toxic", "critical", "emergent")
  {
    var text := ClassifiedText(recText, implication);
    assert Contains(text, ToxicKeywords[4]);
    assert Contains(text, CriticalKeywords[0]);
  }

  // ---------------------------------------------------------------------
  // _extract_monitoring
  // ---------------------------------------------------------------------

  /** Keyword to monitoring-parameter label, in dictionary order. */
  const MonitorTerms: seq<(string, string)> := [
    ("inr", "INR monitoring"), ("cbc", "Complete blood count"),
    ("liver function", "Liver function tests"), ("lft", "Liver function tests"),
    ("ck level", "CK levels"), ("creatine kinase", "CK levels"),
    ("platelet", "Platelet function"), ("bleeding", "Monitor for bleeding"),
    ("renal", "Renal function"), ("therapeutic drug monitoring", "TDM"),
    ("ecg", "ECG monitoring"), ("qtc", "QTc monitoring"),
    ("blood pressure", "Blood pressure"), ("serum level", "Serum drug levels"),
    ("toxicity", "Monitor for toxicity signs")]

  /** The labels of the first `n` terms whose keyword occurs in `lower`. */
  function MatchedLabelsUpTo(lower: string, n: nat): set<string>
    requires n <= |MonitorTerms|
  {
    set j | 0 <= j < n && Contains(lower, MonitorTerms[j].0) :: MonitorTerms[j].1
  }

  lemma MatchedLabelsStep(lower: string, n: nat)
    requires n < |MonitorTerms|
    ensures MatchedLabelsUpTo(lower, n + 1) ==
      MatchedLabelsUpTo(lower, n) + (if Contains(lower, MonitorTerms[n].0) then {MonitorTerms[n].1} else {})
  {
  }

  /** Every label whose keyword occurs in the lower-cased text. */
  function MatchedLabels(text: string): set<string> {
    MatchedLabelsUpTo(Lower(text), |MonitorTerms|)
  }

  /** `_extract_monitoring`: the labels of the keywords found in the
      lower-cased text, without duplicates and at most five. Which five, when
      more match, follows the iteration order of a Python set, which the
      model leaves open. */
  method ExtractMonitoring(text: string) returns (r: seq<string>)
    ensures Distinct(r) && |r| <= 5
    ensures Elems(r) <= MatchedLabels(text)
    ensures |r| == if |MatchedLabels(text)| < 5 then |MatchedLabels(text)| else 5
  {
    var monitors := CollectMonitors(Lower(text));
    r := TakeDistinct(Elems(monitors), 5);
  }

  /** The labels of the matching terms, in term order (repeated where two
      terms share a label). */
  method CollectMonitors(lower: string) returns (monitors: seq<string>)
    ensures Elems(monitors) == MatchedLabelsUpTo(lower, |MonitorTerms|)
  {
    monitors := [];
    var k := 0;
    while k < |MonitorTerms|
      invariant 0 <= k <= |MonitorTerms|
      invariant Elems(monitors) == MatchedLabelsUpTo(lower, k)
    {
      MatchedLabelsStep(lower, k);
      var (keyword, monitor) := MonitorTerms[k];
      if Contains(lower, keyword) {
        assert Elems(monitors + [monitor]) == Elems(monitors) + {monitor};
        monitors := monitors + [monitor];
      }
      k := k + 1;
    }
  }

  /** Up to `limit` distinct members of `pool`, in an unspecified order
      (the `list(set(...))[:limit]` idiom). */
  method TakeDistinct(pool: set<string>, limit: nat) returns (r: seq<string>)
    ensures Distinct(r) && Elems(r) <= pool
    ensures |r| == if |pool| < limit then |pool| else limit
  {
    var rest := pool;
    r := [];
    while |r| < limit && rest != {}
      invariant Distinct(r) && |r| <= limit
      invariant Elems(r) !! rest && Elems(r) + rest == pool
      invariant |r| + |rest| == |pool|
      decreases rest
    {
      var x :| x in rest;
      assert Elems(r + [x]) == Elems(r) + {x};
      r := r + [x];
      rest := rest - {x};
    }
  }

  // ---------------------------------------------------------------------
  // cpic_find_gene_for_drug
  // ---------------------------------------------------------------------

  /** One CPIC gene-drug pair as fetched: gene symbol, drug name, CPIC level. */
  datatype GeneDrugPair = GeneDrugPair(gene: string, drug: string, level: string)

  predicate ExactLevelAB(p: GeneDrugPair, query: string) {
    Lower(p.drug) == query && (p.level == "A" || p.level == "B")
  }

  predicate NameContains(p: GeneDrugPair, query: string) {
    Contains(Lower(p.drug), query)
  }

  function IndexExactAB(pairs: seq<GeneDrugPair>, query: string): (k: nat)
    ensures k <= |pairs|
    ensures k < |pairs| ==> ExactLevelAB(pairs[k], query)
    ensures forall j :: 0 <= j < k ==> !ExactLevelAB(pairs[j], query)
  {
    if pairs == [] then 0
    else if ExactLevelAB(pairs[0], query) then 0
    else 1 + IndexExactAB(pairs[1..], query)
  }

  function IndexContaining(pairs: seq<GeneDrugPair>, query: string): (k: nat)
    ensures k <= |pairs|
    ensures k < |pairs| ==> NameContains(pairs[k], query)
    ensures forall j :: 0 <= j < k ==> !NameContains(pairs[j], query)
  {
    if pairs == [] then 0
    else if NameContains(pairs[0], query) then 0
    else 1 + IndexContaining(pairs[1..], query)
  }

  /** `cpic_find_gene_for_drug` over the fetched pairs: the gene of the first
      level A or B pair named exactly like the drug (ignoring case), else
      the gene of the first pair whose name contains the drug's name. */
  function FindGeneForDrug(pairs: seq<GeneDrugPair>, drug: string): (r: Option<string>)
    ensures var q := Lower(drug);
      r.None? <==> forall j :: 0 <= j < |pairs| ==> !NameContains(pairs[j], q)
  {
    var q := Lower(drug);
    var i := IndexExactAB(pairs, q);
    if i < |pairs| then
      assert OccursAt(Lower(pairs[i].drug), q, 0);
      Some(pairs[i].gene)
    else
      var j := IndexContaining(pairs, q);
      if j < |pairs| then Some(pairs[j].gene) else None
  }

  /** An exact level A/B match wins over any earlier partial match. */
  lemma ExactMatchPreferred(pairs: seq<GeneDrugPair>, drug: string, k: nat)
    requires k < |pairs| && ExactLevelAB(pairs[k], Lower(drug))
    requires forall j :: 0 <= j < k ==> !ExactLevelAB(pairs[j], Lower(drug))
    ensures FindGeneForDrug(pairs, drug) == Some(pairs[k].gene)
  {
    var i := IndexExactAB(pairs, Lower(drug));
    assert i == k;
  }

  /** Without an exact level A/B match, the first pair containing the name decides. */
  lemma PartialMatchFallback(pairs: seq<GeneDrugPair>, drug: string, k: nat)
    requires forall j :: 0 <= j < |pairs| ==> !ExactLevelAB(pairs[j], Lower(drug))
    requires k < |pairs| && NameContains(pairs[k], Lower(drug))
    requires forall j :: 0 <= j < k ==> !NameContains(pairs[j], Lower(drug))
    ensures FindGeneForDrug(pairs, drug) == Some(pairs[k].gene)
  {
    var i := IndexExactAB(pairs, Lower(drug));
    assert i == |pairs|;
    var j := IndexContaining(pairs, Lower(drug));
    assert j == k;
  }

  // ---------------------------------------------------------------------
  // cpic_get_recommendation (row choice) and _normalize_recommendation
  // ---------------------------------------------------------------------

  /** One fetched recommendation row. `population` is None where the row has
      none; `lookupKey` and `implications` are keyed by gene symbol. */
  datatype RecommendationRow = RecommendationRow(
    population: Option<string>,
    lookupKey: map<string, string>,
    drugRecommendation: string,
    implications: Implications,
    strength: string,
    comments: string,
    guidelineName: string)

  /** A row's `implications`: a dictionary keyed by gene symbol (an absent
      field is the empty one), or any other value, which is read through its
      string form `str(...)`. */
  datatype Implications = PerGene(byGene: map<string, string>) | Other(text: string)

  /** The implication text handed to the classifier for `gene`. */
  function ImplicationText(imp: Implications, gene: string): string {
    match imp
    case PerGene(m) => if gene in m then m[gene] else ""
    case Other(text) => text
  }

  /** The row is meant for the general population (or names none). */
  predicate IsGeneralPopulation(row: RecommendationRow) {
    var pop := Lower(row.population.GetOr(""));
    pop == "general" || pop == ""
  }

  /** The row's lookup key gives `phenotype` for `gene`, ignoring case. */
  predicate MatchesPhenotype(row: RecommendationRow, gene: string, phenotype: string) {
    Lower(if gene in row.lookupKey then row.lookupKey[gene] else "") == Lower(phenotype)
  }

  /** `k` is the first general-population row of `rows`. */
  predicate IsFirstGeneral(rows: seq<RecommendationRow>, k: int) {
    0 <= k < |rows| && IsGeneralPopulation(rows[k])
    && forall j :: 0 <= j < k ==> !IsGeneralPopulation(rows[j])
  }

  /** `k` is the first row of `rows` whose lookup key gives `phenotype`. */
  predicate IsFirstMatching(rows: seq<RecommendationRow>, k: int, gene: string, phenotype: string) {
    0 <= k < |rows| && MatchesPhenotype(rows[k], gene, phenotype)
    && forall j :: 0 <= j < k ==> !MatchesPhenotype(rows[j], gene, phenotype)
  }

  /** The row choice of `cpic_get_recommendation`. Rows fetched with the
      phenotype filter come first: the first general-population row, else the
      first row. Only when that query returned nothing, the rows fetched for
      the drug alone are searched for the first whose lookup key gives the
      phenotype. No drug identifier means no recommendation. */
  ghost predicate RowChoice(drugId: Option<string>, gene: string, phenotype: string,
                      filtered: seq<RecommendationRow>, broader: seq<RecommendationRow>, r: Option<RecommendationRow>)
  {
    && (drugId.None? || drugId.value == "" ==> r.None?)
    && (drugId.Some? && drugId.value != "" && |filtered| > 0 ==>
          r.Some? &&
          ((exists k :: IsFirstGeneral(filtered, k) && r.value == filtered[k]) ||
           ((forall j :: 0 <= j < |filtered| ==> !IsGeneralPopulation(filtered[j])) && r.value == filtered[0])))
    && (drugId.Some? && drugId.value != "" && |filtered| == 0 ==>
          (r.None? <==> forall j :: 0 <= j < |broader| ==> !MatchesPhenotype(broader[j], gene, phenotype)) &&
          (r.Some? ==> exists k :: IsFirstMatching(broader, k, gene, phenotype) && r.value == broader[k]))
  }

  /** The loops of `cpic_get_recommendation` that pick the row. */
  method SelectRecommendationRow(drugId: Option<string>, gene: string, phenotype: string,
                                 filtered: seq<RecommendationRow>, broader: seq<RecommendationRow>)
    returns (r: Option<RecommendationRow>)
    ensures RowChoice(drugId, gene, phenotype, filtered, broader, r)
  {
    if drugId.None? || drugId.value == "" {
      return None;
    }
    if |filtered| > 0 {
      var best: Option<RecommendationRow> := None;
      var i := 0;
      while i < |filtered|
        invariant 0 <= i <= |filtered|
        invariant forall j :: 0 <= j < i ==> !IsGeneralPopulation(filtered[j])
      {
        if IsGeneralPopulation(filtered[i]) {
          best := Some(filtered[i]);
          break;
        }
        i := i + 1;
      }
      if best.None? {
        best := Some(filtered[0]);
      } else {
        assert IsFirstGeneral(filtered, i);
      }
      return best;
    }
    var i := 0;
    while i < |broader|
      invariant 0 <= i <= |broader|
      invariant forall j :: 0 <= j < i ==> !MatchesPhenotype(broader[j], gene, phenotype)
    {
      if MatchesPhenotype(broader[i], gene, phenotype) {
        assert IsFirstMatching(broader, i, gene, phenotype);
        return Some(broader[i]);
      }
      i := i + 1;
    }
    return None;
  }

  /** What `_normalize_recommendation` makes of `row`: the classification of
      the recommendation text and the gene's implication, the fixed
      confidence 0.92, the recommendation text as dosing, the guideline name,
      and as monitoring the distinct labels of the matched keywords, five of
      them when more match. */
  predicate NormalizedFrom(g: Guideline, row: RecommendationRow, gene: string, alternatives: seq<string>) {
    var c := ClassifyRecommendation(row.drugRecommendation, ImplicationText(row.implications, gene), row.strength);
    var matched := MatchedLabels(row.drugRecommendation + " " + row.comments);
    && g.risk == RiskAssessment(c.riskLabel, 92, c.severity)
    && g.recommendation.urgency == c.urgency
    && g.recommendation.dosing == row.drugRecommendation
    && g.recommendation.alternatives == alternatives
    && g.recommendation.guidelineRef == row.guidelineName
    && Distinct(g.recommendation.monitoring)
    && Elems(g.recommendation.monitoring) <= matched
    && |g.recommendation.monitoring| == if |matched| < 5 then |matched| else 5
  }

  /** `_normalize_recommendation`. `alternatives` stands for the
      alternative-drug extraction, which is not modelled. */
  method NormalizeRecommendation(row: RecommendationRow, gene: string, alternatives: seq<string>)
    returns (g: Guideline)
    ensures NormalizedFrom(g, row, gene, alternatives)
  {
    var implication := ImplicationText(row.implications, gene);
    var c := ClassifyRecommendation(row.drugRecommendation, implication, row.strength);
    var monitoring := ExtractMonitoring(row.drugRecommendation + " " + row.comments);
    g := Guideline(RiskAssessment(c.riskLabel, 92, c.severity),
                   ClinicalRecommendation(row.drugRecommendation, alternatives, monitoring, row.guidelineName, c.urgency));
  }

  // ---------------------------------------------------------------------
  // cpic_lookup_full
  // ---------------------------------------------------------------------

  /** `cpic_lookup_full`: the phenotype that the diplotype lookup returned
      (None when it found no row) selects a recommendation row, which is
      normalised. Without a non-empty phenotype there is no answer. `row` is
      the row the answer was made from. */
  method LookupFull(diplotypePhenotype: Option<string>, drugId: Option<string>, gene: string,
                    filtered: seq<RecommendationRow>, broader: seq<RecommendationRow>, alternatives: seq<string>)
    returns (r: Option<Guideline>, ghost row: Option<RecommendationRow>)
    ensures r.Some? <==>
      && diplotypePhenotype.Some? && diplotypePhenotype.value != "" && drugId.Some? && drugId.value != ""
      && (|filtered| > 0 || exists k :: 0 <= k < |broader| && MatchesPhenotype(broader[k], gene, diplotypePhenotype.value))
    ensures diplotypePhenotype.Some? && diplotypePhenotype.value != "" ==>
      RowChoice(drugId, gene, diplotypePhenotype.value, filtered, broader, row)
    ensures r.Some? <==> row.Some?
    ensures r.Some? ==> NormalizedFrom(r.value, row.value, gene, alternatives)
  {
    if diplotypePhenotype.None? || diplotypePhenotype.value == "" {
      return None, None;
    }
    var chosen := SelectRecommendationRow(drugId, gene, diplotypePhenotype.value, filtered, broader);
    row := chosen;
    if chosen.None? {
      return None, row;
    }
    var g := NormalizeRecommendation(chosen.value, gene, alternatives);
    return Some(g), row;
  }
}
