/** Risk assessment of backend/risk_engine.py: the built-in risk matrix and
    clinical recommendations for the six core drugs, the drug-to-gene lookup
    with its fallbacks, and `assess_risk` with its chain of sources (CPIC
    service, guideline database, built-in tables). The two external sources
    are parameters holding what they returned. */
module Risk {
  import opened Wrappers
  import opened Text
  import opened Knowledge
  import opened Phenotype
  import opened Records
  import opened Cpic

  // ---------------------------------------------------------------------
  // RISK_MATRIX and CLINICAL_RECS
  // ---------------------------------------------------------------------

  /** One cell of the risk matrix: label, severity, confidence in hundredths. */
  datatype RiskEntry = RiskEntry(riskLabel: string, severity: string, confidence: nat)

  /** The six drugs the built-in tables cover, the keys of RISK_MATRIX and
      CLINICAL_RECS. */
  datatype CoreDrug = Codeine | Warfarin | Clopidogrel | Simvastatin | Azathioprine | Fluorouracil {
    /** The table key. */
    function Name(): string {
      match this
      case Codeine => "CODEINE"
      case Warfarin => "WARFARIN"
      case Clopidogrel => "CLOPIDOGREL"
      case Simvastatin => "SIMVASTATIN"
      case Azathioprine => "AZATHIOPRINE"
      case Fluorouracil => "FLUOROURACIL"
    }
  }

  /** The table entry keyed by `name`, if any (`name in RISK_MATRIX`). */
  function CoreDrugNamed(name: string): (r: Option<CoreDrug>)
    ensures r.Some? ==> r.value.Name() == name
    ensures r.None? ==> forall c: CoreDrug :: c.Name() != name
  {
    if name == "CODEINE" then Some(Codeine)
    else if name == "WARFARIN" then Some(Warfarin)
    else if name == "CLOPIDOGREL" then Some(Clopidogrel)
    else if name == "SIMVASTATIN" then Some(Simvastatin)
    else if name == "AZATHIOPRINE" then Some(Azathioprine)
    else if name == "FLUOROURACIL" then Some(Fluorouracil)
    else None
  }

  /** The phenotype with code `code`, if any (`phenotype in RISK_MATRIX[drug]`:
      every row of the matrix holds exactly the five codes). */
  function PhenotypeOfCode(code: string): (r: Option<Phenotype>)
    ensures r.Some? ==> r.value.Code() == code
    ensures r.None? ==> forall p: Phenotype :: p.Code() != code
  {
    if code == "PM" then Some(PM)
    else if code == "IM" then Some(IM)
    else if code == "NM" then Some(NM)
    else if code == "RM" then Some(RM)
    else if code == "URM" then Some(URM)
    else None
  }

  /** The RISK_MATRIX cell of a core drug and a phenotype. */
  function MatrixCell(drug: CoreDrug, p: Phenotype): RiskEntry {
    match (drug, p)
    case (Codeine, URM) => RiskEntry("Toxic", "critical", 95)
    case (Codeine, RM) => RiskEntry("Toxic", "high", 88)
    case (Codeine, NM) => RiskEntry("Safe", "none", 92)
    case (Codeine, IM) => RiskEntry("Ineffective", "moderate", 85)
    case (Codeine, PM) => RiskEntry("Ineffective", "high", 95)
    case (Warfarin, URM) => RiskEntry("Adjust Dosage", "low", 80)
    case (Warfarin, RM) => RiskEntry("Adjust Dosage", "low", 80)
    case (Warfarin, NM) => RiskEntry("Safe", "none", 90)
    case (Warfarin, IM) => RiskEntry("Adjust Dosage", "high", 92)
    case (Warfarin, PM) => RiskEntry("Toxic", "critical", 95)
    case (Clopidogrel, URM) => RiskEntry("Safe", "none", 85)
    case (Clopidogrel, RM) => RiskEntry("Safe", "none", 88)
    case (Clopidogrel, NM) => RiskEntry("Safe", "none", 92)
    case (Clopidogrel, IM) => RiskEntry("Adjust Dosage", "moderate", 88)
    case (Clopidogrel, PM) => RiskEntry("Ineffective", "critical", 95)
    case (Simvastatin, URM) => RiskEntry("Safe", "none", 80)
    case (Simvastatin, RM) => RiskEntry("Safe", "none", 85)
    case (Simvastatin, NM) => RiskEntry("Safe", "none", 92)
    case (Simvastatin, IM) => RiskEntry("Adjust Dosage", "moderate", 88)
    case (Simvastatin, PM) => RiskEntry("Toxic", "high", 92)
    case (Azathioprine, URM) => RiskEntry("Safe", "none", 80)
    case (Azathioprine, RM) => RiskEntry("Safe", "none", 85)
    case (Azathioprine, NM) => RiskEntry("Safe", "none", 92)
    case (Azathioprine, IM) => RiskEntry("Adjust Dosage", "high", 90)
    case (Azathioprine, PM) => RiskEntry("Toxic", "critical", 97)
    case (Fluorouracil, URM) => RiskEntry("Safe", "none", 80)
    case (Fluorouracil, RM) => RiskEntry("Safe", "none", 85)
    case (Fluorouracil, NM) => RiskEntry("Safe", "none", 92)
    case (Fluorouracil, IM) => RiskEntry("Adjust Dosage", "high", 90)
    case (Fluorouracil, PM) => RiskEntry("Toxic", "critical", 97)
  }

  /** The CLINICAL_RECS cell of a core drug and a phenotype. */
  function RecommendationCell(drug: CoreDrug, p: Phenotype): ClinicalRecommendation {
    match (drug, p)
    case (Codeine, URM) =>
      ClinicalRecommendation("AVOID codeine. Ultra-rapid CYP2D6 metabolism \U{2192} excess morphine \U{2192} respiratory depression risk.",
        ["Morphine (with caution)", "Non-opioid analgesics (NSAIDs, acetaminophen)"],
        ["Respiratory rate", "Sedation level", "O2 saturation"],
        "CPIC Guideline for CYP2D6 and Codeine Therapy (2019)", "emergent")
    case (Codeine, RM) =>
      ClinicalRecommendation("AVOID codeine. Rapid metabolism may cause excess morphine.",
        ["Morphine (dose-adjusted)", "Non-opioid analgesics"],
        ["Respiratory rate", "Sedation"],
        "CPIC Guideline for CYP2D6 and Codeine Therapy (2019)", "urgent")
    case (Codeine, NM) =>
      ClinicalRecommendation("Use codeine at standard dose. Normal CYP2D6 metabolism.",
        [],
        ["Pain assessment", "Adverse effects"],
        "CPIC Guideline for CYP2D6 and Codeine Therapy (2019)", "routine")
    case (Codeine, IM) =>
      ClinicalRecommendation("Reduced efficacy expected. Consider alternative analgesic.",
        ["Morphine", "Hydromorphone", "Non-opioid analgesics"],
        ["Pain control adequacy"],
        "CPIC Guideline for CYP2D6 and Codeine Therapy (2019)", "soon")
    case (Codeine, PM) =>
      ClinicalRecommendation("AVOID codeine. PMs cannot convert codeine to morphine \U{2014} no analgesic effect.",
        ["Morphine", "Hydromorphone", "Non-opioid analgesics"],
        ["Pain control with alternative"],
        "CPIC Guideline for CYP2D6 and Codeine Therapy (2019)", "urgent")
    case (Warfarin, NM) =>
      ClinicalRecommendation("Standard dose (5 mg/day). Adjust per INR.",
        [],
        ["INR (2.0\U{2013}3.0)", "Bleeding signs"],
        "CPIC Guideline for Warfarin Dosing (2017)", "routine")
    case (Warfarin, IM) =>
      ClinicalRecommendation("Reduce dose 25\U{2013}50%. Intermediate CYP2C9 metabolism.",
        ["Apixaban", "Rivaroxaban"],
        ["INR (frequent)", "Bleeding", "Hemoglobin"],
        "CPIC Guideline for Warfarin Dosing (2017)", "soon")
    case (Warfarin, PM) =>
      ClinicalRecommendation("Reduce dose 50\U{2013}80%. HIGH BLEEDING RISK. Consider DOAC.",
        ["Apixaban", "Rivaroxaban", "Edoxaban"],
        ["INR 2\U{2013}3x/week", "CBC", "Bleeding signs"],
        "CPIC Guideline for Warfarin Dosing (2017)", "urgent")
    case (Warfarin, RM) =>
      ClinicalRecommendation("May need higher dose. INR-guided titration.",
        [],
        ["INR"],
        "CPIC Guideline for Warfarin Dosing (2017)", "routine")
    case (Warfarin, URM) =>
      ClinicalRecommendation("May need higher dose. INR-guided titration.",
        [],
        ["INR"],
        "CPIC Guideline for Warfarin Dosing (2017)", "routine")
    case (Clopidogrel, NM) =>
      ClinicalRecommendation("Standard dose (75 mg/day). Normal bioactivation.",
        [],
        ["Platelet function", "CV events"],
        "CPIC Guideline for CYP2C19 and Clopidogrel (2022)", "routine")
    case (Clopidogrel, RM) =>
      ClinicalRecommendation("Standard dose. Adequate activation.",
        [],
        ["CV monitoring"],
        "CPIC Guideline for CYP2C19 and Clopidogrel (2022)", "routine")
    case (Clopidogrel, URM) =>
      ClinicalRecommendation("Standard dose. Slightly increased bleeding risk possible.",
        [],
        ["Bleeding signs"],
        "CPIC Guideline for CYP2C19 and Clopidogrel (2022)", "routine")
    case (Clopidogrel, IM) =>
      ClinicalRecommendation("Reduced activation. Consider alternative or double dose with monitoring.",
        ["Prasugrel", "Ticagrelor"],
        ["Platelet function", "CV events"],
        "CPIC Guideline for CYP2C19 and Clopidogrel (2022)", "soon")
    case (Clopidogrel, PM) =>
      ClinicalRecommendation("AVOID clopidogrel. Cannot activate prodrug \U{2014} HIGH treatment failure risk.",
        ["Prasugrel", "Ticagrelor"],
        ["Platelet function", "Stent thrombosis"],
        "CPIC Guideline for CYP2C19 and Clopidogrel (2022)", "emergent")
    case (Simvastatin, NM) =>
      ClinicalRecommendation("Standard dose. Normal SLCO1B1 function.",
        [],
        ["LDL-C", "LFTs", "Muscle symptoms"],
        "CPIC Guideline for SLCO1B1 and Statins (2022)", "routine")
    case (Simvastatin, RM) =>
      ClinicalRecommendation("Standard dose.",
        [],
        ["LDL-C", "Muscle symptoms"],
        "CPIC Guideline for SLCO1B1 and Statins (2022)", "routine")
    case (Simvastatin, URM) =>
      ClinicalRecommendation("Standard dose.",
        [],
        ["LDL-C"],
        "CPIC Guideline for SLCO1B1 and Statins (2022)", "routine")
    case (Simvastatin, IM) =>
      ClinicalRecommendation("Limit to \U{2264}20 mg/day. Increased myopathy risk.",
        ["Pravastatin", "Rosuvastatin"],
        ["CK levels", "Muscle pain", "LDL-C"],
        "CPIC Guideline for SLCO1B1 and Statins (2022)", "soon")
    case (Simvastatin, PM) =>
      ClinicalRecommendation("AVOID simvastatin. High myopathy/rhabdomyolysis risk.",
        ["Pravastatin", "Rosuvastatin", "Fluvastatin"],
        ["CK", "Renal function", "Muscle symptoms"],
        "CPIC Guideline for SLCO1B1 and Statins (2022)", "urgent")
    case (Azathioprine, NM) =>
      ClinicalRecommendation("Standard dose (2\U{2013}3 mg/kg/day). Normal TPMT.",
        [],
        ["CBC", "LFTs"],
        "CPIC Guideline for TPMT and Thiopurines (2018)", "routine")
    case (Azathioprine, RM) =>
      ClinicalRecommendation("Standard dose.",
        [],
        ["CBC", "LFTs"],
        "CPIC Guideline for TPMT and Thiopurines (2018)", "routine")
    case (Azathioprine, URM) =>
      ClinicalRecommendation("May need higher dose. Monitor response.",
        [],
        ["TGN levels", "CBC"],
        "CPIC Guideline for TPMT and Thiopurines (2018)", "routine")
    case (Azathioprine, IM) =>
      ClinicalRecommendation("Reduce dose 30\U{2013}80%. Start 0.5\U{2013}1.5 mg/kg/day.",
        ["Mycophenolate mofetil"],
        ["CBC weekly then biweekly", "LFTs", "TGN levels"],
        "CPIC Guideline for TPMT and Thiopurines (2018)", "urgent")
    case (Azathioprine, PM) =>
      ClinicalRecommendation("AVOID or reduce 90%. LIFE-THREATENING myelosuppression risk.",
        ["Mycophenolate mofetil"],
        ["CBC 2\U{2013}3x/week", "ANC", "TGN levels"],
        "CPIC Guideline for TPMT and Thiopurines (2018)", "emergent")
    case (Fluorouracil, NM) =>
      ClinicalRecommendation("Standard dose. Normal DPD activity.",
        [],
        ["CBC", "Mucositis", "Hand-foot syndrome"],
        "CPIC Guideline for DPYD and Fluoropyrimidines (2017)", "routine")
    case (Fluorouracil, RM) =>
      ClinicalRecommendation("Standard dose.",
        [],
        ["CBC", "Toxicity"],
        "CPIC Guideline for DPYD and Fluoropyrimidines (2017)", "routine")
    case (Fluorouracil, URM) =>
      ClinicalRecommendation("Standard dose. May have reduced efficacy.",
        [],
        ["Treatment response", "CBC"],
        "CPIC Guideline for DPYD and Fluoropyrimidines (2017)", "routine")
    case (Fluorouracil, IM) =>
      ClinicalRecommendation("Reduce dose 25\U{2013}50%. Intermediate DPD activity.",
        ["Dose-reduced capecitabine"],
        ["CBC 2x/week", "Mucositis", "Diarrhea", "Neurotoxicity"],
        "CPIC Guideline for DPYD and Fluoropyrimidines (2017)", "urgent")
    case (Fluorouracil, PM) =>
      ClinicalRecommendation("AVOID all fluoropyrimidines. Complete DPD deficiency \U{2192} FATAL toxicity.",
        ["Non-fluoropyrimidine chemo (consult oncology)"],
        ["If given: emergent CBC, renal, electrolytes, ICU"],
        "CPIC Guideline for DPYD and Fluoropyrimidines (2017)", "emergent")
  }

  /** The labels a matrix cell may carry. */
  const MatrixLabels: set<string> := {"Safe", "Adjust Dosage", "Toxic", "Ineffective"}

  /** The built-in tables cover exactly the drugs of the drug-gene map, and
      every drug there is keyed by the name it resolves to. */
  lemma TablesCover(name: string)
    ensures CoreDrugNamed(name).Some? <==> name in DrugGeneMap
  {
  }

  /** A matrix cell is well formed: a known label and a confidence of at most
      1.0; a Safe cell has no severity and routine urgency; poor and
      intermediate metabolizers are never Safe. */
  predicate CellConsistent(c: CoreDrug, p: Phenotype) {
    var e := MatrixCell(c, p);
    && e.riskLabel in MatrixLabels && e.confidence <= 100
    && (e.riskLabel == "Safe" ==> e.severity == "none" && RecommendationCell(c, p).urgency == "routine")
    && (p == PM || p == IM ==> e.riskLabel != "Safe")
  }

  /** Every matrix cell is well formed and none is Unknown. */
  lemma MatrixConsistent(c: CoreDrug, p: Phenotype)
    ensures MatrixCell(c, p).riskLabel in MatrixLabels && MatrixCell(c, p).confidence <= 100
    ensures MatrixCell(c, p).riskLabel != "Unknown"
    ensures MatrixCell(c, p).riskLabel == "Safe" ==>
      MatrixCell(c, p).severity == "none" && RecommendationCell(c, p).urgency == "routine"
    ensures p == PM || p == IM ==> MatrixCell(c, p).riskLabel != "Safe"
  {
    AllCells(c, p);
    assert "Unknown" !in MatrixLabels;
  }

  /** Every cell of the matrix, one drug's row at a time. */
  lemma AllCells(c: CoreDrug, p: Phenotype)
    ensures CellConsistent(c, p)
  {
    match c
    case Codeine => CodeineCells(p);
    case Warfarin => WarfarinCells(p);
    case Clopidogrel => ClopidogrelCells(p);
    case Simvastatin => SimvastatinCells(p);
    case Azathioprine => AzathioprineCells(p);
    case Fluorouracil => FluorouracilCells(p);
  }

  /** The cells of one drug's row, checked one row at a time. */
  lemma CodeineCells(p: Phenotype)
    ensures CellConsistent(Codeine, p)
  {
    match p
    case PM => {}
    case IM => {}
    case NM => {}
    case RM => {}
    case URM => {}
  }

  lemma WarfarinCells(p: Phenotype)
    ensures CellConsistent(Warfarin, p)
  {
    match p
    case PM => {}
    case IM => {}
    case NM => {}
    case RM => {}
    case URM => {}
  }

  lemma ClopidogrelCells(p: Phenotype)
    ensures CellConsistent(Clopidogrel, p)
  {
    match p
    case PM => {}
    case IM => {}
    case NM => {}
    case RM => {}
    case URM => {}
  }

  lemma SimvastatinCells(p: Phenotype)
    ensures CellConsistent(Simvastatin, p)
  {
    match p
    case PM => {}
    case IM => {}
    case NM => {}
    case RM => {}
    case URM => {}
  }

  lemma AzathioprineCells(p: Phenotype)
    ensures CellConsistent(Azathioprine, p)
  {
    match p
    case PM => {}
    case IM => {}
    case NM => {}
    case RM => {}
    case URM => {}
  }

  lemma FluorouracilCells(p: Phenotype)
    ensures CellConsistent(Fluorouracil, p)
  {
    match p
    case PM => {}
    case IM => {}
    case NM => {}
    case RM => {}
    case URM => {}
  }

  // ---------------------------------------------------------------------
  // get_drug_gene_info
  // ---------------------------------------------------------------------

  /** The pathway text given to a gene found through the CPIC pair list. */
  const CpicPairPathway: string := "CPIC Level A/B gene-drug pair"

  /** `get_drug_gene_info`: the built-in entry of the resolved name; else what
      the guideline database returned (`db`); else the gene CPIC pairs with
      the drug (`pairs` are the fetched pairs, `atc` the drug's ATC code if
      the service gave one); else nothing (the empty dictionary). */
  function GetDrugGeneInfo(drug: string, db: Option<DrugGeneInfo>, pairs: seq<GeneDrugPair>, atc: Option<string>)
    : (r: Option<DrugGeneInfo>)
    ensures var d := ResolveDrug(drug);
      && (d in DrugGeneMap ==> r == Some(DrugGeneMap[d]))
      && (d !in DrugGeneMap && db.Some? ==> r == db)
      && (r.None? <==> d !in DrugGeneMap && db.None? && FindGeneForDrug(pairs, d).GetOr("") == "")
      && (d !in DrugGeneMap && db.None? && r.Some? ==>
            r.value.pathway == CpicPairPathway && Some(r.value.gene) == FindGeneForDrug(pairs, d))
  {
    var d := ResolveDrug(drug);
    if d in DrugGeneMap then Some(DrugGeneMap[d])
    else if db.Some? then db
    else
      match FindGeneForDrug(pairs, d)
      case Some(gene) =>
        if gene != "" then Some(DrugGeneInfo(gene, CpicPairPathway, atc.GetOr(""))) else None
      case None => None
  }

  /** A brand name, in any case and spacing, reaches the built-in entry of
      the drug it stands for, whatever the external sources hold. */
  lemma BrandNamesResolve(brand: string, db: Option<DrugGeneInfo>, pairs: seq<GeneDrugPair>, atc: Option<string>)
    requires Strip(Upper(brand)) in DrugAliases
    ensures DrugAliases[Strip(Upper(brand))] in DrugGeneMap
    ensures GetDrugGeneInfo(brand, db, pairs, atc) == Some(DrugGeneMap[DrugAliases[Strip(Upper(brand))]])
  {
    ResolveAlias(brand);
  }

  // ---------------------------------------------------------------------
  // assess_risk
  // ---------------------------------------------------------------------

  /** Where an assessment came from; built-in answers carry no source tag. */
  datatype Source = CpicApi | GuidelineDb | BuiltIn

  datatype Assessment = Assessment(guideline: Guideline, source: Source)

  /** Dosing text of a drug without built-in data. */
  function NoDataDosing(drug: string): string {
    "No pharmacogenomic data for " + drug + "."
  }

  /** Dosing text of a known drug with an unrecognised phenotype. */
  function UndeterminedDosing(drug: string): string {
    "Phenotype undetermined. Use " + drug + " with standard monitoring."
  }

  /** The answer of the built-in tables (the third step of `assess_risk`).
      The texts quote the drug as the caller wrote it. */
  function BuiltInGuideline(drug: string, phenotype: string): (g: Guideline)
    ensures ConfidenceInRange(g.risk)
    ensures g.risk.riskLabel == "Unknown" <==>
      CoreDrugNamed(ResolveDrug(drug)).None? || PhenotypeOfCode(phenotype).None?
    ensures CoreDrugNamed(ResolveDrug(drug)).None? ==>
      g == Guideline(RiskAssessment("Unknown", 0, "low"),
                     ClinicalRecommendation(NoDataDosing(drug), [], [], "", "routine"))
    ensures CoreDrugNamed(ResolveDrug(drug)).Some? && PhenotypeOfCode(phenotype).None? ==>
      g == Guideline(RiskAssessment("Unknown", 50, "moderate"),
                     ClinicalRecommendation(UndeterminedDosing(drug), [], ["Standard monitoring"], "", "soon"))
    ensures CoreDrugNamed(ResolveDrug(drug)).Some? && PhenotypeOfCode(phenotype).Some? ==>
      var c, p := CoreDrugNamed(ResolveDrug(drug)).value, PhenotypeOfCode(phenotype).value;
      var e := MatrixCell(c, p);
      g == Guideline(RiskAssessment(e.riskLabel, e.confidence, e.severity), RecommendationCell(c, p))
  {
    match CoreDrugNamed(ResolveDrug(drug))
    case None =>
      Guideline(RiskAssessment("Unknown", 0, "low"),
                ClinicalRecommendation(NoDataDosing(drug), [], [], "", "routine"))
    case Some(c) =>
      match PhenotypeOfCode(phenotype)
      case None =>
        Guideline(RiskAssessment("Unknown", 50, "moderate"),
                  ClinicalRecommendation(UndeterminedDosing(drug), [], ["Standard monitoring"], "", "soon"))
      case Some(p) =>
        MatrixConsistent(c, p);
        var e := MatrixCell(c, p);
        Guideline(RiskAssessment(e.riskLabel, e.confidence, e.severity), RecommendationCell(c, p))
  }

  /** `assess_risk`. `cpic` is what the full CPIC lookup of the resolved drug,
      gene and diplotype returned (None for no answer or a failure); it is
      consulted only when both gene and diplotype are given. `db` is what the
      guideline database returned for the resolved drug and the phenotype. */
  function AssessRisk(drug: string, phenotype: string, gene: string, diplotype: string,
                      cpic: Option<Guideline>, db: Option<Guideline>): (a: Assessment)
    ensures a.source == CpicApi <==> gene != "" && diplotype != "" && cpic.Some?
    ensures a.source == CpicApi ==> a.guideline == cpic.value
    ensures a.source == GuidelineDb <==> (gene == "" || diplotype == "" || cpic.None?) && db.Some?
    ensures a.source == GuidelineDb ==> a.guideline == db.value
    ensures a.source == BuiltIn ==> a.guideline == BuiltInGuideline(drug, phenotype)
  {
    if gene != "" && diplotype != "" && cpic.Some? then Assessment(cpic.value, CpicApi)
    else if db.Some? then Assessment(db.value, GuidelineDb)
    else Assessment(BuiltInGuideline(drug, phenotype), BuiltIn)
  }

  /** The analysis endpoint passes neither gene nor diplotype, so the CPIC
      service is never consulted there. */
  lemma NoGenotypeSkipsCpic(drug: string, phenotype: string, cpic: Option<Guideline>, db: Option<Guideline>)
    ensures AssessRisk(drug, phenotype, "", "", cpic, db).source != CpicApi
    ensures AssessRisk(drug, phenotype, "", "", cpic, db) == AssessRisk(drug, phenotype, "", "", None, db)
  {
  }

  /** When neither external source answers, the built-in tables do. */
  lemma NoExternalAnswer(drug: string, phenotype: string, gene: string, diplotype: string)
    ensures AssessRisk(drug, phenotype, gene, diplotype, None, None) == Assessment(BuiltInGuideline(drug, phenotype), BuiltIn)
  {
  }

  /** An alias and its canonical name get the same built-in risk. */
  lemma AliasSameRisk(alias: string, phenotype: string)
    requires Strip(Upper(alias)) in DrugAliases
    ensures BuiltInGuideline(alias, phenotype).risk ==
            BuiltInGuideline(DrugAliases[Strip(Upper(alias))], phenotype).risk
  {
    var t := DrugAliases[Strip(Upper(alias))];
    ResolveAlias(alias);
    assert ResolveDrug(alias) == t;
    ResolveCanonical(t);
    TablesCover(t);
  }

  /** The built-in answer for a core drug under its table name and a
      phenotype code is the matrix cell, with the cell's recommendation. */
  lemma BuiltInOfCore(c: CoreDrug, p: Phenotype)
    ensures var e := MatrixCell(c, p);
      BuiltInGuideline(c.Name(), p.Code()) ==
        Guideline(RiskAssessment(e.riskLabel, e.confidence, e.severity), RecommendationCell(c, p))
  {
    CoreDrugNameRoundTrip(c);
    PhenotypeCodeRoundTrip(p);
    TablesCover(c.Name());
    ResolveCanonical(c.Name());
  }

  /** Looking up a core drug's table name finds that drug. */
  lemma CoreDrugNameRoundTrip(c: CoreDrug)
    ensures CoreDrugNamed(c.Name()) == Some(c)
  {
  }

  /** Looking up a phenotype's code finds that phenotype. */
  lemma PhenotypeCodeRoundTrip(p: Phenotype)
    ensures PhenotypeOfCode(p.Code()) == Some(p)
  {
  }

  /** For every drug of the built-in tables, every phenotype the classifier
      can produce has a built-in answer: the fallback never says Unknown for
      a classified genotype. */
  lemma ClassifiedPhenotypeIsKnown(drug: string, p: Phenotype)
    requires drug in DrugGeneMap
    ensures BuiltInGuideline(drug, p.Code()).risk.riskLabel in MatrixLabels
  {
    TablesCover(drug);
    var c := CoreDrugNamed(drug).value;
    BuiltInOfCore(c, p);
    MatrixConsistent(c, p);
  }

  /** The repository's own risk vectors, as matrix cells (BuiltInOfCore
      carries them to the built-in answer). */
  lemma RiskVectors()
    ensures MatrixCell(Codeine, PM).riskLabel == "Ineffective" && MatrixCell(Codeine, PM).severity == "high"
    ensures MatrixCell(Codeine, URM).riskLabel == "Toxic"
    ensures MatrixCell(Codeine, NM).riskLabel == "Safe"
    ensures MatrixCell(Warfarin, PM).riskLabel == "Toxic"
    ensures MatrixCell(Warfarin, NM).riskLabel == "Safe"
    ensures MatrixCell(Clopidogrel, PM).riskLabel == "Ineffective"
    ensures MatrixCell(Simvastatin, PM).riskLabel == "Toxic"
    ensures MatrixCell(Azathioprine, PM).riskLabel == "Toxic"
    ensures MatrixCell(Fluorouracil, PM).riskLabel == "Toxic"
  {
  }

  /** End to end: a poor metabolizer asking for codeine, with no external
      source answering, is told the drug is ineffective. */
  lemma CodeinePoorMetabolizer()
    ensures AssessRisk("CODEINE", "PM", "", "", None, None).guideline.risk == RiskAssessment("Ineffective", 95, "high")
  {
    NoExternalAnswer("CODEINE", "PM", "", "");
    BuiltInOfCore(Codeine, PM);
  }

  /** A drug whose resolved name is outside the tables is Unknown with no
      confidence when no external source answers. */
  lemma UnsupportedDrug(drug: string, phenotype: string, gene: string, diplotype: string)
    requires ResolveDrug(drug) !in DrugGeneMap
    ensures AssessRisk(drug, phenotype, gene, diplotype, None, None).guideline ==
      Guideline(RiskAssessment("Unknown", 0, "low"),
                ClinicalRecommendation(NoDataDosing(drug), [], [], "", "routine"))
  {
    TablesCover(ResolveDrug(drug));
  }

  /** A table drug with a phenotype code outside the matrix columns gets the
      undetermined answer: Unknown at half confidence, standard monitoring,
      urgency "soon", when no external source answers. */
  lemma UnknownPhenotype(drug: string, phenotype: string, gene: string, diplotype: string)
    requires ResolveDrug(drug) in DrugGeneMap
    requires phenotype !in {"PM", "IM", "NM", "RM", "URM"}
    ensures AssessRisk(drug, phenotype, gene, diplotype, None, None).guideline ==
      Guideline(RiskAssessment("Unknown", 50, "moderate"),
                ClinicalRecommendation(UndeterminedDosing(drug), [], ["Standard monitoring"], "", "soon"))
  {
    TablesCover(ResolveDrug(drug));
    assert PhenotypeOfCode(phenotype).None?;
  }

  /** The repository's unsupported-drug vector meets that condition. */
  lemma TylenolUnsupported()
    ensures ResolveDrug("TYLENOL") !in DrugGeneMap
  {
    ResolveNormalised("TYLENOL");
  }
}
