/** The built-in knowledge tables of backend/risk_engine.py: the catalog of
    known pharmacogenomic variants, the tracked genes, the drug-to-gene map,
    the brand/alias table, and drug-name normalisation. */
module Knowledge {
  import opened Wrappers
  import opened Text

  // ---------------------------------------------------------------------
  // Known-variant catalog (KNOWN_VARIANTS)
  // ---------------------------------------------------------------------

  /** One catalog entry, keyed by its dbSNP identifier `rsid`. */
  datatype KnownVariant = KnownVariant(rsid: string, gene: string, star: string, effect: string, desc: string)

  /** The catalog in its declaration order (the order a dictionary iteration
      over it visits the entries). */
  const KnownVariants: seq<KnownVariant> := [
    // CYP2D6
    KnownVariant("rs3892097", "CYP2D6", "*4", "no_function", "Splicing defect; most common null allele in Europeans"),
    KnownVariant("rs5030655", "CYP2D6", "*6", "no_function", "Frameshift deletion"),
    KnownVariant("rs1065852", "CYP2D6", "*10", "decreased_function", "Pro34Ser; common in Asians"),
    KnownVariant("rs16947", "CYP2D6", "*2", "normal", "Normal function"),
    KnownVariant("rs1135840", "CYP2D6", "*2B", "normal", "Ser486Thr; normal function"),
    KnownVariant("rs28371725", "CYP2D6", "*41", "decreased_function", "Reduced splicing"),
    KnownVariant("rs5030656", "CYP2D6", "*9", "decreased_function", "Lys281del"),
    KnownVariant("rs28371706", "CYP2D6", "*17", "decreased_function", "Thr107Ile; common in Africans"),
    // CYP2C19
    KnownVariant("rs4244285", "CYP2C19", "*2", "no_function", "Splicing defect; most common LOF"),
    KnownVariant("rs4986893", "CYP2C19", "*3", "no_function", "Premature stop codon"),
    KnownVariant("rs12248560", "CYP2C19", "*17", "increased_function", "Enhanced promoter; ultra-rapid"),
    KnownVariant("rs28399504", "CYP2C19", "*4", "no_function", "Rare LOF allele"),
    KnownVariant("rs56337013", "CYP2C19", "*5", "no_function", "Arg433Trp"),
    KnownVariant("rs72552267", "CYP2C19", "*6", "no_function", "Arg132Gln"),
    KnownVariant("rs72558186", "CYP2C19", "*7", "no_function", "Splicing defect"),
    KnownVariant("rs41291556", "CYP2C19", "*8", "no_function", "Trp120Arg"),
    // CYP2C9
    KnownVariant("rs1799853", "CYP2C9", "*2", "decreased_function", "Arg144Cys; ~30% reduced warfarin metabolism"),
    KnownVariant("rs1057910", "CYP2C9", "*3", "decreased_function", "Ile359Leu; ~80% reduced warfarin metabolism"),
    KnownVariant("rs28371686", "CYP2C9", "*5", "decreased_function", "Asp360Glu"),
    KnownVariant("rs9332131", "CYP2C9", "*6", "no_function", "Frameshift; LOF"),
    KnownVariant("rs7900194", "CYP2C9", "*8", "decreased_function", "Arg150His; common in African Americans"),
    KnownVariant("rs2256871", "CYP2C9", "*9", "decreased_function", "His251Arg"),
    KnownVariant("rs28371685", "CYP2C9", "*11", "decreased_function", "Arg335Trp"),
    // SLCO1B1
    KnownVariant("rs4149056", "SLCO1B1", "*5", "decreased_function", "Val174Ala; impaired statin uptake"),
    KnownVariant("rs2306283", "SLCO1B1", "*1B", "normal", "Asn130Asp; normal function"),
    KnownVariant("rs4149015", "SLCO1B1", "*1A", "normal", "Reference allele"),
    KnownVariant("rs11045819", "SLCO1B1", "*14", "decreased_function", "Pro155Thr"),
    // TPMT
    KnownVariant("rs1800460", "TPMT", "*3B", "no_function", "Ala154Thr; non-functional"),
    KnownVariant("rs1142345", "TPMT", "*3C", "no_function", "Tyr240Cys; most common globally"),
    KnownVariant("rs1800462", "TPMT", "*2", "no_function", "Ala80Pro; non-functional"),
    KnownVariant("rs1800584", "TPMT", "*4", "no_function", "Rare non-functional"),
    // DPYD
    KnownVariant("rs3918290", "DPYD", "*2A", "no_function", "IVS14+1G>A; exon 14 skipping"),
    KnownVariant("rs67376798", "DPYD", "*13", "decreased_function", "Ile560Ser; ~50% reduced DPD"),
    KnownVariant("rs55886062", "DPYD", "c.1679T>G", "no_function", "Complete DPD loss"),
    KnownVariant("rs75017182", "DPYD", "c.1129-5923C>G", "decreased_function", "HapB3 intronic"),
    KnownVariant("rs56038477", "DPYD", "c.1129-5923C>G_tag", "decreased_function", "HapB3 tag SNP")
  ]

  /** The six pharmacogenes the pipeline tracks (TARGET_GENES). */
  const TargetGenes: set<string> := {"CYP2D6", "CYP2C19", "CYP2C9", "SLCO1B1", "TPMT", "DPYD"}

  /** Position of the first entry of `vs` with identifier `id`, or `|vs|`. */
  function IndexById(vs: seq<KnownVariant>, id: string): (k: nat)
    ensures k <= |vs|
    ensures k < |vs| ==> vs[k].rsid == id
    ensures forall j :: 0 <= j < k ==> vs[j].rsid != id
  {
    if vs == [] then 0
    else if vs[0].rsid == id then 0
    else 1 + IndexById(vs[1..], id)
  }

  /** Position of the first entry of `vs` for `gene` labelled `star`, or `|vs|`
      (the `for v in KNOWN_VARIANTS.values(): ... break` search). */
  function IndexByGeneStar(vs: seq<KnownVariant>, gene: string, star: string): (k: nat)
    ensures k <= |vs|
    ensures k < |vs| ==> vs[k].gene == gene && vs[k].star == star
    ensures forall j :: 0 <= j < k ==> !(vs[j].gene == gene && vs[j].star == star)
  {
    if vs == [] then 0
    else if vs[0].gene == gene && vs[0].star == star then 0
    else 1 + IndexByGeneStar(vs[1..], gene, star)
  }

  /** `KNOWN_VARIANTS.get(id)`. */
  function LookupVariant(id: string): (r: Option<KnownVariant>)
    ensures r.Some? ==> r.value in KnownVariants && r.value.rsid == id
    ensures r.None? <==> forall j :: 0 <= j < |KnownVariants| ==> KnownVariants[j].rsid != id
  {
    var k := IndexById(KnownVariants, id);
    if k < |KnownVariants| then Some(KnownVariants[k]) else None
  }

  /** The first catalog entry for (`gene`, `star`). */
  function LookupGeneStar(gene: string, star: string): (r: Option<KnownVariant>)
    ensures r.Some? ==> r.value in KnownVariants && r.value.gene == gene && r.value.star == star
    ensures r.None? <==> forall j :: 0 <= j < |KnownVariants| ==> !(KnownVariants[j].gene == gene && KnownVariants[j].star == star)
  {
    var k := IndexByGeneStar(KnownVariants, gene, star);
    if k < |KnownVariants| then Some(KnownVariants[k]) else None
  }

  predicate AllTargeted(vs: seq<KnownVariant>) {
    forall k :: 0 <= k < |vs| ==> vs[k].gene in TargetGenes && vs[k].effect != ""
  }

  /** Every catalog entry belongs to a tracked gene and names a non-empty
      functional effect. */
  lemma CatalogTargeted()
    ensures AllTargeted(KnownVariants)
  {
  }

  /** A variant found in the catalog always belongs to a tracked gene. */
  lemma LookupTargeted(id: string)
    requires LookupVariant(id).Some?
    ensures LookupVariant(id).value.gene in TargetGenes
    ensures LookupVariant(id).value.effect != ""
  {
    CatalogTargeted();
  }

  // ---------------------------------------------------------------------
  // Drugs (DRUG_GENE_MAP, DRUG_ALIASES, resolve_drug)
  // ---------------------------------------------------------------------

  /** What the pipeline knows about a drug: its primary gene, the metabolic
      pathway and its drug class. */
  datatype DrugGeneInfo = DrugGeneInfo(gene: string, pathway: string, drugClass: string)

  const DrugGeneMap: map<string, DrugGeneInfo> := map[
    "CODEINE" := DrugGeneInfo("CYP2D6", "CYP2D6 O-demethylates codeine to morphine. URMs produce excess morphine; PMs get no effect.", "Opioid analgesic"),
    "WARFARIN" := DrugGeneInfo("CYP2C9", "CYP2C9 metabolizes S-warfarin. Reduced function \U{2192} elevated levels \U{2192} bleeding risk.", "Anticoagulant"),
    "CLOPIDOGREL" := DrugGeneInfo("CYP2C19", "CYP2C19 bioactivates the prodrug. PMs cannot activate \U{2192} treatment failure.", "Antiplatelet"),
    "SIMVASTATIN" := DrugGeneInfo("SLCO1B1", "SLCO1B1 mediates hepatic uptake. Decreased function \U{2192} elevated plasma \U{2192} myopathy.", "Statin"),
    "AZATHIOPRINE" := DrugGeneInfo("TPMT", "TPMT methylates thiopurines. Deficiency \U{2192} toxic TGN accumulation \U{2192} myelosuppression.", "Immunosuppressant"),
    "FLUOROURACIL" := DrugGeneInfo("DPYD", "DPD catabolizes >80% of 5-FU. Deficiency \U{2192} drug accumulation \U{2192} fatal toxicity.", "Antineoplastic")
  ]

  /** Brand names and synonyms mapped to the canonical drug name. */
  const DrugAliases: map<string, string> := map[
    "5-FU" := "FLUOROURACIL", "5-FLUOROURACIL" := "FLUOROURACIL", "CAPECITABINE" := "FLUOROURACIL",
    "6-MP" := "AZATHIOPRINE", "MERCAPTOPURINE" := "AZATHIOPRINE",
    "PLAVIX" := "CLOPIDOGREL", "COUMADIN" := "WARFARIN", "ZOCOR" := "SIMVASTATIN"
  ]

  /** `resolve_drug`: upper-case, strip, then replace an alias by its
      canonical name. */
  function ResolveDrug(drug: string): string {
    var d := Strip(Upper(drug));
    if d in DrugAliases then DrugAliases[d] else d
  }

  /** Every alias names a drug of the drug-gene map, and no alias target is
      itself an alias. */
  lemma AliasTargetsCanonical()
    ensures forall a :: a in DrugAliases ==> DrugAliases[a] in DrugGeneMap && DrugAliases[a] !in DrugAliases
  {
  }

  /** Every canonical drug name is upper-case and stripped. */
  lemma CanonicalNamesNormalised()
    ensures forall d :: d in DrugGeneMap ==> NoLowerLetters(d) && IsStripped(d)
  {
  }

  /** Resolving is idempotent: a resolved name resolves to itself. This is
      what makes the repeated resolution in build_profile_for_drug (once
      there, once more inside get_drug_gene_info) harmless. */
  lemma ResolveDrugIdempotent(drug: string)
    ensures ResolveDrug(ResolveDrug(drug)) == ResolveDrug(drug)
  {
    var d := Strip(Upper(drug));
    StripKeepsNoLower(Upper(drug));
    StripIsStripped(Upper(drug));
    if d in DrugAliases {
      var t := DrugAliases[d];
      AliasTargetsCanonical();
      CanonicalNamesNormalised();
      UpperNoop(t);
      StripStripped(t);
    } else {
      UpperNoop(d);
      StripStripped(d);
    }
  }

  /** A name already upper-case and stripped is only looked up in the alias
      table. */
  lemma ResolveNormalised(d: string)
    requires NoLowerLetters(d) && IsStripped(d)
    ensures ResolveDrug(d) == if d in DrugAliases then DrugAliases[d] else d
  {
    UpperNoop(d);
    StripStripped(d);
  }

  /** No canonical drug name is also an alias. */
  lemma CanonicalNotAlias(d: string)
    requires d in DrugGeneMap
    ensures d !in DrugAliases
  {
  }

  /** A canonical drug name resolves to itself. */
  lemma ResolveCanonical(d: string)
    requires d in DrugGeneMap
    ensures ResolveDrug(d) == d
  {
    CanonicalNamesNormalised();
    CanonicalNotAlias(d);
    ResolveNormalised(d);
  }

  /** A resolved name that the drug-gene map knows is exactly what the map
      is keyed by; aliases always land in the map. */
  lemma ResolveAlias(drug: string)
    requires Strip(Upper(drug)) in DrugAliases
    ensures ResolveDrug(drug) in DrugGeneMap
  {
    AliasTargetsCanonical();
  }
}
