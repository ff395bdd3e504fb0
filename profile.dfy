/** `build_profile_for_drug` of backend/vcf_parser.py: from a parsed VCF and
    a drug, the drug's primary gene, the patient's diplotype and phenotype
    for that gene, and the variants detected in it. */
module Profile {
  import opened Wrappers
  import opened Text
  import opened Knowledge
  import Ph = Phenotype
  import opened Cpic
  import opened Vcf
  import Risk

  /** A detected variant as the profile reports it (no description). */
  datatype DetectedVariant = DetectedVariant(
    rsid: string, gene: string, chromosome: string, position: nat,
    refAllele: string, altAllele: string, starAllele: string,
    genotype: string, functionalEffect: string, quality: Quality)

  /** The profile of one drug. */
  datatype DrugProfile = DrugProfile(
    primaryGene: string, diplotype: string, phenotype: string, detected: seq<DetectedVariant>)

  /** The record a recorded variant becomes in the profile. */
  function Detected(v: PgxVariant): (d: DetectedVariant)
    ensures d.gene == v.gene && d.starAllele == v.star && d.genotype == v.genotype
  {
    DetectedVariant(v.rsid, v.gene, v.chromosome, v.position, v.ref, v.alt, v.star, v.genotype, v.effect, v.quality)
  }

  /** The detected records of `vs`, in order. */
  function DetectedAll(vs: seq<PgxVariant>): (ds: seq<DetectedVariant>)
    ensures |ds| == |vs|
    ensures forall k :: 0 <= k < |vs| ==> ds[k] == Detected(vs[k])
    decreases |vs|
  {
    if vs == [] then [] else DetectedAll(vs[..|vs| - 1]) + [Detected(vs[|vs| - 1])]
  }

  /** A star label that counts toward the diplotype. */
  predicate IsReportedStar(star: string) {
    star != "" && star != "unknown"
  }

  /** The reported star labels of `vs`, in order, repeats kept. */
  function StarsOf(vs: seq<PgxVariant>): (stars: seq<string>)
    ensures forall k :: 0 <= k < |stars| ==> IsReportedStar(stars[k])
    ensures forall k :: 0 <= k < |stars| ==> exists j :: 0 <= j < |vs| && vs[j].star == stars[k]
    decreases |vs|
  {
    if vs == [] then []
    else
      var front := StarsOf(vs[..|vs| - 1]);
      var v := vs[|vs| - 1];
      if IsReportedStar(v.star) then
        assert forall k :: 0 <= k < |vs| - 1 ==> vs[..|vs| - 1][k] == vs[k];
        front + [v.star]
      else
        assert forall k :: 0 <= k < |vs| - 1 ==> vs[..|vs| - 1][k] == vs[k];
        front
  }

  /** Whether `vs` has a reported star: exactly when `StarsOf` is not empty. */
  lemma {:induction false} StarsOfEmpty(vs: seq<PgxVariant>)
    ensures StarsOf(vs) == [] <==> forall k :: 0 <= k < |vs| ==> !IsReportedStar(vs[k].star)
    decreases |vs|
  {
    if vs != [] {
      var n := |vs| - 1;
      StarsOfEmpty(vs[..n]);
      assert forall k :: 0 <= k < n ==> vs[..n][k] == vs[k];
    }
  }

  /** `list(dict.fromkeys(xs))`: first occurrences, in order. */
  function Dedupe(xs: seq<string>): (r: seq<string>)
    ensures Distinct(r) && Elems(r) == Elems(xs) && |r| <= |xs|
    decreases |xs|
  {
    if xs == [] then []
    else
      var front := Dedupe(xs[..|xs| - 1]);
      var x := xs[|xs| - 1];
      assert Elems(xs) == Elems(xs[..|xs| - 1]) + {x} by {
        assert xs == xs[..|xs| - 1] + [x];
      }
      if x in front then front
      else
        assert Distinct(front + [x]) by {
          forall a, b | 0 <= a < b < |front + [x]| ensures (front + [x])[a] != (front + [x])[b] {
            if b == |front| {
              assert (front + [x])[a] == front[a];
            }
          }
        }
        front + [x]
  }

  /** Deduplication keeps the first element first. */
  lemma {:induction false} DedupeHead(xs: seq<string>)
    requires xs != []
    ensures Dedupe(xs)[0] == xs[0]
    decreases |xs|
  {
    if |xs| > 1 {
      var front := xs[..|xs| - 1];
      DedupeHead(front);
      assert front[0] == xs[0];
    }
  }

  /** When a second distinct label exists, deduplication puts the first
      label different from the head second. */
  lemma {:induction false} DedupeSecond(xs: seq<string>, i: nat)
    requires i < |xs| && xs[i] != xs[0]
    requires forall j :: 0 < j < i ==> xs[j] == xs[0]
    ensures |Dedupe(xs)| > 1 && Dedupe(xs)[1] == xs[i]
    decreases |xs|
  {
    var n := |xs| - 1;
    var front := xs[..n];
    if i < n {
      assert front[0] == xs[0] && front[i] == xs[i];
      DedupeSecond(front, i);
      assert Dedupe(xs)[..|Dedupe(front)|] == Dedupe(front);
    } else {
      assert forall j :: 0 <= j < n ==> front[j] == front[0];
      DedupeAllSame(front);
      assert xs[n] !in Dedupe(front);
      assert Dedupe(xs) == Dedupe(front) + [xs[n]];
    }
  }

  /** A non-empty list of one repeated label deduplicates to that label. */
  lemma {:induction false} DedupeAllSame(xs: seq<string>)
    requires xs != [] && forall j :: 0 <= j < |xs| ==> xs[j] == xs[0]
    ensures Dedupe(xs) == [xs[0]]
    decreases |xs|
  {
    if |xs| > 1 {
      var front := xs[..|xs| - 1];
      assert forall j :: 0 <= j < |front| ==> front[j] == front[0];
      DedupeAllSame(front);
    }
  }

  predicate IsHomozygousAlt(genotype: string) {
    genotype == "1/1" || genotype == "1|1"
  }

  /** The two alleles: both reference without a star; with one star, the
      star twice when the gene's first variant is homozygous alternate and
      reference plus star otherwise; with several, the first two distinct
      labels (the first twice when all agree). */
  function ChooseAlleles(stars: seq<string>, firstGenotype: string): (ab: (string, string))
    ensures ab.0 == "*1" || ab.0 in stars
    ensures ab.1 == "*1" || ab.1 in stars
  {
    if stars == [] then ("*1", "*1")
    else if |stars| == 1 then
      if IsHomozygousAlt(firstGenotype) then (stars[0], stars[0]) else ("*1", stars[0])
    else
      var unique := Dedupe(stars);
      assert stars[0] in Elems(unique);
      var second := if |unique| > 1 then unique[1] else unique[0];
      assert unique[0] in Elems(unique) && second in Elems(unique);
      (unique[0], second)
  }

  /** The allele rules spelt out: no star gives the reference pair; one star
      gives the homozygous or heterozygous pair by the genotype; several
      stars give the first star and the first star that differs from it, or
      the first star twice when none differs. */
  lemma AlleleRules(stars: seq<string>, gt: string)
    ensures stars == [] ==> ChooseAlleles(stars, gt) == ("*1", "*1")
    ensures |stars| == 1 && IsHomozygousAlt(gt) ==> ChooseAlleles(stars, gt) == (stars[0], stars[0])
    ensures |stars| == 1 && !IsHomozygousAlt(gt) ==> ChooseAlleles(stars, gt) == ("*1", stars[0])
    ensures |stars| > 1 && (forall j :: 0 <= j < |stars| ==> stars[j] == stars[0]) ==>
      ChooseAlleles(stars, gt) == (stars[0], stars[0])
  {
    if |stars| > 1 && forall j :: 0 <= j < |stars| ==> stars[j] == stars[0] {
      DedupeAllSame(stars);
    }
  }

  /** With several stars, the second allele is the first star different from
      the first one, and the genotype plays no part. */
  lemma AllelesFirstTwoDistinct(stars: seq<string>, gt: string, i: nat)
    requires |stars| > 1 && i < |stars| && stars[i] != stars[0]
    requires forall j :: 0 < j < i ==> stars[j] == stars[0]
    ensures ChooseAlleles(stars, gt) == (stars[0], stars[i])
  {
    DedupeHead(stars);
    DedupeSecond(stars, i);
  }

  /** The diplotype text: the two alleles joined by "/". */
  function Diplotype(a1: string, a2: string): string {
    a1 + "/" + a2
  }

  /** Splitting the diplotype at "/" gives the alleles back whenever neither
      contains "/". */
  lemma DiplotypeRoundTrip(a1: string, a2: string)
    requires forall j :: 0 <= j < |a1| ==> a1[j] != '/'
    requires forall j :: 0 <= j < |a2| ==> a2[j] != '/'
    ensures Split(Diplotype(a1, a2), '/') == [a1, a2]
  {
    assert Join([a1, a2], '/') == Diplotype(a1, a2) by {
      assert [a1, a2][1..] == [a2];
    }
    JoinSplit([a1, a2], '/');
  }

  /** `parsed_vcf["gene_variants"].get(gene, [])`. */
  function VariantsOf(parsed: ParseResult, gene: string): seq<PgxVariant> {
    if gene in parsed.geneVariants then parsed.geneVariants[gene] else []
  }

  /** What `build_profile_for_drug` returns. External gene sources are
      parameters, as for `get_drug_gene_info`. */
  function ProfileSpec(parsed: ParseResult, drug: string, db: Option<DrugGeneInfo>,
                       pairs: seq<GeneDrugPair>, atc: Option<string>): DrugProfile
  {
    var info := Risk.GetDrugGeneInfo(ResolveDrug(drug), db, pairs, atc);
    if info.None? || info.value.gene == "" then DrugProfile("Unknown", "Unknown", "Unknown", [])
    else GeneProfile(parsed, info.value.gene)
  }

  /** The profile for a known primary gene: the reference diplotype when
      the gene has no recorded variant, else the alleles its stars give. */
  function GeneProfile(parsed: ParseResult, gene: string): DrugProfile {
    var vs := VariantsOf(parsed, gene);
    if vs == [] then DrugProfile(gene, "*1/*1", "NM", [])
    else
      var ab := ChooseAlleles(StarsOf(vs), vs[0].genotype);
      DrugProfile(gene, Diplotype(ab.0, ab.1), Ph.DeterminePhenotype(ab.0, ab.1, gene).Code(), DetectedAll(vs))
  }

  /** The star-collecting loop. */
  method CollectStars(vs: seq<PgxVariant>) returns (stars: seq<string>)
    ensures stars == StarsOf(vs)
  {
    stars := [];
    for k := 0 to |vs|
      invariant stars == StarsOf(vs[..k])
    {
      assert vs[..k + 1][..k] == vs[..k];
      if vs[k].star != "" && vs[k].star != "unknown" {
        stars := stars + [vs[k].star];
      }
    }
    assert vs[..|vs|] == vs;
  }

  /** The loop that builds the detected records. */
  method CollectDetected(vs: seq<PgxVariant>) returns (detected: seq<DetectedVariant>)
    ensures detected == DetectedAll(vs)
  {
    detected := [];
    for k := 0 to |vs|
      invariant detected == DetectedAll(vs[..k])
    {
      assert vs[..k + 1][..k] == vs[..k];
      detected := detected + [Detected(vs[k])];
    }
    assert vs[..|vs|] == vs;
  }

  /** The allele choice of `build_profile_for_drug`. */
  method PickAlleles(stars: seq<string>, vs: seq<PgxVariant>) returns (allele1: string, allele2: string)
    requires vs != []
    ensures (allele1, allele2) == ChooseAlleles(stars, vs[0].genotype)
  {
    if stars == [] {
      allele1, allele2 := "*1", "*1";
    } else if |stars| == 1 {
      var gt := vs[0].genotype;
      if gt == "1/1" || gt == "1|1" {
        allele1, allele2 := stars[0], stars[0];
      } else {
        allele1, allele2 := "*1", stars[0];
      }
    } else {
      var unique := Dedupe(stars);
      allele1 := unique[0];
      allele2 := if |unique| > 1 then unique[1] else unique[0];
    }
  }

  /** `build_profile_for_drug`. */
  method BuildProfileForDrug(parsed: ParseResult, drug: string, db: Option<DrugGeneInfo>,
                             pairs: seq<GeneDrugPair>, atc: Option<string>)
    returns (profile: DrugProfile)
    ensures profile == ProfileSpec(parsed, drug, db, pairs, atc)
  {
    var drugUpper := ResolveDrug(drug);
    var info := Risk.GetDrugGeneInfo(drugUpper, db, pairs, atc);
    if info.None? || info.value.gene == "" {
      return DrugProfile("Unknown", "Unknown", "Unknown", []);
    }
    var gene := info.value.gene;
    var vs := VariantsOf(parsed, gene);
    if vs == [] {
      return DrugProfile(gene, "*1/*1", "NM", []);
    }
    var stars := CollectStars(vs);
    var allele1, allele2 := PickAlleles(stars, vs);
    var detected := CollectDetected(vs);
    profile := DrugProfile(gene, Diplotype(allele1, allele2),
                           Ph.DeterminePhenotype(allele1, allele2, gene).Code(), detected);
  }

  // ---------------------------------------------------------------------
  // What build_profile_for_drug promises
  // ---------------------------------------------------------------------

  /** Two outcomes: all "Unknown" when no gene is known for the drug,
      otherwise the profile of the gene `get_drug_gene_info` names; the
      primary gene is never empty. */
  lemma ProfileCases(parsed: ParseResult, drug: string, db: Option<DrugGeneInfo>,
                     pairs: seq<GeneDrugPair>, atc: Option<string>)
    ensures ProfileSpec(parsed, drug, db, pairs, atc).primaryGene != ""
    ensures var info := Risk.GetDrugGeneInfo(ResolveDrug(drug), db, pairs, atc);
      info.None? || info.value.gene == "" ==>
        ProfileSpec(parsed, drug, db, pairs, atc) == DrugProfile("Unknown", "Unknown", "Unknown", [])
    ensures var info := Risk.GetDrugGeneInfo(ResolveDrug(drug), db, pairs, atc);
      info.Some? && info.value.gene != "" ==>
        ProfileSpec(parsed, drug, db, pairs, atc) == GeneProfile(parsed, info.value.gene)
    ensures var info := Risk.GetDrugGeneInfo(ResolveDrug(drug), db, pairs, atc);
      info.Some? && info.value.gene != "" && VariantsOf(parsed, info.value.gene) == [] ==>
        ProfileSpec(parsed, drug, db, pairs, atc) == DrugProfile(info.value.gene, "*1/*1", "NM", [])
  {
  }

  /** A drug of the built-in table gets the profile of its table gene,
      whatever the external sources hold. */
  lemma ProfileOfTableDrug(parsed: ParseResult, drug: string, db: Option<DrugGeneInfo>,
                           pairs: seq<GeneDrugPair>, atc: Option<string>)
    requires drug in DrugGeneMap
    ensures ProfileSpec(parsed, drug, db, pairs, atc) == GeneProfile(parsed, DrugGeneMap[drug].gene)
  {
    TableDrugInfo(drug, db, pairs, atc);
    TableGenesNamed(drug);
  }

  /** A drug of the built-in table gets its table entry. */
  lemma TableDrugInfo(drug: string, db: Option<DrugGeneInfo>, pairs: seq<GeneDrugPair>, atc: Option<string>)
    requires drug in DrugGeneMap
    ensures Risk.GetDrugGeneInfo(ResolveDrug(drug), db, pairs, atc) == Some(DrugGeneMap[drug])
  {
    ResolveCanonical(drug);
    ResolveCanonical(ResolveDrug(drug));
  }

  /** Every gene of the built-in table is named. */
  lemma TableGenesNamed(drug: string)
    requires drug in DrugGeneMap
    ensures DrugGeneMap[drug].gene != ""
  {
  }

  /** The diplotype splits back into the two alleles the phenotype was
      classified from, provided no star label contains "/". */
  lemma DiplotypeMatchesPhenotype(parsed: ParseResult, gene: string)
    requires VariantsOf(parsed, gene) != []
    requires forall k, j :: 0 <= k < |VariantsOf(parsed, gene)| && 0 <= j < |VariantsOf(parsed, gene)[k].star| ==>
      VariantsOf(parsed, gene)[k].star[j] != '/'
    ensures var vs := VariantsOf(parsed, gene);
      var ab := ChooseAlleles(StarsOf(vs), vs[0].genotype);
      var p := GeneProfile(parsed, gene);
      Split(p.diplotype, '/') == [ab.0, ab.1] && p.phenotype == Ph.DeterminePhenotype(ab.0, ab.1, gene).Code()
  {
    var vs := VariantsOf(parsed, gene);
    var stars := StarsOf(vs);
    var ab := ChooseAlleles(stars, vs[0].genotype);
    forall x | x == ab.0 || x == ab.1 ensures forall j :: 0 <= j < |x| ==> x[j] != '/' {
      if x != "*1" {
        var k :| 0 <= k < |stars| && stars[k] == x;
        var i :| 0 <= i < |vs| && vs[i].star == stars[k];
      }
    }
    DiplotypeRoundTrip(ab.0, ab.1);
  }

  /** On a parse result, the detected variants are exactly the gene's
      recorded variants, in order, so each belongs to the primary gene. */
  lemma DetectedBelongToGene(sc: Scan, gene: string)
    ensures var p := GeneProfile(ResultOf(sc), gene);
      forall k :: 0 <= k < |p.detected| ==> p.detected[k].gene == gene
    ensures var vs := OfGene(ResultOf(sc).pgxVariants, gene);
      vs != [] ==> GeneProfile(ResultOf(sc), gene).detected == DetectedAll(vs)
  {
    ResultGrouping(sc);
    var r := ResultOf(sc);
    if gene !in r.geneVariants {
      GroupIsOfGene(r.pgxVariants);
    }
  }

  /** The homozygous check reads the genotype of the gene's first variant,
      even when the only star is on a later variant: a star-less
      heterozygous variant followed by a homozygous *4 gives the alleles
      *1 and *4. */
  lemma FirstVariantGenotypeDecides(v0: PgxVariant, v1: PgxVariant)
    requires v0.star == "" && v0.genotype == "0/1"
    requires v1.star == "*4" && v1.genotype == "1/1"
    ensures ChooseAlleles(StarsOf([v0, v1]), [v0, v1][0].genotype) == ("*1", "*4")
  {
    assert [v0, v1][..1] == [v0];
    assert [v0][..0] == [];
    assert StarsOf([v0]) == [];
    assert StarsOf([v0, v1]) == [] + ["*4"];
  }

  /** A single homozygous *4 in CYP2D6 profiles as *4 twice, a poor
      metabolizer. */
  lemma HomozygousStar4(parsed: ParseResult, v: PgxVariant)
    requires VariantsOf(parsed, "CYP2D6") == [v]
    requires v.star == "*4" && v.genotype == "1/1"
    ensures GeneProfile(parsed, "CYP2D6") == DrugProfile("CYP2D6", "*4/*4", "PM", [Detected(v)])
  {
    assert [v][..0] == [];
    assert StarsOf([v]) == ["*4"];
    assert Ph.DeterminePhenotype("*4", "*4", "CYP2D6") == Ph.PM;
  }

  /** End to end for codeine: a homozygous *4 gives a CYP2D6 poor
      metabolizer profile, whatever the external sources hold. */
  lemma CodeineHomozygousStar4(parsed: ParseResult, v: PgxVariant, db: Option<DrugGeneInfo>,
                               pairs: seq<GeneDrugPair>, atc: Option<string>)
    requires VariantsOf(parsed, "CYP2D6") == [v]
    requires v.star == "*4" && v.genotype == "1/1"
    ensures ProfileSpec(parsed, "CODEINE", db, pairs, atc) == DrugProfile("CYP2D6", "*4/*4", "PM", [Detected(v)])
  {
    CodeineGene();
    ProfileOfTableDrug(parsed, "CODEINE", db, pairs, atc);
    HomozygousStar4(parsed, v);
  }

  /** Codeine is in the table, with CYP2D6 as its gene. */
  lemma CodeineGene()
    ensures "CODEINE" in DrugGeneMap && DrugGeneMap["CODEINE"].gene == "CYP2D6"
  {
  }

  /** End to end from the text of the example file: its header and its one
      data row (CYP2D6 *4, genotype 1/1) give codeine a poor
      metabolizer profile, diplotype *4 twice, with that one variant
      detected. */
  lemma StarFourFileCodeine(sc: Scan, db: Option<DrugGeneInfo>,
                            pairs: seq<GeneDrugPair>, atc: Option<string>)
    requires sc.header == Some("#" + Join(StarFourHeaderColumns, '\t'))
    requires sc.dataLines == [Join(StarFourFields, '\t')]
    ensures var p := ProfileSpec(ResultOf(sc), "CODEINE", db, pairs, atc);
      p.primaryGene == "CYP2D6" && p.diplotype == "*4/*4" && p.phenotype == "PM" &&
      |p.detected| == 1 && p.detected[0].gene == "CYP2D6" &&
      p.detected[0].starAllele == "*4" && p.detected[0].genotype == "1/1"
  {
    StarFourHeader();
    StarFourRowFound();
    var v := ClassifyRow(sc.dataLines[0], true).variant;
    SingleFoundRow(sc, v);
    CodeineHomozygousStar4(ResultOf(sc), v, db, pairs, atc);
  }
}
