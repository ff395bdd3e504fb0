/** Phenotype classification of backend/risk_engine.py: gene-specific allele
    activity scores, summed over the two alleles of a diplotype and mapped to
    a metabolizer phenotype by gene-family bands.

    Every activity value in the tables is a multiple of 0.25, so scores are
    kept as whole numbers of quarters: 1.0 is 4, 0.5 is 2, 0.25 is 1. The
    band boundaries 1.0, 2.0 and 2.5 become 4, 8 and 10, and every
    comparison is exact. */
module Phenotype {

  /** Metabolizer status: poor, intermediate, normal, rapid, ultrarapid. */
  datatype Phenotype = PM | IM | NM | RM | URM {
    /** The label the source returns ("PM", "IM", ...). */
    function Code(): string {
      match this
      case PM => "PM"
      case IM => "IM"
      case NM => "NM"
      case RM => "RM"
      case URM => "URM"
    }

    /** Position on the scale from least to most enzyme activity. */
    function Rank(): nat {
      match this
      case PM => 0
      case IM => 1
      case NM => 2
      case RM => 3
      case URM => 4
    }
  }

  /** Activity of a label absent from its gene's table: normal function. */
  const DefaultActivity: nat := 4

  // Per-gene activity tables, in quarters.
  const Cyp2d6Activity: map<string, nat> := map[
    "*1" := 4, "*2" := 4, "*2B" := 4, "*4" := 0, "*6" := 0,
    "*9" := 2, "*10" := 1, "*17" := 2, "*41" := 2]
  const Cyp2c19Activity: map<string, nat> := map[
    "*1" := 4, "*2" := 0, "*3" := 0, "*4" := 0, "*5" := 0,
    "*6" := 0, "*7" := 0, "*8" := 0, "*17" := 6]
  const Cyp2c9Activity: map<string, nat> := map[
    "*1" := 4, "*2" := 2, "*3" := 1, "*5" := 0, "*6" := 0,
    "*8" := 2, "*9" := 2, "*11" := 2]
  const Slco1b1Activity: map<string, nat> := map[
    "*1" := 4, "*1A" := 4, "*1B" := 4, "*5" := 0, "*14" := 2]
  const TpmtActivity: map<string, nat> := map[
    "*1" := 4, "*2" := 0, "*3B" := 0, "*3C" := 0, "*4" := 0]
  const DpydActivity: map<string, nat> := map[
    "*1" := 4, "*2A" := 0, "*13" := 2,
    "c.1679T>G" := 0, "c.1129-5923C>G" := 2, "c.1129-5923C>G_tag" := 2]

  /** Labels that mark a gain-of-function allele. */
  const GainOfFunction: set<string> := {"*17"}

  /** The activity table of `gene`, or the empty table for a gene without one. */
  function ActivityTable(gene: string): map<string, nat> {
    if gene == "CYP2D6" then Cyp2d6Activity
    else if gene == "CYP2C19" then Cyp2c19Activity
    else if gene == "CYP2C9" then Cyp2c9Activity
    else if gene == "SLCO1B1" then Slco1b1Activity
    else if gene == "TPMT" then TpmtActivity
    else if gene == "DPYD" then DpydActivity
    else map[]
  }

  /** `get_allele_activity`: the activity of `star` in `gene`, in quarters. */
  function AlleleActivity(star: string, gene: string): (q: nat)
    ensures star in ActivityTable(gene) ==> q == ActivityTable(gene)[star]
    ensures star !in ActivityTable(gene) ==> q == DefaultActivity
    ensures q <= 6
  {
    var table := ActivityTable(gene);
    if star in table then table[star] else DefaultActivity
  }

  /** The tables are per gene: the same label can score differently, as *17
      does (0.5 in CYP2D6, 1.5 in CYP2C19); and a gene without a table scores
      every label as normal function. */
  lemma ActivityIsPerGene(star: string, gene: string)
    ensures AlleleActivity("*17", "CYP2D6") == 2 && AlleleActivity("*17", "CYP2C19") == 6
    ensures gene !in {"CYP2D6", "CYP2C19", "CYP2C9", "SLCO1B1", "TPMT", "DPYD"} ==> AlleleActivity(star, gene) == 4
  {
  }

  /** The thiopurine and fluoropyrimidine genes, classified without a rapid tier. */
  predicate IsTpmtOrDpyd(gene: string) { gene == "TPMT" || gene == "DPYD" }

  /** `determine_phenotype`: sum the two activities and apply the bands of
      the gene's family. */
  function DeterminePhenotype(allele1: string, allele2: string, gene: string): (p: Phenotype)
    ensures p == PM <==> AlleleActivity(allele1, gene) + AlleleActivity(allele2, gene) == 0
    ensures IsTpmtOrDpyd(gene) || gene == "SLCO1B1" ==> p.Rank() <= NM.Rank()
  {
    var total := AlleleActivity(allele1, gene) + AlleleActivity(allele2, gene);
    if IsTpmtOrDpyd(gene) then
      if total == 0 then PM
      else if total <= 4 then IM
      else NM
    else if gene == "SLCO1B1" then
      if total == 0 then PM
      else if total < 8 then IM
      else NM
    // CYP genes
    else if total == 0 then PM
    else if total < 4 then IM
    else if total <= 8 then
      if (allele1 in GainOfFunction || allele2 in GainOfFunction) && gene == "CYP2C19" && total >= 10 then
        // The gain-of-function rule needs a total of at least 2.5 inside the
        // branch for totals of at most 2.0: it can never fire.
        assert false; RM
      else NM
    else if total <= 10 then RM
    else URM
  }

  /** Classification depends on the pair of alleles, not on their order. */
  lemma PhenotypeSymmetric(a: string, b: string, gene: string)
    ensures DeterminePhenotype(a, b, gene) == DeterminePhenotype(b, a, gene)
  {
  }

  /** Bands of TPMT and DPYD: 0 is PM, up to 1.0 is IM, above is NM. */
  lemma TpmtDpydBands(a: string, b: string, gene: string)
    requires IsTpmtOrDpyd(gene)
    ensures var t := AlleleActivity(a, gene) + AlleleActivity(b, gene);
      && (DeterminePhenotype(a, b, gene) == IM <==> 0 < t <= 4)
      && (DeterminePhenotype(a, b, gene) == NM <==> t > 4)
  {
  }

  /** Bands of SLCO1B1: 0 is PM, below 2.0 is IM, from 2.0 up is NM. */
  lemma Slco1b1Bands(a: string, b: string)
    ensures var t := AlleleActivity(a, "SLCO1B1") + AlleleActivity(b, "SLCO1B1");
      && (DeterminePhenotype(a, b, "SLCO1B1") == IM <==> 0 < t < 8)
      && (DeterminePhenotype(a, b, "SLCO1B1") == NM <==> t >= 8)
  {
  }

  /** Bands of every other gene: 0 PM, below 1.0 IM, up to 2.0 NM, up to 2.5
      RM, above URM; no allele, gain-of-function or not, changes them. */
  lemma CypBands(a: string, b: string, gene: string)
    requires !IsTpmtOrDpyd(gene) && gene != "SLCO1B1"
    ensures var t := AlleleActivity(a, gene) + AlleleActivity(b, gene);
      && (DeterminePhenotype(a, b, gene) == IM <==> 0 < t < 4)
      && (DeterminePhenotype(a, b, gene) == NM <==> 4 <= t <= 8)
      && (DeterminePhenotype(a, b, gene) == RM <==> 8 < t <= 10)
      && (DeterminePhenotype(a, b, gene) == URM <==> t > 10)
  {
  }

  /** More total activity never yields a lower phenotype for the same gene. */
  lemma PhenotypeMonotone(a1: string, a2: string, b1: string, b2: string, gene: string)
    requires AlleleActivity(a1, gene) + AlleleActivity(a2, gene) <= AlleleActivity(b1, gene) + AlleleActivity(b2, gene)
    ensures DeterminePhenotype(a1, a2, gene).Rank() <= DeterminePhenotype(b1, b2, gene).Rank()
  {
  }

  /** The reference diplotype (*1, *1) is a normal metabolizer in every gene. */
  lemma ReferenceIsNormal(gene: string)
    ensures DeterminePhenotype("*1", "*1", gene) == NM
  {
  }

  /** The repository's own phenotype vectors. */
  lemma PhenotypeVectors()
    ensures DeterminePhenotype("*4", "*6", "CYP2D6") == PM
    ensures DeterminePhenotype("*1", "*4", "CYP2D6") == NM
    ensures DeterminePhenotype("*10", "*10", "CYP2D6") == IM
    ensures DeterminePhenotype("*2", "*2", "CYP2C19") == PM
    ensures DeterminePhenotype("*1", "*17", "CYP2C19") == RM
    ensures DeterminePhenotype("*17", "*17", "CYP2C19") == URM
    ensures DeterminePhenotype("*2", "*3", "CYP2C9") == IM
    ensures DeterminePhenotype("*1", "*5", "SLCO1B1") == IM
    ensures DeterminePhenotype("*3B", "*3C", "TPMT") == PM
    ensures DeterminePhenotype("*1", "*3C", "TPMT") == IM
    ensures DeterminePhenotype("*1", "*2A", "DPYD") == IM
  {
  }
}
