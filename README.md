# PharmaGuard core in Dafny

This project models the decision core of PharmaGuard, a pharmacogenomic
risk service. A patient's VCF file is parsed into pharmacogenomic variants
of six tracked genes (CYP2D6, CYP2C19, CYP2C9, SLCO1B1, TPMT, DPYD). For a
requested drug the model then derives:

- the primary gene;
- the diplotype, from the star alleles found;
- the metabolizer phenotype, from gene-specific allele activity scores;
- the risk assessment and clinical recommendation, taken from the first of
  three sources that answers: the CPIC service, a guideline database, or
  the built-in risk matrix.

Modules, one per concern:

- `Text` (`text.dfy`): the Python string operations the core relies on.
  - `strip` uses Python's whitespace set.
  - ASCII `upper` and `lower`.
  - `split` on a character always gives at least one piece.
  - Substring search and `sorted` on strings.
- `Knowledge` (`knowledge.dfy`):
  - the variant catalog `KNOWN_VARIANTS`;
  - `TARGET_GENES`;
  - the drug table `DRUG_GENE_MAP` and its brand-name aliases;
  - `resolve_drug`.
- `Phenotype` (`phenotype.dfy`): activity scores and phenotype bands.
  - Activities are kept in quarters (1.0 is 4).
  - Every comparison of the source is therefore exact.
- `Records` (`records.dfy`): risk assessment and clinical recommendation
  records. Confidence is in hundredths.
- `Cpic` (`cpic.dfy`): the parts of the CPIC client that decide something:
  - keyword classification of recommendation text;
  - monitoring extraction;
  - choice of the recommendation row;
  - the drug-to-gene search over gene–drug pairs;
  - how a missing phenotype or drug id ends the full lookup.
- `Risk` (`risk.dfy`):
  - the risk matrix and clinical recommendations as functions of
    (drug, phenotype);
  - `get_drug_gene_info`;
  - the three-step priority chain of `assess_risk`.
- `Vcf` (`vcf.dfy`):
  - `parse_info_field`, `extract_genotype` and the patient-id pattern;
  - `parse_vcf`: line scan, row identification strategies, counting and
    grouping by gene.
- `Profile` (`profile.dfy`): `build_profile_for_drug`, which gives the
  primary gene, the diplotype, the phenotype and the detected variants.

How code with loops is modelled:

- Code that loops is modelled as methods: `ParseInfoField`, `ParseVcf`
  (`ScanVcfLines`, `ProcessRows`, `ProcessRow`), `BuildProfileForDrug`
  (`CollectStars`, `PickAlleles`, `CollectDetected`), `ExtractMonitoring`
  and `SelectRecommendationRow`.
- Each method is proved equal to a specification function defined one
  element at a time (`InfoMap`, `ParseSpec`, `ProfileSpec`, ...).
- The properties are proved as lemmas about those functions.

External services are parameters, as `Option` values: the guideline
database, the CPIC service's answers, its gene–drug pair list and a drug's
ATC class.

- `Risk.AssessRisk` takes what the full CPIC lookup and the database
  returned.
- `Risk.GetDrugGeneInfo` takes the database answer, the pair list and the
  ATC class.
- `Cpic.LookupFull` takes the phenotype the service gave for the
  diplotype, the drug id, and the rows of the filtered and broader
  recommendation queries.

Where the description of the system and the code differ, the code is
followed. A drug outside the built-in tables is reported with severity
"low" and confidence 0 (`backend/risk_engine.py:326-334`).

## Model

| member | source | states |
|---|---|---|
| Text.StripIsStripped | backend/risk_engine.py:260 | what `strip` returns has no Python whitespace at either end |
| Text.StripInfix | backend/risk_engine.py:260 | the result is the infix after the leading whitespace, and every character removed at either end is whitespace |
| Text.TrimStartShape | backend/risk_engine.py:260 | `lstrip` keeps a suffix that does not start with whitespace and removes only whitespace |
| Text.TrimEndShape | backend/risk_engine.py:260 | `rstrip` keeps a prefix that does not end with whitespace and removes only whitespace |
| Text.StripStripped | backend/risk_engine.py:260 | stripping an already stripped string changes nothing |
| Text.Upper | backend/risk_engine.py:260 | `str.upper` on ASCII: same length, each character upper-cased |
| Text.UpperMeaning | backend/risk_engine.py:260 | no lower-case letter is left; every lower-case letter becomes the upper-case letter 32 code points below; every other character is kept |
| Text.LowerMeaning | backend/cpic_api.py:269 | no upper-case letter is left; every upper-case letter becomes the lower-case letter 32 code points above; every other character is kept |
| Text.UpperIdempotent | backend/risk_engine.py:260 | upper-casing twice is upper-casing once |
| Text.LowerIdempotent | backend/cpic_api.py:269 | lower-casing twice is lower-casing once |
| Text.TrimLeadingChar | backend/vcf_parser.py:121 | `lstrip` of one character: a suffix of the input that does not start with that character |
| Text.Split | backend/vcf_parser.py:21 | `str.split` on one character: at least one piece, no piece contains the separator |
| Text.SplitJoin | backend/vcf_parser.py:35-36 | joining the pieces of a split with the separator gives the input back |
| Text.JoinSplit | backend/vcf_parser.py:35-36 | splitting a join of separator-free pieces gives the pieces back |
| Text.SortStringsCorrect | backend/vcf_parser.py:244 | `sorted` of distinct strings is ascending, duplicate-free and has the same elements |
| Text.ContainsTrans | backend/cpic_api.py:196-243 | a text containing a phrase contains every part of that phrase |
| Knowledge.LookupVariant | backend/risk_engine.py:12-55 | `KNOWN_VARIANTS.get`: a found entry has the identifier; None exactly when no entry has it |
| Knowledge.LookupGeneStar | backend/vcf_parser.py:174-180 | the first catalog entry with the gene and star; None exactly when there is none |
| Knowledge.CatalogTargeted | backend/risk_engine.py:12-57 | every catalog entry belongs to a tracked gene and names an effect |
| Knowledge.LookupTargeted | backend/risk_engine.py:12-57 | a variant found by identifier belongs to a tracked gene |
| Knowledge.AliasTargetsCanonical | backend/risk_engine.py:63-76 | every alias names a drug of the table that is not itself an alias |
| Knowledge.CanonicalNamesNormalised | backend/risk_engine.py:63-70 | table names are upper case and stripped |
| Knowledge.ResolveDrugIdempotent | backend/risk_engine.py:259-261 | resolving a resolved name changes nothing |
| Knowledge.ResolveNormalised | backend/risk_engine.py:259-261 | on an upper-case stripped name, resolution is the alias lookup alone |
| Knowledge.CanonicalNotAlias | backend/risk_engine.py:63-76 | no table name is also an alias |
| Knowledge.ResolveCanonical | backend/risk_engine.py:259-261 | a table name resolves to itself |
| Knowledge.ResolveAlias | backend/risk_engine.py:259-261 | a brand name in any case or spacing resolves to a table drug |
| Phenotype.AlleleActivity | backend/risk_engine.py:87-127 | the gene's table value when listed, 1.0 otherwise, never above 1.5 |
| Phenotype.DeterminePhenotype | backend/risk_engine.py:130-153 | PM exactly when the summed activity is 0; TPMT, DPYD and SLCO1B1 never rank above NM |
| Phenotype.ActivityIsPerGene | backend/risk_engine.py:87-127 | *17 scores 0.5 in CYP2D6 and 1.5 in CYP2C19; an untabled gene scores every label 1.0 |
| Phenotype.PhenotypeSymmetric | backend/risk_engine.py:130-153 | the phenotype does not depend on allele order |
| Phenotype.TpmtDpydBands | backend/risk_engine.py:135-138 | TPMT and DPYD: IM exactly for totals in (0, 1.0], NM above |
| Phenotype.Slco1b1Bands | backend/risk_engine.py:140-143 | SLCO1B1: IM exactly for totals in (0, 2.0), NM from 2.0 |
| Phenotype.CypBands | backend/risk_engine.py:145-153 | other genes: IM below 1.0, NM up to 2.0, RM up to 2.5, URM above; the gain-of-function rule never changes this |
| Phenotype.PhenotypeMonotone | backend/risk_engine.py:130-153 | more total activity never gives a lower phenotype |
| Phenotype.ReferenceIsNormal | backend/risk_engine.py:130-153 | *1/*1 is NM in every gene |
| Phenotype.PhenotypeVectors | backend/risk_engine.py:130-153 | the repository's diplotype-to-phenotype examples |
| Cpic.ClassifyRecommendation | backend/cpic_api.py:191-243 | Toxic exactly when a toxic phrase occurs, critical among those exactly when a critical phrase occurs; Unknown exactly when no phrase matches and the recommendation is blank; otherwise the low-severity default |
| Cpic.ClassifyIsFirstMatch | backend/cpic_api.py:196-243 | the if-chain equals the first matching rule of the ordered rule table, with the same defaults |
| Cpic.StrengthIgnored | backend/cpic_api.py:191-243 | the recommendation strength never affects the classification |
| Cpic.ToxicTakesPrecedence | backend/cpic_api.py:199-206 | a text with "significantly increased risk" is Toxic although it also contains an adjust phrase |
| Cpic.FatalIsCritical | backend/cpic_api.py:199-205 | a text containing "fatal" is classified Toxic, critical, emergent |
| Cpic.ExtractMonitoring | backend/cpic_api.py:263-280 | at most five distinct labels, all from matched keywords, and as many as five when that many matched |
| Cpic.CollectMonitors | backend/cpic_api.py:277-279 | the collected labels are exactly those whose keyword occurs in the lower-cased text |
| Cpic.TakeDistinct | backend/cpic_api.py:280 | `list(set(...))[:limit]`: distinct members of the pool, as many as the pool or the limit allows |
| Cpic.FindGeneForDrug | backend/cpic_api.py:414-428 | None exactly when no pair's drug name contains the lower-cased query |
| Cpic.ExactMatchPreferred | backend/cpic_api.py:420-423 | the first exact level A/B pair wins |
| Cpic.PartialMatchFallback | backend/cpic_api.py:424-427 | without an exact level A/B pair, the first pair whose name contains the query wins |
| Cpic.SelectRecommendationRow | backend/cpic_api.py:105-148 | (`RowChoice`) no drug id gives no row; a non-empty filtered answer gives its first general-population row, else its first row; otherwise the first broader row whose phenotype matches ignoring case, None when none matches |
| Cpic.NormalizeRecommendation | backend/cpic_api.py:151-179 | (`NormalizedFrom`) confidence 0.92, the label, severity and urgency the classifier gives for the recommendation and the gene's implication (the per-gene entry or "" for a mapping, the text itself otherwise), the recommendation text as dosing, the extracted alternatives and guideline name; the monitoring labels are distinct, all from matched keywords, and number min(5, matched) |
| Cpic.LookupFull | backend/cpic_api.py:386-411 | an answer exactly when a phenotype and a drug id are known and either the filtered rows are non-empty or some broader row matches the phenotype; the answer is the normalisation of the row `RowChoice` selects |
| Risk.CoreDrugNamed | backend/risk_engine.py:160-203 | a name has matrix rows exactly when it is one of the six core drugs |
| Risk.PhenotypeOfCode | backend/risk_engine.py:160-203 | a code has a matrix column exactly when it is one of PM, IM, NM, RM, URM |
| Risk.TablesCover | backend/risk_engine.py:63-70 | the matrix covers exactly the drugs of the drug table |
| Risk.MatrixConsistent | backend/risk_engine.py:160-252 | every cell has a known label other than Unknown, confidence at most 1.0; Safe cells have severity none and routine urgency; PM and IM are never Safe |
| Risk.AllCells | backend/risk_engine.py:160-252 | every cell of the matrix satisfies the cell consistency rules above |
| Risk.GetDrugGeneInfo | backend/risk_engine.py:264-288 | the table entry wins, then the database, then a CPIC pair with a non-empty gene; None exactly when all three fail |
| Risk.BrandNamesResolve | backend/risk_engine.py:264-269 | a brand name in any case or spacing gets the built-in entry of the drug it stands for, whatever the external sources hold |
| Risk.BuiltInGuideline | backend/risk_engine.py:326-362 | an unknown drug gives exactly the "no data" guideline (Unknown, confidence 0, low, routine, no lists); a known drug with an unknown phenotype gives exactly the "undetermined" guideline (Unknown, 0.5, moderate, soon, standard monitoring); otherwise the matrix cell and its recommendation |
| Risk.AssessRisk | backend/risk_engine.py:297-362 | CPIC answers exactly when gene, diplotype and a CPIC result are present; the database answers exactly when CPIC did not and it has a result; otherwise the built-in answer |
| Risk.NoGenotypeSkipsCpic | backend/risk_engine.py:308 | without gene and diplotype the CPIC result is never used |
| Risk.NoExternalAnswer | backend/risk_engine.py:319-362 | with no external answer the built-in tables decide |
| Risk.AliasSameRisk | backend/risk_engine.py:305 | a brand name gets the same built-in risk as its generic name |
| Risk.BuiltInOfCore | backend/risk_engine.py:347-362 | a core drug and phenotype code get the matrix cell and its recommendation |
| Risk.CoreDrugNameRoundTrip | backend/risk_engine.py:160-203 | a core drug's table name finds that drug |
| Risk.PhenotypeCodeRoundTrip | backend/risk_engine.py:160-203 | a phenotype's code finds that phenotype |
| Risk.ClassifiedPhenotypeIsKnown | backend/risk_engine.py:336-347 | every phenotype the classifier produces has a built-in answer for every table drug |
| Risk.RiskVectors | backend/risk_engine.py:160-203 | the repository's risk examples as matrix cells |
| Risk.CodeinePoorMetabolizer | backend/risk_engine.py:297-362 | codeine with PM and no external answer is Ineffective, 0.95, high |
| Risk.UnsupportedDrug | backend/risk_engine.py:326-334 | a drug outside the tables with no external answer gets exactly the "no data" guideline: Unknown, confidence 0, severity low, urgency routine, no alternatives, no monitoring |
| Risk.UnknownPhenotype | backend/risk_engine.py:336-345 | a table drug with a phenotype outside PM/IM/NM/RM/URM and no external answer gets exactly the "undetermined" guideline |
| Risk.TylenolUnsupported | backend/risk_engine.py:259-261 | TYLENOL resolves outside the tables |
| Vcf.ParseInfoField | backend/vcf_parser.py:16-27 | the loop computes the INFO map: empty for "" and ".", otherwise each item folded in order |
| Vcf.ParseInfoItem | backend/vcf_parser.py:22-26 | the loop body splits one item at its first `=` into the stripped key and value, or takes the stripped item with value "true" |
| Vcf.InfoFoldStep | backend/vcf_parser.py:21-26 | each item processed adds or overwrites exactly its own key in the map built so far |
| Vcf.InfoFoldKeys | backend/vcf_parser.py:21-26 | a key is in the map exactly when some item has it as key |
| Vcf.InfoFoldLastWins | backend/vcf_parser.py:21-26 | a repeated key keeps the value of its last item |
| Vcf.ItemRoundTrip | backend/vcf_parser.py:22-24 | an item written as key=value parses back to that key and value |
| Vcf.ExtractGenotype | backend/vcf_parser.py:30-43 | an empty column gives ""; a non-empty genotype needs GT among the FORMAT keys |
| Vcf.GenotypeTooFewSubfields | backend/vcf_parser.py:33-41 | a sample with fewer subfields than the position of the first GT has no genotype |
| Vcf.GenotypeRoundTrip | backend/vcf_parser.py:30-43 | with GT first at position i, the genotype is the sample's i-th value |
| Vcf.SearchFrom | backend/vcf_parser.py:96 | `re.search`: the leftmost position where the pattern matches, None when none does |
| Vcf.MatchAt | backend/vcf_parser.py:96 | a match starts with PATIENT in any case and captures a non-empty run without whitespace |
| Vcf.NormalizePid | backend/vcf_parser.py:97-100 | the identifier always starts with PATIENT, ignoring case |
| Vcf.NormalizePidIdempotent | backend/vcf_parser.py:97-100 | normalising twice is normalising once |
| Vcf.MatchImpliesPatientWord | backend/vcf_parser.py:93-96 | a pattern match implies the PATIENT test the scan applies first |
| Vcf.ScanLinePatient | backend/vcf_parser.py:92-101 | one line changes the patient exactly when it is a meta line whose pattern matches, and then to the normalised capture |
| Vcf.ScanPatientId | backend/vcf_parser.py:91-101 | the patient after the scan is the one the last declaring meta line sets, or PATIENT_001 |
| Vcf.LastDeclaredNone | backend/vcf_parser.py:64-101 | with no line declaring anything the last declaration is the default PATIENT_001 |
| Vcf.LastDeclaredWins | backend/vcf_parser.py:92-101 | a declaring line followed only by non-declaring lines gives the last declaration |
| Vcf.PatientIdDefault | backend/vcf_parser.py:64-101 | without a declaring meta line the patient is PATIENT_001 |
| Vcf.PatientIdLastWins | backend/vcf_parser.py:92-101 | the last declaring meta line sets the patient |
| Vcf.DataLinesAreData | backend/vcf_parser.py:104-105 | every collected data line is non-empty and not a comment |
| Vcf.ScanVcfLines | backend/vcf_parser.py:88-105 | the scan loop computes the fold of the line classifier |
| Vcf.Identify | backend/vcf_parser.py:164-242 | a recorded variant is of a tracked gene, has an effect and keeps the row genotype |
| Vcf.IdentifyCases | backend/vcf_parser.py:164-221 | a row is dropped exactly when its GENE tag is untracked and its identifier is empty or unknown; a tracked GENE tag keeps gene and star; otherwise a catalogued identifier gives the catalog entry's gene, star and effect |
| Vcf.ByGeneEffect | backend/vcf_parser.py:171-184 | strategy 1 takes effect and description from the identifier's catalog entry, else from the entry of the gene and star when a star is given, else "unknown" and no description |
| Vcf.ByGene | backend/vcf_parser.py:164-199 | strategy 1 keeps the INFO gene and star and always sets an effect |
| Vcf.ByCatalog | backend/vcf_parser.py:205-221 | strategy 2 takes gene, star and effect from the catalog entry |
| Vcf.ProcessRow | backend/vcf_parser.py:130-242 | the row body computes the row classifier: malformed, homozygous reference, unidentified or found |
| Vcf.RowsFacts | backend/vcf_parser.py:129-242 | the counter equals the number of lines with at least five fields; recorded variants never outnumber counted rows, nor these the data lines; each is of a tracked gene, has an effect and is not 0/0 |
| Vcf.HomozygousReferenceCounted | backend/vcf_parser.py:129-162 | a well-formed 0/0 or 0|0 row adds one to the counter and records nothing |
| Vcf.OfGene | backend/vcf_parser.py:202 | the variants of one gene, drawn from the input |
| Vcf.GroupKeys | backend/vcf_parser.py:202 | a gene has a list exactly when it is in the key order; lists are non-empty; every variant's gene has one |
| Vcf.GroupIsOfGene | backend/vcf_parser.py:202 | each gene's list is exactly that gene's variants in input order |
| Vcf.GeneOrderDistinct | backend/vcf_parser.py:202 | each gene is listed once |
| Vcf.GroupSizesSum | backend/vcf_parser.py:202 | the list lengths add up to the number of variants |
| Vcf.GroupStep | backend/vcf_parser.py:202 | the `setdefault(...).append` update is the grouping of one more variant |
| Vcf.GroupingOf | backend/vcf_parser.py:202-244 | the grouping holds each gene's variants in order, covers every variant, sums to their number, and its sorted key list is ascending, duplicate-free and equal to the keys |
| Vcf.KeysAreVariantGenes | backend/vcf_parser.py:202 | every gene with a list is the gene of some recorded variant |
| Vcf.ProcessRows | backend/vcf_parser.py:129-242 | the row loop computes the count, the variants and their grouping |
| Vcf.ParseVcf | backend/vcf_parser.py:46-245 | the parser computes the specification result for every input |
| Vcf.ResultValidity | backend/vcf_parser.py:107-122 | valid exactly when a header or a data line exists; each problem is reported exactly when its line is missing; an invalid result records nothing |
| Vcf.ResultCounts | backend/vcf_parser.py:129-242 | the total equals the number of data lines with at least five fields; recorded variants never outnumber it; each is tracked, has an effect and is not homozygous reference |
| Vcf.ResultGrouping | backend/vcf_parser.py:202-244 | per-gene lists are each gene's variants in order and sum to all of them; `genes_found` is sorted, duplicate-free, tracked and equals the keys |
| Vcf.EmptyContent | backend/vcf_parser.py:78-121 | empty input is invalid, reports both problems and keeps the default patient |
| Vcf.EmptyScan | backend/vcf_parser.py:68-105 | empty content leaves the scan in its initial state: default patient, no fileformat line, no header, no data |
| Vcf.InitialResult | backend/vcf_parser.py:68-122 | with nothing scanned the result is invalid, with the default patient, no variants, no genes and both problems reported |
| Profile.StarsOf | backend/vcf_parser.py:283-287 | the collected stars are non-empty, not "unknown", and each is some variant's star |
| Profile.StarsOfEmpty | backend/vcf_parser.py:283-287 | no star is collected exactly when no variant has a reported star |
| Profile.Dedupe | backend/vcf_parser.py:302 | `dict.fromkeys`: distinct, same elements, no longer |
| Profile.DedupeHead | backend/vcf_parser.py:302-303 | the first star stays first |
| Profile.DedupeSecond | backend/vcf_parser.py:302-304 | the second entry is the first star different from the first |
| Profile.DedupeAllSame | backend/vcf_parser.py:302-304 | one repeated star deduplicates to itself |
| Profile.ChooseAlleles | backend/vcf_parser.py:289-304 | each allele is *1 or a collected star |
| Profile.AlleleRules | backend/vcf_parser.py:289-304 | no star gives *1/*1; one star gives star/star on a 1/1 or 1\|1 first genotype and *1/star otherwise; one repeated star gives star/star |
| Profile.AllelesFirstTwoDistinct | backend/vcf_parser.py:300-304 | with several stars the alleles are the first star and the first one that differs |
| Profile.DiplotypeRoundTrip | backend/vcf_parser.py:306 | splitting the diplotype at "/" gives the two alleles back |
| Profile.CollectStars | backend/vcf_parser.py:283-287 | the loop collects the reported stars in order |
| Profile.PickAlleles | backend/vcf_parser.py:289-304 | the branch chain computes the allele choice |
| Profile.CollectDetected | backend/vcf_parser.py:309-323 | the loop builds one detected record per variant, in order |
| Profile.BuildProfileForDrug | backend/vcf_parser.py:248-330 | the method computes the profile specification |
| Profile.ProfileCases | backend/vcf_parser.py:256-280 | all Unknown when no gene is known for the drug; *1/*1, NM and no variants when the gene has no recorded variant; otherwise the gene's profile; the primary gene is never empty |
| Profile.ProfileOfTableDrug | backend/vcf_parser.py:256-270 | a table drug gets the profile of its table gene whatever the external sources hold |
| Profile.TableDrugInfo | backend/risk_engine.py:264-269 | a table drug's gene information is its table entry |
| Profile.TableGenesNamed | backend/risk_engine.py:63-70 | every drug of the table names a gene |
| Profile.CodeineGene | backend/risk_engine.py:63-70 | codeine is tabled under CYP2D6 |
| Profile.DiplotypeMatchesPhenotype | backend/vcf_parser.py:306-307 | the diplotype splits into the alleles the phenotype was classified from |
| Profile.DetectedBelongToGene | backend/vcf_parser.py:270-323 | on a parse result every detected variant belongs to the primary gene and they are that gene's variants in order |
| Profile.FirstVariantGenotypeDecides | backend/vcf_parser.py:292-299 | the homozygous test reads the gene's first variant, even when the star is on a later one |
| Profile.HomozygousStar4 | backend/vcf_parser.py:292-307 | one homozygous CYP2D6 *4 profiles as *4/*4, PM |
| Profile.CodeineHomozygousStar4 | backend/vcf_parser.py:248-330 | codeine with a homozygous *4 profiles as CYP2D6, *4/*4, PM |
| Vcf.GeneStarInfo | backend/vcf_parser.py:16-27 | an INFO text "GENE=g;STAR=s" parses to GENE g and STAR s |
| Vcf.GeneTaggedRowFound | backend/vcf_parser.py:129-198 | a ten-column row with INFO "GENE=g;STAR=s" for a tracked g, FORMAT GT and a non-reference genotype is recorded with gene g, star s and that genotype |
| Vcf.StarFourRowFound | tests/test_api.py:18 | the data row of the API test is recorded as CYP2D6 *4 with genotype 1/1 |
| Vcf.HeaderWithSample | backend/vcf_parser.py:118-124 | a "#" header line with ten columns makes the parser read genotypes |
| Vcf.StarFourHeader | tests/test_api.py:17 | the header line of the API test makes the parser read genotypes |
| Vcf.SingleFoundRow | backend/vcf_parser.py:129-199 | a file whose only data row is identified groups that one variant under its gene |
| Profile.StarFourFileCodeine | tests/test_api.py:15-40 | the header and data row of the API test give codeine the CYP2D6, *4/*4, PM profile with the one *4 variant, genotype 1/1, detected |

## Left out

- Network and database I/O:
  - `_get`, the caching, and the query strings sent to the CPIC service and the database are not modelled.
  - Their answers are parameters.
  - `cpic_diplotype_to_phenotype` and `cpic_get_drug` are represented only by their results: the phenotype and the drug id or ATC class.
- Exceptions raised by the service calls are treated as no answer, as the source's `try` blocks do.
- `_extract_alternatives` (regex drug-name extraction) is not modelled. `Cpic.NormalizeRecommendation` takes the alternatives as a parameter.
- Metadata fields are not modelled:
  - the `cpic_metadata` block;
  - the `source` tag written into the answer of `assess_risk`;
  - the `cpic_phenotype` and `cpic_diplotype_data` fields added by `cpic_lookup_full`.
  - `Risk.Assessment` records the source as a separate value instead.
- `Cpic.ExtractMonitoring`: the order of the result is not modelled, because `list(set(...))` has no defined order. The model proves which labels and how many, and picks any of them nondeterministically.
- Falsy empty rows: the source treats a row that is an empty dictionary as absent when choosing the best row. `Cpic.SelectRecommendationRow` treats every row as present.
- `Vcf.Identify`: the QUAL column is kept as text. `float()` parsing and its fall-back to 0.0 on unparsable text are not modelled, because they are floating point.
- Python's Unicode behaviour is limited to ASCII:
  - `str.isdigit` on positions;
  - `upper`, `lower` and the IGNORECASE flag.
- The "Empty VCF file" error (backend/vcf_parser.py:79-81) is not modelled: `str.split` always yields at least one line (`Text.Split`), so that branch is never taken.
- The `FILTER` column is read by the source but never used, and is not modelled.
- Strategy 3 of the row identification is dead: a tracked gene is already taken by strategy 1. `Vcf.Identify` marks that branch unreachable.
- The gain-of-function rule of `determine_phenotype` cannot fire: it needs a total of 2.5 inside a branch limited to 2.0. `Phenotype.DeterminePhenotype` marks it unreachable.
- `get_allele_activity_db` and the code after the return in `assess_risk` (backend/risk_engine.py:366-411) are not modelled. Neither is ever reached from the modelled paths.
- `Risk.GetDrugGeneInfo`: a CPIC drug record without an ATC class is modelled as an empty class, not as a missing value.
- `Profile.StarFourFileCodeine` starts from the scanned header line and data line of the API test's file. Stripping the whole text and scanning its meta lines are proved in general (`Vcf.ParseVcf`), not traced for this one text.
- Logging output is not modelled.
