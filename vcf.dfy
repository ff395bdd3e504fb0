/** The variant parser of backend/vcf_parser.py: INFO and genotype fields,
    the patient identifier in the meta lines, identification of
    pharmacogenomic rows against the known-variant catalog, and `parse_vcf`
    itself, which scans the lines and then fills the result record row by
    row. Each imperative piece is a method proved against a specification
    function over the input text. */
module Vcf {
  import opened Wrappers
  import opened Text
  import opened Knowledge

  // ---------------------------------------------------------------------
  // parse_info_field
  // ---------------------------------------------------------------------

  /** The key an INFO item contributes: the stripped text before the first
      `=`, or the whole stripped item for a flag. */
  function ItemKey(item: string): string {
    var i := IndexOf(item, '=');
    if i < |item| then Strip(item[..i]) else Strip(item)
  }

  /** The value an INFO item contributes: the stripped text after the first
      `=`, or "true" for a flag. */
  function ItemValue(item: string): string {
    var i := IndexOf(item, '=');
    if i < |item| then Strip(item[i + 1..]) else "true"
  }

  /** The map built from `items` in order, later keys overwriting earlier. */
  function InfoFold(items: seq<string>): map<string, string>
    decreases |items|
  {
    if items == [] then map[]
    else
      var last := items[|items| - 1];
      InfoFold(items[..|items| - 1])[ItemKey(last) := ItemValue(last)]
  }

  /** The INFO map of an INFO column. */
  function InfoMap(info: string): map<string, string> {
    if info == "" || info == "." then map[] else InfoFold(Split(info, ';'))
  }

  /** One INFO item: `key=value` split at the first `=`, a flag otherwise. */
  method ParseInfoItem(item: string) returns (key: string, value: string)
    ensures key == ItemKey(item) && value == ItemValue(item)
  {
    var eq := IndexOf(item, '=');
    if eq < |item| {
      key, value := Strip(item[..eq]), Strip(item[eq + 1..]);
    } else {
      key, value := Strip(item), "true";
    }
  }

  /** `parse_info_field`. */
  method ParseInfoField(info: string) returns (result: map<string, string>)
    ensures result == InfoMap(info)
  {
    result := map[];
    if info == "" || info == "." {
      return;
    }
    var items := Split(info, ';');
    var k := 0;
    while k < |items|
      invariant 0 <= k <= |items|
      invariant result == InfoFold(items[..k])
    {
      var item := items[k];
      InfoFoldStep(items, k);
      var key, value := ParseInfoItem(item);
      result := result[key := value];
      k := k + 1;
    }
    assert items[..|items|] == items;
  }

  /** One more item updates the map with its key and value. */
  lemma InfoFoldStep(items: seq<string>, k: nat)
    requires k < |items|
    ensures InfoFold(items[..k + 1]) == InfoFold(items[..k])[ItemKey(items[k]) := ItemValue(items[k])]
  {
    assert items[..k + 1][..k] == items[..k];
  }

  /** The keys of `items`, in order. */
  function ItemKeys(items: seq<string>): (ks: seq<string>)
    ensures |ks| == |items|
    ensures forall k :: 0 <= k < |items| ==> ks[k] == ItemKey(items[k])
    decreases |items|
  {
    if items == [] then [] else ItemKeys(items[..|items| - 1]) + [ItemKey(items[|items| - 1])]
  }

  /** The keys of the map are exactly the keys of the items. */
  lemma {:induction false} InfoFoldKeys(items: seq<string>, key: string)
    ensures key in InfoFold(items) <==> key in ItemKeys(items)
    decreases |items|
  {
    if items != [] {
      var n := |items| - 1;
      InfoFoldKeys(items[..n], key);
      assert ItemKeys(items) == ItemKeys(items[..n]) + [ItemKey(items[n])];
    }
  }

  /** Later items win: a key maps to the value of the last item with that key. */
  lemma {:induction false} InfoFoldLastWins(items: seq<string>, j: nat)
    requires j < |items|
    requires forall k :: j < k < |items| ==> ItemKey(items[k]) != ItemKey(items[j])
    ensures ItemKey(items[j]) in InfoFold(items)
    ensures InfoFold(items)[ItemKey(items[j])] == ItemValue(items[j])
    decreases |items|
  {
    var n := |items| - 1;
    if j < n {
      forall k | j < k < n ensures ItemKey(items[..n][k]) != ItemKey(items[..n][j]) {
        assert items[..n][k] == items[k];
      }
      InfoFoldLastWins(items[..n], j);
      assert items[..n][j] == items[j];
    }
  }

  /** Partner of `ItemKey`/`ItemValue`: an item written as key=value, with a
      key free of `=` and both sides stripped, reads back as that pair. */
  lemma ItemRoundTrip(key: string, value: string)
    requires forall j :: 0 <= j < |key| ==> key[j] != '='
    requires IsStripped(key) && IsStripped(value)
    ensures ItemKey(key + "=" + value) == key && ItemValue(key + "=" + value) == value
  {
    var item := key + "=" + value;
    assert item[|key|] == '=';
    assert IndexOf(item, '=') == |key| by {
      forall j | 0 <= j < |key| ensures item[j] != '=' {
        assert item[j] == key[j];
      }
    }
    assert item[..|key|] == key;
    assert item[|key| + 1..] == value;
    StripStripped(key);
    StripStripped(value);
  }

  // ---------------------------------------------------------------------
  // extract_genotype
  // ---------------------------------------------------------------------

  /** `extract_genotype`: the sample subfield at the first "GT" of the
      FORMAT column; "" when either column is empty, FORMAT has no GT, or the
      sample has too few subfields. */
  function ExtractGenotype(format: string, sample: string): (gt: string)
    ensures format == "" || sample == "" ==> gt == ""
    ensures gt != "" ==> exists i :: 0 <= i < |Split(format, ':')| && Split(format, ':')[i] == "GT"
  {
    if format == "" || sample == "" then ""
    else
      var keys := Split(format, ':');
      var values := Split(sample, ':');
      var idx := IndexOf(keys, "GT");
      if idx < |keys| && idx < |values| then values[idx] else ""
  }

  /** A sample with fewer subfields than the position of FORMAT's first GT
      has no genotype. */
  lemma GenotypeTooFewSubfields(format: string, sample: string)
    requires format != "" && sample != ""
    requires IndexOf(Split(format, ':'), "GT") >= |Split(sample, ':')|
    ensures ExtractGenotype(format, sample) == ""
  {
  }

  /** Partner of `ExtractGenotype`: joining colon-free keys and values into
      FORMAT and sample columns and extracting gives back the value at the
      first GT key. */
  lemma GenotypeRoundTrip(keys: seq<string>, values: seq<string>, i: nat)
    requires |keys| >= 1 && |values| >= 1
    requires forall k, j :: 0 <= k < |keys| && 0 <= j < |keys[k]| ==> keys[k][j] != ':'
    requires forall k, j :: 0 <= k < |values| && 0 <= j < |values[k]| ==> values[k][j] != ':'
    requires i < |keys| && i < |values| && keys[i] == "GT"
    requires forall j :: 0 <= j < i ==> keys[j] != "GT"
    requires Join(values, ':') != ""
    ensures ExtractGenotype(Join(keys, ':'), Join(values, ':')) == values[i]
  {
    JoinSplit(keys, ':');
    JoinSplit(values, ':');
    var idx := IndexOf(keys, "GT");
    assert idx == i;
    assert Join(keys, ':') != "";
  }

  // ---------------------------------------------------------------------
  // The patient identifier: PATIENT[_-]?ID\s*=\s*(\S+), ignoring case
  // ---------------------------------------------------------------------

  /** The first position at or after `i` that is not whitespace (`\s*`). */
  function SkipSpace(s: string, i: nat): (k: nat)
    requires i <= |s|
    ensures i <= k <= |s|
    ensures forall j :: i <= j < k ==> IsSpace(s[j])
    ensures k < |s| ==> !IsSpace(s[k])
    decreases |s| - i
  {
    if i < |s| && IsSpace(s[i]) then SkipSpace(s, i + 1) else i
  }

  /** The first position at or after `i` that is whitespace (the end of `\S+`). */
  function SkipNonSpace(s: string, i: nat): (k: nat)
    requires i <= |s|
    ensures i <= k <= |s|
    ensures forall j :: i <= j < k ==> !IsSpace(s[j])
    ensures k < |s| ==> IsSpace(s[k])
    decreases |s| - i
  {
    if i < |s| && !IsSpace(s[i]) then SkipNonSpace(s, i + 1) else i
  }

  /** `s` holds `word` at `i`, ignoring the case of ASCII letters. */
  predicate WordAt(s: string, i: nat, word: string) {
    i + |word| <= |s| && Upper(s[i..i + |word|]) == word
  }

  /** The rest of the pattern from `ID` on, matched at `j`: the captured
      identifier. The greedy `\s*` cannot give back a character to `=`, and
      `\S+` takes the whole run of non-space characters. */
  function MatchFromId(s: string, j: nat): (r: Option<string>)
    ensures r.Some? ==> r.value != [] && forall k :: 0 <= k < |r.value| ==> !IsSpace(r.value[k])
  {
    if WordAt(s, j, "ID") then
      var k := SkipSpace(s, j + 2);
      if k < |s| && s[k] == '=' then
        var m := SkipSpace(s, k + 1);
        var e := SkipNonSpace(s, m);
        if m < e then Some(s[m..e]) else None
      else None
    else None
  }

  /** The whole pattern matched at `i`: PATIENT, then an optional `_` or `-`
      (tried first, as the greedy `?` does), then the rest. */
  function MatchAt(s: string, i: nat): (r: Option<string>)
    ensures r.Some? ==> WordAt(s, i, "PATIENT")
    ensures r.Some? ==> r.value != [] && forall k :: 0 <= k < |r.value| ==> !IsSpace(r.value[k])
  {
    if WordAt(s, i, "PATIENT") then
      var j := i + 7;
      if j < |s| && (s[j] == '_' || s[j] == '-') && MatchFromId(s, j + 1).Some? then MatchFromId(s, j + 1)
      else MatchFromId(s, j)
    else None
  }

  /** `re.search`: the match at the leftmost position at or after `i`. */
  function SearchFrom(s: string, i: nat): (r: Option<string>)
    requires i <= |s|
    ensures r.Some? ==> exists k :: i <= k < |s| && MatchAt(s, k) == r && forall j :: i <= j < k ==> MatchAt(s, j).None?
    ensures r.None? ==> forall k :: i <= k < |s| ==> MatchAt(s, k).None?
    decreases |s| - i
  {
    if i == |s| then None
    else if MatchAt(s, i).Some? then MatchAt(s, i)
    else SearchFrom(s, i + 1)
  }

  /** The identifier a meta line declares, if it matches the pattern. */
  function SearchPatientId(line: string): Option<string> {
    SearchFrom(line, 0)
  }

  /** The identifier as stored: prefixed with "PATIENT_" unless it already
      starts with PATIENT in any case. */
  function NormalizePid(pid: string): (r: string)
    ensures StartsWith(Upper(r), "PATIENT")
  {
    if StartsWith(Upper(pid), "PATIENT") then pid
    else
      var r := "PATIENT_" + pid;
      assert Upper(r)[..7] == "PATIENT";
      r
  }

  /** Normalising twice changes nothing. */
  lemma NormalizePidIdempotent(pid: string)
    ensures NormalizePid(NormalizePid(pid)) == NormalizePid(pid)
  {
  }

  /** A match implies the cheaper test the parser makes first: the
      upper-cased line contains PATIENT. */
  lemma MatchImpliesPatientWord(line: string)
    requires SearchPatientId(line).Some?
    ensures Contains(Upper(line), "PATIENT")
  {
    var k :| 0 <= k < |line| && MatchAt(line, k) == SearchPatientId(line);
    WordAtContains(line, k, "PATIENT");
  }

  /** A word found at `i` ignoring case occurs in the upper-cased text. */
  lemma WordAtContains(s: string, i: nat, word: string)
    requires WordAt(s, i, word)
    ensures Contains(Upper(s), word)
  {
    assert Upper(s)[i..i + |word|] == Upper(s[i..i + |word|]);
    assert OccursAt(Upper(s), word, i);
  }

  // ---------------------------------------------------------------------
  // parse_vcf: the line scan
  // ---------------------------------------------------------------------

  const DefaultPatientId: string := "PATIENT_001"
  /** The problems `parse_vcf` reports, with their messages. */
  datatype Issue = MissingFileformat | MissingHeader {
    function Message(): string {
      match this
      case MissingFileformat => "Warning: Missing ##fileformat=VCF header"
      case MissingHeader => "Missing #CHROM header line"
    }
  }

  /** What the first pass over the lines collects: whether a fileformat line
      was seen, the last column-header line, the data lines in order, and the
      patient identifier. */
  datatype Scan = Scan(hasFileformat: bool, header: Option<string>, dataLines: seq<string>, patientId: string)

  const InitialScan: Scan := Scan(false, None, [], DefaultPatientId)

  /** A meta line (`##`) that declares a patient identifier. */
  predicate DeclaresPatient(stripped: string) {
    StartsWith(stripped, "##") && Contains(Upper(stripped), "PATIENT") && SearchPatientId(stripped).Some?
  }

  /** The identifier a declaring meta line sets. */
  function DeclaredId(stripped: string): string
    requires DeclaresPatient(stripped)
  {
    NormalizePid(SearchPatientId(stripped).value)
  }

  predicate IsHeaderLine(stripped: string) {
    StartsWith(stripped, "#CHROM") || StartsWith(stripped, "#chrom")
  }

  predicate IsDataLine(stripped: string) {
    stripped != "" && !StartsWith(stripped, "#")
  }

  /** One step of the scan, on an already stripped line. */
  function ScanLine(sc: Scan, stripped: string): Scan {
    var ff := sc.hasFileformat || StartsWith(stripped, "##fileformat=VCF");
    if StartsWith(stripped, "##") then
      if DeclaresPatient(stripped) then
        sc.(hasFileformat := ff, patientId := DeclaredId(stripped))
      else sc.(hasFileformat := ff)
    else if IsHeaderLine(stripped) then sc.(hasFileformat := ff, header := Some(stripped))
    else if IsDataLine(stripped) then sc.(hasFileformat := ff, dataLines := sc.dataLines + [stripped])
    else sc.(hasFileformat := ff)
  }

  /** The scan of `lines`, each stripped first. */
  function ScanLines(lines: seq<string>): Scan
    decreases |lines|
  {
    if lines == [] then InitialScan
    else ScanLine(ScanLines(lines[..|lines| - 1]), Strip(lines[|lines| - 1]))
  }

  /** Only a declaring meta line changes the patient identifier. */
  lemma ScanLinePatient(sc: Scan, stripped: string)
    ensures ScanLine(sc, stripped).patientId ==
      if DeclaresPatient(stripped) then DeclaredId(stripped) else sc.patientId
  {
  }

  /** The identifier one raw line declares, if it is a declaring meta line. */
  function Declaration(line: string): Option<string> {
    var stripped := Strip(line);
    if DeclaresPatient(stripped) then Some(DeclaredId(stripped)) else None
  }

  /** The identifier of the last line that `decl` finds a declaration in,
      the default when there is none. */
  function LastDeclared(lines: seq<string>, decl: string -> Option<string>): string
    decreases |lines|
  {
    if lines == [] then DefaultPatientId
    else
      match decl(lines[|lines| - 1])
      case Some(id) => id
      case None => LastDeclared(lines[..|lines| - 1], decl)
  }

  /** The scan keeps the identifier of the last declaring line. */
  lemma {:induction false} ScanPatientId(lines: seq<string>)
    ensures ScanLines(lines).patientId == LastDeclared(lines, Declaration)
    decreases |lines|
  {
    if lines != [] {
      var n := |lines| - 1;
      ScanPatientId(lines[..n]);
      ScanLinePatient(ScanLines(lines[..n]), Strip(lines[n]));
    }
  }

  lemma {:induction false} LastDeclaredNone(lines: seq<string>, decl: string -> Option<string>)
    requires forall j :: 0 <= j < |lines| ==> decl(lines[j]).None?
    ensures LastDeclared(lines, decl) == DefaultPatientId
    decreases |lines|
  {
    if lines != [] {
      var n := |lines| - 1;
      forall j | 0 <= j < n ensures decl(lines[..n][j]).None? {
        assert lines[..n][j] == lines[j];
      }
      LastDeclaredNone(lines[..n], decl);
    }
  }

  lemma {:induction false} LastDeclaredWins(lines: seq<string>, decl: string -> Option<string>, j: nat)
    requires j < |lines| && decl(lines[j]).Some?
    requires forall k :: j < k < |lines| ==> decl(lines[k]).None?
    ensures LastDeclared(lines, decl) == decl(lines[j]).value
    decreases |lines|
  {
    var n := |lines| - 1;
    if j < n {
      var front := lines[..n];
      forall k | j < k < n ensures decl(front[k]).None? {
        assert front[k] == lines[k];
      }
      assert front[j] == lines[j];
      LastDeclaredWins(front, decl, j);
    }
  }

  /** Without a declaring meta line the identifier keeps its default. */
  lemma PatientIdDefault(lines: seq<string>)
    requires forall j :: 0 <= j < |lines| ==> !DeclaresPatient(Strip(lines[j]))
    ensures ScanLines(lines).patientId == DefaultPatientId
  {
    LastDeclaredNone(lines, Declaration);
    ScanPatientId(lines);
  }

  /** The last declaring meta line wins. */
  lemma PatientIdLastWins(lines: seq<string>, j: nat)
    requires j < |lines| && DeclaresPatient(Strip(lines[j]))
    requires forall k :: j < k < |lines| ==> !DeclaresPatient(Strip(lines[k]))
    ensures ScanLines(lines).patientId == DeclaredId(Strip(lines[j]))
  {
    LastDeclaredWins(lines, Declaration, j);
    ScanPatientId(lines);
  }

  /** Every collected data line is non-empty and is not a comment. */
  lemma {:induction false} DataLinesAreData(lines: seq<string>)
    ensures forall k :: 0 <= k < |ScanLines(lines).dataLines| ==> IsDataLine(ScanLines(lines).dataLines[k])
    decreases |lines|
  {
    if lines != [] {
      DataLinesAreData(lines[..|lines| - 1]);
    }
  }

  /** Whether genotypes are read: the header, without its leading `#`s, has
      more than 8 tab-separated columns (FORMAT) and more than 9 (a sample). */
  function GenotypeColumns(header: Option<string>): bool {
    match header
    case None => false
    case Some(h) =>
      var count := |Split(TrimLeadingChar(h, '#'), '\t')|;
      count > 8 && count > 9
  }

  // ---------------------------------------------------------------------
  // parse_vcf: identifying one data row
  // ---------------------------------------------------------------------

  /** The QUAL column: "." stands for no quality (0.0); otherwise the text is
      kept as it stands. */
  datatype Quality = NoQuality | QualityText(text: string)

  /** One pharmacogenomic variant as recorded. */
  datatype PgxVariant = PgxVariant(
    rsid: string, gene: string, chromosome: string, position: nat,
    ref: string, alt: string, star: string, genotype: string,
    effect: string, quality: Quality, description: string)

  /** `info.get(key, "")`. */
  function InfoGet(info: map<string, string>, key: string): string {
    if key in info then info[key] else ""
  }

  /** The catalog entry that gives a target-gene row its effect: by
      identifier, else the first entry with the same gene and star. */
  function EffectSource(lookupId: string, gene: string, star: string): Option<KnownVariant> {
    match LookupVariant(lookupId)
    case Some(v) => Some(v)
    case None => if star != "" then LookupGeneStar(gene, star) else None
  }

  /** The identifier a row is looked up by: its ID column, or the RS tag
      when the column is ".". */
  function LookupId(fields: seq<string>, info: map<string, string>): string
    requires |fields| >= 3
  {
    var rsid := Strip(fields[2]);
    if rsid != "." then rsid else InfoGet(info, "RS")
  }

  /** The columns every recorded variant takes from its row: chromosome,
      position (0 when not all digits), reference, alternate and quality
      (the text "0" when the column is absent). */
  datatype Located = Located(chromosome: string, position: nat, ref: string, alt: string, quality: Quality)

  function LocatedOf(fields: seq<string>): Located
    requires |fields| >= 5
  {
    var pos := Strip(fields[1]);
    var qual := if |fields| > 5 then Strip(fields[5]) else "0";
    Located(Strip(fields[0]), if IsDigits(pos) then DigitsValue(pos) else 0,
            Strip(fields[3]), Strip(fields[4]),
            if qual == "." then NoQuality else QualityText(qual))
  }

  /** Strategy 1: the INFO tags name a tracked gene; the catalog, by
      identifier or else by gene and star, gives effect and description. */
  function ByGene(at: Located, id: string, gene: string, star: string, genotype: string): (v: PgxVariant)
    ensures v.gene == gene && v.star == star && v.effect != "" && v.rsid == id
  {
    var known := EffectSource(id, gene, star);
    var effect := if known.Some? && known.value.effect != "" then known.value.effect else "unknown";
    var desc := if known.Some? then known.value.desc else "";
    PgxVariant(id, gene, at.chromosome, at.position, at.ref, at.alt, star, genotype, effect, at.quality, desc)
  }

  /** Where strategy 1 takes the effect and description from: the catalog
      entry of the identifier, else the entry of the gene and star when a
      star is given, else "unknown" and no description. */
  lemma ByGeneEffect(at: Located, id: string, gene: string, star: string, genotype: string)
    ensures var v := ByGene(at, id, gene, star, genotype);
      LookupVariant(id).Some? ==>
        v.effect == LookupVariant(id).value.effect && v.description == LookupVariant(id).value.desc
    ensures var v := ByGene(at, id, gene, star, genotype);
      LookupVariant(id).None? && star != "" && LookupGeneStar(gene, star).Some? ==>
        v.effect == LookupGeneStar(gene, star).value.effect && v.description == LookupGeneStar(gene, star).value.desc
    ensures var v := ByGene(at, id, gene, star, genotype);
      LookupVariant(id).None? && (star == "" || LookupGeneStar(gene, star).None?) ==>
        v.effect == "unknown" && v.description == ""
  {
    CatalogTargeted();
  }

  /** Strategy 2: the identifier is in the catalog, which gives gene, star,
      effect and description. */
  function ByCatalog(at: Located, id: string, entry: KnownVariant, genotype: string): (v: PgxVariant)
    ensures v.gene == entry.gene && v.star == entry.star && v.effect == entry.effect && v.rsid == id
  {
    PgxVariant(id, entry.gene, at.chromosome, at.position, at.ref, at.alt, entry.star, genotype, entry.effect, at.quality, entry.desc)
  }

  /** No tracked gene has an empty name. */
  lemma EmptyIsNotTarget()
    ensures "" !in TargetGenes
  {
  }

  /** The identification strategies of `parse_vcf` for a row of at least five
      fields, with its INFO map and genotype. A tracked gene in INFO wins;
      otherwise the identifier must be in the catalog. */
  function Identify(fields: seq<string>, info: map<string, string>, genotype: string): (r: Option<PgxVariant>)
    requires |fields| >= 5
    ensures r.Some? ==> r.value.gene in TargetGenes && r.value.effect != "" && r.value.genotype == genotype
  {
    var gene := InfoGet(info, "GENE");
    var id := LookupId(fields, info);
    if gene != "" && gene in TargetGenes then
      Some(ByGene(LocatedOf(fields), id, gene, InfoGet(info, "STAR"), genotype))
    else if id != "" && LookupVariant(id).Some? then
      LookupTargeted(id);
      Some(ByCatalog(LocatedOf(fields), id, LookupVariant(id).value, genotype))
    else if gene in TargetGenes then
      // Strategy 3 needs a tracked gene, which strategy 1 has already taken.
      EmptyIsNotTarget();
      assert false; None
    else None
  }

  /** A row is dropped exactly when its GENE tag names no tracked gene and
      its identifier is empty or not in the catalog; a row with a tracked
      GENE tag keeps that gene and its STAR tag. */
  lemma IdentifyCases(fields: seq<string>, info: map<string, string>, genotype: string)
    requires |fields| >= 5
    ensures Identify(fields, info, genotype).None? <==>
      InfoGet(info, "GENE") !in TargetGenes && (LookupId(fields, info) == "" || LookupVariant(LookupId(fields, info)).None?)
    ensures InfoGet(info, "GENE") in TargetGenes ==>
      Identify(fields, info, genotype).Some? && Identify(fields, info, genotype).value.gene == InfoGet(info, "GENE")
      && Identify(fields, info, genotype).value.star == InfoGet(info, "STAR")
    ensures InfoGet(info, "GENE") !in TargetGenes && LookupId(fields, info) != "" && LookupVariant(LookupId(fields, info)).Some? ==>
      var e := LookupVariant(LookupId(fields, info)).value;
      Identify(fields, info, genotype).Some? && Identify(fields, info, genotype).value.gene == e.gene
      && Identify(fields, info, genotype).value.star == e.star && Identify(fields, info, genotype).value.effect == e.effect
  {
    EmptyIsNotTarget();
  }

  /** What became of one data line. */
  datatype RowOutcome = Malformed | HomozygousReference | Unidentified | Found(variant: PgxVariant)

  /** The genotype a row's FORMAT and sample columns give, when read. */
  function RowGenotype(fields: seq<string>, gtCols: bool): string {
    if gtCols && |fields| > 9 then ExtractGenotype(fields[8], fields[9]) else ""
  }

  predicate IsHomozygousReference(genotype: string) {
    genotype == "0/0" || genotype == "0|0"
  }

  /** The fate of one data line: fewer than five fields is malformed; a
      homozygous-reference genotype is counted and dropped; otherwise the
      identification strategies decide. */
  function ClassifyRow(line: string, gtCols: bool): RowOutcome {
    var fields := Split(line, '\t');
    if |fields| < 5 then Malformed
    else
      var genotype := RowGenotype(fields, gtCols);
      if IsHomozygousReference(genotype) then HomozygousReference
      else
        var info := InfoMap(if |fields| > 7 then Strip(fields[7]) else "");
        match Identify(fields, info, genotype)
        case Some(v) => Found(v)
        case None => Unidentified
  }

  /** The row counter and the recorded variants after `lines`. */
  datatype Rows = Rows(total: nat, pgx: seq<PgxVariant>)

  function RowsOf(lines: seq<string>, gtCols: bool): Rows
    decreases |lines|
  {
    if lines == [] then Rows(0, [])
    else RowStep(RowsOf(lines[..|lines| - 1], gtCols), ClassifyRow(lines[|lines| - 1], gtCols))
  }

  /** A malformed row is not counted; every other row is, and only an
      identified one is recorded. */
  function RowStep(r: Rows, outcome: RowOutcome): Rows {
    match outcome
    case Malformed => r
    case HomozygousReference => r.(total := r.total + 1)
    case Unidentified => r.(total := r.total + 1)
    case Found(v) => Rows(r.total + 1, r.pgx + [v])
  }

  /** The number of lines with at least five tab-separated fields. */
  function CountWellFormed(lines: seq<string>): (n: nat)
    ensures n <= |lines|
    decreases |lines|
  {
    if lines == [] then 0
    else CountWellFormed(lines[..|lines| - 1]) + (if |Split(lines[|lines| - 1], '\t')| >= 5 then 1 else 0)
  }

  /** The counter counts exactly the well-formed rows, recorded or not, so
      there are never more variants than counted rows; every recorded
      variant belongs to a tracked gene, has an effect, and is not
      homozygous reference. */
  lemma {:induction false} RowsFacts(lines: seq<string>, gtCols: bool)
    ensures RowsOf(lines, gtCols).total == CountWellFormed(lines)
    ensures |RowsOf(lines, gtCols).pgx| <= RowsOf(lines, gtCols).total <= |lines|
    ensures forall k :: 0 <= k < |RowsOf(lines, gtCols).pgx| ==>
      var v := RowsOf(lines, gtCols).pgx[k];
      v.gene in TargetGenes && v.effect != "" && !IsHomozygousReference(v.genotype)
    decreases |lines|
  {
    if lines != [] {
      RowsFacts(lines[..|lines| - 1], gtCols);
    }
  }

  /** A well-formed homozygous-reference row is counted and recorded
      nowhere. */
  lemma HomozygousReferenceCounted(lines: seq<string>, line: string, gtCols: bool)
    requires |Split(line, '\t')| >= 5
    requires IsHomozygousReference(RowGenotype(Split(line, '\t'), gtCols))
    ensures RowsOf(lines + [line], gtCols).total == RowsOf(lines, gtCols).total + 1
    ensures RowsOf(lines + [line], gtCols).pgx == RowsOf(lines, gtCols).pgx
  {
    assert (lines + [line])[..|lines|] == lines;
  }

  // ---------------------------------------------------------------------
  // parse_vcf: grouping by gene
  // ---------------------------------------------------------------------

  /** `gene_variants`: each variant appended to the list of its gene. */
  function GroupByGene(vs: seq<PgxVariant>): map<string, seq<PgxVariant>>
    decreases |vs|
  {
    if vs == [] then map[]
    else
      var m := GroupByGene(vs[..|vs| - 1]);
      var v := vs[|vs| - 1];
      m[v.gene := (if v.gene in m then m[v.gene] else []) + [v]]
  }

  /** The order in which genes first appear (the key order of `gene_variants`). */
  function GeneOrder(vs: seq<PgxVariant>): seq<string>
    decreases |vs|
  {
    if vs == [] then []
    else
      var order := GeneOrder(vs[..|vs| - 1]);
      var g := vs[|vs| - 1].gene;
      if g in order then order else order + [g]
  }

  /** The variants of gene `g`, in order: the reference definition of a
      gene's list. */
  function OfGene(vs: seq<PgxVariant>, g: string): (r: seq<PgxVariant>)
    ensures |r| <= |vs|
    ensures forall k :: 0 <= k < |r| ==> r[k] in vs && r[k].gene == g
    decreases |vs|
  {
    if vs == [] then []
    else
      var front := OfGene(vs[..|vs| - 1], g);
      if vs[|vs| - 1].gene == g then front + [vs[|vs| - 1]] else front
  }

  /** A gene has a list exactly when it is in the key order, every recorded
      variant's gene has one, and no list is empty. */
  lemma {:induction false} GroupKeys(vs: seq<PgxVariant>)
    ensures forall g :: g in GroupByGene(vs) <==> g in GeneOrder(vs)
    ensures forall g :: g in GroupByGene(vs) ==> GroupByGene(vs)[g] != []
    ensures forall k :: 0 <= k < |vs| ==> vs[k].gene in GroupByGene(vs)
    decreases |vs|
  {
    if vs != [] {
      var n := |vs| - 1;
      GroupKeys(vs[..n]);
      forall k | 0 <= k < n ensures vs[k].gene in GroupByGene(vs) {
        assert vs[..n][k] == vs[k];
      }
    }
  }

  /** Each gene's list is exactly the variants of that gene, in input order
      (and a gene without a list has none). */
  lemma {:induction false} GroupIsOfGene(vs: seq<PgxVariant>)
    ensures forall g :: OfGene(vs, g) == if g in GroupByGene(vs) then GroupByGene(vs)[g] else []
    decreases |vs|
  {
    if vs != [] {
      GroupIsOfGene(vs[..|vs| - 1]);
    }
  }

  /** The key order lists each gene once. */
  lemma {:induction false} GeneOrderDistinct(vs: seq<PgxVariant>)
    ensures Distinct(GeneOrder(vs))
    decreases |vs|
  {
    if vs != [] {
      var n := |vs| - 1;
      var order := GeneOrder(vs[..n]);
      var g := vs[n].gene;
      GeneOrderDistinct(vs[..n]);
      if g !in order {
        forall a, b | 0 <= a < b < |order + [g]|
          ensures (order + [g])[a] != (order + [g])[b]
        {
          if b == |order| {
            assert (order + [g])[a] == order[a];
          }
        }
      }
    }
  }

  /** The sum of the list lengths of `keys` in `m`. */
  function SumLengths(m: map<string, seq<PgxVariant>>, keys: seq<string>): nat
    decreases |keys|
  {
    if keys == [] then 0
    else
      var g := keys[|keys| - 1];
      SumLengths(m, keys[..|keys| - 1]) + (if g in m then |m[g]| else 0)
  }

  /** Changing the list of a key outside `keys` leaves the sum alone. */
  lemma {:induction false} SumLengthsOther(m: map<string, seq<PgxVariant>>, keys: seq<string>, g: string, l: seq<PgxVariant>)
    requires g !in keys
    ensures SumLengths(m[g := l], keys) == SumLengths(m, keys)
    decreases |keys|
  {
    if keys != [] {
      SumLengthsOther(m, keys[..|keys| - 1], g, l);
    }
  }

  /** Appending one variant to the list of a key listed once adds one. */
  lemma {:induction false} SumLengthsBump(m: map<string, seq<PgxVariant>>, keys: seq<string>, g: string, v: PgxVariant)
    requires g in m && g in keys && Distinct(keys)
    ensures SumLengths(m[g := m[g] + [v]], keys) == SumLengths(m, keys) + 1
    decreases |keys|
  {
    var n := |keys| - 1;
    var front := keys[..n];
    assert Distinct(front) by {
      forall a, b | 0 <= a < b < |front| ensures front[a] != front[b] {
        assert front[a] == keys[a] && front[b] == keys[b];
      }
    }
    if keys[n] == g {
      assert g !in front;
      SumLengthsOther(m, front, g, m[g] + [v]);
    } else {
      assert g in front by {
        var a :| 0 <= a < |keys| && keys[a] == g;
        assert front[a] == g;
      }
      SumLengthsBump(m, front, g, v);
    }
  }

  /** The per-gene list lengths add up to the number of recorded variants. */
  lemma {:induction false} GroupSizesSum(vs: seq<PgxVariant>)
    ensures SumLengths(GroupByGene(vs), GeneOrder(vs)) == |vs|
    decreases |vs|
  {
    if vs != [] {
      var n := |vs| - 1;
      var front := vs[..n];
      var m := GroupByGene(front);
      var order := GeneOrder(front);
      var v := vs[n];
      GroupSizesSum(front);
      GroupKeys(front);
      GeneOrderDistinct(front);
      if v.gene in order {
        assert GroupByGene(vs) == m[v.gene := m[v.gene] + [v]];
        SumLengthsBump(m, order, v.gene, v);
      } else {
        assert v.gene !in m;
        assert [] + [v] == [v];
        assert GroupByGene(vs) == m[v.gene := [v]];
        assert GeneOrder(vs) == order + [v.gene];
        SumLengthsOther(m, order, v.gene, [v]);
        assert (order + [v.gene])[..|order|] == order;
        assert SumLengths(m[v.gene := [v]], order + [v.gene]) == SumLengths(m[v.gene := [v]], order) + 1;
      }
    }
  }

  // ---------------------------------------------------------------------
  // parse_vcf
  // ---------------------------------------------------------------------

  /** The result record of `parse_vcf`. */
  datatype ParseResult = ParseResult(
    patientId: string,
    totalVariants: nat,
    pgxVariants: seq<PgxVariant>,
    geneVariants: map<string, seq<PgxVariant>>,
    genesFound: seq<string>,
    errors: seq<Issue>,
    vcfValid: bool)

  /** What `parse_vcf` returns for `content`. The text is stripped and split
      into lines, which always gives at least one line, so the empty-file
      exit of the parser is never taken. */
  function ParseSpec(content: string): ParseResult {
    ResultOf(ScanOf(content))
  }

  /** The scan of the stripped content's lines. */
  function ScanOf(content: string): Scan {
    ScanLines(Split(Strip(content), '\n'))
  }

  /** The problems reported: a missing fileformat line, then a missing
      header line. */
  function IssuesOf(sc: Scan): seq<Issue> {
    (if sc.hasFileformat then [] else [MissingFileformat]) + (if sc.header.None? then [MissingHeader] else [])
  }

  /** The result built from the scan of the lines. */
  function ResultOf(sc: Scan): ParseResult {
    var errors := IssuesOf(sc);
    if sc.header.None? && sc.dataLines == [] then
      ParseResult(sc.patientId, 0, [], map[], [], errors, false)
    else
      var rows := RowsOf(sc.dataLines, GenotypeColumns(sc.header));
      ParseResult(sc.patientId, rows.total, rows.pgx, GroupByGene(rows.pgx),
                  SortStrings(GeneOrder(rows.pgx)), errors, true)
  }

  /** The first loop of `parse_vcf`: classify every stripped line. */
  method ScanVcfLines(lines: seq<string>) returns (sc: Scan)
    ensures sc == ScanLines(lines)
  {
    var hasFileformat := false;
    var header: Option<string> := None;
    var dataLines: seq<string> := [];
    var patientId := DefaultPatientId;
    var i := 0;
    while i < |lines|
      invariant 0 <= i <= |lines|
      invariant Scan(hasFileformat, header, dataLines, patientId) == ScanLines(lines[..i])
    {
      assert lines[..i + 1][..i] == lines[..i];
      var stripped := Strip(lines[i]);
      if StartsWith(stripped, "##fileformat=VCF") {
        hasFileformat := true;
      }
      if StartsWith(stripped, "##") {
        if Contains(Upper(stripped), "PATIENT") {
          var found := SearchPatientId(stripped);
          if found.Some? {
            patientId := NormalizePid(found.value);
          }
        }
      } else if StartsWith(stripped, "#CHROM") || StartsWith(stripped, "#chrom") {
        header := Some(stripped);
      } else if stripped != "" && !StartsWith(stripped, "#") {
        dataLines := dataLines + [stripped];
      }
      i := i + 1;
    }
    assert lines[..|lines|] == lines;
    sc := Scan(hasFileformat, header, dataLines, patientId);
  }

  /** The body of the row loop of `parse_vcf` for one data line. */
  method ProcessRow(line: string, gtCols: bool) returns (outcome: RowOutcome)
    ensures outcome == ClassifyRow(line, gtCols)
  {
    var fields := Split(line, '\t');
    if |fields| < 5 {
      return Malformed;
    }
    var genotype := "";
    if gtCols && |fields| > 9 {
      genotype := ExtractGenotype(fields[8], fields[9]);
    }
    if genotype == "0/0" || genotype == "0|0" {
      return HomozygousReference;
    }
    var info := ParseInfoField(if |fields| > 7 then Strip(fields[7]) else "");
    var found := Identify(fields, info, genotype);
    if found.Some? {
      outcome := Found(found.value);
    } else {
      outcome := Unidentified;
    }
  }

  /** One more variant, in `gene_variants.setdefault(gene, []).append(v)`
      form. */
  lemma GroupStep(vs: seq<PgxVariant>, v: PgxVariant)
    ensures GroupByGene(vs + [v]) ==
      var m := GroupByGene(vs);
      var m' := if v.gene !in m then m[v.gene := []] else m;
      m'[v.gene := m'[v.gene] + [v]]
    ensures GeneOrder(vs + [v]) ==
      if v.gene !in GroupByGene(vs) then GeneOrder(vs) + [v.gene] else GeneOrder(vs)
  {
    assert (vs + [v])[..|vs|] == vs;
    GroupKeys(vs);
  }

  /** The second loop of `parse_vcf`: count the rows, record the variants
      and group them by gene. */
  method ProcessRows(dataLines: seq<string>, gtCols: bool)
    returns (total: nat, pgx: seq<PgxVariant>, geneVariants: map<string, seq<PgxVariant>>, geneOrder: seq<string>)
    ensures Rows(total, pgx) == RowsOf(dataLines, gtCols)
    ensures geneVariants == GroupByGene(pgx) && geneOrder == GeneOrder(pgx)
  {
    total, pgx, geneVariants, geneOrder := 0, [], map[], [];
    var k := 0;
    while k < |dataLines|
      invariant 0 <= k <= |dataLines|
      invariant Rows(total, pgx) == RowsOf(dataLines[..k], gtCols)
      invariant geneVariants == GroupByGene(pgx) && geneOrder == GeneOrder(pgx)
    {
      assert dataLines[..k + 1][..k] == dataLines[..k];
      var outcome := ProcessRow(dataLines[k], gtCols);
      assert RowsOf(dataLines[..k + 1], gtCols) == RowStep(Rows(total, pgx), outcome);
      match outcome {
        case Malformed =>
        case HomozygousReference =>
          total := total + 1;
        case Unidentified =>
          total := total + 1;
        case Found(v) =>
          total := total + 1;
          GroupStep(pgx, v);
          pgx := pgx + [v];
          if v.gene !in geneVariants {
            geneOrder := geneOrder + [v.gene];
            geneVariants := geneVariants[v.gene := []];
          }
          geneVariants := geneVariants[v.gene := geneVariants[v.gene] + [v]];
      }
      k := k + 1;
    }
    assert dataLines[..|dataLines|] == dataLines;
  }

  /** `parse_vcf`. */
  method ParseVcf(content: string) returns (result: ParseResult)
    ensures result == ParseSpec(content)
  {
    var sc := ScanVcfLines(Split(Strip(content), '\n'));
    assert sc == ScanOf(content);
    var errors: seq<Issue> := [];
    if !sc.hasFileformat {
      errors := errors + [MissingFileformat];
    }
    if sc.header.None? {
      errors := errors + [MissingHeader];
    }
    assert errors == IssuesOf(sc);
    if sc.header.None? {
      if sc.dataLines == [] {
        return ParseResult(sc.patientId, 0, [], map[], [], errors, false);
      }
    }
    var hasFormat, hasSample := false, false;
    if sc.header.Some? {
      var cols := Split(TrimLeadingChar(sc.header.value, '#'), '\t');
      hasFormat := |cols| > 8;
      hasSample := |cols| > 9;
    }
    var total, pgx, geneVariants, geneOrder := ProcessRows(sc.dataLines, hasFormat && hasSample);
    result := ParseResult(sc.patientId, total, pgx, geneVariants, SortStrings(geneOrder), errors, true);
  }

  // ---------------------------------------------------------------------
  // What parse_vcf promises
  // ---------------------------------------------------------------------

  /** The result is usable exactly when a header line or a data line was
      found; the fileformat warning and the header error are reported
      exactly when those lines are missing, in that order; an unusable
      result records nothing. */
  lemma ResultValidity(sc: Scan)
    ensures ResultOf(sc).vcfValid <==> sc.header.Some? || sc.dataLines != []
    ensures (MissingFileformat in ResultOf(sc).errors) <==> !sc.hasFileformat
    ensures (MissingHeader in ResultOf(sc).errors) <==> sc.header.None?
    ensures |ResultOf(sc).errors| <= 2
    ensures !ResultOf(sc).vcfValid ==>
      ResultOf(sc).totalVariants == 0 && ResultOf(sc).pgxVariants == [] && ResultOf(sc).geneVariants == map[]
    ensures ResultOf(sc).patientId == sc.patientId
  {
  }

  /** Counting: `total_variants` is the number of data lines with at least
      five fields; no more recorded variants than counted rows; every
      recorded variant is of a tracked gene, has an effect and is not
      homozygous reference. */
  lemma ResultCounts(sc: Scan)
    ensures ResultOf(sc).totalVariants == CountWellFormed(sc.dataLines)
    ensures |ResultOf(sc).pgxVariants| <= ResultOf(sc).totalVariants <= |sc.dataLines|
    ensures forall k :: 0 <= k < |ResultOf(sc).pgxVariants| ==>
      var v := ResultOf(sc).pgxVariants[k];
      v.gene in TargetGenes && v.effect != "" && !IsHomozygousReference(v.genotype)
  {
    RowsFacts(sc.dataLines, GenotypeColumns(sc.header));
  }

  /** Grouping: `gene_variants` holds, for each gene with a recorded
      variant and for no other, that gene's variants in input order; the
      lists add up to the recorded variants; `genes_found` is the sorted,
      duplicate-free list of those genes, all of them tracked. */
  lemma {:induction false} ResultGrouping(sc: Scan)
    ensures var r := ResultOf(sc);
      forall g :: g in r.geneVariants ==> r.geneVariants[g] == OfGene(r.pgxVariants, g) && r.geneVariants[g] != []
    ensures var r := ResultOf(sc);
      forall k :: 0 <= k < |r.pgxVariants| ==> r.pgxVariants[k].gene in r.geneVariants
    ensures var r := ResultOf(sc);
      SumLengths(r.geneVariants, GeneOrder(r.pgxVariants)) == |r.pgxVariants|
    ensures var r := ResultOf(sc);
      Sorted(r.genesFound) && Distinct(r.genesFound) && Elems(r.genesFound) == r.geneVariants.Keys
    ensures ResultOf(sc).geneVariants.Keys <= TargetGenes
  {
    var r := ResultOf(sc);
    if r.vcfValid {
      ResultCounts(sc);
      GroupingOf(r.pgxVariants);
      KeysAreVariantGenes(r.pgxVariants);
    }
  }

  /** The grouping facts for any list of variants. */
  lemma GroupingOf(pgx: seq<PgxVariant>)
    ensures forall g :: g in GroupByGene(pgx) ==> GroupByGene(pgx)[g] == OfGene(pgx, g) && GroupByGene(pgx)[g] != []
    ensures forall k :: 0 <= k < |pgx| ==> pgx[k].gene in GroupByGene(pgx)
    ensures SumLengths(GroupByGene(pgx), GeneOrder(pgx)) == |pgx|
    ensures var genes := SortStrings(GeneOrder(pgx));
      Sorted(genes) && Distinct(genes) && Elems(genes) == GroupByGene(pgx).Keys
  {
    GroupKeys(pgx);
    GroupIsOfGene(pgx);
    GroupSizesSum(pgx);
    GeneOrderDistinct(pgx);
    SortStringsCorrect(GeneOrder(pgx));
  }

  /** Every key of the grouping is the gene of some variant. */
  lemma KeysAreVariantGenes(pgx: seq<PgxVariant>)
    ensures forall g :: g in GroupByGene(pgx) ==> exists k :: 0 <= k < |pgx| && pgx[k].gene == g
  {
    forall g | g in GroupByGene(pgx) ensures exists k :: 0 <= k < |pgx| && pgx[k].gene == g {
      var k := IndexOfGene(pgx, g);
    }
  }

  /** Where a gene with a list first occurs among the variants. */
  ghost function IndexOfGene(vs: seq<PgxVariant>, g: string): (k: nat)
    requires g in GroupByGene(vs)
    ensures k < |vs| && vs[k].gene == g
  {
    GroupIsOfGene(vs);
    GroupKeys(vs);
    var w := OfGene(vs, g)[0];
    var k :| 0 <= k < |vs| && vs[k] == w;
    k
  }

  /** Empty input: no header and no data, both problems reported, the
      default patient. */
  lemma EmptyContent()
    ensures ParseSpec("") == ParseResult(DefaultPatientId, 0, [], map[], [], [MissingFileformat, MissingHeader], false)
  {
    EmptyScan();
    InitialResult();
  }

  /** A scan that saw nothing gives the invalid result with both problems. */
  lemma InitialResult()
    ensures ResultOf(InitialScan) == ParseResult(DefaultPatientId, 0, [], map[], [], [MissingFileformat, MissingHeader], false)
  {
    assert IssuesOf(InitialScan) == [MissingFileformat, MissingHeader];
  }

  /** Empty content is one empty line, which the scan ignores. */
  lemma EmptyScan()
    ensures ScanOf("") == InitialScan
  {
    SplitEmpty();
    ScanOneLine("");
    EmptyLineIgnored();
  }

  lemma SplitEmpty()
    ensures Split(Strip(""), '\n') == [""]
  {
    assert Strip("") == "";
  }

  lemma ScanOneLine(line: string)
    ensures ScanLines([line]) == ScanLine(InitialScan, Strip(line))
  {
    assert [line][..0] == [];
  }

  lemma EmptyLineIgnored()
    ensures ScanLine(InitialScan, "") == InitialScan
  {
    assert !StartsWith("", "##") && !StartsWith("", "##fileformat=VCF");
  }
  // ---------------------------------------------------------------------
  // A row tagged with its gene and star, as in the repository's example
  // ---------------------------------------------------------------------

  /** An INFO column `GENE=g;STAR=s` reads as gene `g` and star `s`. */
  lemma GeneStarInfo(gene: string, star: string)
    requires gene != "" && IsStripped(gene) && star != "" && IsStripped(star)
    requires forall j :: 0 <= j < |gene| ==> gene[j] != ';'
    requires forall j :: 0 <= j < |star| ==> star[j] != ';'
    ensures InfoGet(InfoMap(Strip("GENE=" + gene + ";STAR=" + star)), "GENE") == gene
    ensures InfoGet(InfoMap(Strip("GENE=" + gene + ";STAR=" + star)), "STAR") == star
  {
    var items := GeneStarItems(gene, star);
    GeneStarParts(gene, star);
    InfoFoldPair(items, "GENE", gene, "STAR", star);
  }

  /** Each item of `GENE=g;STAR=s` reads back as its tag and value. */
  lemma GeneStarParts(gene: string, star: string)
    requires IsStripped(gene) && IsStripped(star)
    ensures ItemKey("GENE" + "=" + gene) == "GENE" && ItemValue("GENE" + "=" + gene) == gene
    ensures ItemKey("STAR" + "=" + star) == "STAR" && ItemValue("STAR" + "=" + star) == star
  {
    ItemRoundTrip("GENE", gene);
    ItemRoundTrip("STAR", star);
  }

  /** Two items with different keys give a map of exactly those two entries. */
  lemma InfoFoldPair(items: seq<string>, k1: string, v1: string, k2: string, v2: string)
    requires |items| == 2
    requires ItemKey(items[0]) == k1 && ItemValue(items[0]) == v1
    requires ItemKey(items[1]) == k2 && ItemValue(items[1]) == v2
    ensures InfoFold(items) == map[k1 := v1][k2 := v2]
  {
    InfoFoldStep(items, 0);
    InfoFoldStep(items, 1);
    assert items[..2] == items && items[..0] == [];
  }

  /** The items of the INFO column `GENE=g;STAR=s`. */
  lemma GeneStarItems(gene: string, star: string) returns (items: seq<string>)
    requires star != "" && IsStripped(star)
    requires forall j :: 0 <= j < |gene| ==> gene[j] != ';'
    requires forall j :: 0 <= j < |star| ==> star[j] != ';'
    ensures items == ["GENE" + "=" + gene, "STAR" + "=" + star]
    ensures InfoMap(Strip("GENE=" + gene + ";STAR=" + star)) == InfoFold(items)
  {
    var a, b := "GENE" + "=" + gene, "STAR" + "=" + star;
    items := [a, b];
    var text := "GENE=" + gene + ";STAR=" + star;
    assert text == a + [';'] + b;
    assert IsStripped(text) by {
      assert text[0] == 'G' && text[|text| - 1] == star[|star| - 1];
    }
    StripStripped(text);
    assert Join(items, ';') == text;
    forall k, j | 0 <= k < 2 && 0 <= j < |items[k]| ensures items[k][j] != ';' {
      if k == 0 && j >= 5 { assert items[k][j] == gene[j - 5]; }
      if k == 1 && j >= 5 { assert items[k][j] == star[j - 5]; }
    }
    JoinSplit(items, ';');
    assert text != "" && text != ".";
  }

  /** A ten-column row whose INFO column is `GENE=g;STAR=s` with `g` tracked,
      whose FORMAT is `GT` and whose sample genotype is not homozygous
      reference, is recorded as a variant of `g` with star `s` and that
      genotype, when the header has FORMAT and sample columns. */
  lemma GeneTaggedRowFound(fields: seq<string>, gene: string, star: string)
    requires |fields| == 10
    requires forall k, j :: 0 <= k < |fields| && 0 <= j < |fields[k]| ==> fields[k][j] != '\t'
    requires fields[7] == "GENE=" + gene + ";STAR=" + star
    requires gene in TargetGenes && IsStripped(gene) && forall j :: 0 <= j < |gene| ==> gene[j] != ';'
    requires star != "" && IsStripped(star) && forall j :: 0 <= j < |star| ==> star[j] != ';'
    requires fields[8] == "GT" && fields[9] != "" && forall j :: 0 <= j < |fields[9]| ==> fields[9][j] != ':'
    requires !IsHomozygousReference(fields[9])
    ensures ClassifyRow(Join(fields, '\t'), true).Found?
    ensures var v := ClassifyRow(Join(fields, '\t'), true).variant;
      v.gene == gene && v.star == star && v.genotype == fields[9]
  {
    JoinSplit(fields, '\t');
    GtSampleGenotype(fields);
    EmptyIsNotTarget();
    GeneStarInfo(gene, star);
  }

  /** FORMAT `GT` with a colon-free sample column: the genotype is the
      whole sample column. */
  lemma GtSampleGenotype(fields: seq<string>)
    requires |fields| == 10 && fields[8] == "GT" && fields[9] != ""
    requires forall j :: 0 <= j < |fields[9]| ==> fields[9][j] != ':'
    ensures RowGenotype(fields, true) == fields[9]
  {
    SplitNoSep("GT", ':');
    SplitNoSep(fields[9], ':');
  }

  /** The columns of the data row of the repository's analysis example:
      GENE=CYP2D6, STAR=*4, FORMAT GT and genotype 1/1. */
  const StarFourFields: seq<string> :=
    ["22", "42522755", "rs3892097", "C", "T", ".", ".", "GENE=CYP2D6;STAR=*4", "GT", "1/1"]

  /** That row is recorded as a CYP2D6 *4 variant with genotype 1/1. */
  lemma StarFourRowFound()
    ensures ClassifyRow(Join(StarFourFields, '\t'), true).Found?
    ensures var v := ClassifyRow(Join(StarFourFields, '\t'), true).variant;
      v.gene == "CYP2D6" && v.star == "*4" && v.genotype == "1/1"
  {
    StarFourFieldsShape();
    GeneTaggedRowFound(StarFourFields, "CYP2D6", "*4");
  }

  /** The example row meets the conditions of `GeneTaggedRowFound`. */
  lemma StarFourFieldsShape()
    ensures |StarFourFields| == 10
    ensures forall k, j :: 0 <= k < |StarFourFields| && 0 <= j < |StarFourFields[k]| ==> StarFourFields[k][j] != '\t'
    ensures StarFourFields[7] == "GENE=" + "CYP2D6" + ";STAR=" + "*4"
    ensures IsStripped("CYP2D6") && IsStripped("*4")
    ensures StarFourFields[8] == "GT" && StarFourFields[9] == "1/1"
  {
  }

  /** The column header line of the example file, without its `#`. */
  const StarFourHeaderColumns: seq<string> :=
    ["CHROM", "POS", "ID", "REF", "ALT", "QUAL", "FILTER", "INFO", "FORMAT", "SAMPLE"]

  /** A `#` header with ten tab-separated columns (a FORMAT and a sample
      column) makes the parser read genotypes. */
  lemma HeaderWithSample(cols: seq<string>)
    requires |cols| == 10 && cols[0] != "" && cols[0][0] != '#'
    requires forall k, j :: 0 <= k < |cols| && 0 <= j < |cols[k]| ==> cols[k][j] != '\t'
    ensures GenotypeColumns(Some("#" + Join(cols, '\t')))
  {
    var body := Join(cols, '\t');
    assert body[0] == cols[0][0];
    assert ("#" + body)[1..] == body;
    assert TrimLeadingChar("#" + body, '#') == body;
    JoinSplit(cols, '\t');
  }

  /** The example file's header makes the parser read genotypes. */
  lemma StarFourHeader()
    ensures GenotypeColumns(Some("#" + Join(StarFourHeaderColumns, '\t')))
  {
    HeaderWithSample(StarFourHeaderColumns);
  }

  /** A file whose header enables genotypes and whose one data row is
      identified records that one variant, under its gene. */
  lemma SingleFoundRow(sc: Scan, v: PgxVariant)
    requires GenotypeColumns(sc.header)
    requires |sc.dataLines| == 1 && ClassifyRow(sc.dataLines[0], true) == Found(v)
    ensures ResultOf(sc).geneVariants == map[v.gene := [v]]
  {
    assert sc.dataLines[..0] == [];
    assert RowsOf(sc.dataLines, true).pgx == [] + [v] == [v];
    assert [v][..0] == [];
    assert GroupByGene([v]) == map[][v.gene := [] + [v]] == map[v.gene := [v]];
  }
}
