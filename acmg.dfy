/**
 * The ACMG/AMP evidence catalogue (Tables 3 and 4 of the ACMG/AMP 2015
 * "Standards and Guidelines for the Interpretation of Sequence Variants")
 * and moderated criteria, whose strength is chosen by the caller.
 */
module Acmg {
  import opened Wrappers
  import opened Seqs

  /** Direction of a criterion. */
  datatype Impact = Pathogenic | Benign

  /** Strength of evidence, strongest first. */
  datatype Evidence = StandAlone | VeryStrong | Strong | Moderate | Supporting

  /** The criteria, in declaration order. */
  datatype Criterion =
    | PVS1
    | PS1 | PS2 | PS3 | PS4 | PP1_S
    | PM1 | PM2 | PM3 | PM4 | PM5 | PM6 | PP1_M
    | PP1 | PP2 | PP3 | PP4 | PP5
    | BP1 | BP2 | BP3 | BP4 | BP5 | BP6 | BP7
    | BS1 | BS2 | BS3 | BS4
    | BA1

  /** The pathogenic block (Table 3), in declaration order. */
  const PathogenicCriteria: seq<Criterion> :=
    [PVS1, PS1, PS2, PS3, PS4, PP1_S, PM1, PM2, PM3, PM4, PM5, PM6, PP1_M, PP1, PP2, PP3, PP4, PP5]

  /** The benign block (Table 4), in declaration order. */
  const BenignCriteria: seq<Criterion> :=
    [BP1, BP2, BP3, BP4, BP5, BP6, BP7, BS1, BS2, BS3, BS4, BA1]

  /** Every criterion, in declaration order (what `values()` enumerates). */
  const AllCriteria: seq<Criterion> := PathogenicCriteria + BenignCriteria

  /** The fixed impact of a criterion (`category()`). */
  function CategoryOf(c: Criterion): Impact
  {
    match c
    case PVS1 | PS1 | PS2 | PS3 | PS4 | PP1_S
      | PM1 | PM2 | PM3 | PM4 | PM5 | PM6 | PP1_M
      | PP1 | PP2 | PP3 | PP4 | PP5 => Pathogenic
    case _ => Benign
  }

  /** The base strength of a criterion (`evidence()`). */
  function EvidenceOf(c: Criterion): Evidence
  {
    match c
    case PVS1 => VeryStrong
    case PS1 | PS2 | PS3 | PS4 | PP1_S => Strong
    case PM1 | PM2 | PM3 | PM4 | PM5 | PM6 | PP1_M => Moderate
    case PP1 | PP2 | PP3 | PP4 | PP5 => Supporting
    case BP1 | BP2 | BP3 | BP4 | BP5 | BP6 | BP7 => Supporting
    case BS1 | BS2 | BS3 | BS4 => Strong
    case BA1 => StandAlone
  }

  function IsPathogenic(c: Criterion): (b: bool)
    ensures b <==> !IsBenign(c)
  {
    CategoryOf(c) == Pathogenic
  }

  function IsBenign(c: Criterion): bool
  {
    CategoryOf(c) == Benign
  }

  /** The text PP1, PP1_S and PP1_M share; the latter two declare it behind a strength label. */
  const CosegregationText: string := "Cosegregation with disease in multiple affected family members in a gene definitively known to cause the disease"

  /** The declared text of a criterion (`description()`). */
  function DescriptionOf(c: Criterion): string
  {
    match c
    case PVS1 => "null variant (nonsense, frameshift, canonical ±1 or 2 splice sites, initiation codon, single or multiexon deletion) in a gene where LOF is a known mechanism of disease"
    case PS1 => "Same amino acid change as a previously established pathogenic variant regardless of nucleotide change"
    case PS2 => "De novo (both maternity and paternity confirmed) in a patient with the disease and no family history"
    case PS3 => "Well-established in vitro or in vivo functional studies supportive of a damaging effect on the gene or gene product"
    case PS4 => "The prevalence of the variant in affected individuals is significantly increased compared with the prevalence in controls"
    case PP1_S => "(strong) " + CosegregationText
    case PM1 => "Located in a mutational hot spot and/or critical and well-established functional domain (e.g., active site of an enzyme) without benign variation"
    case PM2 => "Absent from controls (or at extremely low frequency if recessive) in Exome Sequencing Project, 1000 Genomes Project, or Exome Aggregation Consortium"
    case PM3 => "For recessive disorders, detected in trans with a pathogenic variant"
    case PM4 => "Protein length changes as a result of in-frame deletions/insertions in a nonrepeat region or stop-loss variants"
    case PM5 => "Novel missense change at an amino acid residue where a different missense change determined to be pathogenic has been seen before"
    case PM6 => "Assumed de novo, but without confirmation of paternity and maternity"
    case PP1_M => "(moderate) " + CosegregationText
    case PP1 => CosegregationText
    case PP2 => "Missense variant in a gene that has a low rate of benign missense variation and in which missense variants are a common mechanism of disease"
    case PP3 => "Multiple lines of computational evidence support a deleterious effect on the gene or gene product (conservation, evolutionary, splicing impact, etc.)"
    case PP4 => "Patient’s phenotype or family history is highly specific for a disease with a single genetic etiology"
    case PP5 => "Reputable source recently reports variant as pathogenic, but the evidence is not available to the laboratory to perform an independent evaluation"
    case BP1 => "Missense variant in a gene for which primarily truncating variants are known to cause disease"
    case BP2 => "Observed in trans with a pathogenic variant for a fully penetrant dominant gene/disorder or observed in cis with a pathogenic variant in any inheritance pattern"
    case BP3 => "In-frame deletions/insertions in a repetitive region without a known function"
    case BP4 => "Multiple lines of computational evidence suggest no impact on gene or gene product (conservation, evolutionary, splicing impact, etc.)"
    case BP5 => "Variant found in a case with an alternate molecular basis for disease"
    case BP6 => "Reputable source recently reports variant as benign, but the evidence is not available to the laboratory to perform an independent evaluation"
    case BP7 => "A synonymous (silent) variant for which splicing prediction algorithms predict no impact to the splice consensus sequence nor the creation of a new splice site AND the nucleotide is not highly conserved"
    case BS1 => "Allele frequency is greater than expected for disorder"
    case BS2 => "Observed in a healthy adult individual for a recessive (homozygous), dominant (heterozygous), or X-linked (hemizygous) disorder, with full penetrance expected at an early age"
    case BS3 => "Well-established in vitro or in vivo functional studies show no damaging effect on protein function or splicing"
    case BS4 => "Lack of segregation in affected members of a family"
    case BA1 => "Allele frequency is >5% in Exome Sequencing Project, 1000 Genomes Project, or Exome Aggregation Consortium"
  }

  /** The Java constant name of a criterion (`name()`, the default `toString()`). */
  function NameOf(c: Criterion): string
  {
    match c
    case PVS1 => "PVS1"
    case PS1 => "PS1"
    case PS2 => "PS2"
    case PS3 => "PS3"
    case PS4 => "PS4"
    case PP1_S => "PP1_S"
    case PM1 => "PM1"
    case PM2 => "PM2"
    case PM3 => "PM3"
    case PM4 => "PM4"
    case PM5 => "PM5"
    case PM6 => "PM6"
    case PP1_M => "PP1_M"
    case PP1 => "PP1"
    case PP2 => "PP2"
    case PP3 => "PP3"
    case PP4 => "PP4"
    case PP5 => "PP5"
    case BP1 => "BP1"
    case BP2 => "BP2"
    case BP3 => "BP3"
    case BP4 => "BP4"
    case BP5 => "BP5"
    case BP6 => "BP6"
    case BP7 => "BP7"
    case BS1 => "BS1"
    case BS2 => "BS2"
    case BS3 => "BS3"
    case BS4 => "BS4"
    case BA1 => "BA1"
  }

  /** The Java constant name of a strength. */
  function EvidenceName(e: Evidence): string
  {
    match e
    case StandAlone => "STAND_ALONE"
    case VeryStrong => "VERY_STRONG"
    case Strong => "STRONG"
    case Moderate => "MODERATE"
    case Supporting => "SUPPORTING"
  }

  datatype UnknownCriterion = UnknownCriterion(code: string)

  /** The first criterion of `cs` whose name is `code`. */
  function FindByName(cs: seq<Criterion>, code: string): (r: Option<Criterion>)
    ensures r.Some? ==> r.value in cs && NameOf(r.value) == code
    ensures r.None? ==> forall c :: c in cs ==> NameOf(c) != code
  {
    if cs == [] then None
    else if NameOf(cs[0]) == code then Some(cs[0])
    else FindByName(cs[1..], code)
  }

  /** Lookup by code (`AcmgCriterion.valueOf`), failing on an unknown code. */
  function FromName(code: string): (r: Result<Criterion, UnknownCriterion>)
    ensures r.Ok? ==> NameOf(r.value) == code
    ensures r.Err? ==> r.error == UnknownCriterion(code) && forall c :: NameOf(c) != code
  {
    match FindByName(AllCriteria, code)
    case Some(c) => Ok(c)
    case None => Err(UnknownCriterion(code))
  }

  // ---------------------------------------------------------------------------
  // Moderated criteria
  // ---------------------------------------------------------------------------

  /** A criterion paired with a caller-chosen strength. */
  datatype ModeratedCriterion = ModeratedCriterion(criterion: Criterion, evidence: Evidence)

  /** `ModeratedAcmgCriterion.of`: no restriction on which strength goes with which criterion. */
  function Of(c: Criterion, e: Evidence): (m: ModeratedCriterion)
    ensures m.criterion == c && m.evidence == e
  {
    ModeratedCriterion(c, e)
  }

  function ModeratedCategory(m: ModeratedCriterion): Impact
  {
    CategoryOf(m.criterion)
  }

  function ModeratedIsPathogenic(m: ModeratedCriterion): (b: bool)
    ensures b <==> !ModeratedIsBenign(m)
  {
    ModeratedCategory(m) == Pathogenic
  }

  function ModeratedIsBenign(m: ModeratedCriterion): bool
  {
    ModeratedCategory(m) == Benign
  }

  function ModeratedEvidence(m: ModeratedCriterion): Evidence
  {
    m.evidence
  }

  /** The human-readable label of a strength (`evidenceModifier`). */
  function EvidenceModifier(e: Evidence): string
  {
    match e
    case StandAlone => "(stand-alone)"
    case VeryStrong => "(very strong)"
    case Strong => "(strong)"
    case Moderate => "(moderate)"
    case Supporting => "(supporting)"
  }

  function ModeratedDescription(m: ModeratedCriterion): string
  {
    EvidenceModifier(m.evidence) + " " + DescriptionOf(m.criterion)
  }

  /** `equals`: both the criterion and the strength agree. */
  function ModeratedEquals(a: ModeratedCriterion, b: ModeratedCriterion): (r: bool)
    ensures r <==> a == b
  {
    a.criterion == b.criterion && a.evidence == b.evidence
  }

  /** `toString`: the criterion name, then the strength name in parentheses. */
  function ModeratedToString(m: ModeratedCriterion): string
  {
    NameOf(m.criterion) + "(" + EvidenceName(m.evidence) + ")"
  }

  /** Inverse of `EvidenceName` (`Evidence.valueOf`). */
  function EvidenceFromName(name: string): (r: Option<Evidence>)
    ensures r.Some? ==> EvidenceName(r.value) == name
  {
    if name == "STAND_ALONE" then Some(StandAlone)
    else if name == "VERY_STRONG" then Some(VeryStrong)
    else if name == "STRONG" then Some(Strong)
    else if name == "MODERATE" then Some(Moderate)
    else if name == "SUPPORTING" then Some(Supporting)
    else None
  }

  /** Reads back the text `ModeratedToString` writes. */
  function ParseModerated(s: string): Option<ModeratedCriterion>
  {
    if '(' !in s then None
    else
      var k := FirstIndex(s, '(');
      if |s| < k + 2 || s[|s| - 1] != ')' then None
      else match (FromName(s[..k]), EvidenceFromName(s[k + 1..|s| - 1]))
        case (Ok(c), Some(e)) => Some(ModeratedCriterion(c, e))
        case _ => None
  }

  // ---------------------------------------------------------------------------
  // Properties of the catalogue
  // ---------------------------------------------------------------------------

  /** The pathogenic block (PVS1..PP5) is exactly the criteria of impact PATHOGENIC. */
  lemma PathogenicBlock(c: Criterion)
    ensures CategoryOf(c) == Pathogenic <==> c in PathogenicCriteria
  {
    match c
    case PVS1 =>
    case PS1 =>
    case PS2 =>
    case PS3 =>
    case PS4 =>
    case PP1_S =>
    case PM1 =>
    case PM2 =>
    case PM3 =>
    case PM4 =>
    case PM5 =>
    case PM6 =>
    case PP1_M =>
    case PP1 =>
    case PP2 =>
    case PP3 =>
    case PP4 =>
    case PP5 =>
    case BP1 =>
    case BP2 =>
    case BP3 =>
    case BP4 =>
    case BP5 =>
    case BP6 =>
    case BP7 =>
    case BS1 =>
    case BS2 =>
    case BS3 =>
    case BS4 =>
    case BA1 =>
  }

  /** The benign block (BP1..BA1) is exactly the criteria of impact BENIGN. */
  lemma BenignBlock(c: Criterion)
    ensures CategoryOf(c) == Benign <==> c in BenignCriteria
  {
    match c
    case PVS1 =>
    case PS1 =>
    case PS2 =>
    case PS3 =>
    case PS4 =>
    case PP1_S =>
    case PM1 =>
    case PM2 =>
    case PM3 =>
    case PM4 =>
    case PM5 =>
    case PM6 =>
    case PP1_M =>
    case PP1 =>
    case PP2 =>
    case PP3 =>
    case PP4 =>
    case PP5 =>
    case BP1 =>
    case BP2 =>
    case BP3 =>
    case BP4 =>
    case BP5 =>
    case BP6 =>
    case BP7 =>
    case BS1 =>
    case BS2 =>
    case BS3 =>
    case BS4 =>
    case BA1 =>
  }

  /** The catalogue lists every criterion. */
  lemma CatalogueIsComplete(c: Criterion)
    ensures c in AllCriteria
  {
    PathogenicBlock(c);
    BenignBlock(c);
  }

  /** PVS1 is the only very strong criterion and BA1 the only stand-alone one. */
  lemma ExtremeStrengths(c: Criterion)
    ensures EvidenceOf(c) == VeryStrong <==> c == PVS1
    ensures EvidenceOf(c) == StandAlone <==> c == BA1
  {
  }

  /** Exactly one of `isPathogenic` and `isBenign` holds, each agreeing with `category()`. */
  lemma ExactlyOneDirection(c: Criterion)
    ensures IsPathogenic(c) != IsBenign(c)
    ensures IsPathogenic(c) <==> CategoryOf(c) == Pathogenic
    ensures IsBenign(c) <==> CategoryOf(c) == Benign
  {
  }

  /** Criterion names are unique codes. */
  lemma NamesAreUnique(a: Criterion, b: Criterion)
    ensures NameOf(a) == NameOf(b) ==> a == b
  {
  }

  /** Looking a criterion up by its own code finds it. */
  lemma FromNameRoundTrip(c: Criterion)
    ensures FromName(NameOf(c)) == Ok(c)
  {
    CatalogueIsComplete(c);
    var r := FindByName(AllCriteria, NameOf(c));
    NamesAreUnique(r.value, c);
  }

  /** Moderation never changes the direction of a criterion. */
  lemma ModerationKeepsImpact(c: Criterion, e: Evidence)
    ensures ModeratedCategory(Of(c, e)) == CategoryOf(c)
    ensures ModeratedIsPathogenic(Of(c, e)) == IsPathogenic(c)
    ensures ModeratedIsBenign(Of(c, e)) == IsBenign(c)
  {
  }

  /** A moderated criterion has the strength it was built with, whatever the base strength. */
  lemma ModeratedEvidenceIsChosen(c: Criterion, e: Evidence)
    ensures ModeratedEvidence(Of(c, e)) == e
  {
  }

  /** The five strength labels are distinct. */
  lemma ModifiersAreDistinct(e1: Evidence, e2: Evidence)
    ensures EvidenceModifier(e1) == EvidenceModifier(e2) ==> e1 == e2
  {
  }

  /**
   * A moderated description starts with the strength label and a space and
   * ends with the base description; so it determines both the strength and
   * the base description.
   */
  lemma ModeratedDescriptionDetermines(a: ModeratedCriterion, b: ModeratedCriterion)
    ensures ModeratedDescription(a) == ModeratedDescription(b) ==>
              a.evidence == b.evidence && DescriptionOf(a.criterion) == DescriptionOf(b.criterion)
  {
    var la, lb := EvidenceModifier(a.evidence) + " ", EvidenceModifier(b.evidence) + " ";
    if ModeratedDescription(a) == ModeratedDescription(b) {
      var s := la + DescriptionOf(a.criterion);
      assert s == lb + DescriptionOf(b.criterion);
      // the second and fourth characters of a label tell the strengths apart
      ModifierKey(a.evidence);
      ModifierKey(b.evidence);
      assert s[1] == la[1] == lb[1] && s[3] == la[3] == lb[3];
      assert a.evidence == b.evidence;
      assert DescriptionOf(a.criterion) == s[|la|..];
    }
  }

  lemma ModifierKey(e: Evidence)
    ensures |EvidenceModifier(e)| > 3
    ensures var l := EvidenceModifier(e);
      e == (if l[1] == 'v' then VeryStrong else if l[1] == 'm' then Moderate
            else if l[3] == 'a' then StandAlone else if l[3] == 'r' then Strong else Supporting)
  {
  }

  /** The pre-moderated PP1 entries read exactly as PP1 moderated to that strength. */
  lemma PreModeratedEntriesAgree()
    ensures ModeratedDescription(Of(PP1, Strong)) == DescriptionOf(PP1_S)
    ensures ModeratedDescription(Of(PP1, Moderate)) == DescriptionOf(PP1_M)
  {
  }

  /**
   * A criterion's own description is its declared text; moderating it puts
   * the strength label and a space in front, so the two never coincide.
   */
  lemma ModerationPrefixesDescription(c: Criterion, e: Evidence)
    ensures |ModeratedDescription(Of(c, e))| == |EvidenceModifier(e)| + 1 + |DescriptionOf(c)|
    ensures ModeratedDescription(Of(c, e))[|EvidenceModifier(e)| + 1..] == DescriptionOf(c)
    ensures ModeratedDescription(Of(c, e)) != DescriptionOf(c)
  {
    Prefixed(EvidenceModifier(e), DescriptionOf(c));
  }

  lemma Prefixed(modifier: string, text: string)
    ensures |modifier + " " + text| == |modifier| + 1 + |text|
    ensures (modifier + " " + text)[|modifier| + 1..] == text
    ensures modifier + " " + text != text
  {
    assert (modifier + " " + text)[|modifier| + 1..] == text;
  }

  /** `ModeratedEquals` holds iff the criteria and the strengths agree. */
  lemma EqualityIsStructural(a: ModeratedCriterion, b: ModeratedCriterion)
    ensures ModeratedEquals(a, b) <==> a.criterion == b.criterion && a.evidence == b.evidence
  {
  }

  lemma NameHasNoParenthesis(c: Criterion)
    ensures '(' !in NameOf(c)
  {
    match c
    case PVS1 =>
    case PS1 =>
    case PS2 =>
    case PS3 =>
    case PS4 =>
    case PP1_S =>
    case PM1 =>
    case PM2 =>
    case PM3 =>
    case PM4 =>
    case PM5 =>
    case PM6 =>
    case PP1_M =>
    case PP1 =>
    case PP2 =>
    case PP3 =>
    case PP4 =>
    case PP5 =>
    case BP1 =>
    case BP2 =>
    case BP3 =>
    case BP4 =>
    case BP5 =>
    case BP6 =>
    case BP7 =>
    case BS1 =>
    case BS2 =>
    case BS3 =>
    case BS4 =>
    case BA1 =>
  }

  lemma EvidenceNameRoundTrip(e: Evidence)
    ensures EvidenceFromName(EvidenceName(e)) == Some(e)
  {
  }

  /** `toString` can be read back, so two moderated criteria with the same text are equal. */
  lemma ToStringRoundTrip(m: ModeratedCriterion)
    ensures ParseModerated(ModeratedToString(m)) == Some(m)
  {
    var name, ev := NameOf(m.criterion), EvidenceName(m.evidence);
    var s := ModeratedToString(m);
    assert s == name + ['('] + (ev + [')']);
    NameHasNoParenthesis(m.criterion);
    FirstIndexAfter(name, ev + [')'], '(');
    assert s[..|name|] == name;
    assert s[|name| + 1..|s| - 1] == ev;
    FromNameRoundTrip(m.criterion);
    EvidenceNameRoundTrip(m.evidence);
  }

  lemma ToStringIsInjective(a: ModeratedCriterion, b: ModeratedCriterion)
    ensures ModeratedToString(a) == ModeratedToString(b) ==> a == b
  {
    ToStringRoundTrip(a);
    ToStringRoundTrip(b);
  }
}
