# Exomiser evidence core in Dafny

A verified model of three sequential pieces of the Exomiser variant/gene prioritiser:

- **The ACMG/AMP evidence catalogue** (`acmg.dfy`). It covers the criteria of Tables 3 and 4 of the ACMG/AMP 2015 "Standards and Guidelines for the Interpretation of Sequence Variants". Each criterion has a fixed impact (pathogenic or benign), a base strength and a description. A *moderated* criterion pairs a criterion with a caller-chosen strength.
- **The pathogenicity evidence aggregate** (`pathogenicity.dfy`). Each variant has one ClinVar record, which may be the empty record, and at most one predicted score per predictor source. The combined score works in three steps:
  - a pathogenic clinical assertion overrides every prediction;
  - with no predictions, the score falls back to a fixed floor;
  - otherwise the most pathogenic prediction counts, with a SIFT score inverted.
- **The ranking-request logic of the prioritiser REST controller** (`prioritiser.dfy`):
  - name resolution that silently falls back to HiPhive;
  - phenotype de-duplication;
  - gene-identifier resolution, with placeholder symbols for unknown ids;
  - a stable sort with a count-only `limit`;
  - the ordered echo of the request parameters, built by successive puts into a `LinkedHashMap`, modelled as a class.

`java_text.dfy` models the JDK behaviour the controller relies on: `String.trim`, `Integer.toString`, `Integer.parseInt` and `List.toString`. `seqs.dfy` defines the first position of an element in a sequence, which both the criterion parser and the phenotype de-duplication use. `wrappers.dfy` holds `Option` and `Result`. They stand for Java's `null` and for thrown exceptions.

Modelling choices:
- **Score order.** The natural order of `PathogenicityScore` is given as a key `rank: PathogenicityScore -> real`, with the higher rank first.
  - `max(Comparator.reverseOrder())` then picks the highest-ranked score.
  - `BinaryOperator.maxBy` keeps its left operand on a tie, so the first such score in source (enum) order wins.
- **SIFT scores.** The source recognises a SIFT score by its class (`SiftScore`). The model recognises it by its source, `Sift`.
- **Result order.** The natural order of `PriorityResult` is descending score. `Stream.sorted` is stable, so ties keep gene order.
- **Scorers.** The phenotype scorers are a given function of the priority type, the de-duplicated phenotypes, the parameter string and the gene.
- **Gene identifiers.** The known-gene-identifier map is given as its entries, in its iteration order.
- **Scores.** Scores are `real`.

## Model

| member | source | states |
|---|---|---|
| `Acmg.PathogenicBlock` | exomiser-core/src/main/java/org/monarchinitiative/exomiser/core/analysis/util/AcmgCriterion.java:33-54 | a criterion has impact PATHOGENIC iff it is declared in the pathogenic block PVS1..PP5 |
| `Acmg.BenignBlock` | exomiser-core/src/main/java/org/monarchinitiative/exomiser/core/analysis/util/AcmgCriterion.java:56-70 | a criterion has impact BENIGN iff it is declared in the benign block BP1..BA1 |
| `Acmg.CatalogueIsComplete` | exomiser-core/src/main/java/org/monarchinitiative/exomiser/core/analysis/util/AcmgCriterion.java:31-70 | the declaration-order list holds every criterion |
| `Acmg.ExtremeStrengths` | exomiser-core/src/main/java/org/monarchinitiative/exomiser/core/analysis/util/AcmgCriterion.java:34-70 | PVS1 is the only VERY_STRONG criterion and BA1 the only STAND_ALONE one |
| `Acmg.CategoryOf` | exomiser-core/src/main/java/org/monarchinitiative/exomiser/core/analysis/util/AcmgCriterion.java:33-70 | `category()`, the declared impact; PathogenicBlock and BenignBlock state which criteria are PATHOGENIC and which BENIGN |
| `Acmg.EvidenceOf` | exomiser-core/src/main/java/org/monarchinitiative/exomiser/core/analysis/util/AcmgCriterion.java:102-104 | `evidence()`, the declared strength; ExtremeStrengths states which criteria are VERY_STRONG and STAND_ALONE |
| `Acmg.DescriptionOf` | exomiser-core/src/main/java/org/monarchinitiative/exomiser/core/analysis/util/AcmgCriterion.java:106-108 | `description()`, the declared text; ModerationPrefixesDescription and PreModeratedEntriesAgree state how moderated descriptions relate to it |
| `Acmg.ExactlyOneDirection` | exomiser-core/src/main/java/org/monarchinitiative/exomiser/core/analysis/util/AcmgCriterion.java:90-100 | exactly one of `isPathogenic`/`isBenign` holds, each agreeing with `category()` |
| `Acmg.IsPathogenic` | exomiser-core/src/main/java/org/monarchinitiative/exomiser/core/analysis/util/AcmgCriterion.java:94-100 | `isPathogenic` is the negation of `isBenign` |
| `Acmg.IsBenign` | exomiser-core/src/main/java/org/monarchinitiative/exomiser/core/analysis/util/AcmgCriterion.java:98-100 | `isBenign`; ExactlyOneDirection states it holds iff the category is BENIGN and iff `isPathogenic` does not |
| `Acmg.FromName` | exomiser-core/src/main/java/org/monarchinitiative/exomiser/core/analysis/util/AcmgCriterion.java:31-70 | lookup by code returns a criterion with that code, or fails with `UnknownCriterion` exactly when no criterion has it |
| `Acmg.NamesAreUnique` | exomiser-core/src/main/java/org/monarchinitiative/exomiser/core/analysis/util/AcmgCriterion.java:34-70 | criterion codes are unique |
| `Acmg.NameOf` | exomiser-core/src/main/java/org/monarchinitiative/exomiser/core/analysis/util/AcmgCriterion.java:34-70 | the constant name of each criterion; NamesAreUnique and FromNameRoundTrip state it is a unique lookup key |
| `Acmg.FromNameRoundTrip` | exomiser-core/src/main/java/org/monarchinitiative/exomiser/core/analysis/util/AcmgCriterion.java:31-70 | looking up a criterion's own code returns that criterion |
| `Acmg.Of` | exomiser-core/src/main/java/org/monarchinitiative/exomiser/core/analysis/util/AcmgCriterion.java:116-123 | `of(c, e)` accepts any criterion with any strength and keeps both |
| `Acmg.ModerationKeepsImpact` | exomiser-core/src/main/java/org/monarchinitiative/exomiser/core/analysis/util/AcmgCriterion.java:121-135 | a moderated criterion's category, `isPathogenic` and `isBenign` equal its criterion's |
| `Acmg.ModeratedIsPathogenic` | exomiser-core/src/main/java/org/monarchinitiative/exomiser/core/analysis/util/AcmgCriterion.java:129-135 | a moderated criterion is pathogenic iff it is not benign |
| `Acmg.ModeratedCategory` | exomiser-core/src/main/java/org/monarchinitiative/exomiser/core/analysis/util/AcmgCriterion.java:125-127 | `category()` of a moderated criterion; ModerationKeepsImpact states it is the criterion's own |
| `Acmg.ModeratedIsBenign` | exomiser-core/src/main/java/org/monarchinitiative/exomiser/core/analysis/util/AcmgCriterion.java:133-135 | `isBenign` of a moderated criterion; ModerationKeepsImpact states it agrees with the criterion's |
| `Acmg.ModeratedEvidence` | exomiser-core/src/main/java/org/monarchinitiative/exomiser/core/analysis/util/AcmgCriterion.java:137-139 | `evidence()` of a moderated criterion; ModeratedEvidenceIsChosen states it is the chosen strength |
| `Acmg.ModeratedEvidenceIsChosen` | exomiser-core/src/main/java/org/monarchinitiative/exomiser/core/analysis/util/AcmgCriterion.java:137-139 | a moderated criterion's `evidence()` is the strength it was built with, whatever the base strength |
| `Acmg.ModifiersAreDistinct` | exomiser-core/src/main/java/org/monarchinitiative/exomiser/core/analysis/util/AcmgCriterion.java:145-160 | the five strength labels are pairwise distinct |
| `Acmg.EvidenceModifier` | exomiser-core/src/main/java/org/monarchinitiative/exomiser/core/analysis/util/AcmgCriterion.java:145-160 | `evidenceModifier`, one label per strength; ModifiersAreDistinct states the labels are distinct |
| `Acmg.ModeratedDescription` | exomiser-core/src/main/java/org/monarchinitiative/exomiser/core/analysis/util/AcmgCriterion.java:141-143 | `description()` of a moderated criterion; ModerationPrefixesDescription and ModeratedDescriptionDetermines state its shape and what it determines |
| `Acmg.ModerationPrefixesDescription` | exomiser-core/src/main/java/org/monarchinitiative/exomiser/core/analysis/util/AcmgCriterion.java:141-143 | a moderated description is the label, one space, then the criterion's own `description()`; it never equals that description |
| `Acmg.ModeratedDescriptionDetermines` | exomiser-core/src/main/java/org/monarchinitiative/exomiser/core/analysis/util/AcmgCriterion.java:141-160 | equal moderated descriptions have equal strengths and equal base descriptions |
| `Acmg.PreModeratedEntriesAgree` | exomiser-core/src/main/java/org/monarchinitiative/exomiser/core/analysis/util/AcmgCriterion.java:40-50 | PP1 moderated to strong (moderate) reads exactly as the declared PP1_S (PP1_M) |
| `Acmg.ModeratedEquals` | exomiser-core/src/main/java/org/monarchinitiative/exomiser/core/analysis/util/AcmgCriterion.java:162-168 | `equals` coincides with value equality |
| `Acmg.EqualityIsStructural` | exomiser-core/src/main/java/org/monarchinitiative/exomiser/core/analysis/util/AcmgCriterion.java:162-168 | two moderated criteria are equal iff criterion and strength both match |
| `Acmg.ToStringRoundTrip` | exomiser-core/src/main/java/org/monarchinitiative/exomiser/core/analysis/util/AcmgCriterion.java:176-180 | reading the `toString` text (name, `(`, strength name, `)`) back yields the same moderated criterion |
| `Acmg.ToStringIsInjective` | exomiser-core/src/main/java/org/monarchinitiative/exomiser/core/analysis/util/AcmgCriterion.java:176-180 | different moderated criteria have different `toString` text |
| `Acmg.ModeratedToString` | exomiser-core/src/main/java/org/monarchinitiative/exomiser/core/analysis/util/AcmgCriterion.java:175-180 | `toString`; ToStringRoundTrip and ToStringIsInjective state it can be read back and tells moderated criteria apart |
| `Acmg.EvidenceName` | exomiser-core/src/main/java/org/monarchinitiative/exomiser/core/analysis/util/AcmgCriterion.java:76-78 | the constant name of each strength; EvidenceNameRoundTrip states `valueOf` reads it back |
| `Pathogenicity.Of` | exomiser-core/src/main/java/org/monarchinitiative/exomiser/core/model/pathogenicity/PathogenicityData.java:69-74 | `of` keeps the ClinVar record, and returns `EMPTY_DATA` for an empty record and no scores |
| `Pathogenicity.OfNothingIsEmptyData` | exomiser-core/src/main/java/org/monarchinitiative/exomiser/core/model/pathogenicity/PathogenicityData.java:35-78 | `of(ClinVarData.empty(), [])` equals `empty()`, which is empty |
| `Pathogenicity.Empty` | exomiser-core/src/main/java/org/monarchinitiative/exomiser/core/model/pathogenicity/PathogenicityData.java:76-78 | `empty()`; OfNothingIsEmptyData and NothingScoresFloor state that it is empty and scores the floor |
| `Pathogenicity.BuildScoreMap` | exomiser-core/src/main/java/org/monarchinitiative/exomiser/core/model/pathogenicity/PathogenicityData.java:80-90 | the constructor's loop builds exactly the score map `ScoreMap` describes |
| `Pathogenicity.ScoreMap` | exomiser-core/src/main/java/org/monarchinitiative/exomiser/core/model/pathogenicity/PathogenicityData.java:84-89 | the score map the constructor builds; ScoreMapContents characterises it |
| `Pathogenicity.ScoreMapContents` | exomiser-core/src/main/java/org/monarchinitiative/exomiser/core/model/pathogenicity/PathogenicityData.java:84-89 | the map's sources are exactly those of the non-null inputs; each score sits under its own source; each is the last input score from that source |
| `Pathogenicity.OfKeepsLastScorePerSource` | exomiser-core/src/main/java/org/monarchinitiative/exomiser/core/model/pathogenicity/PathogenicityData.java:84-89 | the same for `of`: `hasPredictedScore(s)` iff some non-null input is from `s`, and it holds the last such input |
| `Pathogenicity.OfIsKeyedBySource` | exomiser-core/src/main/java/org/monarchinitiative/exomiser/core/model/pathogenicity/PathogenicityData.java:84-89 | every score built by `of` sits under its own source |
| `Pathogenicity.OnlyNullsIsEmpty` | exomiser-core/src/main/java/org/monarchinitiative/exomiser/core/model/pathogenicity/PathogenicityData.java:119-121 | inputs of nulls only give data that is empty (equal to `EMPTY_DATA`) |
| `Pathogenicity.IsEmptyCharacterised` | exomiser-core/src/main/java/org/monarchinitiative/exomiser/core/model/pathogenicity/PathogenicityData.java:110-126 | `isEmpty()` iff the ClinVar record is empty and there are no scores, iff not `hasPredictedScore()` |
| `Pathogenicity.IsEmpty` | exomiser-core/src/main/java/org/monarchinitiative/exomiser/core/model/pathogenicity/PathogenicityData.java:118-121 | `isEmpty()`; IsEmptyCharacterised and OnlyNullsIsEmpty state when it holds |
| `Pathogenicity.HasClinVarData` | exomiser-core/src/main/java/org/monarchinitiative/exomiser/core/model/pathogenicity/PathogenicityData.java:110-112 | `hasClinVarData()`; IsEmptyCharacterised states that `isEmpty()` requires its absence |
| `Pathogenicity.HasAnyPredictedScore` | exomiser-core/src/main/java/org/monarchinitiative/exomiser/core/model/pathogenicity/PathogenicityData.java:123-126 | `hasPredictedScore()`; IsEmptyCharacterised states it holds iff not `isEmpty()` |
| `Pathogenicity.HasPredictedScore` | exomiser-core/src/main/java/org/monarchinitiative/exomiser/core/model/pathogenicity/PathogenicityData.java:128-130 | `hasPredictedScore(source)`; OfKeepsLastScorePerSource states it holds iff some non-null input came from that source |
| `Pathogenicity.Equals` | exomiser-core/src/main/java/org/monarchinitiative/exomiser/core/model/pathogenicity/PathogenicityData.java:183-190 | `equals` coincides with value equality |
| `Pathogenicity.GetPredictedScore` | exomiser-core/src/main/java/org/monarchinitiative/exomiser/core/model/pathogenicity/PathogenicityData.java:128-140 | `getPredictedScore(s)` is non-null iff `hasPredictedScore(s)` |
| `Pathogenicity.PredictedScoreIsFromSource` | exomiser-core/src/main/java/org/monarchinitiative/exomiser/core/model/pathogenicity/PathogenicityData.java:128-140 | for data built by `of`, the score returned for a source comes from that source |
| `Pathogenicity.PredictedScores` | exomiser-core/src/main/java/org/monarchinitiative/exomiser/core/model/pathogenicity/PathogenicityData.java:114-116 | `getPredictedPathogenicityScores()` lists every retained score once and nothing else |
| `Pathogenicity.PredictedScoresInSourceOrder` | exomiser-core/src/main/java/org/monarchinitiative/exomiser/core/model/pathogenicity/PathogenicityData.java:114-116 | that list is in source declaration order (the `EnumMap` order) |
| `Pathogenicity.MaxBy` | exomiser-core/src/main/java/org/monarchinitiative/exomiser/core/model/pathogenicity/PathogenicityData.java:145-148 | the stream max is an element of highest rank, and no earlier element has that rank |
| `Pathogenicity.MostPathogenicScoreIsMaximal` | exomiser-core/src/main/java/org/monarchinitiative/exomiser/core/model/pathogenicity/PathogenicityData.java:142-148 | `getMostPathogenicScore()` is null iff there are no scores; otherwise it is a retained score ranked at least as high as every other |
| `Pathogenicity.MostPathogenicTieBreak` | exomiser-core/src/main/java/org/monarchinitiative/exomiser/core/model/pathogenicity/PathogenicityData.java:145-148 | of equally ranked scores, the one from the first-declared source is chosen |
| `Pathogenicity.MostPathogenicScore` | exomiser-core/src/main/java/org/monarchinitiative/exomiser/core/model/pathogenicity/PathogenicityData.java:142-148 | `getMostPathogenicScore()`; MostPathogenicScoreIsMaximal and MostPathogenicTieBreak state which score it picks |
| `Pathogenicity.ClinicalAssertionOverrides` | exomiser-core/src/main/java/org/monarchinitiative/exomiser/core/model/pathogenicity/PathogenicityData.java:154-163 | a PATHOGENIC, PATHOGENIC_OR_LIKELY_PATHOGENIC or LIKELY_PATHOGENIC record gives `getScore()` 1, whatever the scores |
| `Pathogenicity.PredictionDecidesOtherwise` | exomiser-core/src/main/java/org/monarchinitiative/exomiser/core/model/pathogenicity/PathogenicityData.java:165-181 | otherwise: no scores give `NON_PATHOGENIC_SCORE`; else the most pathogenic score's value, as `1 - value` for a SIFT score |
| `Pathogenicity.ScoreInUnitInterval` | exomiser-core/src/main/java/org/monarchinitiative/exomiser/core/model/pathogenicity/PathogenicityData.java:151-181 | with every score in 0..1, `getScore()` is in 0..1 |
| `Pathogenicity.SingleSiftScoreIsInverted` | exomiser-core/src/main/java/org/monarchinitiative/exomiser/core/model/pathogenicity/PathogenicityData.java:175-180 | one SIFT score of value v and no ClinVar record score `1 - v` |
| `Pathogenicity.NothingScoresFloor` | exomiser-core/src/main/java/org/monarchinitiative/exomiser/core/model/pathogenicity/PathogenicityData.java:165-168 | empty data scores `NON_PATHOGENIC_SCORE` |
| `Pathogenicity.IsClinicallyPathogenic` | exomiser-core/src/main/java/org/monarchinitiative/exomiser/core/model/pathogenicity/PathogenicityData.java:155-159 | the three ClinVar interpretations that return 1; ClinicalAssertionOverrides states their effect |
| `Pathogenicity.IsSiftScore` | exomiser-core/src/main/java/org/monarchinitiative/exomiser/core/model/pathogenicity/PathogenicityData.java:177 | the SIFT test, by source; PredictionDecidesOtherwise and SingleSiftScoreIsInverted state the inversion |
| `Pathogenicity.PredictedPathScore` | exomiser-core/src/main/java/org/monarchinitiative/exomiser/core/model/pathogenicity/PathogenicityData.java:165-181 | `getPredictedPathScore()`; PredictionDecidesOtherwise states its value, NothingScoresFloor and SingleSiftScoreIsInverted its edge cases |
| `Pathogenicity.Score` | exomiser-core/src/main/java/org/monarchinitiative/exomiser/core/model/pathogenicity/PathogenicityData.java:154-163 | `getScore()`; stated by ClinicalAssertionOverrides, PredictionDecidesOtherwise and ScoreInUnitInterval |
| `Prioritiser.ParsePriorityType` | exomiser-rest-prioritiser/src/main/java/de/charite/compbio/exomiser/rest/prioritiser/api/PrioritiserController.java:110-120 | "phenix" gives PHENIX, "phive" gives PHIVE, every other name (including "hiphive") gives HIPHIVE |
| `JavaText.Trim` | exomiser-rest-prioritiser/src/main/java/de/charite/compbio/exomiser/rest/prioritiser/api/PrioritiserController.java:79 | trimming keeps a slice of the name, cutting only characters at or below U+0020, and leaves none at either end |
| `Prioritiser.ResolutionIsTotal` | exomiser-rest-prioritiser/src/main/java/de/charite/compbio/exomiser/rest/prioritiser/api/PrioritiserController.java:79 | the trimmed name decides the type, and unknown names fall back to HIPHIVE |
| `Prioritiser.SurroundingBlanksIgnored` | exomiser-rest-prioritiser/src/main/java/de/charite/compbio/exomiser/rest/prioritiser/api/PrioritiserController.java:79 | any run of blanks before or after the name leaves the resolved type unchanged |
| `Prioritiser.ResolvePriorityType` | exomiser-rest-prioritiser/src/main/java/de/charite/compbio/exomiser/rest/prioritiser/api/PrioritiserController.java:79 | `parsePrioritserType(prioritiserName.trim())`; ResolutionIsTotal states the outcome for every name |
| `Prioritiser.DistinctSpec` | exomiser-rest-prioritiser/src/main/java/de/charite/compbio/exomiser/rest/prioritiser/api/PrioritiserController.java:104-106 | the phenotypes passed on have no duplicates, the same elements as the input, and are in first-occurrence order |
| `Prioritiser.DistinctDropsRepeat` | exomiser-rest-prioritiser/src/main/java/de/charite/compbio/exomiser/rest/prioritiser/api/PrioritiserController.java:105 | a term given twice is passed on once |
| `Prioritiser.Distinct` | exomiser-rest-prioritiser/src/main/java/de/charite/compbio/exomiser/rest/prioritiser/api/PrioritiserController.java:105 | `stream().distinct()`; DistinctSpec characterises it fully |
| `Prioritiser.Lookup` | exomiser-rest-prioritiser/src/main/java/de/charite/compbio/exomiser/rest/prioritiser/api/PrioritiserController.java:142 | the lookup finds a symbol stored under the key, and fails iff no entry has that key |
| `Prioritiser.GenesOfAll` | exomiser-rest-prioritiser/src/main/java/de/charite/compbio/exomiser/rest/prioritiser/api/PrioritiserController.java:127-138 | one gene per known entry, in order: id -1 when key equals symbol, else the key parsed as an integer |
| `Prioritiser.GeneOfEntry` | exomiser-rest-prioritiser/src/main/java/de/charite/compbio/exomiser/rest/prioritiser/api/PrioritiserController.java:129-137 | one whole-genome gene: id -1 when key equals symbol, else the key parsed; ResolutionPathsAgree relates it to lookup by id |
| `Prioritiser.GeneOfId` | exomiser-rest-prioritiser/src/main/java/de/charite/compbio/exomiser/rest/prioritiser/api/PrioritiserController.java:142 | the gene built for an id carries that id |
| `Prioritiser.GenesOfIds` | exomiser-rest-prioritiser/src/main/java/de/charite/compbio/exomiser/rest/prioritiser/api/PrioritiserController.java:141-143 | one gene per requested id, in the same order |
| `Prioritiser.ParseGeneIdentifiers` | exomiser-rest-prioritiser/src/main/java/de/charite/compbio/exomiser/rest/prioritiser/api/PrioritiserController.java:122-144 | with ids, gene i has id ids[i]; without, gene i has the symbol of entry i |
| `Prioritiser.RequestedGeneSymbol` | exomiser-rest-prioritiser/src/main/java/de/charite/compbio/exomiser/rest/prioritiser/api/PrioritiserController.java:141-143 | a requested gene has its known symbol, else "GENE:" and its id; placeholder symbols are unique per id |
| `Prioritiser.PlaceholderSymbol` | exomiser-rest-prioritiser/src/main/java/de/charite/compbio/exomiser/rest/prioritiser/api/PrioritiserController.java:142 | the `"GENE:" + id` default; RequestedGeneSymbol states it is used for unknown ids and is unique per id |
| `Prioritiser.ResolutionPathsAgree` | exomiser-rest-prioritiser/src/main/java/de/charite/compbio/exomiser/rest/prioritiser/api/PrioritiserController.java:122-143 | a known gene keyed by its canonical id resolves to the same gene whether requested by id or listed from the whole genome |
| `JavaText.IntRoundTrip` | exomiser-rest-prioritiser/src/main/java/de/charite/compbio/exomiser/rest/prioritiser/api/PrioritiserController.java:136 | `Integer.parseInt(Integer.toString(n)) == n` |
| `JavaText.IntToStringIsInjective` | exomiser-rest-prioritiser/src/main/java/de/charite/compbio/exomiser/rest/prioritiser/api/PrioritiserController.java:142 | different ids have different decimal texts |
| `JavaText.IntToString` | exomiser-rest-prioritiser/src/main/java/de/charite/compbio/exomiser/rest/prioritiser/api/PrioritiserController.java:142 | `Integer.toString`; IntRoundTrip and IntToStringIsInjective state it is read back exactly and is injective |
| `JavaText.ParseInt` | exomiser-rest-prioritiser/src/main/java/de/charite/compbio/exomiser/rest/prioritiser/api/PrioritiserController.java:136 | `Integer.parseInt` on decimal text; IntRoundTrip states it inverts `Integer.toString` |
| `JavaText.ListToString` | exomiser-rest-prioritiser/src/main/java/de/charite/compbio/exomiser/rest/prioritiser/api/PrioritiserController.java:95-96 | `List.toString`: the text is enclosed in brackets |
| `Prioritiser.ScoreGenes` | exomiser-rest-prioritiser/src/main/java/de/charite/compbio/exomiser/rest/prioritiser/api/PrioritiserController.java:146-148 | one result per gene, in gene order, carrying the scorer's value for that gene |
| `Prioritiser.SortResultsSpec` | exomiser-rest-prioritiser/src/main/java/de/charite/compbio/exomiser/rest/prioritiser/api/PrioritiserController.java:147-149 | sorting yields descending scores, a permutation of the input, and keeps input order among equal scores |
| `Prioritiser.SortResults` | exomiser-rest-prioritiser/src/main/java/de/charite/compbio/exomiser/rest/prioritiser/api/PrioritiserController.java:147-149 | `sorted(Comparator.naturalOrder())`; SortResultsSpec states it is descending, a permutation and stable |
| `Prioritiser.PrioritiserResults` | exomiser-rest-prioritiser/src/main/java/de/charite/compbio/exomiser/rest/prioritiser/api/PrioritiserController.java:146-155 | the results fail (`Stream.limit`'s IllegalArgumentException) iff `limit` is negative |
| `Prioritiser.UnlimitedReturnsAll` | exomiser-rest-prioritiser/src/main/java/de/charite/compbio/exomiser/rest/prioritiser/api/PrioritiserController.java:151-152 | `limit == 0` returns every result, sorted, as a permutation of the input |
| `Prioritiser.LimitCutsByCount` | exomiser-rest-prioritiser/src/main/java/de/charite/compbio/exomiser/rest/prioritiser/api/PrioritiserController.java:151-154 | `limit > 0` returns the first min(limit, n) sorted results, none ranked below a dropped one |
| `Prioritiser.UpdatedSpec` | exomiser-rest-prioritiser/src/main/java/de/charite/compbio/exomiser/rest/prioritiser/api/PrioritiserController.java:94-99 | a `LinkedHashMap` put appends a new key and overwrites an existing key in place, keeping keys unique |
| `Prioritiser.Updated` | exomiser-rest-prioritiser/src/main/java/de/charite/compbio/exomiser/rest/prioritiser/api/PrioritiserController.java:94-99 | the entries after a `LinkedHashMap.put`; UpdatedSpec states append-or-overwrite-in-place |
| `Prioritiser.ParamMap.constructor` | exomiser-rest-prioritiser/src/main/java/de/charite/compbio/exomiser/rest/prioritiser/api/PrioritiserController.java:94 | a new map has no entries |
| `Prioritiser.ParamMap.Put` | exomiser-rest-prioritiser/src/main/java/de/charite/compbio/exomiser/rest/prioritiser/api/PrioritiserController.java:95-99 | `put` keeps keys unique, appends a new key and overwrites an existing key in place |
| `Prioritiser.EchoParams` | exomiser-rest-prioritiser/src/main/java/de/charite/compbio/exomiser/rest/prioritiser/api/PrioritiserController.java:94-99 | the echo holds exactly phenotypes, genes, prioritiser, prioritiser-params and limit, in that order, with the untrimmed prioritiser name |
| `Prioritiser.Prioritise` | exomiser-rest-prioritiser/src/main/java/de/charite/compbio/exomiser/rest/prioritiser/api/PrioritiserController.java:71-102 | a request fails iff `limit` is negative; otherwise it returns the echo and the sorted, truncated scores of the resolved genes against the de-duplicated phenotypes |

## Left out

- `DefaultDiseaseDao.java` is not part of this model. It is JDBC access, caching and logging. Its failures are absorbed by the database layer.
- `Inheritable.java` is not part of this model: it is an interface with no behaviour.
- Controller plumbing is not modelled: the Spring wiring, `info()`, logging, and the `Instant`/`Duration` timing. The result set therefore has no duration field.
- `GeneFactory.createKnownGeneIdentifiers`, `JannovarData` and `PriorityFactory.makePrioritiser`/`prioritizeGenes` are not part of this model. The identifier map is a parameter. The scorer is a given function whose value is stored per gene.
- The `parallelStream` at PrioritiserController.java:127 is modelled as a sequential map in entry order.
- `Prioritiser.ParseGeneIdentifiers`: requires, as a precondition, that keys differing from their symbol are decimal. A `NumberFormatException` is not modelled.
- `JavaText.ParseInt`, `JavaText.IntToString`: 32-bit overflow is not modelled. `Integer.parseInt` accepting non-ASCII Unicode digits is not modelled either.
- `Pathogenicity.Of`: reference identity of `EMPTY_DATA` is not modelled, because the aggregate is a value. An input of nulls only gives data equal to `EMPTY_DATA`, not the same object.
- `PathogenicitySource`, `ClinVarData`, `PathogenicityScore`, `SiftScore` and `VariantEffectPathogenicityScore` are not part of this model. In their place:
  - the source and interpretation enums are representative;
  - a ClinVar record is an allele id and a primary interpretation;
  - `NON_PATHOGENIC_SCORE` is 0.
- `PriorityResult` is not part of this model. It is a gene, a type and a score, ordered by descending score.
- `Pathogenicity.IsSiftScore`: tests the score's source (`Sift`). `PathogenicityData.java:177` tests the runtime class instead (`getClass() == SiftScore.class`). So a `SiftScore` subclass, or a non-SIFT class reporting the SIFT source, is treated differently.
- Scores are reals: the single-precision rounding of `1 - score` is not modelled.
- `hashCode`, the `toString` of `PathogenicityData`, and the JSON annotations are not modelled.
- `EvidenceModifier`: the unreachable `default: ""` branch of the Java switch has no counterpart, because the Dafny match over the five strengths is exhaustive.
