/**
 * The per-variant pathogenicity evidence aggregate: one ClinVar record and at
 * most one predicted score per predictor source, combined into one score in
 * which a pathogenic clinical assertion overrides every prediction.
 */
module Pathogenicity {
  import opened Wrappers

  /** Predictor sources, in declaration order (the iteration order of the score map). */
  datatype Source = Polyphen | MutationTaster | Sift | Cadd | Remm | Revel

  const AllSources: seq<Source> := [Polyphen, MutationTaster, Sift, Cadd, Remm, Revel]

  function Ordinal(src: Source): (i: nat)
    ensures i < |AllSources| && AllSources[i] == src
  {
    match src
    case Polyphen => 0
    case MutationTaster => 1
    case Sift => 2
    case Cadd => 3
    case Remm => 4
    case Revel => 5
  }

  lemma AllSourcesListed()
    ensures forall src: Source :: src in AllSources
  {
    forall src: Source ensures src in AllSources {
      assert AllSources[Ordinal(src)] == src;
    }
  }

  /** Primary interpretation of a ClinVar record. */
  datatype ClinSig =
    | Benign | BenignOrLikelyBenign | LikelyBenign
    | UncertainSignificance
    | LikelyPathogenic | PathogenicOrLikelyPathogenic | Pathogenic
    | ConflictingPathogenicityInterpretations
    | NotProvided | Other

  datatype ClinVarData = ClinVarData(alleleId: string, primaryInterpretation: ClinSig)

  /** `ClinVarData.empty()`. */
  const EmptyClinVar: ClinVarData := ClinVarData("", NotProvided)

  predicate ClinVarIsEmpty(c: ClinVarData)
  {
    c == EmptyClinVar
  }

  /** A predicted score; `value` is the predictor's own scale. */
  datatype PathogenicityScore = PathogenicityScore(source: Source, value: real)

  /** SIFT measures tolerance: a low value is damaging. */
  predicate IsSiftScore(s: PathogenicityScore)
  {
    s.source == Sift
  }

  /** `VariantEffectPathogenicityScore.NON_PATHOGENIC_SCORE`. */
  const NonPathogenicScore: real := 0.0

  datatype PathogenicityData = PathogenicityData(
    clinVarData: ClinVarData,
    scores: map<Source, PathogenicityScore>)

  /** `EMPTY_DATA`: empty ClinVar record and no scores. */
  const EmptyData: PathogenicityData := PathogenicityData(EmptyClinVar, map[])

  /** A score for `src` stands at position `i` of `ps`. */
  predicate ScoreFrom(ps: seq<Option<PathogenicityScore>>, i: int, src: Source)
  {
    0 <= i < |ps| && ps[i].Some? && ps[i].value.source == src
  }

  /**
   * The score map the constructor builds: each non-null score is put under
   * its source in turn, so a later score replaces an earlier one.
   */
  function ScoreMap(ps: seq<Option<PathogenicityScore>>): map<Source, PathogenicityScore>
  {
    if ps == [] then map[]
    else
      var m := ScoreMap(ps[..|ps| - 1]);
      match ps[|ps| - 1]
      case None => m
      case Some(s) => m[s.source := s]
  }

  /** The constructor's loop over the input scores (nulls are skipped). */
  method BuildScoreMap(ps: seq<Option<PathogenicityScore>>) returns (m: map<Source, PathogenicityScore>)
    ensures m == ScoreMap(ps)
  {
    m := map[];
    var i := 0;
    while i < |ps|
      invariant 0 <= i <= |ps|
      invariant m == ScoreMap(ps[..i])
    {
      assert ps[..i + 1][..i] == ps[..i];
      if ps[i].Some? {
        var s := ps[i].value;
        m := m[s.source := s];
      }
      i := i + 1;
    }
    assert ps[..|ps|] == ps;
  }

  /** `PathogenicityData.of(clinVarData, pathScores)`. */
  function Of(clinVar: ClinVarData, ps: seq<Option<PathogenicityScore>>): (d: PathogenicityData)
    ensures d.clinVarData == clinVar
    ensures ClinVarIsEmpty(clinVar) && ps == [] ==> d == EmptyData
  {
    if ClinVarIsEmpty(clinVar) && ps == [] then EmptyData
    else PathogenicityData(clinVar, ScoreMap(ps))
  }

  /** `PathogenicityData.empty()`. */
  function Empty(): PathogenicityData
  {
    EmptyData
  }

  /** `isEmpty()`: equal to `EMPTY_DATA`. */
  predicate IsEmpty(d: PathogenicityData)
  {
    d == EmptyData
  }

  /** `equals`: same ClinVar record and same score map. */
  function Equals(a: PathogenicityData, b: PathogenicityData): (r: bool)
    ensures r <==> a == b
  {
    a.clinVarData == b.clinVarData && a.scores == b.scores
  }

  predicate HasClinVarData(d: PathogenicityData)
  {
    !ClinVarIsEmpty(d.clinVarData)
  }

  /** `hasPredictedScore()`: true also when only a ClinVar record is present. */
  predicate HasAnyPredictedScore(d: PathogenicityData)
  {
    |d.scores| != 0 || !ClinVarIsEmpty(d.clinVarData)
  }

  predicate HasPredictedScore(d: PathogenicityData, src: Source)
  {
    src in d.scores
  }

  /** `getPredictedScore(source)`: the score from `src`, or null. */
  function GetPredictedScore(d: PathogenicityData, src: Source): (r: Option<PathogenicityScore>)
    ensures r.Some? <==> HasPredictedScore(d, src)
  {
    if src in d.scores then Some(d.scores[src]) else None
  }

  /** The scores of `m` for `sources`, in that order. */
  function ScoresFor(sources: seq<Source>, m: map<Source, PathogenicityScore>): (r: seq<PathogenicityScore>)
    ensures forall k :: 0 <= k < |r| ==> r[k] in m.Values
    ensures forall src :: src in sources && src in m ==> m[src] in r
  {
    if sources == [] then []
    else if sources[0] in m then [m[sources[0]]] + ScoresFor(sources[1..], m)
    else ScoresFor(sources[1..], m)
  }

  /** `ScoresFor` gives one score per listed source that has one. */
  lemma {:induction false} ScoresForCount(sources: seq<Source>, m: map<Source, PathogenicityScore>)
    requires forall i, j :: 0 <= i < j < |sources| ==> sources[i] != sources[j]
    ensures |ScoresFor(sources, m)| == |set src | src in sources && src in m|
  {
    if sources != [] {
      var rest := set src | src in sources[1..] && src in m;
      ScoresForCount(sources[1..], m);
      assert sources[0] !in rest by {
        forall k | 0 <= k < |sources[1..]| ensures sources[1..][k] != sources[0] {
          assert sources[1..][k] == sources[k + 1];
        }
      }
      if sources[0] in m {
        assert (set src | src in sources && src in m) == {sources[0]} + rest;
      } else {
        assert (set src | src in sources && src in m) == rest;
      }
    }
  }

  /** `getPredictedPathogenicityScores()`: every retained score, once each, in source order. */
  function PredictedScores(d: PathogenicityData): (r: seq<PathogenicityScore>)
    ensures |r| == |d.scores|
    ensures forall k :: 0 <= k < |r| ==> r[k] in d.scores.Values
    ensures forall src :: src in d.scores ==> d.scores[src] in r
  {
    AllSourcesListed();
    ScoresForCount(AllSources, d.scores);
    assert (set src | src in AllSources && src in d.scores) == d.scores.Keys;
    ScoresFor(AllSources, d.scores)
  }

  /**
   * `Stream.max` under the reverse of the scores' natural order, which puts
   * higher `rank` first: the highest-ranked score, and of equally ranked
   * scores the first met (`BinaryOperator.maxBy` keeps its left operand on a tie).
   */
  function MaxBy(xs: seq<PathogenicityScore>, rank: PathogenicityScore -> real): (r: PathogenicityScore)
    requires |xs| > 0
    ensures r in xs
    ensures forall k :: 0 <= k < |xs| ==> rank(xs[k]) <= rank(r)
    ensures exists i :: 0 <= i < |xs| && xs[i] == r && forall k :: 0 <= k < i ==> rank(xs[k]) < rank(r)
  {
    if |xs| == 1 then xs[0]
    else
      var m := MaxBy(xs[..|xs| - 1], rank);
      var last := xs[|xs| - 1];
      if rank(m) >= rank(last) then m else last
  }

  /** `getMostPathogenicScore()`: null exactly when there are no scores. */
  function MostPathogenicScore(d: PathogenicityData, rank: PathogenicityScore -> real): Option<PathogenicityScore>
  {
    var xs := PredictedScores(d);
    if xs == [] then None else Some(MaxBy(xs, rank))
  }

  predicate IsClinicallyPathogenic(c: ClinVarData)
  {
    c.primaryInterpretation in {Pathogenic, PathogenicOrLikelyPathogenic, LikelyPathogenic}
  }

  /** `getPredictedPathScore()`. */
  function PredictedPathScore(d: PathogenicityData, rank: PathogenicityScore -> real): real
  {
    if |d.scores| == 0 then NonPathogenicScore
    else
      match MostPathogenicScore(d, rank)
      case None => NonPathogenicScore
      case Some(s) => if IsSiftScore(s) then 1.0 - s.value else s.value
  }

  /** `getScore()`: 1 for a pathogenic clinical assertion, otherwise the predicted score. */
  function Score(d: PathogenicityData, rank: PathogenicityScore -> real): real
  {
    if IsClinicallyPathogenic(d.clinVarData) then 1.0 else PredictedPathScore(d, rank)
  }

  // ---------------------------------------------------------------------------
  // Properties
  // ---------------------------------------------------------------------------

  /** `of(ClinVarData.empty(), [])` is `empty()`, which is empty. */
  lemma OfNothingIsEmptyData()
    ensures Of(EmptyClinVar, []) == Empty()
    ensures IsEmpty(Empty())
  {
  }

  /**
   * After construction the map holds exactly the sources of the non-null
   * inputs, each under its own source, and for each source the last input
   * score from it.
   */
  lemma {:induction false} ScoreMapContents(ps: seq<Option<PathogenicityScore>>, src: Source)
    ensures src in ScoreMap(ps) <==> exists i :: ScoreFrom(ps, i, src)
    ensures src in ScoreMap(ps) ==> ScoreMap(ps)[src].source == src
    ensures src in ScoreMap(ps) ==>
              exists i :: ScoreFrom(ps, i, src) && ScoreMap(ps)[src] == ps[i].value
                && forall j :: i < j < |ps| ==> !ScoreFrom(ps, j, src)
  {
    if ps != [] {
      var init := ps[..|ps| - 1];
      var n := |ps| - 1;
      ScoreMapContents(init, src);
      forall i | ScoreFrom(init, i, src) ensures ScoreFrom(ps, i, src) {
        assert ps[i] == init[i];
      }
      forall i | ScoreFrom(ps, i, src) && i < n ensures ScoreFrom(init, i, src) {
        assert ps[i] == init[i];
      }
      if ScoreFrom(ps, n, src) {
        assert ScoreMap(ps)[src] == ps[n].value;
      } else if src in ScoreMap(ps) {
        assert src in ScoreMap(init) && ScoreMap(ps)[src] == ScoreMap(init)[src];
        var i :| ScoreFrom(init, i, src) && ScoreMap(init)[src] == init[i].value
                 && forall j :: i < j < |init| ==> !ScoreFrom(init, j, src);
        assert ScoreFrom(ps, i, src) && ps[i] == init[i];
        forall j | i < j < |ps| ensures !ScoreFrom(ps, j, src) {
          if j < n { assert ps[j] == init[j]; }
        }
      }
    }
  }

  /** The sources of `Of(clinVar, ps)` are the sources of the non-null scores in `ps`. */
  lemma OfKeepsLastScorePerSource(clinVar: ClinVarData, ps: seq<Option<PathogenicityScore>>, src: Source)
    ensures HasPredictedScore(Of(clinVar, ps), src) <==> exists i :: ScoreFrom(ps, i, src)
    ensures HasPredictedScore(Of(clinVar, ps), src) ==>
              exists i :: ScoreFrom(ps, i, src) && Of(clinVar, ps).scores[src] == ps[i].value
                && forall j :: i < j < |ps| ==> !ScoreFrom(ps, j, src)
  {
    ScoreMapContents(ps, src);
  }

  /**
   * Inputs holding only nulls build data that is empty: a different object in
   * Java, but equal to `EMPTY_DATA`.
   */
  lemma OnlyNullsIsEmpty(ps: seq<Option<PathogenicityScore>>)
    requires forall i :: 0 <= i < |ps| ==> ps[i].None?
    ensures IsEmpty(Of(EmptyClinVar, ps))
  {
    forall src ensures src !in ScoreMap(ps) {
      ScoreMapContents(ps, src);
    }
    assert ScoreMap(ps) == map[];
  }

  /** `isEmpty()` holds iff the ClinVar record is empty and there are no scores, i.e. iff `hasPredictedScore()` fails. */
  lemma IsEmptyCharacterised(d: PathogenicityData)
    ensures IsEmpty(d) <==> ClinVarIsEmpty(d.clinVarData) && |d.scores| == 0
    ensures IsEmpty(d) <==> !HasAnyPredictedScore(d)
  {
    if |d.scores| == 0 {
      assert d.scores.Keys == {};
      assert d.scores == map[];
    }
  }

  /** A score looked up by source comes from that source. */
  lemma PredictedScoreIsFromSource(clinVar: ClinVarData, ps: seq<Option<PathogenicityScore>>, src: Source)
    ensures GetPredictedScore(Of(clinVar, ps), src).Some? ==> GetPredictedScore(Of(clinVar, ps), src).value.source == src
  {
    ScoreMapContents(ps, src);
  }

  /** `getMostPathogenicScore()` is null iff there are no scores; otherwise it is a retained score of highest rank. */
  lemma MostPathogenicScoreIsMaximal(d: PathogenicityData, rank: PathogenicityScore -> real)
    ensures MostPathogenicScore(d, rank).None? <==> |d.scores| == 0
    ensures MostPathogenicScore(d, rank).Some? ==>
              MostPathogenicScore(d, rank).value in d.scores.Values
              && forall src :: src in d.scores ==> rank(d.scores[src]) <= rank(MostPathogenicScore(d, rank).value)
  {
    var xs := PredictedScores(d);
    if |d.scores| != 0 {
      var src :| src in d.scores;
      assert d.scores[src] in xs;
    } else {
      assert d.scores.Values == {};
    }
    if xs != [] {
      var m := MaxBy(xs, rank);
      forall src | src in d.scores ensures rank(d.scores[src]) <= rank(m) {
        var k :| 0 <= k < |xs| && xs[k] == d.scores[src];
      }
    }
  }

  /** A pathogenic, likely pathogenic or pathogenic/likely pathogenic ClinVar record scores 1, whatever the predictions. */
  lemma ClinicalAssertionOverrides(clinVar: ClinVarData, ps: seq<Option<PathogenicityScore>>, rank: PathogenicityScore -> real)
    requires clinVar.primaryInterpretation in {Pathogenic, PathogenicOrLikelyPathogenic, LikelyPathogenic}
    ensures Score(Of(clinVar, ps), rank) == 1.0
  {
  }

  /**
   * Without a pathogenic clinical assertion the score is the floor when there
   * are no predictions, otherwise the most pathogenic prediction's value,
   * inverted when it is a SIFT score.
   */
  lemma PredictionDecidesOtherwise(d: PathogenicityData, rank: PathogenicityScore -> real)
    requires !IsClinicallyPathogenic(d.clinVarData)
    ensures |d.scores| == 0 ==> Score(d, rank) == NonPathogenicScore
    ensures |d.scores| != 0 ==>
              MostPathogenicScore(d, rank).Some?
              && var s := MostPathogenicScore(d, rank).value;
                 Score(d, rank) == (if s.source == Sift then 1.0 - s.value else s.value)
  {
    MostPathogenicScoreIsMaximal(d, rank);
  }

  /** With scores on a 0..1 scale (and the floor in it too) the combined score stays in 0..1. */
  lemma ScoreInUnitInterval(d: PathogenicityData, rank: PathogenicityScore -> real)
    requires forall src :: src in d.scores ==> 0.0 <= d.scores[src].value <= 1.0
    ensures 0.0 <= Score(d, rank) <= 1.0
  {
    MostPathogenicScoreIsMaximal(d, rank);
  }

  /** One SIFT score of value v and no ClinVar record: the score is 1 - v. */
  lemma SingleSiftScoreIsInverted(v: real, rank: PathogenicityScore -> real)
    ensures Score(Of(EmptyClinVar, [Some(PathogenicityScore(Sift, v))]), rank) == 1.0 - v
  {
    var ps := [Some(PathogenicityScore(Sift, v))];
    var d := Of(EmptyClinVar, ps);
    assert ps[..0] == [] && ScoreMap(ps[..0]) == map[];
    assert ScoreMap(ps) == map[][Sift := PathogenicityScore(Sift, v)];
    assert d.scores == map[Sift := PathogenicityScore(Sift, v)];
    MostPathogenicScoreIsMaximal(d, rank);
  }

  /** No ClinVar record and no scores: the non-pathogenic floor. */
  lemma NothingScoresFloor(rank: PathogenicityScore -> real)
    ensures Score(Empty(), rank) == NonPathogenicScore
  {
  }

  /** Every score sits under its own source, as the constructor puts them. */
  predicate KeyedBySource(m: map<Source, PathogenicityScore>)
  {
    forall src :: src in m ==> m[src].source == src
  }

  lemma OfIsKeyedBySource(clinVar: ClinVarData, ps: seq<Option<PathogenicityScore>>)
    ensures KeyedBySource(Of(clinVar, ps).scores)
  {
    forall src | src in Of(clinVar, ps).scores ensures Of(clinVar, ps).scores[src].source == src {
      ScoreMapContents(ps, src);
    }
  }

  predicate InSourceOrder(sources: seq<Source>)
  {
    forall i, j :: 0 <= i < j < |sources| ==> Ordinal(sources[i]) < Ordinal(sources[j])
  }

  lemma {:induction false} ScoresForInOrder(sources: seq<Source>, m: map<Source, PathogenicityScore>)
    requires KeyedBySource(m) && InSourceOrder(sources)
    ensures forall k :: 0 <= k < |ScoresFor(sources, m)| ==> ScoresFor(sources, m)[k].source in sources
    ensures forall i, j :: 0 <= i < j < |ScoresFor(sources, m)| ==>
              Ordinal(ScoresFor(sources, m)[i].source) < Ordinal(ScoresFor(sources, m)[j].source)
  {
    if sources != [] {
      var rest := ScoresFor(sources[1..], m);
      ScoresForInOrder(sources[1..], m);
      forall k | 0 <= k < |rest| ensures Ordinal(sources[0]) < Ordinal(rest[k].source) {
        var j :| 0 <= j < |sources[1..]| && sources[1..][j] == rest[k].source;
        assert sources[j + 1] == rest[k].source;
      }
    }
  }

  /** `getPredictedPathogenicityScores()` lists the scores in source declaration order. */
  lemma PredictedScoresInSourceOrder(d: PathogenicityData)
    requires KeyedBySource(d.scores)
    ensures forall i, j :: 0 <= i < j < |PredictedScores(d)| ==>
              Ordinal(PredictedScores(d)[i].source) < Ordinal(PredictedScores(d)[j].source)
  {
    forall i, j | 0 <= i < j < |AllSources| ensures Ordinal(AllSources[i]) < Ordinal(AllSources[j]) {
    }
    ScoresForInOrder(AllSources, d.scores);
  }

  /**
   * Of equally pathogenic scores, the one whose source is declared first is
   * chosen (data built by `Of` is keyed by source: `OfIsKeyedBySource`).
   */
  lemma MostPathogenicTieBreak(d: PathogenicityData, rank: PathogenicityScore -> real, src: Source)
    requires KeyedBySource(d.scores)
    requires src in d.scores
    ensures MostPathogenicScore(d, rank).Some?
    ensures rank(d.scores[src]) == rank(MostPathogenicScore(d, rank).value) ==>
              Ordinal(MostPathogenicScore(d, rank).value.source) <= Ordinal(src)
  {
    var xs := PredictedScores(d);
    PredictedScoresInSourceOrder(d);
    assert d.scores[src] in xs;
    var m := MaxBy(xs, rank);
    var i :| 0 <= i < |xs| && xs[i] == m && forall k :: 0 <= k < i ==> rank(xs[k]) < rank(m);
    var k :| 0 <= k < |xs| && xs[k] == d.scores[src];
    assert xs[k].source == src;
  }
}
