/** The generated caption variations and the automatic analysis of them, as
    the generation page receives them from the language model. */
module Content {
  import opened Wrappers

  /** One caption variation: `id`, `titulo`, `legenda` and `hashtags` (a
      missing `hashtags` key reads as the empty list). */
  datatype Variant = Variant(id: string, title: string, caption: string, hashtags: seq<string>)

  /** The part of one analysis record the core reads: its variation `id` and
      its `score_final`, None when the key is missing. */
  datatype Analysis = Analysis(id: string, scoreFinal: Option<real>)

  /** `{a["id"]: a for a in analyses}`. */
  function AnalysisIndex(analyses: seq<Analysis>): (m: map<string, Analysis>)
    ensures forall id :: id in m <==> exists a :: a in analyses && a.id == id
  {
    if analyses == [] then map[]
    else
      var n := |analyses| - 1;
      assert analyses == analyses[..n] + [analyses[n]];
      AnalysisIndex(analyses[..n])[analyses[n].id := analyses[n]]
  }

  /** Later records for an id replace earlier ones: the map holds the last
      record carrying each id. */
  lemma {:induction false} LastRecordWins(before: seq<Analysis>, a: Analysis, after: seq<Analysis>)
    requires forall b :: b in after ==> b.id != a.id
    ensures a.id in AnalysisIndex(before + [a] + after)
    ensures AnalysisIndex(before + [a] + after)[a.id] == a
    decreases |after|
  {
    var s := before + [a] + after;
    var init := s[..|s| - 1];
    assert AnalysisIndex(s) == AnalysisIndex(init)[s[|s| - 1].id := s[|s| - 1]];
    if after != [] {
      var n := |after| - 1;
      assert after[n] in after;
      assert init == before + [a] + after[..n];
      LastRecordWins(before, a, after[..n]);
    }
  }

  /** The score stored with a new planner entry: none at all when there is no
      analysis (the Starter plan, or before any generation), otherwise the
      variation's `score_final`, reading 0 when its record or that key is missing. */
  function ScoreFor(analysis: map<string, Analysis>, variantId: string): (r: Option<real>)
    ensures r.None? <==> analysis == map[]
    ensures r.Some? && variantId !in analysis ==> r.value == 0.0
    ensures r.Some? && variantId in analysis ==> r.value == analysis[variantId].scoreFinal.GetOr(0.0)
  {
    if analysis == map[] then None
    else if variantId in analysis then Some(analysis[variantId].scoreFinal.GetOr(0.0))
    else Some(0.0)
  }

  /** The score is absent exactly when the analysis list the map was built from is empty. */
  lemma ScoreAbsentIffNoAnalysis(analyses: seq<Analysis>, variantId: string)
    ensures ScoreFor(AnalysisIndex(analyses), variantId).None? <==> analyses == []
  {
    if analyses != [] {
      assert analyses[0] in analyses;
      assert analyses[0].id in AnalysisIndex(analyses);
    }
  }
}
