/**
 * The hybrid retriever: Reciprocal Rank Fusion of the vector and keyword
 * ranks of the `hybrid_search` rows, then a stable descending sort by the
 * fused score, the removal of weak matches and the cut to `top_k`.
 * Scores are exact reals.
 */
module HybridRetriever {
  import opened Wrappers
  import opened Sorting
  import opened Slices

  /** The RRF constant. */
  const RrfK: nat := 60
  /** Rows scoring below this are dropped before reranking. */
  const MinRrfScore: real := 0.01

  /**
   * A row of the RPC: its identity, the two ranks (absent when the row was
   * not found by that search) and the `rrf_score` key the fusion writes.
   */
  datatype Hit = Hit(chunkId: string, vectorRank: Option<nat>, keywordRank: Option<nat>, rrfScore: Option<real>)

  /** `1 / (k + rank)` for a present rank, nothing for an absent one. */
  function Contribution(rank: Option<nat>): (c: real)
    ensures rank.None? ==> c == 0.0
    ensures rank.Some? ==> 0.0 < c <= 1.0 / (RrfK as real)
  {
    match rank
    case None => 0.0
    case Some(r) => 1.0 / ((RrfK + r) as real)
  }

  /** The fused score of a row. */
  function RrfScore(h: Hit): (score: real)
    ensures score >= 0.0
    ensures score == 0.0 <==> h.vectorRank.None? && h.keywordRank.None?
    ensures score <= 2.0 / (RrfK as real)
  {
    Contribution(h.vectorRank) + Contribution(h.keywordRank)
  }

  /** The row after the fusion has written its score. */
  function Scored(h: Hit): Hit {
    h.(rrfScore := Some(RrfScore(h)))
  }

  /** `x.get("rrf_score", 0)` */
  function ScoreOf(h: Hit): real {
    h.rrfScore.GetOr(0.0)
  }

  /** The sort key: `reverse=True` is the stable ascending sort by the negated score. */
  function NegScore(h: Hit): real {
    -ScoreOf(h)
  }

  predicate Strong(h: Hit) {
    ScoreOf(h) >= MinRrfScore
  }

  /**
   * `_apply_rrf`: writes the fused score into every row in place; the rows
   * keep their number and their order, and nothing else about them changes.
   */
  method ApplyRrf(hits: array<Hit>)
    modifies hits
    ensures forall i :: 0 <= i < hits.Length ==> hits[i] == Scored(old(hits[i]))
  {
    for i := 0 to hits.Length
      invariant forall j :: 0 <= j < i ==> hits[j] == Scored(old(hits[j]))
      invariant forall j :: i <= j < hits.Length ==> hits[j] == old(hits[j])
    {
      var h := hits[i];
      var score := 0.0;
      if h.vectorRank.Some? {
        score := score + 1.0 / ((RrfK + h.vectorRank.value) as real);
      }
      if h.keywordRank.Some? {
        score := score + 1.0 / ((RrfK + h.keywordRank.value) as real);
      }
      hits[i] := h.(rrfScore := Some(score));
    }
  }

  /** Every row of `data` scored, in order. */
  function ScoreAll(data: seq<Hit>): (r: seq<Hit>)
    ensures |r| == |data|
  {
    seq(|data|, i requires 0 <= i < |data| => Scored(data[i]))
  }

  /** The sorted rows with the weak matches removed, before the cut. */
  function Filtered(scored: seq<Hit>): seq<Hit> {
    Filter(SortBy(scored, NegScore), Strong)
  }

  /** `sorted(..., reverse=True)`, the comprehension and `[:top_k]`. */
  function Ranked(scored: seq<Hit>, topK: int): seq<Hit> {
    PyHead(Filtered(scored), topK)
  }

  /**
   * `search` after the embedding and the RPC, whose outcome is `rpc` (an
   * exception from either is re-raised, as `Err`).
   */
  function SearchResult(rpc: Result<seq<Hit>, string>, topK: int): (r: Result<seq<Hit>, string>)
    ensures rpc.Err? ==> r == Err(rpc.error)
    ensures rpc == Ok([]) ==> r == Ok([])
  {
    match rpc
    case Err(e) => Err(e)
    case Ok(data) => if data == [] then Ok([]) else Ok(Ranked(ScoreAll(data), topK))
  }

  /** The search, with the fusion run in place on the rows of the RPC. */
  method Search(rpc: Result<seq<Hit>, string>, topK: int) returns (r: Result<seq<Hit>, string>)
    ensures r == SearchResult(rpc, topK)
  {
    if rpc.Err? {
      return Err(rpc.error);
    }
    var data := rpc.value;
    if |data| == 0 {
      return Ok([]);
    }
    var hits := new Hit[|data|](i requires 0 <= i < |data| => data[i]);
    ApplyRrf(hits);
    assert hits[..] == ScoreAll(data);
    return Ok(Ranked(hits[..], topK));
  }

  // ---------------------------------------------------------------------
  // Properties
  // ---------------------------------------------------------------------

  /**
   * The output is sorted by non-increasing score, every row in it reaches
   * the threshold, there are at most `top_k` rows, and they are the best
   * rows of the filtered list.
   */
  lemma RankedOrder(scored: seq<Hit>, topK: int)
    ensures var r := Ranked(scored, topK);
      && (forall i, j :: 0 <= i < j < |r| ==> ScoreOf(r[i]) >= ScoreOf(r[j]))
      && (forall h :: h in r ==> ScoreOf(h) >= MinRrfScore)
      && (topK >= 0 ==> |r| <= topK)
      && r == Filtered(scored)[..|r|]
  {
    var f := Filtered(scored);
    SortByCorrect(scored, NegScore);
    FilterSorted(SortBy(scored, NegScore), Strong, NegScore);
    var r := Ranked(scored, topK);
    forall i, j | 0 <= i < j < |r| ensures ScoreOf(r[i]) >= ScoreOf(r[j]) {
      assert r[i] == f[i] && r[j] == f[j];
      assert NegScore(f[i]) <= NegScore(f[j]);
    }
    forall h | h in r ensures ScoreOf(h) >= MinRrfScore {
      assert h in f;
    }
  }

  /**
   * Exactly the rows below the threshold are removed: a strong row keeps
   * its multiplicity, a weak one disappears.
   */
  lemma FilteredKeepsStrong(scored: seq<Hit>)
    ensures forall h :: Strong(h) ==> multiset(Filtered(scored))[h] == multiset(scored)[h]
    ensures forall h :: !Strong(h) ==> multiset(Filtered(scored))[h] == 0
  {
    SortByCorrect(scored, NegScore);
    FilterMultiset(SortBy(scored, NegScore), Strong);
  }

  /** Filtering commutes with picking the rows of one score. */
  lemma {:induction false} FilterStrongWithKey(s: seq<Hit>, v: real)
    ensures WithKey(Filter(s, Strong), NegScore, v) == if -v >= MinRrfScore then WithKey(s, NegScore, v) else []
  {
    if s != [] {
      FilterStrongWithKey(s[1..], v);
      var head := if NegScore(s[0]) == v then [s[0]] else [];
      assert WithKey(s, NegScore, v) == head + WithKey(s[1..], NegScore, v);
      if Strong(s[0]) {
        assert Filter(s, Strong) == [s[0]] + Filter(s[1..], Strong);
        WithKeyAppend([s[0]], Filter(s[1..], Strong), NegScore, v);
        assert WithKey([s[0]], NegScore, v) == head;
      } else {
        assert Filter(s, Strong) == Filter(s[1..], Strong);
      }
    }
  }

  /** Ties keep the order of the RPC: the sort is stable and the filter keeps order. */
  lemma FilteredStable(scored: seq<Hit>, v: real)
    requires -v >= MinRrfScore
    ensures WithKey(Filtered(scored), NegScore, v) == WithKey(scored, NegScore, v)
  {
    SortByCorrect(scored, NegScore);
    FilterStrongWithKey(SortBy(scored, NegScore), v);
  }

  /**
   * A successful search returns scored rows of the RPC, sorted, strong and
   * at most `top_k` of them.
   */
  lemma SearchResultRows(rpc: Result<seq<Hit>, string>, topK: int)
    requires rpc.Ok?
    ensures var r := SearchResult(rpc, topK);
      && r.Ok?
      && (forall h :: h in r.value ==> exists i :: 0 <= i < |rpc.value| && h == Scored(rpc.value[i]))
      && (forall i, j :: 0 <= i < j < |r.value| ==> ScoreOf(r.value[i]) >= ScoreOf(r.value[j]))
      && (forall h :: h in r.value ==> ScoreOf(h) >= MinRrfScore)
      && (topK >= 0 ==> |r.value| <= topK)
  {
    var data := rpc.value;
    if data != [] {
      var scored := ScoreAll(data);
      RankedOrder(scored, topK);
      FilteredKeepsStrong(scored);
      forall h | h in Ranked(scored, topK) ensures exists i :: 0 <= i < |data| && h == Scored(data[i]) {
        var f := Filtered(scored);
        assert h in f;
        assert multiset(f)[h] > 0;
        assert h in multiset(scored);
        var i :| 0 <= i < |scored| && scored[i] == h;
      }
    }
  }

  /** Under exact arithmetic a row found by one search alone survives iff its rank is at most 40. */
  lemma SingleRankSurvives(rank: nat)
    ensures Contribution(Some(rank)) >= MinRrfScore <==> rank <= 40
  {
    var d := (RrfK + rank) as real;
    assert Contribution(Some(rank)) * d == 1.0;
    if rank <= 40 {
      assert d <= 100.0;
      assert Contribution(Some(rank)) * 100.0 >= Contribution(Some(rank)) * d;
    } else {
      assert d > 100.0;
      assert Contribution(Some(rank)) * 100.0 < Contribution(Some(rank)) * d;
    }
  }

  /** The same for a whole row: with one rank present, the scored row is kept iff that rank is at most 40. */
  lemma SingleRankRow(h: Hit, rank: nat)
    requires (h.vectorRank == Some(rank) && h.keywordRank.None?) || (h.vectorRank.None? && h.keywordRank == Some(rank))
    ensures Strong(Scored(h)) <==> rank <= 40
  {
    SingleRankSurvives(rank);
  }
}
