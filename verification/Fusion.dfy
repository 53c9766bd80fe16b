/**
 * Hybrid search (backend/services/rag/retriever.py, _fuse_results): weighted reciprocal rank
 * fusion of a dense and a keyword ranking, with threshold and top-k. Scores are reals. The
 * order of ids with equal scores is left open, as the source iterates over a set.
 */
module Fusion {
  import opened Slicing
  import opened Wrappers

  type Id = string

  datatype Hit = Hit(
    id: Id, title: string, content: string, kind: string, tags: seq<string>,
    score: Option<real>, denseScore: Option<real>, keywordScore: Option<real>)

  datatype Ranked = Ranked(rank: nat, hit: Hit)

  const K := 60

  // ---- ranks -----------------------------------------------------------------

  /** The rank dictionary of one branch; an id that occurs again takes its last position. */
  function Ranks(hits: seq<Hit>): map<Id, Ranked> {
    if hits == [] then map[]
    else
      var last := hits[|hits| - 1];
      Ranks(hits[..|hits| - 1])[last.id := Ranked(|hits|, last)]
  }

  ghost predicate DistinctIds(hits: seq<Hit>) {
    forall i, j :: 0 <= i < j < |hits| ==> hits[i].id != hits[j].id
  }

  lemma {:induction false} RankIsLastPosition(hits: seq<Hit>, id: Id)
    requires id in Ranks(hits)
    ensures var r := Ranks(hits)[id];
            && 1 <= r.rank <= |hits| && hits[r.rank - 1].id == id && r.hit == hits[r.rank - 1]
            && forall j :: r.rank <= j < |hits| ==> hits[j].id != id
  {
    var front := hits[..|hits| - 1];
    if hits[|hits| - 1].id != id {
      RankIsLastPosition(front, id);
      assert forall j :: 0 <= j < |front| ==> hits[j] == front[j];
    }
  }

  lemma {:induction false} EveryHitIsRanked(hits: seq<Hit>, i: nat)
    requires i < |hits|
    ensures hits[i].id in Ranks(hits)
  {
    if i < |hits| - 1 {
      EveryHitIsRanked(hits[..|hits| - 1], i);
    }
  }

  lemma RankIsPosition(hits: seq<Hit>, i: nat)
    requires DistinctIds(hits) && i < |hits|
    ensures hits[i].id in Ranks(hits) && Ranks(hits)[hits[i].id] == Ranked(i + 1, hits[i])
  {
    EveryHitIsRanked(hits, i);
    var ranked := Ranks(hits)[hits[i].id];
    RankIsLastPosition(hits, hits[i].id);
    SamePosition(hits, i, ranked.rank - 1);
  }

  lemma SamePosition(hits: seq<Hit>, i: nat, j: nat)
    requires DistinctIds(hits) && i < |hits| && j < |hits| && hits[i].id == hits[j].id
    ensures i == j
  {
  }

  method BuildRanks(hits: seq<Hit>) returns (ranks: map<Id, Ranked>)
    ensures ranks == Ranks(hits)
  {
    ranks := map[];
    for i := 0 to |hits|
      invariant ranks == Ranks(hits[..i])
    {
      assert hits[..i + 1][..i] == hits[..i];
      ranks := ranks[hits[i].id := Ranked(i + 1, hits[i])];
    }
    assert hits[..|hits|] == hits;
  }

  // ---- scores ----------------------------------------------------------------

  /** One fusion: the two branches and their weights. */
  datatype Query = Query(dense: seq<Hit>, keyword: seq<Hit>, denseWeight: real, keywordWeight: real)

  function Share(weight: real, rank: nat): real {
    weight * (1.0 / (K + rank) as real)
  }

  function BranchScore(hits: seq<Hit>, weight: real, id: Id): real {
    if id in Ranks(hits) then Share(weight, Ranks(hits)[id].rank) else 0.0
  }

  function Score(q: Query, id: Id): real {
    BranchScore(q.dense, q.denseWeight, id) + BranchScore(q.keyword, q.keywordWeight, id)
  }

  function Ids(q: Query): set<Id> {
    Ranks(q.dense).Keys + Ranks(q.keyword).Keys
  }

  predicate Passes(threshold: Option<real>, score: real) {
    threshold.Some? ==> score >= threshold.value
  }

  function Passing(q: Query, threshold: Option<real>): set<Id> {
    set id | id in Ids(q) && Passes(threshold, Score(q, id))
  }

  function Merge(q: Query, id: Id): Hit
    requires id in Ids(q)
  {
    var dense, keyword := Ranks(q.dense), Ranks(q.keyword);
    var base := if id in dense then dense[id].hit else keyword[id].hit;
    Hit(id, base.title, base.content, base.kind, base.tags, Some(Score(q, id)),
        if id in dense then dense[id].hit.denseScore else None,
        if id in keyword then keyword[id].hit.keywordScore else None)
  }

  // ---- the fused ranking -----------------------------------------------------

  /** A true top-k of the fused scores: no id twice, best first, as many as there are up to
      the limit, and nothing left out that scores above something returned. */
  ghost predicate IsTopK(results: seq<Hit>, q: Query, limit: int, threshold: Option<real>) {
    && |results| == SliceLength(|Passing(q, threshold)|, limit)
    && DistinctIds(results)
    && (forall i :: 0 <= i < |results| ==>
          results[i].id in Passing(q, threshold) && results[i] == Merge(q, results[i].id))
    && (forall i, j :: 0 <= i < j < |results| ==> Score(q, results[i].id) >= Score(q, results[j].id))
    && (forall id, i | id in Passing(q, threshold) && 0 <= i < |results|
                         && (forall j :: 0 <= j < |results| ==> results[j].id != id) ::
          Score(q, results[i].id) >= Score(q, id))
  }

  ghost predicate Descending(ids: seq<Id>, scores: map<Id, real>) {
    && (forall i :: 0 <= i < |ids| ==> ids[i] in scores)
    && (forall i, j :: 0 <= i < j < |ids| ==> ids[i] != ids[j] && scores[ids[i]] >= scores[ids[j]])
  }

  method InsertByScore(ids: seq<Id>, id: Id, scores: map<Id, real>) returns (r: seq<Id>)
    requires Descending(ids, scores) && id in scores && id !in ids
    ensures Descending(r, scores) && forall x :: x in r <==> x in ids || x == id
  {
    var i := 0;
    while i < |ids| && scores[ids[i]] >= scores[id]
      invariant 0 <= i <= |ids|
      invariant forall k :: 0 <= k < i ==> scores[ids[k]] >= scores[id]
    {
      i := i + 1;
    }
    InsertedAt(ids, id, scores, i);
    r := ids[..i] + [id] + ids[i..];
  }

  lemma InsertedAt(ids: seq<Id>, id: Id, scores: map<Id, real>, i: nat)
    requires Descending(ids, scores) && id in scores && id !in ids && i <= |ids|
    requires forall k :: 0 <= k < i ==> scores[ids[k]] >= scores[id]
    requires i < |ids| ==> scores[ids[i]] < scores[id]
    ensures var r := ids[..i] + [id] + ids[i..];
            Descending(r, scores) && forall x :: x in r <==> x in ids || x == id
  {
    var r := ids[..i] + [id] + ids[i..];
    assert ids == ids[..i] + ids[i..];
    forall k | i <= k < |ids| ensures scores[ids[k]] <= scores[id] {
      assert i < k ==> scores[ids[i]] >= scores[ids[k]];
    }
    forall a, b | 0 <= a < b < |r| ensures r[a] != r[b] && scores[r[a]] >= scores[r[b]] {
      assert r[a] == if a < i then ids[a] else if a == i then id else ids[a - 1];
      assert r[b] == if b < i then ids[b] else if b == i then id else ids[b - 1];
    }
  }

  /** `sorted(..., reverse=True)` by score over the keys of the score dictionary. */
  method SortByScore(scores: map<Id, real>) returns (ids: seq<Id>)
    ensures Descending(ids, scores) && forall x :: x in ids <==> x in scores
  {
    ids := [];
    var todo := scores.Keys;
    while todo != {}
      invariant todo <= scores.Keys && Descending(ids, scores)
      invariant forall x :: x in ids <==> x in scores && x !in todo
      decreases |todo|
    {
      var id :| id in todo;
      ids := InsertByScore(ids, id, scores);
      todo := todo - {id};
    }
  }

  method KeepPassing(ids: seq<Id>, scores: map<Id, real>, threshold: Option<real>) returns (kept: seq<Id>)
    requires Descending(ids, scores)
    ensures Descending(kept, scores)
    ensures forall x :: x in kept <==> x in ids && Passes(threshold, scores[x])
  {
    kept := [];
    for i := 0 to |ids|
      invariant Descending(kept, scores)
      invariant forall x :: x in kept <==> x in ids[..i] && Passes(threshold, scores[x])
    {
      assert ids[..i + 1] == ids[..i] + [ids[i]];
      if Passes(threshold, scores[ids[i]]) {
        kept := kept + [ids[i]];
      }
    }
    assert ids[..|ids|] == ids;
  }

  method ScoreOf(q: Query, dense: map<Id, Ranked>, keyword: map<Id, Ranked>, id: Id) returns (score: real)
    requires dense == Ranks(q.dense) && keyword == Ranks(q.keyword)
    ensures score == Score(q, id)
  {
    score := 0.0;
    if id in dense {
      score := score + Share(q.denseWeight, dense[id].rank);
    }
    if id in keyword {
      score := score + Share(q.keywordWeight, keyword[id].rank);
    }
  }

  ghost predicate AreScores(q: Query, scores: map<Id, real>) {
    forall id :: id in scores ==> scores[id] == Score(q, id)
  }

  method AddScore(q: Query, dense: map<Id, Ranked>, keyword: map<Id, Ranked>, scores: map<Id, real>, id: Id)
    returns (more: map<Id, real>)
    requires dense == Ranks(q.dense) && keyword == Ranks(q.keyword) && AreScores(q, scores)
    ensures AreScores(q, more) && more.Keys == scores.Keys + {id}
  {
    var score := ScoreOf(q, dense, keyword, id);
    more := scores[id := score];
  }

  /** The scoring loop, over ids in any order. */
  method ScoreAll(q: Query, dense: map<Id, Ranked>, keyword: map<Id, Ranked>, ids: set<Id>)
    returns (scores: map<Id, real>)
    requires dense == Ranks(q.dense) && keyword == Ranks(q.keyword)
    ensures scores.Keys == ids && AreScores(q, scores)
  {
    scores := map[];
    var todo := ids;
    while todo != {}
      invariant todo <= ids && scores.Keys == ids - todo
      invariant AreScores(q, scores)
      decreases |todo|
    {
      var id :| id in todo;
      scores := AddScore(q, dense, keyword, scores, id);
      todo := todo - {id};
    }
  }

  method FusedScores(q: Query) returns (scores: map<Id, real>)
    ensures scores.Keys == Ids(q) && AreScores(q, scores)
  {
    var dense := BuildRanks(q.dense);
    var keyword := BuildRanks(q.keyword);
    scores := ScoreAll(q, dense, keyword, dense.Keys + keyword.Keys);
  }

  lemma {:induction false} DistinctCount(ids: seq<Id>, s: set<Id>)
    requires forall i, j :: 0 <= i < j < |ids| ==> ids[i] != ids[j]
    requires forall x :: x in ids <==> x in s
    ensures |ids| == |s|
  {
    if ids == [] {
      assert s == {};
    } else {
      var last := ids[|ids| - 1];
      DistinctCount(ids[..|ids| - 1], s - {last});
    }
  }

  /** Cutting the sorted passing ids gives a top-k. */
  lemma CutIsTopK(q: Query, scores: map<Id, real>, kept: seq<Id>, results: seq<Hit>, limit: int,
                  threshold: Option<real>)
    requires scores.Keys == Ids(q) && AreScores(q, scores)
    requires Descending(kept, scores) && forall x :: x in kept <==> x in Passing(q, threshold)
    requires |results| == SliceLength(|kept|, limit)
    requires forall k :: 0 <= k < |results| ==> kept[k] in Ids(q) && results[k] == Merge(q, kept[k])
    ensures IsTopK(results, q, limit, threshold)
  {
    DistinctCount(kept, Passing(q, threshold));
    forall k | 0 <= k < |results| ensures results[k].id == kept[k] && kept[k] in Passing(q, threshold) {
      assert kept[k] in kept;
    }
    forall id, i | id in Passing(q, threshold) && 0 <= i < |results|
                     && (forall j :: 0 <= j < |results| ==> results[j].id != id)
      ensures Score(q, results[i].id) >= Score(q, id)
    {
      assert id in kept;
      var p :| 0 <= p < |kept| && kept[p] == id;
      assert forall k :: 0 <= k < |results| ==> kept[k] != id;
      assert scores[kept[i]] >= scores[kept[p]];
    }
  }

  /** `_fuse_results`. */
  method FuseResults(q: Query, limit: int, threshold: Option<real>) returns (results: seq<Hit>)
    ensures IsTopK(results, q, limit, threshold)
  {
    var scores := FusedScores(q);
    var sorted := SortByScore(scores);
    var kept := KeepPassing(sorted, scores, threshold);
    var n := SliceLength(|kept|, limit);
    results := [];
    for i := 0 to n
      invariant |results| == i
      invariant forall k :: 0 <= k < i ==> kept[k] in Ids(q) && results[k] == Merge(q, kept[k])
    {
      assert kept[i] in kept;
      results := results + [Merge(q, kept[i])];
    }
    CutIsTopK(q, scores, kept, results, limit, threshold);
  }

  // ---- what the threshold means ----------------------------------------------

  lemma InSomeBranch(q: Query, id: Id)
    ensures id in Ids(q) <==>
              (exists i :: 0 <= i < |q.dense| && q.dense[i].id == id)
              || (exists i :: 0 <= i < |q.keyword| && q.keyword[i].id == id)
  {
    RankedExactlyWhenPresent(q.dense, id);
    RankedExactlyWhenPresent(q.keyword, id);
  }

  lemma RankedExactlyWhenPresent(hits: seq<Hit>, id: Id)
    ensures id in Ranks(hits) <==> exists i :: 0 <= i < |hits| && hits[i].id == id
  {
    RankedWherePresent(hits, id);
    if i :| 0 <= i < |hits| && hits[i].id == id {
      EveryHitIsRanked(hits, i);
    }
  }

  /** A threshold keeps exactly the ids that reach it: a returned id scores at least as much, and an id of either
      branch that does so is returned, unless the limit is used up by others that score no less. */
  lemma ThresholdIsExact(q: Query, results: seq<Hit>, limit: nat, threshold: Option<real>, id: Id)
    requires IsTopK(results, q, limit, threshold) && id in Ids(q)
    ensures id in IdsOf(results) ==> threshold.None? || Score(q, id) >= threshold.value
    ensures threshold.None? || Score(q, id) >= threshold.value ==>
              || id in IdsOf(results)
              || (|results| == limit && forall i :: 0 <= i < limit ==> Score(q, results[i].id) >= Score(q, id))
  {
    var passing, ids := Passing(q, threshold), IdsOf(results);
    if id in passing && id !in ids {
      forall j | 0 <= j < |results| ensures results[j].id != id {
        assert ids[j] in ids;
      }
      if |results| < limit {
        SomeoneIsMissing(ids, passing, id);
      }
    }
  }

  /** Distinct ids of a set that do not cover it are fewer. */
  lemma {:induction false} SomeoneIsMissing(ids: seq<Id>, all: set<Id>, id: Id)
    requires forall i, j :: 0 <= i < j < |ids| ==> ids[i] != ids[j]
    requires (forall i :: 0 <= i < |ids| ==> ids[i] in all) && id in all && id !in ids
    ensures |ids| < |all|
  {
    if ids != [] {
      SomeoneIsMissing(ids[1..], all - {ids[0]}, id);
    }
  }

  /** When all ids fit, the threshold alone decides. */
  lemma ThresholdAlone(q: Query, results: seq<Hit>, limit: nat, threshold: Option<real>, id: Id)
    requires IsTopK(results, q, limit, threshold) && id in Ids(q) && |Ids(q)| <= limit
    ensures id in IdsOf(results) <==> threshold.None? || Score(q, id) >= threshold.value
  {
    ThresholdIsExact(q, results, limit, threshold, id);
    var ids := IdsOf(results);
    if id !in ids {
      SomeoneIsMissing(ids, Ids(q), id);
    }
  }

  // ---- what the scores mean --------------------------------------------------

  /**
   * One fused hit, by positions alone: an id found by both branches keeps the dense hit's text and both
   * branch scores, an id found by one branch keeps that hit, and the score adds up the shares
   * weight / (60 + position), positions counted from one.
   */
  lemma FusedHit(q: Query, i: nat, j: nat)
    requires DistinctIds(q.dense) && DistinctIds(q.keyword)
    ensures i < |q.dense| && j < |q.keyword| && q.dense[i].id == q.keyword[j].id ==>
              && q.dense[i].id in Ids(q)
              && Merge(q, q.dense[i].id) == q.dense[i].(keywordScore := q.keyword[j].keywordScore,
                   score := Some(q.denseWeight / (61 + i) as real + q.keywordWeight / (61 + j) as real))
    ensures i < |q.dense| && (forall k :: 0 <= k < |q.keyword| ==> q.keyword[k].id != q.dense[i].id) ==>
              && q.dense[i].id in Ids(q)
              && Merge(q, q.dense[i].id)
              == q.dense[i].(keywordScore := None, score := Some(q.denseWeight / (61 + i) as real))
    ensures j < |q.keyword| && (forall k :: 0 <= k < |q.dense| ==> q.dense[k].id != q.keyword[j].id) ==>
              && q.keyword[j].id in Ids(q)
              && Merge(q, q.keyword[j].id)
              == q.keyword[j].(denseScore := None, score := Some(q.keywordWeight / (61 + j) as real))
  {
    if i < |q.dense| {
      RankIsPosition(q.dense, i);
      ShareByPosition(q.denseWeight, i);
      RankedWherePresent(q.keyword, q.dense[i].id);
    }
    if j < |q.keyword| {
      RankIsPosition(q.keyword, j);
      ShareByPosition(q.keywordWeight, j);
      RankedWherePresent(q.dense, q.keyword[j].id);
    }
  }

  lemma ShareByPosition(weight: real, i: nat)
    ensures Share(weight, i + 1) == weight / (61 + i) as real
  {
    var d := (61 + i) as real;
    assert (K + (i + 1)) as real == d;
    assert weight * (1.0 / d) * d == weight;
  }

  lemma RankedWherePresent(hits: seq<Hit>, id: Id)
    ensures id in Ranks(hits) ==> exists k :: 0 <= k < |hits| && hits[k].id == id
  {
    if id in Ranks(hits) {
      RankIsLastPosition(hits, id);
    }
  }

  lemma ShareFalls(weight: real, better: nat, worse: nat)
    requires weight >= 0.0 && better <= worse
    ensures Share(weight, better) >= Share(weight, worse) >= 0.0
    ensures weight > 0.0 && better < worse ==> Share(weight, better) > Share(weight, worse)
  {
    var a, b := 1.0 / (K + better) as real, 1.0 / (K + worse) as real;
    assert a >= b > 0.0;
    assert weight * (a - b) >= 0.0;
    assert weight * b >= 0.0;
    if weight > 0.0 && better < worse {
      assert a > b;
      assert weight * (a - b) > 0.0;
    }
  }

  /** `a` is ranked at least as well as `b` wherever `b` is ranked. */
  predicate AtLeastAsGood(hits: seq<Hit>, a: Id, b: Id) {
    b in Ranks(hits) ==> a in Ranks(hits) && Ranks(hits)[a].rank <= Ranks(hits)[b].rank
  }

  lemma BranchDominance(hits: seq<Hit>, weight: real, a: Id, b: Id)
    requires weight >= 0.0 && AtLeastAsGood(hits, a, b)
    ensures BranchScore(hits, weight, a) >= BranchScore(hits, weight, b)
  {
    if b in Ranks(hits) {
      ShareFalls(weight, Ranks(hits)[a].rank, Ranks(hits)[b].rank);
    } else if a in Ranks(hits) {
      ShareFalls(weight, Ranks(hits)[a].rank, Ranks(hits)[a].rank);
    }
  }

  /** With weights that are not negative, an id ranked at least as well as another in every
      branch that holds the other scores at least as much. */
  lemma Dominance(q: Query, a: Id, b: Id)
    requires q.denseWeight >= 0.0 && q.keywordWeight >= 0.0
    requires AtLeastAsGood(q.dense, a, b) && AtLeastAsGood(q.keyword, a, b)
    ensures Score(q, a) >= Score(q, b)
  {
    BranchDominance(q.dense, q.denseWeight, a, b);
    BranchDominance(q.keyword, q.keywordWeight, a, b);
  }

  lemma BranchBound(hits: seq<Hit>, weight: real, id: Id)
    requires weight >= 0.0
    ensures 0.0 <= BranchScore(hits, weight, id) <= weight / 61.0
  {
    assert Share(weight, 1) == weight / 61.0;
    assert weight / 61.0 >= 0.0;
    if id in Ranks(hits) {
      RankIsLastPosition(hits, id);
      ShareFalls(weight, 1, Ranks(hits)[id].rank);
    }
  }

  /** No score exceeds that of an id ranked first in both branches, so a threshold above it
      empties the result whatever the limit. */
  lemma ScoreBound(q: Query, results: seq<Hit>, limit: int, threshold: Option<real>)
    requires q.denseWeight >= 0.0 && q.keywordWeight >= 0.0 && IsTopK(results, q, limit, threshold)
    ensures forall id :: Score(q, id) <= (q.denseWeight + q.keywordWeight) / 61.0
    ensures threshold.Some? && threshold.value > (q.denseWeight + q.keywordWeight) / 61.0 ==> results == []
  {
    forall id ensures Score(q, id) <= (q.denseWeight + q.keywordWeight) / 61.0 {
      BranchBound(q.dense, q.denseWeight, id);
      BranchBound(q.keyword, q.keywordWeight, id);
    }
    if results != [] {
      assert results[0].id in Passing(q, threshold);
    }
  }

  /** The query's scores are those of one branch alone. */
  ghost predicate OnlyBranch(q: Query, branch: seq<Hit>, weight: real) {
    && Ids(q) == Ranks(branch).Keys
    && forall id :: id in Ids(q) ==> Score(q, id) == BranchScore(branch, weight, id)
  }

  lemma OneBranchPosition(q: Query, branch: seq<Hit>, weight: real, i: nat, j: nat)
    requires OnlyBranch(q, branch, weight) && weight > 0.0 && DistinctIds(branch) && i <= j < |branch|
    ensures branch[i].id in Ids(q) && branch[j].id in Ids(q)
    ensures i < j ==> Score(q, branch[i].id) > Score(q, branch[j].id)
  {
    RankIsPosition(branch, i);
    RankIsPosition(branch, j);
    ShareFalls(weight, i + 1, j + 1);
  }

  /** `ids` are some of the branch, best first, with nothing left out that is better than something taken. */
  ghost predicate TakesBest(branch: seq<Id>, score: Id -> real, ids: seq<Id>) {
    && (forall i, j :: 0 <= i < j < |branch| ==> score(branch[i]) > score(branch[j]))
    && (forall k :: 0 <= k < |ids| ==> ids[k] in branch)
    && (forall i, j :: 0 <= i < j < |ids| ==> ids[i] != ids[j] && score(ids[i]) >= score(ids[j]))
    && (forall i, k :: 0 <= i < |branch| && 0 <= k < |ids| && score(branch[i]) > score(ids[k]) ==> branch[i] in ids)
  }

  lemma {:induction false} BestIsNext(branch: seq<Id>, score: Id -> real, ids: seq<Id>, k: nat)
    requires TakesBest(branch, score, ids) && k < |ids|
    ensures k < |branch| && ids[k] == branch[k]
  {
    forall j | 0 <= j < k ensures j < |branch| && ids[j] == branch[j] {
      BestIsNext(branch, score, ids, j);
    }
    var p :| 0 <= p < |branch| && branch[p] == ids[k];
    assert p >= k;
    if p > k {
      assert score(branch[k]) > score(branch[p]);
    }
    assert branch[k] in ids;
    var j :| 0 <= j < |ids| && ids[j] == branch[k];
    assert j >= k && score(ids[k]) >= score(branch[k]);
  }

  function IdsOf(hits: seq<Hit>): (ids: seq<Id>)
    ensures |ids| == |hits| && forall i :: 0 <= i < |hits| ==> ids[i] == hits[i].id
  {
    seq(|hits|, i requires 0 <= i < |hits| => hits[i].id)
  }

  lemma RankedAreHits(hits: seq<Hit>, id: Id)
    requires id in Ranks(hits)
    ensures id in IdsOf(hits)
  {
    RankIsLastPosition(hits, id);
    assert IdsOf(hits)[Ranks(hits)[id].rank - 1] == id;
  }

  lemma BetterIsReturned(q: Query, results: seq<Hit>, limit: int, threshold: Option<real>, best: Id, k: nat)
    requires IsTopK(results, q, limit, threshold) && k < |results|
    requires best in Ids(q) && Score(q, best) > Score(q, results[k].id)
    ensures best in IdsOf(results)
  {
    assert results[k].id in Passing(q, threshold);
    assert best in Passing(q, threshold);
    var j :| 0 <= j < |results| && results[j].id == best;
    assert IdsOf(results)[j] == best;
  }

  lemma TopKTakesBest(q: Query, branch: seq<Hit>, weight: real, results: seq<Hit>, limit: int, threshold: Option<real>)
    requires OnlyBranch(q, branch, weight) && weight > 0.0 && DistinctIds(branch)
    requires IsTopK(results, q, limit, threshold)
    ensures TakesBest(IdsOf(branch), id => Score(q, id), IdsOf(results))
  {
    var all, ids := IdsOf(branch), IdsOf(results);
    forall i, j | 0 <= i < j < |all| ensures Score(q, all[i]) > Score(q, all[j]) {
      OneBranchPosition(q, branch, weight, i, j);
    }
    forall k | 0 <= k < |ids| ensures ids[k] in all {
      assert results[k].id in Passing(q, threshold);
      RankedAreHits(branch, ids[k]);
    }
    forall i, k | 0 <= i < |all| && 0 <= k < |ids| && Score(q, all[i]) > Score(q, ids[k]) ensures all[i] in ids {
      OneBranchPosition(q, branch, weight, i, i);
      BetterIsReturned(q, results, limit, threshold, all[i], k);
    }
  }

  lemma OneBranchOrder(q: Query, branch: seq<Hit>, weight: real, results: seq<Hit>, limit: int, threshold: Option<real>)
    requires OnlyBranch(q, branch, weight) && weight > 0.0 && DistinctIds(branch)
    requires IsTopK(results, q, limit, threshold)
    ensures IdsOf(results) <= IdsOf(branch)
  {
    TopKTakesBest(q, branch, weight, results, limit, threshold);
    OnlyPrefix(IdsOf(branch), id => Score(q, id), IdsOf(results));
  }

  lemma OnlyPrefix(branch: seq<Id>, score: Id -> real, ids: seq<Id>)
    requires TakesBest(branch, score, ids)
    ensures ids <= branch
  {
    forall k | 0 <= k < |ids| ensures k < |branch| && ids[k] == branch[k] {
      BestIsNext(branch, score, ids, k);
    }
    if ids != [] {
      BestIsNext(branch, score, ids, |ids| - 1);
    }
  }

  /** With one branch empty and the other weight positive, the fused order is the order of
      the branch that is not empty. */
  lemma OneEmptyBranchKeepsTheOtherOrder(q: Query, results: seq<Hit>, limit: int, threshold: Option<real>)
    requires IsTopK(results, q, limit, threshold)
    ensures q.keyword == [] && q.denseWeight > 0.0 && DistinctIds(q.dense) ==> IdsOf(results) <= IdsOf(q.dense)
    ensures q.dense == [] && q.keywordWeight > 0.0 && DistinctIds(q.keyword) ==> IdsOf(results) <= IdsOf(q.keyword)
  {
    if q.keyword == [] && q.denseWeight > 0.0 && DistinctIds(q.dense) {
      assert Ranks(q.keyword) == map[];
      OneBranchOrder(q, q.dense, q.denseWeight, results, limit, threshold);
    }
    if q.dense == [] && q.keywordWeight > 0.0 && DistinctIds(q.keyword) {
      assert Ranks(q.dense) == map[];
      OneBranchOrder(q, q.keyword, q.keywordWeight, results, limit, threshold);
    }
  }
}
