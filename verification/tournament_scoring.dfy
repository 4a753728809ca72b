/**
 * Weekly tournament scoring: each entry's three score components are derived
 * from the character's activity inside the tournament week, and the entries
 * are then ranked 1..N by position in score-descending order.
 */
module TournamentScoring {

  const PointsPerGame := 10
  const PointsPerTrick := 25
  const PointsPerTraining := 30

  /** Activity of one character inside the tournament week: completed games,
      confirmed tricks and training visits (the three COUNT queries). */
  datatype Activity = Activity(games: nat, tricks: nat, trainings: nat)

  /** A tournament entry. `rank` 0 stands for a rank that was never assigned
      (a NULL column, which the weekly results read as 0). */
  datatype Entry = Entry(
    characterId: nat,
    gamesScore: int,
    tricksScore: int,
    trainingScore: int,
    score: int,
    rank: nat)

  /** A freshly joined entry: all scores 0 and no rank yet. */
  function NewEntry(characterId: nat): Entry
  {
    Entry(characterId, 0, 0, 0, 0, 0)
  }

  /** The entry carries the scores derived from `a`. */
  predicate ScoredFrom(e: Entry, a: Activity)
  {
    && e.gamesScore == a.games * PointsPerGame
    && e.tricksScore == a.tricks * PointsPerTrick
    && e.trainingScore == a.trainings * PointsPerTraining
    && e.score == e.gamesScore + e.tricksScore + e.trainingScore
  }

  /** The entry after its score columns are rewritten from `a`. */
  function Rescored(e: Entry, a: Activity): (r: Entry)
    ensures ScoredFrom(r, a)
    ensures r.characterId == e.characterId && r.rank == e.rank
  {
    var g, t, v := a.games * PointsPerGame, a.tricks * PointsPerTrick, a.trainings * PointsPerTraining;
    e.(gamesScore := g, tricksScore := t, trainingScore := v, score := g + t + v)
  }

  /** More activity of any kind never lowers the total score. */
  lemma ScoreMonotone(e: Entry, a: Activity, b: Activity)
    requires a.games <= b.games && a.tricks <= b.tricks && a.trainings <= b.trainings
    ensures Rescored(e, a).score <= Rescored(e, b).score
  {
  }

  /** `order` lists every index 0..n-1 exactly once. */
  predicate IsOrdering(order: seq<nat>, n: nat)
  {
    && |order| == n
    && (forall p :: 0 <= p < n ==> order[p] < n)
    && (forall p, q :: 0 <= p < q < n ==> order[p] != order[q])
    && (forall k :: 0 <= k < n ==> k in order)
  }

  /** The positions visit the scores from highest to lowest. */
  predicate ScoreDescending(order: seq<nat>, scores: seq<int>)
  {
    && (forall p :: 0 <= p < |order| ==> order[p] < |scores|)
    && (forall p, q :: 0 <= p < q < |order| ==> scores[order[p]] >= scores[order[q]])
  }

  /** The ordering that `ORDER BY score DESC` returns. The database leaves the
      order of equal scores open; this model keeps them in storage order
      (a stable insertion sort). */
  method OrderByScoreDesc(scores: seq<int>) returns (order: seq<nat>)
    ensures IsOrdering(order, |scores|)
    ensures ScoreDescending(order, scores)
  {
    order := [];
    var i := 0;
    while i < |scores|
      invariant 0 <= i <= |scores|
      invariant SortedPrefix(order, scores, i)
    {
      var pos := 0;
      while pos < i && scores[order[pos]] >= scores[i]
        invariant 0 <= pos <= i
        invariant forall p :: 0 <= p < pos ==> scores[order[p]] >= scores[i]
      {
        pos := pos + 1;
      }
      InsertKeepsSorted(order, scores, i, pos);
      order := order[..pos] + [i] + order[pos..];
      i := i + 1;
    }
  }

  /** `order` is a score-descending ordering of the first i indices. */
  predicate SortedPrefix(order: seq<nat>, scores: seq<int>, i: nat)
    requires i <= |scores|
  {
    && IsOrdering(order, i)
    && (forall p, q :: 0 <= p < q < i ==> scores[order[p]] >= scores[order[q]])
  }

  /** Inserting index i anywhere into an ordering of 0..i-1 gives an
      ordering of 0..i. */
  lemma InsertKeepsOrdering(order: seq<nat>, i: nat, pos: nat)
    requires pos <= i && IsOrdering(order, i)
    ensures IsOrdering(order[..pos] + [i] + order[pos..], i + 1)
  {
    var next := order[..pos] + [i] + order[pos..];
    assert forall p :: 0 <= p < pos ==> next[p] == order[p];
    assert next[pos] == i;
    assert forall p :: pos < p <= i ==> next[p] == order[p - 1];
    forall k | 0 <= k < i + 1
      ensures k in next
    {
      if k == i {
        assert next[pos] == k;
      } else {
        assert k in order;
        var p :| 0 <= p < i && order[p] == k;
        if p < pos {
          assert next[p] == k;
        } else {
          assert next[p + 1] == k;
        }
      }
    }
  }

  /** Inserting index i before the first position whose score is strictly
      lower keeps the prefix ordering sorted and complete. */
  lemma InsertKeepsSorted(order: seq<nat>, scores: seq<int>, i: nat, pos: nat)
    requires i < |scores| && pos <= i
    requires SortedPrefix(order, scores, i)
    requires forall p :: 0 <= p < pos ==> scores[order[p]] >= scores[i]
    requires pos < i ==> scores[order[pos]] < scores[i]
    ensures SortedPrefix(order[..pos] + [i] + order[pos..], scores, i + 1)
  {
    InsertKeepsOrdering(order, i, pos);
    var next := order[..pos] + [i] + order[pos..];
    assert forall p :: 0 <= p < pos ==> next[p] == order[p];
    assert next[pos] == i;
    assert forall p :: pos < p <= i ==> next[p] == order[p - 1];
    forall p | pos <= p < i
      ensures scores[order[p]] < scores[i]
    {
      if pos < p {
        assert scores[order[pos]] >= scores[order[p]];
      }
    }
  }

  /** Recomputes a tournament's entries: first every entry's scores from its
      character's week activity, then every rank from the score-descending
      order. Also returns that order (the standings). */
  method RecalcScores(entries: seq<Entry>, activity: nat -> Activity)
    returns (updated: seq<Entry>, standings: seq<nat>)
    ensures |updated| == |entries|
    ensures forall i :: 0 <= i < |entries| ==>
      && updated[i].characterId == entries[i].characterId
      && ScoredFrom(updated[i], activity(entries[i].characterId))
    ensures IsOrdering(standings, |entries|)
    ensures forall p :: 0 <= p < |standings| ==> updated[standings[p]].rank == p + 1
    ensures forall p, q :: 0 <= p < q < |standings| ==>
      updated[standings[p]].score >= updated[standings[q]].score
  {
    var scored: seq<Entry> := [];
    var scores: seq<int> := [];
    for i := 0 to |entries|
      invariant |scored| == i && |scores| == i
      invariant forall k :: 0 <= k < i ==> scored[k] == Rescored(entries[k], activity(entries[k].characterId))
      invariant forall k :: 0 <= k < i ==> scores[k] == scored[k].score
    {
      var e := Rescored(entries[i], activity(entries[i].characterId));
      scored := scored + [e];
      scores := scores + [e.score];
    }
    standings := OrderByScoreDesc(scores);
    updated := scored;
    for p := 0 to |standings|
      invariant |updated| == |scored|
      invariant forall k :: 0 <= k < p ==> updated[standings[k]] == scored[standings[k]].(rank := k + 1)
      invariant forall k :: p <= k < |standings| ==> updated[standings[k]] == scored[standings[k]]
    {
      updated := updated[standings[p] := updated[standings[p]].(rank := p + 1)];
    }
    forall i | 0 <= i < |entries|
      ensures updated[i].characterId == entries[i].characterId
      ensures ScoredFrom(updated[i], activity(entries[i].characterId))
    {
      assert i in standings;
      var p :| 0 <= p < |standings| && standings[p] == i;
      assert updated[i] == scored[i].(rank := p + 1);
    }
  }

  /** The ranks are exactly 1..N: each entry holds one rank in 1..N, no two
      entries share one, and every rank in 1..N is held. */
  lemma {:induction false} RanksArePermutation(updated: seq<Entry>, standings: seq<nat>)
    requires IsOrdering(standings, |updated|)
    requires forall p :: 0 <= p < |standings| ==> updated[standings[p]].rank == p + 1
    ensures forall i :: 0 <= i < |updated| ==> 1 <= updated[i].rank <= |updated|
    ensures forall i, j :: 0 <= i < j < |updated| ==> updated[i].rank != updated[j].rank
    ensures forall r :: 1 <= r <= |updated| ==> RankHeld(updated, r)
  {
    forall i | 0 <= i < |updated|
      ensures 1 <= updated[i].rank <= |updated|
      ensures standings[updated[i].rank - 1] == i
    {
      assert i in standings;
      var p :| 0 <= p < |standings| && standings[p] == i;
      assert updated[standings[p]].rank == p + 1;
    }
    forall r | 1 <= r <= |updated|
      ensures RankHeld(updated, r)
    {
      assert updated[standings[r - 1]].rank == r;
    }
  }

  /** Some entry holds rank r. */
  predicate RankHeld(entries: seq<Entry>, r: int)
  {
    exists i :: 0 <= i < |entries| && entries[i].rank == r
  }

  /** A strictly higher score never receives a larger rank. */
  lemma {:induction false} HigherScoreBetterRank(updated: seq<Entry>, standings: seq<nat>, i: nat, j: nat)
    requires IsOrdering(standings, |updated|)
    requires forall p :: 0 <= p < |standings| ==> updated[standings[p]].rank == p + 1
    requires forall p, q :: 0 <= p < q < |standings| ==>
      updated[standings[p]].score >= updated[standings[q]].score
    requires i < |updated| && j < |updated|
    requires updated[i].score > updated[j].score
    ensures updated[i].rank < updated[j].rank
  {
    assert i in standings && j in standings;
    var pi :| 0 <= pi < |standings| && standings[pi] == i;
    var pj :| 0 <= pj < |standings| && standings[pj] == j;
    assert updated[i].rank == pi + 1 && updated[j].rank == pj + 1;
  }
}
