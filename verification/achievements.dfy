/**
 * Achievement evaluation: a fixed table of requirement predicates checked
 * against a character's trick count, level and games won. Each achievement is
 * granted at most once per character.
 */
module Achievements {

  /** The requirement kinds the evaluator knows; any other stored kind is
      never met. */
  datatype Requirement = CharacterCreated | TricksCount | LevelReached | GamesWon | OtherRequirement

  datatype Achievement = Achievement(
    id: nat,
    requirement: Requirement,
    requirementValue: int,
    rewardKinetics: int)

  /** What the predicates read: the number of mastered tricks, and the
      character's level and games won. */
  datatype Stats = Stats(tricksCount: nat, level: int, gamesWon: int)

  /** The predicate table. */
  predicate Met(a: Achievement, s: Stats)
  {
    match a.requirement
    case CharacterCreated => true
    case TricksCount => s.tricksCount >= a.requirementValue
    case LevelReached => s.level >= a.requirementValue
    case GamesWon => s.gamesWon >= a.requirementValue
    case OtherRequirement => false
  }

  predicate IsThreshold(r: Requirement)
  {
    r == TricksCount || r == LevelReached || r == GamesWon
  }

  /** The catalog as it is read, `ORDER BY id` over a primary key. */
  predicate AscendingIds(catalog: seq<Achievement>)
  {
    forall i, j :: 0 <= i < j < |catalog| ==> catalog[i].id < catalog[j].id
  }

  /** The achievements one check grants, in catalog order: those not yet
      earned whose predicate holds. */
  function NewlyEarned(catalog: seq<Achievement>, earned: set<nat>, s: Stats): (r: seq<Achievement>)
    ensures |r| <= |catalog|
    ensures forall a :: a in r ==> a in catalog && a.id !in earned && Met(a, s)
    decreases |catalog|
  {
    if catalog == [] then []
    else
      var last := catalog[|catalog| - 1];
      NewlyEarned(catalog[..|catalog| - 1], earned, s)
        + (if last.id !in earned && Met(last, s) then [last] else [])
  }

  /** Checking one more catalog entry appends it when it qualifies. */
  lemma NewlyEarnedStep(catalog: seq<Achievement>, i: nat, earned: set<nat>, s: Stats)
    requires i < |catalog|
    ensures NewlyEarned(catalog[..i + 1], earned, s)
         == NewlyEarned(catalog[..i], earned, s)
            + (if catalog[i].id !in earned && Met(catalog[i], s) then [catalog[i]] else [])
  {
    assert catalog[..i + 1][..i] == catalog[..i];
  }

  /** Nothing qualifying is left out of a check. */
  lemma {:induction false} NewlyEarnedComplete(catalog: seq<Achievement>, earned: set<nat>, s: Stats, a: Achievement)
    requires a in catalog && a.id !in earned && Met(a, s)
    ensures a in NewlyEarned(catalog, earned, s)
    decreases |catalog|
  {
    var init := catalog[..|catalog| - 1];
    if a != catalog[|catalog| - 1] {
      assert a in init by {
        var k :| 0 <= k < |catalog| && catalog[k] == a;
        assert init[k] == a;
      }
      NewlyEarnedComplete(init, earned, s, a);
    }
  }

  /** With no qualifying achievement in the catalog, a check grants nothing. */
  lemma {:induction false} NewlyEarnedEmpty(catalog: seq<Achievement>, earned: set<nat>, s: Stats)
    requires forall a :: a in catalog ==> a.id in earned || !Met(a, s)
    ensures NewlyEarned(catalog, earned, s) == []
    decreases |catalog|
  {
    if catalog != [] {
      var init := catalog[..|catalog| - 1];
      forall a | a in init ensures a in catalog {
        var k :| 0 <= k < |init| && init[k] == a;
        assert catalog[k] == a;
      }
      NewlyEarnedEmpty(init, earned, s);
    }
  }

  function Ids(r: seq<Achievement>): set<nat>
  {
    set a | a in r :: a.id
  }

  /** At most once: once a check's grants are recorded, a second check on
      the same statistics grants nothing. */
  lemma SecondCheckGrantsNothing(catalog: seq<Achievement>, earned: set<nat>, s: Stats)
    ensures NewlyEarned(catalog, earned + Ids(NewlyEarned(catalog, earned, s)), s) == []
  {
    var first := NewlyEarned(catalog, earned, s);
    forall a | a in catalog
      ensures a.id in earned + Ids(first) || !Met(a, s)
    {
      if a.id !in earned && Met(a, s) {
        NewlyEarnedComplete(catalog, earned, s, a);
      }
    }
    NewlyEarnedEmpty(catalog, earned + Ids(first), s);
  }

  /** Within one check the grants keep the catalog's ascending ids, so no
      achievement is granted twice in the same call. */
  lemma {:induction false} NewlyEarnedAscending(catalog: seq<Achievement>, earned: set<nat>, s: Stats)
    requires AscendingIds(catalog)
    ensures AscendingIds(NewlyEarned(catalog, earned, s))
    decreases |catalog|
  {
    if catalog != [] {
      var init := catalog[..|catalog| - 1];
      var last := catalog[|catalog| - 1];
      assert AscendingIds(init) by {
        forall i, j | 0 <= i < j < |init| ensures init[i].id < init[j].id {
          assert init[i] == catalog[i] && init[j] == catalog[j];
        }
      }
      NewlyEarnedAscending(init, earned, s);
      var prev := NewlyEarned(init, earned, s);
      forall a | a in prev ensures a.id < last.id {
        var k :| 0 <= k < |init| && init[k] == a;
        assert catalog[k] == a;
      }
    }
  }

  /** Kinetics credited by a check: the positive rewards of the grants. */
  function RewardSum(granted: seq<Achievement>): (total: int)
    ensures total >= 0
  {
    if granted == [] then 0
    else
      var last := granted[|granted| - 1];
      RewardSum(granted[..|granted| - 1]) + (if last.rewardKinetics > 0 then last.rewardKinetics else 0)
  }

  /** Grants without a positive reward credit nothing. */
  lemma {:induction false} RewardSumNonPositive(granted: seq<Achievement>)
    requires forall a :: a in granted ==> a.rewardKinetics <= 0
    ensures RewardSum(granted) == 0
  {
    if granted != [] {
      var init := granted[..|granted| - 1];
      forall a | a in init
        ensures a in granted
      {
        var k :| 0 <= k < |init| && init[k] == a;
        assert granted[k] == a;
      }
      RewardSumNonPositive(init);
    }
  }

  /** The statistic a threshold requirement is measured on. */
  function Tracked(a: Achievement, s: Stats): int
    requires IsThreshold(a.requirement)
  {
    match a.requirement
    case TricksCount => s.tricksCount
    case LevelReached => s.level
    case GamesWon => s.gamesWon
  }

  /** The progress shown for an achievement: 1 for character creation, the
      tracked value capped at the requirement for the threshold kinds, and 0
      for an unknown kind. */
  function Progress(a: Achievement, s: Stats): (p: int)
    ensures a.requirement == CharacterCreated ==> p == 1
    ensures a.requirement == OtherRequirement ==> p == 0
    ensures IsThreshold(a.requirement) ==> p <= a.requirementValue
    ensures IsThreshold(a.requirement) ==> (p == a.requirementValue <==> Met(a, s))
    ensures IsThreshold(a.requirement) && !Met(a, s) ==> p == Tracked(a, s)
  {
    match a.requirement
    case CharacterCreated => 1
    case TricksCount => if s.tricksCount < a.requirementValue then s.tricksCount else a.requirementValue
    case LevelReached => if s.level < a.requirementValue then s.level else a.requirementValue
    case GamesWon => if s.gamesWon < a.requirementValue then s.gamesWon else a.requirementValue
    case OtherRequirement => 0
  }

  /** A five-trick achievement is granted at the fifth distinct trick and not
      at the fourth. */
  lemma FifthTrickExample(a: Achievement, earned: set<nat>)
    requires a.requirement == TricksCount && a.requirementValue == 5 && a.id !in earned
    ensures NewlyEarned([a], earned, Stats(4, 1, 0)) == []
    ensures NewlyEarned([a], earned, Stats(5, 1, 0)) == [a]
  {
  }
}
