/**
 * The Kinetic Universe game economy: the POST actions of the API handler as
 * atomic state transitions over in-memory tables (characters, the kinetics
 * ledger, notifications, mastered tricks, earned achievements, purchases,
 * owned accessories, weekly tournaments with their entries, game results).
 *
 * Characters, tournaments and notifications are held in sequences whose
 * serial ids are index + 1. Dates are day ordinals; the activity counts a
 * tournament recalculation reads from the game, trick and training tables
 * for a week window are passed in as a function of the character id.
 */
module KineticApi {
  import opened KineticTypes
  import opened Progression
  import opened TournamentScoring
  import opened Achievements

  datatype Option<T> = None | Some(value: T)

  /** The machine-readable error codes of the handler's 4xx responses. */
  datatype ApiError =
    | CharacterExists
    | CharacterNotFound
    | NotEnoughKinetics
    | AlreadyPurchased
    | InvalidItemType
    | SportAlreadyAdded
    | AlreadyJoined
    | NoPreviousTournament
    | AccessoryNotFound
    | AlreadyOwned

  datatype Outcome = Done | Failed(error: ApiError)

  const StartingKinetics := 100
  /** Entry fee of a new weekly tournament (the amount its announcement names). */
  const DefaultEntryFee := 100

  datatype Character = Character(
    userId: string,
    name: string,
    sportType: string,
    sportTypes: seq<string>,
    ridingStyle: string,
    bodyType: string,
    hairstyle: string,
    hairColor: string,
    avatarUrl: string,
    age: Option<int>,
    level: int,
    experience: int,
    kinetics: int,
    gamesPlayed: int,
    gamesWon: int)

  datatype TxKind = Earn | Spend

  /** A ledger row: a signed kinetics amount and where it came from. */
  datatype Transaction = Transaction(characterId: nat, amount: int, kind: TxKind, source: string)

  datatype NoticeKind =
    | Welcome
    | KineticsChanged
    | TricksConfirmed
    | AchievementEarned(achievementId: nat)
    | Purchase
    | SportAdded
    | TournamentJoined
    | NewTournament(tournamentId: nat)
    | WeeklyResults(tournamentId: nat, rank: nat, score: int, participants: nat)

  datatype Notification = Notification(characterId: nat, kind: NoticeKind, isRead: bool)

  /** The unique key of a purchased item. */
  datatype ItemKey = ItemKey(characterId: nat, itemType: string, itemValue: string)

  datatype Tournament = Tournament(weekStart: int, weekEnd: int, entryFee: int, entries: seq<Entry>)

  datatype GameResult = GameResult(
    characterId: nat, gameName: string, won: bool, earnedXp: int, earnedKinetics: int, score: int)

  datatype Accessory = Accessory(price: int, isAvailable: bool)

  /** The character columns a customization purchase may overwrite. */
  datatype Field = Hairstyle | HairColor | BodyType | Name | AvatarUrl

  function FieldFor(itemType: string): (f: Option<Field>)
    ensures f.None? <==>
      itemType !in {"hairstyle", "hair_color", "body_type", "name", "avatar_url"}
  {
    if itemType == "hairstyle" then Some(Hairstyle)
    else if itemType == "hair_color" then Some(HairColor)
    else if itemType == "body_type" then Some(BodyType)
    else if itemType == "name" then Some(Name)
    else if itemType == "avatar_url" then Some(AvatarUrl)
    else None
  }

  function WithField(ch: Character, f: Field, v: string): Character
  {
    match f
    case Hairstyle => ch.(hairstyle := v)
    case HairColor => ch.(hairColor := v)
    case BodyType => ch.(bodyType := v)
    case Name => ch.(name := v)
    case AvatarUrl => ch.(avatarUrl := v)
  }

  /** A new character: 100 kinetics, its first sport as its sport list, and
      the column defaults level 1, no experience, no games. */
  function NewCharacter(userId: string, name: string, sport: string, ridingStyle: string,
                        bodyType: string, hairstyle: string, hairColor: string,
                        avatarUrl: string, age: Option<int>): Character
  {
    Character(userId, name, sport, [sport], ridingStyle, bodyType, hairstyle, hairColor,
              avatarUrl, age, 1, 0, StartingKinetics, 0, 0)
  }

  /** The character after an experience and kinetics grant; the level is
      recomputed from the new experience total. */
  function Credit(ch: Character, xp: int, kin: int): (r: Character)
    ensures r.experience == ch.experience + xp && r.kinetics == ch.kinetics + kin
    ensures r.level == Level(r.experience)
  {
    ch.(experience := ch.experience + xp, kinetics := ch.kinetics + kin,
        level := Level(ch.experience + xp))
  }

  /** The character with its kinetics balance changed by `amount`. */
  function Adjust(ch: Character, amount: int): (r: Character)
    ensures r.kinetics == ch.kinetics + amount
    ensures r.experience == ch.experience && r.level == ch.level
    ensures r.gamesPlayed == ch.gamesPlayed && r.gamesWon == ch.gamesWon
  {
    ch.(kinetics := ch.kinetics + amount)
  }

  /** The character after a trick confirmation: credited only when one of
      the summed rewards is positive. */
  function CreditIfRewarded(ch: Character, xp: int, kin: int): Character
  {
    if xp > 0 || kin > 0 then Credit(ch, xp, kin) else ch
  }

  /** The ledger row of a trick confirmation: one earn row, written only
      when one of the summed rewards is positive. */
  function TrickRows(c: nat, xp: int, kin: int): seq<Transaction>
  {
    if xp > 0 || kin > 0 then [Transaction(c, kin, Earn, "tricks")] else []
  }

  /** The notice of a trick confirmation, sent under the same condition. */
  function TrickNotices(c: nat, xp: int, kin: int): seq<Notification>
  {
    if xp > 0 || kin > 0 then [Notification(c, TricksConfirmed, false)] else []
  }

  /** The character after a finished game: the grant, one more game played,
      and one more won when the game was won. */
  function Played(ch: Character, xp: int, kin: int, won: bool): (r: Character)
    ensures r.experience == ch.experience + xp && r.kinetics == ch.kinetics + kin
    ensures r.level == Level(r.experience)
    ensures r.gamesPlayed == ch.gamesPlayed + 1
    ensures r.gamesWon == ch.gamesWon + (if won then 1 else 0)
  {
    Credit(ch, xp, kin).(gamesPlayed := ch.gamesPlayed + 1, gamesWon := ch.gamesWon + (if won then 1 else 0))
  }

  /** The sport list the add-sport action extends: the stored list, or the
      main sport when the list is empty. */
  function CurrentSports(ch: Character): (s: seq<string>)
    ensures |s| > 0
    ensures ch.sportTypes != [] ==> s == ch.sportTypes
  {
    if ch.sportTypes != [] then ch.sportTypes else [ch.sportType]
  }

  /** The character with `sport` appended to its current sport list. */
  function WithSport(ch: Character, sport: string): (r: Character)
    ensures r.sportTypes == CurrentSports(ch) + [sport] && r.kinetics == ch.kinetics
  {
    ch.(sportTypes := CurrentSports(ch) + [sport])
  }

  lemma UpdateTwice<T>(s: seq<T>, i: nat, a: T, b: T)
    requires i < |s|
    ensures s[i := a][i := b] == s[i := b]
  {
  }

  // ----- trick confirmation, as a function of the request -----

  /** The state of one confirmation after a prefix of the request: the
      trick ids recorded so far in request order, the ids the character owns
      by then, and the summed experience and kinetics rewards. */
  datatype Confirmation = Confirmation(added: seq<nat>, owned: set<nat>, experience: int, kinetics: int)

  /** A requested id is recorded when it names a catalog trick the character
      does not own yet; its rewards are added to the totals. */
  function Confirm(catalog: map<nat, Trick>, have: set<nat>, ids: seq<nat>): Confirmation
    decreases |ids|
  {
    if ids == [] then Confirmation([], have, 0, 0)
    else
      var r := Confirm(catalog, have, ids[..|ids| - 1]);
      var t := ids[|ids| - 1];
      if t in catalog && t !in r.owned then
        Confirmation(r.added + [t], r.owned + {t},
                     r.experience + catalog[t].experienceReward, r.kinetics + catalog[t].kineticsReward)
      else r
  }

  function Elements(s: seq<nat>): set<nat>
  {
    set x | x in s
  }

  /** Sum of the experience rewards of the listed catalog tricks. */
  function ExpReward(catalog: map<nat, Trick>, ts: seq<nat>): int
  {
    if ts == [] then 0
    else
      var t := ts[|ts| - 1];
      ExpReward(catalog, ts[..|ts| - 1]) + (if t in catalog then catalog[t].experienceReward else 0)
  }

  /** Sum of the kinetics rewards of the listed catalog tricks. */
  function KinReward(catalog: map<nat, Trick>, ts: seq<nat>): int
  {
    if ts == [] then 0
    else
      var t := ts[|ts| - 1];
      KinReward(catalog, ts[..|ts| - 1]) + (if t in catalog then catalog[t].kineticsReward else 0)
  }

  /** The owned set grows by exactly the recorded ids, each a known trick
      from the request that was not owned before. */
  lemma {:induction false} ConfirmOwned(catalog: map<nat, Trick>, have: set<nat>, ids: seq<nat>)
    ensures var r := Confirm(catalog, have, ids);
      && r.owned == have + Elements(r.added)
      && (forall t :: t in r.added ==> t in catalog && t !in have && t in ids)
    decreases |ids|
  {
    if ids != [] {
      var init := ids[..|ids| - 1];
      var t := ids[|ids| - 1];
      ConfirmOwned(catalog, have, init);
      var prev := Confirm(catalog, have, init);
      forall u | u in init
        ensures u in ids
      {
        var k :| 0 <= k < |init| && init[k] == u;
        assert ids[k] == u;
      }
      if t in catalog && t !in prev.owned {
        var added := prev.added + [t];
        assert Elements(added) == Elements(prev.added) + {t};
      }
    }
  }

  /** No id is recorded twice. */
  lemma {:induction false} ConfirmDistinct(catalog: map<nat, Trick>, have: set<nat>, ids: seq<nat>)
    ensures var r := Confirm(catalog, have, ids);
      forall p, q :: 0 <= p < q < |r.added| ==> r.added[p] != r.added[q]
    decreases |ids|
  {
    if ids != [] {
      var init := ids[..|ids| - 1];
      var t := ids[|ids| - 1];
      ConfirmDistinct(catalog, have, init);
      ConfirmOwned(catalog, have, init);
      var prev := Confirm(catalog, have, init);
      if t in catalog && t !in prev.owned {
        var added := prev.added + [t];
        forall p, q | 0 <= p < q < |added| ensures added[p] != added[q] {
          if q < |prev.added| {
            assert added[p] == prev.added[p] && added[q] == prev.added[q];
          } else {
            assert added[p] in Elements(prev.added);
          }
        }
      }
    }
  }

  /** The totals are the summed rewards of the recorded tricks. */
  lemma {:induction false} ConfirmTotals(catalog: map<nat, Trick>, have: set<nat>, ids: seq<nat>)
    ensures var r := Confirm(catalog, have, ids);
      r.experience == ExpReward(catalog, r.added) && r.kinetics == KinReward(catalog, r.added)
    decreases |ids|
  {
    if ids != [] {
      var init := ids[..|ids| - 1];
      var t := ids[|ids| - 1];
      ConfirmTotals(catalog, have, init);
      var prev := Confirm(catalog, have, init);
      if t in catalog && t !in prev.owned {
        var added := prev.added + [t];
        assert added[..|added| - 1] == prev.added;
      }
    }
  }

  /** What a confirmation records: known tricks from the request, none owned
      before, none twice; the owned set grows by exactly those; the totals are
      the sums of their rewards. */
  lemma ConfirmSound(catalog: map<nat, Trick>, have: set<nat>, ids: seq<nat>)
    ensures var r := Confirm(catalog, have, ids);
      && r.owned == have + Elements(r.added)
      && (forall t :: t in r.added ==> t in catalog && t !in have && t in ids)
      && (forall p, q :: 0 <= p < q < |r.added| ==> r.added[p] != r.added[q])
      && r.experience == ExpReward(catalog, r.added)
      && r.kinetics == KinReward(catalog, r.added)
  {
    ConfirmOwned(catalog, have, ids);
    ConfirmDistinct(catalog, have, ids);
    ConfirmTotals(catalog, have, ids);
  }

  /** Every known, not yet owned trick of the request is recorded. */
  lemma {:induction false} ConfirmComplete(catalog: map<nat, Trick>, have: set<nat>, ids: seq<nat>, t: nat)
    requires t in ids && t in catalog && t !in have
    ensures t in Confirm(catalog, have, ids).added
    decreases |ids|
  {
    var init := ids[..|ids| - 1];
    ConfirmSound(catalog, have, init);
    if t != ids[|ids| - 1] {
      assert t in init by {
        var k :| 0 <= k < |ids| && ids[k] == t;
        assert init[k] == t;
      }
      ConfirmComplete(catalog, have, init, t);
    }
  }

  /** With every requested trick unknown or already owned, nothing is recorded. */
  lemma {:induction false} ConfirmNothingNew(catalog: map<nat, Trick>, have: set<nat>, ids: seq<nat>)
    requires forall t :: t in ids ==> t !in catalog || t in have
    ensures Confirm(catalog, have, ids) == Confirmation([], have, 0, 0)
    decreases |ids|
  {
    if ids != [] {
      var init := ids[..|ids| - 1];
      forall t | t in init
        ensures t in ids
      {
        var k :| 0 <= k < |init| && init[k] == t;
        assert ids[k] == t;
      }
      ConfirmNothingNew(catalog, have, init);
    }
  }

  /** Confirmation is idempotent: repeating the same request once the first
      is recorded records nothing and rewards nothing. */
  lemma ReconfirmAddsNothing(catalog: map<nat, Trick>, have: set<nat>, ids: seq<nat>)
    ensures var first := Confirm(catalog, have, ids);
      Confirm(catalog, first.owned, ids) == Confirmation([], first.owned, 0, 0)
  {
    var first := Confirm(catalog, have, ids);
    ConfirmSound(catalog, have, ids);
    forall t | t in ids
      ensures t !in catalog || t in first.owned
    {
      if t in catalog && t !in have {
        ConfirmComplete(catalog, have, ids, t);
      }
    }
    ConfirmNothingNew(catalog, first.owned, ids);
  }

  function Pairs(c: nat, ts: seq<nat>): (r: set<(nat, nat)>)
    ensures forall p :: p in r ==> p.0 == c
  {
    set t | t in ts :: (c, t)
  }

  // ----- achievement grants, as functions of the grants -----

  function Grants(c: nat, granted: seq<Achievement>): (r: set<(nat, nat)>)
    ensures forall p :: p in r ==> p.0 == c
  {
    set a | a in granted :: (c, a.id)
  }

  /** One earn row per grant with a positive reward, in grant order. */
  function RewardRows(c: nat, granted: seq<Achievement>): (rows: seq<Transaction>)
    ensures forall r :: r in rows ==> r.characterId == c && r.kind == Earn && r.amount > 0
  {
    if granted == [] then []
    else
      var last := granted[|granted| - 1];
      RewardRows(c, granted[..|granted| - 1])
        + (if last.rewardKinetics > 0
           then [Transaction(c, last.rewardKinetics, Earn, "achievement")] else [])
  }

  /** One notification per grant, in grant order. */
  function AchievementNotices(c: nat, granted: seq<Achievement>): (ns: seq<Notification>)
    ensures |ns| == |granted|
  {
    seq(|granted|, k requires 0 <= k < |granted| => Notification(c, AchievementEarned(granted[k].id), false))
  }

  /** Granting one more achievement extends each of its effects by that grant. */
  lemma GrantStep(c: nat, prev: seq<Achievement>, a: Achievement)
    ensures RewardSum(prev + [a]) == RewardSum(prev) + (if a.rewardKinetics > 0 then a.rewardKinetics else 0)
    ensures RewardRows(c, prev + [a])
         == RewardRows(c, prev) + (if a.rewardKinetics > 0 then [Transaction(c, a.rewardKinetics, Earn, "achievement")] else [])
    ensures AchievementNotices(c, prev + [a]) == AchievementNotices(c, prev) + [Notification(c, AchievementEarned(a.id), false)]
    ensures Grants(c, prev + [a]) == Grants(c, prev) + {(c, a.id)}
  {
    assert (prev + [a])[..|prev|] == prev;
  }

  // ----- notifications -----

  /** The rows `mark_notifications_read` sets read: the character's rows whose
      id is listed, or all the character's rows when no id is listed. */
  predicate MarkedBy(n: Notification, id: nat, c: nat, ids: seq<nat>)
  {
    n.characterId == c && (ids == [] || id in ids)
  }

  function MarkRead(ns: seq<Notification>, c: nat, ids: seq<nat>): (r: seq<Notification>)
    ensures |r| == |ns|
    ensures forall k :: 0 <= k < |ns| ==>
      && r[k].characterId == ns[k].characterId
      && r[k].kind == ns[k].kind
      && (r[k].isRead <==> ns[k].isRead || MarkedBy(ns[k], k + 1, c, ids))
  {
    seq(|ns|, k requires 0 <= k < |ns| =>
      if MarkedBy(ns[k], k + 1, c, ids) then ns[k].(isRead := true) else ns[k])
  }

  /** Marking is idempotent, and another character's rows never change. */
  lemma MarkReadIdempotent(ns: seq<Notification>, c: nat, ids: seq<nat>)
    ensures MarkRead(MarkRead(ns, c, ids), c, ids) == MarkRead(ns, c, ids)
    ensures forall k :: 0 <= k < |ns| && ns[k].characterId != c ==> MarkRead(ns, c, ids)[k] == ns[k]
  {
  }

  /** The announcement of a new tournament to characters 1..n. */
  function Broadcast(n: nat, tid: nat): (ns: seq<Notification>)
    ensures |ns| == n
    ensures forall k :: 0 <= k < n ==> ns[k].characterId == k + 1
  {
    seq(n, k requires 0 <= k < n => Notification(k + 1, NewTournament(tid), false))
  }

  /** The weekly result notices, one per entry in standings order. */
  function ResultNotices(tid: nat, entries: seq<Entry>, standings: seq<nat>): (ns: seq<Notification>)
    requires forall p :: 0 <= p < |standings| ==> standings[p] < |entries|
    ensures |ns| == |standings|
  {
    seq(|standings|, p requires 0 <= p < |standings| =>
      Notification(entries[standings[p]].characterId,
                   WeeklyResults(tid, entries[standings[p]].rank, entries[standings[p]].score, |entries|),
                   false))
  }

  // ----- tournaments -----

  /** The tournament whose week starts on `weekStart`, if any. */
  function WeekIndex(ts: seq<Tournament>, weekStart: int): (r: Option<nat>)
    ensures r.Some? ==> r.value < |ts| && ts[r.value].weekStart == weekStart
    ensures r.None? ==> forall i :: 0 <= i < |ts| ==> ts[i].weekStart != weekStart
    decreases |ts|
  {
    if ts == [] then None
    else if ts[|ts| - 1].weekStart == weekStart then Some(|ts| - 1)
    else WeekIndex(ts[..|ts| - 1], weekStart)
  }

  /** Every entry's scores are computed from its character's activity. */
  predicate AllScored(entries: seq<Entry>, activity: nat -> Activity)
  {
    forall i :: 0 <= i < |entries| ==> ScoredFrom(entries[i], activity(entries[i].characterId))
  }

  /** `standings` lists every entry once, in non-increasing score order, and
      the entry at position p holds rank p + 1. */
  predicate Standings(entries: seq<Entry>, standings: seq<nat>)
  {
    && IsOrdering(standings, |entries|)
    && (forall p :: 0 <= p < |standings| ==> entries[standings[p]].rank == p + 1)
    && (forall p, q :: 0 <= p < q < |standings| ==> entries[standings[p]].score >= entries[standings[q]].score)
  }

  predicate HasEntry(entries: seq<Entry>, c: nat)
  {
    exists i :: 0 <= i < |entries| && entries[i].characterId == c
  }

  predicate UniqueEntrants(entries: seq<Entry>)
  {
    forall i, j :: 0 <= i < j < |entries| ==> entries[i].characterId != entries[j].characterId
  }

  class KineticStore {
    // static catalogs
    const tricks: map<nat, Trick>
    const achievements: seq<Achievement>
    const accessories: map<nat, Accessory>

    // tables
    var characters: seq<Character>
    var ledger: seq<Transaction>
    var notifications: seq<Notification>
    var mastered: set<(nat, nat)>
    var earned: set<(nat, nat)>
    var purchases: map<ItemKey, int>
    var ownedAccessories: set<(nat, nat)>
    var tournaments: seq<Tournament>
    var gameResults: seq<GameResult>

    /** Achievements are read in ascending id order; mastery and grant rows
        belong to existing characters; one tournament per week; one entry per
        character in each tournament. */
    ghost predicate Valid()
      reads this
    {
      && AscendingIds(achievements)
      && (forall p :: p in mastered ==> 1 <= p.0 <= |characters|)
      && (forall p :: p in earned ==> 1 <= p.0 <= |characters|)
      && (forall i, j :: 0 <= i < j < |tournaments| ==> tournaments[i].weekStart != tournaments[j].weekStart)
      && (forall i :: 0 <= i < |tournaments| ==> UniqueEntrants(tournaments[i].entries))
    }

    constructor (tricks: map<nat, Trick>, achievements: seq<Achievement>, accessories: map<nat, Accessory>)
      requires AscendingIds(achievements)
      ensures Valid()
      ensures this.tricks == tricks && this.achievements == achievements && this.accessories == accessories
      ensures characters == [] && ledger == [] && notifications == [] && tournaments == [] && gameResults == []
      ensures mastered == {} && earned == {} && purchases == map[] && ownedAccessories == {}
    {
      this.tricks, this.achievements, this.accessories := tricks, achievements, accessories;
      characters, ledger, notifications := [], [], [];
      mastered, earned, purchases, ownedAccessories := {}, {}, map[], {};
      tournaments, gameResults := [], [];
    }

    predicate IsCharacter(c: nat)
      reads this`characters
    {
      1 <= c <= |characters|
    }

    function MasteredBy(c: nat): set<nat>
      reads this`mastered
    {
      set p | p in mastered && p.0 == c :: p.1
    }

    function EarnedBy(c: nat): set<nat>
      reads this`earned
    {
      set p | p in earned && p.0 == c :: p.1
    }

    /** What the achievement predicates read for an existing character. */
    function StatsOf(c: nat): Stats
      reads this`characters, this`mastered
      requires IsCharacter(c)
    {
      Stats(|MasteredBy(c)|, characters[c - 1].level, characters[c - 1].gamesWon)
    }

    /** What the achievement listing reads: for an unknown character the
        level and games won count as 0. */
    function ProgressStats(c: nat): (s: Stats)
      reads this`characters, this`mastered
      ensures IsCharacter(c) ==> s == StatsOf(c)
      ensures !IsCharacter(c) ==> s.level == 0 && s.gamesWon == 0 && s.tricksCount == |MasteredBy(c)|
    {
      if IsCharacter(c) then StatsOf(c) else Stats(|MasteredBy(c)|, 0, 0)
    }

    /** The progress column of the achievement listing, catalog order. */
    function AchievementProgress(c: nat): (progress: seq<int>)
      reads this
      ensures |progress| == |achievements|
      ensures forall k :: 0 <= k < |achievements| ==>
        progress[k] == Progress(achievements[k], ProgressStats(c))
    {
      seq(|achievements|, k requires 0 <= k < |achievements| reads this => Progress(achievements[k], ProgressStats(c)))
    }

    /** The achievement loop of `check_achievements` for an existing
        character: walks the catalog in id order and collects, for each
        achievement not yet earned whose predicate holds, its grant, its
        positive reward with a ledger row, and its notice. */
    method PendingGrants(c: nat) returns (newly: seq<Achievement>, bonus: int,
                                          rows: seq<Transaction>, notices: seq<Notification>)
      requires IsCharacter(c)
      ensures newly == NewlyEarned(achievements, EarnedBy(c), StatsOf(c))
      ensures bonus == RewardSum(newly) && rows == RewardRows(c, newly) && notices == AchievementNotices(c, newly)
    {
      var have := EarnedBy(c);
      var stats := StatsOf(c);
      newly, bonus, rows, notices := [], 0, [], [];
      for i := 0 to |achievements|
        invariant newly == NewlyEarned(achievements[..i], have, stats)
        invariant bonus == RewardSum(newly)
        invariant rows == RewardRows(c, newly)
        invariant notices == AchievementNotices(c, newly)
      {
        var a := achievements[i];
        NewlyEarnedStep(achievements, i, have, stats);
        if a.id !in have && Met(a, stats) {
          GrantStep(c, newly, a);
          if a.rewardKinetics > 0 {
            bonus := bonus + a.rewardKinetics;
            rows := rows + [Transaction(c, a.rewardKinetics, Earn, "achievement")];
          }
          notices := notices + [Notification(c, AchievementEarned(a.id), false)];
          newly := newly + [a];
        }
      }
      assert achievements[..|achievements|] == achievements;
    }

    /** `check_achievements`: grants every not yet earned achievement whose
        predicate holds, crediting positive rewards with a ledger row, and
        notifying each grant, all in one transaction. An unknown character is
        left alone. */
    method CheckAchievements(c: nat) returns (newly: seq<Achievement>)
      requires Valid()
      modifies this`characters, this`ledger, this`notifications, this`earned
      ensures Valid()
      ensures !old(IsCharacter(c)) ==>
        && newly == [] && earned == old(earned) && characters == old(characters)
        && ledger == old(ledger) && notifications == old(notifications)
      ensures old(IsCharacter(c)) ==>
        && newly == NewlyEarned(achievements, old(EarnedBy(c)), old(StatsOf(c)))
        && earned == old(earned) + Grants(c, newly)
        && characters == old(characters)[c - 1 := Adjust(old(characters[c - 1]), RewardSum(newly))]
        && ledger == old(ledger) + RewardRows(c, newly)
        && notifications == old(notifications) + AchievementNotices(c, newly)
      ensures forall a :: a in newly ==> (c, a.id) !in old(earned)
    {
      if !IsCharacter(c) {
        return [];
      }
      var bonus, rows, notices;
      newly, bonus, rows, notices := PendingGrants(c);
      ApplyGrants(c, newly, bonus, rows, notices);
    }

    /** Records the grants of one check in one transaction. */
    method ApplyGrants(c: nat, newly: seq<Achievement>, bonus: int, rows: seq<Transaction>, notices: seq<Notification>)
      requires Valid() && IsCharacter(c)
      modifies this`characters, this`ledger, this`notifications, this`earned
      ensures Valid()
      ensures earned == old(earned) + Grants(c, newly)
      ensures characters == old(characters)[c - 1 := Adjust(old(characters[c - 1]), bonus)]
      ensures ledger == old(ledger) + rows
      ensures notifications == old(notifications) + notices
    {
      earned := earned + Grants(c, newly);
      characters := characters[c - 1 := Adjust(characters[c - 1], bonus)];
      ledger := ledger + rows;
      notifications := notifications + notices;
    }

    /** `create_character`: refused when the user already has a character;
        otherwise adds the character with 100 kinetics, welcomes it and runs
        the achievement check for it. */
    method CreateCharacter(userId: string, name: string, sport: string, ridingStyle: string,
                           bodyType: string, hairstyle: string, hairColor: string,
                           avatarUrl: string, age: Option<int>)
      returns (outcome: Outcome, id: nat, newly: seq<Achievement>)
      requires Valid()
      modifies this`characters, this`ledger, this`notifications, this`earned
      ensures Valid()
      ensures outcome == Failed(CharacterExists) <==>
        exists i :: 0 <= i < old(|characters|) && old(characters[i].userId) == userId
      ensures outcome.Failed? ==>
        && outcome.error == CharacterExists && characters == old(characters) && earned == old(earned)
        && ledger == old(ledger) && notifications == old(notifications)
      ensures outcome.Done? ==>
        var born := NewCharacter(userId, name, sport, ridingStyle, bodyType, hairstyle, hairColor, avatarUrl, age);
        && id == |characters| == old(|characters|) + 1
        && newly == NewlyEarned(achievements, {}, Stats(0, born.level, born.gamesWon))
        && characters == old(characters) + [Adjust(born, RewardSum(newly))]
        && earned == old(earned) + Grants(id, newly)
        && ledger == old(ledger) + RewardRows(id, newly)
        && notifications == old(notifications) + [Notification(id, Welcome, false)] + AchievementNotices(id, newly)
    {
      if exists i | 0 <= i < |characters| :: characters[i].userId == userId {
        return Failed(CharacterExists), 0, [];
      }
      var born := NewCharacter(userId, name, sport, ridingStyle, bodyType, hairstyle, hairColor, avatarUrl, age);
      id := AddCharacter(born);
      newly := CheckAchievements(id);
      outcome := Done;
    }

    /** The insert and welcome notice of `create_character`: the new id has
        no mastered tricks and no achievements yet. */
    method AddCharacter(born: Character) returns (id: nat)
      requires Valid()
      modifies this`characters, this`notifications
      ensures Valid()
      ensures characters == old(characters) + [born] && id == |characters|
      ensures notifications == old(notifications) + [Notification(id, Welcome, false)]
      ensures EarnedBy(id) == {} && MasteredBy(id) == {}
    {
      characters := characters + [born];
      id := |characters|;
      notifications := notifications + [Notification(id, Welcome, false)];
      assert EarnedBy(id) == {};
      assert MasteredBy(id) == {};
    }

    /** `add_kinetics`: applies any signed amount (no balance check), with a
        ledger row typed earn for a positive amount and spend otherwise. */
    method AddKinetics(c: nat, amount: int, source: string) returns (outcome: Outcome)
      requires Valid()
      modifies this`characters, this`ledger, this`notifications
      ensures Valid()
      ensures outcome.Failed? <==> !old(IsCharacter(c))
      ensures outcome.Failed? ==> outcome.error == CharacterNotFound && unchanged(this)
      ensures outcome.Done? ==>
        && characters == old(characters)[c - 1 := Adjust(old(characters[c - 1]), amount)]
        && ledger == old(ledger) + [Transaction(c, amount, if amount > 0 then Earn else Spend, source)]
        && notifications == old(notifications) + [Notification(c, KineticsChanged, false)]
    {
      if !IsCharacter(c) {
        return Failed(CharacterNotFound);
      }
      characters := characters[c - 1 := Adjust(characters[c - 1], amount)];
      ledger := ledger + [Transaction(c, amount, if amount > 0 then Earn else Spend, source)];
      notifications := notifications + [Notification(c, KineticsChanged, false)];
      outcome := Done;
    }

    /** The recording loop of `confirm_tricks`: inserts each known trick the
        character has not mastered and sums the rewards of those inserted. */
    method RecordTricks(c: nat, trickIds: seq<nat>) returns (added: seq<nat>, totalExp: int, totalKin: int)
      requires Valid() && IsCharacter(c)
      modifies this`mastered
      ensures Valid()
      ensures var r := Confirm(tricks, old(MasteredBy(c)), trickIds);
        added == r.added && totalExp == r.experience && totalKin == r.kinetics
      ensures mastered == old(mastered) + Pairs(c, added)
    {
      ghost var have := MasteredBy(c);
      var owned := MasteredBy(c);
      added := [];
      totalExp, totalKin := 0, 0;
      for i := 0 to |trickIds|
        invariant Confirmation(added, owned, totalExp, totalKin) == Confirm(tricks, have, trickIds[..i])
        invariant mastered == old(mastered)
      {
        var tid := trickIds[i];
        assert trickIds[..i + 1][..i] == trickIds[..i];
        // the unique (character, trick) pair makes a repeated insert a no-op
        if tid in tricks && tid !in owned {
          owned := owned + {tid};
          added := added + [tid];
          totalExp := totalExp + tricks[tid].experienceReward;
          totalKin := totalKin + tricks[tid].kineticsReward;
        }
      }
      assert trickIds[..|trickIds|] == trickIds;
      mastered := mastered + Pairs(c, added);
    }

    /** `confirm_tricks`: records each known trick not yet mastered, credits
        the summed rewards in one update with one ledger row and one notice
        (only when a reward is positive), then runs the achievement check.
        Returns the recorded tricks and their summed rewards. */
    method ConfirmTricks(c: nat, trickIds: seq<nat>)
      returns (added: seq<nat>, totalExp: int, totalKin: int, newly: seq<Achievement>)
      requires Valid() && IsCharacter(c)
      modifies this`characters, this`ledger, this`notifications, this`mastered, this`earned
      ensures Valid()
      ensures var r := Confirm(tricks, old(MasteredBy(c)), trickIds);
        added == r.added && totalExp == r.experience && totalKin == r.kinetics
      ensures mastered == old(mastered) + Pairs(c, added)
      ensures var credited := CreditIfRewarded(old(characters[c - 1]), totalExp, totalKin);
        && newly == NewlyEarned(achievements, old(EarnedBy(c)), Stats(|MasteredBy(c)|, credited.level, credited.gamesWon))
        && characters == old(characters)[c - 1 := Adjust(credited, RewardSum(newly))]
        && earned == old(earned) + Grants(c, newly)
      ensures ledger == old(ledger) + TrickRows(c, totalExp, totalKin) + RewardRows(c, newly)
      ensures notifications == old(notifications) + TrickNotices(c, totalExp, totalKin) + AchievementNotices(c, newly)
      ensures totalExp > 0 || totalKin > 0 ==> characters[c - 1].level == Level(characters[c - 1].experience)
    {
      added, totalExp, totalKin := RecordTricks(c, trickIds);
      ghost var snapshot := characters;
      CreditTricks(c, totalExp, totalKin);
      ghost var mid := characters;
      newly := CheckAchievements(c);
      UpdateTwice(snapshot, c - 1, mid[c - 1], characters[c - 1]);
    }

    /** The reward part of `confirm_tricks`: one credit, one ledger row and
        one notice, only when one of the summed rewards is positive. */
    method CreditTricks(c: nat, totalExp: int, totalKin: int)
      requires Valid() && IsCharacter(c)
      modifies this`characters, this`ledger, this`notifications
      ensures Valid()
      ensures characters == old(characters)[c - 1 := CreditIfRewarded(old(characters[c - 1]), totalExp, totalKin)]
      ensures ledger == old(ledger) + TrickRows(c, totalExp, totalKin)
      ensures notifications == old(notifications) + TrickNotices(c, totalExp, totalKin)
    {
      if totalExp > 0 || totalKin > 0 {
        characters := characters[c - 1 := Credit(characters[c - 1], totalExp, totalKin)];
        ledger := ledger + [Transaction(c, totalKin, Earn, "tricks")];
        notifications := notifications + [Notification(c, TricksConfirmed, false)];
      } else {
        assert characters == characters[c - 1 := characters[c - 1]];
      }
    }

    /** `game_complete`: credits the reported experience and kinetics, counts
        the game (and the win), records the result, writes a ledger row when
        kinetics were earned, then runs the achievement check. */
    method GameComplete(c: nat, gameName: string, earnedXp: int, earnedKin: int, won: bool, score: int)
      returns (newly: seq<Achievement>)
      requires Valid() && IsCharacter(c)
      modifies this`characters, this`ledger, this`notifications, this`earned, this`gameResults
      ensures Valid()
      ensures var ch := old(characters[c - 1]);
        var played := Played(ch, earnedXp, earnedKin, won);
        && newly == NewlyEarned(achievements, old(EarnedBy(c)), Stats(|old(MasteredBy(c))|, played.level, played.gamesWon))
        && characters == old(characters)[c - 1 := Adjust(played, RewardSum(newly))]
        && gameResults == old(gameResults) + [GameResult(c, gameName, won, earnedXp, earnedKin, score)]
        && ledger == old(ledger) + (if earnedKin > 0 then [Transaction(c, earnedKin, Earn, "game")] else [])
                     + RewardRows(c, newly)
        && notifications == old(notifications) + AchievementNotices(c, newly)
        && earned == old(earned) + Grants(c, newly)
      ensures characters[c - 1].level == Level(characters[c - 1].experience)
      ensures characters[c - 1].experience == old(characters[c - 1].experience) + earnedXp
    {
      ghost var snapshot := characters;
      RecordGame(c, gameName, earnedXp, earnedKin, won, score);
      ghost var mid := characters;
      newly := CheckAchievements(c);
      UpdateTwice(snapshot, c - 1, mid[c - 1], characters[c - 1]);
    }

    /** The game-result part of `game_complete`: the result row, the
        character's grant and game counters, and the ledger row of a positive
        kinetics grant. */
    method RecordGame(c: nat, gameName: string, earnedXp: int, earnedKin: int, won: bool, score: int)
      requires Valid() && IsCharacter(c)
      modifies this`characters, this`ledger, this`gameResults
      ensures Valid()
      ensures characters == old(characters)[c - 1 := Played(old(characters[c - 1]), earnedXp, earnedKin, won)]
      ensures gameResults == old(gameResults) + [GameResult(c, gameName, won, earnedXp, earnedKin, score)]
      ensures ledger == old(ledger) + (if earnedKin > 0 then [Transaction(c, earnedKin, Earn, "game")] else [])
    {
      characters := characters[c - 1 := Played(characters[c - 1], earnedXp, earnedKin, won)];
      gameResults := gameResults + [GameResult(c, gameName, won, earnedXp, earnedKin, score)];
      if earnedKin > 0 {
        ledger := ledger + [Transaction(c, earnedKin, Earn, "game")];
      }
    }

    /** `mark_notifications_read`. */
    method MarkNotificationsRead(c: nat, ids: seq<nat>)
      requires Valid()
      modifies this`notifications
      ensures Valid()
      ensures notifications == MarkRead(old(notifications), c, ids)
    {
      notifications := MarkRead(notifications, c, ids);
    }

    /** `purchase_item`: fails, committing nothing, on an unknown character,
        then on kinetics below the cost, then on an item already bought;
        otherwise records the item and debits exactly the cost. */
    method PurchaseItem(c: nat, itemType: string, itemValue: string, cost: int) returns (outcome: Outcome)
      requires Valid()
      modifies this`characters, this`ledger, this`notifications, this`purchases
      ensures Valid()
      ensures !old(IsCharacter(c)) ==> outcome == Failed(CharacterNotFound)
      ensures old(IsCharacter(c)) && old(characters[c - 1].kinetics) < cost ==> outcome == Failed(NotEnoughKinetics)
      ensures old(IsCharacter(c)) && old(characters[c - 1].kinetics) >= cost && ItemKey(c, itemType, itemValue) in old(purchases) ==>
        outcome == Failed(AlreadyPurchased)
      ensures outcome.Done? <==>
        old(IsCharacter(c)) && old(characters[c - 1].kinetics) >= cost && ItemKey(c, itemType, itemValue) !in old(purchases)
      ensures outcome.Failed? ==> unchanged(this)
      ensures outcome.Done? ==>
        && ItemKey(c, itemType, itemValue) !in old(purchases)
        && purchases == old(purchases)[ItemKey(c, itemType, itemValue) := cost]
        && characters == old(characters)[c - 1 := Adjust(old(characters[c - 1]), -cost)]
        && characters[c - 1].kinetics >= 0
        && ledger == old(ledger) + [Transaction(c, -cost, Spend, "shop")]
        && notifications == old(notifications) + [Notification(c, Purchase, false)]
    {
      if !IsCharacter(c) {
        return Failed(CharacterNotFound);
      }
      if characters[c - 1].kinetics < cost {
        return Failed(NotEnoughKinetics);
      }
      var key := ItemKey(c, itemType, itemValue);
      if key in purchases {
        return Failed(AlreadyPurchased);
      }
      purchases := purchases[key := cost];
      characters := characters[c - 1 := Adjust(characters[c - 1], -cost)];
      ledger := ledger + [Transaction(c, -cost, Spend, "shop")];
      notifications := notifications + [Notification(c, Purchase, false)];
      outcome := Done;
    }

    /** `purchase_customization`: fails on an unknown character, then on
        kinetics below the cost even when the item is already owned. An owned
        item is re-applied free; a new one with a positive cost is recorded
        and debited. An item type outside the five columns fails with nothing
        committed. */
    method PurchaseCustomization(c: nat, itemType: string, itemValue: string, cost: int)
      returns (outcome: Outcome, wasFree: bool)
      requires Valid()
      modifies this`characters, this`ledger, this`notifications, this`purchases
      ensures Valid()
      ensures !old(IsCharacter(c)) ==> outcome == Failed(CharacterNotFound)
      ensures old(IsCharacter(c)) && old(characters[c - 1].kinetics) < cost ==> outcome == Failed(NotEnoughKinetics)
      ensures old(IsCharacter(c)) && old(characters[c - 1].kinetics) >= cost && FieldFor(itemType).None? ==>
        outcome == Failed(InvalidItemType)
      ensures outcome.Done? <==>
        old(IsCharacter(c)) && old(characters[c - 1].kinetics) >= cost && FieldFor(itemType).Some?
      ensures outcome.Failed? ==> unchanged(this)
      ensures outcome.Done? ==>
        var key := ItemKey(c, itemType, itemValue);
        var charge := if key in old(purchases) || cost <= 0 then 0 else cost;
        && FieldFor(itemType).Some?
        && wasFree == (key in old(purchases))
        && characters == old(characters)[c - 1 := Adjust(WithField(old(characters[c - 1]), FieldFor(itemType).value, itemValue), -charge)]
        && (charge > 0 ==> characters[c - 1].kinetics >= 0)
        && purchases == (if charge > 0 then old(purchases)[key := charge] else old(purchases))
        && ledger == old(ledger) + (if charge > 0 then [Transaction(c, -charge, Spend, "shop")] else [])
        && notifications == old(notifications) + (if charge > 0 then [Notification(c, Purchase, false)] else [])
    {
      if !IsCharacter(c) {
        return Failed(CharacterNotFound), false;
      }
      if characters[c - 1].kinetics < cost {
        return Failed(NotEnoughKinetics), false;
      }
      var key := ItemKey(c, itemType, itemValue);
      var alreadyOwned := key in purchases;
      var actualCost := if alreadyOwned then 0 else cost;
      // the purchase row is written before the type check; the invalid-type
      // path ends without a commit, so the row is only kept on success
      var pending := if actualCost > 0 then purchases[key := actualCost] else purchases;
      var field := FieldFor(itemType);
      if field.None? {
        return Failed(InvalidItemType), false;
      }
      purchases := pending;
      if actualCost > 0 {
        characters := characters[c - 1 := Adjust(WithField(characters[c - 1], field.value, itemValue), -actualCost)];
        ledger := ledger + [Transaction(c, -actualCost, Spend, "shop")];
        notifications := notifications + [Notification(c, Purchase, false)];
      } else {
        characters := characters[c - 1 := Adjust(WithField(characters[c - 1], field.value, itemValue), 0)];
      }
      outcome, wasFree := Done, alreadyOwned;
    }

    /** `add_sport`: fails on an unknown character, then on a sport already in
        the list, then on kinetics below the cost; otherwise appends the sport
        and debits exactly the cost. */
    method AddSport(c: nat, sport: string, cost: int) returns (outcome: Outcome)
      requires Valid()
      modifies this`characters, this`ledger, this`notifications
      ensures Valid()
      ensures !old(IsCharacter(c)) ==> outcome == Failed(CharacterNotFound)
      ensures old(IsCharacter(c)) && sport in CurrentSports(old(characters[c - 1])) ==> outcome == Failed(SportAlreadyAdded)
      ensures old(IsCharacter(c)) && sport !in CurrentSports(old(characters[c - 1])) && old(characters[c - 1].kinetics) < cost ==>
        outcome == Failed(NotEnoughKinetics)
      ensures outcome.Done? <==>
        old(IsCharacter(c)) && sport !in CurrentSports(old(characters[c - 1])) && old(characters[c - 1].kinetics) >= cost
      ensures outcome.Failed? ==> unchanged(this)
      ensures outcome.Done? ==>
        var ch := old(characters[c - 1]);
        && characters == old(characters)[c - 1 := Adjust(WithSport(ch, sport), -cost)]
        && characters[c - 1].kinetics >= 0
        && ledger == old(ledger) + [Transaction(c, -cost, Spend, "shop")]
        && notifications == old(notifications) + [Notification(c, SportAdded, false)]
    {
      if !IsCharacter(c) {
        return Failed(CharacterNotFound);
      }
      var ch := characters[c - 1];
      var current := CurrentSports(ch);
      if sport in current {
        return Failed(SportAlreadyAdded);
      }
      if ch.kinetics < cost {
        return Failed(NotEnoughKinetics);
      }
      characters := characters[c - 1 := Adjust(WithSport(ch, sport), -cost)];
      ledger := ledger + [Transaction(c, -cost, Spend, "shop")];
      notifications := notifications + [Notification(c, SportAdded, false)];
      outcome := Done;
    }

    /** `get_or_create_tournament`: the tournament of the week containing
        `today`; when there is none, creates it (active, default fee, no
        entries) and announces it to every character. */
    method GetOrCreateTournament(today: int) returns (tid: nat)
      requires Valid()
      modifies this`tournaments, this`notifications
      ensures Valid()
      ensures 1 <= tid <= |tournaments| && tournaments[tid - 1].weekStart == CurrentWeek(today).monday
      ensures WeekIndex(old(tournaments), CurrentWeek(today).monday).Some? ==>
        && tid == WeekIndex(old(tournaments), CurrentWeek(today).monday).value + 1
        && tournaments == old(tournaments) && notifications == old(notifications)
      ensures WeekIndex(old(tournaments), CurrentWeek(today).monday).None? ==>
        && tournaments == old(tournaments) + [Tournament(CurrentWeek(today).monday, CurrentWeek(today).sunday, DefaultEntryFee, [])]
        && tid == |tournaments|
        && notifications == old(notifications) + Broadcast(|characters|, tid)
    {
      var week := CurrentWeek(today);
      var found := WeekIndex(tournaments, week.monday);
      if found.Some? {
        return found.value + 1;
      }
      tournaments := tournaments + [Tournament(week.monday, week.sunday, DefaultEntryFee, [])];
      tid := |tournaments|;
      for k := 0 to |characters|
        invariant tournaments == old(tournaments) + [Tournament(week.monday, week.sunday, DefaultEntryFee, [])]
        invariant notifications == old(notifications) + Broadcast(k, tid)
      {
        assert Broadcast(k + 1, tid) == Broadcast(k, tid) + [Notification(k + 1, NewTournament(tid), false)];
        notifications := notifications + [Notification(k + 1, NewTournament(tid), false)];
      }
    }

    /** `recalc_tournament_scores`: rewrites every entry's scores from the
        week's activity and re-ranks the entries 1..N by score; an unknown
        tournament is left alone. Returns the standings. */
    method RecalcTournamentScores(tid: nat, activity: nat -> Activity) returns (standings: seq<nat>)
      requires Valid()
      modifies this`tournaments
      ensures Valid()
      ensures |tournaments| == old(|tournaments|)
      ensures !(1 <= tid <= old(|tournaments|)) ==> unchanged(this)
      ensures 1 <= tid <= old(|tournaments|) ==>
        var before := old(tournaments[tid - 1].entries);
        var after := tournaments[tid - 1].entries;
        && tournaments == old(tournaments)[tid - 1 := old(tournaments[tid - 1]).(entries := after)]
        && |after| == |before|
        && (forall i :: 0 <= i < |before| ==> after[i].characterId == before[i].characterId)
        && AllScored(after, activity)
        && Standings(after, standings)
    {
      if !(1 <= tid <= |tournaments|) {
        return [];
      }
      var t := tournaments[tid - 1];
      var updated, order := RecalcScores(t.entries, activity);
      tournaments := tournaments[tid - 1 := t.(entries := updated)];
      standings := order;
    }

    /** `join_tournament`: gets or creates this week's tournament (kept even
        when the join then fails), then fails on an existing entry, then on an
        unknown character or kinetics below the fee; otherwise debits the fee
        once, adds exactly one entry and recalculates the scores. */
    method JoinTournament(c: nat, today: int, activity: nat -> Activity)
      returns (outcome: Outcome, tid: nat, standings: seq<nat>)
      requires Valid()
      modifies this`characters, this`ledger, this`notifications, this`tournaments
      ensures Valid()
      ensures 1 <= tid <= |tournaments| && tournaments[tid - 1].weekStart == CurrentWeek(today).monday
      ensures var created := tid == old(|tournaments|) + 1;
        var before := if tid <= old(|tournaments|) then old(tournaments)[tid - 1].entries else [];
        var fee := tournaments[tid - 1].entryFee;
        && (created ==> WeekIndex(old(tournaments), CurrentWeek(today).monday).None? && fee == DefaultEntryFee)
        && (!created ==> WeekIndex(old(tournaments), CurrentWeek(today).monday) == Some(tid - 1))
        && |tournaments| == old(|tournaments|) + (if created then 1 else 0)
        && (forall i :: 0 <= i < old(|tournaments|) && i != tid - 1 ==> tournaments[i] == old(tournaments[i]))
        && (outcome == Failed(AlreadyJoined) <==> HasEntry(before, c))
        && (outcome == Failed(NotEnoughKinetics) <==>
              !HasEntry(before, c) && (!old(IsCharacter(c)) || old(characters[c - 1].kinetics) < fee))
        && (outcome.Done? <==> !HasEntry(before, c) && old(IsCharacter(c)) && old(characters[c - 1].kinetics) >= fee)
        && (outcome.Failed? ==>
              && characters == old(characters) && ledger == old(ledger)
              && tournaments[tid - 1].entries == before
              && notifications == old(notifications) + (if created then Broadcast(old(|characters|), tid) else []))
        && (outcome.Done? ==>
              && characters == old(characters)[c - 1 := Adjust(old(characters[c - 1]), -fee)]
              && characters[c - 1].kinetics >= 0
              && ledger == old(ledger) + [Transaction(c, -fee, Spend, "tournament")]
              && notifications == old(notifications) + (if created then Broadcast(old(|characters|), tid) else [])
                                   + [Notification(c, TournamentJoined, false)]
              && |tournaments[tid - 1].entries| == |before| + 1
              && (forall i :: 0 <= i < |before| ==> tournaments[tid - 1].entries[i].characterId == before[i].characterId)
              && tournaments[tid - 1].entries[|before|].characterId == c
              && AllScored(tournaments[tid - 1].entries, activity)
              && Standings(tournaments[tid - 1].entries, standings))
    {
      tid := GetOrCreateTournament(today);
      outcome, standings := EnterTournament(c, tid, activity);
    }

    /** The join proper, once the week's tournament `tid` exists. */
    method EnterTournament(c: nat, tid: nat, activity: nat -> Activity) returns (outcome: Outcome, standings: seq<nat>)
      requires Valid() && 1 <= tid <= |tournaments|
      modifies this`characters, this`ledger, this`notifications, this`tournaments
      ensures Valid()
      ensures |tournaments| == old(|tournaments|)
      ensures forall i :: 0 <= i < |tournaments| && i != tid - 1 ==> tournaments[i] == old(tournaments[i])
      ensures tournaments[tid - 1].weekStart == old(tournaments[tid - 1].weekStart)
      ensures tournaments[tid - 1].entryFee == old(tournaments[tid - 1].entryFee)
      ensures var before := old(tournaments[tid - 1].entries);
        var fee := old(tournaments[tid - 1].entryFee);
        && (outcome == Failed(AlreadyJoined) <==> HasEntry(before, c))
        && (outcome == Failed(NotEnoughKinetics) <==>
              !HasEntry(before, c) && (!old(IsCharacter(c)) || old(characters[c - 1].kinetics) < fee))
        && (outcome.Done? <==> !HasEntry(before, c) && old(IsCharacter(c)) && old(characters[c - 1].kinetics) >= fee)
        && (outcome.Failed? ==>
              && characters == old(characters) && ledger == old(ledger)
              && notifications == old(notifications)
              && tournaments == old(tournaments))
        && (outcome.Done? ==>
              && characters == old(characters)[c - 1 := Adjust(old(characters[c - 1]), -fee)]
              && characters[c - 1].kinetics >= 0
              && ledger == old(ledger) + [Transaction(c, -fee, Spend, "tournament")]
              && notifications == old(notifications) + [Notification(c, TournamentJoined, false)]
              && |tournaments[tid - 1].entries| == |before| + 1
              && (forall i :: 0 <= i < |before| ==> tournaments[tid - 1].entries[i].characterId == before[i].characterId)
              && tournaments[tid - 1].entries[|before|].characterId == c
              && AllScored(tournaments[tid - 1].entries, activity)
              && Standings(tournaments[tid - 1].entries, standings))
    {
      var t := tournaments[tid - 1];
      if HasEntry(t.entries, c) {
        return Failed(AlreadyJoined), [];
      }
      if !IsCharacter(c) || characters[c - 1].kinetics < t.entryFee {
        return Failed(NotEnoughKinetics), [];
      }
      characters := characters[c - 1 := Adjust(characters[c - 1], -t.entryFee)];
      tournaments := tournaments[tid - 1 := t.(entries := t.entries + [NewEntry(c)])];
      ledger := ledger + [Transaction(c, -t.entryFee, Spend, "tournament")];
      notifications := notifications + [Notification(c, TournamentJoined, false)];
      standings := RecalcTournamentScores(tid, activity);
      outcome := Done;
    }

    /** `send_weekly_results`: finds the tournament of the previous week,
        recalculates it and sends each entry one notice with its rank, score
        and the number of participants, in standings order. */
    method SendWeeklyResults(today: int, activity: nat -> Activity)
      returns (outcome: Outcome, sent: nat, standings: seq<nat>)
      requires Valid()
      modifies this`tournaments, this`notifications
      ensures Valid()
      ensures outcome.Failed? <==> WeekIndex(old(tournaments), PreviousWeekStart(today)).None?
      ensures |tournaments| == old(|tournaments|)
      ensures outcome.Failed? ==>
        && outcome.error == NoPreviousTournament && sent == 0
        && tournaments == old(tournaments) && notifications == old(notifications)
      ensures outcome.Done? ==>
        var i := WeekIndex(old(tournaments), PreviousWeekStart(today)).value;
        var after := tournaments[i].entries;
        && tournaments == old(tournaments)[i := old(tournaments[i]).(entries := after)]
        && sent == |after| == |old(tournaments[i].entries)|
        && AllScored(after, activity)
        && Standings(after, standings)
        && notifications == old(notifications) + ResultNotices(i + 1, after, standings)
    {
      var prev := PreviousWeekStart(today);
      var found := WeekIndex(tournaments, prev);
      if found.None? {
        return Failed(NoPreviousTournament), 0, [];
      }
      var tid := found.value + 1;
      standings := RecalcTournamentScores(tid, activity);
      NotifyResults(tid, standings);
      outcome, sent := Done, |tournaments[tid - 1].entries|;
    }

    /** The result notices of tournament `tid`, one per entry in standings
        order, sent together. */
    method NotifyResults(tid: nat, standings: seq<nat>)
      requires 1 <= tid <= |tournaments|
      requires IsOrdering(standings, |tournaments[tid - 1].entries|)
      modifies this`notifications
      ensures notifications == old(notifications) + ResultNotices(tid, tournaments[tid - 1].entries, standings)
    {
      var entries := tournaments[tid - 1].entries;
      var ns := [];
      for p := 0 to |entries|
        invariant ns == ResultNotices(tid, entries, standings[..p])
      {
        var e := entries[standings[p]];
        assert ResultNotices(tid, entries, standings[..p + 1])
            == ResultNotices(tid, entries, standings[..p]) + [Notification(e.characterId, WeeklyResults(tid, e.rank, e.score, |entries|), false)];
        ns := ns + [Notification(e.characterId, WeeklyResults(tid, e.rank, e.score, |entries|), false)];
      }
      assert standings[..|entries|] == standings;
      notifications := notifications + ns;
    }

    /** `buy_accessory`: fails on an unknown character, then on an unknown or
        unavailable accessory, then on one already owned, then on kinetics
        below its price; otherwise debits exactly the price. */
    method BuyAccessory(c: nat, accessoryId: nat) returns (outcome: Outcome)
      requires Valid()
      modifies this`characters, this`ledger, this`notifications, this`ownedAccessories
      ensures Valid()
      ensures !old(IsCharacter(c)) ==> outcome == Failed(CharacterNotFound)
      ensures old(IsCharacter(c)) && (accessoryId !in accessories || !accessories[accessoryId].isAvailable) ==>
        outcome == Failed(AccessoryNotFound)
      ensures (old(IsCharacter(c)) && accessoryId in accessories && accessories[accessoryId].isAvailable
               && (c, accessoryId) in old(ownedAccessories)) ==> outcome == Failed(AlreadyOwned)
      ensures (old(IsCharacter(c)) && accessoryId in accessories && accessories[accessoryId].isAvailable
               && (c, accessoryId) !in old(ownedAccessories) && old(characters[c - 1].kinetics) < accessories[accessoryId].price) ==>
        outcome == Failed(NotEnoughKinetics)
      ensures outcome.Done? <==>
        && old(IsCharacter(c)) && accessoryId in accessories && accessories[accessoryId].isAvailable
        && (c, accessoryId) !in old(ownedAccessories) && old(characters[c - 1].kinetics) >= accessories[accessoryId].price
      ensures outcome.Failed? ==> unchanged(this)
      ensures outcome.Done? ==>
        var price := accessories[accessoryId].price;
        && ownedAccessories == old(ownedAccessories) + {(c, accessoryId)}
        && characters == old(characters)[c - 1 := Adjust(old(characters[c - 1]), -price)]
        && characters[c - 1].kinetics >= 0
        && ledger == old(ledger) + [Transaction(c, -price, Spend, "shop")]
        && notifications == old(notifications) + [Notification(c, Purchase, false)]
    {
      if !IsCharacter(c) {
        return Failed(CharacterNotFound);
      }
      if accessoryId !in accessories || !accessories[accessoryId].isAvailable {
        return Failed(AccessoryNotFound);
      }
      if (c, accessoryId) in ownedAccessories {
        return Failed(AlreadyOwned);
      }
      var price := accessories[accessoryId].price;
      if characters[c - 1].kinetics < price {
        return Failed(NotEnoughKinetics);
      }
      characters := characters[c - 1 := Adjust(characters[c - 1], -price)];
      ownedAccessories := ownedAccessories + {(c, accessoryId)};
      ledger := ledger + [Transaction(c, -price, Spend, "shop")];
      notifications := notifications + [Notification(c, Purchase, false)];
      outcome := Done;
    }
  }
}
