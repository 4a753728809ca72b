/**
 * The tournament arena mini-game: three rounds in which the player picks one
 * of their first five tricks, an opponent answers with a random catalog
 * trick, and the strictly larger experience reward takes the round.
 *
 * The scoring and advance timers are explicit steps; the opponent's random
 * pick is an input of `SelectTrick`.
 */
module TournamentArena {
  import opened KineticTypes

  datatype Option<T> = None | Some(value: T)

  /** `Prepare`: choosing a trick; `Battle`: both tricks shown, the scoring
      timer pending; `Scored`: still the battle screen, the round scored and
      the advance timer pending; `Result`: the result screen. */
  datatype Phase = Prepare | Battle | Scored | Result

  const Rounds := 3
  const WinExperience := 50
  const WinKinetics := 100
  const LossExperience := 20
  const LossKinetics := 50

  /** The tricks offered to the player: the first five of the catalog, or all
      of it when it is shorter. */
  function PlayerTricks(tricks: seq<Trick>): (r: seq<Trick>)
    ensures |r| == if |tricks| < 5 then |tricks| else 5
    ensures r <= tricks
  {
    if |tricks| > 0 then tricks[..if 5 < |tricks| then 5 else |tricks|] else []
  }

  /** Every offered trick is a catalog trick, so a round always has an
      opponent trick to draw. */
  lemma OfferedTricksAreCatalogTricks(tricks: seq<Trick>, t: Trick)
    requires t in PlayerTricks(tricks)
    ensures t in tricks && |tricks| > 0
  {
    var r := PlayerTricks(tricks);
    var k :| 0 <= k < |r| && r[k] == t;
    assert tricks[k] == t;
  }

  /** Points a round adds to each side: one to the strictly larger
      experience reward, none on a tie. */
  function PlayerPoint(player: Trick, opponent: Trick): (n: nat)
    ensures n == 1 <==> player.experienceReward > opponent.experienceReward
    ensures n <= 1
  {
    if player.experienceReward > opponent.experienceReward then 1 else 0
  }

  function OpponentPoint(player: Trick, opponent: Trick): (n: nat)
    ensures n == 1 <==> opponent.experienceReward > player.experienceReward
    ensures n <= 1
  {
    if opponent.experienceReward > player.experienceReward then 1 else 0
  }

  /** A round scores at most one point in all, and none on a tie. */
  lemma AtMostOnePoint(player: Trick, opponent: Trick)
    ensures PlayerPoint(player, opponent) + OpponentPoint(player, opponent) <= 1
    ensures player.experienceReward == opponent.experienceReward ==>
              PlayerPoint(player, opponent) == 0 && OpponentPoint(player, opponent) == 0
  {
  }

  /** What a finished game reports. */
  datatype Payout = Payout(experience: nat, kinetics: nat, won: bool)

  function Rewards(playerScore: nat, opponentScore: nat): (p: Payout)
    ensures p.won <==> playerScore > opponentScore
    ensures p.won ==> p.experience == WinExperience && p.kinetics == WinKinetics
    ensures !p.won ==> p.experience == LossExperience && p.kinetics == LossKinetics
  {
    if playerScore > opponentScore then Payout(WinExperience, WinKinetics, true)
    else Payout(LossExperience, LossKinetics, false)
  }

  class Arena {
    const tricks: seq<Trick>
    var playerScore: nat
    var opponentScore: nat
    var round: int
    var selectedTrick: Option<Trick>
    var opponentTrick: Option<Trick>
    var phase: Phase

    /** Rounds whose scoring step has run. */
    function Resolved(): (n: int)
      reads this`phase, this`round
      ensures n == round || n == round - 1
    {
      if phase == Scored || phase == Result then round else round - 1
    }

    ghost predicate Valid()
      reads this
    {
      && 1 <= round <= Rounds
      && (phase == Prepare <==> selectedTrick == None)
      && (phase == Prepare <==> opponentTrick == None)
      && (phase == Result ==> round == Rounds)
      && playerScore + opponentScore <= Resolved()
    }

    constructor (catalog: seq<Trick>)
      ensures Valid()
      ensures tricks == catalog
      ensures playerScore == 0 && opponentScore == 0 && round == 1
      ensures selectedTrick == None && opponentTrick == None && phase == Prepare
    {
      tricks := catalog;
      playerScore := 0;
      opponentScore := 0;
      round := 1;
      selectedTrick := None;
      opponentTrick := None;
      phase := Prepare;
    }

    /** The player picks one of the offered tricks; `draw` is the opponent's
        random index into the whole catalog. */
    method SelectTrick(trick: Trick, draw: nat)
      requires Valid() && phase == Prepare
      requires trick in PlayerTricks(tricks)
      requires draw < |tricks|
      modifies this`selectedTrick, this`opponentTrick, this`phase
      ensures Valid()
      ensures selectedTrick == Some(trick) && opponentTrick == Some(tricks[draw])
      ensures phase == Battle
    {
      selectedTrick := Some(trick);
      opponentTrick := Some(tricks[draw]);
      phase := Battle;
    }

    /** The first timer: the strictly larger reward scores a point. */
    method ScoreRound()
      requires Valid() && phase == Battle
      modifies this`playerScore, this`opponentScore, this`phase
      ensures Valid()
      ensures playerScore == old(playerScore) + PlayerPoint(selectedTrick.value, opponentTrick.value)
      ensures opponentScore == old(opponentScore) + OpponentPoint(selectedTrick.value, opponentTrick.value)
      ensures phase == Scored
    {
      AtMostOnePoint(selectedTrick.value, opponentTrick.value);
      playerScore := playerScore + PlayerPoint(selectedTrick.value, opponentTrick.value);
      opponentScore := opponentScore + OpponentPoint(selectedTrick.value, opponentTrick.value);
      phase := Scored;
    }

    /** The second timer: after the third round the result is shown;
        otherwise the next round starts from a fresh choice. */
    method Advance()
      requires Valid() && phase == Scored
      modifies this`round, this`selectedTrick, this`opponentTrick, this`phase
      ensures Valid()
      ensures old(round) >= Rounds ==>
                phase == Result && round == old(round)
                && selectedTrick == old(selectedTrick) && opponentTrick == old(opponentTrick)
      ensures old(round) < Rounds ==>
                phase == Prepare && round == old(round) + 1
                && selectedTrick == None && opponentTrick == None
    {
      if round >= Rounds {
        phase := Result;
      } else {
        round := round + 1;
        selectedTrick := None;
        opponentTrick := None;
        phase := Prepare;
      }
    }

    /** What the result screen reports. Two rounds decide a best of three. */
    method Finish() returns (payout: Payout)
      requires Valid() && phase == Result
      ensures payout.won <==> playerScore > opponentScore
      ensures payout.won ==> payout.experience == WinExperience && payout.kinetics == WinKinetics
      ensures !payout.won ==> payout.experience == LossExperience && payout.kinetics == LossKinetics
      ensures playerScore >= 2 ==> payout.won
      ensures opponentScore >= 2 ==> !payout.won
    {
      payout := Rewards(playerScore, opponentScore);
    }
  }
}
