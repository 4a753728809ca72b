/**
 * The card battle mini-game: five rounds in which the player plays a trick
 * card from a hand of up to five, the opponent answers with a drawn card, and
 * the card with the strictly higher power scores one point.
 *
 * The two timers of a round (reveal, then advance) are explicit steps, and
 * the opponent's random pick is an input of `PlayCard`.
 */
module CardBattle {
  import opened KineticTypes

  datatype Option<T> = None | Some(value: T)

  /** `Choosing`: waiting for a card; `Revealed`: both cards on the field,
      the scoring timer pending; `Scored`: the round is scored, the advance
      timer pending; `Finished`: the result screen. */
  datatype Phase = Choosing | Revealed | Scored | Finished

  const Rounds := 5
  const WinReward := 80
  const LossReward := 30

  /** Difficulty rank; any other stored difficulty counts as a novice. */
  function DifficultyPower(d: Difficulty): (p: int)
    ensures 1 <= p <= 4
  {
    match d
    case Novice => 1
    case Amateur => 2
    case Pro => 3
    case Legend => 4
    case Unrecognized => 1
  }

  function CardPower(t: Trick): (p: int)
    ensures 10 <= p - t.experienceReward <= 40
    ensures (p - t.experienceReward) % 10 == 0
  {
    DifficultyPower(t.difficulty) * 10 + t.experienceReward
  }

  /** Difficulty outranks the reward as long as rewards stay below ten: a
      harder card then always has the higher power. */
  lemma HarderCardWins(a: Trick, b: Trick)
    requires 0 <= a.experienceReward < 10 && 0 <= b.experienceReward < 10
    requires DifficultyPower(a.difficulty) > DifficultyPower(b.difficulty)
    ensures CardPower(a) > CardPower(b)
  {
  }

  /** An unrecognised difficulty plays exactly like a novice card. */
  lemma UnrecognizedPlaysAsNovice(t: Trick)
    requires t.difficulty == Unrecognized
    ensures CardPower(t) == CardPower(t.(difficulty := Novice))
  {
  }

  /** The hand after playing a card: every card with that id is removed. */
  function RemoveById(hand: seq<Trick>, id: nat): (r: seq<Trick>)
    ensures |r| <= |hand|
    ensures forall t :: t in r <==> t in hand && t.id != id
  {
    if hand == [] then []
    else
      var rest := RemoveById(hand[1..], id);
      assert forall t :: t in hand <==> t == hand[0] || t in hand[1..];
      if hand[0].id == id then rest else [hand[0]] + rest
  }

  /** Playing a card from the hand shrinks the hand. */
  lemma {:induction false} RemoveByIdShrinks(hand: seq<Trick>, t: Trick)
    requires t in hand
    ensures |RemoveById(hand, t.id)| < |hand|
  {
    if hand[0] != t {
      assert t in hand[1..];
      RemoveByIdShrinks(hand[1..], t);
    } else {
      assert |RemoveById(hand[1..], t.id)| <= |hand[1..]|;
    }
  }

  /** Points a round adds to each side: one to the strictly stronger card,
      none on equal power. */
  function PlayerPoint(player: Trick, opponent: Trick): (n: nat)
    ensures n == 1 <==> CardPower(player) > CardPower(opponent)
    ensures n <= 1
  {
    if CardPower(player) > CardPower(opponent) then 1 else 0
  }

  function OpponentPoint(player: Trick, opponent: Trick): (n: nat)
    ensures n == 1 <==> CardPower(opponent) > CardPower(player)
    ensures n <= 1
  {
    if CardPower(opponent) > CardPower(player) then 1 else 0
  }

  /** A round scores at most one point in all. */
  lemma AtMostOnePoint(player: Trick, opponent: Trick)
    ensures PlayerPoint(player, opponent) + OpponentPoint(player, opponent) <= 1
    ensures CardPower(player) == CardPower(opponent) ==>
              PlayerPoint(player, opponent) == 0 && OpponentPoint(player, opponent) == 0
  {
  }

  /** The kinetics a finished game pays. */
  function Reward(playerScore: nat, opponentScore: nat): (k: nat)
    ensures k == WinReward <==> playerScore > opponentScore
    ensures k == LossReward <==> playerScore <= opponentScore
  {
    if playerScore > opponentScore then WinReward else LossReward
  }

  class Battle {
    const opponentHand: seq<Trick>
    var playerHand: seq<Trick>
    var playerField: Option<Trick>
    var opponentField: Option<Trick>
    var playerScore: nat
    var opponentScore: nat
    var round: int
    var phase: Phase

    /** Rounds whose scoring step has run. */
    function Resolved(): (n: int)
      reads this`phase, this`round
      ensures n == round || n == round - 1
    {
      if phase == Scored || phase == Finished then round else round - 1
    }

    ghost predicate Valid()
      reads this
    {
      && 1 <= round <= Rounds
      && (phase == Choosing <==> playerField == None)
      && (phase == Choosing <==> opponentField == None)
      && (phase == Finished ==> round == Rounds)
      && playerScore + opponentScore <= Resolved()
      && (playerHand == [] || opponentHand != [])
    }

    /** Both hands are dealt from the same catalog, so they have the same
        size. */
    constructor (playerDeal: seq<Trick>, opponentDeal: seq<Trick>)
      requires |playerDeal| == |opponentDeal|
      ensures Valid()
      ensures playerHand == playerDeal && opponentHand == opponentDeal
      ensures playerField == None && opponentField == None
      ensures playerScore == 0 && opponentScore == 0
      ensures round == 1 && phase == Choosing
    {
      opponentHand := opponentDeal;
      playerHand := playerDeal;
      playerField := None;
      opponentField := None;
      playerScore := 0;
      opponentScore := 0;
      round := 1;
      phase := Choosing;
    }

    /** The player picks a card from the hand (cards are disabled while the
        field is occupied); `draw` is the opponent's random index. The
        opponent's hand is never depleted. */
    method PlayCard(card: Trick, draw: nat)
      requires Valid()
      requires phase == Choosing && card in playerHand
      requires draw < |opponentHand|
      modifies this`playerHand, this`playerField, this`opponentField, this`phase
      ensures Valid()
      ensures playerHand == RemoveById(old(playerHand), card.id)
      ensures |playerHand| < old(|playerHand|)
      ensures playerField == Some(card) && opponentField == Some(opponentHand[draw])
      ensures phase == Revealed
    {
      RemoveByIdShrinks(playerHand, card);
      playerHand := RemoveById(playerHand, card.id);
      playerField := Some(card);
      opponentField := Some(opponentHand[draw]);
      phase := Revealed;
    }

    /** The first timer: the strictly stronger card scores a point. */
    method ScoreRound()
      requires Valid() && phase == Revealed
      modifies this`playerScore, this`opponentScore, this`phase
      ensures Valid()
      ensures playerScore == old(playerScore) + PlayerPoint(playerField.value, opponentField.value)
      ensures opponentScore == old(opponentScore) + OpponentPoint(playerField.value, opponentField.value)
      ensures phase == Scored
    {
      AtMostOnePoint(playerField.value, opponentField.value);
      playerScore := playerScore + PlayerPoint(playerField.value, opponentField.value);
      opponentScore := opponentScore + OpponentPoint(playerField.value, opponentField.value);
      phase := Scored;
    }

    /** The second timer: after the fifth round the result is shown;
        otherwise the next round starts with an empty field. */
    method Advance()
      requires Valid() && phase == Scored
      modifies this`round, this`playerField, this`opponentField, this`phase
      ensures Valid()
      ensures old(round) >= Rounds ==>
                phase == Finished && round == old(round)
                && playerField == old(playerField) && opponentField == old(opponentField)
      ensures old(round) < Rounds ==>
                phase == Choosing && round == old(round) + 1
                && playerField == None && opponentField == None
    {
      if round >= Rounds {
        phase := Finished;
      } else {
        round := round + 1;
        playerField := None;
        opponentField := None;
        phase := Choosing;
      }
    }

    /** The kinetics reported when the result screen is closed. */
    method Finish() returns (earned: nat)
      requires Valid() && phase == Finished
      ensures earned == WinReward <==> playerScore > opponentScore
      ensures earned == LossReward <==> playerScore <= opponentScore
      ensures playerScore + opponentScore <= Rounds
    {
      earned := Reward(playerScore, opponentScore);
    }
  }
}
