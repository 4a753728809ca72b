/**
 * The trick simulator mini-game: each round shows a random sequence of
 * button presses that the player must repeat. A correct full repetition
 * scores the current trick's experience times the round number; a wrong
 * press fails the round, which may be retried.
 *
 * The random trick and sequence are inputs; the display and success timers
 * are explicit steps.
 */
module TrickSimulator {
  import opened KineticTypes

  datatype Option<T> = None | Some(value: T)

  /** The five buttons: up, down, left, right and spin. */
  datatype Button = Up | Down | Left | Right | Spin

  datatype Phase = Ready | Showing | Playing | Success | Fail

  /** Experience used when the trick is missing or its reward is zero. */
  const FallbackExperience := 50

  /** The length of the sequence shown in a round: three more than the
      round, at most seven. */
  function SequenceLength(round: int): (n: nat)
    requires round >= 1
    ensures 4 <= n <= 7
    ensures n == 7 <==> round >= 4
    ensures round < 4 ==> n == 3 + round
  {
    if 3 + round < 7 then 3 + round else 7
  }

  /** Later rounds never show shorter sequences. */
  lemma SequenceLengthMonotone(r1: int, r2: int)
    requires 1 <= r1 <= r2
    ensures SequenceLength(r1) <= SequenceLength(r2)
  {
  }

  /** The per-round experience: the trick's reward, or the fallback when
      there is no trick or its reward is zero (a falsy value). */
  function RoundExperience(current: Option<Trick>): (x: int)
    ensures x != 0
    ensures current.Some? && current.value.experienceReward != 0 ==> x == current.value.experienceReward
    ensures current.None? || current.value.experienceReward == 0 ==> x == FallbackExperience
  {
    if current.Some? && current.value.experienceReward != 0 then current.value.experienceReward
    else FallbackExperience
  }

  /** What finishing reports: the score as experience and a fifth of it,
      rounded down, as kinetics. */
  function Kinetics(score: int): (k: int)
    ensures 5 * k <= score < 5 * k + 5
  {
    score / 5
  }

  /** What the phase says about the shown and the pressed buttons: nothing
      pressed while showing; a proper prefix of the shown sequence while
      playing; all of it after a success; after a failure, a matching prefix
      followed by one wrong press. */
  predicate Consistent(phase: Phase, shown: seq<Button>, pressed: seq<Button>)
  {
    && (phase == Showing ==> pressed == [])
    && (phase == Playing ==> pressed < shown)
    && (phase == Success ==> pressed == shown)
    && (phase == Fail ==>
          && 1 <= |pressed| <= |shown|
          && pressed[..|pressed| - 1] < shown
          && pressed[|pressed| - 1] != shown[|pressed| - 1])
  }

  /** The part of the game state a button press changes. */
  datatype Round = Round(phase: Phase, pressed: seq<Button>, score: int)

  /** One button press, `gain` being what a completed sequence scores. */
  function PressStep(r: Round, shown: seq<Button>, gain: int, b: Button): (next: Round)
    requires Consistent(r.phase, shown, r.pressed)
    ensures Consistent(next.phase, shown, next.pressed)
    ensures r.phase != Playing ==> next == r
    ensures r.phase == Playing ==> next.pressed == r.pressed + [b]
    ensures r.phase == Playing && b != shown[|r.pressed|] ==>
              next.phase == Fail && next.score == r.score
    ensures r.phase == Playing && b == shown[|r.pressed|] && |next.pressed| < |shown| ==>
              next.phase == Playing && next.score == r.score
    ensures r.phase == Playing && b == shown[|r.pressed|] && |next.pressed| == |shown| ==>
              next.phase == Success && next.score == r.score + gain
  {
    if r.phase != Playing then r
    else
      var pressed := r.pressed + [b];
      assert pressed[..|pressed| - 1] == r.pressed;
      if b != shown[|r.pressed|] then Round(Fail, pressed, r.score)
      else
        assert pressed <= shown by {
          assert forall i :: 0 <= i < |pressed| ==> pressed[i] == shown[i];
        }
        if |pressed| == |shown| then Round(Success, pressed, r.score + gain)
        else Round(Playing, pressed, r.score)
  }

  /** A run of presses, in order. */
  function PressAll(r: Round, shown: seq<Button>, gain: int, bs: seq<Button>): (next: Round)
    requires Consistent(r.phase, shown, r.pressed)
    ensures Consistent(next.phase, shown, next.pressed)
    decreases |bs|
  {
    if bs == [] then r
    else PressAll(PressStep(r, shown, gain, bs[0]), shown, gain, bs[1..])
  }

  /** Repeating the rest of the shown sequence completes the round and
      scores the gain once. */
  lemma {:induction false} RepeatingCompletes(r: Round, shown: seq<Button>, gain: int)
    requires r.phase == Playing && r.pressed < shown
    ensures PressAll(r, shown, gain, shown[|r.pressed|..]) == Round(Success, shown, r.score + gain)
    decreases |shown| - |r.pressed|
  {
    var b := shown[|r.pressed|];
    var next := PressStep(r, shown, gain, b);
    assert shown[|r.pressed|..][1..] == shown[|next.pressed|..];
    if |next.pressed| < |shown| {
      RepeatingCompletes(next, shown, gain);
    } else {
      assert shown[|next.pressed|..] == [];
    }
  }

  /** A wrong press ends the round: further presses change nothing. */
  lemma {:induction false} FailIsFinal(r: Round, shown: seq<Button>, gain: int, bs: seq<Button>)
    requires r.phase == Fail && Consistent(r.phase, shown, r.pressed)
    ensures PressAll(r, shown, gain, bs) == r
    decreases |bs|
  {
    if bs != [] {
      FailIsFinal(r, shown, gain, bs[1..]);
    }
  }

  class Simulator {
    const tricks: seq<Trick>
    var currentTrick: Option<Trick>
    var sequence: seq<Button>
    var playerSequence: seq<Button>
    var phase: Phase
    var score: int
    var round: int

    ghost predicate Valid()
      reads this
    {
      && round >= 1
      && (phase != Ready ==> |sequence| == SequenceLength(round))
      && Consistent(phase, sequence, playerSequence)
      && (currentTrick.Some? ==> currentTrick.value in tricks)
    }

    /** What completing the current round scores. */
    function Gain(): int
      reads this`currentTrick, this`round
    {
      RoundExperience(currentTrick) * round
    }

    /** On opening, a random trick is chosen when the catalog is not empty;
        `pick` is that random index. */
    constructor (catalog: seq<Trick>, pick: nat)
      requires catalog == [] || pick < |catalog|
      ensures Valid()
      ensures tricks == catalog
      ensures currentTrick == (if catalog == [] then None else Some(catalog[pick]))
      ensures sequence == [] && playerSequence == []
      ensures phase == Ready && score == 0 && round == 1
    {
      tricks := catalog;
      currentTrick := if catalog == [] then None else Some(catalog[pick]);
      sequence := [];
      playerSequence := [];
      phase := Ready;
      score := 0;
      round := 1;
    }

    /** The start button: `shown` is the random sequence for this round. */
    method StartRound(shown: seq<Button>)
      requires Valid() && phase == Ready
      requires |shown| == SequenceLength(round)
      modifies this`sequence, this`playerSequence, this`phase
      ensures Valid()
      ensures sequence == shown && playerSequence == [] && phase == Showing
    {
      sequence := shown;
      playerSequence := [];
      phase := Showing;
    }

    /** The display timers have run: the player may now press buttons. */
    method SequenceShown()
      requires Valid() && phase == Showing
      modifies this`phase
      ensures Valid()
      ensures phase == Playing
    {
      phase := Playing;
    }

    /** A button press. Outside `Playing` it is ignored; otherwise it is
        appended, a press that differs from the expected button fails the
        round, and the last expected press completes it and scores. */
    method Press(b: Button)
      requires Valid()
      modifies this`playerSequence, this`phase, this`score
      ensures Valid()
      ensures Round(phase, playerSequence, score)
           == PressStep(Round(old(phase), old(playerSequence), old(score)), sequence, Gain(), b)
    {
      var next := PressStep(Round(phase, playerSequence, score), sequence, Gain(), b);
      phase, playerSequence, score := next.phase, next.pressed, next.score;
    }

    /** The success timer: the next round, with a new random trick chosen
        by `pick`. */
    method NextRound(pick: nat)
      requires Valid() && phase == Success
      requires tricks == [] || pick < |tricks|
      modifies this`round, this`phase, this`currentTrick
      ensures Valid()
      ensures round == old(round) + 1 && phase == Ready
      ensures currentTrick == (if tricks == [] then None else Some(tricks[pick]))
    {
      round := round + 1;
      phase := Ready;
      currentTrick := if tricks == [] then None else Some(tricks[pick]);
    }

    /** The retry button after a failed round: the same round starts over. */
    method Retry()
      requires Valid() && phase == Fail
      modifies this`phase
      ensures Valid()
      ensures phase == Ready
    {
      phase := Ready;
    }

    /** Closing the game at any moment reports the score as experience and a
        fifth of it, rounded down, as kinetics. */
    method Finish() returns (experience: int, kinetics: int)
      ensures experience == score
      ensures 5 * kinetics <= score < 5 * kinetics + 5
    {
      experience := score;
      kinetics := Kinetics(score);
    }
  }
}
