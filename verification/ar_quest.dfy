/**
 * The AR quest mini-game: five club locations, each with a code printed on
 * a QR sign. Entering the current location's code (in any letter case)
 * finds its artifact and moves the quest on; the quest pays the rewards of
 * the artifacts found.
 *
 * The delay after an artifact is found is an explicit step.
 */
module ArQuest {
  import opened KineticTypes

  datatype Location = Location(code: string, reward: nat)

  datatype Phase = Intro | Scanning | Found | Complete

  /** The longest code the input field accepts, and the shortest it submits. */
  const MaxCodeLength := 10
  const MinCodeLength := 4

  /** The locations in quest order. */
  const Locations: seq<Location> := [
    Location("RAMP2025", 20),
    Location("SKATE2025", 25),
    Location("JUMP2025", 20),
    Location("REST2025", 15),
    Location("HELLO2025", 30)
  ]

  /** ASCII upper-casing of one character. */
  function UpperChar(c: char): (u: char)
    ensures 'a' <= c <= 'z' ==> 'A' <= u <= 'Z' && u as int == c as int - 32
    ensures !('a' <= c <= 'z') ==> u == c
  {
    if 'a' <= c <= 'z' then (c as int - 32) as char else c
  }

  function ToUpper(s: string): (u: string)
    ensures |u| == |s|
    ensures forall i :: 0 <= i < |s| ==> u[i] == UpperChar(s[i])
  {
    seq(|s|, i requires 0 <= i < |s| => UpperChar(s[i]))
  }

  /** A code is accepted when its upper-cased form is the location's code. */
  predicate Accepts(loc: Location, entered: string)
  {
    ToUpper(entered) == loc.code
  }

  /** Every code can be typed into the field and submitted. */
  lemma CodesFitTheInput(k: nat)
    requires k < |Locations|
    ensures MinCodeLength <= |Locations[k].code| <= MaxCodeLength
  {
  }

  /** Acceptance ignores letter case: a code is accepted exactly when its
      lower-cased form is. */
  lemma AcceptsIgnoresCase(loc: Location, entered: string)
    ensures Accepts(loc, entered) <==> Accepts(loc, Lower(entered))
  {
    assert ToUpper(Lower(entered)) == ToUpper(entered);
  }

  /** No location code contains a lower-case letter. */
  lemma {:induction false} CodesAreUpperCase(k: nat)
    requires k < |Locations|
    ensures ToUpper(Locations[k].code) == Locations[k].code
  {
    var code := Locations[k].code;
    forall i | 0 <= i < |code|
      ensures !('a' <= code[i] <= 'z')
    {
      if k == 0 { assert code == "RAMP2025"; }
      else if k == 1 { assert code == "SKATE2025"; }
      else if k == 2 { assert code == "JUMP2025"; }
      else if k == 3 { assert code == "REST2025"; }
      else { assert code == "HELLO2025"; }
    }
  }

  /** Every location accepts its own code as printed and in lower case, and
      refuses every other location's code. */
  lemma LowerCaseCodeAccepted(k: nat, j: nat)
    requires k < |Locations| && j < |Locations|
    ensures Accepts(Locations[k], Locations[k].code)
    ensures Accepts(Locations[k], Lower(Locations[k].code))
    ensures j != k ==> !Accepts(Locations[j], Locations[k].code)
  {
    CodesAreUpperCase(k);
    AcceptsIgnoresCase(Locations[k], Locations[k].code);
    if j != k {
      assert Locations[j].code != Locations[k].code by {
        assert Locations[0].code[0] == 'R' && Locations[1].code[0] == 'S' && Locations[2].code[0] == 'J';
        assert Locations[3].code[0] == 'R' && Locations[4].code[0] == 'H';
        assert Locations[0].code[1] == 'A' && Locations[3].code[1] == 'E';
      }
    }
  }

  /** The sum of the rewards of a run of locations. */
  function RewardSum(ls: seq<Location>): (total: nat)
    ensures ls == [] ==> total == 0
  {
    if ls == [] then 0 else RewardSum(ls[..|ls| - 1]) + ls[|ls| - 1].reward
  }

  /** The reward for `found` artifacts: the rewards of the first `found`
      locations. */
  function TotalReward(found: nat): (total: nat)
    requires found <= |Locations|
    ensures total <= 110
    ensures found == |Locations| ==> total == 110
    ensures found == 0 ==> total == 0
  {
    RewardPrefixBound(found, |Locations|);
    RewardSum(Locations[..found])
  }

  lemma AllRewardsSumTo110()
    ensures RewardSum(Locations) == 110
  {
    var ls := Locations;
    assert ls[..1][..0] == [];
    assert RewardSum(ls[..1]) == 20;
    assert ls[..2][..1] == ls[..1];
    assert RewardSum(ls[..2]) == 45;
    assert ls[..3][..2] == ls[..2];
    assert RewardSum(ls[..3]) == 65;
    assert ls[..4][..3] == ls[..3];
    assert RewardSum(ls[..4]) == 80;
    assert ls[..4] == ls[..|ls| - 1];
  }

  /** More artifacts never pay less. */
  lemma {:induction false} RewardPrefixBound(i: nat, j: nat)
    requires i <= j <= |Locations|
    ensures RewardSum(Locations[..i]) <= RewardSum(Locations[..j])
    ensures RewardSum(Locations[..|Locations|]) == 110
    decreases j - i
  {
    assert Locations[..|Locations|] == Locations;
    AllRewardsSumTo110();
    if i < j {
      RewardPrefixBound(i, j - 1);
      assert Locations[..j][..j - 1] == Locations[..j - 1];
    }
  }

  class Quest {
    var code: string
    var foundArtifacts: nat
    var currentLocation: nat
    var phase: Phase

    ghost predicate Valid()
      reads this
    {
      && currentLocation < |Locations|
      && |code| <= MaxCodeLength
      && ((phase == Intro || phase == Scanning) ==> foundArtifacts == currentLocation)
      && (phase == Found ==> foundArtifacts == currentLocation + 1)
      && (phase == Complete ==> foundArtifacts == |Locations| && currentLocation == |Locations| - 1)
    }

    constructor ()
      ensures Valid()
      ensures code == [] && foundArtifacts == 0 && currentLocation == 0 && phase == Intro
    {
      code := [];
      foundArtifacts := 0;
      currentLocation := 0;
      phase := Intro;
    }

    /** The start button on the intro screen. */
    method Start()
      requires Valid() && phase == Intro
      modifies this`phase
      ensures Valid()
      ensures phase == Scanning
    {
      phase := Scanning;
    }

    /** Typing into the code field, which keeps at most ten characters. */
    method Type(typed: string)
      requires Valid()
      modifies this`code
      ensures Valid()
      ensures code <= typed
      ensures |code| == if |typed| < MaxCodeLength then |typed| else MaxCodeLength
    {
      code := if |typed| < MaxCodeLength then typed else typed[..MaxCodeLength];
    }

    /** The submit button, enabled on the scanning screen for codes of at
        least four characters. A matching code finds the artifact; any
        other code changes nothing. */
    method SubmitCode()
      requires Valid() && phase == Scanning
      requires |code| >= MinCodeLength
      modifies this`phase, this`foundArtifacts
      ensures Valid()
      ensures Accepts(Locations[currentLocation], code) ==>
                phase == Found && foundArtifacts == old(foundArtifacts) + 1
      ensures !Accepts(Locations[currentLocation], code) ==>
                phase == old(phase) && foundArtifacts == old(foundArtifacts)
    {
      if Accepts(Locations[currentLocation], code) {
        phase := Found;
        foundArtifacts := foundArtifacts + 1;
      }
    }

    /** The delay after a find: the next location with an empty field, or
        the completed quest after the last one. */
    method AfterFind()
      requires Valid() && phase == Found
      modifies this`phase, this`currentLocation, this`code
      ensures Valid()
      ensures old(currentLocation) < |Locations| - 1 ==>
                currentLocation == old(currentLocation) + 1 && phase == Scanning && code == []
      ensures old(currentLocation) == |Locations| - 1 ==>
                currentLocation == old(currentLocation) && phase == Complete && code == old(code)
    {
      if currentLocation < |Locations| - 1 {
        currentLocation := currentLocation + 1;
        phase := Scanning;
        code := [];
      } else {
        phase := Complete;
      }
    }

    /** The claim button on the completion screen: the rewards of the found
        artifacts, which by then are all five. */
    method FinishQuest() returns (total: nat)
      requires Valid() && phase == Complete
      ensures total == RewardSum(Locations[..foundArtifacts])
      ensures total == 110
    {
      total := TotalReward(foundArtifacts);
    }
  }
}
