/**
 * Catalog types shared by the Kinetic Universe API and its mini-games.
 * A trick is a row of the static `tricks` catalog; the games deal tricks
 * as cards and read their difficulty and rewards. The ASCII lower-casing
 * used by the visitor classifier and the quest's code check lives here too.
 */
module KineticTypes {

  /** Trick difficulty. `Unrecognized` stands for any other stored value,
      which the card game maps to the lowest power. */
  datatype Difficulty = Novice | Amateur | Pro | Legend | Unrecognized

  datatype Trick = Trick(
    id: nat,
    difficulty: Difficulty,
    experienceReward: int,
    kineticsReward: int)

  /** ASCII lower-casing: A..Z become a..z, every other character stays. */
  function Lower(s: string): (r: string)
    ensures |r| == |s|
    ensures forall i :: 0 <= i < |s| ==> r[i] == (if 'A' <= s[i] <= 'Z' then (s[i] as int + 32) as char else s[i])
  {
    seq(|s|, i requires 0 <= i < |s| => if 'A' <= s[i] <= 'Z' then (s[i] as int + 32) as char else s[i])
  }
}
