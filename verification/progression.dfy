/**
 * Character progression and the weekly calendar of the Kinetic Universe API:
 * the level formula applied whenever experience is granted, and the
 * Monday..Sunday window that identifies a weekly tournament.
 */
module Progression {

  const ExperiencePerLevel := 100
  const MaxLevel := 100

  /** Integer division as PostgreSQL performs it on integer operands:
      the quotient is truncated toward zero. */
  function TruncDiv(a: int, b: int): (q: int)
    requires b > 0
    ensures a >= 0 ==> b * q <= a < b * q + b
    ensures a < 0 ==> b * q - b < a <= b * q
  {
    if a >= 0 then a / b else -((-a) / b)
  }

  /** The level stored with `experience`:
      LEAST(FLOOR(experience / 100) + 1, 100) evaluated on integers. */
  function Level(experience: int): int
  {
    var raw := TruncDiv(experience, ExperiencePerLevel) + 1;
    if raw < MaxLevel then raw else MaxLevel
  }

  /** Every non-negative experience maps to a level in 1..100. */
  lemma LevelBounds(experience: int)
    requires experience >= 0
    ensures 1 <= Level(experience) <= MaxLevel
  {
  }

  /** Below the cap, level n covers exactly the experience band
      [100 * (n - 1), 100 * n); from 9900 on the level stays at 100. */
  lemma LevelBand(experience: int)
    requires experience >= 0
    ensures experience < 9900 ==>
      100 * (Level(experience) - 1) <= experience < 100 * Level(experience)
    ensures experience >= 9900 ==> Level(experience) == MaxLevel
  {
  }

  /** More experience never means a lower level. */
  lemma LevelMonotone(e1: int, e2: int)
    requires e1 <= e2
    ensures Level(e1) <= Level(e2)
  {
  }

  /** A character at 95 experience that earns 10 more reaches level 2. */
  lemma LevelExample()
    ensures Level(95) == 1 && Level(95 + 10) == 2
  {
  }

  /** The formula does not stay above 1 for negative experience:
      a client-supplied negative reward can push the level below 1. */
  lemma LevelBelowOneForNegativeExperience()
    ensures Level(-100) == 0 && Level(-250) == -1
  {
  }

  // ----- the weekly calendar -----

  /** Days are proleptic Gregorian ordinals (day 1 is 0001-01-01, a Monday),
      so the weekday of day d, Monday = 0 .. Sunday = 6, is (d - 1) mod 7. */
  function Weekday(day: int): (w: int)
    ensures 0 <= w < 7
  {
    (day - 1) % 7
  }

  datatype Week = Week(monday: int, sunday: int)

  /** The window of the week that contains `today`:
      Monday = today - weekday, Sunday = Monday + 6. */
  function CurrentWeek(today: int): (w: Week)
    ensures Weekday(w.monday) == 0
    ensures w.monday <= today <= w.sunday
    ensures w.sunday == w.monday + 6
  {
    var monday := today - Weekday(today);
    assert (monday - 1) % 7 == 0 by {
      var k := (today - 1) / 7;
      assert today - 1 == 7 * k + Weekday(today);
      assert monday - 1 == 7 * k;
    }
    Week(monday, monday + 6)
  }

  /** Any day inside a Monday..Sunday window maps back to that window's
      Monday: the windows partition the calendar, one week each. */
  lemma {:induction false} MondayOfWindow(monday: int, day: int)
    requires Weekday(monday) == 0
    requires monday <= day <= monday + 6
    ensures CurrentWeek(day).monday == monday
  {
    var k := (monday - 1) / 7;
    assert monday - 1 == 7 * k;
    var j := day - monday;
    assert day - 1 == 7 * k + j;
    assert (7 * k + j) % 7 == j;
  }

  /** Every day of the current week yields the same week. */
  lemma {:induction false} SameWeek(today: int, day: int)
    requires CurrentWeek(today).monday <= day <= CurrentWeek(today).sunday
    ensures CurrentWeek(day) == CurrentWeek(today)
  {
    MondayOfWindow(CurrentWeek(today).monday, day);
  }

  /** The Monday of the week before the current one, as the weekly results
      step looks it up: the current Monday minus seven days. */
  function PreviousWeekStart(today: int): (monday: int)
    ensures Weekday(monday) == 0
    ensures monday + 7 <= today < monday + 14
  {
    CurrentWeek(today).monday - 7
  }

  /** The previous week's Monday is the Monday of the day one week earlier. */
  lemma {:induction false} PreviousWeekIsWeekBefore(today: int)
    ensures PreviousWeekStart(today) == CurrentWeek(today - 7).monday
  {
    MondayOfWindow(PreviousWeekStart(today), today - 7);
  }
}
