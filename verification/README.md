# Kinetic Universe: the game economy and its mini-games

This project models the gamified core of the Kinetic Universe club app.

- **The Kinetic API** (`backend/kinetic-api/index.py`). Its POST actions run over
  the characters, the kinetics ledger, the notifications, the mastered tricks,
  the earned achievements, the purchases, the owned accessories, the weekly
  tournaments and the game results. Each action is one atomic state transition
  of the class `KineticApi.KineticStore`. Helpers with no state of their own
  are pure modules:
  - `Progression`: the level formula and the Monday..Sunday week window;
  - `TournamentScoring`: entry scores, `ORDER BY score DESC` and ranks 1..N;
  - `Achievements`: the predicate table, the grant filter and progress.
- **The visitor-analytics handler** (`backend/visitor-analytics/index.py`),
  modelled as a pure function from a request to a response
  (`VisitorAnalytics.Handle`).
- **The four mini-games** (`src/components/kinetic/games/`). Each game is a
  class whose fields are the component's state:
  - `CardBattle.Battle`
  - `TournamentArena.Arena`
  - `TrickSimulator.Simulator`
  - `ArQuest.Quest`

  Each `setTimeout` callback is an explicit method, and each random pick is a
  parameter.

Modelling conventions:

- **Ids.** Characters, tournaments and notifications get serial ids, which are
  their position in a sequence plus one.
- **Dates.** Dates are day ordinals, with day 1 = 0001-01-01, a Monday.
- **Tournament activity.** The week's activity counts that a tournament
  recalculation reads (games, tricks and training visits) are passed in as a
  function of the character id.
- **Trick confirmation.** This is specified by a function of the request,
  `Confirm`. The lemmas prove what it records: known, new and distinct tricks.
  They also prove that the totals are the reward sums and that a confirmation
  is idempotent.
- **Achievements.** These are specified by `NewlyEarned`. The lemmas prove:
  - it is complete: every qualifying achievement is granted;
  - it grants at most once: a second check grants nothing;
  - the grants keep the catalog's order.
- **Tournament scoring.** Recalculation is proved to give a score-descending
  ranking whose ranks are exactly 1..N.

## Model

| member | source | states |
|---|---|---|
| Progression.TruncDiv | backend/kinetic-api/index.py:436-443 | the quotient of integer `/` is truncated toward zero: for a >= 0, b*q <= a < b*q + b; for a < 0, b*q - b < a <= b*q |
| Progression.LevelBounds | backend/kinetic-api/index.py:436-443 | for non-negative experience, `LEAST(FLOOR(experience/100)+1, 100)` lies in 1..100 |
| Progression.LevelBand | backend/kinetic-api/index.py:466-472 | below 9900 experience, level n covers exactly [100(n-1), 100n); from 9900 on, the level stays at 100 |
| Progression.LevelMonotone | backend/kinetic-api/index.py:466-472 | more experience never gives a lower level |
| Progression.LevelExample | backend/kinetic-api/index.py:436-443 | 95 experience is level 1; 10 more experience reaches level 2 |
| Progression.LevelBelowOneForNegativeExperience | backend/kinetic-api/index.py:466-472 | the formula is not bounded below for negative experience: -100 gives level 0 and -250 gives level -1 |
| Progression.Weekday | backend/kinetic-api/index.py:29-31 | the weekday of a day ordinal is in 0..6, with Monday = 0 |
| Progression.CurrentWeek | backend/kinetic-api/index.py:29-33 | the window holds today; it starts on a Monday; it ends on the Sunday six days later |
| Progression.MondayOfWindow | backend/kinetic-api/index.py:29-33 | every day of a Monday..Sunday window maps back to that Monday, so the windows partition the calendar |
| Progression.SameWeek | backend/kinetic-api/index.py:29-33 | all days of the current week yield the same window, so the week's tournament is keyed consistently |
| Progression.PreviousWeekStart | backend/kinetic-api/index.py:726-727 | the previous Monday is a Monday with monday+7 <= today < monday+14 |
| Progression.PreviousWeekIsWeekBefore | backend/kinetic-api/index.py:726-727 | the previous Monday is the Monday of the day one week earlier |
| TournamentScoring.Rescored | backend/kinetic-api/index.py:84-88 | the rescored entry has 10 per game, 25 per trick and 30 per training, and their sum as the total; its character and rank are kept |
| TournamentScoring.ScoreMonotone | backend/kinetic-api/index.py:84 | more activity of any kind never lowers the total score |
| TournamentScoring.OrderByScoreDesc | backend/kinetic-api/index.py:90-93 | the result lists every entry index exactly once, and the scores along it never increase |
| TournamentScoring.InsertKeepsOrdering | backend/kinetic-api/index.py:90-93 | inserting index i into an ordering of 0..i-1 gives an ordering of 0..i |
| TournamentScoring.InsertKeepsSorted | backend/kinetic-api/index.py:90-93 | inserting before the first strictly lower score keeps the prefix ordering complete and score-descending |
| TournamentScoring.RecalcScores | backend/kinetic-api/index.py:56-96 | every entry keeps its character and is scored from its own activity; the standings are an ordering of all entries; position p gets rank p+1; scores never increase along the standings |
| TournamentScoring.RanksArePermutation | backend/kinetic-api/index.py:90-96 | after ranking, every rank is in 1..N, no two entries share a rank, and every rank 1..N is held |
| TournamentScoring.HigherScoreBetterRank | backend/kinetic-api/index.py:90-96 | a strictly higher score always receives a strictly better (smaller) rank |
| Achievements.NewlyEarned | backend/kinetic-api/index.py:109-130 | a check grants only catalog achievements that are not yet earned and whose predicate holds, at most one per catalog row |
| Achievements.NewlyEarnedStep | backend/kinetic-api/index.py:109-130 | walking one more catalog row appends that achievement exactly when it is not yet earned and its predicate holds |
| Achievements.NewlyEarnedComplete | backend/kinetic-api/index.py:109-130 | every not-yet-earned catalog achievement whose predicate holds is granted |
| Achievements.NewlyEarnedEmpty | backend/kinetic-api/index.py:109-130 | with nothing qualifying, a check grants nothing |
| Achievements.SecondCheckGrantsNothing | backend/kinetic-api/index.py:103-111 | once a check's grants are recorded, a second check on the same statistics grants nothing (each achievement at most once) |
| Achievements.NewlyEarnedAscending | backend/kinetic-api/index.py:105-106 | grants come out in the catalog's ascending id order, hence without repeats |
| Achievements.RewardSum | backend/kinetic-api/index.py:131-132 | the credited kinetics are never negative: only positive rewards are credited |
| Achievements.RewardSumNonPositive | backend/kinetic-api/index.py:131-132 | grants with no positive reward credit nothing |
| Achievements.Progress | backend/kinetic-api/index.py:243-251 | character creation shows 1 and an unknown kind shows 0; a threshold kind shows min(tracked statistic, requirement): below the requirement it is the tricks count, level or games won itself, and it equals the requirement exactly when the predicate holds |
| Achievements.FifthTrickExample | backend/kinetic-api/index.py:117-118 | a five-trick achievement is granted at the fifth distinct trick and not at the fourth |
| KineticApi.FieldFor | backend/kinetic-api/index.py:576-590 | exactly the five item types hairstyle, hair_color, body_type, name and avatar_url map to a character column |
| KineticApi.Credit | backend/kinetic-api/index.py:436-443 | experience and kinetics grow by the grant, and the level is the formula applied to the new experience |
| KineticApi.Adjust | backend/kinetic-api/index.py:533 | only the kinetics balance changes, by the amount given |
| KineticApi.Played | backend/kinetic-api/index.py:466-472 | experience and kinetics grow by the grant; the level follows the new experience; one more game is played; one more is won exactly when the game was won |
| KineticApi.CurrentSports | backend/kinetic-api/index.py:625 | the stored sport list, or the main sport when that list is empty; never empty |
| KineticApi.WithSport | backend/kinetic-api/index.py:634-637 | the sport list becomes the current list plus the new sport, and the balance is untouched |
| KineticApi.ConfirmOwned | backend/kinetic-api/index.py:422-435 | the mastered set grows by exactly the recorded ids, each a catalog trick from the request that was not mastered before |
| KineticApi.ConfirmDistinct | backend/kinetic-api/index.py:427-435 | no trick is recorded twice, even when it is repeated in the request (the unique pair) |
| KineticApi.ConfirmTotals | backend/kinetic-api/index.py:432-435 | the totals are the summed experience and kinetics rewards of exactly the recorded tricks |
| KineticApi.ConfirmSound | backend/kinetic-api/index.py:422-435 | the three facts together: what is recorded, that nothing is recorded twice, and that the totals are its reward sums |
| KineticApi.ConfirmComplete | backend/kinetic-api/index.py:422-435 | every requested catalog trick that is not yet mastered is recorded |
| KineticApi.ConfirmNothingNew | backend/kinetic-api/index.py:422-435 | when every requested trick is unknown or already mastered, nothing is recorded and nothing is rewarded |
| KineticApi.ReconfirmAddsNothing | backend/kinetic-api/index.py:416-456 | confirming the same request again records nothing and rewards nothing |
| KineticApi.Pairs | backend/kinetic-api/index.py:427-431 | the inserted mastery rows all belong to the confirming character |
| KineticApi.Grants | backend/kinetic-api/index.py:123-126 | the inserted grant rows all belong to the checked character |
| KineticApi.RewardRows | backend/kinetic-api/index.py:131-137 | every achievement ledger row is an earn row of a positive amount for the checked character |
| KineticApi.AchievementNotices | backend/kinetic-api/index.py:138-141 | exactly one notice per grant |
| KineticApi.GrantStep | backend/kinetic-api/index.py:123-141 | one more grant adds its positive reward to the credit, adds one ledger row when that reward is positive, adds one notice and adds one grant row |
| KineticApi.MarkRead | backend/kinetic-api/index.py:490-500 | rows stay in place; a row becomes read exactly when it was read already, or it is the caller's row and is listed (or no ids are listed) |
| KineticApi.MarkReadIdempotent | backend/kinetic-api/index.py:490-500 | marking twice is the same as marking once, and another character's rows never change |
| KineticApi.Broadcast | backend/kinetic-api/index.py:47-53 | a new tournament is announced once to every character (in id order, see Left out) |
| KineticApi.ResultNotices | backend/kinetic-api/index.py:743-759 | exactly one weekly-result notice per entry |
| KineticApi.WeekIndex | backend/kinetic-api/index.py:37-38 | the lookup finds a tournament whose week starts on the given Monday, or reports that none does |
| KineticApi.KineticStore.ProgressStats | backend/kinetic-api/index.py:236-249 | for an unknown character, the level and games won count as 0 |
| KineticApi.KineticStore.AchievementProgress | backend/kinetic-api/index.py:230-254 | one progress value per catalog achievement, in catalog order, each the `Progress` value (the tracked statistic capped at the requirement) for that character's statistics |
| KineticApi.KineticStore.PendingGrants | backend/kinetic-api/index.py:109-141 | the loop collects exactly `NewlyEarned`, along with its credited sum, its ledger rows and its notices |
| KineticApi.KineticStore.CheckAchievements | backend/kinetic-api/index.py:98-142 | an unknown character is left alone; otherwise exactly `NewlyEarned` is granted, none of it previously earned, with the kinetics credited, one ledger row per positive reward and one notice per grant |
| KineticApi.KineticStore.ApplyGrants | backend/kinetic-api/index.py:123-141 | the grant rows, the credit, the ledger rows and the notices of one check, and nothing else |
| KineticApi.KineticStore.CreateCharacter | backend/kinetic-api/index.py:346-367 | refused, with nothing changed, exactly when the user already has a character; otherwise the new id is appended with 100 kinetics and a welcome notice, and the achievement check runs on a character with no tricks |
| KineticApi.KineticStore.AddCharacter | backend/kinetic-api/index.py:353-363 | the character is appended under the next serial id, with a welcome notice and no tricks or achievements yet |
| KineticApi.KineticStore.AddKinetics | backend/kinetic-api/index.py:390-414 | fails exactly on an unknown character, with nothing changed; otherwise any signed amount is applied (no balance check) with an earn or spend row and one notice |
| KineticApi.KineticStore.RecordTricks | backend/kinetic-api/index.py:422-435 | the loop records exactly what `Confirm` specifies and inserts those mastery rows |
| KineticApi.KineticStore.ConfirmTricks | backend/kinetic-api/index.py:416-456 | records per `Confirm`; credits the summed rewards once, with one ledger row and one notice, only when a total is positive; then applies the achievement check to the new statistics |
| KineticApi.KineticStore.CreditTricks | backend/kinetic-api/index.py:436-449 | one credit, one ledger row and one notice, only when one of the totals is positive |
| KineticApi.KineticStore.GameComplete | backend/kinetic-api/index.py:458-488 | the grant and game counters; the level follows the new experience; one result row; a ledger row only for positive kinetics; then the achievement check |
| KineticApi.KineticStore.RecordGame | backend/kinetic-api/index.py:466-484 | the character update, the result row, and the ledger row of a positive kinetics grant |
| KineticApi.KineticStore.MarkNotificationsRead | backend/kinetic-api/index.py:490-500 | the notifications become `MarkRead` of the old ones |
| KineticApi.KineticStore.PurchaseItem | backend/kinetic-api/index.py:502-544 | checks in order, with nothing committed on failure: unknown character, balance below cost, item already bought. It succeeds exactly when none of these holds; on success, it records the item, debits exactly the cost (the balance stays non-negative), and adds one spend row and one notice |
| KineticApi.KineticStore.PurchaseCustomization | backend/kinetic-api/index.py:546-612 | checks in order, with nothing committed on failure: unknown character, balance below cost (even for an owned item), invalid item type. It succeeds exactly when none of these holds. On success the column is set; an owned item is free; a new item with a positive cost is recorded and debited once, with one row and one notice |
| KineticApi.KineticStore.AddSport | backend/kinetic-api/index.py:614-649 | checks in order: unknown character, sport already in the current list, balance below cost. It succeeds exactly when none of these holds; on success, it appends the sport and debits exactly the cost with one row and one notice |
| KineticApi.KineticStore.GetOrCreateTournament | backend/kinetic-api/index.py:35-54 | returns the tournament of today's week; when none exists it creates one with the default fee and no entries, and announces it to every character |
| KineticApi.KineticStore.RecalcTournamentScores | backend/kinetic-api/index.py:56-96 | an unknown tournament is left alone; otherwise its entries are rescored from activity and ranked 1..N in score-descending order, and the other tournaments are unchanged |
| KineticApi.KineticStore.JoinTournament | backend/kinetic-api/index.py:651-688 | the week's tournament is kept (and announced) even when the join fails; the join fails exactly when an entry already exists, then exactly on an unknown character or a balance below the fee; on success, the fee is debited once and exactly one entry is added. The scores are then recalculated: the returned standings list every entry once, in non-increasing score order, and the entry at position p has rank p + 1 |
| KineticApi.KineticStore.EnterTournament | backend/kinetic-api/index.py:656-685 | the same failure cases, with nothing changed; on success, one debit, one spend row, one notice and one new entry for the character. It succeeds exactly when there is no entry for the character, the character exists and the balance covers the fee. All entries are then rescored, and the returned standings rank them 1..N in non-increasing score order |
| KineticApi.KineticStore.SendWeeklyResults | backend/kinetic-api/index.py:725-763 | fails, with nothing changed, exactly when no tournament starts on the previous Monday; otherwise it recalculates that tournament and sends one notice per entry, in standings order, with its rank, score and the participant count. The standings rank the entries 1..N in non-increasing score order |
| KineticApi.KineticStore.NotifyResults | backend/kinetic-api/index.py:743-759 | the notices of every entry, in standings order, appended together |
| KineticApi.KineticStore.BuyAccessory | backend/kinetic-api/index.py:778-814 | checks in order, with nothing committed on failure: unknown character, unknown or unavailable accessory, accessory already owned, balance below price. It succeeds exactly when none of these holds; on success, the price is debited once, the accessory is owned, and one row and one notice are added |
| KineticTypes.Lower | backend/visitor-analytics/index.py:59 | lower-casing changes exactly the upper-case ASCII letters |
| VisitorAnalytics.FirstField | backend/visitor-analytics/index.py:46 | the prefix before the first comma: it contains no comma, and it is followed by a comma or the end of the text |
| VisitorAnalytics.StripLeft | backend/visitor-analytics/index.py:46 | a suffix: everything dropped is whitespace in Python's `str.isspace` sense (ASCII and Unicode spaces), and what remains does not start with whitespace |
| VisitorAnalytics.StripRight | backend/visitor-analytics/index.py:46 | a prefix: everything dropped is whitespace in Python's `str.isspace` sense, and what remains does not end with whitespace |
| VisitorAnalytics.Strip | backend/visitor-analytics/index.py:46 | the result neither starts nor ends with whitespace |
| VisitorAnalytics.DeviceOf | backend/visitor-analytics/index.py:57-62 | mobile exactly when the lower-cased agent contains "mobile"; tablet exactly when it contains "tablet" and not "mobile"; desktop otherwise |
| VisitorAnalytics.BrowserOf | backend/visitor-analytics/index.py:64-73 | the first of chrome, firefox, safari and edge that the lower-cased agent contains, each as an if-and-only-if; unknown when none occurs |
| VisitorAnalytics.ChromeShadowsEdge | backend/visitor-analytics/index.py:66-73 | any agent whose lower-cased text contains both "chrome" and "edge" is classified as Chrome, never as Edge |
| VisitorAnalytics.ChromeEdgeExample | backend/visitor-analytics/index.py:66-73 | "Chrome Edge" names Edge and is still classified as Chrome |
| VisitorAnalytics.ClassificationIsCaseInsensitive | backend/visitor-analytics/index.py:59-72 | both classifications give the same answer for an agent and its lower-cased form |
| VisitorAnalytics.ClassificationIgnoresCase | backend/visitor-analytics/index.py:59-72 | "TABLET" is a tablet and "FIREFOX" is Firefox |
| VisitorAnalytics.ClientIp | backend/visitor-analytics/index.py:46 | the stripped first x-forwarded-for entry when it is non-empty; otherwise x-real-ip, or "unknown" |
| VisitorAnalytics.ClientIpFirstEntry | backend/visitor-analytics/index.py:46 | " a ,b" yields "a" |
| VisitorAnalytics.FirstFieldExample | backend/visitor-analytics/index.py:46 | the first field of " a ,b" is " a " |
| VisitorAnalytics.StripExample | backend/visitor-analytics/index.py:46 | stripping " a " gives "a" |
| VisitorAnalytics.ClientIpFallback | backend/visitor-analytics/index.py:46 | a first entry that strips to empty falls back to x-real-ip |
| VisitorAnalytics.ClientIpNoHeaders | backend/visitor-analytics/index.py:46 | with neither header, the address is "unknown" |
| VisitorAnalytics.ClientIpUnicodeSpaceFallsBack | backend/visitor-analytics/index.py:46 | a first entry that is only a no-break space strips to empty, so x-real-ip is used |
| VisitorAnalytics.Handle | backend/visitor-analytics/index.py:13-118 | OPTIONS gives 200 with an empty body; any other non-POST method gives 405; an unreadable POST gives 500; a readable POST gives 200 with a new visitor, the body's visitorId or "unknown-visitor". The echoed user agent is the user-agent header, and device and browser are classified from it. The page defaults to "/", the referrer to "", and each UTM field to "" when the body or its utm object is missing |
| VisitorAnalytics.MissingMethodIsRefused | backend/visitor-analytics/index.py:13 | a request without a method counts as GET and is refused with 405 |
| CardBattle.DifficultyPower | src/components/kinetic/games/CardBattle.tsx:30-36 | the difficulty rank is in 1..4 |
| CardBattle.CardPower | src/components/kinetic/games/CardBattle.tsx:29-37 | power is the experience reward plus ten times a rank in 1..4 |
| CardBattle.HarderCardWins | src/components/kinetic/games/CardBattle.tsx:29-37 | with rewards below ten, the harder card always has the higher power |
| CardBattle.UnrecognizedPlaysAsNovice | src/components/kinetic/games/CardBattle.tsx:36 | an unrecognised difficulty has exactly a novice card's power |
| CardBattle.RemoveById | src/components/kinetic/games/CardBattle.tsx:40 | the hand keeps exactly the cards whose id differs from the played card's, and never grows |
| CardBattle.RemoveByIdShrinks | src/components/kinetic/games/CardBattle.tsx:40 | playing a card that is in the hand strictly shrinks the hand |
| CardBattle.PlayerPoint | src/components/kinetic/games/CardBattle.tsx:55-57 | the player scores exactly when their card is strictly stronger |
| CardBattle.OpponentPoint | src/components/kinetic/games/CardBattle.tsx:58-60 | the opponent scores exactly when its card is strictly stronger |
| CardBattle.AtMostOnePoint | src/components/kinetic/games/CardBattle.tsx:55-61 | a round gives at most one point in all, and none on equal power |
| CardBattle.Reward | src/components/kinetic/games/CardBattle.tsx:77-82 | 80 kinetics exactly on a strict win, and 30 otherwise |
| CardBattle.Battle.constructor | src/components/kinetic/games/CardBattle.tsx:15-22 | two equal-size hands dealt, round 1, no score, empty field |
| CardBattle.Battle.PlayCard | src/components/kinetic/games/CardBattle.tsx:39-46 | the hand loses the played card's id and strictly shrinks; both fields are set, the opponent's to the drawn card |
| CardBattle.Battle.ScoreRound | src/components/kinetic/games/CardBattle.tsx:48-61 | each score grows by its point; the total score never exceeds the rounds resolved |
| CardBattle.Battle.Advance | src/components/kinetic/games/CardBattle.tsx:63-73 | after round 5 the result is shown; otherwise the next round starts with an empty field |
| CardBattle.Battle.Finish | src/components/kinetic/games/CardBattle.tsx:77-82 | 80 exactly on a strict win, and 30 otherwise; the two scores total at most 5 |
| TournamentArena.PlayerTricks | src/components/kinetic/games/TournamentArena.tsx:21 | the offered tricks are the first min(5, N) catalog tricks |
| TournamentArena.OfferedTricksAreCatalogTricks | src/components/kinetic/games/TournamentArena.tsx:21-27 | an offered trick is a catalog trick, so the catalog is non-empty and the opponent can draw |
| TournamentArena.PlayerPoint | src/components/kinetic/games/TournamentArena.tsx:38-40 | the player scores exactly on a strictly larger experience reward |
| TournamentArena.OpponentPoint | src/components/kinetic/games/TournamentArena.tsx:41-43 | the opponent scores exactly on a strictly larger experience reward |
| TournamentArena.AtMostOnePoint | src/components/kinetic/games/TournamentArena.tsx:32-44 | a round gives at most one point in all, and none on a tie |
| TournamentArena.Rewards | src/components/kinetic/games/TournamentArena.tsx:61-66 | won exactly on a strict lead, with 50 XP and 100 kinetics; otherwise 20 XP and 50 kinetics |
| TournamentArena.Arena.constructor | src/components/kinetic/games/TournamentArena.tsx:15-20 | the prepare phase of round 1, with no scores and no tricks chosen |
| TournamentArena.Arena.SelectTrick | src/components/kinetic/games/TournamentArena.tsx:25-29 | the chosen trick and the opponent's drawn catalog trick are set, and the battle phase begins |
| TournamentArena.Arena.ScoreRound | src/components/kinetic/games/TournamentArena.tsx:31-44 | each score grows by its point; the total never exceeds the rounds resolved |
| TournamentArena.Arena.Advance | src/components/kinetic/games/TournamentArena.tsx:46-57 | after round 3 the result is shown; otherwise the next round starts from a fresh choice |
| TournamentArena.Arena.Finish | src/components/kinetic/games/TournamentArena.tsx:61-66 | the payout as `Rewards` states it; two round wins decide the game |
| TrickSimulator.SequenceLength | src/components/kinetic/games/TrickSimulator.tsx:37 | the length is 3 + round, capped at 7; it is always in 4..7 and is 7 exactly from round 4 on |
| TrickSimulator.SequenceLengthMonotone | src/components/kinetic/games/TrickSimulator.tsx:37 | later rounds never show shorter sequences |
| TrickSimulator.RoundExperience | src/components/kinetic/games/TrickSimulator.tsx:68 | the trick's reward when present and non-zero, and 50 otherwise; never 0 |
| TrickSimulator.Kinetics | src/components/kinetic/games/TrickSimulator.tsx:82 | a fifth of the score, rounded down |
| TrickSimulator.PressStep | src/components/kinetic/games/TrickSimulator.tsx:53-70 | ignored outside playing; otherwise appended. A wrong button fails without scoring; the last right button succeeds and scores the gain once; the phase stays consistent with what was pressed |
| TrickSimulator.PressAll | src/components/kinetic/games/TrickSimulator.tsx:53-78 | any run of presses keeps the phase consistent with what was pressed |
| TrickSimulator.RepeatingCompletes | src/components/kinetic/games/TrickSimulator.tsx:53-70 | pressing the rest of the shown sequence from any correct prefix succeeds with the full sequence and scores the gain exactly once |
| TrickSimulator.FailIsFinal | src/components/kinetic/games/TrickSimulator.tsx:54 | after a wrong press, further presses change nothing |
| TrickSimulator.Simulator.constructor | src/components/kinetic/games/TrickSimulator.tsx:14-28 | a random trick is chosen when the catalog is non-empty; ready state, round 1, score 0 |
| TrickSimulator.Simulator.StartRound | src/components/kinetic/games/TrickSimulator.tsx:35-43 | the shown sequence, of the round's length, is set; nothing is pressed; showing begins |
| TrickSimulator.Simulator.SequenceShown | src/components/kinetic/games/TrickSimulator.tsx:45-51 | after showing, playing begins |
| TrickSimulator.Simulator.Press | src/components/kinetic/games/TrickSimulator.tsx:53-70 | the press state moves exactly as `PressStep` says, with the gain of trick reward times round |
| TrickSimulator.Simulator.NextRound | src/components/kinetic/games/TrickSimulator.tsx:72-76 | after a success, the round grows by one, the game is ready again, and a new random trick is chosen |
| TrickSimulator.Simulator.Retry | src/components/kinetic/games/TrickSimulator.tsx:187 | after a failure, the game returns to ready with the same round |
| TrickSimulator.Simulator.Finish | src/components/kinetic/games/TrickSimulator.tsx:80-85 | the score as experience, and a fifth of it, rounded down, as kinetics |
| ArQuest.UpperChar | src/components/kinetic/games/ARQuest.tsx:29 | ASCII a..z map to A..Z; every other character is unchanged |
| ArQuest.ToUpper | src/components/kinetic/games/ARQuest.tsx:29 | upper-casing keeps the length and maps each character |
| ArQuest.CodesFitTheInput | src/components/kinetic/games/ARQuest.tsx:18-24 | every location code has 4..10 characters, so it can be typed and submitted |
| ArQuest.LowerCaseCodeAccepted | src/components/kinetic/games/ARQuest.tsx:29 | every location accepts its own code, both as written and in lower case, and every other location refuses it |
| ArQuest.AcceptsIgnoresCase | src/components/kinetic/games/ARQuest.tsx:29 | for any location and any entered text, the text is accepted exactly when its lower-cased form is |
| ArQuest.CodesAreUpperCase | src/components/kinetic/games/ARQuest.tsx:18-24 | every location code is already upper case, so upper-casing leaves it unchanged |
| ArQuest.RewardSum | src/components/kinetic/games/ARQuest.tsx:48 | no locations pay nothing |
| ArQuest.TotalReward | src/components/kinetic/games/ARQuest.tsx:47-51 | the reward for the found artifacts is at most 110, is 110 for all five, and is 0 for none |
| ArQuest.AllRewardsSumTo110 | src/components/kinetic/games/ARQuest.tsx:18-24 | the five rewards total 110 |
| ArQuest.RewardPrefixBound | src/components/kinetic/games/ARQuest.tsx:48 | more found artifacts never pay less |
| ArQuest.Quest.constructor | src/components/kinetic/games/ARQuest.tsx:13-16 | intro screen, empty code, nothing found, first location |
| ArQuest.Quest.Start | src/components/kinetic/games/ARQuest.tsx:75 | the intro button starts scanning |
| ArQuest.Quest.Type | src/components/kinetic/games/ARQuest.tsx:106 | the field keeps a prefix of the typed text, at most 10 characters long |
| ArQuest.Quest.SubmitCode | src/components/kinetic/games/ARQuest.tsx:26-45 | a matching code finds the artifact (found + 1); any other code changes nothing |
| ArQuest.Quest.AfterFind | src/components/kinetic/games/ARQuest.tsx:33-41 | after a find, the next location with an empty field, or completion after the fifth |
| ArQuest.Quest.FinishQuest | src/components/kinetic/games/ARQuest.tsx:47-51 | the rewards of the found locations, which on completion are all five: 110 |

## Left out

- Database I/O, connections, transactions and concurrency. Every action is one atomic transition, since each handler commits once or not at all. Races between concurrent requests are not modelled.
- The clock. `date.today()` and `datetime.now()` become the `today` parameter; timestamps and `updated_at` columns are dropped.
- The GET endpoints of the API handler (`backend/kinetic-api/index.py:169-342`, `765-776`). They only read the tables. Their one computed value, achievement progress, is modelled by `AchievementProgress`.
- `update_character`, `add_training_visit`, `set_trainer` and `set_age` (`backend/kinetic-api/index.py:369-389`, `690-724`). They write client-supplied columns with no rule to prove. Training visits appear only as the activity counts passed to tournament scoring.
- JSON encoding, CORS headers, response messages, notification titles and texts, and ledger descriptions. Notifications keep their recipient, their kind and the ids, ranks and scores they carry.
- The activity counts of `recalc_tournament_scores`. They are the COUNT queries over the game, trick and training tables for the week window, and are passed in rather than recomputed from stored timestamps.
- Broadcast: announces in character id order. The SELECT that lists the characters (`backend/kinetic-api/index.py:47`) has no ORDER BY, so the database may use another order. Only the set of recipients and one notice each are guaranteed.
- The tie order of `ORDER BY score DESC`. The database leaves it open. The model keeps storage order, and no contract relies on it.
- SendWeeklyResults: the notices follow the ranking order. The handler's second `ORDER BY score DESC` may order equal scores differently. That query's join with characters drops no entry here, because entries are only created for existing characters.
- Column defaults that the schema would supply: level 1, experience 0, the game counters 0, the entry fee 100 (the amount the new-tournament announcement names) and NULL ranks (read as 0). The schema is not part of this model.
- The cosmetic defaults of `create_character` (`body_type` 1, `hairstyle` 1, `hair_color` "#000000") are passed in as strings.
- ConfirmTricks: requires an existing character. The handler never checks this, and the outcome for an unknown id depends on foreign-key constraints outside this model.
- GameComplete: requires an existing character, for the same reason.
- `Lower` and `ToUpper` map ASCII letters only. Python's `str.lower` and JavaScript's `toUpperCase` cover all of Unicode.
- The visitor-analytics handler computes the client address (`ClientIp`) but does not return it. `Handle` therefore does not use it. The `sessionId`, `timestamp` and `message` fields of its response are dropped.
- Every random choice and every timer in the mini-games is an explicit input or method:
  - random choices: the shuffled hands, the opponent's card or trick, the simulator's trick and sequence;
  - timers: `setTimeout`, and the sequence display delay.
- Rendering, the alert on a wrong quest code, and the `onComplete`/`onClose` callbacks are left out. The values handed to `onComplete` are the results of the `Finish` methods.
- The trick simulator's per-round `earnedKinetics` (`TrickSimulator.tsx:69`) is computed and never used, so it is not modelled.
- Game payouts are not connected to `game_complete`. The frontend glue that posts them is not part of this model.
