# n-back: a verified model of the trial engine, scorer and achievement system

n-back.cpp is a terminal dual n-back game. A player watches a sequence of
trials. Each trial lights one cell of a 3 x 3 grid and speaks one letter.
The player presses V when the cell equals the one n trials back, and A when
the letter does. This project models the deterministic core of the game in
Dafny and proves properties of it:

- `stimuli.dfy` (module `Stimuli`): the stimulus generator
  (`NBackGame::generateStimulus`) as functions over an injected random
  stream. These cover the two 30% match coins, the retry loops capped at ten
  draws, fresh runs of stimuli, and the ground-truth match flags.
- `scoring.dfy` (module `Scoring`): the signal-detection truth table
  (Hit / Miss / FalseAlarm / CorrectRejection), the running mean of the
  latency, the accuracies, and the `GameStats` record as a class.
- `achievements.dfy` (module `Achievements`): the career record
  (`PlayerStats`), the store of records by name, the eight write-once rules
  of `checkAchievements`, and the career update with its three-session
  window. The `AchievementSystem` class holds the store as a map.
- `game.dfy` (module `Game`): the `NBackGame` class covers the
  stimulus-generation methods with their loops, the shared sequence of a
  multiplayer session, per-trial scoring, one player's session
  (`runSinglePlayerTest` without its screens), and the multiplayer session.
- `wrappers.dfy` (module `Wrappers`): an `Option` type.

Modelling conventions:

- `rand()` is the field `randomStream: nat -> nat`, read at the field
  `cursor`. The k-th call returns `randomStream(k)`. Every specification
  function reports where its draws end, so the order of consumption is part
  of the model:
  - the visual coin, then the auditory coin, both only from trial n on;
  - then the visual draws;
  - then the letter draws.
- The keys pressed and the latency measured around
  `presentStimulusAndGetResponse` are a `Response` value per trial. They are
  inputs to a session.
- C++ `double`s (accuracies, latencies) are exact `real`s.
- The level `n` must be at least 1. The code indexes
  `stimulusHistory[trialIndex - n]` and does not validate `n` itself.

Two behaviours of the code are modelled as written:

- The trial counter of a session is preset to the number of trials and
  raised again by every trial. It therefore ends at twice the number of
  trials, and the running mean of the latency is diluted accordingly
  (`Scoring.MeanTimesCount`, `Scoring.DilutedMeanExample`).
- The n warm-up trials are classified too. Having no match, they count as
  correct rejections or false alarms (`Scoring.ScoredCounts`,
  `Scoring.WarmUpNeverMatches`).

Other behaviours of the code, all modelled as written:

- `checkAchievements` has no rule for MULTIPLAYER or CONSISTENT.
  MULTIPLAYER is set by the multiplayer loop of `runMultiplayerGame`.
  CONSISTENT is set silently by the career update and is never reported.
- `getAchievementCount` counts slots 0..8 only, so NINJA is never counted.
- A trial count that is not positive is not rejected. The session simply
  has no trials (`NBackGame.TrialCount`).
- An accuracy whose total is zero is left as it was, not set to zero. For a
  fresh record it is zero either way.
- The career update and the checks act on the player's copy of the career
  record, taken when the player was added. The store is never updated.
- The comments on the `Achievement` enum (n-back.cpp:94-103) describe the
  thresholds more loosely than the rules test them. The model follows the
  rules:
  - MEMORY_MASTER: the comment says above 90%, the rule tests
    `overallAccuracy >= 90.0` (line 278).
  - FAST_THINKER: the comment says below 1000 ms, the rule tests
    `responseTimeAvg <= 1000.0` (line 284).
  - PERFECT_SCORE: the comment says 100%, the rule tests
    `overallAccuracy >= 99.9` (line 290).
  - CHALLENGER: the comment says N = 5, the rule tests `nValue >= 5`
    (line 296).
  - DUAL_EXPERT: the comment says above 90% in both modalities, the rule
    tests `>= 90.0` for each (line 308).
  - NINJA: the comment says N = 3 and above 85%, the rule tests
    `nValue >= 3 && overallAccuracy >= 85.0` (line 315).
  - CONSISTENT: the comment (line 100) says above 80% in three sessions in
    a row, the loop rejects only `acc < 80.0` (line 349), so a session at
    exactly 80% counts (`Achievements.ConsistentWindow` uses `>= 80.0`).

## Model

| member | source | states |
|---|---|---|
| Stimuli.Draw | n-back.cpp:631 | a visual draw is a cell 0..8 and an auditory draw an offset 0..25 |
| Stimuli.Coin | n-back.cpp:623-624 | the match coin of a modality: the draw at that position of the stream, rand() % 100 < 30 |
| Stimuli.LetterAt | n-back.cpp:643 | 'A' + offset is a letter in 'A'..'Z' whose offset from 'A' is the offset drawn |
| Stimuli.LetterAtMatches | n-back.cpp:645-646 | comparing letters is comparing offsets from 'A', in both directions |
| Stimuli.Retry | n-back.cpp:629-635 | the do-while loop consumes at least 1 and at most 10 draws, and its value is in range |
| Stimuli.RetryEndsAt | n-back.cpp:629-635 | the loop yields draw j when every draw before j hit the value to avoid and draw j missed it or was the tenth |
| Stimuli.RetryStopsAtFirstDifferent | n-back.cpp:633-635 | every draw before the last one equalled the value n trials back |
| Stimuli.RetryCollidesOnlyAtLimit | n-back.cpp:633-635 | the result is the last draw, and it equals the value to avoid only when all 10 draws were used |
| Stimuli.Pick | n-back.cpp:626-636 | with the coin, the value n back is copied and nothing is drawn; with no stimulus n back, exactly one draw is made; otherwise 1..10 draws give a value in range |
| Stimuli.PickCollidesOnlyAfterAllDraws | n-back.cpp:628-636 | a non-coin pick equals the value n back only if all 10 draws produced that value |
| Stimuli.NBack | n-back.cpp:623-627 | the stimulus trial i is compared with: history[i - n] from trial n on, none before; it also asks that i - n be below the length of the history, which always holds because every caller keeps the history as long as the trial index |
| Stimuli.FreshStimulus | n-back.cpp:621-650 | one generated stimulus: from trial n on the visual coin, then the auditory coin; then the visual pick, then the letter pick; it consumes 2 to 22 draws, exactly 2 before trial n |
| Stimuli.FreshStimulusParts | n-back.cpp:621-650 | a generated stimulus is the visual pick after the two coins, then the letter pick after the visual draws |
| Stimuli.Extend | n-back.cpp:606-610 | appending a generated stimulus lengthens the run by one and keeps every earlier stimulus |
| Stimuli.FreshRun | n-back.cpp:606-610 | a run of m fresh trials has m stimuli |
| Stimuli.FreshStimulusInRange | n-back.cpp:616-651 | a generated stimulus has its cell in 0..8 and its letter in 'A'..'Z' when the stimulus n back does |
| Stimuli.WarmUpDrawsOnce | n-back.cpp:623-647 | before trial n no coin is drawn: the cell is rand(k) % 9, the letter 'A' + rand(k+1) % 26, and two draws are consumed |
| Stimuli.CoinCopiesNBack | n-back.cpp:623-639 | a visual (auditory) coin below 30 makes the cell (letter) that of the stimulus n back |
| Stimuli.PositionCollidesOnlyAfterTenDraws | n-back.cpp:628-636 | when the visual coin fails and the cell still equals the one n back, all ten visual draws produced it |
| Stimuli.LetterCollidesOnlyAfterTenDraws | n-back.cpp:640-648 | when the auditory coin fails and the letter still equals the one n back, the last ten draws of the trial all produced it |
| Stimuli.FreshRunInRange | n-back.cpp:602-614 | every stimulus of a generated sequence is on the grid and in 'A'..'Z' |
| Stimuli.FreshRunPrefix | n-back.cpp:606-610 | the first i stimuli of a longer run are the run of length i, so generating more trials never changes earlier ones |
| Stimuli.FreshRunAt | n-back.cpp:606-610 | trial i of a run is generated where trial i - 1 stopped, against trial i - n |
| Stimuli.MatchFlags | n-back.cpp:738-744 | the ground truth of trial i: a modality matches exactly when there is a stimulus n back, the one the generator compared with, and trial i equals it in that modality |
| Stimuli.MatchFlagsPrefix | n-back.cpp:738-744 | a trial's match flags depend only on the trials up to it |
| Stimuli.ExtendCopiesNBack | n-back.cpp:623-639 | in the trial a run is extended with, a successful coin makes that modality's ground-truth flag true |
| Stimuli.FlagsSettled | n-back.cpp:738-744 | the match flags of trial i are the same in every longer run |
| Stimuli.RunCopiesNBack | n-back.cpp:606-610 | the coins drawn for trial i of a run force that trial's flags when they succeed |
| Stimuli.CoinForcesMatch | n-back.cpp:738-744 | in a generated sequence, a trial i >= n whose visual (auditory) coin succeeded is a visual (auditory) match |
| Scoring.Classify | n-back.cpp:840-848 | the truth table: match and press give Hit, match alone Miss, press alone FalseAlarm, neither CorrectRejection |
| Scoring.ClassifyInverse | n-back.cpp:840-848 | the outcome determines the match flag and the key press, in both directions |
| Scoring.RecordClassified | n-back.cpp:840-848 | a classified trial raises the total by one, hits + misses exactly on a match, hits + false alarms exactly on a press, and the correct count exactly when they agree |
| Scoring.NextMean | n-back.cpp:850-854 | the running mean after the counter was raised to count: (mean x (count - 1) + latency) / count, or the latency when count is at most 1 |
| Scoring.RecordTrial | n-back.cpp:836-855 | one call of updatePlayerStats on the scoring fields: counter + 1, one truth-table counter per modality, the mean updated |
| Scoring.RecordTrialCounts | n-back.cpp:838-848 | one trial raises the counter by exactly 1 and, in each modality, exactly the counter the truth table names |
| Scoring.Scored | n-back.cpp:732-757 | the scoring fields after the first m trials of a session, from a record preset to p with everything else zero, each trial scored with its flags and its response |
| Scoring.ScoredExtend | n-back.cpp:732-757 | the scores of the first m trials do not depend on stimuli shown after them |
| Scoring.ScoredStep | n-back.cpp:756-757 | trial m - 1 adds the truth-table outcome of its flag and its key press |
| Scoring.ScoredCounts | n-back.cpp:732-757 | after m trials, warm-ups included, each modality has exactly m outcomes, none negative |
| Scoring.ScoredMatches | n-back.cpp:738-757 | hits + misses of a modality equal its number of match trials |
| Scoring.ScoredPresses | n-back.cpp:753-757 | hits + false alarms of a modality equal its number of key presses |
| Scoring.ScoredCorrect | n-back.cpp:738-757 | hits + correct rejections equal the number of trials whose press agreed with the flag |
| Scoring.WarmUpNeverMatches | n-back.cpp:738-744 | none of the first n trials is a match in either modality |
| Scoring.ScoredTrialCount | n-back.cpp:838 | the counter preset to p at line 723 ends at p + m after m trials |
| Scoring.RecordTrialWeighted | n-back.cpp:850-854 | one trial adds its latency to mean x counter |
| Scoring.ScoredWeighted | n-back.cpp:850-854 | after m trials, mean x counter is the sum of the m latencies |
| Scoring.MeanTimesCount | n-back.cpp:850-854 | the final mean times the final counter (preset + trials) is the sum of the latencies |
| Scoring.FirstMeanIsLatency | n-back.cpp:852-854 | from a zero counter, the first trial sets the mean to its latency exactly |
| Scoring.MeanExample | n-back.cpp:850-854 | latencies 800, 1200, 1000 from a zero counter give means 800, 1000, 1000 |
| Scoring.DilutedMeanExample | n-back.cpp:723 | with the counter preset to 3, the same three latencies end with mean 500, not 1000 |
| Scoring.ScenarioExample | n-back.cpp:732-757 | N = 2, cells 0 4 0 4 0, V pressed from trial 3: three visual hits, two warm-up correct rejections, and visual and overall accuracy 100 |
| Scoring.Accuracy | n-back.cpp:178-184 | the accuracy of one modality with a positive total: (hits + correct rejections) x 100 / total |
| Scoring.PooledAccuracy | n-back.cpp:186-190 | the overall accuracy: both modalities' correct trials x 100 over both totals |
| Scoring.AccuracyInRange | n-back.cpp:178-184 | an accuracy lies in [0, 100] and is 100 exactly when there is no miss and no false alarm |
| Scoring.PooledBetween | n-back.cpp:186-190 | the overall accuracy lies between the two modality accuracies, and is their average when the totals are equal |
| Scoring.GameStats.Start | n-back.cpp:720-723 | a session record carries the player's name and the level, has its counter preset to the trial count, and every other number zero |
| Scoring.GameStats.CalculateAccuracies | n-back.cpp:174-191 | each accuracy with a positive total becomes (hits + correct rejections) x 100 / total, pooled for the overall one; a zero total leaves the field unchanged; no counter changes |
| Achievements.NewPlayerStats | n-back.cpp:145-148 | the record of a new player: the given name, every achievement locked, no recent accuracies, all counters 0 and best response time 10000 |
| Achievements.IndexKindAt | n-back.cpp:93-105 | each of the ten achievements owns exactly one slot of the array |
| Achievements.Qualifies | n-back.cpp:272-318 | the condition of each of the eight rules; only the achievements checkAchievements tests can qualify |
| Achievements.NewlyUnlocked | n-back.cpp:268-322 | the list checkAchievements returns: the achievements whose rule fires, in rule order (see the lemmas below) |
| Achievements.AfterCheck | n-back.cpp:268-322 | the career record after checkAchievements: the record with the slot of every fired rule set to 1 (see the lemmas below) |
| Achievements.CheckedSlot | n-back.cpp:268-322 | after the checks a slot is 1 when its rule fires and keeps its old value otherwise |
| Achievements.NewlyUnlockedUnrolled | n-back.cpp:268-322 | the returned list is the rules' entries appended in the code's order |
| Achievements.FiringMembers | n-back.cpp:268-322 | an achievement is in the list exactly when it is among the rules tested and its rule fires |
| Achievements.FiringInOrder | n-back.cpp:268-322 | the list keeps the order of the rules tested |
| Achievements.NewlyUnlockedExact | n-back.cpp:268-322 | the list names exactly the achievements whose rule fired, each once, in the order NOVICE, MEMORY_MASTER, FAST_THINKER, PERFECT_SCORE, CHALLENGER, TOTAL_TESTS, DUAL_EXPERT, NINJA |
| Achievements.UnlockedIsFlipped | n-back.cpp:268-322 | an achievement is in the returned list exactly when its flag was 0 before the checks and is 1 after them |
| Achievements.CheckWritesOnce | n-back.cpp:268-322 | the checks only turn locked flags to 1, never clear one, never touch MULTIPLAYER or CONSISTENT, and change nothing but the flags |
| Achievements.CheckIdempotent | n-back.cpp:268-322 | a second check with the same inputs returns an empty list and changes nothing |
| Achievements.CareerAfter | n-back.cpp:324-357 | the career record after AchievementSystem::updatePlayerStats: counters, maxima, minimum, window and CONSISTENT (see the lemmas below) |
| Achievements.Window | n-back.cpp:340-343 | the recent accuracies with the new one pushed and the oldest erased when there are more than three |
| Achievements.CareerCounters | n-back.cpp:325-338 | one more session, the session's trial counter added, max N and best accuracy are maxima, best response time a minimum, name unchanged |
| Achievements.WindowKeepsLastThree | n-back.cpp:340-343 | the recent window ends with the new accuracy, holds at most three values, and holds the last three of the history |
| Achievements.CareerConsistent | n-back.cpp:345-357 | CONSISTENT changes exactly when it was locked and the window holds three values all at least 80; it is never cleared; no other flag changes |
| Achievements.JoinedMultiplayer | n-back.cpp:984-988 | a player's career record after the multiplayer loop: MULTIPLAYER set to 1 if it was locked |
| Achievements.JoinedMultiplayerOnlyThatFlag | n-back.cpp:984-988 | joining a multiplayer game leaves MULTIPLAYER unlocked and changes nothing else |
| Achievements.CountUnlocked | n-back.cpp:404-410 | the number of nonzero flags among the first m slots, getAchievementCount taking m = 9 |
| Achievements.NinjaNeverCounted | n-back.cpp:404-410 | the count is at most 9, does not depend on NINJA's slot, and is 0 for a new player |
| Achievements.CountMonotone | n-back.cpp:404-410 | a flag array with more unlocked slots has at least the count |
| Achievements.CountNeverDrops | n-back.cpp:404-410 | neither the checks nor the career update ever lower a player's count |
| Achievements.StoreAfterGet | n-back.cpp:259-266 | the store after getPlayerStats: the default record inserted under the name when it was absent |
| Achievements.StoreAfterGetProperties | n-back.cpp:259-266 | after a lookup the name is present with its old record or the default one (best response time 10000), other names are untouched, and a second lookup changes nothing |
| Achievements.AchievementSystem.constructor | n-back.cpp:587 | the store starts with the records read at start-up |
| Achievements.AchievementSystem.GetPlayerStats | n-back.cpp:259-266 | returns the record stored under the name after inserting the default record when the name was absent |
| Achievements.AchievementSystem.CheckAchievements | n-back.cpp:268-322 | the eight rules, tested one after the other, give the record with the fired flags set and the list of fired achievements in rule order |
| Achievements.AchievementSystem.Unlock | n-back.cpp:272-275 | one rule sets its slot to 1 and appends the achievement exactly when it qualifies and the slot was 0 |
| Achievements.AchievementSystem.UpdatePlayerStats | n-back.cpp:324-357 | the loop over the window decides CONSISTENT, and the result is the career update whose properties the lemmas above state |
| Achievements.AchievementSystem.GetAchievementCount | n-back.cpp:404-410 | the loop counts the nonzero slots among 0..8 |
| Game.SessionRun | n-back.cpp:732-736 | a session's first m trials produce m stimuli |
| Game.ReplayRun | n-back.cpp:617-619 | replaying a long enough shared sequence draws nothing and shows its first m stimuli |
| Game.FreshSession | n-back.cpp:732-736 | without replay, a session shows the generated run from its starting draw |
| Game.Finish | n-back.cpp:764 | the summary of a session after calculateAccuracies on a record that started at zero: an accuracy with a zero total stays 0 |
| Game.SessionCareer | n-back.cpp:767-768 | a player's career record after a session: the career update, then the checks on the updated record |
| Game.FinishedSession | n-back.cpp:764 | a finished session of m trials reports the level, preset + m trials, and three accuracies in [0, 100]; with no trials, all three accuracies and the mean are 0 |
| Game.NBackGame.TrialCount | n-back.cpp:732 | the number of trials the loop runs: totalTrials when positive, none otherwise |
| Game.NBackGame.constructor | n-back.cpp:582-588 | a new game has the given level, trial count and random stream, no players, no history and no shared sequence |
| Game.NBackGame.Rand | n-back.cpp:623 | rand() returns the next value of the stream and advances it by one |
| Game.NBackGame.AddPlayer | n-back.cpp:590-600 | the store gets a record for the name if it had none, and the player is appended with a copy of that record, active |
| Game.NBackGame.GenerateStimulus | n-back.cpp:616-651 | replays the shared stimulus without drawing when it reaches that far, and otherwise generates a fresh stimulus from the stream against the stimulus n back |
| Game.NBackGame.DrawStimulus | n-back.cpp:621-650 | the coins, the cell and the letter together are the fresh stimulus, and the stream is advanced past exactly its draws |
| Game.NBackGame.DrawCoins | n-back.cpp:623-624 | from trial n on, two coins are drawn (visual first), each true when rand() % 100 < 30; before trial n, none is drawn and both are false |
| Game.NBackGame.PickPosition | n-back.cpp:626-636 | the cell is copied when the coin said so, and otherwise comes from the retry loop |
| Game.NBackGame.PickLetter | n-back.cpp:638-648 | the letter is copied when the coin said so, and otherwise comes from the retry loop |
| Game.NBackGame.DrawPosition | n-back.cpp:629-635 | the loop's cell and draw count are those of the retry specification, at most 10 draws |
| Game.NBackGame.DrawLetter | n-back.cpp:641-647 | the loop's letter and draw count are those of the retry specification, at most 10 draws |
| Game.NBackGame.GeneratePredefinedSequence | n-back.cpp:602-614 | the shared sequence is the generated run of exactly totalTrials stimuli, replay is on, and the history is empty |
| Game.NBackGame.PredefineTrial | n-back.cpp:606-610 | one pass appends the next generated stimulus to both the shared sequence and the history |
| Game.NBackGame.UpdateMean | n-back.cpp:850-854 | the mean after the counter was raised is the running-mean update |
| Game.NBackGame.UpdatePlayerStats | n-back.cpp:836-855 | the counter goes up by 1, each modality's truth-table counter by 1, the mean is updated, and no other field changes |
| Game.NBackGame.NextStimulus | n-back.cpp:735-736 | the trial's stimulus is appended to the history, which stays the session's run |
| Game.NBackGame.PlayTrial | n-back.cpp:733-757 | after trial i, the history is the session's first i + 1 stimuli and the scores are those of the first i + 1 trials |
| Game.NBackGame.PlayTrials | n-back.cpp:725-762 | the history is cleared, then holds the session's stimuli, and the scores are those of all its trials |
| Game.NBackGame.StartSession | n-back.cpp:720-762 | a new record for the player at level n, preset to totalTrials, scores all trials of the session |
| Game.NBackGame.FinishSession | n-back.cpp:764-776 | the result holds the final scores with their accuracies; the player's career record is updated and then checked, and the list is what the checks unlocked |
| Game.NBackGame.RunSinglePlayerTest | n-back.cpp:713-777 | one session: the stimuli are the session's run, the scores those of the responses, and the career and new achievements follow from the summary |
| Game.NBackGame.MarkMultiplayer | n-back.cpp:984-988 | every player's career record gets MULTIPLAYER and nothing else changes |
| Game.NBackGame.PlaySession | n-back.cpp:993-996 | player p is scored on exactly the shared sequence, with no draw consumed, and only player p's record changes |
| Game.NBackGame.PlaySessions | n-back.cpp:992-996 | every player is scored on the same shared sequence with that player's own responses, and each record gets its own session's update |
| Game.NBackGame.RunMultiplayerGame | n-back.cpp:965-1000 | without players nothing changes; otherwise every player joins, one run of totalTrials stimuli is generated, and every player is scored on it |

## Left out

- Terminal I/O is not modelled: screens, keyboard polling, menus and `main`. Key presses and latencies are inputs (`Response`).
- The stimulus and inter-stimulus durations, and the sleeps, are not modelled. They only pace the screens.
- Timing and seeding are not modelled: `chrono`, `srand(time(...))`. The random stream and the latencies are parameters.
- `NetworkManager` and the remote-play helpers are not modelled, including the settings sync at lines 728-730. They are socket I/O.
- `loadPlayerStats`, `savePlayerStats` and `saveResultsToFile` are not modelled. They are file I/O. The store is passed to the `AchievementSystem` constructor, and the save at the end of the career update is left out.
- The leaderboard sort and display are not modelled. They are display code over a library sort.
- IEEE-754 rounding is not modelled: accuracies and latencies are exact reals.
- Overflow of the C++ `int` counters and the `long` latency is not modelled: integers are unbounded.
- `rand()`'s range (`RAND_MAX`) is not modelled. The stream holds arbitrary naturals, and only their remainders are used.
- Achievement names are not modelled. `checkAchievements` returns the strings `ACHIEVEMENT_NAMES[...]`; the model returns the `Achievement` values they name.
- Game.NBackGame.RunSinglePlayerTest: `player.currentStats`, which holds the session record in the code, is not kept. The session record is returned as a `SessionResult` value instead of a `GameStats` copy. The updated player is returned instead of being written through a reference.
- Game.NBackGame.PlaySessions: player p's responses are given as `responses[p]`. Who presses what is input, not logic of the program.
- The division of `generateStimulus`, `updatePlayerStats` and `runSinglePlayerTest` into several methods (`DrawStimulus`, `DrawCoins`, `PickPosition`, `PickLetter`, `UpdateMean`, `NextStimulus`, `PlayTrial`, `PlayTrials`, `StartSession`, `FinishSession`) is a factoring of the same statements in the same order.
